/** The sequential bookkeeping of the race tests' worker threads: a counter of
    unfinished workers, and a group that numbers and names the workers it
    spawns and collects their failures into one report. */
module RaceGroup {
  import opened Wrappers
  import opened Numerals

  /** What `WaitGroup.add` ends in: the counter was updated (and waiters were
      notified when it reached zero), or it became negative and
      AssertionError("#workers is negative") was raised. */
  datatype AddOutcome = Added(notified: bool) | NegativeWorkers

  class WaitGroup {
    var n: int

    constructor()
      ensures n == 0
    {
      n := 0;
    }

    /** `add`: the counter is updated first, then checked, so after the
        AssertionError it stays negative. */
    method Add(delta: int) returns (r: AddOutcome)
      modifies this
      ensures n == old(n) + delta
      ensures r == NegativeWorkers <==> n < 0
      ensures r != NegativeWorkers ==> r == Added(n == 0)
    {
      n := n + delta;
      if n < 0 {
        return NegativeWorkers;
      }
      r := Added(n == 0);
    }

    method Done() returns (r: AddOutcome)
      modifies this
      ensures n == old(n) - 1
      ensures r == NegativeWorkers <==> n < 0
      ensures r != NegativeWorkers ==> r == Added(n == 0)
    {
      r := Add(-1);
    }

    /** `wait`: with no worker left it returns True at once; otherwise the
        result is whether the condition was signalled before the timeout,
        which the scheduler decides and is given as `signalled`. */
    method Wait(signalled: bool) returns (ok: bool)
      ensures n == 0 ==> ok
      ensures n != 0 ==> ok == signalled
    {
      if n == 0 {
        return true;
      }
      ok := signalled;
    }
  }

  /** The entries of `failv` the final report keeps: the truthy ones, that
      is neither None nor the empty string, in order. */
  function Reported(failv: seq<Option<string>>): (r: seq<string>)
    ensures |r| <= |failv|
    ensures forall m :: m in r ==> m != "" && Some(m) in failv
  {
    if failv == [] then []
    else
      var init := Reported(failv[..|failv| - 1]);
      var last := failv[|failv| - 1];
      assert forall m :: Some(m) in failv[..|failv| - 1] ==> Some(m) in failv;
      if last.Some? && last.value != "" then init + [last.value] else init
  }

  /** The indices `idx` pick out exactly the truthy entries of `failv`, in
      order: `r[a]` is the entry at `idx[a]`, the indices ascend strictly, and
      every truthy entry's index is among them. */
  predicate ListedAt(idx: seq<nat>, r: seq<string>, failv: seq<Option<string>>)
  {
    |idx| == |r| && StrictlyIncreasing(idx) && Picks(idx, r, failv) && Covers(idx, failv)
  }

  predicate StrictlyIncreasing(idx: seq<nat>)
  {
    forall a, b :: 0 <= a < b < |idx| ==> idx[a] < idx[b]
  }

  predicate Picks(idx: seq<nat>, r: seq<string>, failv: seq<Option<string>>)
    requires |idx| == |r|
  {
    forall a :: 0 <= a < |idx| ==> idx[a] < |failv| && failv[idx[a]] == Some(r[a])
  }

  predicate Covers(idx: seq<nat>, failv: seq<Option<string>>)
  {
    forall j :: 0 <= j < |failv| && failv[j].Some? && failv[j].value != "" ==> j in idx
  }

  /** The indices of the truthy entries of `failv`, in order. */
  function TruthyIndices(failv: seq<Option<string>>): seq<nat>
  {
    if failv == [] then []
    else
      var last := failv[|failv| - 1];
      TruthyIndices(failv[..|failv| - 1]) + (if last.Some? && last.value != "" then [|failv| - 1] else [])
  }

  /** `[_ for _ in failv if _]`: the kept entries are the truthy entries of
      `failv`, each once and in order. */
  lemma {:induction false} ReportedInOrder(failv: seq<Option<string>>)
    ensures ListedAt(TruthyIndices(failv), Reported(failv), failv)
  {
    if failv != [] {
      var init := failv[..|failv| - 1];
      var last := failv[|failv| - 1];
      ReportedInOrder(init);
      assert init + [last] == failv;
      ReportedAppend(init, last);
      if last.Some? && last.value != "" {
        ListedAtKeep(TruthyIndices(init), Reported(init), init, last.value);
      } else {
        ListedAtSkip(TruthyIndices(init), Reported(init), init, last);
      }
    }
  }

  /** One more truthy entry: its index joins the list. */
  lemma ListedAtKeep(idx0: seq<nat>, r0: seq<string>, init: seq<Option<string>>, m: string)
    requires ListedAt(idx0, r0, init) && m != ""
    ensures ListedAt(idx0 + [|init|], r0 + [m], init + [Some(m)])
  {
    var failv := init + [Some(m)];
    var r := r0 + [m];
    var idx := idx0 + [|init|];
    forall a, b | 0 <= a < b < |idx|
      ensures idx[a] < idx[b]
    {
      if b == |idx0| {
        assert idx[a] == idx0[a] < |init|;
      }
    }
    forall a | 0 <= a < |idx|
      ensures idx[a] < |failv| && failv[idx[a]] == Some(r[a])
    {
      if a < |idx0| {
        assert idx[a] == idx0[a] && r[a] == r0[a] && failv[idx0[a]] == init[idx0[a]];
      }
    }
    forall j | 0 <= j < |failv| && failv[j].Some? && failv[j].value != ""
      ensures j in idx
    {
      if j < |init| {
        assert init[j] == failv[j];
        assert j in idx0;
      } else {
        assert idx[|idx| - 1] == j;
      }
    }
  }

  /** One more entry that is not truthy: the list stays. */
  lemma ListedAtSkip(idx0: seq<nat>, r0: seq<string>, init: seq<Option<string>>, e: Option<string>)
    requires ListedAt(idx0, r0, init) && !(e.Some? && e.value != "")
    ensures ListedAt(idx0, r0, init + [e])
  {
    var failv := init + [e];
    forall a | 0 <= a < |idx0|
      ensures idx0[a] < |failv| && failv[idx0[a]] == Some(r0[a])
    {
      assert failv[idx0[a]] == init[idx0[a]];
    }
    forall j | 0 <= j < |failv| && failv[j].Some? && failv[j].value != ""
      ensures j in idx0
    {
      assert j < |init| && init[j] == failv[j];
    }
  }

  /** The total length of the strings `xs`. */
  function TotalLength(xs: seq<string>): nat
  {
    if xs == [] then 0 else TotalLength(xs[..|xs| - 1]) + |xs[|xs| - 1]|
  }

  /** Strings that are none of them empty add up to at least their number. */
  lemma {:induction false} TotalLengthBound(xs: seq<string>)
    requires forall i :: 0 <= i < |xs| ==> xs[i] != ""
    ensures TotalLength(xs) >= |xs|
  {
    if xs != [] {
      TotalLengthBound(xs[..|xs| - 1]);
    }
  }

  /** `sep.join(xs)`: the strings with one separator between each two. */
  function Join(xs: seq<string>, sep: string): (r: string)
    ensures |r| == TotalLength(xs) + (if xs == [] then 0 else (|xs| - 1) * |sep|)
  {
    if xs == [] then ""
    else if |xs| == 1 then
      assert xs[..0] == [];
      xs[0]
    else
      var init := Join(xs[..|xs| - 1], sep);
      assert (|xs| - 1) * |sep| == (|xs| - 2) * |sep| + |sep|;
      init + sep + xs[|xs| - 1]
  }

  /** The text of the final failure report: the kept failures, separated by
      blank lines; it is empty exactly when no failure is kept. */
  function FailureText(failv: seq<Option<string>>): (r: string)
    ensures r == "" <==> Reported(failv) == []
  {
    var kept := Reported(failv);
    assert forall i :: 0 <= i < |kept| ==> kept[i] in kept;
    TotalLengthBound(kept);
    Join(kept, "\n\n")
  }

  /** Every truthy entry is kept. */
  lemma {:induction false} ReportedComplete(failv: seq<Option<string>>, m: string)
    requires Some(m) in failv && m != ""
    ensures m in Reported(failv)
  {
    var init := failv[..|failv| - 1];
    if failv[|failv| - 1] != Some(m) {
      assert Some(m) in init;
      ReportedComplete(init, m);
    }
  }

  lemma ReportedAppend(failv: seq<Option<string>>, m: Option<string>)
    ensures Reported(failv + [m]) == Reported(failv) + (if m.Some? && m.value != "" then [m.value] else [])
  {
    assert (failv + [m])[..|failv|] == failv;
  }

  lemma JoinAppend(xs: seq<string>, m: string, sep: string)
    ensures Join(xs + [m], sep) == if xs == [] then m else Join(xs, sep) + sep + m
  {
    assert (xs + [m])[..|xs|] == xs;
  }

  /** A failure adds its message to the report, after a blank line when
      there was an earlier one; an empty message leaves it unchanged. */
  lemma FailureTextAppend(failv: seq<Option<string>>, m: string)
    ensures FailureText(failv + [Some(m)])
            == if m == "" then FailureText(failv)
               else if Reported(failv) == [] then m
               else FailureText(failv) + "\n\n" + m
  {
    ReportedAppend(failv, Some(m));
    if m != "" {
      JoinAppend(Reported(failv), m, "\n\n");
    }
  }

  /** A new group's report is empty: the placeholder None is never shown. */
  lemma InitialReportEmpty()
    ensures Reported([None]) == [] && FailureText([None]) == ""
  {
    var failv: seq<Option<string>> := [None];
    assert failv[..0] == [];
  }

  /** The name a worker gets when none is given: "T" and decimal digits. */
  function DefaultName(tx: nat): (r: string)
    ensures |r| >= 2 && r[0] == 'T'
    ensures forall i :: 1 <= i < |r| ==> '0' <= r[i] <= '9'
  {
    "T" + Decimal(tx)
  }

  /** Different workers get different default names. */
  lemma DefaultNamesDistinct(i: nat, j: nat)
    ensures DefaultName(i) == DefaultName(j) ==> i == j
  {
    if DefaultName(i) == DefaultName(j) {
      assert DefaultName(i)[1..] == Decimal(i) && DefaultName(j)[1..] == Decimal(j);
      DecimalInjective(i, j);
    }
  }

  /** Python's repr of a list of thread names (names that need no escaping):
      in brackets, and "[]" exactly for no names. */
  function NamesRepr(names: seq<string>): (r: string)
    ensures |r| >= 2 && r[0] == '[' && r[|r| - 1] == ']'
    ensures r == "[]" <==> names == []
  {
    var quoted := seq(|names|, i requires 0 <= i < |names| => "'" + names[i] + "'");
    TotalLengthBound(quoted);
    "[" + Join(quoted, ", ") + "]"
  }

  /** `failed_to_finish`: the names of the threads that did not stop, in
      spawn order. */
  function Unfinished(names: seq<string>, stopped: seq<bool>): (r: seq<string>)
    requires |names| == |stopped|
    ensures |r| <= |names|
    ensures r == [] <==> forall i :: 0 <= i < |stopped| ==> stopped[i]
    ensures forall x :: x in r ==> x in names
  {
    if names == [] then []
    else
      var n := |names| - 1;
      assert forall x :: x in names[..n] ==> x in names;
      assert forall i :: 0 <= i < n ==> stopped[..n][i] == stopped[i];
      Unfinished(names[..n], stopped[..n]) + (if stopped[n] then [] else [names[n]])
  }

  /** When no thread stopped, every thread is listed, in spawn order. */
  lemma {:induction false} NoneStopped(names: seq<string>, stopped: seq<bool>)
    requires |names| == |stopped| && forall i :: 0 <= i < |stopped| ==> !stopped[i]
    ensures Unfinished(names, stopped) == names
  {
    if names != [] {
      var n := |names| - 1;
      NoneStopped(names[..n], stopped[..n]);
      assert names[..n] + [names[n]] == names;
    }
  }

  class TestGroup {
    var failed: bool
    var failv: seq<Option<string>>
    /** The names of the spawned threads, in spawn order. */
    var threadv: seq<string>
    var waitg: WaitGroup
    /** The workers that were spawned and whose `_run` has not finished. */
    ghost var running: set<nat>

    /** The counter holds the number of unfinished workers. */
    ghost predicate Valid()
      reads this, waitg
    {
      waitg.n == |running| && forall tx :: tx in running ==> tx < |threadv|
    }

    constructor()
      ensures Valid() && fresh(waitg)
      ensures !failed && failv == [None] && threadv == [] && running == {}
    {
      failed := false;
      failv := [None];
      threadv := [];
      waitg := new WaitGroup();
      running := {};
    }

    /** `fail`: record the message and flag the group as failed. */
    method Fail(msg: string)
      modifies this
      ensures failv == old(failv) + [Some(msg)] && failed
      ensures threadv == old(threadv) && waitg == old(waitg) && running == old(running)
    {
      failv := failv + [Some(msg)];
      failed := true;
    }

    /** `go`: count the worker in, number it by the workers spawned before it
        and name it "T<number>" unless a name is given. The counter of a valid
        group is never negative, so the count-in does not raise. */
    method Go(name: Option<string>) returns (tx: nat, counted: AddOutcome)
      requires Valid()
      modifies this, waitg
      ensures Valid() && counted.Added?
      ensures tx == old(|threadv|)
      ensures threadv == old(threadv) + [name.GetOr(DefaultName(tx))]
      ensures running == old(running) + {tx} && tx !in old(running)
      ensures waitg == old(waitg) && waitg.n == old(waitg.n) + 1
      ensures failed == old(failed) && failv == old(failv)
    {
      counted := waitg.Add(1);
      tx := |threadv|;
      var tname := name.GetOr(DefaultName(tx));
      threadv := threadv + [tname];
      running := running + {tx};
    }

    /** The end of `_run` for worker `tx`: an unhandled exception, given by
        its repr, is recorded as a failure; then the worker is counted out,
        which in a valid group does not raise either. */
    method WorkerExit(tx: nat, crash: Option<string>) returns (counted: AddOutcome)
      requires Valid() && tx in running
      modifies this, waitg
      ensures Valid() && counted.Added?
      ensures running == old(running) - {tx}
      ensures waitg == old(waitg) && waitg.n == old(waitg.n) - 1 && counted.notified == (waitg.n == 0)
      ensures failv == old(failv) + (if crash.Some? then [Some("Unhandled exception " + crash.value)] else [])
      ensures failed == (old(failed) || crash.Some?)
      ensures threadv == old(threadv)
    {
      if crash.Some? {
        Fail("Unhandled exception " + crash.value);
      }
      assert |running - {tx}| == |running| - 1;
      counted := waitg.Done();
      running := running - {tx};
    }

    /** The join loop of `wait`: every thread that did not stop flags the
        group as failed and is listed, in spawn order. */
    method JoinThreads(stopped: seq<bool>) returns (failedToFinish: seq<string>)
      requires |stopped| == |threadv|
      modifies this
      ensures failv == old(failv) && threadv == old(threadv) && waitg == old(waitg) && running == old(running)
      ensures failedToFinish == Unfinished(threadv, stopped)
      ensures failed == (old(failed) || failedToFinish != [])
    {
      failedToFinish := [];
      for i := 0 to |threadv|
        invariant threadv == old(threadv) && waitg == old(waitg) && running == old(running) && failv == old(failv)
        invariant failedToFinish == Unfinished(threadv[..i], stopped[..i])
        invariant failed == (old(failed) || failedToFinish != [])
      {
        assert threadv[..i + 1][..i] == threadv[..i] && stopped[..i + 1][..i] == stopped[..i];
        if !stopped[i] {
          failed := true;
          failedToFinish := failedToFinish + [threadv[i]];
        }
      }
      assert threadv[..|threadv|] == threadv && stopped[..|stopped|] == stopped;
    }

    /** `wait`: a timed-out wait and the threads that did not stop when
        joined are recorded as failures; the group's report is the failure
        text when it failed. Whether `join(1)` let thread `i` stop is given
        as `stopped[i]`. */
    method Wait(signalled: bool, timeout: nat, stopped: seq<bool>) returns (report: Option<string>)
      requires |stopped| == |threadv|
      modifies this
      ensures var finished := old(waitg.n) == 0 || signalled;
              var stuck := Unfinished(old(threadv), stopped);
              && failv == old(failv)
                          + (if finished then [] else [Some("test did not finish within " + Decimal(timeout) + " seconds")])
                          + (if stuck == [] then [] else [Some("threads did not finish: " + NamesRepr(stuck))])
              && failed == (old(failed) || !finished || stuck != [])
      ensures report == if failed then Some(FailureText(failv)) else None
      ensures threadv == old(threadv) && waitg == old(waitg) && running == old(running)
    {
      var ok := waitg.Wait(signalled);
      if !ok {
        Fail("test did not finish within " + Decimal(timeout) + " seconds");
      }
      var failedToFinish := JoinThreads(stopped);
      if failedToFinish != [] {
        Fail("threads did not finish: " + NamesRepr(failedToFinish));
      }
      if failed {
        report := Some(FailureText(failv));
      } else {
        report := None;
      }
    }
  }

  /** A driver's `for _ in range(nwork): tg.go(T, N)`: the workers get the
      next `nwork` numbers and their default names. */
  method SpawnWorkers(tg: TestGroup, nwork: nat)
    requires tg.Valid()
    modifies tg, tg.waitg
    ensures tg.Valid() && tg.waitg == old(tg.waitg)
    ensures tg.threadv == old(tg.threadv) + seq(nwork, i requires 0 <= i => DefaultName(old(|tg.threadv|) + i))
    ensures tg.waitg.n == old(tg.waitg.n) + nwork
    ensures tg.failed == old(tg.failed) && tg.failv == old(tg.failv)
  {
    ghost var start := |tg.threadv|;
    for k := 0 to nwork
      invariant tg.Valid() && tg.waitg == old(tg.waitg)
      invariant tg.threadv == old(tg.threadv) + seq(k, i requires 0 <= i => DefaultName(start + i))
      invariant tg.waitg.n == old(tg.waitg.n) + k
      invariant tg.failed == old(tg.failed) && tg.failv == old(tg.failv)
    {
      var tx, _ := tg.Go(None);
      assert tx == start + k;
    }
  }
}
