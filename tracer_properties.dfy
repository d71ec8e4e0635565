/** What the Tracer's history and report promise: which transactions an oid's
    history holds and in which order, when an oid has no history at all, the
    symmetry of "references" and "referenced by", how the header counts
    revisions, and the rendering of oids and tids. */
module TracerProperties {
  import opened Wrappers
  import opened Numerals
  import opened FsOids

  // ---------------------------------------------------------------------------
  // Which records touch an oid

  /** `r` is a new revision of `o`. */
  predicate IsRevisionOf(o: Oid, r: DataRecord)
  {
    r.oid == o && r.data.Some?
  }

  /** The pickle of `r` holds a reference to `o`. */
  predicate RefersTo(r: DataRecord, o: Oid)
  {
    r.data.Some? && exists k :: 0 <= k < |r.data.value.refs| && r.data.value.refs[k].target == o
  }

  predicate Touches(o: Oid, r: DataRecord)
  {
    IsRevisionOf(o, r) || RefersTo(r, o)
  }

  /** Some record of the log defines or references `o`. */
  predicate Mentioned(o: Oid, log: Log)
  {
    exists i, j :: 0 <= i < |log| && 0 <= j < |log[i].records| && Touches(o, log[i].records[j])
  }

  // ---------------------------------------------------------------------------
  // When the event groups are empty

  lemma {:induction false} RevisionsEmpty(o: Oid, recs: seq<DataRecord>)
    ensures Revisions(o, recs) == [] <==> forall j :: 0 <= j < |recs| ==> !IsRevisionOf(o, recs[j])
  {
    if recs != [] {
      var init := recs[..|recs| - 1];
      RevisionsEmpty(o, init);
      assert forall j :: 0 <= j < |init| ==> init[j] == recs[j];
    }
  }

  lemma {:induction false} InRefsEmpty(o: Oid, source: Oid, klass: Option<TypeName>, offset: nat, refs: seq<Reference>)
    ensures InRefs(o, source, klass, offset, refs) == [] <==> forall k :: 0 <= k < |refs| ==> refs[k].target != o
  {
    if refs != [] {
      var init := refs[..|refs| - 1];
      InRefsEmpty(o, source, klass, offset, init);
      assert forall k :: 0 <= k < |init| ==> init[k] == refs[k];
    }
  }

  lemma {:induction false} ReferencedByEmpty(o: Oid, recs: seq<DataRecord>)
    ensures ReferencedBy(o, recs) == [] <==> forall j :: 0 <= j < |recs| ==> !RefersTo(recs[j], o)
  {
    if recs != [] {
      var init := recs[..|recs| - 1];
      var last := recs[|recs| - 1];
      ReferencedByEmpty(o, init);
      assert forall j :: 0 <= j < |init| ==> init[j] == recs[j];
      if last.data.Some? {
        InRefsEmpty(o, last.oid, last.data.value.klass, last.offset, last.data.value.refs);
      }
    }
  }

  lemma {:induction false} ReferencesNeedRevision(o: Oid, recs: seq<DataRecord>)
    ensures References(o, recs) != [] ==> Revisions(o, recs) != []
  {
    if recs != [] {
      ReferencesNeedRevision(o, recs[..|recs| - 1]);
    }
  }

  /** A transaction gives `o` a block exactly when one of its records defines
      or references `o`. */
  lemma BlockIffTouched(o: Oid, t: Transaction)
    ensures HasEvents(BlockOf(o, t)) <==> exists j :: 0 <= j < |t.records| && Touches(o, t.records[j])
  {
    RevisionsEmpty(o, t.records);
    ReferencedByEmpty(o, t.records);
    ReferencesNeedRevision(o, t.records);
  }

  /** The history of `o` is empty exactly when no record of the log defines or
      references it. */
  lemma {:induction false} HistoryEmptyIffUnmentioned(o: Oid, log: Log)
    ensures HistoryOf(o, log) == [] <==> !Mentioned(o, log)
  {
    if log != [] {
      var init := log[..|log| - 1];
      var last := log[|log| - 1];
      HistoryEmptyIffUnmentioned(o, init);
      BlockIffTouched(o, last);
      assert forall i :: 0 <= i < |init| ==> init[i] == log[i];
      if Mentioned(o, log) && !Mentioned(o, init) {
        var i, j :| 0 <= i < |log| && 0 <= j < |log[i].records| && Touches(o, log[i].records[j]);
        assert i == |log| - 1;
      }
    }
  }

  // ---------------------------------------------------------------------------
  // Which blocks a history holds, and in which order

  /** The blocks of the history of `o` are exactly the blocks of the log's
      transactions that touch `o`. */
  lemma {:induction false} HistoryBlocks(o: Oid, log: Log, b: Block)
    ensures b in HistoryOf(o, log) <==> exists i :: 0 <= i < |log| && b == BlockOf(o, log[i]) && HasEvents(b)
  {
    if log != [] {
      var init := log[..|log| - 1];
      HistoryBlocks(o, init, b);
      assert forall i :: 0 <= i < |init| ==> init[i] == log[i];
      if exists i :: 0 <= i < |log| && b == BlockOf(o, log[i]) && HasEvents(b) {
        var i :| 0 <= i < |log| && b == BlockOf(o, log[i]) && HasEvents(b);
        if i < |log| - 1 {
          assert b in HistoryOf(o, init);
        } else {
          assert b in TxnBlocks(o, log[|log| - 1]);
        }
      }
    }
  }

  /** In a log whose tids ascend, the blocks of every history appear in
      strictly ascending tid order. */
  lemma {:induction false} HistoryTidsAscend(o: Oid, log: Log)
    requires TidsAscending(log)
    ensures forall a, b :: 0 <= a < b < |HistoryOf(o, log)| ==> HistoryOf(o, log)[a].tid < HistoryOf(o, log)[b].tid
  {
    if log != [] {
      var init := log[..|log| - 1];
      var last := log[|log| - 1];
      var h := HistoryOf(o, init);
      HistoryTidsAscend(o, init);
      forall a | 0 <= a < |h|
        ensures h[a].tid < last.tid
      {
        HistoryBlocks(o, init, h[a]);
        var i :| 0 <= i < |init| && h[a] == BlockOf(o, init[i]) && HasEvents(h[a]);
        assert init[i] == log[i];
      }
      assert HistoryOf(o, log) == h + TxnBlocks(o, last);
    }
  }

  // ---------------------------------------------------------------------------
  // References and referenced-by

  lemma {:induction false} OutRefsContain(refs: seq<Reference>, offset: nat, k: nat)
    requires k < |refs|
    ensures OutRef(refs[k].target, refs[k].klass, offset) in OutRefs(refs, offset)
  {
    if k < |refs| - 1 {
      var init := refs[..|refs| - 1];
      assert init[k] == refs[k];
      OutRefsContain(init, offset, k);
    }
  }

  lemma {:induction false} InRefsContain(source: Oid, klass: Option<TypeName>, offset: nat, refs: seq<Reference>, k: nat)
    requires k < |refs|
    ensures InRef(source, klass, offset) in InRefs(refs[k].target, source, klass, offset, refs)
  {
    if k < |refs| - 1 {
      var init := refs[..|refs| - 1];
      assert init[k] == refs[k];
      InRefsContain(source, klass, offset, init, k);
    }
  }

  lemma {:induction false} ReferencesContain(recs: seq<DataRecord>, j: nat, k: nat)
    requires j < |recs| && recs[j].data.Some? && k < |recs[j].data.value.refs|
    ensures var r := recs[j]; var ref := r.data.value.refs[k];
            OutRef(ref.target, ref.klass, r.offset) in References(r.oid, recs)
  {
    var r := recs[j];
    if j < |recs| - 1 {
      var init := recs[..|recs| - 1];
      assert init[j] == r;
      ReferencesContain(init, j, k);
    } else {
      OutRefsContain(r.data.value.refs, r.offset, k);
    }
  }

  lemma {:induction false} ReferencedByContain(recs: seq<DataRecord>, j: nat, k: nat)
    requires j < |recs| && recs[j].data.Some? && k < |recs[j].data.value.refs|
    ensures var r := recs[j]; var ref := r.data.value.refs[k];
            InRef(r.oid, r.data.value.klass, r.offset) in ReferencedBy(ref.target, recs)
  {
    var r := recs[j];
    if j < |recs| - 1 {
      var init := recs[..|recs| - 1];
      assert init[j] == r;
      ReferencedByContain(init, j, k);
    } else {
      InRefsContain(r.oid, r.data.value.klass, r.offset, r.data.value.refs, k);
    }
  }

  /** Every data record with a pickle is a new revision of its own oid, with
      the pickle's class and the record's offset. */
  lemma {:induction false} RevisionsContain(recs: seq<DataRecord>, j: nat)
    requires j < |recs| && recs[j].data.Some?
    ensures Revision(recs[j].data.value.klass, recs[j].offset) in Revisions(recs[j].oid, recs)
  {
    if j < |recs| - 1 {
      var init := recs[..|recs| - 1];
      assert init[j] == recs[j];
      RevisionsContain(init, j);
    }
  }

  /** Record `j` of transaction `i` with a pickle gives its oid the block of
      that transaction, and under it the line "new revision <class> at
      <record offset>". */
  lemma RevisionReported(log: Log, i: nat, j: nat, stamp: Tid -> string)
    requires i < |log| && j < |log[i].records| && log[i].records[j].data.Some?
    ensures var r := log[i].records[j]; var b := BlockOf(r.oid, log[i]);
            && b in HistoryOf(r.oid, log) && b.tid == log[i].tid
            && Revision(r.data.value.klass, r.offset) in b.revisions
            && "        new revision " + ClassName(r.data.value.klass) + " at " + Decimal(r.offset) in BlockLines(b, stamp)
  {
    var r := log[i].records[j];
    var b := BlockOf(r.oid, log[i]);
    RevisionsContain(log[i].records, j);
    HistoryBlocks(r.oid, log, b);
    var k :| 0 <= k < |b.revisions| && b.revisions[k] == Revision(r.data.value.klass, r.offset);
    BlockLinesShape(b, stamp);
    assert BlockLines(b, stamp)[3 + k] == RevisionLine(b.revisions[k]);
  }

  /** Reference `k` of record `j` of transaction `i`, from oid A to oid B: A's
      history holds the block of that transaction with "references B" carrying
      the class the reference itself carries, and B's history holds the block
      of the same transaction with "referenced by A" carrying the class of A's
      pickle, both at the offset of A's record. Whether A is traced does not
      matter for B's block. */
  lemma ReferenceSymmetry(log: Log, i: nat, j: nat, k: nat)
    requires i < |log| && j < |log[i].records|
    requires log[i].records[j].data.Some? && k < |log[i].records[j].data.value.refs|
    ensures var r := log[i].records[j]; var ref := r.data.value.refs[k];
            && BlockOf(r.oid, log[i]) in HistoryOf(r.oid, log)
            && BlockOf(r.oid, log[i]).tid == log[i].tid
            && OutRef(ref.target, ref.klass, r.offset) in BlockOf(r.oid, log[i]).references
            && BlockOf(ref.target, log[i]) in HistoryOf(ref.target, log)
            && BlockOf(ref.target, log[i]).tid == log[i].tid
            && InRef(r.oid, r.data.value.klass, r.offset) in BlockOf(ref.target, log[i]).referencedBy
  {
    var r := log[i].records[j];
    var ref := r.data.value.refs[k];
    ReferencesContain(log[i].records, j, k);
    ReferencedByContain(log[i].records, j, k);
    HistoryBlocks(r.oid, log, BlockOf(r.oid, log[i]));
    HistoryBlocks(ref.target, log, BlockOf(ref.target, log[i]));
  }

  /** A transaction that references `o` without rewriting it still gives `o` a
      block, one with no "new revision" and no "references" line. */
  lemma IncomingOnlyBlock(o: Oid, log: Log, i: nat)
    requires i < |log|
    requires forall j :: 0 <= j < |log[i].records| ==> !IsRevisionOf(o, log[i].records[j])
    requires exists j :: 0 <= j < |log[i].records| && RefersTo(log[i].records[j], o)
    ensures BlockOf(o, log[i]) in HistoryOf(o, log)
    ensures BlockOf(o, log[i]).revisions == [] && BlockOf(o, log[i]).references == []
    ensures BlockOf(o, log[i]).referencedBy != []
  {
    RevisionsEmpty(o, log[i].records);
    ReferencedByEmpty(o, log[i].records);
    ReferencesNeedRevision(o, log[i].records);
    HistoryBlocks(o, log, BlockOf(o, log[i]));
  }

  // ---------------------------------------------------------------------------
  // The header line

  /** The new revisions of `o` in the whole log, record by record. */
  function LogRevisions(o: Oid, log: Log): seq<Revision>
  {
    if log == [] then [] else LogRevisions(o, log[..|log| - 1]) + Revisions(o, log[|log| - 1].records)
  }

  /** Dropping the transactions that do not touch `o` loses no revision: the
      revisions in the history of `o` are those of the log. */
  lemma {:induction false} HistoryRevisions(o: Oid, log: Log)
    ensures AllRevisions(HistoryOf(o, log)) == LogRevisions(o, log)
  {
    if log != [] {
      var init := log[..|log| - 1];
      var last := log[|log| - 1];
      HistoryRevisions(o, init);
      AllRevisionsAppend(HistoryOf(o, init), TxnBlocks(o, last));
      if !HasEvents(BlockOf(o, last)) {
        assert Revisions(o, last.records) == [];
      } else {
        assert AllRevisions(TxnBlocks(o, last)) == [] + BlockOf(o, last).revisions;
      }
    }
  }

  lemma {:induction false} AllRevisionsAppend(a: seq<Block>, b: seq<Block>)
    ensures AllRevisions(a + b) == AllRevisions(a) + AllRevisions(b)
    decreases |b|
  {
    if b != [] {
      assert (a + b)[..|a + b| - 1] == a + b[..|b| - 1];
      AllRevisionsAppend(a, b[..|b| - 1]);
    } else {
      assert a + b == a;
    }
  }

  /** The header of a traced oid counts its new revisions in the log, not its
      blocks, says "revision" only for a count of one, and names the class of
      its latest new revision ("<unknown>" when there is none). */
  lemma HeaderOfHistory(o: Oid, log: Log)
    ensures var n := |LogRevisions(o, log)|;
            HeaderLine(o, HistoryOf(o, log))
            == "oid " + HexRepr(o) + " " + ClassName(LatestClass(LogRevisions(o, log))) + " " + Decimal(n)
               + (if n == 1 then " revision" else " revisions")
  {
    HistoryRevisions(o, log);
  }

  /** The last revision record of `o` among `recs` gives the last of its
      revisions there. */
  lemma {:induction false} RevisionsLast(o: Oid, recs: seq<DataRecord>, j: nat)
    requires j < |recs| && IsRevisionOf(o, recs[j])
    requires forall k :: j < k < |recs| ==> !IsRevisionOf(o, recs[k])
    ensures Revisions(o, recs) != []
    ensures Revisions(o, recs)[|Revisions(o, recs)| - 1] == Revision(recs[j].data.value.klass, recs[j].offset)
  {
    if j < |recs| - 1 {
      var init := recs[..|recs| - 1];
      assert !IsRevisionOf(o, recs[|recs| - 1]);
      assert forall k :: 0 <= k < |init| ==> init[k] == recs[k];
      RevisionsLast(o, init, j);
    }
  }

  /** The header's class is the class of the last data record of `o` in the
      log: the latest class is that of record `j` of transaction `i` when no
      later record is a revision of `o`. */
  lemma {:induction false} LatestClassIsLastRevision(o: Oid, log: Log, i: nat, j: nat)
    requires i < |log| && j < |log[i].records| && IsRevisionOf(o, log[i].records[j])
    requires forall k :: j < k < |log[i].records| ==> !IsRevisionOf(o, log[i].records[k])
    requires forall a, k :: i < a < |log| && 0 <= k < |log[a].records| ==> !IsRevisionOf(o, log[a].records[k])
    ensures LatestClass(LogRevisions(o, log)) == log[i].records[j].data.value.klass
  {
    var init := log[..|log| - 1];
    var last := log[|log| - 1];
    if i == |log| - 1 {
      RevisionsLast(o, last.records, j);
    } else {
      assert forall k :: 0 <= k < |last.records| ==> !IsRevisionOf(o, last.records[k]);
      RevisionsEmpty(o, last.records);
      assert LogRevisions(o, log) == LogRevisions(o, init) + [];
      assert init[i] == log[i];
      assert forall a :: i < a < |init| ==> init[a] == log[a];
      LatestClassIsLastRevision(o, init, i, j);
      assert LogRevisions(o, init) + [] == LogRevisions(o, init);
    }
  }

  /** Without any revision of `o` the header's class is unknown. */
  lemma {:induction false} LatestClassWithoutRevision(o: Oid, log: Log)
    requires forall a, k :: 0 <= a < |log| && 0 <= k < |log[a].records| ==> !IsRevisionOf(o, log[a].records[k])
    ensures LogRevisions(o, log) == [] && LatestClass(LogRevisions(o, log)) == None
  {
    if log != [] {
      var init := log[..|log| - 1];
      RevisionsEmpty(o, log[|log| - 1].records);
      assert forall a :: 0 <= a < |init| ==> init[a] == log[a];
      LatestClassWithoutRevision(o, init);
    }
  }

  /** The header of an oid without blocks. */
  lemma EmptyHeader(o: Oid)
    ensures HeaderLine(o, []) == "oid " + HexRepr(o) + " <unknown> 0 revisions"
  {
    var a := "oid " + HexRepr(o);
    assert AllRevisions([]) == [] && Decimal(0) == "0";
    AppendAssociative(a, " ", "<unknown>");
    AppendAssociative(a, " <unknown>", " ");
    AppendAssociative(a, " <unknown> ", "0");
    AppendAssociative(a, " <unknown> 0", " revisions");
  }

  /** A traced oid that no record defines or references is reported as exactly
      two lines. */
  lemma UnmentionedReport(o: Oid, log: Log, stamp: Tid -> string)
    requires !Mentioned(o, log)
    ensures OidLines(o, HistoryOf(o, log), stamp)
            == ["oid " + HexRepr(o) + " <unknown> 0 revisions", "    this oid was neither defined nor referenced"]
  {
    HistoryEmptyIffUnmentioned(o, log);
    EmptyHeader(o);
  }

  // ---------------------------------------------------------------------------
  // Rendering of oids and of the traced set

  /** Every oid and tid prints as "0x" and an even number of hex digits that
      read back as its value. */
  lemma HexReprRoundTrip(n: nat)
    ensures |HexRepr(n)| >= 4 && HexRepr(n)[..2] == "0x" && |HexRepr(n)| % 2 == 0
    ensures ValueOf(HexRepr(n)[2..], 16) == n
  {
    var h := Numeral(n, 16);
    var rest := if |h| % 2 == 1 then "0" + h else h;
    assert HexRepr(n) == "0x" + rest;
    assert HexRepr(n)[2..] == rest;
    assert ValueOf(rest, 16) == n by {
      NumeralRoundTrip(n, 16);
      if |h| % 2 == 1 {
        LeadingZero(h, 16);
      }
    }
  }

  /** So different oids get different headers. */
  lemma HexReprInjective(m: nat, n: nat)
    ensures HexRepr(m) == HexRepr(n) ==> m == n
  {
    HexReprRoundTrip(m);
    HexReprRoundTrip(n);
  }

  /** A header starts with "oid ", the oid's hex form and a space. */
  lemma HeaderPrefix(o: Oid, blocks: seq<Block>)
    ensures |HeaderLine(o, blocks)| > 4 + |HexRepr(o)|
    ensures HeaderLine(o, blocks)[..4 + |HexRepr(o)|] == "oid " + HexRepr(o)
    ensures HeaderLine(o, blocks)[4 + |HexRepr(o)|] == ' '
  {
  }

  /** No character of `oid_repr` is a space. */
  lemma HexReprNoSpace(n: nat, i: nat)
    requires i < |HexRepr(n)|
    ensures HexRepr(n)[i] != ' '
  {
    var h := Numeral(n, 16);
    var rest := if |h| % 2 == 1 then "0" + h else h;
    assert HexRepr(n) == "0x" + rest;
    if i >= 2 {
      assert HexRepr(n)[i] == rest[i - 2];
      assert rest[i - 2] == '0' || rest[i - 2] in h;
    }
  }

  /** The oid's hex form in a header runs up to the first space after "oid ". */
  lemma HeaderHexEnd(o: Oid, blocks: seq<Block>)
    ensures forall i :: 4 <= i < 4 + |HexRepr(o)| ==> HeaderLine(o, blocks)[i] != ' '
    ensures |HeaderLine(o, blocks)| > 4 + |HexRepr(o)| && HeaderLine(o, blocks)[4 + |HexRepr(o)|] == ' '
    ensures HeaderLine(o, blocks)[4..4 + |HexRepr(o)|] == HexRepr(o)
  {
    var line := HeaderLine(o, blocks);
    var h := HexRepr(o);
    HeaderPrefix(o, blocks);
    forall i | 4 <= i < 4 + |h|
      ensures line[i] != ' '
    {
      assert line[i] == line[..4 + |h|][i] == h[i - 4];
      HexReprNoSpace(o, i - 4);
    }
  }

  /** A header names its oid: headers of different oids differ, whatever
      their histories. */
  lemma HeaderNamesOid(o: Oid, a: seq<Block>, p: Oid, b: seq<Block>)
    ensures HeaderLine(o, a) == HeaderLine(p, b) ==> o == p
  {
    if HeaderLine(o, a) == HeaderLine(p, b) {
      HeaderHexEnd(o, a);
      HeaderHexEnd(p, b);
      assert |HexRepr(o)| == |HexRepr(p)|;
      HexReprInjective(o, p);
    }
  }

  /** The first element of a strictly ascending listing is its least, and the
      rest is the listing of the others. */
  lemma AscendingTail(r: seq<Oid>)
    requires StrictlyAscending(r) && r != []
    ensures forall o :: o in r ==> r[0] <= o
    ensures forall o :: o in r[1..] <==> o in r && o != r[0]
    ensures StrictlyAscending(r[1..])
  {
    forall o | o in r
      ensures r[0] <= o
    {
      var i :| 0 <= i < |r| && r[i] == o;
    }
    forall o | o in r[1..]
      ensures o != r[0]
    {
      var i :| 0 <= i < |r[1..]| && r[1..][i] == o;
      assert r[i + 1] == o;
    }
    forall o | o in r && o != r[0]
      ensures o in r[1..]
    {
      var i :| 0 <= i < |r| && r[i] == o;
      assert r[1..][i - 1] == o;
    }
  }

  /** Two strictly ascending listings of the same oids are equal. */
  lemma {:induction false} AscendingUnique(r: seq<Oid>, q: seq<Oid>)
    requires StrictlyAscending(r) && StrictlyAscending(q)
    requires forall o :: o in r <==> o in q
    ensures r == q
    decreases |r|
  {
    if q != [] {
      assert q[0] in r;
    }
    if r != [] {
      assert r[0] in q;
      AscendingTail(r);
      AscendingTail(q);
      assert q[0] in r;
      assert r[0] == q[0];
      AscendingUnique(r[1..], q[1..]);
      assert r == [r[0]] + r[1..] && q == [q[0]] + q[1..];
    }
  }

  /** The order of the report's sections is determined by the traced set
      alone: any strictly ascending listing of the set is the one the report
      uses, whatever the order and repetitions in which the oids were
      registered. */
  lemma SortedOidsUnique(s: set<Oid>, r: seq<Oid>)
    requires StrictlyAscending(r)
    requires forall o :: o in r <==> o in s
    ensures r == SortedOids(s)
  {
    AscendingUnique(r, SortedOids(s));
  }
}
