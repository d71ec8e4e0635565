/** The race-test model specifications: two tiny state machines over the
    database root (`init`, `next`, `assertStateOK`) whose invariant every
    `next` must preserve, and the invalidation of the first half of the
    root's objects. */
module RaceSpecs {
  import opened Numerals
  import opened StringOrder

  const OBJ1 := "obj1"
  const OBJ2 := "obj2"
  const PHASE := "phase"

  /** The values of the persistent integers the root refers to, by key. */
  type Values = map<string, int>

  /** The database root as the specifications see it: each key names a
      persistent object holding one integer, and each object may have been
      invalidated (so that its next access reloads it from the storage). */
  class Root {
    var values: Values
    var invalidated: set<string>

    constructor(values: Values)
      ensures this.values == values && invalidated == {}
    {
      this.values := values;
      invalidated := {};
    }
  }

  /** The outcome of `assertStateOK`: the state follows the invariant, or the
      AssertionError with the numbers it reports. */
  datatype Verdict = StateOK | Mismatch(i1: int, i2: int) | PhaseMismatch(i1: int, i2: int, p: int)

  /** Python's "%d" of an integer: a minus sign exactly for a negative one. */
  function IntText(i: int): (r: string)
    ensures |r| >= 1 && (r[0] == '-' <==> i < 0)
  {
    if i < 0 then "-" + Decimal(-i) else Decimal(i)
  }

  /** Different integers print differently. */
  lemma IntTextInjective(i: int, j: int)
    ensures IntText(i) == IntText(j) ==> i == j
  {
    if IntText(i) == IntText(j) {
      if i < 0 {
        assert IntText(i)[1..] == Decimal(-i) && IntText(j)[1..] == Decimal(-j);
        DecimalInjective(-i, -j);
      } else {
        DecimalInjective(i, j);
      }
    }
  }

  /** The text of the AssertionError a verdict stands for ("" for none), as
      `assertStateOK` formats it. */
  function Message(v: Verdict): (r: string)
    ensures r == "" <==> v == StateOK
  {
    match v
    case StateOK => ""
    case Mismatch(i1, i2) => "obj1 (" + IntText(i1) + ")  !=  obj2 (" + IntText(i2) + ")"
    case PhaseMismatch(i1, i2, p) =>
      "obj1 (" + IntText(i1) + ") - obj2(" + IntText(i2) + ") != phase (" + IntText(p) + ")"
  }

  // ---------------------------------------------------------------------------
  // T2ObjectsInc: obj1 and obj2 are incremented together.

  predicate HasInc(v: Values)
  {
    OBJ1 in v && OBJ2 in v
  }

  /** The state `init` leaves: both objects new and zero, the rest kept. */
  function IncInit(v: Values): (r: Values)
    ensures HasInc(r) && r[OBJ1] == 0 && r[OBJ2] == 0
    ensures r.Keys == v.Keys + {OBJ1, OBJ2}
    ensures forall k :: k in v && k != OBJ1 && k != OBJ2 ==> r[k] == v[k]
  {
    v[OBJ1 := 0][OBJ2 := 0]
  }

  /** The state one `next` leaves. */
  function IncNext(v: Values): (r: Values)
    requires HasInc(v)
    ensures HasInc(r) && r.Keys == v.Keys
    ensures r[OBJ1] == v[OBJ1] + 1 && r[OBJ2] == v[OBJ2] + 1
    ensures forall k :: k in v && k != OBJ1 && k != OBJ2 ==> r[k] == v[k]
  {
    v[OBJ1 := v[OBJ1] + 1][OBJ2 := v[OBJ2] + 1]
  }

  /** The invariant of the specification. */
  predicate IncInvariant(v: Values)
  {
    HasInc(v) && v[OBJ1] == v[OBJ2]
  }

  /** `assertStateOK`: no error exactly when the invariant holds. */
  function IncCheck(v: Values): (r: Verdict)
    requires HasInc(v)
    ensures r == StateOK <==> IncInvariant(v)
    ensures r != StateOK ==> r == Mismatch(v[OBJ1], v[OBJ2])
  {
    var i1 := v[OBJ1];
    var i2 := v[OBJ2];
    if !(i1 == i2) then Mismatch(i1, i2) else StateOK
  }

  /** `n` `next` steps in a row: the difference of the two objects and every
      other key stay as they were. */
  function IncRun(v: Values, n: nat): (r: Values)
    requires HasInc(v)
    ensures HasInc(r) && r.Keys == v.Keys
    ensures r[OBJ1] - r[OBJ2] == v[OBJ1] - v[OBJ2]
    ensures forall k :: k in v && k != OBJ1 && k != OBJ2 ==> r[k] == v[k]
  {
    if n == 0 then v else IncNext(IncRun(v, n - 1))
  }

  lemma IncInitOK(v: Values)
    ensures IncCheck(IncInit(v)) == StateOK
  {
  }

  /** `next` keeps the invariant, so the check after it passes. */
  lemma IncNextPreserves(v: Values)
    requires HasInc(v) && IncCheck(v) == StateOK
    ensures IncCheck(IncNext(v)) == StateOK
  {
  }

  /** The check right after `next` passes exactly when it passed before it, and
      a mismatch is carried forward with both values one higher. */
  lemma IncNextCheck(v: Values)
    requires HasInc(v)
    ensures IncCheck(IncNext(v)) == StateOK <==> IncCheck(v) == StateOK
    ensures IncCheck(v) != StateOK ==> IncCheck(IncNext(v)) == Mismatch(v[OBJ1] + 1, v[OBJ2] + 1)
  {
  }

  /** After `init` and `n` steps both objects hold `n` and nothing else has
      changed. */
  lemma {:induction false} IncRunFromInit(v: Values, n: nat)
    ensures IncRun(IncInit(v), n)[OBJ1] == n && IncRun(IncInit(v), n)[OBJ2] == n
    ensures forall k :: k in v && k != OBJ1 && k != OBJ2 ==> IncRun(IncInit(v), n)[k] == v[k]
  {
    if n > 0 {
      IncRunFromInit(v, n - 1);
    }
  }

  class T2ObjectsInc {
    constructor()
    {
    }

    method Init(root: Root)
      modifies root
      ensures root.values == IncInit(old(root.values)) && root.invalidated == old(root.invalidated)
    {
      root.values := root.values[OBJ1 := 0];
      root.values := root.values[OBJ2 := 0];
    }

    method Next(root: Root)
      requires HasInc(root.values)
      modifies root
      ensures root.values == IncNext(old(root.values)) && root.invalidated == old(root.invalidated)
    {
      root.values := root.values[OBJ1 := root.values[OBJ1] + 1];
      root.values := root.values[OBJ2 := root.values[OBJ2] + 1];
    }

    method AssertStateOK(root: Root) returns (r: Verdict)
      requires HasInc(root.values)
      ensures r == IncCheck(root.values)
    {
      var i1 := root.values[OBJ1];
      var i2 := root.values[OBJ2];
      if !(i1 == i2) {
        r := Mismatch(i1, i2);
      } else {
        r := StateOK;
      }
    }
  }

  /** The `modify` worker's step on whatever state the connection loaded:
      `next`, then `assertStateOK` at once. The check raises exactly when the
      loaded state already broke the invariant. */
  method Modify(spec: T2ObjectsInc, root: Root) returns (r: Verdict)
    requires HasInc(root.values)
    modifies root
    ensures root.values == IncNext(old(root.values)) && root.invalidated == old(root.invalidated)
    ensures r == IncCheck(root.values)
    ensures r == StateOK <==> old(IncCheck(root.values)) == StateOK
  {
    spec.Next(root);
    r := spec.AssertStateOK(root);
    IncNextCheck(old(root.values));
  }

  // ---------------------------------------------------------------------------
  // T2ObjectsInc2Phase: obj1 and obj2 are incremented in turn, as `phase`
  // says.

  predicate HasPhase(v: Values)
  {
    OBJ1 in v && OBJ2 in v && PHASE in v
  }

  /** The state `init` leaves: the three objects new and zero. */
  function PhaseInit(v: Values): (r: Values)
    ensures HasPhase(r) && r[OBJ1] == 0 && r[OBJ2] == 0 && r[PHASE] == 0
    ensures r.Keys == v.Keys + {OBJ1, OBJ2, PHASE}
    ensures forall k :: k in v && k != OBJ1 && k != OBJ2 && k != PHASE ==> r[k] == v[k]
  {
    v[OBJ1 := 0][OBJ2 := 0][PHASE := 0]
  }

  /** The state one `next` leaves. Python's `%= 2` is a floored remainder;
      for the divisor 2 it agrees with Dafny's Euclidean `%`. */
  function PhaseNext(v: Values): (r: Values)
    requires HasPhase(v)
    ensures HasPhase(r) && r.Keys == v.Keys
    ensures r[OBJ1] == (if v[PHASE] == 0 then v[OBJ1] + 1 else v[OBJ1])
    ensures r[OBJ2] == (if v[PHASE] == 0 then v[OBJ2] else v[OBJ2] + 1)
    ensures r[PHASE] == (v[PHASE] + 1) % 2 && 0 <= r[PHASE] <= 1
    ensures forall k :: k in v && k != OBJ1 && k != OBJ2 && k != PHASE ==> r[k] == v[k]
  {
    var w := if v[PHASE] == 0 then v[OBJ1 := v[OBJ1] + 1] else v[OBJ2 := v[OBJ2] + 1];
    w[PHASE := (w[PHASE] + 1) % 2]
  }

  /** The invariant the specification keeps: the check's equation, and a
      phase of 0 or 1. */
  predicate PhaseInvariant(v: Values)
  {
    HasPhase(v) && v[OBJ1] - v[OBJ2] == v[PHASE] && 0 <= v[PHASE] <= 1
  }

  /** `assertStateOK`: no error exactly when `obj1 - obj2 == phase`. */
  function PhaseCheck(v: Values): (r: Verdict)
    requires HasPhase(v)
    ensures r == StateOK <==> v[OBJ1] - v[OBJ2] == v[PHASE]
    ensures r != StateOK ==> r == PhaseMismatch(v[OBJ1], v[OBJ2], v[PHASE])
  {
    var i1 := v[OBJ1];
    var i2 := v[OBJ2];
    var p := v[PHASE];
    if !(i1 - i2 == p) then PhaseMismatch(i1, i2, p) else StateOK
  }

  /** `n` `next` steps in a row: every other key stays as it was, and a state
      that keeps the invariant keeps it. */
  function PhaseRun(v: Values, n: nat): (r: Values)
    requires HasPhase(v)
    ensures HasPhase(r) && r.Keys == v.Keys
    ensures forall k :: k in v && k != OBJ1 && k != OBJ2 && k != PHASE ==> r[k] == v[k]
    ensures PhaseInvariant(v) ==> PhaseInvariant(r)
  {
    if n == 0 then v else PhaseNext(PhaseRun(v, n - 1))
  }

  lemma PhaseInitOK(v: Values)
    ensures PhaseInvariant(PhaseInit(v)) && PhaseCheck(PhaseInit(v)) == StateOK
  {
  }

  /** `next` keeps the invariant, and with it the check. */
  lemma PhaseNextPreserves(v: Values)
    requires PhaseInvariant(v)
    ensures PhaseInvariant(PhaseNext(v)) && PhaseCheck(PhaseNext(v)) == StateOK
  {
  }

  /** The check alone is not kept by `next`: a state with phase 3 passes it,
      and the state after one step does not. */
  lemma CheckAloneNotKept()
    ensures var v := map[OBJ1 := 3, OBJ2 := 0, PHASE := 3];
            PhaseCheck(v) == StateOK && PhaseCheck(PhaseNext(v)) == PhaseMismatch(3, 1, 0)
  {
    var v := map[OBJ1 := 3, OBJ2 := 0, PHASE := 3];
    assert PhaseNext(v) == map[OBJ1 := 3, OBJ2 := 1, PHASE := 0];
  }

  /** Two steps from phase 0 or 1 increment each object by exactly one and
      bring the phase back. */
  lemma PhaseTwoSteps(v: Values)
    requires HasPhase(v) && 0 <= v[PHASE] <= 1
    ensures PhaseNext(PhaseNext(v)) == v[OBJ1 := v[OBJ1] + 1][OBJ2 := v[OBJ2] + 1]
  {
    var u := PhaseNext(PhaseNext(v));
    var w := v[OBJ1 := v[OBJ1] + 1][OBJ2 := v[OBJ2] + 1];
    assert u.Keys == w.Keys;
    forall k | k in u
      ensures u[k] == w[k]
    {
    }
  }

  /** After `init` and `n` steps, obj1 has been incremented on the even steps
      and obj2 on the odd ones. */
  lemma {:induction false} PhaseRunFromInit(v: Values, n: nat)
    ensures PhaseRun(PhaseInit(v), n)[OBJ1] == (n + 1) / 2
    ensures PhaseRun(PhaseInit(v), n)[OBJ2] == n / 2
    ensures PhaseRun(PhaseInit(v), n)[PHASE] == n % 2
  {
    if n > 0 {
      PhaseRunFromInit(v, n - 1);
    }
  }

  class T2ObjectsInc2Phase {
    constructor()
    {
    }

    method Init(root: Root)
      modifies root
      ensures root.values == PhaseInit(old(root.values)) && root.invalidated == old(root.invalidated)
    {
      root.values := root.values[OBJ1 := 0];
      root.values := root.values[OBJ2 := 0];
      root.values := root.values[PHASE := 0];
    }

    method Next(root: Root)
      requires HasPhase(root.values)
      modifies root
      ensures root.values == PhaseNext(old(root.values)) && root.invalidated == old(root.invalidated)
    {
      var phase := root.values[PHASE];
      if phase == 0 {
        root.values := root.values[OBJ1 := root.values[OBJ1] + 1];
      } else {
        root.values := root.values[OBJ2 := root.values[OBJ2] + 1];
      }
      root.values := root.values[PHASE := root.values[PHASE] + 1];
      root.values := root.values[PHASE := root.values[PHASE] % 2];
    }

    method AssertStateOK(root: Root) returns (r: Verdict)
      requires HasPhase(root.values)
      ensures r == PhaseCheck(root.values)
    {
      var i1 := root.values[OBJ1];
      var i2 := root.values[OBJ2];
      var p := root.values[PHASE];
      if !(i1 - i2 == p) {
        r := PhaseMismatch(i1, i2, p);
      } else {
        r := StateOK;
      }
    }
  }

  // ---------------------------------------------------------------------------
  // Invalidating the first half of the objects

  /** `_state_invalidate_half1`: invalidate the objects of the first
      `len(keys) // 2` keys in sorted order, and no others. */
  method InvalidateHalf1(root: Root)
    modifies root
    ensures root.values == old(root.values)
    ensures root.invalidated
            == old(root.invalidated)
               + (set k | k in root.values.Keys && Rank(k, root.values.Keys) < |root.values.Keys| / 2)
  {
    ghost var before := root.invalidated;
    var keys := Sorted(root.values.Keys);
    var half := |keys| / 2;
    for i := 0 to half
      invariant root.values == old(root.values)
      invariant root.invalidated == before + Elements(keys[..i])
    {
      ElementsNext(keys, i);
      root.invalidated := root.invalidated + {keys[i]};
    }
    PrefixByRank(keys, root.values.Keys, half);
  }
}
