/** Where each traced oid's section, and so its header, sits in the report:
    the report is the sections of the listed oids one after the other. */
module ReportLayout {
  import opened FsOids
  import opened TracerProperties

  /** The parts one after the other. */
  function Flatten<T>(parts: seq<seq<T>>): seq<T>
  {
    if parts == [] then [] else parts[0] + Flatten(parts[1..])
  }

  /** Where part `a` starts in `Flatten(parts)`. */
  function StartOf<T>(parts: seq<seq<T>>, a: nat): nat
    requires a < |parts|
  {
    if a == 0 then 0 else |parts[0]| + StartOf(parts[1..], a - 1)
  }

  lemma {:induction false} FlattenStart<T>(parts: seq<seq<T>>, a: nat)
    requires a < |parts| && parts[a] != []
    ensures StartOf(parts, a) < |Flatten(parts)| && Flatten(parts)[StartOf(parts, a)] == parts[a][0]
  {
    if a > 0 {
      FlattenStart(parts[1..], a - 1);
      assert parts[1..][a - 1] == parts[a];
    }
  }

  lemma {:induction false} StartOfAscends<T>(parts: seq<seq<T>>, a: nat, b: nat)
    requires a < b < |parts| && parts[a] != []
    ensures StartOf(parts, a) < StartOf(parts, b)
  {
    if a > 0 {
      assert parts[1..][a - 1] == parts[a];
      StartOfAscends(parts[1..], a - 1, b - 1);
    }
  }

  /** The sections of the oids `os`, one per oid. */
  function Sections(os: seq<Oid>, history: map<Oid, seq<Block>>, stamp: Tid -> string): (r: seq<seq<string>>)
    requires forall i :: 0 <= i < |os| ==> os[i] in history
    ensures |r| == |os| && forall i :: 0 <= i < |os| ==> r[i] == OidLines(os[i], history[os[i]], stamp)
  {
    seq(|os|, i requires 0 <= i < |os| => OidLines(os[i], history[os[i]], stamp))
  }

  lemma {:induction false} OidsLinesFlatten(os: seq<Oid>, history: map<Oid, seq<Block>>, stamp: Tid -> string)
    requires forall i :: 0 <= i < |os| ==> os[i] in history
    ensures OidsLines(os, history, stamp) == Flatten(Sections(os, history, stamp))
  {
    if os != [] {
      OidsLinesFlatten(os[1..], history, stamp);
      assert Sections(os, history, stamp)[1..] == Sections(os[1..], history, stamp);
    }
  }

  /** The sections of `os` give the headers in the order of `os`: the
      headers of `os[a]` and `os[b]`, `a < b`, open their sections, the
      first before the second. */
  lemma HeadersInOrder(os: seq<Oid>, history: map<Oid, seq<Block>>, stamp: Tid -> string, a: nat, b: nat)
    requires forall i :: 0 <= i < |os| ==> os[i] in history
    requires a < b < |os|
    ensures var parts := Sections(os, history, stamp);
            && StartOf(parts, a) < StartOf(parts, b) < |OidsLines(os, history, stamp)|
            && OidsLines(os, history, stamp)[StartOf(parts, a)] == HeaderLine(os[a], history[os[a]])
            && OidsLines(os, history, stamp)[StartOf(parts, b)] == HeaderLine(os[b], history[os[b]])
  {
    HeaderAtStart(os, history, stamp, a);
    HeaderAtStart(os, history, stamp, b);
    OidLinesShape(os[a], history[os[a]], stamp);
    StartOfAscends(Sections(os, history, stamp), a, b);
  }

  /** The header of `os[a]` opens its section. */
  lemma HeaderAtStart(os: seq<Oid>, history: map<Oid, seq<Block>>, stamp: Tid -> string, a: nat)
    requires forall i :: 0 <= i < |os| ==> os[i] in history
    requires a < |os|
    ensures StartOf(Sections(os, history, stamp), a) < |OidsLines(os, history, stamp)|
    ensures OidsLines(os, history, stamp)[StartOf(Sections(os, history, stamp), a)] == HeaderLine(os[a], history[os[a]])
  {
    OidsLinesFlatten(os, history, stamp);
    OidLinesShape(os[a], history[os[a]], stamp);
    FlattenStart(Sections(os, history, stamp), a);
  }

  /** The line that opens the section of `os[a]` is the header of that oid and
      of no other listed one, so the headers of the report name its oids in
      the order of the listing. */
  lemma SectionHeaderOwner(os: seq<Oid>, history: map<Oid, seq<Block>>, stamp: Tid -> string, a: nat, p: Oid)
    requires forall i :: 0 <= i < |os| ==> os[i] in history
    requires a < |os| && p in history
    ensures StartOf(Sections(os, history, stamp), a) < |OidsLines(os, history, stamp)|
    ensures OidsLines(os, history, stamp)[StartOf(Sections(os, history, stamp), a)] == HeaderLine(p, history[p])
            <==> p == os[a]
  {
    HeaderAtStart(os, history, stamp, a);
    HeaderNamesOid(os[a], history[os[a]], p, history[p]);
  }
}
