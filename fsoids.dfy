/** The oid Tracer: one pass over a FileStorage transaction log that collects,
    for every traced oid, the transactions that define it, the references its
    revisions hold and the references other records hold to it, and a report
    that renders that history oid by oid.

    The log is given as values: reading the file, decoding a pickle's class and
    extracting its references are outside the model, so every data record
    arrives with its class (or none) and its references already decoded. */
module FsOids {
  import opened Wrappers
  import opened Numerals

  const OID_LIMIT := 0x1_0000_0000_0000_0000

  /** Oids and tids are 8-byte unsigned integers. */
  type Oid = n: nat | n < OID_LIMIT
  type Tid = n: nat | n < OID_LIMIT

  /** A dotted `module.class` name, as the pickle decoder reports it. */
  type TypeName = string

  // ---------------------------------------------------------------------------
  // The log

  /** A persistent reference in a pickle; the decoder does not always know the
      target's class. */
  datatype Reference = Reference(target: Oid, klass: Option<TypeName>)

  /** What the decoder recovers from a data record's pickle. */
  datatype Pickle = Pickle(klass: Option<TypeName>, refs: seq<Reference>)

  /** A data record at byte `offset`; `data` is None for a record without a
      pickle (an undone creation), which is no new revision and holds no
      references. */
  datatype DataRecord = DataRecord(oid: Oid, offset: nat, data: Option<Pickle>)

  /** A transaction record whose header starts at byte `offset`. */
  datatype Transaction = Transaction(tid: Tid, offset: nat, user: string, description: string,
                                     records: seq<DataRecord>)

  /** The transactions of a FileStorage file in file order. */
  type Log = seq<Transaction>

  /** A well-formed log: tids ascend strictly in file order. */
  predicate TidsAscending(log: Log)
  {
    forall i, j :: 0 <= i < j < |log| ==> log[i].tid < log[j].tid
  }

  // ---------------------------------------------------------------------------
  // Events

  /** "new revision <class> at <offset>" */
  datatype Revision = Revision(klass: Option<TypeName>, offset: nat)

  /** "references <target> <class> at <offset>": the class is the one the
      reference itself carries. */
  datatype OutRef = OutRef(target: Oid, klass: Option<TypeName>, offset: nat)

  /** "referenced by <source> <class> at <offset>": the class is the one of the
      referencing record's pickle. */
  datatype InRef = InRef(source: Oid, klass: Option<TypeName>, offset: nat)

  /** The events of one traced oid in one transaction, each group in the order
      the data records and references were met. */
  datatype Block = Block(tid: Tid, offset: nat, user: string, description: string,
                         revisions: seq<Revision>, references: seq<OutRef>, referencedBy: seq<InRef>)

  predicate HasEvents(b: Block)
  {
    b.revisions != [] || b.references != [] || b.referencedBy != []
  }

  // ---------------------------------------------------------------------------
  // Specification: the history of one oid

  /** The new revision record `r` makes of `o`. */
  function RecordRevisions(o: Oid, r: DataRecord): seq<Revision>
  {
    if r.oid == o && r.data.Some? then [Revision(r.data.value.klass, r.offset)] else []
  }

  /** The references of a pickle at `offset`, in order. */
  function OutRefs(refs: seq<Reference>, offset: nat): seq<OutRef>
  {
    if refs == [] then []
    else OutRefs(refs[..|refs| - 1], offset) + [OutRef(refs[|refs| - 1].target, refs[|refs| - 1].klass, offset)]
  }

  /** The references record `r` holds, when it is a revision of `o`. */
  function RecordReferences(o: Oid, r: DataRecord): seq<OutRef>
  {
    if r.oid == o && r.data.Some? then OutRefs(r.data.value.refs, r.offset) else []
  }

  /** One "referenced by" event per reference to `o` among `refs`, all naming the
      referencing record `source` of class `klass` at `offset`. */
  function InRefs(o: Oid, source: Oid, klass: Option<TypeName>, offset: nat, refs: seq<Reference>): seq<InRef>
  {
    if refs == [] then []
    else InRefs(o, source, klass, offset, refs[..|refs| - 1])
         + (if refs[|refs| - 1].target == o then [InRef(source, klass, offset)] else [])
  }

  /** The references to `o` that record `r` holds, whoever `r` belongs to. */
  function RecordReferencedBy(o: Oid, r: DataRecord): seq<InRef>
  {
    match r.data
    case None => []
    case Some(p) => InRefs(o, r.oid, p.klass, r.offset, p.refs)
  }

  function Revisions(o: Oid, recs: seq<DataRecord>): seq<Revision>
  {
    if recs == [] then [] else Revisions(o, recs[..|recs| - 1]) + RecordRevisions(o, recs[|recs| - 1])
  }

  function References(o: Oid, recs: seq<DataRecord>): seq<OutRef>
  {
    if recs == [] then [] else References(o, recs[..|recs| - 1]) + RecordReferences(o, recs[|recs| - 1])
  }

  function ReferencedBy(o: Oid, recs: seq<DataRecord>): seq<InRef>
  {
    if recs == [] then [] else ReferencedBy(o, recs[..|recs| - 1]) + RecordReferencedBy(o, recs[|recs| - 1])
  }

  /** The events of `o` among the records `recs` of transaction `t`. */
  function Events(o: Oid, t: Transaction, recs: seq<DataRecord>): Block
  {
    Block(t.tid, t.offset, t.user, t.description, Revisions(o, recs), References(o, recs), ReferencedBy(o, recs))
  }

  /** The block of `o` for the whole of transaction `t`. */
  function BlockOf(o: Oid, t: Transaction): Block
  {
    Events(o, t, t.records)
  }

  /** The block `t` adds to the history of `o`: none when `t` does not touch `o`. */
  function TxnBlocks(o: Oid, t: Transaction): seq<Block>
  {
    if HasEvents(BlockOf(o, t)) then [BlockOf(o, t)] else []
  }

  /** The history of `o` in `log`: one block per transaction that touches it. */
  function HistoryOf(o: Oid, log: Log): seq<Block>
  {
    if log == [] then [] else HistoryOf(o, log[..|log| - 1]) + TxnBlocks(o, log[|log| - 1])
  }

  /** Block `b` of `o` extended with the events of one more record `r`. */
  function AddRecord(b: Block, o: Oid, r: DataRecord): Block
  {
    b.(revisions := b.revisions + RecordRevisions(o, r),
       references := b.references + RecordReferences(o, r),
       referencedBy := b.referencedBy + RecordReferencedBy(o, r))
  }

  /** Block `b` of `o` extended with the events of one reference `ref` held by
      record `source` of class `klass` at `offset`. */
  function AddReference(b: Block, o: Oid, source: Oid, klass: Option<TypeName>, offset: nat, ref: Reference): Block
  {
    b.(references := b.references + (if o == source then [OutRef(ref.target, ref.klass, offset)] else []),
       referencedBy := b.referencedBy + (if ref.target == o then [InRef(source, klass, offset)] else []))
  }

  /** Block `b` of `o` extended with the events of the references `refs`. */
  function WithReferences(b: Block, o: Oid, source: Oid, klass: Option<TypeName>, offset: nat, refs: seq<Reference>): Block
  {
    b.(references := b.references + (if o == source then OutRefs(refs, offset) else []),
       referencedBy := b.referencedBy + InRefs(o, source, klass, offset, refs))
  }

  lemma WithReferencesStep(b: Block, o: Oid, source: Oid, klass: Option<TypeName>, offset: nat,
                           refs: seq<Reference>, k: nat)
    requires k < |refs|
    ensures WithReferences(b, o, source, klass, offset, refs[..k + 1])
            == AddReference(WithReferences(b, o, source, klass, offset, refs[..k]), o, source, klass, offset, refs[k])
  {
    assert refs[..k + 1][..k] == refs[..k];
  }

  lemma EventsStep(o: Oid, t: Transaction, j: nat)
    requires j < |t.records|
    ensures Events(o, t, t.records[..j + 1]) == AddRecord(Events(o, t, t.records[..j]), o, t.records[j])
  {
    assert t.records[..j + 1][..j] == t.records[..j];
  }

  lemma HistoryStep(o: Oid, log: Log, i: nat)
    requires i < |log|
    ensures HistoryOf(o, log[..i + 1]) == HistoryOf(o, log[..i]) + TxnBlocks(o, log[i])
  {
    assert log[..i + 1][..i] == log[..i];
  }

  /** The step of `run()`'s loop: the histories after one more transaction. */
  lemma HistoriesStep(start: map<Oid, seq<Block>>, before: map<Oid, seq<Block>>, after: map<Oid, seq<Block>>,
                      log: Log, i: nat)
    requires i < |log|
    requires before.Keys == start.Keys && after.Keys == start.Keys
    requires forall o :: o in start ==> before[o] == start[o] + HistoryOf(o, log[..i])
    requires forall o :: o in start ==> after[o] == before[o] + TxnBlocks(o, log[i])
    ensures forall o :: o in start ==> after[o] == start[o] + HistoryOf(o, log[..i + 1])
  {
    forall o | o in start
      ensures after[o] == start[o] + HistoryOf(o, log[..i + 1])
    {
      HistoryStep(o, log, i);
      AppendAssociative(start[o], HistoryOf(o, log[..i]), TxnBlocks(o, log[i]));
    }
  }

  lemma AppendAssociative<T>(a: seq<T>, b: seq<T>, c: seq<T>)
    ensures (a + b) + c == a + (b + c)
  {
  }

  // ---------------------------------------------------------------------------
  // The Tracer

  class Tracer {
    /** The oids registered so far. */
    var oids: set<Oid>
    /** Per traced oid, the blocks collected so far, in file order. */
    var history: map<Oid, seq<Block>>

    ghost predicate Valid()
      reads this
    {
      history.Keys == oids
    }

    /** A tracer with no oids registered; opening and checking the storage file
        is outside the model. */
    constructor ()
      ensures Valid() && oids == {}
    {
      oids := {};
      history := map[];
    }

    /** `register_oids(*oids)`: adds the given oids to the traced set. */
    method RegisterOids(xs: seq<Oid>)
      requires Valid()
      modifies this
      ensures Valid()
      ensures oids == old(oids) + set x | x in xs
      ensures forall o :: o in old(oids) ==> history[o] == old(history[o])
      ensures forall o :: o in oids && o !in old(oids) ==> history[o] == []
    {
      var i := 0;
      while i < |xs|
        invariant 0 <= i <= |xs|
        invariant Valid()
        invariant oids == old(oids) + set x | x in xs[..i]
        invariant forall o :: o in old(oids) ==> history[o] == old(history[o])
        invariant forall o :: o in oids && o !in old(oids) ==> history[o] == []
      {
        if xs[i] !in oids {
          oids := oids + {xs[i]};
          history := history[xs[i] := []];
        }
        assert xs[..i + 1] == xs[..i] + [xs[i]];
        i := i + 1;
      }
      assert xs[..i] == xs;
    }

    /** `run()`: one pass over the log, appending to every traced oid's history
        the blocks of the transactions that touch it. */
    method Run(log: Log)
      requires Valid()
      modifies this
      ensures Valid() && oids == old(oids)
      ensures forall o :: o in oids ==> history[o] == old(history[o]) + HistoryOf(o, log)
    {
      ghost var start := history;
      var i := 0;
      while i < |log|
        invariant 0 <= i <= |log|
        invariant Valid() && oids == start.Keys
        invariant forall o :: o in oids ==> history[o] == start[o] + HistoryOf(o, log[..i])
      {
        ghost var before := history;
        CheckTransaction(log[i]);
        HistoriesStep(start, before, history, log, i);
        i := i + 1;
      }
      assert log[..i] == log;
    }

    /** `report()`: the frozen histories rendered oid by oid; every traced
        oid has its header and at least one more line. */
    function Report(stamp: Tid -> string): (r: seq<string>)
      reads this
      requires Valid()
      ensures |r| >= 2 * |oids|
      ensures forall o :: o in oids ==> HeaderLine(o, history[o]) in r
    {
      ReportHeaders(history, stamp);
      ReportLines(history, stamp)
    }

    /** One transaction: the events of its records are gathered per traced oid,
        and each traced oid the transaction touches gets one new block. */
    method CheckTransaction(t: Transaction)
      requires Valid()
      modifies this
      ensures Valid() && oids == old(oids)
      ensures forall o :: o in oids ==> history[o] == old(history[o]) + TxnBlocks(o, t)
    {
      var pending := map o | o in oids :: Events(o, t, []);
      var j := 0;
      while j < |t.records|
        invariant 0 <= j <= |t.records|
        invariant oids == old(oids) && history == old(history)
        invariant pending.Keys == oids
        invariant forall o :: o in oids ==> pending[o] == Events(o, t, t.records[..j])
      {
        pending := CheckRecord(pending, t.records[j]);
        forall o | o in oids
          ensures pending[o] == Events(o, t, t.records[..j + 1])
        {
          EventsStep(o, t, j);
        }
        j := j + 1;
      }
      assert t.records[..j] == t.records;
      history := map o | o in oids :: history[o] + (if HasEvents(pending[o]) then [pending[o]] else []);
    }

    /** One data record: a revision of a traced oid, its references, and the
        references it holds to traced oids, added to the pending blocks. */
    method CheckRecord(pending: map<Oid, Block>, r: DataRecord) returns (next: map<Oid, Block>)
      requires pending.Keys == oids
      ensures next.Keys == oids
      ensures forall o :: o in oids ==> next[o] == AddRecord(pending[o], o, r)
    {
      next := pending;
      if r.data.None? {
        return;
      }
      var p := r.data.value;
      if r.oid in oids {
        next := next[r.oid := next[r.oid].(revisions := next[r.oid].revisions + [Revision(p.klass, r.offset)])];
      }
      ghost var revised := next;
      var k := 0;
      while k < |p.refs|
        invariant 0 <= k <= |p.refs|
        invariant next.Keys == oids
        invariant forall o :: o in oids ==> next[o] == WithReferences(revised[o], o, r.oid, p.klass, r.offset, p.refs[..k])
      {
        ghost var was := next;
        next := CheckReference(next, r.oid, p.klass, r.offset, p.refs[k]);
        forall o | o in oids
          ensures next[o] == WithReferences(revised[o], o, r.oid, p.klass, r.offset, p.refs[..k + 1])
        {
          WithReferencesStep(revised[o], o, r.oid, p.klass, r.offset, p.refs, k);
        }
        k := k + 1;
      }
      assert p.refs[..k] == p.refs;
    }

    /** One reference `ref` held by record `source` (of class `klass`, at
        `offset`): a "referenced by" event for its target when that is traced,
        and a "references" event for the source when that is traced. */
    method CheckReference(pending: map<Oid, Block>, source: Oid, klass: Option<TypeName>, offset: nat, ref: Reference)
      returns (next: map<Oid, Block>)
      requires pending.Keys == oids
      ensures next.Keys == oids
      ensures forall o :: o in oids ==> next[o] == AddReference(pending[o], o, source, klass, offset, ref)
    {
      next := pending;
      if ref.target in oids {
        next := next[ref.target := next[ref.target].(referencedBy := next[ref.target].referencedBy
                                                                     + [InRef(source, klass, offset)])];
      }
      if source in oids {
        next := next[source := next[source].(references := next[source].references
                                                           + [OutRef(ref.target, ref.klass, offset)])];
      }
    }
  }

  // ---------------------------------------------------------------------------
  // The report

  /** The traced oids in ascending order. */
  function SortedOids(s: set<Oid>): (r: seq<Oid>)
    ensures |r| == |s|
    ensures forall o :: o in r <==> o in s
    ensures StrictlyAscending(r)
    decreases s
  {
    if s == {} then []
    else
      LeastExists(s);
      var m :| IsLeast(m, s);
      var rest := SortedOids(s - {m});
      PrependLeast(m, rest);
      [m] + rest
  }

  predicate StrictlyAscending(r: seq<Oid>)
  {
    forall i, j :: 0 <= i < j < |r| ==> r[i] < r[j]
  }

  lemma PrependLeast(m: Oid, rest: seq<Oid>)
    requires StrictlyAscending(rest)
    requires forall o :: o in rest ==> m < o
    ensures StrictlyAscending([m] + rest)
  {
    forall i, j | 0 <= i < j < |[m] + rest|
      ensures ([m] + rest)[i] < ([m] + rest)[j]
    {
      if i > 0 {
        assert ([m] + rest)[i] == rest[i - 1];
      }
      assert ([m] + rest)[j] == rest[j - 1] && rest[j - 1] in rest;
    }
  }

  predicate IsLeast(m: Oid, s: set<Oid>)
  {
    m in s && forall x :: x in s ==> m <= x
  }

  lemma {:induction false} LeastExists(s: set<Oid>)
    requires s != {}
    ensures exists m :: IsLeast(m, s)
    decreases s
  {
    var y :| y in s;
    var rest := s - {y};
    if rest == {} {
      forall x | x in s
        ensures y <= x
      {
        assert x !in rest;
      }
      assert IsLeast(y, s);
    } else {
      LeastExists(rest);
      var m :| IsLeast(m, rest);
      var least := if y < m then y else m;
      forall x | x in s
        ensures least <= x
      {
        if x != y {
          assert x in rest;
        }
      }
      assert IsLeast(least, s);
    }
  }

  /** `oid_repr` and `tid_repr`: "0x" and the lower-case hex digits, with a zero
      in front when their count is odd ("0x00" for zero). */
  function HexRepr(n: nat): string
  {
    var h := Numeral(n, 16);
    "0x" + (if |h| % 2 == 1 then "0" + h else h)
  }

  /** After "0x", `oid_repr` prints lower-case hex digits only. */
  lemma HexReprDigits(n: nat)
    ensures forall i :: 2 <= i < |HexRepr(n)| ==> DigitValue(HexRepr(n)[i]) < 16 && DigitChar(DigitValue(HexRepr(n)[i])) == HexRepr(n)[i]
  {
  }

  /** A class name as printed; a class the decoder could not tell is "<unknown>". */
  function ClassName(klass: Option<TypeName>): string
  {
    klass.GetOr("<unknown>")
  }

  const NOT_SEEN := "    this oid was neither defined nor referenced"

  /** All new revisions in a history, in order. */
  function AllRevisions(blocks: seq<Block>): seq<Revision>
  {
    if blocks == [] then [] else AllRevisions(blocks[..|blocks| - 1]) + blocks[|blocks| - 1].revisions
  }

  /** The class of the latest of `revs`, if any. */
  function LatestClass(revs: seq<Revision>): Option<TypeName>
  {
    if revs == [] then None else revs[|revs| - 1].klass
  }

  /** "oid <oid> <class of the latest revision> <N> revision(s)" */
  function HeaderLine(o: Oid, blocks: seq<Block>): string
  {
    var revs := AllRevisions(blocks);
    "oid " + HexRepr(o) + " " + ClassName(LatestClass(revs)) + " " + Decimal(|revs|)
    + (if |revs| == 1 then " revision" else " revisions")
  }

  function RevisionLine(r: Revision): string
  {
    "        new revision " + ClassName(r.klass) + " at " + Decimal(r.offset)
  }

  function ReferencesLine(x: OutRef): string
  {
    "        references " + HexRepr(x.target) + " " + ClassName(x.klass) + " at " + Decimal(x.offset)
  }

  function ReferencedByLine(x: InRef): string
  {
    "        referenced by " + HexRepr(x.source) + " " + ClassName(x.klass) + " at " + Decimal(x.offset)
  }

  /** The lines of one block: the transaction's header, user and description,
      then its new revisions, then its references, then the references to it;
      `stamp` renders a tid as a wall-clock time. */
  function BlockLines(b: Block, stamp: Tid -> string): seq<string>
  {
    ["    tid " + HexRepr(b.tid) + " offset=" + Decimal(b.offset) + " " + stamp(b.tid),
     "        tid user='" + b.user + "'",
     "        tid description='" + b.description + "'"]
    + seq(|b.revisions|, i requires 0 <= i < |b.revisions| => RevisionLine(b.revisions[i]))
    + seq(|b.references|, i requires 0 <= i < |b.references| => ReferencesLine(b.references[i]))
    + seq(|b.referencedBy|, i requires 0 <= i < |b.referencedBy| => ReferencedByLine(b.referencedBy[i]))
  }

  /** One line per event under the three lines of the transaction: the new
      revisions, then the references, then the references to the oid, each
      group in order. */
  lemma BlockLinesShape(b: Block, stamp: Tid -> string)
    ensures |BlockLines(b, stamp)| == 3 + |b.revisions| + |b.references| + |b.referencedBy|
    ensures forall k :: 0 <= k < |b.revisions| ==> BlockLines(b, stamp)[3 + k] == RevisionLine(b.revisions[k])
    ensures forall k :: 0 <= k < |b.references|
              ==> BlockLines(b, stamp)[3 + |b.revisions| + k] == ReferencesLine(b.references[k])
    ensures forall k :: 0 <= k < |b.referencedBy|
              ==> BlockLines(b, stamp)[3 + |b.revisions| + |b.references| + k] == ReferencedByLine(b.referencedBy[k])
  {
  }

  /** The three lines of the transaction open a block: its tid, offset and
      time, then its user, then its description. */
  lemma BlockHeadLines(b: Block, stamp: Tid -> string)
    ensures |BlockLines(b, stamp)| >= 3
    ensures BlockLines(b, stamp)[..3]
            == ["    tid " + HexRepr(b.tid) + " offset=" + Decimal(b.offset) + " " + stamp(b.tid),
                "        tid user='" + b.user + "'",
                "        tid description='" + b.description + "'"]
  {
  }

  function BlocksLines(blocks: seq<Block>, stamp: Tid -> string): seq<string>
  {
    if blocks == [] then [] else BlockLines(blocks[0], stamp) + BlocksLines(blocks[1..], stamp)
  }

  /** The section of one traced oid. */
  function OidLines(o: Oid, blocks: seq<Block>, stamp: Tid -> string): seq<string>
  {
    [HeaderLine(o, blocks)] + (if blocks == [] then [NOT_SEEN] else BlocksLines(blocks, stamp))
  }

  /** A section is its header and at least one more line. */
  lemma OidLinesShape(o: Oid, blocks: seq<Block>, stamp: Tid -> string)
    ensures |OidLines(o, blocks, stamp)| >= 2 && OidLines(o, blocks, stamp)[0] == HeaderLine(o, blocks)
  {
    if blocks != [] {
      BlockLinesShape(blocks[0], stamp);
    }
  }

  function OidsLines(os: seq<Oid>, history: map<Oid, seq<Block>>, stamp: Tid -> string): seq<string>
    requires forall i :: 0 <= i < |os| ==> os[i] in history
  {
    if os == [] then [] else OidLines(os[0], history[os[0]], stamp) + OidsLines(os[1..], history, stamp)
  }

  /** The sections of the oids `os`, one after the other: each has its
      header and at least one more line. */
  lemma {:induction false} OidsLinesHeaders(os: seq<Oid>, history: map<Oid, seq<Block>>, stamp: Tid -> string)
    requires forall i :: 0 <= i < |os| ==> os[i] in history
    ensures |OidsLines(os, history, stamp)| >= 2 * |os|
    ensures forall i :: 0 <= i < |os| ==> HeaderLine(os[i], history[os[i]]) in OidsLines(os, history, stamp)
  {
    if os != [] {
      OidLinesShape(os[0], history[os[0]], stamp);
      OidsLinesHeaders(os[1..], history, stamp);
      assert forall i :: 1 <= i < |os| ==> os[i] == os[1..][i - 1];
    }
  }

  /** The whole report: the sections of the traced oids in ascending order. */
  function ReportLines(history: map<Oid, seq<Block>>, stamp: Tid -> string): seq<string>
  {
    OidsLines(SortedOids(history.Keys), history, stamp)
  }

  /** Every oid of the history has its header in the report, and the report
      has at least two lines per oid. */
  lemma ReportHeaders(history: map<Oid, seq<Block>>, stamp: Tid -> string)
    ensures |ReportLines(history, stamp)| >= 2 * |history.Keys|
    ensures forall o :: o in history ==> HeaderLine(o, history[o]) in ReportLines(history, stamp)
  {
    var os := SortedOids(history.Keys);
    OidsLinesHeaders(os, history, stamp);
    assert forall o :: o in history ==> exists i :: 0 <= i < |os| && os[i] == o;
  }
}
