/** The Tracer's documented sessions, replayed on the model: an empty storage,
    the storage after the root object is created, after a BTree is added under
    the root, and after the BTree is made to refer back to the root. Tids are
    timestamps chosen by the storage, so they are parameters here, and so is
    the rendering of a tid as a wall-clock time. */
module TracerScenarios {
  import opened Wrappers
  import opened Numerals
  import opened FsOids
  import opened TracerProperties

  const ROOT_CLASS := "persistent.mapping.PersistentMapping"
  const TREE_CLASS := "BTrees._OOBTree.OOBTree"

  // ---------------------------------------------------------------------------
  // The three transactions, as the storage writes them

  /** The root mapping, created empty at offset 52. */
  function Creation(t1: Tid): Transaction
  {
    Transaction(t1, 4, "", "initial database creation",
                [DataRecord(0, 52, Some(Pickle(Some(ROOT_CLASS), [])))])
  }

  /** The root now refers to oid 1 (through a reference that carries no class),
      and oid 1 is a new empty BTree. */
  function AddTree(t2: Tid): Transaction
  {
    Transaction(t2, 168, "", "added an OOBTree",
                [DataRecord(0, 207, Some(Pickle(Some(ROOT_CLASS), [Reference(1, None)]))),
                 DataRecord(1, 363, Some(Pickle(Some(TREE_CLASS), [])))])
  }

  /** The BTree is rewritten with a reference back to the root. */
  function CircleBack(t3: Tid): Transaction
  {
    Transaction(t3, 443, "", "circling back to the root",
                [DataRecord(1, 491, Some(Pickle(Some(TREE_CLASS), [Reference(0, None)])))])
  }

  // ---------------------------------------------------------------------------
  // The blocks the documented sessions show

  /** The root's creation. */
  function RootCreated(t1: Tid): Block
  {
    Block(t1, 4, "", "initial database creation", [Revision(Some(ROOT_CLASS), 52)], [], [])
  }

  /** The root's second revision, which refers to the BTree through a
      reference without a class. */
  function RootLinked(t2: Tid): Block
  {
    Block(t2, 168, "", "added an OOBTree", [Revision(Some(ROOT_CLASS), 207)], [OutRef(1, None, 207)], [])
  }

  /** The root, unchanged, referenced by the BTree's second revision. */
  function RootReferenced(t3: Tid): Block
  {
    Block(t3, 443, "", "circling back to the root", [], [], [InRef(1, Some(TREE_CLASS), 491)])
  }

  /** The BTree's creation, referenced by the root's second revision. */
  function TreeCreated(t2: Tid): Block
  {
    Block(t2, 168, "", "added an OOBTree", [Revision(Some(TREE_CLASS), 363)], [], [InRef(0, Some(ROOT_CLASS), 207)])
  }

  /** The BTree's second revision, which refers back to the root. */
  function TreeLinked(t3: Tid): Block
  {
    Block(t3, 443, "", "circling back to the root", [Revision(Some(TREE_CLASS), 491)], [OutRef(0, None, 491)], [])
  }

  // ---------------------------------------------------------------------------
  // The histories

  lemma OneReference(o: Oid, source: Oid, klass: Option<TypeName>, offset: nat, ref: Reference)
    ensures OutRefs([ref], offset) == [OutRef(ref.target, ref.klass, offset)]
    ensures InRefs(o, source, klass, offset, [ref]) == if ref.target == o then [InRef(source, klass, offset)] else []
  {
    assert [ref][..0] == [];
  }

  lemma OneRecord(o: Oid, r: DataRecord)
    ensures Revisions(o, [r]) == RecordRevisions(o, r)
    ensures References(o, [r]) == RecordReferences(o, r)
    ensures ReferencedBy(o, [r]) == RecordReferencedBy(o, r)
  {
    assert [r][..0] == [];
  }

  lemma TwoRecords(o: Oid, r: DataRecord, q: DataRecord)
    ensures Revisions(o, [r, q]) == RecordRevisions(o, r) + RecordRevisions(o, q)
    ensures References(o, [r, q]) == RecordReferences(o, r) + RecordReferences(o, q)
    ensures ReferencedBy(o, [r, q]) == RecordReferencedBy(o, r) + RecordReferencedBy(o, q)
  {
    assert [r, q][..1] == [r];
    OneRecord(o, r);
  }

  lemma OneTransaction(o: Oid, a: Transaction)
    ensures HistoryOf(o, [a]) == TxnBlocks(o, a)
  {
    assert [a][..0] == [];
  }

  lemma TwoTransactions(o: Oid, a: Transaction, b: Transaction)
    ensures HistoryOf(o, [a, b]) == TxnBlocks(o, a) + TxnBlocks(o, b)
  {
    assert [a, b][..1] == [a];
    OneTransaction(o, a);
  }

  lemma ThreeTransactions(o: Oid, a: Transaction, b: Transaction, c: Transaction)
    ensures HistoryOf(o, [a, b, c]) == TxnBlocks(o, a) + TxnBlocks(o, b) + TxnBlocks(o, c)
  {
    assert [a, b, c][..2] == [a, b];
    TwoTransactions(o, a, b);
  }

  /** The root's block in each transaction: created, rewritten with a
      reference to the BTree, and referenced back without being rewritten. */
  lemma RootInCreation(t1: Tid)
    ensures TxnBlocks(0, Creation(t1)) == [RootCreated(t1)]
  {
    OneRecord(0, Creation(t1).records[0]);
  }

  lemma RootInAddTree(t2: Tid)
    ensures TxnBlocks(0, AddTree(t2)) == [RootLinked(t2)]
  {
    var r, q := AddTree(t2).records[0], AddTree(t2).records[1];
    TwoRecords(0, r, q);
    OneReference(0, 0, Some(ROOT_CLASS), 207, Reference(1, None));
    assert InRefs(0, 1, Some(TREE_CLASS), 363, []) == [];
    assert Revisions(0, AddTree(t2).records) == [Revision(Some(ROOT_CLASS), 207)];
    assert References(0, AddTree(t2).records) == [OutRef(1, None, 207)];
    assert ReferencedBy(0, AddTree(t2).records) == [];
  }

  lemma RootInCircleBack(t3: Tid)
    ensures TxnBlocks(0, CircleBack(t3)) == [RootReferenced(t3)]
  {
    OneRecord(0, CircleBack(t3).records[0]);
    OneReference(0, 1, Some(TREE_CLASS), 491, Reference(0, None));
  }

  lemma RootBlocks(t1: Tid, t2: Tid, t3: Tid)
    ensures TxnBlocks(0, Creation(t1)) == [RootCreated(t1)]
    ensures TxnBlocks(0, AddTree(t2)) == [RootLinked(t2)]
    ensures TxnBlocks(0, CircleBack(t3)) == [RootReferenced(t3)]
  {
    RootInCreation(t1);
    RootInAddTree(t2);
    RootInCircleBack(t3);
  }

  /** The BTree's block in each transaction: none before it exists, created
      and referenced by the root, then rewritten with a reference back. */
  lemma TreeInCreation(t1: Tid)
    ensures TxnBlocks(1, Creation(t1)) == []
  {
    OneRecord(1, Creation(t1).records[0]);
  }

  lemma TreeInAddTree(t2: Tid)
    ensures TxnBlocks(1, AddTree(t2)) == [TreeCreated(t2)]
  {
    var r, q := AddTree(t2).records[0], AddTree(t2).records[1];
    TwoRecords(1, r, q);
    OneReference(1, 0, Some(ROOT_CLASS), 207, Reference(1, None));
    assert OutRefs([], 363) == [];
    assert Revisions(1, AddTree(t2).records) == [Revision(Some(TREE_CLASS), 363)];
    assert References(1, AddTree(t2).records) == [];
    assert ReferencedBy(1, AddTree(t2).records) == [InRef(0, Some(ROOT_CLASS), 207)];
  }

  lemma TreeInCircleBack(t3: Tid)
    ensures TxnBlocks(1, CircleBack(t3)) == [TreeLinked(t3)]
  {
    OneRecord(1, CircleBack(t3).records[0]);
    OneReference(1, 1, Some(TREE_CLASS), 491, Reference(0, None));
  }

  lemma TreeBlocks(t1: Tid, t2: Tid, t3: Tid)
    ensures TxnBlocks(1, Creation(t1)) == []
    ensures TxnBlocks(1, AddTree(t2)) == [TreeCreated(t2)]
    ensures TxnBlocks(1, CircleBack(t3)) == [TreeLinked(t3)]
  {
    TreeInCreation(t1);
    TreeInAddTree(t2);
    TreeInCircleBack(t3);
  }

  /** No transaction touches oid 2. */
  lemma UnusedInCreation(t1: Tid)
    ensures TxnBlocks(2, Creation(t1)) == []
  {
    OneRecord(2, Creation(t1).records[0]);
  }

  lemma UnusedInAddTree(t2: Tid)
    ensures TxnBlocks(2, AddTree(t2)) == []
  {
    TwoRecords(2, AddTree(t2).records[0], AddTree(t2).records[1]);
    OneReference(2, 0, Some(ROOT_CLASS), 207, Reference(1, None));
  }

  lemma UnusedInCircleBack(t3: Tid)
    ensures TxnBlocks(2, CircleBack(t3)) == []
  {
    OneRecord(2, CircleBack(t3).records[0]);
    OneReference(2, 1, Some(TREE_CLASS), 491, Reference(0, None));
  }

  lemma UnusedBlocks(t1: Tid, t2: Tid, t3: Tid)
    ensures TxnBlocks(2, Creation(t1)) == []
    ensures TxnBlocks(2, AddTree(t2)) == []
    ensures TxnBlocks(2, CircleBack(t3)) == []
  {
    UnusedInCreation(t1);
    UnusedInAddTree(t2);
    UnusedInCircleBack(t3);
  }

  /** The history of a log of two transactions whose blocks are known. */
  lemma TwoHistory(o: Oid, a: Transaction, b: Transaction, x: seq<Block>, y: seq<Block>)
    requires TxnBlocks(o, a) == x && TxnBlocks(o, b) == y
    ensures HistoryOf(o, [a, b]) == x + y
  {
    TwoTransactions(o, a, b);
  }

  /** The history of a log of three transactions whose blocks are known. */
  lemma ThreeHistory(o: Oid, a: Transaction, b: Transaction, c: Transaction, x: seq<Block>, y: seq<Block>, z: seq<Block>)
    requires TxnBlocks(o, a) == x && TxnBlocks(o, b) == y && TxnBlocks(o, c) == z
    ensures HistoryOf(o, [a, b, c]) == x + y + z
  {
    ThreeTransactions(o, a, b, c);
  }

  lemma CreationHistories(t1: Tid)
    ensures HistoryOf(0, [Creation(t1)]) == [RootCreated(t1)]
    ensures HistoryOf(1, [Creation(t1)]) == []
  {
    OneTransaction(0, Creation(t1));
    OneTransaction(1, Creation(t1));
    RootBlocks(t1, t1, t1);
    TreeBlocks(t1, t1, t1);
  }

  lemma AddTreeHistories(t1: Tid, t2: Tid)
    ensures HistoryOf(0, [Creation(t1), AddTree(t2)]) == [RootCreated(t1), RootLinked(t2)]
    ensures HistoryOf(1, [Creation(t1), AddTree(t2)]) == [TreeCreated(t2)]
  {
    assert HistoryOf(0, [Creation(t1), AddTree(t2)]) == [RootCreated(t1), RootLinked(t2)] by {
      RootBlocks(t1, t2, t2);
      TwoHistory(0, Creation(t1), AddTree(t2), [RootCreated(t1)], [RootLinked(t2)]);
    }
    assert HistoryOf(1, [Creation(t1), AddTree(t2)]) == [TreeCreated(t2)] by {
      TreeBlocks(t1, t2, t2);
      TwoHistory(1, Creation(t1), AddTree(t2), [], [TreeCreated(t2)]);
    }
  }

  /** The root gets a block for the last transaction although it is not
      rewritten there; oid 2 is never used. */
  lemma CircleBackHistories(t1: Tid, t2: Tid, t3: Tid)
    ensures HistoryOf(0, [Creation(t1), AddTree(t2), CircleBack(t3)])
            == [RootCreated(t1), RootLinked(t2), RootReferenced(t3)]
    ensures HistoryOf(1, [Creation(t1), AddTree(t2), CircleBack(t3)]) == [TreeCreated(t2), TreeLinked(t3)]
    ensures HistoryOf(2, [Creation(t1), AddTree(t2), CircleBack(t3)]) == []
  {
    var log := [Creation(t1), AddTree(t2), CircleBack(t3)];
    assert HistoryOf(0, log) == [RootCreated(t1), RootLinked(t2), RootReferenced(t3)] by {
      RootBlocks(t1, t2, t3);
      ThreeHistory(0, Creation(t1), AddTree(t2), CircleBack(t3), [RootCreated(t1)], [RootLinked(t2)], [RootReferenced(t3)]);
    }
    assert HistoryOf(1, log) == [TreeCreated(t2), TreeLinked(t3)] by {
      TreeBlocks(t1, t2, t3);
      ThreeHistory(1, Creation(t1), AddTree(t2), CircleBack(t3), [], [TreeCreated(t2)], [TreeLinked(t3)]);
    }
    assert HistoryOf(2, log) == [] by {
      UnusedBlocks(t1, t2, t3);
      ThreeHistory(2, Creation(t1), AddTree(t2), CircleBack(t3), [], [], []);
    }
  }

  // ---------------------------------------------------------------------------
  // Rendering of the numbers

  lemma SmallHex()
    ensures HexRepr(0) == "0x00" && HexRepr(1) == "0x01" && HexRepr(2) == "0x02"
  {
    assert Numeral(0, 16) == "0" && Numeral(1, 16) == "1" && Numeral(2, 16) == "2";
  }

  lemma LargeHex()
    ensures HexRepr(0x123456) == "0x123456"
  {
    assert Numeral(0x1, 16) == "1";
    assert Numeral(0x12, 16) == "12";
    assert Numeral(0x123, 16) == "123";
    assert Numeral(0x1234, 16) == "1234";
    assert Numeral(0x12345, 16) == "12345";
  }

  // ---------------------------------------------------------------------------
  // The lines of the blocks

  /** The lines of a block by an anonymous user, with the tid and its clock
      rendering left symbolic: `tail` is what follows the tid on the first
      line, `description` the third line and `events` the event lines. */
  lemma BlockText(b: Block, stamp: Tid -> string, tail: string, description: string, events: seq<string>)
    requires " offset=" + Decimal(b.offset) + " " == tail && b.user == ""
    requires "        tid description='" + b.description + "'" == description
    requires events == seq(|b.revisions|, i requires 0 <= i < |b.revisions| => RevisionLine(b.revisions[i]))
                       + seq(|b.references|, i requires 0 <= i < |b.references| => ReferencesLine(b.references[i]))
                       + seq(|b.referencedBy|, i requires 0 <= i < |b.referencedBy| => ReferencedByLine(b.referencedBy[i]))
    ensures BlockLines(b, stamp) == ["    tid " + HexRepr(b.tid) + tail + stamp(b.tid), "        tid user=''", description] + events
  {
    var x := "    tid " + HexRepr(b.tid);
    AppendAssociative(x, " offset=", Decimal(b.offset));
    AppendAssociative(x, " offset=" + Decimal(b.offset), " ");
    assert "        tid user='" + b.user + "'" == "        tid user=''";
    var head := ["    tid " + HexRepr(b.tid) + tail + stamp(b.tid), "        tid user=''", description];
    assert BlockLines(b, stamp)[..3] == head;
  }

  /** A "new revision" line, with the class left symbolic. */
  lemma RevisionText(klass: TypeName, offset: nat, tail: string)
    requires " at " + Decimal(offset) == tail
    ensures RevisionLine(Revision(Some(klass), offset)) == "        new revision " + klass + tail
  {
    AppendAssociative("        new revision " + klass, " at ", Decimal(offset));
  }

  /** A "referenced by" line, with the class left symbolic. */
  lemma ReferencedByText(source: Oid, klass: TypeName, offset: nat, head: string, tail: string)
    requires "        referenced by " + HexRepr(source) + " " == head && " at " + Decimal(offset) == tail
    ensures ReferencedByLine(InRef(source, Some(klass), offset)) == head + klass + tail
  {
    AppendAssociative(head + klass, " at ", Decimal(offset));
  }

  // The lemmas from here to AtTails, and HeaderHeads and CountTails below,
  // only evaluate the literal pieces of the documented lines once, so that
  // the scenario proofs can use them as given; they state no property of the
  // tracer.

  lemma TidTail4()
    ensures " offset=" + Decimal(4) + " " == " offset=4 "
  {
  }

  lemma TidTail168()
    ensures " offset=" + Decimal(168) + " " == " offset=168 "
  {
  }

  lemma TidTail443()
    ensures " offset=" + Decimal(443) + " " == " offset=443 "
  {
  }

  lemma CreationDescription()
    ensures "        tid description='" + "initial database creation" + "'"
            == "        tid description='initial database creation'"
  {
  }

  lemma AddTreeDescription()
    ensures "        tid description='" + "added an OOBTree" + "'" == "        tid description='added an OOBTree'"
  {
  }

  lemma CircleBackDescription()
    ensures "        tid description='" + "circling back to the root" + "'"
            == "        tid description='circling back to the root'"
  {
  }

  lemma AtTails()
    ensures " at " + Decimal(52) == " at 52" && " at " + Decimal(207) == " at 207"
    ensures " at " + Decimal(363) == " at 363" && " at " + Decimal(491) == " at 491"
  {
  }

  lemma ReferencedByHeads()
    ensures "        referenced by " + HexRepr(0) + " " == "        referenced by 0x00 "
    ensures "        referenced by " + HexRepr(1) + " " == "        referenced by 0x01 "
  {
    SmallHex();
  }

  lemma RootReferencesTree()
    ensures ReferencesLine(OutRef(1, None, 207)) == "        references 0x01 <unknown> at 207"
  {
    SmallHex();
  }

  lemma TreeReferencesRoot()
    ensures ReferencesLine(OutRef(0, None, 491)) == "        references 0x00 <unknown> at 491"
  {
    SmallHex();
  }

  lemma RootCreatedLines(t1: Tid, stamp: Tid -> string)
    ensures BlockLines(RootCreated(t1), stamp)
            == ["    tid " + HexRepr(t1) + " offset=4 " + stamp(t1),
                "        tid user=''",
                "        tid description='initial database creation'",
                "        new revision " + ROOT_CLASS + " at 52"]
  {
    var b := RootCreated(t1);
    var events := ["        new revision " + ROOT_CLASS + " at 52"];
    TidTail4();
    CreationDescription();
    assert events == seq(|b.revisions|, i requires 0 <= i < |b.revisions| => RevisionLine(b.revisions[i]))
                     + seq(|b.references|, i requires 0 <= i < |b.references| => ReferencesLine(b.references[i]))
                     + seq(|b.referencedBy|, i requires 0 <= i < |b.referencedBy| => ReferencedByLine(b.referencedBy[i])) by {
      AtTails();
      RevisionText(ROOT_CLASS, 52, " at 52");
    }
    BlockText(b, stamp, " offset=4 ", "        tid description='initial database creation'", events);
  }

  lemma RootLinkedLines(t2: Tid, stamp: Tid -> string)
    ensures BlockLines(RootLinked(t2), stamp)
            == ["    tid " + HexRepr(t2) + " offset=168 " + stamp(t2),
                "        tid user=''",
                "        tid description='added an OOBTree'",
                "        new revision " + ROOT_CLASS + " at 207",
                "        references 0x01 <unknown> at 207"]
  {
    var b := RootLinked(t2);
    var events := ["        new revision " + ROOT_CLASS + " at 207",
                   "        references 0x01 <unknown> at 207"];
    TidTail168();
    AddTreeDescription();
    assert events == seq(|b.revisions|, i requires 0 <= i < |b.revisions| => RevisionLine(b.revisions[i]))
                     + seq(|b.references|, i requires 0 <= i < |b.references| => ReferencesLine(b.references[i]))
                     + seq(|b.referencedBy|, i requires 0 <= i < |b.referencedBy| => ReferencedByLine(b.referencedBy[i])) by {
      AtTails();
      RevisionText(ROOT_CLASS, 207, " at 207");
      RootReferencesTree();
    }
    BlockText(b, stamp, " offset=168 ", "        tid description='added an OOBTree'", events);
  }

  lemma RootReferencedLines(t3: Tid, stamp: Tid -> string)
    ensures BlockLines(RootReferenced(t3), stamp)
            == ["    tid " + HexRepr(t3) + " offset=443 " + stamp(t3),
                "        tid user=''",
                "        tid description='circling back to the root'",
                "        referenced by 0x01 " + TREE_CLASS + " at 491"]
  {
    var b := RootReferenced(t3);
    var events := ["        referenced by 0x01 " + TREE_CLASS + " at 491"];
    TidTail443();
    CircleBackDescription();
    assert events == seq(|b.revisions|, i requires 0 <= i < |b.revisions| => RevisionLine(b.revisions[i]))
                     + seq(|b.references|, i requires 0 <= i < |b.references| => ReferencesLine(b.references[i]))
                     + seq(|b.referencedBy|, i requires 0 <= i < |b.referencedBy| => ReferencedByLine(b.referencedBy[i])) by {
      AtTails();
      ReferencedByHeads();
      ReferencedByText(1, TREE_CLASS, 491, "        referenced by 0x01 ", " at 491");
    }
    BlockText(b, stamp, " offset=443 ", "        tid description='circling back to the root'", events);
  }

  lemma TreeCreatedLines(t2: Tid, stamp: Tid -> string)
    ensures BlockLines(TreeCreated(t2), stamp)
            == ["    tid " + HexRepr(t2) + " offset=168 " + stamp(t2),
                "        tid user=''",
                "        tid description='added an OOBTree'",
                "        new revision " + TREE_CLASS + " at 363",
                "        referenced by 0x00 " + ROOT_CLASS + " at 207"]
  {
    var b := TreeCreated(t2);
    var events := ["        new revision " + TREE_CLASS + " at 363",
                   "        referenced by 0x00 " + ROOT_CLASS + " at 207"];
    TidTail168();
    AddTreeDescription();
    assert events == seq(|b.revisions|, i requires 0 <= i < |b.revisions| => RevisionLine(b.revisions[i]))
                     + seq(|b.references|, i requires 0 <= i < |b.references| => ReferencesLine(b.references[i]))
                     + seq(|b.referencedBy|, i requires 0 <= i < |b.referencedBy| => ReferencedByLine(b.referencedBy[i])) by {
      AtTails();
      ReferencedByHeads();
      RevisionText(TREE_CLASS, 363, " at 363");
      ReferencedByText(0, ROOT_CLASS, 207, "        referenced by 0x00 ", " at 207");
    }
    BlockText(b, stamp, " offset=168 ", "        tid description='added an OOBTree'", events);
  }

  lemma TreeLinkedLines(t3: Tid, stamp: Tid -> string)
    ensures BlockLines(TreeLinked(t3), stamp)
            == ["    tid " + HexRepr(t3) + " offset=443 " + stamp(t3),
                "        tid user=''",
                "        tid description='circling back to the root'",
                "        new revision " + TREE_CLASS + " at 491",
                "        references 0x00 <unknown> at 491"]
  {
    var b := TreeLinked(t3);
    var events := ["        new revision " + TREE_CLASS + " at 491",
                   "        references 0x00 <unknown> at 491"];
    TidTail443();
    CircleBackDescription();
    assert events == seq(|b.revisions|, i requires 0 <= i < |b.revisions| => RevisionLine(b.revisions[i]))
                     + seq(|b.references|, i requires 0 <= i < |b.references| => ReferencesLine(b.references[i]))
                     + seq(|b.referencedBy|, i requires 0 <= i < |b.referencedBy| => ReferencedByLine(b.referencedBy[i])) by {
      AtTails();
      RevisionText(TREE_CLASS, 491, " at 491");
      TreeReferencesRoot();
    }
    BlockText(b, stamp, " offset=443 ", "        tid description='circling back to the root'", events);
  }

  // ---------------------------------------------------------------------------
  // The headers

  lemma OneBlock(a: Block, stamp: Tid -> string)
    ensures AllRevisions([a]) == a.revisions
    ensures BlocksLines([a], stamp) == BlockLines(a, stamp)
  {
    assert [a][..0] == [] && [a][1..] == [];
  }

  lemma TwoBlocks(a: Block, b: Block, stamp: Tid -> string)
    ensures AllRevisions([a, b]) == a.revisions + b.revisions
    ensures BlocksLines([a, b], stamp) == BlockLines(a, stamp) + BlockLines(b, stamp)
  {
    assert [a, b][..1] == [a] && [a, b][1..] == [b];
    OneBlock(a, stamp);
    OneBlock(b, stamp);
  }

  lemma ThreeBlocks(a: Block, b: Block, c: Block, stamp: Tid -> string)
    ensures AllRevisions([a, b, c]) == a.revisions + b.revisions + c.revisions
    ensures BlocksLines([a, b, c], stamp) == BlockLines(a, stamp) + BlockLines(b, stamp) + BlockLines(c, stamp)
  {
    assert [a, b, c][..2] == [a, b] && [a, b, c][1..] == [b, c];
    TwoBlocks(a, b, stamp);
    TwoBlocks(b, c, stamp);
    AppendAssociative(BlockLines(a, stamp), BlockLines(b, stamp), BlockLines(c, stamp));
  }

  /** The header of a traced oid whose latest revision has class `klass`, with
      the class left symbolic. */
  lemma HeaderText(o: Oid, blocks: seq<Block>, klass: TypeName, head: string, tail: string)
    requires LatestClass(AllRevisions(blocks)) == Some(klass)
    requires "oid " + HexRepr(o) + " " == head
    requires var n := |AllRevisions(blocks)|; " " + Decimal(n) + (if n == 1 then " revision" else " revisions") == tail
    ensures HeaderLine(o, blocks) == head + klass + tail
  {
    var n := |AllRevisions(blocks)|;
    var count := if n == 1 then " revision" else " revisions";
    AppendAssociative(head + klass, " ", Decimal(n));
    AppendAssociative(head + klass, " " + Decimal(n), count);
  }

  lemma HeaderHeads()
    ensures "oid " + HexRepr(0) + " " == "oid 0x00 " && "oid " + HexRepr(1) + " " == "oid 0x01 "
  {
    SmallHex();
  }

  lemma CountTails()
    ensures " " + Decimal(1) + " revision" == " 1 revision" && " " + Decimal(2) + " revisions" == " 2 revisions"
  {
  }

  /** The header of an oid without blocks. */
  lemma UnseenHeader(o: Oid, hex: string)
    requires HexRepr(o) == hex
    ensures HeaderLine(o, []) == "oid " + hex + " <unknown> 0 revisions"
  {
    EmptyHeader(o);
  }

  lemma UnseenHeader0()
    ensures HeaderLine(0, []) == "oid 0x00 <unknown> 0 revisions"
  {
    SmallHex();
    UnseenHeader(0, "0x00");
  }

  lemma UnseenHeader1()
    ensures HeaderLine(1, []) == "oid 0x01 <unknown> 0 revisions"
  {
    SmallHex();
    UnseenHeader(1, "0x01");
  }

  lemma UnseenHeader2()
    ensures HeaderLine(2, []) == "oid 0x02 <unknown> 0 revisions"
  {
    SmallHex();
    UnseenHeader(2, "0x02");
  }

  lemma UnseenHeader123456()
    ensures HeaderLine(0x123456, []) == "oid 0x123456 <unknown> 0 revisions"
  {
    LargeHex();
    UnseenHeader(0x123456, "0x123456");
  }

  // ---------------------------------------------------------------------------
  // The sections of the report

  lemma SortedThree(a: Oid, b: Oid, c: Oid)
    requires a < b < c
    ensures SortedOids({a, b, c}) == [a, b, c]
  {
    var os := [a, b, c];
    assert StrictlyAscending(os);
    SortedOidsUnique({a, b, c}, os);
  }

  lemma OidsThree(a: Oid, b: Oid, c: Oid, h: map<Oid, seq<Block>>, stamp: Tid -> string)
    requires a in h && b in h && c in h
    ensures OidsLines([a, b, c], h, stamp) == OidLines(a, h[a], stamp) + OidLines(b, h[b], stamp) + OidLines(c, h[c], stamp)
  {
    var x, y, z := OidLines(a, h[a], stamp), OidLines(b, h[b], stamp), OidLines(c, h[c], stamp);
    assert [a, b, c][1..] == [b, c] && [b, c][1..] == [c] && [c][1..] == [];
    assert OidsLines([c], h, stamp) == z;
    assert OidsLines([b, c], h, stamp) == y + z;
    AppendAssociative(x, y, z);
  }

  /** The report of a tracer with three oids. */
  lemma ThreeSections(a: Oid, b: Oid, c: Oid, h: map<Oid, seq<Block>>, stamp: Tid -> string)
    requires h.Keys == {a, b, c} && a < b < c
    ensures ReportLines(h, stamp) == OidLines(a, h[a], stamp) + OidLines(b, h[b], stamp) + OidLines(c, h[c], stamp)
  {
    SortedThree(a, b, c);
    OidsThree(a, b, c, h, stamp);
  }

  /** The report of a tracer with three oids whose sections are known. */
  lemma ThreeSectionsText(a: Oid, b: Oid, c: Oid, h: map<Oid, seq<Block>>, stamp: Tid -> string,
                          x: seq<string>, y: seq<string>, z: seq<string>)
    requires h.Keys == {a, b, c} && a < b < c
    requires OidLines(a, h[a], stamp) == x && OidLines(b, h[b], stamp) == y && OidLines(c, h[c], stamp) == z
    ensures ReportLines(h, stamp) == x + y + z
  {
    ThreeSections(a, b, c, h, stamp);
  }

  /** The section of an oid without blocks, with its header text given. */
  lemma UnseenSectionText(o: Oid, header: string, stamp: Tid -> string)
    requires HeaderLine(o, []) == header
    ensures OidLines(o, [], stamp) == [header, "    this oid was neither defined nor referenced"]
  {
  }

  lemma SortedTwo(a: Oid, b: Oid)
    requires a < b
    ensures SortedOids({a, b}) == [a, b]
  {
    var os := [a, b];
    assert StrictlyAscending(os);
    SortedOidsUnique({a, b}, os);
  }

  lemma OidsTwo(a: Oid, b: Oid, h: map<Oid, seq<Block>>, stamp: Tid -> string)
    requires a in h && b in h
    ensures OidsLines([a, b], h, stamp) == OidLines(a, h[a], stamp) + OidLines(b, h[b], stamp)
  {
    assert [a, b][1..] == [b] && [b][1..] == [];
    assert OidsLines([b], h, stamp) == OidLines(b, h[b], stamp);
  }

  /** The report of a tracer with two oids. */
  lemma TwoSections(a: Oid, b: Oid, h: map<Oid, seq<Block>>, stamp: Tid -> string)
    requires h.Keys == {a, b} && a < b
    ensures ReportLines(h, stamp) == OidLines(a, h[a], stamp) + OidLines(b, h[b], stamp)
  {
    SortedTwo(a, b);
    OidsTwo(a, b, h, stamp);
  }

  lemma UnseenSection(o: Oid, stamp: Tid -> string)
    ensures OidLines(o, [], stamp) == [HeaderLine(o, []), "    this oid was neither defined nor referenced"]
  {
  }

  lemma RootSectionOne(t1: Tid, stamp: Tid -> string)
    ensures OidLines(0, [RootCreated(t1)], stamp)
            == ["oid 0x00 " + ROOT_CLASS + " 1 revision",
                "    tid " + HexRepr(t1) + " offset=4 " + stamp(t1),
                "        tid user=''",
                "        tid description='initial database creation'",
                "        new revision " + ROOT_CLASS + " at 52"]
  {
    OneBlock(RootCreated(t1), stamp);
    HeaderHeads();
    CountTails();
    HeaderText(0, [RootCreated(t1)], ROOT_CLASS, "oid 0x00 ", " 1 revision");
    RootCreatedLines(t1, stamp);
  }

  lemma RootSectionTwo(t1: Tid, t2: Tid, stamp: Tid -> string)
    ensures OidLines(0, [RootCreated(t1), RootLinked(t2)], stamp)
            == ["oid 0x00 " + ROOT_CLASS + " 2 revisions",
                "    tid " + HexRepr(t1) + " offset=4 " + stamp(t1),
                "        tid user=''",
                "        tid description='initial database creation'",
                "        new revision " + ROOT_CLASS + " at 52",
                "    tid " + HexRepr(t2) + " offset=168 " + stamp(t2),
                "        tid user=''",
                "        tid description='added an OOBTree'",
                "        new revision " + ROOT_CLASS + " at 207",
                "        references 0x01 <unknown> at 207"]
  {
    TwoBlocks(RootCreated(t1), RootLinked(t2), stamp);
    HeaderHeads();
    CountTails();
    HeaderText(0, [RootCreated(t1), RootLinked(t2)], ROOT_CLASS, "oid 0x00 ", " 2 revisions");
    RootCreatedLines(t1, stamp);
    RootLinkedLines(t2, stamp);
  }

  lemma RootSectionThree(t1: Tid, t2: Tid, t3: Tid, stamp: Tid -> string)
    ensures OidLines(0, [RootCreated(t1), RootLinked(t2), RootReferenced(t3)], stamp)
            == ["oid 0x00 " + ROOT_CLASS + " 2 revisions",
                "    tid " + HexRepr(t1) + " offset=4 " + stamp(t1),
                "        tid user=''",
                "        tid description='initial database creation'",
                "        new revision " + ROOT_CLASS + " at 52",
                "    tid " + HexRepr(t2) + " offset=168 " + stamp(t2),
                "        tid user=''",
                "        tid description='added an OOBTree'",
                "        new revision " + ROOT_CLASS + " at 207",
                "        references 0x01 <unknown> at 207",
                "    tid " + HexRepr(t3) + " offset=443 " + stamp(t3),
                "        tid user=''",
                "        tid description='circling back to the root'",
                "        referenced by 0x01 " + TREE_CLASS + " at 491"]
  {
    ThreeBlocks(RootCreated(t1), RootLinked(t2), RootReferenced(t3), stamp);
    HeaderHeads();
    CountTails();
    HeaderText(0, [RootCreated(t1), RootLinked(t2), RootReferenced(t3)], ROOT_CLASS, "oid 0x00 ", " 2 revisions");
    RootCreatedLines(t1, stamp);
    RootLinkedLines(t2, stamp);
    RootReferencedLines(t3, stamp);
  }

  lemma TreeSectionOne(t2: Tid, stamp: Tid -> string)
    ensures OidLines(1, [TreeCreated(t2)], stamp)
            == ["oid 0x01 " + TREE_CLASS + " 1 revision",
                "    tid " + HexRepr(t2) + " offset=168 " + stamp(t2),
                "        tid user=''",
                "        tid description='added an OOBTree'",
                "        new revision " + TREE_CLASS + " at 363",
                "        referenced by 0x00 " + ROOT_CLASS + " at 207"]
  {
    OneBlock(TreeCreated(t2), stamp);
    HeaderHeads();
    CountTails();
    HeaderText(1, [TreeCreated(t2)], TREE_CLASS, "oid 0x01 ", " 1 revision");
    TreeCreatedLines(t2, stamp);
  }

  lemma TreeSectionTwo(t2: Tid, t3: Tid, stamp: Tid -> string)
    ensures OidLines(1, [TreeCreated(t2), TreeLinked(t3)], stamp)
            == ["oid 0x01 " + TREE_CLASS + " 2 revisions",
                "    tid " + HexRepr(t2) + " offset=168 " + stamp(t2),
                "        tid user=''",
                "        tid description='added an OOBTree'",
                "        new revision " + TREE_CLASS + " at 363",
                "        referenced by 0x00 " + ROOT_CLASS + " at 207",
                "    tid " + HexRepr(t3) + " offset=443 " + stamp(t3),
                "        tid user=''",
                "        tid description='circling back to the root'",
                "        new revision " + TREE_CLASS + " at 491",
                "        references 0x00 <unknown> at 491"]
  {
    TwoBlocks(TreeCreated(t2), TreeLinked(t3), stamp);
    HeaderHeads();
    CountTails();
    HeaderText(1, [TreeCreated(t2), TreeLinked(t3)], TREE_CLASS, "oid 0x01 ", " 2 revisions");
    TreeCreatedLines(t2, stamp);
    TreeLinkedLines(t3, stamp);
  }

  // ---------------------------------------------------------------------------
  // The documented sessions

  /** The report lines of the history EmptyStorage builds. */
  lemma EmptyStorageReport(h: map<Oid, seq<Block>>, stamp: Tid -> string)
    requires h.Keys == {0, 1, 0x123456}
    requires h[0] == [] && h[1] == [] && h[0x123456] == []
    ensures ReportLines(h, stamp) == ["oid 0x00 <unknown> 0 revisions",
                                      "    this oid was neither defined nor referenced"]
                                   + ["oid 0x01 <unknown> 0 revisions",
                                      "    this oid was neither defined nor referenced"]
                                   + ["oid 0x123456 <unknown> 0 revisions",
                                      "    this oid was neither defined nor referenced"]
  {
    UnseenHeader0();
    UnseenHeader1();
    UnseenHeader123456();
    ThreeUnseen(0, 1, 0x123456, h, stamp, "oid 0x00 <unknown> 0 revisions", "oid 0x01 <unknown> 0 revisions",
                "oid 0x123456 <unknown> 0 revisions");
  }

  /** The report of three oids without blocks, with their headers given. */
  lemma ThreeUnseen(a: Oid, b: Oid, c: Oid, h: map<Oid, seq<Block>>, stamp: Tid -> string,
                    ha: string, hb: string, hc: string)
    requires h.Keys == {a, b, c} && a < b < c && h[a] == [] && h[b] == [] && h[c] == []
    requires HeaderLine(a, []) == ha && HeaderLine(b, []) == hb && HeaderLine(c, []) == hc
    ensures ReportLines(h, stamp) == [ha, NOT_SEEN] + [hb, NOT_SEEN] + [hc, NOT_SEEN]
  {
    UnseenLines(a, h, stamp, ha);
    UnseenLines(b, h, stamp, hb);
    UnseenLines(c, h, stamp, hc);
    ThreeSectionsText(a, b, c, h, stamp, [ha, NOT_SEEN], [hb, NOT_SEEN], [hc, NOT_SEEN]);
  }

  /** The section of a traced oid without blocks, with its header given. */
  lemma UnseenLines(o: Oid, h: map<Oid, seq<Block>>, stamp: Tid -> string, header: string)
    requires o in h && h[o] == [] && HeaderLine(o, []) == header
    ensures OidLines(o, h[o], stamp) == [header, NOT_SEEN]
  {
  }

  /** The report lines of the history AfterCreation builds. */
  lemma AfterCreationReport(t1: Tid, h: map<Oid, seq<Block>>, stamp: Tid -> string)
    requires h.Keys == {0, 1}
    requires h[0] == [RootCreated(t1)] && h[1] == []
    ensures ReportLines(h, stamp) == ["oid 0x00 " + ROOT_CLASS + " 1 revision",
                      "    tid " + HexRepr(t1) + " offset=4 " + stamp(t1),
                      "        tid user=''",
                      "        tid description='initial database creation'",
                      "        new revision " + ROOT_CLASS + " at 52",
                      "oid 0x01 <unknown> 0 revisions",
                      "    this oid was neither defined nor referenced"]
  {
    TwoSections(0, 1, h, stamp);
    RootSectionOne(t1, stamp);
    UnseenSection(1, stamp);
    UnseenHeader1();
  }

  /** The report lines of the history AfterAddTree builds. */
  lemma AfterAddTreeReport(t1: Tid, t2: Tid, h: map<Oid, seq<Block>>, stamp: Tid -> string)
    requires h.Keys == {0, 1}
    requires h[0] == [RootCreated(t1), RootLinked(t2)] && h[1] == [TreeCreated(t2)]
    ensures ReportLines(h, stamp) == ["oid 0x00 " + ROOT_CLASS + " 2 revisions",
                      "    tid " + HexRepr(t1) + " offset=4 " + stamp(t1),
                      "        tid user=''",
                      "        tid description='initial database creation'",
                      "        new revision " + ROOT_CLASS + " at 52",
                      "    tid " + HexRepr(t2) + " offset=168 " + stamp(t2),
                      "        tid user=''",
                      "        tid description='added an OOBTree'",
                      "        new revision " + ROOT_CLASS + " at 207",
                      "        references 0x01 <unknown> at 207",
                      "oid 0x01 " + TREE_CLASS + " 1 revision",
                      "    tid " + HexRepr(t2) + " offset=168 " + stamp(t2),
                      "        tid user=''",
                      "        tid description='added an OOBTree'",
                      "        new revision " + TREE_CLASS + " at 363",
                      "        referenced by 0x00 " + ROOT_CLASS + " at 207"]
  {
    TwoSections(0, 1, h, stamp);
    RootSectionTwo(t1, t2, stamp);
    TreeSectionOne(t2, stamp);
  }

  /** The report lines of the history AfterCircleBack builds. */
  lemma AfterCircleBackReport(t1: Tid, t2: Tid, t3: Tid, h: map<Oid, seq<Block>>, stamp: Tid -> string)
    requires h.Keys == {0, 1, 2}
    requires h[0] == [RootCreated(t1), RootLinked(t2), RootReferenced(t3)]
    requires h[1] == [TreeCreated(t2), TreeLinked(t3)] && h[2] == []
    ensures ReportLines(h, stamp)
            == ["oid 0x00 " + ROOT_CLASS + " 2 revisions",
                "    tid " + HexRepr(t1) + " offset=4 " + stamp(t1),
                "        tid user=''",
                "        tid description='initial database creation'",
                "        new revision " + ROOT_CLASS + " at 52",
                "    tid " + HexRepr(t2) + " offset=168 " + stamp(t2),
                "        tid user=''",
                "        tid description='added an OOBTree'",
                "        new revision " + ROOT_CLASS + " at 207",
                "        references 0x01 <unknown> at 207",
                "    tid " + HexRepr(t3) + " offset=443 " + stamp(t3),
                "        tid user=''",
                "        tid description='circling back to the root'",
                "        referenced by 0x01 " + TREE_CLASS + " at 491"]
             + ["oid 0x01 " + TREE_CLASS + " 2 revisions",
                "    tid " + HexRepr(t2) + " offset=168 " + stamp(t2),
                "        tid user=''",
                "        tid description='added an OOBTree'",
                "        new revision " + TREE_CLASS + " at 363",
                "        referenced by 0x00 " + ROOT_CLASS + " at 207",
                "    tid " + HexRepr(t3) + " offset=443 " + stamp(t3),
                "        tid user=''",
                "        tid description='circling back to the root'",
                "        new revision " + TREE_CLASS + " at 491",
                "        references 0x00 <unknown> at 491"]
             + ["oid 0x02 <unknown> 0 revisions",
                "    this oid was neither defined nor referenced"]
  {
    var x := ["oid 0x00 " + ROOT_CLASS + " 2 revisions",
             "    tid " + HexRepr(t1) + " offset=4 " + stamp(t1),
             "        tid user=''",
             "        tid description='initial database creation'",
             "        new revision " + ROOT_CLASS + " at 52",
             "    tid " + HexRepr(t2) + " offset=168 " + stamp(t2),
             "        tid user=''",
             "        tid description='added an OOBTree'",
             "        new revision " + ROOT_CLASS + " at 207",
             "        references 0x01 <unknown> at 207",
             "    tid " + HexRepr(t3) + " offset=443 " + stamp(t3),
             "        tid user=''",
             "        tid description='circling back to the root'",
             "        referenced by 0x01 " + TREE_CLASS + " at 491"];
    var y := ["oid 0x01 " + TREE_CLASS + " 2 revisions",
             "    tid " + HexRepr(t2) + " offset=168 " + stamp(t2),
             "        tid user=''",
             "        tid description='added an OOBTree'",
             "        new revision " + TREE_CLASS + " at 363",
             "        referenced by 0x00 " + ROOT_CLASS + " at 207",
             "    tid " + HexRepr(t3) + " offset=443 " + stamp(t3),
             "        tid user=''",
             "        tid description='circling back to the root'",
             "        new revision " + TREE_CLASS + " at 491",
             "        references 0x00 <unknown> at 491"];
    var z := ["oid 0x02 <unknown> 0 revisions",
             "    this oid was neither defined nor referenced"];
    assert OidLines(0, h[0], stamp) == x by {
      RootSectionThree(t1, t2, t3, stamp);
    }
    assert OidLines(1, h[1], stamp) == y by {
      TreeSectionTwo(t2, t3, stamp);
    }
    assert OidLines(2, h[2], stamp) == z by {
      UnseenHeader2();
      UnseenSectionText(2, "oid 0x02 <unknown> 0 revisions", stamp);
    }
    ThreeSectionsText(0, 1, 2, h, stamp, x, y, z);
  }

  /** On an empty storage every registered oid is reported as unseen, in
      ascending order whatever the order of registration. */
  method EmptyStorage(stamp: Tid -> string) returns (lines: seq<string>)
    ensures lines == ["oid 0x00 <unknown> 0 revisions",
                      "    this oid was neither defined nor referenced"]
                   + ["oid 0x01 <unknown> 0 revisions",
                      "    this oid was neither defined nor referenced"]
                   + ["oid 0x123456 <unknown> 0 revisions",
                      "    this oid was neither defined nor referenced"]
  {
    var t := new Tracer();
    t.RegisterOids([0x123456]);
    t.RegisterOids([1]);
    t.RegisterOids([0]);
    assert t.oids == {0, 1, 0x123456};
    t.Run([]);
    assert HistoryOf(0, []) == [] && HistoryOf(1, []) == [] && HistoryOf(0x123456, []) == [];
    assert t.history.Keys == {0, 1, 0x123456};
    assert t.history[0] == [] && t.history[1] == [] && t.history[0x123456] == [];
    lines := t.Report(stamp);
    EmptyStorageReport(t.history, stamp);
  }

  /** After the root's creation, oid 0 has one block and oid 1 none. */
  method AfterCreation(t1: Tid, stamp: Tid -> string) returns (lines: seq<string>)
    ensures lines == ["oid 0x00 " + ROOT_CLASS + " 1 revision",
                      "    tid " + HexRepr(t1) + " offset=4 " + stamp(t1),
                      "        tid user=''",
                      "        tid description='initial database creation'",
                      "        new revision " + ROOT_CLASS + " at 52",
                      "oid 0x01 <unknown> 0 revisions",
                      "    this oid was neither defined nor referenced"]
  {
    var t := new Tracer();
    t.RegisterOids([0, 1]);
    assert t.oids == {0, 1};
    t.Run([Creation(t1)]);
    CreationHistories(t1);
    assert t.history.Keys == {0, 1};
    assert t.history[0] == [RootCreated(t1)] && t.history[1] == [];
    lines := t.Report(stamp);
    AfterCreationReport(t1, t.history, stamp);
  }

  /** After the BTree is added, the root has two revisions, the second
      referencing the BTree, and the BTree is referenced by the root. */
  method AfterAddTree(t1: Tid, t2: Tid, stamp: Tid -> string) returns (lines: seq<string>)
    ensures lines == ["oid 0x00 " + ROOT_CLASS + " 2 revisions",
                      "    tid " + HexRepr(t1) + " offset=4 " + stamp(t1),
                      "        tid user=''",
                      "        tid description='initial database creation'",
                      "        new revision " + ROOT_CLASS + " at 52",
                      "    tid " + HexRepr(t2) + " offset=168 " + stamp(t2),
                      "        tid user=''",
                      "        tid description='added an OOBTree'",
                      "        new revision " + ROOT_CLASS + " at 207",
                      "        references 0x01 <unknown> at 207",
                      "oid 0x01 " + TREE_CLASS + " 1 revision",
                      "    tid " + HexRepr(t2) + " offset=168 " + stamp(t2),
                      "        tid user=''",
                      "        tid description='added an OOBTree'",
                      "        new revision " + TREE_CLASS + " at 363",
                      "        referenced by 0x00 " + ROOT_CLASS + " at 207"]
  {
    var t := new Tracer();
    t.RegisterOids([0, 1]);
    assert t.oids == {0, 1};
    t.Run([Creation(t1), AddTree(t2)]);
    AddTreeHistories(t1, t2);
    assert t.history.Keys == {0, 1};
    assert t.history[0] == [RootCreated(t1), RootLinked(t2)] && t.history[1] == [TreeCreated(t2)];
    lines := t.Report(stamp);
    AfterAddTreeReport(t1, t2, t.history, stamp);
  }

  /** After the BTree refers back to the root, the root gets a third block
      with only a "referenced by" line, the BTree a second revision, and the
      unused oid 2 is reported as unseen. */
  method AfterCircleBack(t1: Tid, t2: Tid, t3: Tid, stamp: Tid -> string) returns (lines: seq<string>)
    ensures lines
            == ["oid 0x00 " + ROOT_CLASS + " 2 revisions",
                "    tid " + HexRepr(t1) + " offset=4 " + stamp(t1),
                "        tid user=''",
                "        tid description='initial database creation'",
                "        new revision " + ROOT_CLASS + " at 52",
                "    tid " + HexRepr(t2) + " offset=168 " + stamp(t2),
                "        tid user=''",
                "        tid description='added an OOBTree'",
                "        new revision " + ROOT_CLASS + " at 207",
                "        references 0x01 <unknown> at 207",
                "    tid " + HexRepr(t3) + " offset=443 " + stamp(t3),
                "        tid user=''",
                "        tid description='circling back to the root'",
                "        referenced by 0x01 " + TREE_CLASS + " at 491"]
             + ["oid 0x01 " + TREE_CLASS + " 2 revisions",
                "    tid " + HexRepr(t2) + " offset=168 " + stamp(t2),
                "        tid user=''",
                "        tid description='added an OOBTree'",
                "        new revision " + TREE_CLASS + " at 363",
                "        referenced by 0x00 " + ROOT_CLASS + " at 207",
                "    tid " + HexRepr(t3) + " offset=443 " + stamp(t3),
                "        tid user=''",
                "        tid description='circling back to the root'",
                "        new revision " + TREE_CLASS + " at 491",
                "        references 0x00 <unknown> at 491"]
             + ["oid 0x02 <unknown> 0 revisions",
                "    this oid was neither defined nor referenced"]
  {
    var t := new Tracer();
    t.RegisterOids([0, 1, 2]);
    assert t.oids == {0, 1, 2};
    t.Run([Creation(t1), AddTree(t2), CircleBack(t3)]);
    CircleBackHistories(t1, t2, t3);
    assert t.history.Keys == {0, 1, 2};
    assert t.history[0] == [RootCreated(t1), RootLinked(t2), RootReferenced(t3)];
    assert t.history[1] == [TreeCreated(t2), TreeLinked(t3)] && t.history[2] == [];
    lines := t.Report(stamp);
    AfterCircleBackReport(t1, t2, t3, t.history, stamp);
  }
}
