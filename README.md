# ZODB oid tracer and race-test bookkeeping, modelled in Dafny

This project models two sequential pieces of ZODB.

**The oid tracer** (`fsoids.Tracer`, as its doctest fixes its behaviour). A
tracer is given a set of oids. It makes one pass over a FileStorage's
transactions and reports, for every traced oid in ascending order:

- a header line with the oid, the class of its latest revision and its
  number of new revisions;
- one block per transaction that touches the oid, with the transaction's
  tid, offset, user and description;
- under each block, "new revision", "references" and "referenced by"
  lines.

The storage is modelled as an in-memory log of transactions. Each
transaction holds data records. Each record carries its oid, its file
offset, and the class and references its pickle decodes to.

- `wrappers.dfy` (`Wrappers`) is the optional value.
- `numerals.dfy` (`Numerals`) holds decimal and hex numerals and their round trip.
- `fsoids.dfy` (`FsOids`) holds:
  - the data model;
  - the specification functions that say which blocks a log gives an oid;
  - the `Tracer` class (`RegisterOids` and `Run` update its traced set and
    history map in place);
  - the pure report rendering.
- `tracer_properties.dfy` (`TracerProperties`) holds the properties the
  doctest shows:
  - when an oid gets a block;
  - the symmetry of references;
  - blocks with only incoming references;
  - header counts;
  - the oid order;
  - the hex format.
- `report_layout.dfy` (`ReportLayout`) says where each oid's section and
  header sit in the report.
- `tracer_scenarios.dfy` (`TracerScenarios`) replays the doctest's four
  sessions against the model and proves the exact report lines. The
  timestamp part of each tid line is a parameter.

**The race tests' models and bookkeeping** (`racetest.py`):

- `racespecs.dfy` (`RaceSpecs`) holds:
  - the two model specifications `T2ObjectsInc` and `T2ObjectsInc2Phase`.
    Each has `init`, `next` and `assertStateOK` over a root whose keys name
    persistent integers;
  - their invariants;
  - `_state_invalidate_half1`.
- `stringorder.dfy` (`StringOrder`) holds Python's `str` ordering and
  `sorted()` of the root's keys.
- `racegroup.dfy` (`RaceGroup`) holds:
  - `WaitGroup`, a counter of unfinished workers;
  - `TestGroup`, which numbers and names workers, collects failures and
    builds the final failure report.

In the table below, `testfsoids.py` stands for
`branches/tim-simpler_connection/src/ZODB/tests/testfsoids.py`. The
source cells give the full paths.

## Model

| member | source | states |
|---|---|---|
| FsOids.Tracer.constructor | branches/tim-simpler_connection/src/ZODB/tests/testfsoids.py:40 | a new tracer traces no oids and has an empty history |
| FsOids.Tracer.RegisterOids | branches/tim-simpler_connection/src/ZODB/tests/testfsoids.py:41-43 | repeated calls accumulate: the traced set grows by the given oids, earlier histories are kept and new oids start with no blocks |
| FsOids.Tracer.Run | branches/tim-simpler_connection/src/ZODB/tests/testfsoids.py:44 | one pass over the log appends to every traced oid's history exactly the blocks `HistoryOf` gives it; the traced set is unchanged |
| FsOids.Tracer.CheckTransaction | branches/tim-simpler_connection/src/ZODB/tests/testfsoids.py:93-103 | a transaction appends one block to each traced oid it touches and none to the others |
| FsOids.Tracer.CheckRecord | branches/tim-simpler_connection/src/ZODB/tests/testfsoids.py:96-97 | a record with a payload adds a "new revision" to its own oid when traced, then its references in order; a record without one adds nothing |
| FsOids.Tracer.CheckReference | branches/tim-simpler_connection/src/ZODB/tests/testfsoids.py:97-103 | a reference adds "referenced by" (the source's class, the record offset) to a traced target and "references" (the reference's own class) to a traced source |
| FsOids.SortedOids | branches/tim-simpler_connection/src/ZODB/tests/testfsoids.py:41-54 | the traced oids listed once each, in strictly ascending order |
| FsOids.Tracer.Report | branches/tim-simpler_connection/src/ZODB/tests/testfsoids.py:45-51 | the report has at least two lines per traced oid and holds each traced oid's header for its history |
| FsOids.ReportHeaders | branches/tim-simpler_connection/src/ZODB/tests/testfsoids.py:45-51 | the report lines of a history map hold the header of every oid in it, with at least two lines per oid |
| FsOids.OidsLinesHeaders | branches/tim-simpler_connection/src/ZODB/tests/testfsoids.py:45-51 | the sections of a listing of oids give each of them its header, at least two lines each |
| FsOids.OidLinesShape | branches/tim-simpler_connection/src/ZODB/tests/testfsoids.py:62-68 | an oid's section starts with its header and has at least one more line |
| FsOids.BlockHeadLines | branches/tim-simpler_connection/src/ZODB/tests/testfsoids.py:93-95 | a block opens with "tid <hex tid> offset=<offset> <time>", then "tid user='<user>'", then "tid description='<description>'" |
| FsOids.BlockLinesShape | branches/tim-simpler_connection/src/ZODB/tests/testfsoids.py:93-103 | after those three lines a block prints one "new revision" line per revision, one "references" line per outgoing reference and one "referenced by" line per incoming one, in that order |
| ReportLayout.HeaderAtStart | branches/tim-simpler_connection/src/ZODB/tests/testfsoids.py:45-51 | in the sections of a listing of oids, the section of the a-th oid starts with that oid's header |
| ReportLayout.HeadersInOrder | branches/tim-simpler_connection/src/ZODB/tests/testfsoids.py:45-54 | the headers of the a-th and b-th listed oids, a < b, open their sections and the first comes before the second, so headers follow the listing, which the report takes from `SortedOids` |
| ReportLayout.SectionHeaderOwner | branches/tim-simpler_connection/src/ZODB/tests/testfsoids.py:46-50 | the line opening the a-th section is the header of the a-th oid and of no other oid of the history |
| FsOids.HexReprDigits | branches/tim-simpler_connection/src/ZODB/tests/testfsoids.py:77 | after "0x", `oid_repr` prints hex digits only |
| TracerProperties.SortedOidsUnique | branches/tim-simpler_connection/src/ZODB/tests/testfsoids.py:41-54 | any strictly ascending listing of the traced set is the report's order, so registration order cannot matter |
| TracerProperties.AscendingUnique | branches/tim-simpler_connection/src/ZODB/tests/testfsoids.py:53-54 | two strictly ascending sequences with the same members are equal |
| TracerProperties.RevisionsEmpty | branches/tim-simpler_connection/src/ZODB/tests/testfsoids.py:138-141 | a block has no "new revision" line exactly when no record of the transaction is a revision of the oid |
| TracerProperties.InRefsEmpty | branches/tim-simpler_connection/src/ZODB/tests/testfsoids.py:103 | one record's references give the oid no "referenced by" exactly when none of them targets it |
| TracerProperties.ReferencedByEmpty | branches/tim-simpler_connection/src/ZODB/tests/testfsoids.py:138-141 | a block has no "referenced by" line exactly when no record of the transaction refers to the oid |
| TracerProperties.ReferencesNeedRevision | branches/tim-simpler_connection/src/ZODB/tests/testfsoids.py:96-97 | "references" lines appear only in a block that has a new revision |
| TracerProperties.BlockIffTouched | branches/tim-simpler_connection/src/ZODB/tests/testfsoids.py:156-160 | a transaction gives an oid a block exactly when one of its records is a revision of the oid or refers to it |
| TracerProperties.HistoryEmptyIffUnmentioned | branches/tim-simpler_connection/src/ZODB/tests/testfsoids.py:46-51 | an oid has no blocks exactly when no record of the log is a revision of it or refers to it |
| TracerProperties.HistoryBlocks | branches/tim-simpler_connection/src/ZODB/tests/testfsoids.py:88-103 | the history holds exactly the non-empty blocks of the log's transactions for the oid |
| TracerProperties.HistoryTidsAscend | branches/tim-simpler_connection/src/ZODB/tests/testfsoids.py:128-141 | on a log in ascending tid order, the blocks of a history are in strictly ascending tid order |
| TracerProperties.OutRefsContain | branches/tim-simpler_connection/src/ZODB/tests/testfsoids.py:97 | each reference of a record gives a "references" event with the reference's target and class and the record offset |
| TracerProperties.InRefsContain | branches/tim-simpler_connection/src/ZODB/tests/testfsoids.py:103 | each reference of a record gives its target a "referenced by" event with the source, the source's class and the record offset |
| TracerProperties.ReferencesContain | branches/tim-simpler_connection/src/ZODB/tests/testfsoids.py:96-97 | a transaction's "references" events for a record's oid include every reference of the record |
| TracerProperties.ReferencedByContain | branches/tim-simpler_connection/src/ZODB/tests/testfsoids.py:102-103 | a transaction's "referenced by" events for a target include every record that refers to it |
| TracerProperties.ReferenceSymmetry | branches/tim-simpler_connection/src/ZODB/tests/testfsoids.py:97-103 | if A's revision in T references B, then A's block for T lists "references B" and B's block for T lists "referenced by A" with A's class, both at the same offset and both in their histories |
| TracerProperties.IncomingOnlyBlock | branches/tim-simpler_connection/src/ZODB/tests/testfsoids.py:138-141 | a transaction that only refers to an oid gives it a block with no revision and no references, but with a referenced-by line |
| TracerProperties.RevisionsContain | branches/tim-simpler_connection/src/ZODB/tests/testfsoids.py:96 | a record with a payload gives its own oid a revision with its class and offset |
| TracerProperties.RevisionReported | branches/tim-simpler_connection/src/ZODB/tests/testfsoids.py:66 | every data record with a pickle shows up in its oid's history: the oid gets a block for the record's transaction, with that tid, and the block prints "new revision <class> at <offset>" |
| TracerProperties.HistoryRevisions | branches/tim-simpler_connection/src/ZODB/tests/testfsoids.py:128-142 | the revisions in an oid's blocks are exactly the log's revisions of it, in order |
| TracerProperties.AllRevisionsAppend | branches/tim-simpler_connection/src/ZODB/tests/testfsoids.py:88-98 | the revisions of two runs of blocks are those of the first run followed by those of the second |
| TracerProperties.HeaderOfHistory | branches/tim-simpler_connection/src/ZODB/tests/testfsoids.py:128 | the header counts new revisions, not blocks; it says "revision" only for one; it names the latest revision's class, or `<unknown>` without revisions |
| TracerProperties.RevisionsLast | branches/tim-simpler_connection/src/ZODB/tests/testfsoids.py:128 | with no later revision of the oid, a record's revision is the last one of its transaction |
| TracerProperties.LatestClassIsLastRevision | branches/tim-simpler_connection/src/ZODB/tests/testfsoids.py:128 | the class in the header is that of the oid's last data record with a pickle in the log |
| TracerProperties.LatestClassWithoutRevision | branches/tim-simpler_connection/src/ZODB/tests/testfsoids.py:46 | without any data record for the oid the header's class is `<unknown>` |
| TracerProperties.EmptyHeader | branches/tim-simpler_connection/src/ZODB/tests/testfsoids.py:46 | an oid without blocks has the header "oid <hex> <unknown> 0 revisions" |
| TracerProperties.UnmentionedReport | branches/tim-simpler_connection/src/ZODB/tests/testfsoids.py:153-154 | an oid that no record defines or references gets exactly those two lines: the header and "this oid was neither defined nor referenced" |
| TracerProperties.HexReprRoundTrip | branches/tim-simpler_connection/src/ZODB/tests/testfsoids.py:77 | `oid_repr`/`tid_repr` is "0x" and an even number (at least two) of hex digits that read back as the value |
| TracerProperties.HexReprInjective | branches/tim-simpler_connection/src/ZODB/tests/testfsoids.py:46-50 | different oids print differently |
| TracerProperties.HeaderPrefix | branches/tim-simpler_connection/src/ZODB/tests/testfsoids.py:46 | a header starts with "oid ", the oid's hex form and a space |
| TracerProperties.HexReprNoSpace | branches/tim-simpler_connection/src/ZODB/tests/testfsoids.py:46 | the hex form of an oid has no space in it |
| TracerProperties.HeaderHexEnd | branches/tim-simpler_connection/src/ZODB/tests/testfsoids.py:46 | in a header the hex form ends at the first space after "oid " |
| TracerProperties.HeaderNamesOid | branches/tim-simpler_connection/src/ZODB/tests/testfsoids.py:46-50 | two equal headers name the same oid, whatever their histories |
| Numerals.NumeralRoundTrip | branches/tim-simpler_connection/src/ZODB/tests/testfsoids.py:66 | reading a printed number back gives the number |
| Numerals.DecimalInjective | branches/tim-simpler_connection/src/ZODB/tests/testfsoids.py:93 | different offsets and counts print differently |
| TracerScenarios.EmptyStorage | branches/tim-simpler_connection/src/ZODB/tests/testfsoids.py:40-51 | oids registered as 0x123456, 1, 0 over an empty storage are reported as the six documented lines, in ascending order |
| TracerScenarios.AfterCreation | branches/tim-simpler_connection/src/ZODB/tests/testfsoids.py:59-68 | after the root's creation the report is the documented seven lines |
| TracerScenarios.AfterAddTree | branches/tim-simpler_connection/src/ZODB/tests/testfsoids.py:85-103 | after the BTree is added the report is the documented sixteen lines |
| TracerScenarios.AfterCircleBack | branches/tim-simpler_connection/src/ZODB/tests/testfsoids.py:125-154 | after the BTree refers back to the root the report is the documented twenty-seven lines |
| TracerScenarios.CircleBackHistories | branches/tim-simpler_connection/src/ZODB/tests/testfsoids.py:156-160 | the root gets a third block without rewriting, the BTree two blocks, and oid 2 none |
| TracerScenarios.RootInCircleBack | branches/tim-simpler_connection/src/ZODB/tests/testfsoids.py:138-141 | the last transaction gives the root a block whose only event is "referenced by 0x01" |
| TracerScenarios.RootInAddTree | branches/tim-simpler_connection/src/ZODB/tests/testfsoids.py:93-97 | the BTree's transaction gives the root a block with a revision at 207 and a reference to 0x01 without class |
| TracerScenarios.TreeInAddTree | branches/tim-simpler_connection/src/ZODB/tests/testfsoids.py:99-103 | the same transaction gives the BTree a block with its revision at 363, referenced by the root at 207 |
| TracerScenarios.LargeHex | branches/tim-simpler_connection/src/ZODB/tests/testfsoids.py:50 | 0x123456 prints as "0x123456" |
| TracerScenarios.SmallHex | branches/tim-simpler_connection/src/ZODB/tests/testfsoids.py:46-48 | oids 0, 1 and 2 print as "0x00", "0x01" and "0x02" |
| RaceSpecs.IncInit | src/ZODB/tests/racetest.py:88-90 | `init` makes obj1 and obj2 zero and keeps every other key |
| RaceSpecs.IncNext | src/ZODB/tests/racetest.py:92-94 | `next` adds one to each of obj1 and obj2 and changes nothing else |
| RaceSpecs.IncCheck | src/ZODB/tests/racetest.py:96-102 | `assertStateOK` passes exactly when obj1 == obj2, else raises with both values |
| RaceSpecs.IncInitOK | src/ZODB/tests/racetest.py:88-102 | the state after `init` passes the check |
| RaceSpecs.IncNextPreserves | src/ZODB/tests/racetest.py:92-102 | a state that passes the check still passes it after `next` |
| RaceSpecs.IncRun | src/ZODB/tests/racetest.py:92-94 | any number of steps keeps the keys, keeps obj1 - obj2 and keeps every other value |
| RaceSpecs.IntText | src/ZODB/tests/racetest.py:102 | `%d` of an integer has a leading minus sign exactly when it is negative |
| RaceSpecs.IntTextInjective | src/ZODB/tests/racetest.py:102 | different integers print differently, so the error message identifies the values |
| RaceSpecs.Message | src/ZODB/tests/racetest.py:102 | the AssertionError text is non-empty for every failed check and empty only for the passing verdict |
| RaceSpecs.IncRunFromInit | src/ZODB/tests/racetest.py:88-94 | after `init` and n steps both objects hold n and the other keys are unchanged |
| RaceSpecs.T2ObjectsInc.Init | src/ZODB/tests/racetest.py:88-90 | the root's values become `IncInit` of the old ones |
| RaceSpecs.T2ObjectsInc.Next | src/ZODB/tests/racetest.py:92-94 | the root's values become `IncNext` of the old ones, through the two in-place increments |
| RaceSpecs.T2ObjectsInc.AssertStateOK | src/ZODB/tests/racetest.py:96-102 | the verdict on the root's values is `IncCheck`'s: no error exactly when obj1 == obj2, otherwise the error carries both values |
| RaceSpecs.Modify | src/ZODB/tests/racetest.py:186-192 | the `modify` worker's `next` and the check right after it, on any loaded state: the verdict is `IncCheck` of the new state, and it raises exactly when the loaded state already broke obj1 == obj2 |
| RaceSpecs.IncNextCheck | src/ZODB/tests/racetest.py:92-102 | `next` neither repairs nor breaks obj1 == obj2; a broken state raises afterwards with both values one higher |
| RaceSpecs.PhaseInit | src/ZODB/tests/racetest.py:115-118 | `init` makes obj1, obj2 and phase zero and keeps every other key |
| RaceSpecs.PhaseNext | src/ZODB/tests/racetest.py:120-127 | phase 0 increments obj1, any other phase obj2; the phase becomes (phase + 1) mod 2, so it is 0 or 1; nothing else changes |
| RaceSpecs.PhaseCheck | src/ZODB/tests/racetest.py:129-136 | `assertStateOK` passes exactly when obj1 - obj2 == phase, else raises with the three values |
| RaceSpecs.PhaseInitOK | src/ZODB/tests/racetest.py:115-136 | the state after `init` keeps the invariant obj1 - obj2 == phase with phase in {0, 1} |
| RaceSpecs.PhaseNextPreserves | src/ZODB/tests/racetest.py:120-136 | `next` keeps that invariant, so the check after it passes |
| RaceSpecs.CheckAloneNotKept | src/ZODB/tests/racetest.py:129-136 | the check's equation alone is not kept by `next`: (3, 0, phase 3) passes and its successor (3, 1, phase 0) does not |
| RaceSpecs.PhaseTwoSteps | src/ZODB/tests/racetest.py:120-127 | from phase 0 or 1, two steps add exactly one to each object and return the phase and all other keys to their values |
| RaceSpecs.PhaseRun | src/ZODB/tests/racetest.py:120-127 | any number of steps keeps the keys and every other value, and keeps the invariant obj1 - obj2 == phase with phase in {0, 1} |
| RaceSpecs.PhaseRunFromInit | src/ZODB/tests/racetest.py:115-127 | after `init` and n steps obj1 = (n + 1) div 2, obj2 = n div 2 and phase = n mod 2 |
| RaceSpecs.T2ObjectsInc2Phase.Init | src/ZODB/tests/racetest.py:115-118 | the root's values become `PhaseInit` of the old ones |
| RaceSpecs.T2ObjectsInc2Phase.Next | src/ZODB/tests/racetest.py:120-127 | the root's values become `PhaseNext` of the old ones, through the in-place increments and `%= 2` |
| RaceSpecs.T2ObjectsInc2Phase.AssertStateOK | src/ZODB/tests/racetest.py:129-136 | the verdict on the root's values is `PhaseCheck`'s: no error exactly when obj1 - obj2 == phase, otherwise the error carries the three values |
| RaceSpecs.InvalidateHalf1 | src/ZODB/tests/racetest.py:430-434 | exactly the keys whose rank among the sorted keys is below len(keys) // 2 are invalidated; no others, and no value changes |
| StringOrder.Sorted | src/ZODB/tests/racetest.py:431 | `sorted(root.keys())`: every key once, in strictly ascending Python string order |
| StringOrder.RankBound | src/ZODB/tests/racetest.py:431-432 | the keys below a key are other keys of the set, so a key's rank is below the number of keys |
| StringOrder.RankOfListing | src/ZODB/tests/racetest.py:431-432 | the key at index i of the sorted keys has exactly i keys below it |
| StringOrder.PrefixByRank | src/ZODB/tests/racetest.py:432 | the slice `keys[:n]` holds exactly the keys of rank below n |
| StringOrder.BelowTotal | src/ZODB/tests/racetest.py:431 | two different strings are ordered one way or the other |
| StringOrder.BelowTransitive | src/ZODB/tests/racetest.py:431 | the string order is transitive |
| RaceGroup.WaitGroup.constructor | src/ZODB/tests/racetest.py:608-610 | the counter starts at zero |
| RaceGroup.WaitGroup.Add | src/ZODB/tests/racetest.py:612-618 | n changes by delta first; AssertionError exactly when the new n is negative, otherwise waiters are notified exactly when n reaches zero |
| RaceGroup.WaitGroup.Done | src/ZODB/tests/racetest.py:620-621 | `done` is `add(-1)` |
| RaceGroup.WaitGroup.Wait | src/ZODB/tests/racetest.py:623-627 | with n == 0 it returns True at once; otherwise it returns whether the condition was signalled |
| RaceGroup.Reported | src/ZODB/tests/racetest.py:545 | the entries kept for the report are non-empty messages taken from `failv` |
| RaceGroup.ReportedComplete | src/ZODB/tests/racetest.py:545 | every non-empty message in `failv` is kept |
| RaceGroup.ReportedInOrder | src/ZODB/tests/racetest.py:545 | the kept messages are the truthy entries of `failv` in their original order: entry a of the report is `failv` at the a-th of a strictly ascending list of indices that covers every truthy entry |
| RaceGroup.Join | src/ZODB/tests/racetest.py:545 | `sep.join(xs)` is as long as all items together plus one separator between each two |
| RaceGroup.FailureText | src/ZODB/tests/racetest.py:545 | the final report is empty exactly when `failv` holds no truthy message |
| RaceGroup.NamesRepr | src/ZODB/tests/racetest.py:542-543 | `repr` of the list of unfinished thread names is bracketed and is "[]" exactly when no thread is listed |
| RaceGroup.DefaultName | src/ZODB/tests/racetest.py:514 | a default thread name is "T" followed by the thread's decimal number |
| RaceGroup.FailureTextAppend | src/ZODB/tests/racetest.py:504-508 | a failure adds its message to the final report after a blank line, or as the whole report when it is the first; an empty message changes nothing |
| RaceGroup.InitialReportEmpty | src/ZODB/tests/racetest.py:500 | the placeholder None that `failv` starts with never shows in the report |
| RaceGroup.DefaultNamesDistinct | src/ZODB/tests/racetest.py:514 | workers with different numbers get different default names |
| RaceGroup.TestGroup.constructor | src/ZODB/tests/racetest.py:496-502 | a new group has not failed, `failv` is [None], no threads and a zero counter |
| RaceGroup.TestGroup.Fail | src/ZODB/tests/racetest.py:504-508 | the message is appended to `failv` and the group is flagged failed; nothing else changes |
| RaceGroup.TestGroup.Go | src/ZODB/tests/racetest.py:510-517 | the worker is counted in without error, gets the number of workers spawned before it and the name given or "T<number>", and is appended to `threadv` |
| RaceGroup.TestGroup.WorkerExit | src/ZODB/tests/racetest.py:519-526 | an unhandled exception is recorded as "Unhandled exception <repr>"; the worker is then counted out without error |
| RaceGroup.Unfinished | src/ZODB/tests/racetest.py:534-542 | `failed_to_finish` is empty exactly when every thread stopped, and lists only spawned thread names |
| RaceGroup.NoneStopped | src/ZODB/tests/racetest.py:534-540 | when no thread stops, `failed_to_finish` is every thread name, in spawn order |
| RaceGroup.TestGroup.JoinThreads | src/ZODB/tests/racetest.py:534-540 | the loop over `threadv` lists the threads that did not stop, in spawn order, and flags the group failed exactly when it lists one |
| RaceGroup.TestGroup.Wait | src/ZODB/tests/racetest.py:528-545 | a timed-out wait and the threads of `threadv` that did not stop are recorded as failures; a failed group reports its kept messages joined by blank lines |
| RaceGroup.SpawnWorkers | src/ZODB/tests/racetest.py:320-322 | spawning `nwork` unnamed workers appends the names T<k> for the next `nwork` numbers and raises the counter by `nwork` |

## Left out

- The source of `fsoids.Tracer` (`src/ZODB/FileStorage/fsoids.py`) is not part of this model. The tracer is modelled from its doctest.
  - The header's count is the number of new revisions, not of blocks. At testfsoids.py line 128, oid 0 has three blocks and "2 revisions".
  - The doctest never shows a block with both "references" and "referenced by" lines. Within a block the model puts new revisions first, then references, then referenced-by lines.
- Opening the FileStorage is left out. So is the ValueError for a missing path or a directory (testfsoids.py lines 166-178): this is file-system I/O.
- The FileStorage byte layout is left out. Transaction and record offsets are given fields.
- Tid-to-timestamp rendering is left out (testfsoids.py line 77). Each tid line ends in `stamp(tid)`, a parameter.
- Pickle decoding is left out. Each record's class and references are given inputs, and a reference's class may be unknown.
- `repr` escaping of user and description strings is left out. They are printed between single quotes as they are.
- Oids and tids are 8-byte values (below 2^64); `HexRepr` and its lemmas hold for every natural number.
- Threads, `Daemon`, exception-hook locking, `threading.Event`/`Lock`/`Condition` and real timeouts are left out: their point is concurrency.
  - RaceGroup.WaitGroup.Wait: the blocking wait is replaced by its outcome, given as `signalled`. The Python 2 branch (line 628-629) is left out.
  - RaceGroup.TestGroup.Wait: whether `join(1)` let each thread stop is given, per spawned thread, as `stopped`. The timeout is a whole number of seconds.
  - RaceGroup.TestGroup.WorkerExit: the worker body is not modelled. An exception it raises is given by its repr, and the re-raise is left out.
- `testcase.fail` is left out. The final report is returned instead.
- The race drivers are left out: `_check_race_*`, `dbopen`, `_state_init`'s commit, `_state_details` with `loadBefore` and cache clearing, and `randint` (racetest.py lines 145-483). Only the `modify` step and the worker-spawning loop are modelled.
- Object invalidation is modelled as the set of invalidated keys. Reloading from the storage is not modelled.
- A missing key raises KeyError in the source. The model requires the keys that `init` creates, as every caller in the source guarantees.
- RaceGroup.NamesRepr: Python's list repr is modelled for names that need no escaping.
- `src/ZEO/tests/Cache.py` is left out: it consists of thin wrappers over a storage API outside this model.
- `src/BTrees/objectkeymacros.h` is left out: it holds C macros over the CPython object API, with no logic of its own.
