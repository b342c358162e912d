# dx12track, modelled and proved in Dafny

dx12track shows which Direct3D 12 objects a process owns and where their memory is. A DLL in the target hooks object
creation and release and sends one message per object over a pipe; the launcher joins these messages with what Windows
reports through ETW. This project models the parts of both programs that keep state, and proves what they promise.

* **The join** (`src/launcher/Model.cpp`). Two independent streams meet in the launcher: Hello, Created and Destroyed
  from the pipe, and object creations, addresses, sizes, group changes and destructions from ETW, about one second
  later and under ids of their own. They are joined by address, although addresses are reused within milliseconds.
  `JoinState.dfy` holds the state as a value and `JoinSteps.dfy` each step as a function. `LauncherModel.dfy` is the
  object itself: a class whose methods update fields in place, with the loops of the source, each proved equal to its
  step function and to keep the class invariant. The fields are grouped into the records of `JoinState.dfy`
  (`ix` for the indexes, `tb` for the time base, `watch` for the child). The remaining `Join*.dfy` files prove the
  invariant event by event and what follows from it for every run.
  An `unordered_set`'s iteration order is a parameter (`pick`): every result holds for any order.
  Two small machines say the same things from one stream alone: `LibraryView.dfy` reads only the ETW reports,
  `ObjectView.dfy` only the pipe. The launcher's records, objects, totals, statistics and report lines are proved to be
  what these machines say, in every run (`ShownState.dfy`, `JoinReports.dfy`, `SidecarReports.dfy`, `SidecarSizes.dfy`).
* **The teardown filter** (`ChildWatch.dfy`, `TeardownFilter.dfy`): which ETW events are taken for process teardown.
* **The hooks and the tracker** (`src/dll`). `VtableHooks.dfy` is a machine of single slot writes, map inserts, calls
  and lookups under the tracker's lock; `ObjectTracker.dfy` is the tracker's class; `TrackerProtocol.dfy` splits
  registration and release into their steps, in every interleaving, and follows the messages into the launcher;
  `EndToEnd.dfy` follows the fields.
* **The pipe** (`PipeFraming.dfy`): frames, written and read in pieces of any size.
* **The elevation handoff** (`Handoff.dfy`, `Environment.dfy`, `EnvironmentLookup.dfy`): the shared mapping, and the
  environment of the target.

## What is assumed of the outside

* Tracker ids are positive and never reused. For the DLL's own tracker this is proved (`TrackerProtocol`).
* Library ids are positive and unique per creation callback (`src/etw/EtwMonitor.h:78-82`).
* A placed object's parent id, if it is or becomes live, names an object of type Heap.
* `EnableEtw` comes before the first pipe event, and the millisecond clock does not run backwards.
* Pipe messages may carry stamps in any order (`src/dll/PipeClient.cpp:41-44`). Only the history and attribution
  theorems ask for destructions in order, and attribution also asks that the owners of the address alternate.
* The child's samples are parameters: a clock reading and what a look at the handle finds.
* The system's code page conversion and upper-casing are parameters.

## Where the code and its documentation differ

* `FORMAT.md` says that `etw_hello` is always the sidecar's first line. If Hello never arrives the code writes the
  buffered lines without it; `LauncherModel.Model.FinishEtw` states that the first line is the hello line exactly if a
  Hello arrived.
* `FORMAT.md` says that either stream may arrive first. The outcome is the same exactly when the address is not
  contested; `JoinOrder.OrderIndependence` gives the condition in both directions.
* `SetChildExitQpc` is public and may be called more than once, although the program calls it once, before its loop ends
  (`src/launcher/Main.cpp:416`). `TeardownFilter.IgnoredForeverExactly` says for which calls what was ignored stays
  ignored, and `ExitSetTwice` shows a run of other calls; with the program's single call nothing comes back.
* The repository's `README.md` promises live object counts (line 68). The launcher's live objects are the tracker's
  exactly for the interleavings that `TrackerProtocol.LauncherShowsExactly` names.

## Model

| member | source | states |
|---|---|---|
| `Timeline.TicksToNsExact` | src/launcher/Model.cpp:31-38 | The 128-bit conversion is min(floor(ticks * 10^9 / freq), 2^64 - 1): the test on the high word is exactly overflow of the quotient |
| `Timeline.TicksToNsMonotone` | src/launcher/Model.cpp:31-38 | Later counter values never convert to earlier times, also across the saturation |
| `Timeline.FloorOfDifference` | src/launcher/Model.cpp:553-564 | Rounding a difference and taking the difference of two roundings differ by at most one |
| `Timeline.EtwStampWithinOneNs` | src/launcher/Model.cpp:177-179 | An ETW stamp put on the launcher's timeline is the launcher's own conversion of the same counter value, or one nanosecond more |
| `Tallies.TallyAdd` | src/launcher/Model.cpp:598-606 | Adding a value's amount to its one cell keeps a table of counters equal to the recount over the collection |
| `Tallies.TallySub` | src/launcher/Model.cpp:591-596 | Removing a value keeps the table equal to the recount, and neither form of guarded subtraction ever takes its underflow branch |
| `JoinRuns.StepKeepsInv` | src/launcher/Model.cpp:164-298 | Every single event - pipe, ETW callback, poll, tick - keeps the whole invariant: indexes, binding, folded ids, pending queue, eagerness, locations, totals, log |
| `JoinRuns.RunKeepsInv` | src/launcher/Model.cpp:164-298 | The invariant holds in every state of every interleaving of the two streams |
| `JoinPipe.CreatedKeepsJoin` | src/launcher/Model.cpp:739-763 | A creation keeps all join indexes consistent and leaves no bindable pair unbound |
| `JoinPipe.DestroyedKeepsJoin` | src/launcher/Model.cpp:765-813 | A destruction leaves every index, orphans exactly the bound record and keeps the join consistent and maximal |
| `JoinBinding.BindKeepsJoin` | src/launcher/Model.cpp:652-675 | Binding over an older record keeps binding a partial bijection, the queue correct and the join maximal |
| `JoinBinding.TryBindKeepsJoin` | src/launcher/Model.cpp:677-714 | An attempt to attribute a record - live, late or waiting - keeps the join's invariant and makes it maximal again at that address |
| `JoinEtw.EtwAddressKeepsJoin` | src/launcher/Model.cpp:835-878 | An address report, whether it folds a re-report or places a new record, keeps the join's invariant |
| `JoinEtw.EtwDestroyedKeepsJoin` | src/launcher/Model.cpp:880-902 | An ETW destruction removes the record with all its ids and keeps the join's invariant |
| `JoinEtw.FoldKeepsJoin` | src/launcher/Model.cpp:842-867 | Folding a re-report into the record that holds its address keeps the alias forest flat and the join consistent |
| `JoinQueue.ExpireQueueScansAll` | src/launcher/Model.cpp:422-433 | The loop that stops at the first key that still waits does what a scan over all records would do, and counts each timeout once |
| `JoinQueue.NoneLeftTimedOut` | src/launcher/Model.cpp:422-433 | After the loop no record has been waiting for the timeout or longer |
| `JoinQueue.TickKeepsJoin` | src/launcher/Model.cpp:414-448 | A tick keeps the join's invariant, the order and completeness of the pending queue included |
| `JoinLocSteps.CreatedKeepsLoc` | src/launcher/Model.cpp:748-752 | A creation keeps every cached location equal to its definition and the byte totals equal to a recount |
| `JoinLocSteps.DestroyedKeepsLoc` | src/launcher/Model.cpp:790-812 | So does a destruction, also of a heap that still has placed resources |
| `JoinLocSteps.BindKeepsLoc` | src/launcher/Model.cpp:664-668 | So does a bind, which may move an object and everything placed in it |
| `JoinLocSteps.ApplyGroupKeepsLoc` | src/launcher/Model.cpp:716-724 | So does a group change of a bound record |
| `JoinLocations.RelocateRepairs` | src/launcher/Model.cpp:614-621 | Recomputing an object and the children that the child index lists repairs every cached location that its move made stale |
| `JoinAccounts.CreatedKeepsAccounts` | src/launcher/Model.cpp:219-226 | Totals by heap type and allocation, live bytes, per-type counts and driver tables stay equal to recounts |
| `JoinAccounts.DestroyedKeepsAccounts` | src/launcher/Model.cpp:269-278 | The same for a destruction |
| `JoinAccounts.EtwAddressKeepsAccounts` | src/launcher/Model.cpp:858-865 | The same when a re-report updates a size and disappears |
| `JoinAccounts.RowsBalance` | src/launcher/Model.h:78-80 | Per heap type, the bytes by location sum to the bytes by allocation kind without the non-memory column |
| `JoinLog.BindKeepsLog` | src/launcher/Model.cpp:652-675 | After a bind the log still gives back every location and binding, and no library id is announced twice |
| `JoinLogSteps.DestroyedKeepsLog` | src/launcher/Model.cpp:799-811 | The same after a destruction with children falling back |
| `JoinLogSteps.EtwAddressKeepsLog` | src/launcher/Model.cpp:872-877 | The same after an address report |
| `JoinLedger.EtwAddressLedger` | src/launcher/Model.cpp:835-878 | Created = distinct records + duplicates, and distinct records = alive + ended, across folds |
| `JoinLedger.TickLedger` | src/launcher/Model.cpp:429-431 | A record that times out had not expired before |
| `JoinTheorems.LocationsAreCurrent` | src/launcher/Model.cpp:576-589 | In every reachable state the location shown for an object is its live heap's, if it is placed there and that is known, else its own |
| `JoinTheorems.BoundPairsAgree` | src/launcher/Model.cpp:652-675 | An object names a record exactly if the record names the object; and then they agree on address, type, location and - for driver types - size, and the record is not orphaned |
| `JoinTheorems.BoundIsBothWays` | src/launcher/Model.cpp:536-547 | There are as many bound records as bound objects |
| `JoinTheorems.JoinIsMaximal` | src/launcher/Model.cpp:754-762 | No object and record that the two address indexes bring together are left unbound if they could bind |
| `JoinTheorems.AttributedAtMostOnce` | src/launcher/Model.cpp:645-714 | Over a whole run each record is attributed at most once, and binds + late matches <= created - duplicates |
| `JoinTheorems.LibraryObjectsAccounted` | src/launcher/Model.cpp:820-902 | Created = alive + ended + duplicates; the counter of expiries is the number of records that ever expired |
| `JoinTheorems.ExpiresOnce` | src/launcher/Model.cpp:422-433 | A record whose wait timed out in one step of a run does not time out in any later step |
| `JoinTheorems.WaitsTenSeconds` | src/launcher/Model.cpp:422-433 | A tick ends the wait of exactly the records that have waited for ten seconds or longer, and changes no other record |
| `JoinTheorems.AliasesAreFlat` | src/launcher/Model.cpp:636-643 | Every known id leads in one hop to a record; the ids of a record are exactly its own and its aliases; a record without address is blank |
| `JoinTheorems.DestroyRemovesClass` | src/launcher/Model.cpp:893-901 | Destroying through any id of a class removes exactly that class of ids |
| `JoinTheorems.LocationRowsMatchTotals` | src/launcher/Model.h:78-80 | In every reachable state each row of bytes by location equals the memory columns of the totals |
| `JoinTheorems.CountsAreExact` | src/launcher/Model.cpp:219-226 | The per-type and per-cell counters are the numbers of live objects of that type and in that cell |
| `JoinTheorems.BytesAreExact` | src/launcher/Model.cpp:591-606 | Every byte cell - by allocation kind and by location - and the live bytes are the sums of the sizes of the live objects that belong there |
| `JoinTheorems.DriverTablesAreExact` | src/launcher/Model.cpp:623-634 | The ETW aggregates are the numbers of records, of records with a size, and the sum of the sizes |
| `JoinTheorems.NothingUnderflows` | src/launcher/Model.cpp:269-278 | Whatever a destruction subtracts from any total is there |
| `JoinTheorems.NoRecordUnderflows` | src/launcher/Model.cpp:623-634 | Whatever is subtracted for a record is there |
| `JoinTheorems.SidecarIsFaithful` | src/launcher/Model.cpp:598-612 | Reading the log gives the current location and binding of every live object, and no location line repeats the previous one |
| `JoinSizes.SizeNeverReverts` | src/launcher/Model.cpp:726-729 | A record's size, once non-zero, never goes back to zero while the record lives |
| `LibraryView.RecordsAreReports` | src/launcher/Model.cpp:820-924 | In every run the records are what a machine says that reads the ETW reports alone: type and stamp of the creation, latest known size, latest group that was let through (local is VRAM, non-local is system memory), address, names of re-reported objects |
| `LibraryView.ObjectWasCreated` | src/launcher/Model.cpp:820-833 | Every record has a creation event in the run, with its type and stamp and the clock of that moment |
| `LibraryView.ClockIsLatestHello` | src/launcher/Model.cpp:177-180 | That clock is the one of the latest Hello |
| `LibraryView.ConvertedOnTimeline` | src/launcher/Model.cpp:553-557 | A stamp that is the rounding of a counter value lies at that value's distance from the start of the clock, rounded, or one nanosecond later; without a clock or a stamp it is 0 |
| `ObjectView.ObjectsAreMessages` | src/launcher/Model.cpp:203-229 | In every run the live objects are the payloads of those that were created and not yet destroyed, field by field |
| `ObjectView.PresentWasCreated` | src/launcher/Model.cpp:203-218 | Each of these payloads came in a Created message of the run |
| `ObjectView.TotalsAreMessages` | src/launcher/Model.cpp:219-226 | Bytes and counts by heap type and allocation, counts by type and live bytes are sums over these payloads |
| `ShownState.BoundShowsReports` | src/launcher/Model.cpp:652-675 | A bound object and its record have the same type by name, the object shows the latest location and, for pipeline states, descriptor heaps and command allocators, the latest size |
| `ShownState.ShownLocation` | src/launcher/Model.cpp:576-589 | A placed object is shown where its live heap is, if that is known; any other object where it is itself |
| `ShownState.GroupChangeIsShown` | src/launcher/Model.cpp:912-924 | A group change that is let through reaches the bound object and what is placed in it at once |
| `ShownState.BytesByLocation` | src/launcher/Model.cpp:591-606 | Bytes by heap type and location are sums over the objects shown there |
| `ShownState.DriverTablesAreReports` | src/launcher/Model.cpp:623-634 | The ETW aggregates are counts and sums over the reports, the driver's types named one by one |
| `ShownState.UnboundKeepsLast` | src/launcher/Model.cpp:887-892 | An object that has no record, or has just lost it, keeps its last location and size |
| `JoinReports.StatisticsAreCounts` | src/launcher/Model.cpp:820-959 | In every run the statistics are counts of the events: objects, re-reports, group changes, dropped events, each residency operation; and the latest value of each counter, rounded to whole bytes |
| `SidecarLines.LocationLineTells` | src/launcher/Model.cpp:598-612 | A location line tells where the object then is and whether its heap decides that |
| `SidecarLines.BindAppends` | src/launcher/Model.cpp:652-675 | A bind writes its own line first and a known driver size last, all with the bind's stamp |
| `SidecarReports.ReportsAreEvents` | src/launcher/Model.cpp:835-944 | In every run the lines that are not about the join are, in order, what the events say: addresses and ends of library objects, paging operations with the bound object, the child's exit, the counters |
| `SidecarReports.DemotedAreSummed` | src/launcher/Model.cpp:479-489 | The demoted total is the sum over the counters of the five demoted kinds, shown if there is one |
| `SidecarReports.KindsAreSummed` | src/launcher/Model.cpp:459-478 | The totals by kind are sums over the counters of that kind |
| `SidecarReports.SummaryTellsCounts` | src/launcher/Model.cpp:509-525 | The statistics line tells the counts of the events |
| `SidecarSizes.SizesAreRead` | src/launcher/Model.cpp:670-674 | Whoever reads the driver_size lines has the size of every object that shows one |
| `JoinHistory.PruneIsWindow` | src/launcher/Model.cpp:436-448 | The prune loop, driven only by the global queue, keeps exactly the deaths at or after the horizon, per address |
| `JoinHistory.BuryKeepsHistory` | src/launcher/Model.cpp:767-774 | A death in order keeps each address's list non-empty, sorted, bounded and covered by the queue |
| `JoinHistory.RunKeepsHistory` | src/launcher/Model.cpp:767-774 | The window invariant holds in every reachable state if destructions arrive in order of their stamps |
| `JoinHistory.TickLeavesWindow` | src/launcher/Model.cpp:436-448 | After a tick whose clock is past the span, an address has exactly its recent deaths |
| `JoinHistory.HistoryIsBounded` | src/launcher/Model.cpp:767-774 | Each list is sorted, non-empty and at most 1024 long |
| `JoinAttribution.RunTenancy` | src/launcher/Model.cpp:740-745 | In every reachable state the remembered deaths at an address are the latest ones of its whole history, with their intervals, and the live owner knows when its predecessor died; only an interval whose predecessor was forgotten starts at 0 |
| `JoinAttribution.RunForgets` | src/launcher/Model.cpp:436-448 | Whatever was forgotten died before the horizon of some tick, or had 1024 successors at its address |
| `JoinAttribution.OwnerIsUnique` | src/launcher/Model.cpp:645-650 | A time lies in exactly one interval between consecutive deaths |
| `JoinAttribution.OwnerNeedsOnlyThePast` | src/launcher/Model.cpp:690-708 | Deaths at or after a time do not change who owned the address then |
| `JoinAttribution.OnlyOwnerMatches` | src/launcher/Model.cpp:693-700 | Away from the slack around each death, and after all forgotten ones, a dead occupant matches exactly if it owned the address when the record was created and the types are compatible |
| `JoinAttribution.AttributionIsRight` | src/launcher/Model.cpp:677-714 | Outside 100 microseconds around each death, and after all deaths that were forgotten, the record goes to the owner of its address at its creation, live or dead, exactly if the types have the same name, and to nobody else |
| `JoinAttribution.AttributionOnTheClock` | src/launcher/Model.cpp:436-448 | So it does whenever the record is not older than the last tick's horizon plus the slack, and than the 1025th last death at its address: nothing is asked of what was forgotten |
| `JoinRivals.AttributionExactly` | src/launcher/Model.cpp:677-714 | For every stamp, inside the slack or not: the record goes to its owner if and only if no other occupant that the search prefers matches as well, and the owner is remembered |
| `JoinRivals.NewcomerExactly` | src/launcher/Model.cpp:754-762 | For every stamp: a waiting record goes to the newcomer rightly if and only if the newcomer owned the address at its creation, or does not match, by type or because the last remembered death is more than the slack later |
| `JoinHindsight.AttributionIsFinal` | src/launcher/Model.cpp:677-714 | Once all deaths before the record's creation were delivered, the verdict is the one that the history of the whole run gives: no later event of the pipe changes it |
| `JoinHindsight.LivingIsNext` | src/launcher/Model.cpp:765-774 | Who lives at an address is the next to die there, with the same id and type, or still lives there at the end |
| `JoinAttribution.NewcomerIsRight` | src/launcher/Model.cpp:754-762 | Under the same condition a waiting record binds to a new object exactly if the types are compatible and no earlier owner died after the record was created |
| `JoinVerdict.AddressGivesVerdict` | src/launcher/Model.cpp:835-877 | The address report of an object of one of the five shared types attributes it to the owner of the address at the moment of its creation event, or leaves it waiting if that owner is of another type or unknown |
| `JoinVerdict.RepeatGivesVerdict` | src/launcher/Model.cpp:842-867 | A second report gives a record that waits another attempt, with the same verdict for its own creation |
| `JoinVerdict.NewcomerGivesVerdict` | src/launcher/Model.cpp:754-762 | A record that waits goes to the new object exactly if their types are the same by name and nobody has died at the address since the creation event |
| `JoinOrder.OrderIndependence` | src/launcher/Model.cpp:739-763 | Created before the ETW address or after it: bindings, locations, sizes, totals and statistics are the same if and only if the address is not contested (a live compatible owner, a dead owner that matches as well, or a stale record of another type that would take the newcomer) |
| `JoinOrder.OrdersAgree` | src/launcher/Model.cpp:835-878 | If the address is not contested both orders reach the same primary state |
| `JoinOrder.OrdersDiffer` | src/launcher/Model.cpp:835-878 | If it is contested some record is bound differently |
| `JoinOrder.StaleHeapIsContested` | src/launcher/Model.cpp:869-875 | A contested address is reachable: a record whose destruction was never reported still holds the address of a new object |
| `JoinOrder.CoreDecides` | src/launcher/Model.cpp:598-621 | The primary state determines cached locations and byte totals |
| `LauncherModel.Model.OnCreated` | src/launcher/Model.cpp:203-229 | Object entered, totals updated and, with --etw, indexed, located and bound; keeps the invariant |
| `LauncherModel.Model.OnDestroyed` | src/launcher/Model.cpp:257-292 | Object removed from everything; keeps the invariant; unknown ids change nothing |
| `LauncherModel.Model.OnHello` | src/launcher/Model.cpp:177-200 | New time base; the first one puts the header before all buffered lines, losing and reordering none |
| `LauncherModel.Model.SideLine` | src/launcher/Model.cpp:566-570 | A line goes to the file, to the buffer before Hello, or nowhere; file and buffer together hold header and log |
| `LauncherModel.Model.MoveTo` | src/launcher/Model.cpp:602-606 | The object's bytes move from its old location cell to the new one |
| `LauncherModel.Model.Recompute` | src/launcher/Model.cpp:598-612 | Cache brought up to date; a line is written exactly on a change, when forced, or on the first known location |
| `LauncherModel.Model.RecomputeKids` | src/launcher/Model.cpp:614-621 | The loop recomputes every listed child that is live, in the set's order |
| `LauncherModel.Model.BindEtw` | src/launcher/Model.cpp:652-675 | The bind step: displacement, both sides set, lines, location, driver size |
| `LauncherModel.Model.FindDead` | src/launcher/Model.cpp:690-708 | The loop finds the first remembered occupant that matches |
| `LauncherModel.Model.TryBindEtw` | src/launcher/Model.cpp:677-714 | Live match first, then the oldest matching dead occupant, else wait once |
| `LauncherModel.Model.ApplyGroupEtw` | src/launcher/Model.cpp:716-724 | Group stored; the bound object and its children follow |
| `LauncherModel.Model.ApplySizeEtw` | src/launcher/Model.cpp:726-737 | Zero and unchanged sizes ignored; tables and bound object updated otherwise |
| `LauncherModel.Model.JoinCreated` | src/launcher/Model.cpp:739-763 | The order of indexing, locating and joining a new object |
| `LauncherModel.Model.AbandonKids` | src/launcher/Model.cpp:790-812 | The loop over a dying heap's children |
| `LauncherModel.Model.JoinDestroyed` | src/launcher/Model.cpp:765-813 | Location bytes, death record, orphaning, child index, children |
| `LauncherModel.Model.OnEtwObjectCreated` | src/launcher/Model.cpp:820-833 | One record per new library id; known ids ignored |
| `LauncherModel.Model.JoinAddress` | src/launcher/Model.cpp:835-878 | Re-reports folded, others placed; then one attempt to bind |
| `LauncherModel.Model.OnEtwObjectAddress` | src/launcher/Model.cpp:835-878 | The same as a public step that keeps the invariant |
| `LauncherModel.Model.EraseAliases` | src/launcher/Model.cpp:894-895 | The loop removes exactly the listed ids |
| `LauncherModel.Model.OnEtwObjectDestroyed` | src/launcher/Model.cpp:880-902 | Record, ids, address entry and binding removed; the object keeps its last location |
| `LauncherModel.Model.OnEtwObjectSize` | src/launcher/Model.cpp:904-910 | Size update of a known record; keeps the invariant |
| `LauncherModel.Model.OnEtwGroupChanges` | src/launcher/Model.cpp:912-924 | A batch has the effect of its changes one after the other, each filtered at its own time |
| `LauncherModel.Model.OnEtwResidency` | src/launcher/Model.cpp:926-944 | Filtered, counted, and for paging operations written with the bound object |
| `LauncherModel.Model.OnEtwCounter` | src/launcher/Model.cpp:946-959 | Unstamped and filtered samples leave the latest values alone; others are stored with their kind, in whole bytes, nothing below zero |
| `LauncherModel.Model.PollChild` | src/launcher/Model.cpp:337-368 | Samples the child; the first look that finds it exiting fixes the cutoff and writes one line |
| `LauncherModel.Model.SetChildExitQpc` | src/launcher/Model.cpp:326-330 | The fallback cutoff on the launcher's timeline; ignored without a time base |
| `LauncherModel.Model.SetChildProcess` | src/launcher/Model.cpp:332-335 | Looks at the child need its handle |
| `LauncherModel.Model.AfterChildExit` | src/launcher/Model.cpp:372-375 | A stamp newer than the last sample triggers a look; the verdict compares with both cutoffs |
| `LauncherModel.Model.DropExpired` | src/launcher/Model.cpp:422-433 | The early-break loop, equal to the recursive description that the queue theorems are about |
| `LauncherModel.Model.DropOldest` | src/launcher/Model.cpp:443-445 | The inner loop drops the leading occupants that died before the horizon |
| `LauncherModel.Model.ForgetOld` | src/launcher/Model.cpp:436-448 | The prune loop |
| `LauncherModel.Model.RefreshJoinStats` | src/launcher/Model.cpp:536-547 | The statistics are the numbers of bound, unbound and waiting records, and of unbound ones by type |
| `LauncherModel.Model.EtwTick` | src/launcher/Model.cpp:414-494 | Exactly the timed-out records expire, none is left; once per second the statistics are recounts and the counters line is written; keeps the invariant |
| `LauncherModel.SumCounters` | src/launcher/Model.cpp:459-462 | The loop over the counters gives, for each kind that was seen, the sum of the latest values |
| `LauncherModel.Model.WriteCounters` | src/launcher/Model.cpp:455-492 | One line with the sums by kind, the demoted total if any kind of it was seen, and the paging counts; none before the first counter |
| `LauncherModel.Model.EnableEtw` | src/launcher/Model.cpp:381-394 | Nothing is reset; if nothing had arrived before, the join starts with its invariant |
| `LauncherModel.Model.DisableEtw` | src/launcher/Model.cpp:396-407 | Sidecar dropped; the totals stay exact without the join |
| `LauncherModel.Model.FinishEtw` | src/launcher/Model.cpp:496-534 | The file ends up with every line ever handed over and last the statistics; its first line is the hello line if and only if a Hello arrived |
| `TeardownFilter.StepWatch` | src/launcher/Model.cpp:342-375 | Only polls, stamped events newer than the last sample and the exit time touch the child's watch |
| `TeardownFilter.LooksWhenNewer` | src/launcher/Model.cpp:342-375 | A stamped event looks at the child exactly if it is newer than the last sample; a look that finds it running moves the sample, the first one that finds it exiting makes the sample the cutoff |
| `TeardownFilter.DroppedChangesNothing` | src/launcher/Model.cpp:912-917 | A dropped event changes only the watch, its counter and possibly the exiting line |
| `TeardownFilter.TeardownNeverApplied` | src/launcher/Model.cpp:342-375 | For a child that runs until T, nothing stamped at or after T is ever applied, however late the exit is noticed |
| `TeardownFilter.SeenRunningIsKept` | src/launcher/Model.cpp:342-375 | Nothing stamped up to a moment at which the child was seen running is dropped by the cutoff |
| `TeardownFilter.OnceDroppedAlwaysDropped` | src/launcher/Model.cpp:372-375 | If no setting of the exit time is a later one that counts, no event is applied after one with an earlier or equal stamp was dropped |
| `TeardownFilter.IgnoredForeverExactly` | src/launcher/Model.cpp:326-375 | Over every run: what is ignored once stays ignored if and only if each setting of the exit time finds none set, or is not later than it, or comes after an equally early cutoff by polling |
| `TeardownFilter.ExitSetOnceNeverLater` | src/launcher/Main.cpp:406-418 | The program sets the exit time once, and so meets that condition |
| `TeardownFilter.ExitSetTwice` | src/launcher/Model.cpp:326-330 | A run of the class's public interface that does not: the exit time is set a second time, later, and a stamp that was dropped is applied |
| `VtableHooks.StepKeepsSound` | src/dll/Tracker.cpp:48-85 | Every step of every interleaving keeps each vtable slot either original or hooked with its original on record |
| `VtableHooks.RunKeepsSound` | src/dll/Tracker.cpp:48-85 | The same over whole runs, for any number of vtables and any protection failures |
| `VtableHooks.NoSelfReference` | src/dll/Tracker.cpp:68-82 | No recorded original is its own hook, whatever the vtables held |
| `VtableHooks.HooksAreTransparent` | src/dll/ObjectHooks.cpp:82-128 | A finished call ran exactly the original of its slot after at most one forwarding; it is skipped exactly if the original was our own hook |
| `VtableHooks.LookupFindsOriginal` | src/dll/ObjectHooks.cpp:32-46 | A hook's lookup never falls between the slot write and the map insert |
| `VtableHooks.NeverPatchedAgain` | src/dll/Tracker.cpp:52-53 | A vtable in the map is never patched again and its record never changes |
| `VtableHooks.RegionInserts` | src/dll/Tracker.cpp:48-85 | The locked region as one step is what the patching method computes |
| `ObjectTracker.PatchSlot` | src/dll/Tracker.cpp:24-34 | Slot exchanged and old content returned, or nothing if the page stays protected |
| `ObjectTracker.PatchVTable` | src/dll/Tracker.cpp:55-82 | The three slots exchanged in order; the record holds what they held, never a hook in its own slot |
| `ObjectTracker.Tracker.PatchVTableIfNew` | src/dll/Tracker.cpp:48-85 | Known vtables untouched; a new one patched slot by slot with its originals on record |
| `ObjectTracker.Tracker.Register` | src/dll/Tracker.cpp:87-107 | A new id, the record and its announcement; null ignored |
| `ObjectTracker.Tracker.LookupId` | src/dll/Tracker.cpp:109-113 | The id of a tracked object, 0 otherwise |
| `ObjectTracker.Tracker.OnReleaseToZero` | src/dll/Tracker.cpp:115-125 | A tracked object leaves and is announced once; others change nothing |
| `ObjectTracker.Tracker.OnSetName` | src/dll/Tracker.cpp:127-141 | Only a change of name is stored and announced |
| `ObjectTracker.Tracker.HookSetPrivateData` | src/dll/ObjectHooks.cpp:116-128 | A successful call with a debug name renames the object; any other call changes nothing |
| `ObjectTracker.Tracker.HookSetName` | src/dll/ObjectHooks.cpp:106-114 | Also when the real SetName sets the name as private data and so enters the other hook first, with or without the NUL, the object is renamed and announced once |
| `ObjectTracker.TrimAtNul` | src/dll/ObjectHooks.cpp:56-62 | The scan stops at the first NUL |
| `ObjectTracker.ExtractDebugName` | src/dll/ObjectHooks.cpp:53-78 | The name by kind of GUID; other GUIDs and empty data give none |
| `ObjectTracker.DebugNameIsText` | src/dll/ObjectHooks.cpp:53-78 | A name is read the same with and without its NUL, whatever follows it; an empty name and other data give none |
| `TrackerProtocol.RunKeepsSane` | src/dll/Tracker.cpp:87-125 | In every interleaving of registrations, releases and sends each id is in one stage of its life |
| `TrackerProtocol.IdsAnnouncedOnce` | src/dll/Tracker.cpp:87-125 | Each id is announced at most once as created and at most once as destroyed |
| `TrackerProtocol.NextCreatedIsFresh` | src/dll/Tracker.cpp:94 | What the launcher assumes of ids holds: positive and never seen before |
| `TrackerProtocol.RunSettles` | src/dll/Tracker.cpp:87-125 | In every interleaving: tracked + leaving + lost = live on the pipe + arriving, where lost are the ids whose map entry was overwritten or whose destruction was announced before their creation |
| `TrackerProtocol.RunKeepsAccounted` | src/dll/Tracker.cpp:87-125 | Under the release discipline nothing is lost: tracked + leaving = live on the pipe + arriving, at every step |
| `TrackerProtocol.ModelFollowsPipe` | src/launcher/Model.cpp:203-293 | The launcher's live ids are what the delivered messages say |
| `TrackerProtocol.LauncherShowsExactly` | src/dll/Tracker.cpp:87-125 | Once everything is sent the launcher's live ids are the tracker's and the lost ones; so they are the tracker's if and only if no step overwrote a map entry or announced a destruction before its creation |
| `TrackerProtocol.PromptRun` | src/dll/Tracker.cpp:104-124 | The pipe has each Created before its Destroyed if and only if no destruction was announced before its creation |
| `TrackerProtocol.LauncherShowsTracked` | src/dll/Tracker.cpp:87-125 | The release discipline suffices: the launcher's live ids are then exactly the tracker's, and each Created came before its Destroyed |
| `EndToEnd.ShownIsRegistered` | src/dll/Tracker.cpp:87-107 | Every object on the launcher's list was registered by the application, with the address, type, allocation, heap type, size and heap that the launcher shows |
| `EndToEnd.TrackedIsShown` | src/dll/Tracker.cpp:87-107 | A tracked object on the launcher's list is shown there as the tracker has it |
| `TrackerProtocol.ReleasedTooEarly` | src/dll/Tracker.cpp:104-106 | A run with an early announcement: an object released inside its creation hook stays on the launcher's list |
| `TrackerProtocol.RegisteredTooEarly` | src/dll/Tracker.cpp:101-104 | A run with an overwritten entry: an address registered again too early loses its old object |
| `PipeFraming.HeaderFields` | src/dll/PipeClient.cpp:38-42 | The 24 header bytes give back magic, length, time and kind |
| `PipeFraming.HeaderBytes` | src/common/EventTypes.h:62-68 | Where each field of the header lies, byte by byte |
| `PipeFraming.FramesRoundTrip` | src/launcher/PipeServer.cpp:129-146 | The frames written are the frames delivered |
| `PipeFraming.CutStream` | src/launcher/PipeServer.cpp:129-146 | A stream cut at any byte delivers exactly the frames that lie before the cut |
| `PipeFraming.PipeClient.Send` | src/dll/PipeClient.cpp:36-56 | Connected afterwards exactly if both writes were complete; then one more whole frame is in the pipe |
| `PipeFraming.ClientStream` | src/dll/PipeClient.cpp:45-55 | A reader gets the frames sent and at most the one whose write failed |
| `PipeFraming.PipeServer.ReadExact` | src/launcher/PipeServer.cpp:15-26 | All the bytes asked for, in order, whatever the chunks; fails only if they are not there or a read fails |
| `PipeFraming.PipeServer.ReadFrame` | src/launcher/PipeServer.cpp:133-144 | One frame off the front of the stream, or none if it is incomplete or its magic is wrong |
| `PipeFraming.PipeServer.ReaderLoop` | src/launcher/PipeServer.cpp:129-146 | Delivers a prefix of the decoded stream; all of it if no read fails and nobody stops it |
| `Environment.SplitEnvBlock` | src/launcher/Elevation.cpp:106-108 | The walk over a block gives its entries |
| `Environment.BlockRoundTrip` | src/launcher/Elevation.cpp:541-547 | A block gives back its entries if and only if none is empty or contains a NUL |
| `Environment.StableSortWorks` | src/launcher/Elevation.cpp:535-539 | Sorted by name, entries of one name in their old order, nothing lost or added |
| `Environment.StableSortUnique` | src/launcher/Elevation.cpp:535-539 | That description determines the result |
| `Environment.BuildEnvironment` | src/launcher/Elevation.cpp:517-549 | The block of the entries without our variables, then the given ones, sorted stably by name |
| `Environment.EnvironmentRoundTrip` | src/launcher/Elevation.cpp:517-549 | Splitting the new block gives exactly those entries back |
| `EnvironmentLookup.WantedExactly` | src/launcher/Elevation.cpp:517-532 | The target's entries are the original ones without the prefix, and name=value for each variable |
| `EnvironmentLookup.VariableIsFound` | src/launcher/Elevation.cpp:532 | In the finished block every variable is found under its name with its value; one of ours that is given once is all that a lookup meets |
| `EnvironmentLookup.OnlyGivenHavePrefix` | src/launcher/Elevation.cpp:526-531 | No entry starts with DX12TRACK_, in any case, unless it was given |
| `EnvironmentLookup.OthersAreKept` | src/launcher/Elevation.cpp:517-532 | Under every other name a lookup meets what it met before, in the same order |
| `EnvironmentLookup.BlockIsTerminated` | src/launcher/Elevation.cpp:541-548 | The block ends with two NULs, also without entries |
| `EnvironmentLookup.NamesAscend` | src/launcher/Elevation.cpp:534-539 | The entries are in ascending order of their upper-cased names |
| `Handoff.CaptureEnvironment` | src/launcher/Elevation.cpp:232-240 | The copy of the system's block, with its double terminator |
| `Handoff.Put` | src/launcher/Elevation.cpp:281-283 | Text written at an offset; everything else stays |
| `Handoff.HeaderRoundTrip` | src/launcher/Elevation.cpp:15-25 | The header's 52 bytes give back its thirteen 32-bit fields |
| `Handoff.HeaderLayout` | src/launcher/Elevation.cpp:15-25 | Where each of the thirteen fields lies, byte by byte |
| `Handoff.Launch` | src/launcher/Elevation.cpp:242-283 | Header and areas in order, disjoint and inside the mapping; the header's bytes give back its fields, each area holds its text |
| `Handoff.OpenHandoff` | src/launcher/Elevation.cpp:432-458 | From nothing but the bytes: accepts exactly the mappings whose header is right and whose areas fit, and reads only inside them |
| `Handoff.DescribedIsOpened` | src/launcher/Elevation.cpp:432-458 | What Launch wrote is accepted and read back unchanged |
| `Handoff.Relaunch` | src/launcher/Elevation.cpp:220-283 | From the original's block through the mapping to the target: the original entries without ours, then the variables, sorted stably |
| `Handoff.Mapping.Forward` | src/launcher/Elevation.cpp:551-559 | With a console of its own the text area holds what was forwarded so far, cut at its capacity, and its count; otherwise, and around both, nothing changes |
| `Handoff.Mapping.Collect` | src/launcher/Elevation.cpp:340-353 | The original instance prints what was forwarded, as far as it fits; nothing if its console was shared |

## Left out

- 64-bit widths of sizes, sums and times in the join: natural numbers, so wrap-around of sums is not modelled; the conversions in `Timeline` saturate as the code does.
- Names, call stacks, formats, dimensions, the list of recent activity and process ids in the launcher's state: stored and shown, never used by the join.
- Renamed, Goodbye and the diagnostic messages on the launcher's side, and messages too short for their kind: they change nothing that is modelled.
- JSON and UTF-8 text of the sidecar: lines are values, with the fields named in `JoinState.Line`; `etw_diag` lines, and the fields of `etw_hello` and `etw_stats` that come from the session, are not written. Flushing the file.
- LauncherModel.Model.OnEtwCounter: converts megabytes as a real number, so the rounding of `double` is not modelled.
- LauncherModel.Model.FinishEtw: the line leaves out the session's own statistics and the count of diagnostics, which are stored and shown only.
- Enumeration bytes outside their range on the wire.
- SidecarSizes.SizesAreRead: says nothing of an object that shows no size, because binding to a record of size 0 clears the field without a line (`src/launcher/Model.cpp:670-674`).
- JoinOrder.OrderIndependence: does not compare the log, the waiting queue's stale entries and whether a location line was written, because these record the order itself.
- JoinAttribution.AttributionIsRight: asks that the stamp be outside the slack of every death and after the forgotten ones; `JoinRivals.AttributionExactly` gives the condition for all other stamps.
- JoinAttribution.NewcomerIsRight: asks the same of the stamp; `JoinRivals.NewcomerExactly` gives the condition for all stamps.
- LauncherModel.Model.FindDead: is the inner loop of `TryBindEtw` as a method of its own, because the proof is then about the list alone.
- VtableHooks.HooksAreTransparent: covers vtables whose slots hold foreign functions or the slot's own hook, because nothing writes a hook into another slot.
- TrackerProtocol.LauncherShowsTracked: asks for the release discipline named in `Orderly`, which suffices but is not necessary; the exact condition is in `LauncherShowsExactly`.
- Handoff.Launch: asks that the layout fits in 32 bits, because the code computes it in 32 bits.
- Handoff.Mapping.Collect: gives the text that is handed to `fwprintf`, which itself stops at a NUL.
- Environment.BuildEnvironment: sorts with an insertion sort that meets the specification of `std::stable_sort`, because the library's own algorithm is not in the repository.
- PipeFraming.PipeClient.Send: asks that the payload's length fits in 32 bits, because the header's length field has that width.
- Mutexes: each locked region is one step, except where a region's parts are the point (`VtableHooks`, `TrackerProtocol`).
- ETW session control, injection, process creation, consoles, privileges and the security descriptor: operating system calls.
- Device and factory hooks (`src/dll/DeviceHooks.cpp`, `src/dll/Hooks.cpp`): wrappers that only feed the tracker.
- The renderer and command-line parsing: formatting.
