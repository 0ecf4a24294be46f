# Verified models of the benchmark suite's hard cores

A Dafny 4.11 model of the algorithms and protocols that the benchmarks run, with proofs over every
input, every run and every order of message delivery. `dafny verify dfyconfig.toml` checks it.

## What is modelled

- **All-pairs shortest paths** (`floyd_warshall`, `blocks`, `graph`, `apsp_*`). Three refinement
  layers: in-place Floyd-Warshall computes shortest walks; one blocked phase on all blocks is one
  sequential phase; block actors that exchange phase results in any order, under a manager, end with
  exactly the sequential matrix. Weights are non-negative reals and infinity, with a zero diagonal.
  Actor names are block ids, a message bag holds what is in flight, and a `PhaseResult` that reaches an
  actor which is not ready stays in the bag.
- **Linearizability checker** (`histories`, `linearizability`, `locality`, `verdicts`). The backtracking search over a
  mutable stack decides linearizability; the decomposition by key is exact. An operation is known by
  its key and sender, and occurs once.
- **Majority-quorum register** (`register_*`). One run of n nodes with an unordered, exactly-once bag of
  messages, in which messages of other runs may also be present. `floor` and `phase` in
  `RegisterProtocol` are an observer's record of what was sent and counted; no handler reads them.
  The reports of a testing run are shown to be inputs that the checker decides, and `register_atomicity`
  says exactly when the checker accepts them in every run and when tags determine values. The runs that
  spoil them are built for every number of nodes, by letting chosen messages arrive until none is left
  (`register_reach`): `register_clock` (two nodes, equal times), `register_overtaking`, `register_lateness`
  and `register_staleness` (three or more nodes, advancing clock), `register_spoiling` (values).
- **Streaming windows** (`medians`, `windows_*`). One partition over any number of iterations: source,
  windower, sink and master, with first-in-first-out channels and a mailbox at the source.
- **Chameneos** (`chameneos*`). The mall and its chameneos, actor variant; unordered exactly-once delivery.
- **Wire formats** (`bytes`, `register_codec`, `partitioning_codec`).

Every actor is a class whose handlers are proved equal to a function of the old state; the protocols are
built from those functions. A predicate written `P(...) == true` is meant as a whole and left folded,
which keeps the proof obligations small. Random draws, the clock and the workload sizes are parameters.

What the code does not do is stated as well, with the exact condition. A single block never finishes
(`FinishesIffSplit`), a partition with batch size zero stalls (`StallsIffNoCredit`), a lone chameneo waits
for ever (`FinishesIff`), and a test log of 2^32 entries or more does not survive its wire format
(`TestDoneSurvivesIff`).

The register's own linearizability test asserts that `all_linearizable` holds of the collected logs. That
is so in every run if and only if no key is read by one node and written by another (`AlwaysLinearizableIff`);
if no two deliveries happen at the same time, if and only if that is so or there are at most two nodes
(`AdvancingLinearizableIff`). The test draws four to eight nodes and both reads and writes, so some orders of
delivery make its assertion fail. The reason is in the reply handler: a reply that arrives after the query
majority replaces the value that a read will answer (`FirstLateReplyDecides`), and the read then answers an
older value than it wrote back. A read that skips its write-back sets the value of its own replica without a
tag (`ReadSkipsIff`), so one tag can stand for two values (`TagsDetermineValuesIff`).

## Model

| member | source | states |
|---|---|---|
| FloydWarshall.ShortestDistances | shared_rust/src/helpers/graphs.rs:190-201 | after all phases a finite entry is no longer than the real sum of the lengths of any walk between its vertices and equals one such sum; an entry is infinite exactly when there is no walk of finite edges |
| FloydWarshall.WalkWeightIsSum | shared_rust/src/helpers/graphs.rs:194 | adding weights along a walk gives the real sum of its lengths, or infinity if an edge is missing |
| FloydWarshall.ShortestDistancesUnique | shared_rust/src/helpers/graphs.rs:190-201 | only one matrix holds those distances, so any correct algorithm gives the same result |
| Graphs.Graph.ComputeFloydWarshall | shared_rust/src/helpers/graphs.rs:190-201 | the in-place triple loop performs the phases of `After`, although row and column k are rewritten while they are read, and leaves the shortest distances |
| Graphs.Graph.Set | shared_rust/src/helpers/graphs.rs:223-227 | replaces one entry and returns the previous one |
| Graphs.Graph.GetBlock | shared_rust/src/helpers/graphs.rs:121-143 | for a block size that need not divide the matrix, the copied window is the block at the position of its id |
| Graphs.Graph.BreakIntoBlocks | shared_rust/src/helpers/graphs.rs:144-159 | the grid of all blocks |
| Graphs.Graph.AssembleFromBlocks | shared_rust/src/helpers/graphs.rs:160-181 | every entry comes from its block, at its offset |
| Graphs.OwnedBlock.ComputeFloydWarshallInner | shared_rust/src/helpers/graphs.rs:308-328 | the in-place block phase equals one simultaneous relaxation over its own data and the snapshots of others |
| Graphs.OwnedBlock.NewValue | shared_rust/src/helpers/graphs.rs:313-320 | reads the way through vertex k from the own data or a neighbour's snapshot |
| Blocks.ThroughUnchanged | shared_rust/src/helpers/graphs.rs:278-328 | what the block phase reads through vertex k does not change while it writes |
| Blocks.OnePhase | shared_rust/src/helpers/graphs.rs:278-328 | a block relaxed against pre-phase snapshots is the block of the relaxed matrix |
| Blocks.LookupsAreNeighbours | shared_rust/src/helpers/graphs.rs:278-296 | every lookup of a phase is for a block in the same block row or column |
| Blocks.BlockIdOfPosition | shared_rust/src/helpers/graphs.rs:121-159 | when the block size divides the matrix, the window copied for an id is the block of the splitting at its position |
| Blocks.AssembleInvertsBreak | shared_rust/src/helpers/graphs.rs:144-181 | assembling the blocks of a matrix gives the matrix back |
| Blocks.BlockPositions | shared_rust/src/helpers/graphs.rs:268-272 | ids and positions of blocks are inverse to each other |
| ApspManager.NeighbourContents | kompact/src/bench/all_pairs_shortest_path.rs:197-217 | the neighbours handed out are, once each, exactly the other blocks of the same row or column |
| ApspManager.ManagerActor.ComputeFW | kompact/src/bench/all_pairs_shortest_path.rs:174-247 | distributing a graph starts one actor per block and introduces each to its neighbours |
| ApspManager.ManagerActor.ReceiveLocal | kompact/src/bench/all_pairs_shortest_path.rs:248-292 | placing a finished block, assembling after the last one, and counting the latch down |
| ApspActors.BlockActor.NotifyNeighbours | kompact/src/bench/all_pairs_shortest_path.rs:338-347 | one copy of the current phase result for every neighbour |
| ApspActors.BlockActor.PerformComputation | kompact/src/bench/all_pairs_shortest_path.rs:349-366 | the block after one phase on the gathered data, which is emptied; a missing lookup is a panic |
| ApspActors.BlockActor.GatherAndAdvance | kompact/src/bench/all_pairs_shortest_path.rs:400-418 | the loop over full buffers is the recursive `GatherLoop` |
| ApspActors.BlockActor.ReceiveLocal | kompact/src/bench/all_pairs_shortest_path.rs:374-427 | the handler, panics included |
| ApspSafety.DeliverKeepsInv | kompact/src/bench/all_pairs_shortest_path.rs:374-427 | every delivery is handled without panic and keeps slices, skew, buffers and counters consistent |
| ApspPlan.PlanPhases | shared_rust/src/helpers/graphs.rs:308-328 | the blocks of the sequential matrix after p+1 phases are the block phase applied to those after p |
| ApspTheorems.NoPanic | kompact/src/bench/all_pairs_shortest_path.rs:390-424 | in no run does any handler reach an `unimplemented!`, a failed lookup or an underflow |
| ApspTheorems.SliceInvariant | kompact/src/bench/all_pairs_shortest_path.rs:349-366 | an actor in phase k holds exactly its slice of the sequential matrix after phase k |
| ApspTheorems.BoundedSkew | kompact/src/bench/all_pairs_shortest_path.rs:390-424 | neighbours are never more than one phase apart |
| ApspTheorems.ResultIsSequential | kompact/src/bench/all_pairs_shortest_path.rs:248-284 | for every delivery order the assembled matrix is the sequential one, and holds the shortest distances in real lengths |
| ApspTheorems.NoDeadlock | kompact/src/bench/all_pairs_shortest_path.rs:400-418 | while blocks are missing some message can be delivered with effect |
| ApspTheorems.RunsNeverHalt | kompact/src/bench/all_pairs_shortest_path.rs:400-418 | in every run with more than one block, as long as there is no result some message can be delivered with effect |
| ApspTheorems.DeliveryTakesOneUnit | kompact/src/bench/all_pairs_shortest_path.rs:374-427 | every effective delivery reduces the remaining work by exactly one |
| ApspTheorems.RunsTerminate | kompact/src/bench/all_pairs_shortest_path.rs:174-292 | no run has more effective deliveries than a fixed number, and a run that can go no further has exactly that many and the right result |
| ApspTheorems.LoneBlockNeverFinishes | kompact/src/bench/all_pairs_shortest_path.rs:400-418 | with one block there is never a result |
| ApspTheorems.FinishesIffSplit | kompact/src/bench/all_pairs_shortest_path.rs:174-292 | a run that can go no further has the result if and only if there is more than one block |
| Histories.LegalReadsLatestWrite | shared_rust/src/lib.rs:617-650 | an order is legal if and only if every read returns the latest write on its key before it, or the initial value |
| Linearizability.MinimalOpsAreMinimal | shared_rust/src/lib.rs:651-663 | the leading invocations of a history are exactly the operations that no other precedes |
| Linearizability.CodeMatchesOperation | shared_rust/src/lib.rs:664-685 | in a single-key history the response found and the entries removed are those of the operation |
| Linearizability.Behead | shared_rust/src/lib.rs:617-685 | the first operation of a linearization is minimal, and the rest linearizes the remaining history |
| Linearizability.Prepend | shared_rust/src/lib.rs:617-685 | a minimal operation in front of a linearization of the rest gives a linearization |
| Linearizability.CheckerDecides | shared_rust/src/lib.rs:617-685 | the search accepts if and only if some order respects real time and the register's semantics |
| Linearizability.GetMinimalOps | shared_rust/src/lib.rs:651-663 | the loop returns the leading invocations, in order |
| Linearizability.IsLinearizable | shared_rust/src/lib.rs:617-650 | the search over the mutable stack answers correctly, restores the stack on failure and leaves the values of a linearization on success |
| Linearizability.LinearizesFirst | shared_rust/src/lib.rs:623-645 | trying one minimal operation succeeds if and only if some linearization starts with it |
| Locality.SomeHeadIsMinimal | shared_rust/src/lib.rs:606-615 | among the first operations of the keys' linearizations one precedes everything else: merging never creates a cycle |
| Locality.Merge | shared_rust/src/lib.rs:606-615 | linearizations of all keys merge into one of the whole trace |
| Locality.LinearizabilityIsLocal | shared_rust/src/lib.rs:606-615 | a trace is linearizable if and only if each of its keys is |
| Locality.SortIsStable | shared_rust/src/lib.rs:608 | sorting by time keeps entries of equal time in order |
| Locality.SortFiltered | shared_rust/src/lib.rs:607-608 | grouping by key and then sorting is sorting and then grouping |
| Locality.AllKeysDecide | shared_rust/src/lib.rs:606-615 | the verdicts of the keys together are the verdict on the whole sorted trace |
| Locality.AllLinearizable | shared_rust/src/lib.rs:606-615 | the loop over the keys returns that verdict, whatever order the keys come in |
| RegisterNode.AtomicRegisterActor.NewIteration | kompact/src/bench/atomicregister.rs:415-426 | fresh registers for every key, counters and log unchanged |
| RegisterNode.AtomicRegisterActor.InvokeRead | kompact/src/bench/atomicregister.rs:428-449 | a read's new register, empty read list, log entry and broadcast |
| RegisterNode.AtomicRegisterActor.InvokeWrite | kompact/src/bench/atomicregister.rs:451-473 | the same for a write |
| RegisterNode.AtomicRegisterActor.InvokeAll | kompact/src/bench/atomicregister.rs:475-497 | the loops over the keys, in either order, invoke each planned operation once |
| RegisterNode.AtomicRegisterActor.OnValue | kompact/src/bench/atomicregister.rs:602-651 | the reply handler, with the quorum test, the skipped write-back and the choice of the largest triple |
| RegisterNode.MaxEntry | kompact/src/bench/atomicregister.rs:623-625 | the chosen reply is in the list, and no other is larger by timestamp, then writer, then value |
| RegisterNode.AtomicRegisterActor.ReceiveNetwork | kompact/src/bench/atomicregister.rs:566-688 | the whole handler equals `Receive`, panics included |
| RegisterEvents.SomethingHappens | kompact/src/bench/atomicregister.rs:584-688 | every message of the run is handled, by one of seven kinds of event that fix the new registers, messages and counters |
| RegisterEvents.ReplyIsOneMore | kompact/src/bench/atomicregister.rs:602-651 | a reply beyond the query majority is one of a minority and cannot complete a second quorum |
| RegisterInvariant.EventsKeepInv | kompact/src/bench/atomicregister.rs:584-688 | every such event keeps phases, read lists, acknowledgements, counters and messages consistent |
| RegisterRuns.InvokeKeepsInv | kompact/src/bench/atomicregister.rs:475-497 | so does invoking all operations of a node |
| RegisterRuns.InertKeepsInv | kompact/src/bench/atomicregister.rs:584-688 | so does any message of another run |
| RegisterTheorems.NoPanic | kompact/src/bench/atomicregister.rs:499-529 | no handler panics in any run: keys are known, and no counter of open operations underflows |
| RegisterResults.OneResponse | kompact/src/bench/atomicregister.rs:499-529 | an operation broadcasts at most one write and is answered at most once, and each answer takes exactly one off the counters |
| RegisterResults.ReportsOnce | kompact/src/bench/atomicregister.rs:508-547 | a node reports once, and exactly when it has operations and all of them have been answered |
| RegisterResults.DrainedMeansDone | kompact/src/bench/atomicregister.rs:584-688 | once the run's messages are delivered every operation has been answered and every node with operations has reported |
| RegisterTermination.DeliveryTakesWork | kompact/src/bench/atomicregister.rs:566-688 | every delivery of a message of the run reduces the remaining work; one of another run leaves it |
| RegisterTermination.RunsTerminate | kompact/src/bench/atomicregister.rs:475-688 | a run delivers at most one Run per node and four messages per operation and replica, and when none is left everything has been answered and reported |
| RegisterResults.ReplicaHoldsMaximum | kompact/src/bench/atomicregister.rs:652-667 | a replica's tag is the maximum of the tags delivered to it, in every state |
| RegisterResults.ReplicasAgree | kompact/src/bench/atomicregister.rs:652-667 | with no write of a key in flight all replicas of the key hold the same tag |
| RegisterResults.WritesChooseDistinctTags | kompact/src/bench/atomicregister.rs:623-650 | two writes on a key never choose the same tag |
| RegisterResults.TagsAreMintedOnce | kompact/src/bench/atomicregister.rs:584-667 | every non-zero tag in a replica, a message or a read list was chosen by exactly one write, whose rank it carries |
| RegisterResults.LaterWritesCarryLargerTags | kompact/src/bench/atomicregister.rs:616-688 | if an operation collected its majority before another on the key is invoked, every write the other broadcasts carries a tag no smaller, and larger if it writes |
| RegisterReads.OneReplyMore | kompact/src/bench/atomicregister.rs:607-615 | while replies are a minority nothing is sent, and the register records the first reply and whether all timestamps agree |
| RegisterReads.ReadSkipsIff | kompact/src/bench/atomicregister.rs:607-640 | a read answers without writing back if and only if all replies of the majority carry one timestamp, and then with the first reply's value; otherwise it writes back the reply with the largest timestamp, writer and value |
| RegisterReads.WriteTakesNextTimestamp | kompact/src/bench/atomicregister.rs:623-650 | a write that completes its majority broadcasts the timestamp after the largest it has seen, its own rank and its own value |
| RegisterReads.LateReplyDecidesAnswer | kompact/src/bench/atomicregister.rs:607-613 | the first reply after the majority is what a read that writes back answers and logs, be it the node's last operation or not |
| RegisterAtomicity.FirstLateReplyDecides | kompact/src/bench/atomicregister.rs:602-688 | in every run, while a read writes back, the first late reply and no other delivery replaces the value it will answer, and its log holds that value |
| RegisterLogs.TestLogsAreComplete | kompact/src/bench/atomicregister.rs:475-547 | the collected logs of a testing run hold every planned operation, invoked once and later answered once, and nothing else, so the checker decides them; even ranks read the first keys, odd ranks write first, and a write's value is its node's rank |
| RegisterLogs.ReportedLogIsGone | kompact/src/bench/atomicregister.rs:531-547 | in every run a node that has reported keeps nothing of its log, and without testing nothing is logged |
| Verdicts.QuietIsLinearizable | shared_rust/src/lib.rs:617-650 | a history is linearizable if no key is both read and written and reads return what their register held at the start |
| Verdicts.PairIsLinearizable | shared_rust/src/lib.rs:617-650 | one write and one read are linearizable if the read returns the old value and does not follow the write, or the new one and does not precede it |
| Verdicts.StaleReadIsNotLinearizable | shared_rust/src/lib.rs:617-650 | no order explains a read of 0 that begins after a write of its key has completed, if writes write other values |
| RegisterParts.DeliveryParts | kompact/src/bench/atomicregister.rs:428-529 | a delivery adds to the log of an operation its invocation or its answer, with the value given and the time of the delivery, or nothing |
| RegisterSpots.DeliverySpot | kompact/src/bench/atomicregister.rs:584-688 | what every delivery does to every register and read list, field by field |
| RegisterQuiet.AlwaysQuietKey | kompact/src/bench/atomicregister.rs:475-651 | in every run a key that nobody writes holds and answers 0, and one that nobody reads holds the rank of its writer as value |
| RegisterPairRuns.AlwaysPair | kompact/src/bench/atomicregister.rs:602-688 | two nodes, advancing clock: a read answers 0 only if no write had completed before it, or what was written by a write that had begun |
| RegisterReports.KeyResultsDecide | kompact/src/bench/atomicregister.rs:774-777 | the sorted results are linearizable if those on every planned key are |
| RegisterClock.StandingClockSpoilsResults | kompact/src/bench/atomicregister.rs:696-777 | for any number of nodes above one there is a run at a single time whose results are not linearizable, if some key is shared |
| RegisterStaleness.LateReplySpoilsResults | kompact/src/bench/atomicregister.rs:602-651 | for any number of nodes above two there is a run with an advancing clock in which a read that follows a completed write answers 0 |
| RegisterSpoiling.SkippedReadSpoils | kompact/src/bench/atomicregister.rs:616-622 | for any number of nodes above one there is a run in which two replicas hold one tag with two values, if some key is shared |
| RegisterAtomicity.AlwaysLinearizableIff | kompact/src/bench/atomicregister.rs:696-777 | the collected logs of every testing run are linearizable if and only if there is one node, or there are no reads, or no writes |
| RegisterAtomicity.AdvancingLinearizableIff | kompact/src/bench/atomicregister.rs:696-777 | over the runs whose clock advances at every delivery, if and only if there are at most two nodes, or no reads, or no writes |
| RegisterAtomicity.TagsDetermineValuesIff | kompact/src/bench/atomicregister.rs:602-667 | equal tags of a key, in replicas and in messages, come with equal values in every state of every run if and only if there is one node, or there are no reads, or no writes |
| RegisterAtomicity.ReplicasAgreeOnValues | kompact/src/bench/atomicregister.rs:652-667 | under that condition replicas agree on tag and value once no write of the key is in flight |
| Medians.MedianIsMedian | kompact/src/bench/streaming_windows.rs:514-532 | the windower's arithmetic is the median by rank, for odd and even lengths and both branches of the overflow check |
| Medians.AmplifyKeepsMedian | kompact/src/bench/streaming_windows.rs:600-604 | repeating every value equally often does not change the median |
| Medians.SortedByRank | kompact/src/bench/streaming_windows.rs:515 | sorting puts at index k the one element of rank k |
| WindowActors.Windower.Trigger | kompact/src/bench/streaming_windows.rs:502-547 | emits the median of the window and empties it; nothing for an empty window |
| WindowActors.Windower.OnEvent | kompact/src/bench/streaming_windows.rs:591-606 | the event handler with the amplification loop and the count that returns credit |
| WindowActors.Windower.Receive | kompact/src/bench/streaming_windows.rs:570-618 | the whole handler, panics included |
| WindowActors.StreamSource.SendEvent | kompact/src/bench/streaming_windows.rs:704-722 | one event per credit, and a Next to itself while credit is left |
| WindowActors.StreamSource.Receive | kompact/src/bench/streaming_windows.rs:729-770 | the whole handler, panics included |
| WindowActors.StreamSink.Receive | kompact/src/bench/streaming_windows.rs:869-894 | counting windows, and the one count-down |
| WindowSafety.EventKeepsWindows | kompact/src/bench/streaming_windows.rs:591-606 | one more event keeps the windower on the batch specification |
| WindowSafety.StepKeepsInv | kompact/src/bench/streaming_windows.rs:570-770 | no action panics and each keeps control, channels, windows and credit consistent |
| WindowTheorems.NoPanic | kompact/src/bench/streaming_windows.rs:570-770 | in no run does a message find its actor in a state that does not expect it |
| WindowTheorems.CreditIsConserved | kompact/src/bench/streaming_windows.rs:549-606 | credit in flight, at the source, in events and counted by the windower always adds up to one batch |
| WindowPace.CreditReturnsByHalves | kompact/src/bench/streaming_windows.rs:549-560 | of k events taken, the credit of k / (b/2 + 1) portions of b/2 + 1 has been returned for batch size b, one Ready each, and the windower counts the remainder; the only other Ready is the first, of a whole batch |
| WindowTheorems.StallsIffNoCredit | kompact/src/bench/streaming_windows.rs:704-739 | some run stalls before the latch is down if and only if the batch size is zero |
| WindowTheorems.SourceKeepsSending | kompact/src/bench/streaming_windows.rs:704-739 | before the latch is down only boundedly many deliveries pass without a new event |
| WindowTheorems.LatchIsReached | kompact/src/bench/streaming_windows.rs:704-739 | while at most `lag` aggregates wait for the sink, an iteration stays short of its latch for no more than a fixed number of deliveries and never stalls |
| WindowTheorems.AggregatesAreWindows | kompact/src/bench/streaming_windows.rs:502-547 | the j-th aggregate has timestamp j·w and is the median of the values with timestamps in [j·w, (j+1)·w) |
| WindowTheorems.AggregatesAreComplete | kompact/src/bench/streaming_windows.rs:591-606 | of k events taken every window but the current one has been emitted |
| WindowTheorems.LatchCountsWindows | kompact/src/bench/streaming_windows.rs:876-891 | the sink sees the aggregates in order, and the latch goes down once, with the last window asked for |
| WindowTheorems.FlushLeavesNothing | kompact/src/bench/streaming_windows.rs:740-762 | when the source answers a reset nothing is left in its mailbox or in the channels |
| WindowTheorems.IterationStartsClean | kompact/src/bench/streaming_windows.rs:572-583 | a Start finds zero credit and timestamp zero, whatever iterations came before |
| WindowTheorems.NoWindowsNeverFinish | kompact/src/bench/streaming_windows.rs:876-891 | an iteration that asks for no window never finishes |
| Chameneos.ComplementIsTheThird | shared_rust/src/helpers/chameneos.rs:20-41 | the complement is symmetric, keeps equal colours, gives the third of two, and is its own inverse |
| Chameneos.ConsecutiveIdsDiffer | shared_rust/src/helpers/chameneos.rs:10-18 | numbers 3q, 3q+1 and 3q+2 have the colours red, yellow and blue |
| ChameneosTheorems.FirstColours | kompact/src/bench/chameneos.rs:79-84 | every run starts with chameneos in red, yellow and blue by turns, alive and without meetings, each asking with that colour |
| Chameneos.ChameneosMallActor.Receive | kompact/src/bench/chameneos.rs:203-230 | the mall's handler, panics included |
| Chameneos.ChameneoActor.Receive | kompact/src/bench/chameneos.rs:269-291 | a chameneo's handler |
| Chameneos.ChameneoActor.OnStart | kompact/src/bench/chameneos.rs:260-263 | a chameneo asks for its first meeting with its own colour and name |
| ChameneosTheorems.DeliveryKeepsInv | kompact/src/bench/chameneos.rs:203-291 | every delivery finds its receiver alive, keeps all conservation laws and takes one unit of work |
| ChameneosTheorems.NoPanic | kompact/src/bench/chameneos.rs:203-291 | every message of every run can be delivered, to a live receiver |
| ChameneosTheorems.OneTokenEach | kompact/src/bench/chameneos.rs:203-291 | a live chameneo is in exactly one place, a dead one nowhere, and only the dead are Faded |
| ChameneosTheorems.PartnersAgree | kompact/src/bench/chameneos.rs:271-279 | the two parties of a meeting are different and are given the same colour, the complement of theirs |
| ChameneosTheorems.PartnerWaitsForColour | kompact/src/bench/chameneos.rs:280-284 | nothing else happens to the partner until it takes that colour |
| ChameneosTheorems.EveryRunEnds | kompact/src/bench/chameneos.rs:203-291 | no run has more than three deliveries per chameneo and four per meeting |
| ChameneosTheorems.LatchGoesDownLast | kompact/src/bench/chameneos.rs:205-212 | the latch goes down once, at the very end, with all chameneos faded and twice the meetings counted |
| ChameneosTheorems.FinishesIff | kompact/src/bench/chameneos.rs:203-291 | a run that can go no further has finished if and only if there were two chameneos, or one and no meetings |
| Bytes.FieldsInvert | kompact/src/bench/atomicregister.rs:1813-1905 | integers of fixed width, written one after the other, are read back, and what follows is left alone |
| Bytes.BigEndianDigits | kompact/src/bench/atomicregister.rs:1813-1850 | byte i of an integer of width w is its digit of place w - 1 - i in base 256 |
| Bytes.FieldIsAtOffset | kompact/src/bench/atomicregister.rs:1813-1850 | every field stands, big-endian, where the widths before it add up to |
| RegisterCodec.RoundTrip | kompact/src/bench/atomicregister.rs:1813-1909 | every register message is read back from the front of a buffer, leaving the rest |
| RegisterCodec.Layout | kompact/src/bench/atomicregister.rs:1792-1852 | the first byte is 1, 2, 3 or 4 for Read, Write, Value and Ack, of 17, 29, 33 and 17 bytes; run id, key and request id stand at 1, 5 and 13, timestamp, writer and value at 17, 21 and 25, the sender's rank at 29 |
| RegisterCodec.ReaderOutcome | kompact/src/bench/atomicregister.rs:1855-1909 | the reader's error is exactly a first byte other than 1 to 4, and its panic exactly a buffer shorter than the message it announces |
| RegisterCodec.Serialise | kompact/src/bench/atomicregister.rs:1813-1852 | writes the message behind what the buffer holds, in the layout of `Layout` |
| RegisterCodec.Deserialise | kompact/src/bench/atomicregister.rs:1855-1909 | reads one message, with the error for unknown identifiers and the panic for short buffers |
| PartitioningCodec.RoundTrip | kompact/src/partitioning_actor.rs:200-331 | every message whose lengths fit is read back up to empty data, leaving the rest |
| PartitioningCodec.Layout | kompact/src/partitioning_actor.rs:170-254 | the identifiers 1 to 6 and 13, the place of every field, and lengths in front of the data, the nodes and the log |
| PartitioningCodec.EntryLayout | kompact/src/partitioning_actor.rs:178-249 | a log entry is the key, the operation as 8 to 11, the value unless a read is invoked, the time in two's complement and the sender |
| PartitioningCodec.ReaderOutcome | kompact/src/partitioning_actor.rs:264-331 | an unknown first byte is the reader's error, 3, 4, 6 and 13 alone are whole messages, and a buffer too short for the fixed fields is a panic |
| PartitioningCodec.TestDoneSurvivesIff | kompact/src/partitioning_actor.rs:226-317 | a test log is read back if and only if its length fits 32 bits |
| PartitioningCodec.EntryInverts | kompact/src/partitioning_actor.rs:229-314 | one entry is read back, with its signed time and without a value that is not written |
| PartitioningCodec.Serialise | kompact/src/partitioning_actor.rs:200-254 | the writer and its loops, with the panic for a missing value, in the layout of `Layout` |
| PartitioningCodec.Deserialise | kompact/src/partitioning_actor.rs:264-331 | the reader and its loops, with errors and panics |

## Left out

- RegisterResults.LaterWritesCarryLargerTags: speaks of tags; what it implies for values, and when it does not, is in `RegisterAtomicity`.
- RegisterResults.DrainedMeansDone: states what holds when the messages are delivered; `RegisterTermination.RunsTerminate` bounds them, and that each is delivered eventually is fairness of the network.
- RegisterReads.LateReplyDecidesAnswer: treats one late reply at one node; `RegisterAtomicity.FirstLateReplyDecides` says for every run what each further message does.
- Locality.AllLinearizable: asks for traces in which each (key, sender) pair does one operation, invoked before it is answered, as `remove_op` does; `RegisterLogs.TestLogsAreComplete` shows that testing runs give such traces.
- WindowTheorems.LatchIsReached: its bound grows with the number of aggregates that the sink leaves waiting; that the sink is served is fairness of the scheduler.
- ApspTheorems.RunsTerminate: counts deliveries with an effect; a result that waits for an actor which is not ready may be put back any number of times.
- Graphs.OwnedBlock.ComputeFloydWarshallInner: works on the owner's copy of the block; the choice between updating in place and cloning when another reference exists is not visible in the model, where messages hold immutable snapshots.
- Floating point: weights and medians are exact reals; NaN and rounding are not modelled, nor is the random generation of graphs and values.
- RegisterAtomicity.AdvancingLinearizableIff: a clock that may stand still is treated by `AlwaysLinearizableIff`; clocks of different nodes that disagree are not modelled.
- Integer width: counters, ranks, tags and identifiers are unbounded, so overflow of `u32` and `u64` counters does not occur; the wire formats do model widths, the truncating length casts and two's complement.
- Workload sizes: the products of `f32` fractions and the number of keys are parameters, assumed to plan each key at most once per node.
- Chameneos start: the first request of each chameneo counts as in flight from the beginning, which any later start is a delayed delivery of.
- Windowed timestamps: the window size and the amplification are at least one.
- Actor paths: their wire format belongs to the actor library and is a parameter that round-trips.
- Master and client bookkeeping of the partitioning actor: only its wire format and the collection of reports are modelled.
- The Actix and Riker versions, `component_apsp` and `mixed_atomicregister`: the same state machines as the Kompact actors.
- `mixed_chameneos`: broadcasts Exit while meetings may be in flight, so its conservation law differs.
- `atomic_broadcast`: the replicas it configures are not part of this model.
- Ping-pong, throughput and Fibonacci benchmarks, benchmark set-up and run loops, statistics and plotting: they would only add easy members.
