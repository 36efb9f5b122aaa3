# The Time Warp kernel, modelled and proved

WarpSim runs discrete-event models optimistically: every rank executes its pending events at once,
rolls logical processes back when an event arrives in their past, cancels what the undone events had
sent with anti-messages, agrees with the other ranks on a global virtual time (GVT) below which
nothing can change any more, and prunes and outputs what is below it. This project models that kernel
and proves what it is for: whatever the number of ranks, the order of delivery and the rollbacks, what
is committed is what a sequential run would have done.

## How the model is laid out

- **Values.** `Kernel.dfy` holds the state of one rank as a value and each kernel operation as a
  function on it, with history variables for what the kernel forgets (committed records, pruned send
  log entries, everything ever sent). `Models.dfy` is the contract of a model: a handler is a
  deterministic function from LP, state and event to a script of `request_write`, writes,
  `emit_committed` and `send`. Snapshots and records follow from running the script.
- **The class.** `Simulation.dfy` is class `Simulation` with its fields updated in place and the
  loops of the source; each method is proved to do to the rank what the kernel function does
  (`SimulationFacts.dfy` has the loop steps). The methods ask for what the source keeps between calls
  (logs that replay, no event twice in a history); `Conformance.dfy` shows that start-up, polling, a turn
  of the queue and fossil collection on all ranks are steps of the transition system, so these
  conditions hold in every run.
- **All ranks.** `Worlds.dfy` is the transition system: any number of ranks, each with an unordered
  bag of messages handed to the transport, and steps for start-up, delivery, acknowledgement, throwing
  a cancelled event away, dispatching, pruning and the collective (one atomic step of all ranks, as
  the reductions block). A step that would end in an exception ends the run.
- **Proofs, from the inside out.** One LP's log and state (`Replay`, `LpInvariant`, `LpSteps`,
  `RankSteps`); where each message is (`Ledger`, `Books`, `BookSteps`); tombstones (`Tombs`); nothing
  below GVT (`Floor`); one dispatch (`Handling`, `Dispatching`, `AntiDispatch`); one step (`Moves`,
  `Pruning`, `Network`, `Gvt`, `Collecting`); whole runs (`Runs`, `History`); and the results about
  them (`Safety`, `Lifecycle`, `Termination`, `Checker`, `OneRank`, `Outputs`, `OutputRuns`,
  `Sequential`, `Closed`, `Invisible`, `Equivalence`, `Serial`, `SequentialOutputs`, `SendOrder`, `Ties`,
  `Counters`, `AntiReturns`).
- **Laws by fields.** `SendLaws`, `HandlerLaws`, `DispatchLaws`, `Advancing` and `Tracking` say what sending,
  running a handler, dispatching, a collective and in-flight tracking do in terms of the fields alone,
  without the functions that compute it.
- **Around the kernel.** The directory's ownership timeline and its saved state, the byte codec and
  the event codec, the determinism digest, the regional flight demo and the market demo's matching.

## Hypotheses

The code relies on these without enforcing them; each theorem names the ones it needs.

- `CausalModel`: handlers send in their own LP's name, without a uid, and never before the event they
  execute; sends outside an event happen only at start-up.
- `DisciplinedModel`: a handler writes an entity only after `request_write`, and the set of entities is
  fixed. `GoodModel` is the two together.
- `StrictModel`: every message carries an explicit sequence and goes strictly into the future.
- `IdentityBlind`: handlers do not look at transport identities.
- Every ended run is some sequential run in stamp order without more ado; to be the one sequential run
  there is, no LP may be sent two events of one stamp, or events of one stamp must be taken up in the
  order in which they were sent.

`Witness.RelayIsDeterministic` exhibits a model that meets all four.

## Where the code does not do what is said of it

The model follows the code.

- **Events of equal stamps.** The modelling contract (section 6) says the kernel orders events by stamp,
  source and uid. That is the order of the queue, not of execution: the straggler test is strict, so an
  event that arrives after another of its stamp was taken up comes behind it. `Ties.TiesFollowArrival`
  gives two ended runs of one system that differ for this reason alone; `Ties.TakenInQueueOrder` says,
  for every event about to be executed, exactly when the order is kept: when the last event taken up at
  its stamp does not come after it. `SendOrder.QueueOrderIsSequential` and
  `SendOrder.SequentialJustIfInSendOrder` say what follows for the outcome, and
  `Serial.EndedRunIsSequential` what holds without the promise.
- **Sequence counters.** `tests/sequence_restored_on_rollback_test.cpp` wants a rollback to restore the
  counters from which sequences are filled in. The record of an anti-message saves them before the
  rollback it may itself cause. `Counters.CountersMayStayAhead` gives an input after which a counter
  stays ahead; `Counters.UndoneAntiRestoresCounters` says exactly when it does not.
- **Control events first.** Section 3.2 of `docs/migration.md` says that control events come before normal ones
  at the same time. The sequences the kernel fills in give that exactly while the control counter is below
  the normal event's sequence, which has the top bit set, so for the first 2^63 control events of an LP
  (`SendLaws.ControlIsSentFirst`).
- **Ticks of a flight.** Rounding up can wrap, and a leg is then too short in time:
  `Flight.TicksCoverJustIf` says exactly when.
- **Undone anti-messages.** `tests/cancellation_map_rollback_test.cpp` expects an event to run whose
  anti-message was rolled back; `tests/anti_tombstone_survives_rollback_test.cpp` expects in nearly the same
  situation that it never does. By the code the undone anti-message goes back to the queue with its
  tombstone removed (`AntiReturns.UndoneAntiReturns`), and whenever it has been taken up its event cannot be
  (`AntiReturns.TakenAntiCancels`); in the end a cancelled event has not been taken up
  (`Lifecycle.CommittedJustIfNotCancelled`), as the second test expects.

## Model

| member | source | states |
|---|---|---|
| Stamps.PrevStampIsPredecessor | src/simulation.hpp:29-40 | `prev_stamp` is the exact predecessor in the 64-bit lexicographic order: a stamp is below `ts` just if it is not above `prev_stamp(ts)` |
| Stamps.OrdIsOrder | src/state_store.hpp:12-19 | the order of stamps is that of their position in the whole 128-bit range |
| Events.TopExists | src/event.hpp:27-45 | a non-empty queue has a head that nothing precedes in (stamp, source, uid) |
| Events.TopMeans | src/event.hpp:27-45 | the head has the least time; at that time the least sequence; at that stamp the least source; of that source the least uid |
| Equivalence.OptimismIsInvisible | src/simulation.hpp:1343-1636 | in every reachable state of any number of ranks, each LP's history below whatever is still on its way is, up to transport identities, that of the sequential run |
| Serial.EndedRunIsSequential | docs/modeling_contract.md:5-9 | every ended run is a sequential run: there is a run of one queue in stamp order that ends with the same events and states, ties or not |
| Serial.HistoriesAreSequential | src/simulation.hpp:1343-1636 | the same of any reachable state, below whatever is still on its way |
| Serial.CommittedRunIsSequential | src/simulation.hpp:1030-1082 | at every moment all LPs together have committed what one sequential run has done by the GVT |
| Serial.ClosedIsFollowed | src/event.hpp:27-45 | histories that have taken up just what their replay asks for can be followed by a one-queue run, stamp by stamp |
| Equivalence.TerminatedIsSequential | docs/modeling_contract.md:5-9 | a sequential run without equal stamps that has ended leaves every LP with the events and the state of any ended run |
| SequentialOutputs.OutputIsSequential | docs/committed_output.md:9-10 | at every moment what the sink was given for an LP is, in order, what the sequential run emits for it below GVT |
| SequentialOutputs.FinalOutputIsSequential | src/simulation.hpp:312-317 | after the last flush it is all the sequential run emits, but for the maximum stamp itself |
| Equivalence.CommittedIsSequential | src/simulation.hpp:1030-1082 | at every moment of a run, what an LP has committed is exactly the sequential run's history below GVT |
| Equivalence.RunsAgree | docs/modeling_contract.md:5-9 | two ended runs of one system agree in events and states, whatever their rank counts, placement and GVT protocols |
| Equivalence.QuietBelowGvt | src/simulation.hpp:1005-1028 | no message is on its way anywhere below the GVT of any rank |
| SendOrder.SequentialJustIfInSendOrder | docs/modeling_contract.md:103-106 | an ended run is the sequential run by order of sending if and only if each LP took up events of one stamp by source, and those of one source as they were sent |
| SendOrder.QueueOrderIsSequential | docs/modeling_contract.md:105 | where every LP took up its events by stamp, source and uid, the run is that sequential run |
| SendOrder.ClosedInOrderIsUnique | src/simulation.hpp:1343-1636 | there is one way of taking up messages in that order |
| Ties.TiesFollowArrival | src/simulation.hpp:1387-1405 | for a model that meets every hypothesis, two ended runs of one system have taken up two events of one stamp in different order and end in different states |
| Ties.TakenInQueueOrder | src/simulation.hpp:1387-1405 | in every reachable state, executing an event keeps a log in the order of stamp, source and uid if and only if the last event taken up at its stamp does not come after it |
| Ties.ExecuteKeepsQueueOrder | docs/modeling_contract.md:105 | taking up an event keeps the log in the order of stamp, source and uid if and only if no logged record of its stamp should come after it |
| Closed.ClosedIsUnique | src/simulation.hpp:1343-1636 | two histories that have taken up just what their replay asks for, one with distinct stamps per LP, agree below the bound |
| Invisible.WorldIsClosed | src/simulation.hpp:1343-1636 | below anything on its way, the surviving histories have taken up exactly the messages their replay asks for |
| Sequential.SequentialIsClosed | src/event.hpp:27-45 | so has a one-queue run in stamp order |
| Witness.RelayIsDeterministic | docs/modeling_contract.md:23-47 | the hypotheses on models are met by a model that writes and sends |
| Runs.StepKeeps | src/simulation.hpp:308-412 | every step that does not throw keeps every invariant of all ranks |
| Runs.ReachableOk | src/simulation.hpp:308-412 | so they hold in every reachable state |
| History.RunIsMonotone | src/simulation.hpp:1169-1222 | over a run no rank's GVT decreases, and committed records, output and events sent are only added to |
| Safety.NothingBelowGvt | src/simulation.hpp:1005-1028 | in both protocols nothing waiting, in transit or logged on any rank is below any rank's GVT, and everything committed is |
| Safety.NothingLaterIsBelow | src/simulation.hpp:1005-1028 | nor is anything at any later moment of the run, and what was committed still is |
| Safety.InTransitIsInFlight | src/simulation.hpp:950-989 | a message in transit is in its sender's in-flight map with its stamp; while its acknowledgement is under way it is no longer in transit |
| Safety.ColorsAgree | src/simulation.hpp:1280-1326 | colours and phases agree on all ranks; in a white phase only white messages are in transit; in a red phase the summed difference is exactly the number of white ones |
| Collecting.WhiteInTransitIsExact | src/simulation.hpp:1299-1306 | white messages in transit equal the summed sent-at-flip minus received counts |
| Collecting.AckBound | src/simulation.hpp:1005-1028 | with acknowledgements a rank's bound is below everything it has waiting or in transit |
| Collecting.ColorBound | src/simulation.hpp:1308-1311 | with colours too, once no white message is in transit |
| Collecting.CollectAck | src/simulation.hpp:1205-1219 | the acknowledgement collective keeps every invariant |
| Collecting.CollectColored | src/simulation.hpp:1280-1326 | so does the coloured one, through all its phases |
| Advancing.AckCollectiveAdvances | src/simulation.hpp:1205-1219 | a collective with acknowledgements: each rank's GVT becomes the least virtual time, pending stamp and in-flight stamp of all ranks (the maximum stamp if there are none) unless that is behind; then exactly the records, sends and tombstones below it are gone, the records committed and their outputs out |
| Advancing.ColoredCollectiveAdvances | src/simulation.hpp:1280-1326 | the same with colours, counting the least red stamp, once a red phase has no white message on a wire; the next round begins; in a white phase all ranks flip; otherwise nothing changes |
| Advancing.LeastIsUnique | src/simulation.hpp:1205-1216 | there is one such least stamp |
| Tracking.InflightIsExact | src/simulation.hpp:950-989 | at every moment a message has an in-flight entry if and only if it is on the rank's wire or its acknowledgement is on its way back |
| Safety.NoPrunedRecordIsNeeded | src/simulation.hpp:1030-1089 | whatever a rank may dispatch, it has pruned only records and sends strictly before it |
| Safety.StateIsReplay | src/simulation.hpp:1530-1608 | an LP's state is always the replay of its whole log from its initial state |
| Safety.RollbackRestoresExactly | src/simulation.hpp:1530-1610 | `rollback_(to)` keeps just the records before `to`, and the snapshots of the others restore the state of that log's replay |
| Replay.RestoreIsReplay | src/simulation.hpp:1562-1608 | the oldest LP-wide snapshot, or the oldest saved bytes of each entity, undo any run of records |
| Replay.ScriptIsUndoable | src/simulation.hpp:1412-1446 | while a handler runs, the snapshots taken on request can undo its writes so far |
| Safety.RollbackCancelsExactly | src/simulation.hpp:1612-1633 | `rollback_(to)` sends one anti-message for each send made at or after `to` and no other, with the event's stamp, identity and recorded destination |
| Safety.SendLogInOrder | src/simulation.hpp:607-616 | the send log stays in order of send time |
| Counters.CountersGoBack | src/simulation.hpp:1562-1573 | undoing the newest record puts the sequence counters back to before its message was taken up |
| Counters.UndoneAntiRestoresCounters | src/simulation.hpp:1362-1373 | undoing an anti-message leaves the counters as its cancellation left them if and only if that cancellation did not take them back |
| Counters.CountersMayStayAhead | src/simulation.hpp:1362-1373 | after an event, its anti-message and an earlier event, an empty log is left with a counter at 2 |
| LpSteps.LogCut | src/simulation.hpp:1612-1633 | cutting log and send log at one time keeps the send log the list of what the log asks for |
| RankSteps.ExecuteKeeps | src/simulation.hpp:1407-1495 | executing an event keeps state, snapshots and send log in step with the log |
| RankSteps.RollbackKeeps | src/simulation.hpp:1530-1636 | so does a rollback |
| Lifecycle.OneMessageOnePlace | src/simulation.hpp:1497-1633 | every event and anti-message ever sent is at all times in exactly one place |
| Lifecycle.IdentitiesAreUnique | src/simulation.hpp:477-490 | each (source, uid) names at most one event and one anti-message ever, with the same stamp and destination |
| Lifecycle.CommittedJustIfNotCancelled | src/simulation.hpp:1497-1633 | at the end an event has been taken up exactly once if its send was never rolled back, else never |
| Ledgers.IssueKeeps | src/simulation.hpp:473-656 | sending an event under a fresh identity keeps each message in one place |
| Ledgers.RevokeKeeps | src/simulation.hpp:1612-1633 | so does taking the newest send back with an anti-message |
| Lifecycle.TombstonesAreLoggedAntis | src/simulation.hpp:1362-1376 | tombstones are exactly the keys of logged anti-messages, with their stamps |
| Lifecycle.ProcessedAreNotTombstoned | src/simulation.hpp:1497-1528 | no processed event is tombstoned |
| Lifecycle.PeekDropsOnlyCancelledEvents | src/simulation.hpp:991-1003 | the GVT peek drops only cancelled events, never an anti-message |
| Lifecycle.DroppedTombstonesAreDone | src/simulation.hpp:1091-1101 | a tombstone is pruned only when its event is neither waiting nor in transit |
| AntiReturns.TakenAntiCancels | src/simulation.hpp:1347-1382 | whenever an anti-message has been taken up its event is tombstoned and cannot be |
| AntiReturns.UndoneAntiReturns | src/simulation.hpp:1545-1559 | a straggler before it undoes it: its tombstone is gone and it waits again |
| Tombs.UndoCancelsExactly | src/simulation.hpp:1547-1559 | undoing records takes away exactly the tombstones of their anti-messages |
| AntiDispatch.AntiOk | src/simulation.hpp:1347-1382 | dispatching an anti-message, with its tombstone and rollback, keeps every invariant |
| Dispatching.ExecuteOk | src/simulation.hpp:1384-1495 | so does executing an event |
| Dispatching.RollbackOk | src/simulation.hpp:1387-1405 | so does rolling back for a straggler |
| OutputRuns.OutputIsCommitted | docs/committed_output.md:9-10 | at any moment and after a last flush, a rank's output is the outputs of its committed records in strictly ascending order, each once, however it was flushed |
| OutputRuns.OutputInOrder | src/simulation.hpp:1103-1134 | in every reachable state a rank's output is each output of its committed records, once, by fields in order: stamps never descend, at one stamp LPs do not, at one LP sources do not, at one source uids do not, at one uid indices ascend |
| Outputs.PruneFlushes | src/simulation.hpp:1103-1140 | a flush appends the new outputs in order and leaves the whole in order |
| Flush.AscendingIsUnique | src/simulation.hpp:1103-1134 | there is one ascending list of a set of items, so the order of the LP map does not matter |
| Flush.AscendingIsFlushOrder | src/simulation.hpp:1103-1134 | a list is sorted for the flush if and only if it is in that order by fields |
| Termination.TerminationIsSound | src/simulation.hpp:368-411 | in both modes, if no rank reports work, nothing is pending or in transit anywhere |
| Tracking.TerminationIsExact | src/simulation.hpp:368-411 | no rank reports work if and only if every message (and acknowledgement) is in and taken up and, with colours, no rank is in a red phase |
| Termination.LastFlushCommitsAll | src/simulation.hpp:312-317 | the last prune commits an LP's whole history but for records at the maximum stamp itself |
| Checker.CheckerAccepts | src/simulation.hpp:674-749 | between steps `validate_invariants_` accepts exactly when no 64-bit counter has run out |
| Checker.CheckerNeverFires | src/simulation.hpp:674-749 | so it does at every call site of every run: in start-up, in every handler, in the rollback for a straggler and in that of a cancellation |
| Checker.CheckerMeans | src/simulation.hpp:674-749 | of any state, reachable or not, the checker accepts if and only if no counter is 0, any two records of a log are in order and none is ahead of its LP, and each stamp is in flight as often as the map has entries with it |
| Checker.LoggingIsUnseen | src/simulation.hpp:605-616 | in the middle of a send it sees what it sees at its end |
| OneRank.SerialNeverRollsBack | src/simulation.hpp:1328-1405 | on one rank nothing is rolled back or cancelled and no dispatched event is a straggler |
| OneRank.SerialOrder | src/simulation.hpp:1328-1405 | the events dispatched on one rank come in non-decreasing order |
| SendLaws.SendMeans | src/simulation.hpp:473-656 | what a send that does not throw does, by fields: identity, sequence, destination and colour of what goes out, where it is put, what is tracked or counted, and what is logged |
| SendLaws.SendThrowsJustIf | src/simulation.hpp:483-581 | it throws if and only if the sender is unknown, a counter it needs has run out, the target's directory is 0, or its destination stays unset |
| SendLaws.TargetedGoesToDirectory | docs/migration.md:83 | an event with a target is posted and logged with its directory as destination, and with the caller's where the directory itself sends it |
| SendLaws.TargetedIsRoutable | src/simulation.hpp:531-581 | with a directory, a targeted send from elsewhere does not throw for want of a destination, whatever destination it carries |
| SendLaws.OthersGoAsAddressed | src/simulation.hpp:531-581 | without a target or a directory the destination is the caller's |
| SendLaws.ControlIsSentFirst | docs/migration.md:207-210 | of a control event and a normal event sent for one time, from any LPs, the control event has the smaller stamp, exactly while its counter is below the other's sequence |
| SendLaws.StampedFromMeans | src/simulation.hpp:529-581 | what a logged send keeps of the message its handler asked for, by fields |
| SendLaws.SentContentMeans | src/simulation.hpp:529-581 | so for the message the sequential reference puts in its queue |
| HandlerLaws.RunWrites | src/simulation.hpp:1412-1446 | after a handler every entity has the bytes last written to it, and an entity not written is as before |
| HandlerLaws.WrittenIsUnique | src/simulation.hpp:1412-1446 | that determines the state |
| HandlerLaws.SendsInOrder | src/simulation.hpp:1412-1446 | the messages sent are the script's sends, each once, in order |
| HandlerLaws.EmitsInOrder | src/simulation.hpp:1439-1446 | the outputs recorded are the script's, each once, in order |
| HandlerLaws.SnapshotAtFirstRequest | src/simulation.hpp:1412-1446 | the first request of an entity, or of the LP, saves it as it is just then |
| DispatchLaws.StragglerMeans | src/simulation.hpp:1387-1405 | a message strictly before the LP's virtual time counts one rollback, leaves the LP at the stamp before it with just its records before it, and waits again with what was undone |
| DispatchLaws.EventMeans | src/simulation.hpp:1407-1495 | any other event is executed at its stamp: the state its handler writes, one record with the counters of before and the outputs in order, one log entry per message in order, no rollback |
| DispatchLaws.EventThrowsJustIf | src/simulation.hpp:1407-1495 | executing throws if and only if an output has another stamp or a send throws where it stands |
| DispatchLaws.AntiMeans | src/simulation.hpp:1347-1382 | an anti-message in time leaves a tombstone with its stamp and a record; it counts one rollback and cuts the log at its stamp if and only if its event is in the log |
| Simulations.Simulation.Send | src/simulation.hpp:473-656 | stamps, paints, delivers or posts a message and logs it; unless it throws, what goes out and where it is put is said by fields |
| Simulations.Simulation.Start | src/simulation.hpp:1658-1672 | an LP's start-up messages are sent in order |
| Simulations.Simulation.PollEvent | src/simulation.hpp:244-286 | a received message is acknowledged or counted, and queued |
| Simulations.Simulation.PollAck | src/simulation.hpp:292-303 | an acknowledgement clears its in-flight entry |
| Simulations.Simulation.PopNext | src/simulation.hpp:1328-1341 | the head of the queue, after dropping cancelled events but no anti-message |
| Simulations.Simulation.PeekNextPendingTs | src/simulation.hpp:991-1003 | the least pending stamp, after dropping tombstoned messages |
| Simulations.Simulation.ComputeGvt | src/simulation.hpp:1005-1028 | the least of virtual times, pending stamps and in-flight stamps |
| Simulations.Simulation.MinVt | src/simulation.hpp:1007-1013 | the least virtual time |
| Simulations.Simulation.CancelEvent | src/simulation.hpp:1497-1528 | leaves the tombstone and rolls back to the processed event, if any |
| Simulations.Simulation.UndoRecords | src/simulation.hpp:1535-1559 | records at or after `to` leave the log newest first, their events pending and tombstones undone |
| Simulations.Simulation.LoadSnapshot | src/simulation.hpp:1573-1590 | the oldest undone record with an LP-wide snapshot is loaded |
| Simulations.Simulation.LoadEntities | src/simulation.hpp:1592-1607 | each entity is loaded once, from the oldest record that saved it |
| Simulations.Simulation.RetractSends | src/simulation.hpp:1612-1633 | sends at or after `to` are cancelled newest first and leave the log |
| Simulations.Simulation.RollbackTo | src/simulation.hpp:1530-1636 | the whole rollback |
| Simulations.Simulation.RunHandler | src/simulation.hpp:1412-1446 | a handler's requests, writes, outputs and sends as they come; output at another stamp throws |
| Simulations.Simulation.DispatchMessage | src/simulation.hpp:1343-1495 | straggler, anti-message or event |
| Simulations.Simulation.Turn | src/simulation.hpp:352-359 | one turn of the main loop on the queue |
| Simulations.Simulation.PruneToGvt | src/simulation.hpp:1030-1140 | pruning LP by LP in any order, tombstones, and the sorted flush |
| Simulations.SortItems | src/simulation.hpp:1103-1134 | sorts a flush by stamp, then LP, then source, then uid, then index, said field by field |
| Simulations.Simulation.FossilCollect | src/simulation.hpp:1169-1222 | prune to the last GVT, reduce, take the result as the GVT unless it is behind, prune |
| Simulations.Simulation.AdvanceGvtColored | src/simulation.hpp:1280-1326 | flip to red, wait for the white messages, take the reduced bound as the GVT unless it is behind and start the next round |
| Simulations.Simulation.FinalizeAtEnd | src/simulation.hpp:312-317 | the last prune |
| Simulations.Simulation.ValidateInvariants | src/simulation.hpp:674-749 | returns whether every clause holds; the pass over the queue finds nothing |
| Conformance.TurnIsSteps | src/simulation.hpp:352-359 | what a turn of the queue guarantees makes it a sequence of steps of the transition system |
| Conformance.StartIsStep | src/simulation.hpp:1658-1672 | start-up of an LP is a step |
| Conformance.PollEventIsStep | src/simulation.hpp:244-286 | taking a message out of the transport and polling it is a delivery step |
| Conformance.PollAckIsStep | src/simulation.hpp:292-303 | so it is for an acknowledgement |
| Conformance.CollectiveIsSteps | src/simulation.hpp:1169-1326 | fossil collection on all ranks, with exact reductions, is a sequence of prune and discard steps and one collective, in both modes |
| Directory.PruningIsInvisible | src/directory_lp.hpp:232-291 | for any interleaving of updates and prunes, a query at or after every GVT pruned to is answered as if nothing had been pruned |
| Directory.EarlierQueriesMayDiffer | src/directory_lp.hpp:232-291 | before such a GVT the answer may differ: an input |
| Directory.PruneChangesAnswerJustIf | src/directory_lp.hpp:232-291 | a prune changes an answer if and only if the query had an entry before the one in force at the GVT, and its owner is not the default |
| Directory.UpdateDecides | src/directory_lp.hpp:120 | after an update of an entity at a time to an owner, that owner answers for every query from then up to the entity's next later entry; every other answer is as before |
| Directory.AnswersByLastUpdate | src/directory_lp.hpp:232-291 | for any interleaving of updates and prunes, a query at or after every GVT pruned to names the new owner of the entity's last update not after it, by time and then arrival, or the default |
| Directory.AskAfterUpdate | src/directory_lp.hpp:97-140 | the same of an update event followed by a question |
| Directory.DirectoryLP.OwnerOf | src/directory_lp.hpp:276-291 | the owner of the last entry not after the time, or the default |
| Directory.DirectoryLP.Prune | src/directory_lp.hpp:232-274 | keeps of each timeline the entry in force at the GVT and all later ones |
| Directory.DirectoryLP.OnEvent | src/directory_lp.hpp:85-163 | prune request, ownership update with install and log, or forwarding to the owner at the event's time; an update makes the new owner the answer from its time on |
| DirectoryState.LoadInvertsSave | src/directory_lp.hpp:165-229 | loading undoes saving for every history whose counts fit 32 bits |
| DirectoryState.SavedLayout | src/directory_lp.hpp:165-193 | where in the saved bytes the number and the count of each entity, and time, sequence and owner of each entry stand |
| DirectoryState.SaveState | src/directory_lp.hpp:165-193 | the saved bytes are those of the history listed in order |
| DirectoryState.LoadState | src/directory_lp.hpp:195-229 | reads with a cursor, throws where the bytes end early, keeps the first of equal entries |
| Wire.WireWriter.WriteLittle | src/wire.hpp:13-26 | writes the low-order bytes of a number, least first |
| Wire.WireReader.ReadLittle | src/wire.hpp:52-72 | reads them back, or throws at the end of the buffer |
| Wire.NumberOfLittle | src/wire.hpp:13-72 | reading undoes writing for every number that fits |
| Wire.LittleByte | src/wire.hpp:13-26 | byte k written is the number shifted down by k bytes, cut to eight bits |
| EventWire.EncodeEvent | src/event_wire.hpp:8-22 | writes the fields in order and the payload behind its length |
| EventWire.DecodeEvent | src/event_wire.hpp:24-39 | reads them field by field |
| EventWire.DecodeInvertsEncode | src/event_wire.hpp:8-39 | decoding undoes encoding, whatever follows, exactly for payloads under 2^32 bytes |
| EventWire.EncodingLayout | src/event_wire.hpp:8-22 | the place and width of every field of an encoded event |
| EventWire.PrefixesAreRejected | src/event_wire.hpp:24-39 | no strict prefix of an encoding decodes |
| Digest.Fnv1a64 | src/determinism.hpp:35-44 | the FNV-1a loop |
| Digest.FnvMeans | src/determinism.hpp:35-44 | by constants: the offset for no bytes; each byte is put over the low bits and the whole multiplied by the prime modulo 2^64 |
| Digest.EventBufferIsWhole | src/determinism.hpp:66-84 | two committed events hash the same bytes if and only if they agree in executing LP, stamp, source, uid, target, kind, anti-message flag and payload |
| Digest.EventBufferLayout | src/determinism.hpp:66-84 | where each of these stands |
| Digest.OutputBufferIsWhole | src/determinism.hpp:86-96 | two committed outputs do if and only if they agree in LP, stamp and payload |
| Digest.CombinedMeans | src/determinism.hpp:102-114 | a digest is the total of the hashes modulo 2^64 and, bit by bit, the parity of how many have the bit |
| Digest.DeterminismAccumulator.OnCommittedEvent | src/determinism.hpp:102-107 | adds an event's hash to sum and xor |
| Digest.DigestIsPartitionIndependent | src/determinism.hpp:13-31 | the reduced digest does not depend on how items are split over ranks or ordered on each |
| Flight.ComputeLandTime | examples/regional_airport_migration_demo.cpp:754-776 | the landing time by stepping over the boundaries |
| Flight.ScheduleNextBoundary | examples/regional_airport_migration_demo.cpp:778-819 | the next crossing, unless arrived or beyond the horizon |
| Flight.CrossingsBeforeLanding | examples/regional_airport_migration_demo.cpp:754-776 | crossings come strictly one after the other and strictly before the landing if and only if no 64-bit addition of time wraps |
| Flight.PlanMeans | examples/regional_airport_migration_demo.cpp:754-776 | crossing i is at the edge of the i-th region on the way, the fewest ticks after the one before in which the distance between the two is flown; so is the landing |
| Flight.BoundaryIsShared | examples/regional_airport_migration_demo.cpp:763-764 | a boundary is the edge the region left and the region entered have in common |
| Flight.TicksCoverJustIf | examples/regional_airport_migration_demo.cpp:765-767 | a leg's ticks times the speed cover its distance if and only if rounding up does not wrap or one tick is enough |
| Flight.FlownWholeJustIf | examples/regional_airport_migration_demo.cpp:797-800 | a flight makes all its crossings if and only if each is within the horizon |
| Flight.FlightRefinesPlan | examples/regional_airport_migration_demo.cpp:754-819 | a flight whose times do not wrap and that lands within the horizon, flown event by event, crosses at the computed times, once for each region on its way |
| Flight.FlownIsWithinHorizon | examples/regional_airport_migration_demo.cpp:797-800 | any flight makes just the computed crossings within the horizon |
| Market.OrderBook.Match | examples/market_demo.cpp:290-361 | the matching loop; with fewer trades than the cap every bid left is priced below every ask left |
| Market.EachTradeIsBest | examples/market_demo.cpp:296-346 | each trade takes, of the book at that moment, a bid no bid is priced above and the lowest id at its price, and dually the ask; the bid is not below the ask; both lose the smaller quantity, no other order changes |
| Market.EndsUncrossedOrAtCap | examples/market_demo.cpp:313-328 | the loop ends at the trade cap or with every bid priced below every ask |
| Market.CrossedJustIf | examples/market_demo.cpp:313-328 | a trade can be made if and only if some bid is priced at or above some ask |
| Market.OrderBook.PlaceOrder | examples/market_demo.cpp:259-287 | a new order under the next id, at the end of its side |
| Market.Traders.OnFill | examples/market_demo.cpp:449-455 | a fill changes one account, in 64 bits |
| Market.EachTraderIsSettled | examples/market_demo.cpp:334-337 | once its fills are in, a trader's cash has changed by what it sold less what it bought, its position the other way round, up to the wrap of 64 bits |
| Market.MatchingConserves | examples/market_demo.cpp:290-361 | matching leaves the cash and the positions of all accounts together as they were, up to the wrap of 64 bits |
| Market.QuantitiesAreTraded | examples/market_demo.cpp:339-349 | bids and asks lose exactly the traded quantity |
| Market.MatchingKeepsIds | examples/market_demo.cpp:259-361 | matching keeps ids unique and below the next one |
| Market.PlacingKeepsIds | examples/market_demo.cpp:259-287 | so does placing an order, until the counter wraps |
| Market.TradesAreCanonical | examples/market_demo.cpp:290-361 | with unique ids the trades depend only on which orders there are |

## Left out

- Install-before-use buffering: it is driven by exception text, and deferred events are not counted in the GVT.
- Directory notifications of GVT from the kernel: they send outside any event in mid-run, which breaks the order of the send log; `directoryFossilCollectKind` is 0 here.
- The wire `Migration` message and the owner map: they apply at a point of real time, outside rollback.
- `schedule`: events queued without a send record have no identity for the ledger; runs start from `on_start`.
- The order of a tie between an event and its own anti-message in the priority queue is left open: either may come first.
- SendLaws.SendThrowsJustIf: without a control predicate the code lets the sequence counter wrap to 0 after 2^64 - 1 sends, here that is an exception; where uids are left to the kernel they have run out by then, so such a send throws anyway.
- The coloured counters, the number of outputs of one event and the statistics counters are unbounded.
- Exceptions end the run of all ranks; what state they leave behind is not modelled.
- The sequence numbers the kernel fills in over a whole run with rollbacks: they depend on the order of arrival, so the strongest theorems use explicit sequences.
- `committedEventSink`, logging, statistics and MPI: outputs of the same loops, or foreign calls.
- Liveness: an idle LP holds the GVT at its virtual time, so only safety and monotonicity are claimed.
- Simulations.Simulation.Send: LP contexts are values in a map field that the methods reassign, so sharing of a context between references is not modelled.
- The transport is an unordered bag; order of delivery between two ranks, which some transports keep, is not assumed.
- Market: signed 64-bit overflow is taken to wrap; the events that carry fills are their contents.
- Flight: what else an install handler does with planes and queues.
- `StateHistory` in `src/state_store.hpp`: the kernel does not use it.
- Hash quality, random numbers, the type-erased entity store, AOI geometry and the other demos.
