# A model of the Evo execution engine

The engine runs workflow DAGs. A scheduler loop dispatches the nodes of a run
to workers over at-least-once streams, stores every change of a node before it
acts on it, reaps lost attempts, retries failed ones, and resumes after a crash
from what it stored. This project models that engine and proves what it keeps.

- **Graphs, Dags, Reachability, DagCodec**: validation, Kahn's algorithm, the
  execution order, and the canonical JSON form that a run stores.
- **StateMachines, SchedulerStates**: the nine node states, dependency counters,
  transitive cancellation and reconstruction. `StateMachines` says what each
  operation means for the graph; the class computes it in place.
- **Storage, RunStores, LeaseLaws, LedgerKeys, Transports**: the durable store,
  its leases and idempotency ledger, and the streams.
- **Protocol, DiskSafety, OpSafety, Recovery, Runs**: one run as a step system.
  Volatile memory sits beside the durable state, an operation is a sequence of
  store calls and publishes, and a crash may fall between any two of them; the
  next process rebuilds memory from the store. `Runs.Label` lists the steps: an
  operation of the loop, a crash inside one followed by a resume, a lease call
  of a worker, a claim of another run, the announcement of a resume.
- **RunLaws, RunEndings, ViewRuns**: what holds over every such run.
- **CrashWindows, Strandings, StrandedRuns, AfloatRuns, LostTimer,
  ReapedResults**: which crashes strand a node or let a reaped result through,
  exactly, what can still move a stranded node, and what holds of every run that
  none of them hits.
- **Outages, StartUps, CutStarts, PartialRows**: the loop branching on the answers
  of a store that may lose calls, and runs from the first creation call on, in
  which the process may die before all rows are there.
- **GateRuns**: several loops over one quota gate, their calls interleaved, with
  crashes of the process, interrupted creations and resumes.
- **RunLoops, LoopPasses, Bookkeeping**: the loop itself as a class over the
  state machine and the store. `journal` is the history of its calls to the
  store and the streams, `slotCalls` that of its calls to the quota gate; every
  method appends exactly the calls of the protocol operations it performs.
- **Quotas, QuotaLaws, ExecutionPolicies, Retries**: the tenant gate, resource
  policies and the retry policy.
- **Json, JsonParser, JsonRoundTrip**: the JSON grammar and printer as
  functions, the cursor parser and the writer as classes.
- **Views**: the event fold and the status mapping that the run view reads.
- **Schedulers, Concurrency, ConcurrentSchedulers, ConcurrentEnds**: the
  sequential scheduler, and the concurrent one as a step system in which the
  dispatcher and the workers interleave one shared access at a time, with the
  critical sections as methods that perform its steps.

What the proofs found, beyond the promises that hold:

- A crash lets a reaped attempt's late result through in two windows: after the
  first call of the reap, when the lease is closed but the row still reads as in
  flight, and after the first call of the next dispatch of the node, when the
  row reads as in flight again but the new attempt is not recorded
  (`ReapedResults.ReapedSlipsThrough`, `ReapedResults.ReapedAppliedIff`). In
  every run without such a crash it is ignored
  (`ReapedResults.ReapedNeverApplied`).
- A lease that is open after a crash is reaped, so a run recovers from a crash
  between the lease and the publish of a dispatch, and from one right after the
  claim of a result in time. A crash strands a node, so that only a cancellation
  of the run moves it (or, if it is still blocked, a failure of another node above
  it), in these windows and no others
  (`Strandings.StrandedIff`, `StrandedRuns.StrandedAtIff`,
  `StrandedRuns.LostForGood`, `StrandedRuns.OrphanMovedOnly`):
  - in a dispatch after the first call, unless an earlier attempt slips, and
    after the second or third, before the lease is opened;
  - in a failure or retry between the close of the lease and the row, and right
    after the claim of a result that slipped, whose lease is closed already;
  - in a reap after its first call, if the attempt was claimed or never published;
  - after a failure or part of a cancellation is stored while the cancellation of
    the node below is not; a resume does not propagate it again.
- A retry timer that is due at or before the epoch is not restored by a resume;
  any other is (`RunLaws.ResumeIsTransparent`). With no backoff and no
  completion time in the result this stalls the run for good
  (`LostTimer.LostTimerStalls`, `Retries.ZeroBackoff`); apart from such
  crashes it is the only way in which a run with positive capacities stalls
  (`AfloatRuns.NoDeadlockIff`).
- If a process dies after it created some node rows but not all, the next one
  resumes on those. Attempts of nodes without a row are published without being
  recorded, and published again under the same number after a restart. "Recorded
  before it is published, and published once" holds in all continuations exactly
  if no row is missing (`CutStarts.RecordedOnceIff`,
  `CutStarts.CutShortPublishesTwice`, `StartUps.DurableFromFirstCall`).
- Run ids that continue one another with a colon can collide in the idempotency
  ledger (`LedgerKeys.KeysDistinguishIff`, `LedgerKeys.CollisionExample`).
- The comment on the event fold calls every duplicate harmless; a redelivered
  `run_started` turns a finished view back to running, and a redelivered older
  event can change a step (`Views.RedeliveryKeepsRunIff`,
  `Views.RedeliveryKeepsStepIff`).
- The documented backoff formula fails for multipliers below 1
  (`Retries.DelayIsCappedGrowthIff`), and jitter can exceed the cap
  (`Retries.JitterExceedsCap`).
- A run whose id is `email` shares its browser session with the mail resource
  (`ExecutionPolicies.ExecutionPolicy.DefaultBrowserSession`).

Conventions: a `std::string` is a sequence of chars with codes below 256, one
for each byte; `std::map` and `std::set` are Dafny maps and sets, with
iteration in the order of `Ids.Less` where the order matters; integers are
unbounded; times are arbitrary integers handed in by the caller.

## Model

| member | source | states |
|---|---|---|
| Dags.Build | engine/core/src/dag.cpp:44-153 | a DAG comes back exactly if ids are nonempty and unique, edges are well formed and there is no cycle; otherwise the complete error list, structural errors before cycle errors |
| Dags.NodeErrorsExact | engine/core/src/dag.cpp:48-60 | no node error is reported exactly if every id is nonempty and occurs once |
| Dags.EdgeErrorsExact | engine/core/src/dag.cpp:62-86 | no edge error is reported exactly if all endpoints are known and there is no self loop and no repeated edge |
| Dags.ValidateNodes | engine/core/src/dag.cpp:48-60 | the loop over the nodes reports one error per offending node, in input order, and collects the ids it accepts |
| Dags.ValidateEdges | engine/core/src/dag.cpp:62-86 | the loop over the edges reports one error per offending edge, in input order |
| Dags.Adjacency | engine/core/src/dag.cpp:98-120 | the sorted predecessor and successor lists are exactly the edges |
| Dags.Kahn | engine/core/src/dag.cpp:122-141 | the worklist loop orders every node that is not on or below a cycle, predecessors first, always taking the least node that can come next |
| Dags.KahnLeftovers | engine/core/src/dag.cpp:134-145 | what the worklist loop leaves over is exactly what lies on a cycle or downstream of one |
| Dags.CycleErrors | engine/core/src/dag.cpp:143-152 | the reported nodes are, in input order, exactly those on or downstream of a cycle; none is reported exactly if all were ordered |
| Dags.CyclesAreInside | engine/core/src/dag.cpp:143-152 | some node of the graph lies on or below a cycle exactly if there is a cycle |
| Graphs.GreedyIsLexLeast | engine/core/src/dag.cpp:122-141 | the order that takes the least free node each time precedes every other topological order lexicographically |
| Dags.TopoOrderLeast | engine/core/src/dag.cpp:122-141 | the execution order of a built DAG is the lexicographically least topological order |
| Dags.TopoOrderCanonical | engine/core/src/dag.cpp:44-153 | two DAGs with the same nodes and edges, listed in any order, have the same execution order, edge list and neighbour lists |
| Dags.NeighboursAreEdges | engine/core/src/dag.cpp:164-174 | the neighbour lists of any id, known or not, are exactly the edges at it, each once |
| Dags.DagIsAcyclic | engine/core/src/dag.cpp:44-153 | a built DAG has no cycle |
| Reachability.ReachableFrom | engine/core/src/dag.cpp:176-189 | the stack loop returns, sorted, exactly the nodes reachable from the start, and nothing for an unknown start |
| Reachability.ExecutionProblems | engine/core/src/dag.cpp:196-217 | no problem is reported exactly if there is one trigger from which every node can be reached; otherwise the problems name the trigger count or the unreachable nodes |
| SchedulerStates.SchedulerState.constructor | engine/core/src/state_machine.cpp:35-40 | all nodes start blocked, with counters equal to their numbers of predecessors |
| SchedulerStates.SchedulerState.ReadyNodes | engine/core/src/state_machine.cpp:69-78 | exactly the ready nodes, each once |
| SchedulerStates.SchedulerState.StartRun | engine/core/src/state_machine.cpp:80-89 | a queued run becomes running and its roots ready; any other run is left alone |
| SchedulerStates.SchedulerState.DispatchNode | engine/core/src/state_machine.cpp:185-190 | only a ready node is dispatched, and nothing else moves |
| SchedulerStates.SchedulerState.StartNode | engine/core/src/state_machine.cpp:192-197 | only a dispatched node starts, and nothing else moves |
| SchedulerStates.SchedulerState.CompleteNode | engine/core/src/state_machine.cpp:199-236 | a running node succeeds, unlocking exactly the successors with nothing pending, or fails, canceling below it; the changed nodes are returned once each; a repeated completion changes nothing |
| SchedulerStates.SchedulerState.UnlockSuccessors | engine/core/src/state_machine.cpp:212-227 | each successor loses one pending predecessor, and those left with none become ready and are returned |
| SchedulerStates.SchedulerState.FailNode | engine/core/src/state_machine.cpp:238-253 | whatever state the node is in, it fails and what is below it is canceled, unless it has completed before; from a live node the invariant is kept, and from one in flight the result is the model's failure |
| SchedulerStates.SchedulerState.DeadLetterNode | engine/core/src/state_machine.cpp:292-309 | whatever state the node is in, it is dead-lettered and what is below it is canceled, unless it has completed before; from a live node the invariant is kept, and from one in flight the result is the model's dead letter |
| SchedulerStates.SchedulerState.AbandonNode | engine/core/src/state_machine.cpp:255-267 | exactly an in-flight node goes back to ready |
| SchedulerStates.SchedulerState.RetryWaitNode | engine/core/src/state_machine.cpp:269-279 | exactly a running node is parked |
| SchedulerStates.SchedulerState.ReadyFromRetry | engine/core/src/state_machine.cpp:281-290 | exactly a parked node becomes ready |
| SchedulerStates.SchedulerState.MarkCanceledTransitive | engine/core/src/state_machine.cpp:311-330 | the in-place recursion that stops at terminal nodes terminates and returns, once each, what it canceled |
| SchedulerStates.CancelEffectIsCancelFrom | engine/core/src/state_machine.cpp:311-330 | that recursion cancels exactly the nodes reached through nodes that are not terminal |
| SchedulerStates.SchedulerState.CancelRun | engine/core/src/state_machine.cpp:332-347 | every node that is not terminal is canceled and returned once, and the run is canceled |
| SchedulerStates.SchedulerState.AllNodesTerminal | engine/core/src/state_machine.cpp:356-365 | true exactly if every node is terminal |
| SchedulerStates.SchedulerState.FinalizeRun | engine/core/src/state_machine.cpp:378-408 | the verdict, also on a run that never started: failed if any node failed or was dead-lettered, else canceled if any did not succeed, else succeeded; a terminal run keeps its state |
| SchedulerStates.SchedulerState.Reconstruct | engine/core/src/state_machine.cpp:91-183 | from any rows and any object: the last row of each node wins, dispatched reads as running, nodes without a row are blocked, counters and ready nodes are re-derived, the completed set is added to, and the count of open nodes is returned |
| SchedulerStates.SchedulerState.RestoreStates | engine/core/src/state_machine.cpp:96-155 | the restored states and completed set are those of the last rows |
| SchedulerStates.SchedulerState.CountRemaining | engine/core/src/state_machine.cpp:157-165 | each re-derived counter is the number of predecessors that have not succeeded |
| SchedulerStates.SchedulerState.ResumeBlocked | engine/core/src/state_machine.cpp:167-182 | exactly the blocked nodes with nothing pending become ready |
| StateMachines.SucceedPending | engine/core/src/state_machine.cpp:212-227 | a success takes one off the pending count of each successor and leaves every other count |
| StateMachines.SucceedKeeps | engine/core/src/state_machine.cpp:199-236 | a success keeps the invariant: counters count unsucceeded predecessors, and a node moves only when it has none |
| StateMachines.BreakKeeps | engine/core/src/state_machine.cpp:238-309 | so does a failure or a dead letter |
| StateMachines.MoveKeeps | engine/core/src/state_machine.cpp:185-290 | so does every move between ready, dispatched, running and parked |
| StateMachines.CancelAllKeeps | engine/core/src/state_machine.cpp:332-347 | so does canceling the run |
| StateMachines.StartFromSound | engine/core/src/state_machine.cpp:91-183 | so does reconstruction from any rows in which no node moved before its predecessors succeeded |
| StateMachines.BreakKeepsClosed | engine/core/src/state_machine.cpp:311-330 | after a failure all successors of failed, dead-lettered and canceled nodes are canceled, although the recursion stops at terminal nodes |
| StateMachines.BreakCancelsExactlyBelow | engine/core/src/state_machine.cpp:311-330 | after a failure exactly the strict descendants of the node are canceled in addition |
| StateMachines.BrokenSpreads | engine/core/src/state_machine.cpp:311-330 | every strict descendant of a failed, dead-lettered or canceled node is canceled |
| StateMachines.NeverStuck | engine/core/src/state_machine.cpp:356-365 | if some node is not terminal, some node is ready, dispatched, running or parked |
| StateMachines.RunInvariant | engine/core/src/state_machine.cpp:80-330 | the invariants hold after every sequence of transitions of a run nobody cancels |
| StateMachines.FinalStates | engine/core/src/state_machine.cpp:199-330 | a settled run leaves each node succeeded or failed as its outcome says if all strict ancestors succeed, and canceled exactly otherwise |
| StateMachines.ScheduleIndependence | engine/core/src/state_machine.cpp:199-408 | all complete orders of transitions end in the same states and the same verdict |
| RunStores.InMemoryRunStore.CreateRun | engine/core/src/run_store.cpp:30-47 | an existing run is kept, except that a queued one is promoted; an empty id is refused |
| RunStores.InMemoryRunStore.CreateNodeRun | engine/core/src/run_store.cpp:49-61 | a blocked row is added unless there is one; a missing run refuses it |
| RunStores.InMemoryRunStore.SetNodeStatus | engine/core/src/run_store.cpp:63-72 | the row is changed exactly if it exists and is not terminal |
| RunStores.InMemoryRunStore.SetNodeRetryWait | engine/core/src/run_store.cpp:74-85 | an open row is parked with its due time |
| RunStores.InMemoryRunStore.RecordAttempt | engine/core/src/run_store.cpp:87-103 | each attempt is recorded once |
| RunStores.InMemoryRunStore.FinishAttempt | engine/core/src/run_store.cpp:105-134 | a recorded attempt is finished, and its lease closed if it is open |
| RunStores.InMemoryRunStore.CompleteNodeRun | engine/core/src/run_store.cpp:136-155 | only the first completion of a row, and only to a terminal status, takes effect |
| RunStores.InMemoryRunStore.FinishRun | engine/core/src/run_store.cpp:157-168 | the run row takes the status, whatever it was |
| RunStores.InMemoryRunStore.MarkCancelRequested | engine/core/src/run_store.cpp:170-185 | the first cancel request is kept |
| RunStores.InMemoryRunStore.InitAttemptLease | engine/core/src/run_store.cpp:200-218 | a first lease is opened for a recorded attempt; an existing one is kept |
| RunStores.InMemoryRunStore.AcquireAttemptLease | engine/core/src/run_store.cpp:220-255 | a recorded attempt without a lease, or with an open one that has no holder, has expired or is the worker's own, is granted to the worker |
| RunStores.InMemoryRunStore.RenewAttemptLease | engine/core/src/run_store.cpp:257-272 | only the holder of an open lease renews it |
| RunStores.InMemoryRunStore.ScanExpiredAttemptLeases | engine/core/src/run_store.cpp:274-284 | exactly the open leases of the run past their expiry, each once |
| RunStores.InMemoryRunStore.MarkAttemptLeaseExpired | engine/core/src/run_store.cpp:286-305 | an open lease is closed as expired if its holder is still the one seen |
| RunStores.InMemoryRunStore.ClaimIdempotencyKey | engine/core/src/run_store.cpp:326-335 | the first claim of a nonempty key wins |
| RunStores.InMemoryRunStore.AttemptRowCount | engine/core/src/run_store.cpp:361-367 | the number of attempts recorded for the node |
| RunStores.InMemoryRunStore.ListNodeRuns | engine/core/src/run_store.cpp:381-392 | all rows of the run, in node id order |
| RunStores.CallIsWrite | engine/core/src/run_store.cpp:63-335 | seen from one run, each store call and its answer is the call on that run's own rows, leases and ledger |
| RunStores.OtherRunsKept | engine/core/src/run_store.cpp:63-335 | a call of one run leaves another run's rows and leases, and adds at most a ledger key |
| LedgerKeys.KeyInjectiveInRun | engine/core/src/envelope.cpp:55-61 | within a run the ledger key identifies node and attempt, whatever the ids contain |
| LedgerKeys.KeysDistinguishIff | engine/core/src/envelope.cpp:55-61 | the key keeps several runs apart exactly if no run id continues another with a colon |
| LedgerKeys.ColonFreeRunsDistinguish | engine/core/src/envelope.cpp:55-61 | run ids without colons are always kept apart |
| LedgerKeys.CollisionExample | engine/core/src/envelope.cpp:55-61 | two runs and two nodes that share one key |
| LeaseLaws.BelieverHolds | engine/core/src/run_store.cpp:220-272 | a worker that was granted the lease and has not seen it expire is the recorded holder |
| LeaseLaws.OneBeliever | engine/core/src/run_store.cpp:220-272 | at most one worker at a time believes that it holds an attempt |
| LeaseLaws.NoEarlySteal | engine/core/src/run_store.cpp:220-255 | no other worker acquires an attempt before the holder's current expiry |
| LeaseLaws.ClosedForGood | engine/core/src/run_store.cpp:105-305 | a closed lease keeps its verdict and is never granted again |
| LeaseLaws.OnlyFinishOrReapCloses | engine/core/src/run_store.cpp:105-305 | a lease is closed exactly by a completion or a reap that the store accepts |
| LeaseLaws.ClosedOnce | engine/core/src/run_store.cpp:105-305 | of a completion and a reap, at most one closes the lease |
| Transports.InMemoryTransport.EnsureGroup | engine/core/src/transport.cpp:66-75 | a group joins once, at the start of the stream |
| Transports.InMemoryTransport.Publish | engine/core/src/transport.cpp:77-87 | the message is appended with a fresh id |
| Transports.InMemoryTransport.Read | engine/core/src/transport.cpp:89-138 | the next unread message, which is pending from then on |
| Transports.InMemoryTransport.Ack | engine/core/src/transport.cpp:140-153 | the id is taken off the pending list of that group only |
| Transports.InMemoryTransport.ReadPending | engine/core/src/transport.cpp:155-173 | the oldest pending message, exactly if there is one |
| Transports.InMemoryTransport.ReclaimPending | engine/core/src/transport.cpp:192-220 | the group reads on from its earliest pending message, and the number of pending ones is returned |
| Transports.InMemoryTransport.ReadBatch | engine/core/src/transport.cpp:31-49 | the next messages in order, up to the batch size |
| Transports.ReadKeeps | engine/core/src/transport.cpp:89-138 | reading loses nothing: every message before the cursor is pending or was acknowledged |
| Transports.AckKeeps | engine/core/src/transport.cpp:140-153 | nor does acknowledging |
| Transports.PublishKeeps | engine/core/src/transport.cpp:77-87 | nor does publishing |
| Transports.ReclaimKeeps | engine/core/src/transport.cpp:192-220 | nor does reclaiming, which moves the cursor back over acknowledged messages only |
| RunLoops.DistributedRunLoop.StartFresh | engine/core/src/distributed_run_loop.cpp:674-704 | the run row is created, or promoted if it was queued, every missing node row is added as blocked, and rows that are there stay as they are; memory is that of a fresh run, and a cancellation requested before the row existed is stamped now; where there were no node rows and no finished run row, this is the initial world of the protocol |
| RunLoops.DistributedRunLoop.RequestCancel | engine/core/src/distributed_run_loop.cpp:65-104 | the first request before the end counts: it is stamped on the run row if there is one, and one control message tells the workers; any other changes nothing |
| RunLoops.DistributedRunLoop.PublishCancelControl | engine/core/src/distributed_run_loop.cpp:89-104 | the control message goes out at most once for each loop |
| RunLoops.PartlyCreated | engine/core/src/run_store.cpp:33-68 | after any number of creation calls the store holds exactly the durable state that the interrupted creation leaves |
| RunLoops.DistributedRunLoop.ReconstructFromStore | engine/core/src/distributed_run_loop.cpp:504-574 | exactly an open run with at least one node row is resumed; memory is then what the protocol recovers from the rows there are, complete or not, the slots of the rows in flight are taken again in id order, and a stamped cancellation is requested again |
| RunLoops.DistributedRunLoop.RestoreBookkeeping | engine/core/src/distributed_run_loop.cpp:519-564 | attempt counters, timers, affinity usage and held slots are those of the rows |
| RunLoops.DistributedRunLoop.DispatchNode | engine/core/src/distributed_run_loop.cpp:310-382 | one dispatch makes exactly the protocol's calls to the store, the streams and the quota gate, in order, and ends in its state, published or not |
| RunLoops.DistributedRunLoop.TryDispatch | engine/core/src/distributed_run_loop.cpp:279-308 | a node is dispatched exactly if it is ready, its resource has room and the gate grants a slot |
| RunLoops.DistributedRunLoop.DispatchReady | engine/core/src/distributed_run_loop.cpp:272-384 | a pass performs dispatches and nothing else, none once cancellation was requested, and leaves no ready node unless its resource is full or the gate refuses it |
| RunLoops.DistributedRunLoop.DispatchEach | engine/core/src/distributed_run_loop.cpp:279-384 | the loop over the ready snapshot leaves no ready node undispatched unless it was refused |
| RunLoops.DistributedRunLoop.IsTimely | engine/core/src/distributed_run_loop.cpp:415-435 | a result is considered exactly if its node is running, it was not seen by this process, and its attempt is not below the current one |
| RunLoops.DistributedRunLoop.ApplyResult | engine/core/src/distributed_run_loop.cpp:406-493 | a malformed result or one of another run or node is ignored; any other is handled as the protocol says |
| RunLoops.DistributedRunLoop.Consider | engine/core/src/distributed_run_loop.cpp:415-493 | a result is applied exactly if it is timely and the ledger grants its claim, with exactly the protocol's calls |
| RunLoops.DistributedRunLoop.SettleResult | engine/core/src/distributed_run_loop.cpp:441-493 | success, retry, dead letter and failure each make their calls and transitions |
| RunLoops.DistributedRunLoop.HandleRetryableFailure | engine/core/src/distributed_run_loop.cpp:174-218 | a retryable failure is parked or dead-lettered as the policy decides; any other is not handled here |
| RunLoops.DistributedRunLoop.SucceedNode | engine/core/src/distributed_run_loop.cpp:454-470 | a success is stored before the state machine unlocks successors |
| RunLoops.DistributedRunLoop.BreakNode | engine/core/src/distributed_run_loop.cpp:471-491 | a failure is stored, then the state machine cancels, then the cancellations are stored |
| RunLoops.DistributedRunLoop.ParkNode | engine/core/src/distributed_run_loop.cpp:206-217 | the node is parked in the state machine, and its row and its timer take the due time |
| RunLoops.DistributedRunLoop.PersistCanceled | engine/core/src/distributed_run_loop.cpp:398-404 | every canceled node is stored and announced, in order |
| RunLoops.DistributedRunLoop.ConsumeResult | engine/core/src/distributed_run_loop.cpp:801-823 | slots are given back exactly if the result was applied |
| RunLoops.DistributedRunLoop.ConsumeBatch | engine/core/src/distributed_run_loop.cpp:794-827 | a batch delivers exactly the results it reports about this run, in order, each with the reply that the retry policy decides |
| RunLoops.DistributedRunLoop.ReapLease | engine/core/src/distributed_run_loop.cpp:122-152 | reaping an expired lease closes it, and readies its node and returns its slots if the node is in flight, the quota slot only if it is held |
| RunLoops.DistributedRunLoop.ReadyAgain | engine/core/src/distributed_run_loop.cpp:136-150 | exactly a node in flight becomes ready, in memory and in its row, and its slots are given back |
| RunLoops.DistributedRunLoop.ScanExpiredLeases | engine/core/src/distributed_run_loop.cpp:106-155 | a scan reaps expired leases only, and leaves none |
| RunLoops.DistributedRunLoop.WakeNode | engine/core/src/distributed_run_loop.cpp:226-238 | waking a due node drops its timer and readies it if it is parked |
| RunLoops.DistributedRunLoop.ProcessRetryWaits | engine/core/src/distributed_run_loop.cpp:220-239 | exactly the due timers are woken, and none once cancellation was requested |
| RunLoops.DistributedRunLoop.CancelAndFinish | engine/core/src/distributed_run_loop.cpp:718-725 | canceling stores every cancellation, gives back every held slot once, in id order, and finishes the run |
| RunLoops.DistributedRunLoop.ReleaseAllQuotaSlots | engine/core/src/distributed_run_loop.cpp:636-640 | every held slot is given back to the gate exactly once, in id order |
| RunLoops.DistributedRunLoop.ReleaseQuotaSlot | engine/core/src/distributed_run_loop.cpp:624-631 | the gate is called exactly if the slot is held, and it is held no more |
| RunLoops.DistributedRunLoop.EndRun | engine/core/src/distributed_run_loop.cpp:495-499 | the run row is finished, then the event goes out |
| RunLoops.DistributedRunLoop.FinalizeDone | engine/core/src/distributed_run_loop.cpp:746-760 | a finished run is stored with the verdict on its nodes |
| RunLoops.DistributedRunLoop.LoopHead | engine/core/src/distributed_run_loop.cpp:712-770 | one pass up to the read: a cancellation requested by its head ends the run at once; one that comes in during the pass holds back the dispatches or wakes still to come; otherwise it dispatches until no ready node has room and a grant; a timeout or all nodes terminal ends it; a run that goes on has an open node, no expired lease and, unless canceled, no due timer |
| RunLoops.DistributedRunLoop.DrainPendingResults | engine/core/src/distributed_run_loop.cpp:576-604 | the recovery drain terminates, offers each pending result once, in order, delivers exactly what they report, and leaves none pending |
| RunLoops.DistributedRunLoop.ReapAll | engine/core/src/distributed_run_loop.cpp:124-154 | the loop over the scanned leases reaps each of them and no other |
| RunLoops.DistributedRunLoop.MoveOn | engine/core/src/distributed_run_loop.cpp:727-744 | dispatch, reap and wake, in this order; a request for cancellation that comes in between holds back what follows |
| RunLoops.DistributedRunLoop.DrainOne | engine/core/src/distributed_run_loop.cpp:578-603 | the oldest pending result is offered and acknowledged, applied or not |
| LoopPasses.DispatchShrinks | engine/core/src/distributed_run_loop.cpp:279-382 | a dispatch, published or not, readies no node and frees no slot |
| DiskSafety.GuardedKeepsSafe | engine/core/src/distributed_run_loop.cpp:310-369 | each store call and publish, made when the loop makes it, keeps everything the durable state promises |
| DiskSafety.SafeAtEveryCrashPoint | engine/core/src/distributed_run_loop.cpp:310-369 | so the durable state is safe after any prefix of any operation's calls |
| OpSafety.OpGuarded | engine/core/src/distributed_run_loop.cpp:272-499 | every call of every operation is made under its guard, and together they have the operation's durable effect |
| OpSafety.DispatchGuarded | engine/core/src/distributed_run_loop.cpp:310-382 | a dispatch records the attempt and opens its lease before it publishes |
| OpSafety.DeliverGuarded | engine/core/src/distributed_run_loop.cpp:406-493 | a result claims the ledger key before anything else is stored |
| Recovery.RecoveredMirrors | engine/core/src/distributed_run_loop.cpp:504-564 | memory rebuilt from a safe durable state mirrors it |
| Recovery.OpMirrors | engine/core/src/distributed_run_loop.cpp:106-770 | every operation keeps memory a mirror of the durable state |
| Recovery.SafeIsSound | engine/core/src/state_machine.cpp:91-183 | reconstruction from any safe durable state satisfies the state machine's invariant |
| Runs.RunsAreGood | engine/core/src/distributed_run_loop.cpp:642-842 | in every world of every run, with any crashes, resumes, worker and foreign calls: the durable state is safe, and live memory mirrors it |
| RunLaws.DurableBeforeUnlock | engine/core/src/distributed_run_loop.cpp:310-369 | at every crash point of a run whose rows are all created, a published task has its attempt recorded and all predecessors durably succeeded, no attempt is published twice, and attempts are numbered from 1 without gaps |
| RunLaws.MemoryIsDurable | engine/core/src/distributed_run_loop.cpp:454-491 | a node terminal in memory is stored as such, and its counter is the number of predecessors not durably succeeded |
| RunLaws.ResumeIsTransparent | engine/core/src/distributed_run_loop.cpp:504-574 | at every loop head, what a resume would rebuild equals live memory and accepts the same results; the timers agree exactly if none is due at or before the epoch |
| RunLaws.ExactlyOnce | engine/core/src/distributed_run_loop.cpp:406-493 | whatever is duplicated, reordered or restarted, each attempt's result is applied at most once, and to the node's latest attempt only |
| RunLaws.AppliedIsLatest | engine/core/src/distributed_run_loop.cpp:420-435 | an applied result belongs to the latest recorded attempt, which was published |
| RunLaws.DispatchBound | engine/core/src/distributed_run_loop.cpp:174-239 | across crashes a node parks at most tries - 1 times and is dispatched at most max(1, tries) times plus its lease reaps |
| RunLaws.ReapsCounted | engine/core/src/distributed_run_loop.cpp:106-155 | expired leases of a node are at most the reaps of its attempts |
| RunEndings.EndsSettled | engine/core/src/distributed_run_loop.cpp:718-841 | every end of the loop leaves a finished run, all rows terminal, and no quota slot held |
| RunEndings.OutcomeUnderCrashes | engine/core/src/distributed_run_loop.cpp:642-842 | if each node's fate is fixed and nobody cancels, every run that finalizes ends in the same durable states and verdict, wherever it crashed |
| RunEndings.ExclusiveResource | engine/core/src/distributed_run_loop.cpp:284-297 | two nodes in flight on a resource of capacity 1 are the same node, resumes included |
| RunEndings.UsageWithinCapacity | engine/core/src/distributed_run_loop.cpp:284-297 | where all nodes on a resource have one capacity, its usage never exceeds it, resumes included |
| RunEndings.SlotsAreNodesInFlight | engine/core/src/distributed_run_loop.cpp:538-552 | at loop heads affinity usage counts the nodes in flight with the key, and the held quota slots are the nodes in flight |
| CrashWindows.PrefixLoses | engine/core/src/distributed_run_loop.cpp:310-491 | cut anywhere, an operation loses a node in flight, so that its latest attempt has no open lease to be reaped and no result left to be accepted, exactly in its windows, and a lost node stays lost while its row is open |
| Strandings.PrefixRows | engine/core/src/distributed_run_loop.cpp:310-499 | the statuses that a crash after any number of calls of any operation leaves behind |
| Strandings.FailureClosedIff | engine/core/src/distributed_run_loop.cpp:471-491 | a failure cut short leaves a blocked node under a broken one exactly unless all its cancellations are stored |
| Strandings.CancelClosedIff | engine/core/src/distributed_run_loop.cpp:398-404 | a cancellation of the run cut short does so exactly if an edge leads from what is stored of it to the rest |
| Strandings.PrefixTears | engine/core/src/distributed_run_loop.cpp:398-404 | node by node: a crash leaves a node blocked under a broken one exactly if the cancellation of that node, due with what is stored right above it, is not stored |
| Strandings.NoOrphanIffClosed | engine/core/src/distributed_run_loop.cpp:398-404 | no node is left so exactly if everything directly below a broken row is canceled |
| Strandings.StrandedIff | engine/core/src/distributed_run_loop.cpp:310-499 | cut anywhere, an operation strands a node exactly in one of the windows: it loses the node in flight, or stores a failure or part of a cancellation right above it but not its own cancellation; a stranded node stays stranded while its row is open |
| StrandedRuns.StrandedAtIff | engine/core/src/distributed_run_loop.cpp:504-574 | over all runs: a node is stranded exactly if a crash fell in one of its windows and its row is still open |
| StrandedRuns.LostForGood | engine/core/src/distributed_run_loop.cpp:106-155 | in every continuation a lost node keeps its row, and the run does not end, unless the run is canceled |
| StrandedRuns.OrphanMovedOnly | engine/core/src/distributed_run_loop.cpp:471-491 | in every continuation a node blocked under a broken one stays so, and the run does not end, until the run is canceled or another node above it fails |
| StrandedRuns.OrphanForGood | engine/core/src/distributed_run_loop.cpp:471-491 | and if no node above it is open any more, unless the run is canceled |
| AfloatRuns.AfloatThroughoutIff | engine/core/src/distributed_run_loop.cpp:504-574 | no node is stranded at any step of a run exactly if none of its crashes falls in such a window |
| AfloatRuns.LostTimers | engine/core/src/distributed_run_loop.cpp:528-531 | only a timer due at or before the epoch is ever missing, and a restart loses exactly those |
| AfloatRuns.NoDeadlockIff | engine/core/src/distributed_run_loop.cpp:712-842 | with positive capacities, a run in which no crash has stranded a node can go on exactly if some live node has not lost its timer; crashes that a lease reap recovers are included |
| AfloatRuns.NoDeadlock | engine/core/src/distributed_run_loop.cpp:712-842 | so, with all due times of parked nodes after the epoch, some node can go on until all are terminal |
| AfloatRuns.GoingOnIff | engine/core/src/distributed_run_loop.cpp:712-842 | some node can be dispatched, reaped, delivered to or woken exactly if some operation other than a cancellation is enabled and moves a node |
| AfloatRuns.GoesOnIffMoved | engine/core/src/distributed_run_loop.cpp:712-842 | the same for each live node by itself |
| AfloatRuns.LostIffUnmoved | engine/core/src/distributed_run_loop.cpp:106-155 | at a loop head a node in flight is lost exactly if no operation but a cancellation of the run moves it |
| LostTimer.LostTimerStalls | engine/core/src/distributed_run_loop.cpp:528-531 | a run of three steps in which a restart loses the only timer: the run is not stranded, its one node is parked, and no operation moves it any more |
| ReapedResults.AppliesIffSlipped | engine/core/src/distributed_run_loop.cpp:420-435 | at a loop head a reaped attempt's late result is accepted exactly if its node reads as in flight, it is still the latest attempt, and its key is unclaimed |
| ReapedResults.PrefixSlips | engine/core/src/distributed_run_loop.cpp:122-152 | an operation cut anywhere brings that state about exactly after the first call of the attempt's reap or of the next dispatch of its node |
| ReapedResults.ReapedAppliedIff | engine/core/src/distributed_run_loop.cpp:420-435 | over all runs: a reaped attempt's late result would be applied exactly if a crash fell in one of these two windows, and the result was not claimed nor the node settled since |
| ReapedResults.ReapedNeverApplied | engine/core/src/distributed_run_loop.cpp:420-435 | in every run without such a crash, wherever else it crashed, a reaped attempt's late result never changes its node |
| ReapedResults.ReapedSlipsThrough | engine/core/src/distributed_run_loop.cpp:317-318 | both windows are real: wherever the operation is possible, a crash there lets the late result through |
| StartUps.RecordedIffRow | engine/core/src/distributed_run_loop.cpp:687-690 | in every run from the first creation call, whatever is cut short: a published attempt is recorded exactly if its node has a row, and only an attempt of a node without one is ever published twice |
| StartUps.RowsCompleteIff | engine/core/src/distributed_run_loop.cpp:674-690 | the rows a loop works on are complete exactly if no process died between the first node row and the last |
| StartUps.DurableFromFirstCall | engine/core/src/distributed_run_loop.cpp:674-704 | as long as that did not happen, everything published, from the very first call on, is recorded, published once, and has durably succeeded predecessors |
| StartUps.FairIsAdvance | engine/core/src/distributed_run_loop.cpp:406-499 | the loop that branches on the store's answers does what the protocol says when all rows are there |
| CutStarts.CutShortPublishesTwice | engine/core/src/distributed_run_loop.cpp:504-517 | wherever the creation is cut short after its first row, some run from the first call on publishes an attempt twice that was never recorded |
| CutStarts.RecordedOnceIff | engine/core/src/distributed_run_loop.cpp:504-517 | of a run resumed on the first k rows: all its continuations publish each attempt once and on record if and only if no row is missing |
| GateRuns.GateCountsInFlight | engine/core/src/distributed_run_loop.cpp:540-552 | once every loop has made the calls it owes, the totals are the nodes in flight of all running loops, and zero when all have ended; with all rows created these are the rows in flight |
| GateRuns.OpOwes | engine/core/src/distributed_run_loop.cpp:611-640 | what an operation asks of the gate first, and then owes it, fits what the loop holds and leads to what it holds afterwards |
| GateRuns.FairSlotsAreOrdinary | engine/core/src/distributed_run_loop.cpp:611-640 | with all rows there the calls to the gate are those that the loop logs |
| GateRuns.MoveIsAllowed | engine/core/src/distributed_run_loop.cpp:611-640 | several loops over one gate, their calls interleaved one by one: the gate allows each call; a loop asks and takes again only for nodes that hold no slot, and gives back only what it holds |
| GateRuns.CallsAreHistory | engine/core/src/distributed_run_loop.cpp:611-640 | as long as the process lives, the calls of all loops, in whatever order they come, are an allowed history of the gate over the slots they hold |
| GateRuns.GateCountsSlots | engine/core/src/quota.cpp:162-177 | in every reachable state, whatever was refused, reaped, canceled, crashed, cut short or resumed, and between any two calls: the gate's totals per organization and per class are the slots that the loops hold |
| PartialRows.OpKeepsMemory | engine/core/src/distributed_run_loop.cpp:106-770 | whatever rows there are, every operation keeps the model sound and the held slots those of the nodes in flight |
| PartialRows.GoKeepsTidy | engine/core/src/distributed_run_loop.cpp:106-770 | and unlocks no row before its predecessors have succeeded in theirs |
| ViewRuns.ViewIsExact | features/workflows/lib/evo-run-events.ts:159-197 | in runs whose crashes fall between operations the fold of the published events shows the same run and node statuses as the stored rows, at every loop head |
| ViewRuns.OpShowsStored | engine/core/src/distributed_run_loop.cpp:454-499 | every operation that is not cut short keeps the fold equal to the rows |
| Outages.SuccessStoredThroughOutages | engine/core/src/distributed_run_loop.cpp:454-469 | over whole runs in which the store loses any calls and the process dies anywhere, from complete rows or not: a success in memory has been stored |
| Outages.FairIsOrdinary | engine/core/src/distributed_run_loop.cpp:406-499 | with the store up, branching on its answers is the protocol |
| Retries.GrowDelay | engine/core/src/retry_policy.cpp:103-118 | the capped loop computes the delay that the recursion over its steps defines |
| Retries.ComputeBackoff | engine/core/src/retry_policy.cpp:103-129 | the backoff is that delay, cut to the cap, scaled by the jitter factor and truncated |
| Retries.DelayIsCappedGrowthIff | engine/core/src/retry_policy.cpp:103-118 | the loop gives min(base * mult^(k-1), cap) exactly if mult >= 1, or k = 1, or the first product stays below the cap, or the last reaches it |
| Retries.ShrinkingMultiplierIsCut | engine/core/src/retry_policy.cpp:103-118 | a multiplier of 1/2 for which the loop and the formula differ |
| Retries.BackoffBounds | engine/core/src/retry_policy.cpp:103-129 | for mult >= 1 the backoff is the truncation of the formula times a factor in [1 - j, 1 + j), and the formula itself when j = 0 |
| Retries.ZeroBackoff | engine/core/src/retry_policy.cpp:103-129 | with base 0 the backoff is 0, so a result without a completion time sets a timer due at the epoch |
| Retries.JitterExceedsCap | engine/core/src/retry_policy.cpp:119-129 | a backoff above the cap: jitter is applied after it |
| Retries.DecisionMeaning | engine/core/src/retry_policy.cpp:131-179 | retry needs a retryable error and budget; a retryable error without budget is dead-lettered; only an explicit hint makes an unclassified error retryable, and none overrides a final class |
| Retries.RetryTestsAgreeIff | engine/core/src/envelope.cpp:79-96 | the two retry decisions of the engine differ exactly on hinted validation and authorization errors |
| Quotas.TenantQuotaGate.constructor | engine/core/src/quota.cpp:18-18 | a new gate has counted nothing |
| Quotas.TenantQuotaGate.AdmitRun | engine/core/src/quota.cpp:20-39 | a run is admitted exactly if neither the organization's nor the global cap is reached |
| Quotas.TenantQuotaGate.ReadmitRun | engine/core/src/quota.cpp:41-48 | a resumed run is counted whatever the caps |
| Quotas.TenantQuotaGate.ReleaseRun | engine/core/src/quota.cpp:50-57 | a run is given back, never below zero |
| Quotas.TenantQuotaGate.AcquireTask | engine/core/src/quota.cpp:59-119 | a task is granted exactly if the caps leave room and, on a capped class with fairness, it is the organization's turn |
| Quotas.TenantQuotaGate.FairRecipient | engine/core/src/quota.cpp:121-160 | the selection loop drops stale demand and finds the organization least served for its weight, ties to the least id |
| Quotas.TenantQuotaGate.ReleaseTask | engine/core/src/quota.cpp:162-170 | a slot is given back, never below zero |
| Quotas.TenantQuotaGate.ReacquireTask | engine/core/src/quota.cpp:172-177 | a resumed in-flight task takes its slot back whatever the caps |
| QuotaLaws.GateConserves | engine/core/src/quota.cpp:107-177 | in every allowed history the in-flight totals are the slots held, and zero once all are returned |
| QuotaLaws.GrantWithinCaps | engine/core/src/quota.cpp:62-78 | no grant exceeds the organization's or the class's cap |
| QuotaLaws.GrantIsFair | engine/core/src/quota.cpp:80-118 | while w is asking, a grant to b satisfies served_b * weight_w <= served_w * weight_b before the grant |
| QuotaLaws.FairShares | engine/core/src/quota.cpp:121-160 | among organizations that keep asking, (served_a - 1) * weight_b <= served_b * weight_a forever |
| QuotaLaws.OvertakingBound | engine/core/src/quota.cpp:80-160 | while w waits, every other organization is granted at most what brings it one past its share |
| QuotaLaws.StartRunCounts | engine/core/src/quota.cpp:20-48 | run counts stay the numbers of active runs when one starts |
| QuotaLaws.ReleaseRunCounts | engine/core/src/quota.cpp:50-57 | and when one ends |
| ExecutionPolicies.ExecutionPolicy.SetNodeAffinity | engine/core/src/execution_policy.cpp:75-77 | an override touches one node only |
| ExecutionPolicies.ExecutionPolicy.SetTypeAffinity | engine/core/src/execution_policy.cpp:79-81 | an override touches one type only |
| ExecutionPolicies.ExecutionPolicy.SetCapacity | engine/core/src/execution_policy.cpp:83-98 | setting a capacity changes the capacity of that class and key, and of no other |
| ExecutionPolicies.CapacityKeyInjective | engine/core/src/execution_policy.cpp:83-92 | the override key identifies class and key |
| ExecutionPolicies.ExecutionPolicy.DefaultBrowserSession | engine/core/src/execution_policy.cpp:24-73 | without overrides all browser nodes of a run share one resource of capacity 1; only a mail node can share it with another capacity, and only if the run is called email |
| JsonParser.Parser.Run | engine/core/src/json.cpp:23-38 | the cursor parser accepts and returns exactly what the recursive definition does, with nothing but space after the value |
| JsonParser.Parser.ParseValue | engine/core/src/json.cpp:65-85 | one value, read from the cursor, terminating on every input |
| JsonParser.Parser.ParseObject | engine/core/src/json.cpp:87-107 | an object; the first of two members with one key is kept |
| JsonParser.Parser.ParseArray | engine/core/src/json.cpp:109-124 | an array |
| JsonParser.Parser.ParseString | engine/core/src/json.cpp:126-195 | a string with all its escapes |
| JsonParser.Parser.ParseNumber | engine/core/src/json.cpp:203-226 | the longest number at the cursor |
| JsonParser.Writer.WriteString | engine/core/src/json.cpp:231-267 | the loop over the characters appends the quoted, escaped string |
| JsonParser.Writer.Write | engine/core/src/json.cpp:269-314 | the writer appends exactly the printed form of the value |
| JsonRoundTrip.RoundTrip | engine/core/src/json.cpp:318-327 | parse(serialize(v)) = v for every value whose numbers are integers below 1e15 in magnitude, for arbitrary byte strings and nesting |
| JsonRoundTrip.SerializeInjective | engine/core/src/json.cpp:318-327 | so different values print differently |
| JsonRoundTrip.StringReads | engine/core/src/json.cpp:126-267 | a printed string is read back whatever follows it |
| JsonRoundTrip.ValueReads | engine/core/src/json.cpp:65-314 | a printed value is read back whatever follows it |
| JsonRoundTrip.DuplicateKeyKeepsFirst | engine/core/src/json.cpp:87-107 | of two members with one key the parser keeps the first |
| DagCodec.FromJson | engine/core/src/dag.cpp:248-300 | a malformed document is rejected; any other builds from exactly the nodes and edges it lists |
| DagCodec.DocumentReads | engine/core/src/dag.cpp:219-300 | the document written for a DAG lists its sorted nodes and its edges |
| DagCodec.RestoredTopology | engine/core/src/dag.cpp:219-300 | from_json(to_json(d)) has the nodes, edges, neighbour lists and execution order of d |
| DagCodec.Reload | engine/core/src/distributed_run_loop.cpp:683-686 | the text stored with a run, parsed again, restores its topology exactly |
| DagCodec.CanonicalText | engine/core/src/dag.cpp:219-246 | two DAGs print the same text exactly if they have the same nodes and the same edges |
| Views.ReduceEvents | features/workflows/lib/run-view-model.ts:350-478 | the loop over the stream folds exactly this run's events, and has a step for exactly the nodes they mention |
| Views.AnyDeliveryShowsOnlyStored | features/workflows/lib/run-view-model.ts:343-478 | once every event's fact is stored, no loss, duplication or reordering of events shows a terminal status that the store lacks |
| Views.PublishShowsOnlyStored | features/workflows/lib/run-view-model.ts:350-478 | publishing an event whose fact is stored keeps that |
| Views.RedeliveryKeepsStepIff | features/workflows/lib/run-view-model.ts:343-349 | exactly when a redelivered node event leaves the step status as it was |
| Views.RedeliveryKeepsRunIff | features/workflows/lib/run-view-model.ts:343-349 | exactly when a redelivered run event leaves the run status as it was |
| Views.RestartShownAfterFinish | features/workflows/lib/run-view-model.ts:380-385 | a redelivered start shows a finished run as running |
| Schedulers.RunSequential | engine/core/src/scheduler.cpp:37-62 | the sequential log is the topological order up to and including the first failure |
| Schedulers.SequentialLogUnique | engine/core/src/scheduler.cpp:37-62 | which determines the log |
| Schedulers.SequentialRunsUndoomed | engine/core/src/scheduler.cpp:37-62 | the sequential run runs a node only if all its ancestors succeed |
| ConcurrentSchedulers.ConcurrentScheduler.Begin | engine/core/src/concurrent_scheduler.cpp:131-137 | the start of run queues exactly the ready nodes |
| ConcurrentSchedulers.ConcurrentScheduler.DrainResourceBlocked | engine/core/src/concurrent_scheduler.cpp:208-225 | the drain performs dispatches of deferred nodes and leaves only nodes without room |
| ConcurrentSchedulers.ConcurrentScheduler.PopReady | engine/core/src/concurrent_scheduler.cpp:159-178 | one node leaves the queue: skipped unless ready, deferred without room, and else dispatched |
| ConcurrentSchedulers.ConcurrentScheduler.DispatchPass | engine/core/src/concurrent_scheduler.cpp:154-182 | one dispatcher round performs steps of the system, empties the queue, leaves only nodes without room deferred, and ends the run exactly if nothing is in flight, queued or deferred |
| ConcurrentSchedulers.ConcurrentScheduler.StartTask | engine/core/src/concurrent_scheduler.cpp:231-231 | a worker's start is one step |
| ConcurrentSchedulers.ConcurrentScheduler.RunTask | engine/core/src/concurrent_scheduler.cpp:233-272 | running a node and logging its result is one step |
| ConcurrentSchedulers.ConcurrentScheduler.ReleaseResource | engine/core/src/concurrent_scheduler.cpp:277-289 | the slot is given back and deferred nodes are retried |
| ConcurrentSchedulers.ConcurrentScheduler.CompleteTask | engine/core/src/concurrent_scheduler.cpp:296-296 | the completion is one step and hands over exactly the changed nodes |
| ConcurrentSchedulers.ConcurrentScheduler.QueueChanged | engine/core/src/concurrent_scheduler.cpp:297-304 | the changed nodes are queued in order, in one step |
| ConcurrentSchedulers.ConcurrentScheduler.FinishTask | engine/core/src/concurrent_scheduler.cpp:307-307 | the node is no longer in flight |
| ConcurrentSchedulers.ConcurrentScheduler.FinalizeAndCollect | engine/core/src/concurrent_scheduler.cpp:311-328 | the final node states and the run state are those the tasks' outcomes dictate |
| ConcurrentSchedulers.LeadsIsExecution | engine/core/src/concurrent_scheduler.cpp:140-309 | whatever the threads do, section by section, is one execution of the step system |
| Concurrency.EveryStateKeeps | engine/core/src/concurrent_scheduler.cpp:118-309 | every state of every interleaving satisfies the invariant |
| Concurrency.NextKeeps | engine/core/src/concurrent_scheduler.cpp:140-309 | and every step keeps it |
| Concurrency.PlacedNext | engine/core/src/concurrent_scheduler.cpp:154-304 | no step loses a ready node, lists a node twice, or lists one that is neither ready nor canceled |
| Concurrency.UsageKept | engine/core/src/concurrent_scheduler.cpp:164-172 | usage counts the tasks that hold the resource |
| Concurrency.LogKept | engine/core/src/concurrent_scheduler.cpp:259-272 | the log has each task that ran once, after its predecessors |
| Concurrency.WorkersKeepReady | engine/core/src/concurrent_scheduler.cpp:161-173 | between the dispatcher's test and its dispatch a ready node stays ready |
| Concurrency.StartedOnce | engine/core/src/concurrent_scheduler.cpp:227-231 | no task is started twice |
| Concurrency.WithinCapacity | engine/core/src/concurrent_scheduler.cpp:164-172 | the tasks that hold a resource never exceed its capacity |
| Concurrency.ReturnedIsDone | engine/core/src/concurrent_scheduler.cpp:180-183 | the exit test holds only once every node is terminal, and then the log holds exactly the nodes not canceled |
| Concurrency.EveryReturnAgrees | engine/core/src/concurrent_scheduler.cpp:118-328 | every interleaving that returns ends in the same node states, having logged exactly the nodes below no failure, each once, after its predecessors, with its task's result |
| Concurrency.AllSucceedIsSequential | engine/core/src/scheduler.cpp:37-62 | when all tasks succeed, every concurrent log is a linear extension of the DAG with exactly the entries of the sequential log |
| Concurrency.SequentialIsWithin | engine/core/src/scheduler.cpp:37-62 | whatever fails, the sequential log is part of every concurrent one, and both report success or failure alike |
| Concurrency.NoDeadlock | engine/core/src/concurrent_scheduler.cpp:140-184 | with positive capacities some step is possible until the exit test holds |
| ConcurrentEnds.EveryExecutionEnds | engine/core/src/concurrent_scheduler.cpp:140-184 | no interleaving takes more than ten steps a node |
| ConcurrentEnds.EveryExecutionCanReturn | engine/core/src/concurrent_scheduler.cpp:140-195 | with positive capacities every interleaving can be continued until run returns |

## Left out

Weaker than the code or than its documentation:

- ViewRuns.ViewIsExact: crashes fall between operations here; with a crash inside one the view may lag, and only `Views.AnyDeliveryShowsOnlyStored` and the durable safety hold.
- AfloatRuns.NoDeadlock: says that some node can go on, not that it does: workers, deliveries, timers, the expiry of leases and the gate are the environment.
- CrashWindows.PrefixLoses: an open lease counts as one that will be reaped; a lease whose deadline is at or before the epoch, which no configured duration gives, would never be scanned.
- RunEndings.OutcomeUnderCrashes: covers runs that nobody cancels; canceled runs end as `RunEndings.EndsSettled` says.
- RunLoops.DistributedRunLoop.LoopHead: the gate's answers are handed in; what the gate makes of the loop's calls is in `GateRuns`.
- RunLoops.DistributedRunLoop.RequestCancel: it is refused from the moment the state machine has finished, a few calls before the flag that the code tests is set.
- GateRuns.MoveIsAllowed: a loop's store calls of one operation come before the gate calls that it owes for it, and are not interleaved with those of other loops.
- Retries.BackoffBounds: delays are reals, so the rounding of doubles is not modelled; the jitter generator is any number in [0, 1).
- JsonRoundTrip.RoundTrip: numbers are reals and the conversion of non-integers is a parameter; negative zero reads back as zero.
- Concurrency.EveryReturnAgrees: without `cancel` and with an unbounded queue; a task's result depends on its node only.
- ConcurrentEnds.EveryExecutionCanReturn: steps that are possible are taken eventually; the wake-up of the dispatcher through the condition variable, whose last notification is outside the lock, is not modelled.

Not modelled:

- The outer `while` of `run` is represented by `LoopHead` and `ConsumeBatch`; acknowledging the batch in one call, blocking reads, stop tokens, wall clocks and timing statistics are left out.
- `resource_blocked_` of the run loop: it is written but never decides a dispatch.
- Runs with leases switched off (`lease_duration` 0), the scan interval, and the worker registry.
- Store failures other than in `Outages`: the store executes each call.
- That workers report only attempts that were published is assumed: `is_late_result` does not reject attempts above the current one.
- Payloads: outputs, failure reasons, error texts, event details, trace ids, the response recorded in the ledger, worker ids and status texts of attempts, protobuf encoding.
- The fields of the view other than the run status and the step statuses: titles, types, durations, outputs, the counts of `finalizeViewModel`, the mappings of legacy runs.
- Consumer names of the transport: a group has one pending list; its redelivery map is never filled.
- The JSON form of the gate; integer overflow in its products.
- Redis and Postgres backends, gRPC, metrics, logging, authentication, and everything outside the engine and the two view files.
