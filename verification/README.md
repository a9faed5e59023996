# Verified model of dispatching, scheduling and delivery

This project models how the platform gets a goal executed, in Dafny 4.11, and proves what the
parts promise each other:

* a **scheduler** splits a goal into subtasks, orders them into waves by their dependencies,
  dispatches one wave at a time and waits for its replies;
* a **durable queue** (the `messages` table) carries dispatch rows one way and reply rows the
  other;
* a **delivery protocol** hands each dispatch row to a local worker or to a remote execution
  server, through polls, disconnects, parked tasks, crashes and restarts, and writes down
  whatever result comes back;
* a small **Markdown renderer** groups list lines.

`dafny verify dfyconfig.toml` checks everything.

## How it is organised

| files | what they hold |
|---|---|
| `Wrappers`, `Sets`, `Results`, `Store` | options, finite sets, JSON results and which of them can be written, the database rows and queries, server ids as dictionary keys |
| `Graphs`, `Failures` | layers, walks, cycles and longest chains of a finite dependency graph; how failures spread in it |
| `Waves`, `Flow`, `Agreement` | the two topological sorters, the ready set, and when the three agree |
| `Replies`, `Scheduling`, `RunSafety` | the wave loop with failure propagation, and what a whole run guarantees, with late replies and without |
| `MessageQueue` | dispatching and offset-based collecting |
| `WsServer`, `Dispatcher`, `Recovery` | the imperative parts of delivery: server registry, poller, restart sweep |
| `Delivery` | delivery as a labelled transition system |
| `DeliveryInvariant`, `DeliveryFutures`, `DeliverySafety`, `DeliveryResults`, `DeliveryInputs`, `DeliveryLimits`, `Connections`, `Redelivery` | its invariant, what holds over every run, from which inputs it follows, and where it ends |
| `WaveBarrier`, `Platform`, `EndToEnd` | scheduler, queue and delivery together |
| `Markdown` | the list loop |

Objects that the program updates in place are classes (`WSDispatcher`, `CentralDispatcher`,
`MessageQueueService`, `SchedulingAgent`, `FlowDefinition`, `Startup`, ...). Each method is
proved against a function of the old state, and the lemmas are about those functions.
In `Delivery`, one step (`Apply`) is one atomic stretch of one thread: a database call, a
critical section, or a stretch of the event loop between two awaits; steps of the poller, the
worker threads, the loop and the scheduler interleave freely. `Apply` performs the same
registry functions (`Park`, `Tracked`, `Answered`, `Disconnected`, ...) that the methods of
`WSDispatcher` are proved to perform.

A result is any JSON value. `Results` computes from it what the code does with it: whether
`forward_task` survives it (`KillsForward`), and whether the task row (`Outcome.Storable`) and
the reply row (`Outcome.Encodable`) can be written. An SQLite parameter must be null, a boolean,
a 64-bit integer, a float, or text without unpaired surrogates; a result is stored as text.

## Assumptions

The database is SQLite; its calls fail only on values it cannot take, and row ids increase. A
task row exists before its dispatch row is written, so goals can be stored, and only an
undispatched task is marked skipped. Subtask ids are distinct; a plan also assumes one task row
per subtask, and `RunSafety.OneRowEachIffGoalsDiffer` says when that holds. Agents return JSON
values, and numbers are finite. A frame whose handling raises, such as a register frame with a
list as server id, ends its connection like any other disconnect. Nobody outside the modelled
code writes task states. Names and texts that are only compared or copied are integers or opaque
strings, negative integers standing for subtask names with an unpaired surrogate; the clock is
nondeterministic (any number of polls, any wave after which the deadline has passed). The server
subsystem is attached. A restart ends every process of the platform.

## Where the code does less than its documentation

The model follows the code. Each of these is a proved lemma with an exact condition, a
concrete counterexample, or both.

* *No silent loss* (the repository's `README.md:29`). A delivery step leaves its task in flight
  with nobody holding it in exactly two cases (`KeepsOwned`), after which every poll skips the
  task until the process ends (`StrandedForever`). First, `is_connected` raises on a server id
  that is a non-empty list or object, such as `["srv-1"]`: it is looked up in a dictionary, and
  nothing validates the `server_id` of a configured role. This is reachable for every such value
  (`UnroutableIsReachable`), and no restart helps: the row is never acked in any run
  (`StuckRowIsNeverAcked`). Second, `(result or {}).get("role")` raises on a result that is
  neither an object nor falsy, such as `"oops"` or `[1]`; reachable for every such value, too
  (`KilledForwardIsReachable`).
* *Every subtask is dispatched.* `dispatch_subtasks` swallows a failing write. A context with an
  unpaired surrogate, for instance in a role name, cannot be encoded: no row is written
  (`WrittenAreClean`, `OddRoleIsNotWritten`), the task stays as it was, and the wave waits for a
  reply that cannot come (`MissingRowIsMissed`). With clean contexts and subtask names every
  message gets its row (`CleanScenarioIsWritten`).
* *Ack only after a terminal state* (the repository's `README.md:35`). The worker acks in a
  `finally`, but setting up the agent is outside the `try` that finalizes, and the two writes of
  `finalize_task` fail separately. A row is acked for an unfinished task exactly after a raising
  agent set-up and after a result that cannot be stored: a falsy non-object (`null`, `[]`, `""`,
  `0`), a success that contains an unpaired surrogate or whose role cannot be bound, a failure
  whose error cannot be bound (`AckAfterExecuteFailsExactly`, `FalsyResultIsAckedUnfinished`,
  `UncleanResultIsAckedUnfinished`). The only agent in use, `ExecutionAgent`
  (`src/core/agents/execution_agent.py:20-40`), cannot raise while it is set up with an object as
  context, so at present only the results reach this.
* *One reply for one task.* A result that can be sent but not stored gets its reply row and leaves
  the task `running`, so another dispatch row of the task runs it again and replies again. These
  are the successes whose role is a list, an object or an integer out of range, and the failures
  whose error is (`OneReplyFailsExactly`, `SuccessAndFailureReplyTwice`).
* *A crash leaves the row unacked and it is redelivered* (`src/core/central_dispatcher.py:8-11`).
  It is redelivered, but the restart sweep has marked the task failed, so it is only acked and
  never executed again (`RestartAcksEveryRow`, `RestartEndsEveryTask`); and not even acked if its
  server id cannot be looked up.
* *A closed socket is not connected.* An entry outlives its socket exactly when the register
  acknowledgement is not sent, or when a socket registers again under another id or none
  (`StaleEntriesExactly`); a forward can then wait on it (`ForwardWaitsOnShutSocket`). The
  acknowledgement is not sent when the socket has closed, or when storing the server raises after
  its entry is set, as on a register frame with `"total_quota": "four"` or `"name": []`
  (`src/core/ws_server.py:200-208`); both are the step `RegisterAckFails`.
* *Dependents of a failed task are skipped.* Only if the failed reply was collected in time, that
  is before the wave of the direct dependent. After a wave that timed out it can come too late
  (`SkippedExactlyWhenFailedInTime`, `LateFailureIsMissed`).
* *One task row per subtask.* The idempotency key is parent and goal, so two subtasks with one
  goal share a row (`OneRowEachIffGoalsDiffer`).
* *The two sorters.* `_build_waves` drops self references; `get_execution_order` calls them
  cycles (`SortersAgree`). Both drop unknown references; `get_ready_steps` waits for them
  for ever (`RoundsFinish`).

## Model

| member | source | states |
|---|---|---|
| Waves.BuildWaves | src/core/agents/scheduling_agent.py:276-305 | raises exactly when the graph of known, non-self dependencies has a cycle, and then reports exactly the subtasks on a cycle or depending on one; otherwise wave k lists exactly the nodes of layer k, once each |
| Waves.Ready | src/core/agents/scheduling_agent.py:297 | the ready list, whatever order the set yields: each remaining node whose dependencies are all placed, once |
| Waves.Stuck | src/core/agents/scheduling_agent.py:298-301 | nothing ready while something remains means there is a cycle, all cycles lie in what remains, and what remains is exactly what is on a cycle or depends on one |
| Waves.WaveNumberIsLongestChain | src/core/agents/scheduling_agent.py:279-304 | the wave number of a subtask is the length of its longest dependency chain, and no valid layering puts it lower |
| Waves.WavesAreDetermined | src/core/agents/scheduling_agent.py:296-305 | any two results have equally many waves with the same members, so set iteration order does not matter |
| Graphs.LayersDecideCycles | src/core/agents/scheduling_agent.py:292-305 | peeling layers places every node if and only if no walk along dependencies closes a cycle |
| Graphs.LayerIsLongestChain | src/core/agents/scheduling_agent.py:279-304 | a node is in layer k if and only if its longest chain has k edges |
| Flow.Traversal.Visit | src/scenarios/flow_definition.py:55-67 | `in_progress` is the current path; a raise comes with a cycle through the reported step; otherwise the step is visited and the result stays topologically ordered |
| Flow.FlowDefinition.GetExecutionOrder | src/scenarios/flow_definition.py:45-72 | raises exactly when the known dependencies, self references included, have a cycle, at a step on one; otherwise every step once, each after its known dependencies |
| Flow.FlowDefinition.GetReadySteps | src/scenarios/flow_definition.py:74-82 | the steps not completed whose listed dependencies, known or not, are all completed, once each |
| Flow.FlowDefinition.AddStep | src/scenarios/flow_definition.py:40-43 | adds or replaces the step, keeping dictionary order |
| Flow.TopologicalMeansAcyclic | src/scenarios/flow_definition.py:45-72 | a complete order with dependencies first exists only without cycles |
| Agreement.SortersAgree | src/scenarios/flow_definition.py:45-72 | `get_execution_order` raises if and only if `_build_waves` does or some step lists itself |
| Agreement.RoundsAreWaves | src/scenarios/flow_definition.py:74-82 | with known, non-self references only, completing all ready steps again and again reproduces the waves, until every step is done |
| Agreement.RoundsFinish | src/scenarios/flow_definition.py:74-82 | that iteration completes every step if and only if every reference is known and there is no cycle |
| Failures.PropagationFindsStruck | src/core/agents/scheduling_agent.py:330-354 | one pass over the later waves, from the failed tasks and the skipped ones of earlier waves, finds exactly the later tasks that are hit or depend on a hit one |
| Failures.PropagationIsReachability | src/core/agents/scheduling_agent.py:330-354 | if the failed set holds its dependents among earlier waves, the one pass finds all transitive dependents |
| Failures.AffectedStep | src/core/agents/scheduling_agent.py:340-342 | a node is a transitive dependent of a failed one if and only if a direct dependency failed or is one itself |
| Scheduling.SchedulingAgent.PropagateFailure | src/core/agents/scheduling_agent.py:330-354 | one pass finds and marks failed exactly the subtasks that reach a failed one through later waves; nothing else changes |
| Scheduling.SchedulingAgent.PropagateIntoWave | src/core/agents/scheduling_agent.py:338-353 | extends that set by exactly the affected members of one wave |
| Scheduling.InjectUpstream | src/core/agents/scheduling_agent.py:307-328 | no-op without dependencies; otherwise one result for each answered dependency, and the outputs of the answered ones in the order of the list: the output of each stands at the number of answered ones before it |
| Scheduling.SchedulingAgent.PrepareWave | src/core/agents/scheduling_agent.py:118-148 | the members of a wave with a failed predecessor are skipped and marked failed, no other state changes; each of the others gets one message, in the order of the wave: the context associated with it, role and server included, with its predecessors' results, and their outputs in list order, added, which can be encoded if and only if that context and the added names and results can |
| Scheduling.SchedulingAgent.AbsorbReplies | src/core/agents/scheduling_agent.py:160-163 | the last reply to a task is the one that counts, tasks without a reply keep what they had, and exactly the tasks of unsuccessful replies become failed |
| Replies.AbsorbedAnswers | src/core/agents/scheduling_agent.py:160-161 | exactly the replied tasks gain a result, the others keep theirs |
| Scheduling.SchedulingAgent.DispatchWave | src/core/agents/scheduling_agent.py:118-155 | the first half of an iteration keeps the run invariant and writes exactly the new messages |
| Scheduling.SchedulingAgent.CollectAndPropagate | src/core/agents/scheduling_agent.py:157-168 | the second half, also with replies left over from a wave that timed out: replies absorbed, and the marked tasks are again exactly the struck ones |
| Scheduling.SchedulingAgent.RunOneWave | src/core/agents/scheduling_agent.py:112-168 | an iteration keeps the run invariant |
| Scheduling.SchedulingAgent.RunWaves | src/core/agents/scheduling_agent.py:101-168 | a whole run, cut off by the deadline at any wave and with replies that may be late: what was sent, skipped, marked failed, told and asked for, exactly |
| RunSafety.SkippedExactlyWhenFailedInTime | src/core/agents/scheduling_agent.py:118-168 | with any replies, a subtask of a reached wave is skipped if and only if it is, or depends on, a subtask with a direct dependency whose failed reply was collected before its wave; and dispatched if and only if not |
| RunSafety.MarkedExactlyWhenFailedInTime | src/core/agents/scheduling_agent.py:127-168 | the same for the tasks marked failed, in reached and unreached waves |
| RunSafety.OnTimeIsInTime | src/core/agents/scheduling_agent.py:157-168 | when every collection holds replies to its own wave only, a predecessor failed in time if and only if one failed |
| RunSafety.SkippedExactlyWhenPredecessorFailed | src/core/agents/scheduling_agent.py:118-168 | then a subtask of a reached wave is skipped if and only if some transitive predecessor got a failed reply, and dispatched if and only if none did |
| RunSafety.MarkedExactlyWhenPredecessorFailed | src/core/agents/scheduling_agent.py:127-168 | then, reached or not, a subtask is marked failed if and only if some transitive predecessor got a failed reply |
| RunSafety.LateFailureIsMissed | src/core/agents/scheduling_agent.py:157-163 | without that condition it fails: after a timed-out wave, a task whose only predecessor failed is dispatched |
| RunSafety.RunIntoLateFailure | src/core/agents/scheduling_agent.py:101-168 | the run of the wave loop in which that happens |
| RunSafety.DispatchedOnceOrSkipped | src/core/agents/scheduling_agent.py:110-168 | with any replies, no task is dispatched twice, none is both dispatched and skipped |
| RunSafety.DependentsAreTold | src/core/agents/scheduling_agent.py:142-147 | with any replies, every known dependency of a sent subtask was sent before, and the message carries a result of it if and only if a reply to it was collected before the subtask's wave: the result of the last such reply |
| RunSafety.DependentsSeeEveryResult | src/core/agents/scheduling_agent.py:142-147 | with replies on time and every sent task answered, every sent subtask carries for each known dependency the result of the last reply to it |
| RunSafety.OutputsInListOrder | src/core/agents/scheduling_agent.py:319-328 | in a run with any replies, the outputs in a message are those of the last replies to the subtask's answered dependencies, in the order of its dependency list |
| RunSafety.TaskCreator.CreateSubtask | src/core/agents/scheduling_agent.py:452-490 | finds the row of its parent and goal or creates one, and touches no other row |
| RunSafety.TaskCreator.CreateAll | src/core/agents/scheduling_agent.py:86-97 | every subtask is mapped to the row of its parent and goal; existing rows keep their state, new ones are pending |
| RunSafety.OneRowEachIffGoalsDiffer | src/core/agents/scheduling_agent.py:452-461 | subtasks get a row each if and only if their goals differ |
| MessageQueue.MessageQueueService.DispatchSubtasks | src/core/message_queue.py:47-75 | one unacked dispatch row, in order and after the existing rows, for each message that can be encoded as UTF-8, and none for the others |
| MessageQueue.AllWritten | src/core/message_queue.py:57-75 | every message of a wave gets its row if and only if all of them can be encoded |
| MessageQueue.EveryPartDecides | src/core/message_queue.py:57-75 | a message gets its row if and only if its server, role and remaining context and every added name, result and output can be encoded |
| MessageQueue.OddRoleIsNotWritten | src/core/message_queue.py:65-75 | a message whose role has an unpaired surrogate gets no row |
| MessageQueue.PendingIsGapFree | src/database/repositories/message_repository.py:59-71 | a limited query after an offset skips no readable reply of the scenario, and a short answer reaches the end of the table |
| MessageQueue.MessageQueueService.PollReplies | src/core/message_queue.py:98-114 | one poll returns exactly the readable replies between the old offset and the new one; fewer than asked for only if no reply is left after it or it passed a reply row that cannot be read; other offsets stay |
| MessageQueue.MessageQueueService.CollectReplies | src/core/message_queue.py:79-119 | the same over many polls while rows are appended and acked: never more than expected; fewer only at the deadline, and only if the last table holds no further reply or a reply row that cannot be read was passed; the offset never decreases |
| MessageQueue.MessageQueueService.CollectWaves | src/core/message_queue.py:79-119 | successive calls together return a gap-free prefix of the scenario's readable replies in id order, each reply once; after a call that came back short, every reply of its last table has been returned, if all reply rows in it can be read |
| Results.OrdinaryIsWritten | src/core/central_dispatcher.py:46-71 | an object without unpaired surrogates whose error and role can be bound is always stored and replied, and kills no forward |
| Results.NotAnObject | src/core/ws_server.py:147-153 | a value that is not an object is never stored or replied; it kills the forward if and only if it is truthy |
| Results.OddRole | src/core/ws_server.py:150-153 | a success whose role is a list is replied but not stored |
| Results.OddError | src/core/central_dispatcher.py:54 | a failure whose error is a list is replied but not stored |
| Results.OddOutput | src/core/central_dispatcher.py:48-71 | a success with an unpaired surrogate is neither stored nor replied |
| Results.RoleDecides | src/core/ws_server.py:150-154 | a success that can be encoded is always replied, and stored if and only if its role can be bound: the context's, or the result's own if it comes from a server and has one |
| Store.SameKey | src/core/ws_server.py:67-71 | two truthy, hashable server ids are the same key if and only if they are the same text or equal numbers; the key of a text is the text |
| WsServer.WSDispatcher.Defer | src/core/ws_server.py:80-88 | the job is parked behind the others of its server; nothing else changes |
| WsServer.ParkedInOrder | src/core/ws_server.py:80-88 | jobs leave a parking list in the order in which they were parked, and other lists stay |
| WsServer.WSDispatcher.TakeSlot | src/core/ws_server.py:194-200 | the socket takes the slot of its server id: from then on no other socket's disconnect changes the registry, and its own frees exactly this slot; a different earlier owner is kicked |
| WsServer.WSDispatcher.DrainDeferred | src/core/ws_server.py:280-286 | everything parked for the server, and only that, is forwarded in order |
| WsServer.WSDispatcher.BeginForward | src/core/ws_server.py:113-125 | tracked and handed its socket, or untracked and parked when the server is gone |
| WsServer.WSDispatcher.AbandonForward | src/core/ws_server.py:135-142 | untracked and parked |
| WsServer.WSDispatcher.OnTaskResult | src/core/ws_server.py:243-260 | resolves the pending future once; a late result only drops the server entry |
| WsServer.WSDispatcher.OnDisconnect | src/core/ws_server.py:262-275 | a socket that still owns its slot clears it and fails exactly the open futures of its server; any other changes nothing |
| WsServer.DisconnectFails | src/core/ws_server.py:262-275 | of that registry: every open pending future of a task forwarded to the server is failed, a done one keeps its value, and no other future changes |
| DeliveryInvariant.KeepsHeldOnce | src/core/central_dispatcher.py:204-211 | every step, with any result, keeps every task held at most once (queued, executing, forwarding, parked), and only while in flight |
| DeliveryInvariant.KeepsOwned | src/core/central_dispatcher.py:204-253 | a step keeps every task in flight held, none lost, if and only if it neither looks up a server id that is a non-empty list or object nor ends a forward on a result that is neither an object nor falsy |
| DeliveryInvariant.OneHolder | src/core/central_dispatcher.py:206-209 | no two activities hold one task, and every held task is in flight |
| DeliveryInvariant.KeepsPhases | src/core/central_dispatcher.py:86-104 | between the terminal check and the write of its result, a task is not terminal |
| DeliveryInvariant.KeepsSnapshot | src/core/central_dispatcher.py:179-189 | rows of a stale snapshot stay older versions of rows in the table |
| DeliveryFutures.KeepsFutures | src/core/ws_server.py:113-146 | every step keeps pending and server entries tied to the one waiting forward of their task |
| DeliveryFutures.RunKeepsInv | src/core/central_dispatcher.py:174-253 | the whole delivery invariant holds after every run, with any results and any number of crashes and restarts |
| DeliveryFutures.RunKeepsOwned | src/core/central_dispatcher.py:204-253 | over every run without these two steps, every task in flight is held exactly once |
| DeliveryFutures.LosingStrandsTask | src/core/central_dispatcher.py:245 | either of them leaves the task in flight, held by nobody, with its row and state as they were |
| DeliveryFutures.StrandedForever | src/core/central_dispatcher.py:206-209 | until the process ends such a task stays so in every run: its state and its dispatch rows never change again |
| DeliverySafety.TerminalForever | src/core/central_dispatcher.py:86-92 | over every run a terminal task stays terminal, even when a stale snapshot redelivers an acked row, and keeps its very state unless the scheduler skips it |
| DeliverySafety.FuturesResolveOnce | src/core/ws_server.py:255-260 | no step changes a future that is already done |
| DeliverySafety.WaitingForwardIsTracked | src/core/ws_server.py:113-146 | an unresolved pending future has a server entry, that server has an entry in the connections table, and one forward waits on it |
| DeliverySafety.GuardsNeverBlock | src/core/ws_server.py:134-141 | in every reachable state a result frame can be handled, a snapshot row taken, and a forward resumes exactly when its future is done |
| DeliverySafety.PopsOnlyOwnEntries | src/core/ws_server.py:138-146 | the late pops of a forward remove its own entries or none |
| DeliverySafety.AckAfterExecute | src/core/central_dispatcher.py:159-172 | over every run without a raising agent set-up or an unstorable result, no readable row of an unfinished task is acked |
| DeliverySafety.AtMostOneReply | src/core/central_dispatcher.py:34-92 | over every run without a result that can be sent but not stored: at most one reply row per task, and only for a terminal one |
| DeliverySafety.RunKeepsOrigin | src/core/central_dispatcher.py:58-71 | every reply row is readable, can be encoded, and answers an earlier readable dispatch row of its task and scenario |
| DeliveryResults.ReplyTellsState | src/core/central_dispatcher.py:34-73 | over every run without a result that can be sent but not stored: the task of a reply row is success if the result in the row has a truthy `success`, and failed otherwise |
| DeliveryResults.ReplyCarriesResult | src/core/central_dispatcher.py:76-128 | over every run, the result in a reply row was sent by a server for that very task or is what its executing agent came to |
| DeliverySafety.StuckRowIsNeverAcked | src/core/central_dispatcher.py:225-245 | in every run, with any number of crashes and restarts, a row whose server id cannot be looked up stays exactly as it is, unacked |
| DeliveryInputs.OrdinaryInputsAreSafe | src/core/central_dispatcher.py:174-253 | from the inputs alone: over every run whose results, exceptions and dispatched roles and server ids are ordinary and whose agents can be set up, no task is lost, no row acked early, no task replied twice or early |
| DeliveryLimits.AckAfterExecuteFailsExactly | src/core/central_dispatcher.py:227-233 | from a sound state, a step lets a continuation, itself without such steps, ack a row of an unfinished task if and only if it is a raising agent set-up or the finalizing of an unstorable result |
| DeliveryLimits.OneReplyFailsExactly | src/core/central_dispatcher.py:34-73 | from a sound state, a step lets a continuation, itself without such steps, reply twice or for an unfinished task if and only if it finalizes a result that can be sent but not stored |
| DeliveryLimits.UnroutableIsReachable | src/core/ws_server.py:69-71 | for every non-empty list or object as server id, a reachable state in which it has stranded a pending task |
| DeliveryLimits.KilledForwardIsReachable | src/core/ws_server.py:150 | for every value that is neither an object nor falsy, a reachable state in which it has stranded a running task |
| DeliveryLimits.FalsyResultIsAckedUnfinished | src/core/ws_server.py:246 | for every falsy value that is not an object, a reachable state in which it has left an acked row and a running task |
| DeliveryLimits.UncleanResultIsAckedUnfinished | src/core/central_dispatcher.py:48-56 | likewise for a success with an unpaired surrogate |
| DeliveryLimits.UnstoredResultRepliesTwice | src/core/central_dispatcher.py:53-71 | for every result that can be sent but not stored, a reachable state with two replies of it for one task |
| DeliveryLimits.SuccessAndFailureReplyTwice | src/core/ws_server.py:150-153 | a success whose role is a list and a failure whose error is one are such results |
| Connections.RunFollowsLatest | src/core/ws_server.py:194-200 | after every run, an entry is the most recent registrant of its id, and a most recent registrant that has not gone has its entry |
| Connections.ReplacedNeverReturns | src/core/ws_server.py:262-267 | a socket that does not own a slot never owns it again without registering, and its later disconnect changes nothing but the socket itself |
| Connections.ConnectedToLatest | src/core/ws_server.py:262-268 | over every run in which no handler forgets a slot, a server is connected exactly when its most recent registrant has not disconnected, and then to that socket |
| Connections.StaleEntriesExactly | src/core/ws_server.py:188-213 | a step lets a continuation, itself without such steps, leave a server connected to a shut socket if and only if its handler forgets a slot the socket owns |
| Connections.FailedAckLeavesStaleEntry | src/core/ws_server.py:200-213 | a register whose acknowledgement fails leaves a server connected to a closed socket |
| Connections.NoForwardWaitsOnGoneServer | src/core/ws_server.py:262-275 | over every run in which no handler forgets a slot, an unresolved pending future belongs to a server that is connected through a socket that has not shut |
| Connections.ForwardWaitsOnShutSocket | src/core/ws_server.py:160-186 | without that condition, a reachable state in which a forward waits on a server whose socket has shut |
| Dispatcher.AckHidesRow | src/database/repositories/message_repository.py:107-116 | an acked row is never found again, and the ack hides no other row |
| Dispatcher.CentralDispatcher.Ack | src/core/central_dispatcher.py:159-172 | the row is acked and the slot freed; nothing else changes |
| Dispatcher.CentralDispatcher.PollOnce | src/core/central_dispatcher.py:177-211 | one loop iteration performs exactly the take steps of delivery for the rows it read |
| Dispatcher.CentralDispatcher.FinalizeTask | src/core/central_dispatcher.py:34-73 | for an object: a truthy `success` makes a known task success if the object can be encoded and the role bound, a falsy one makes it failed if the error can be bound, and the reply row carries the object if it can be encoded; nothing for any other value |
| Dispatcher.CentralDispatcher.RunTaskLocally | src/core/central_dispatcher.py:76-128 | nothing for a terminal task or a failing set-up; otherwise the task ends as the returned object says and the reply carries this object; any other value gives a failed task and an unsuccessful reply; an exception a failed task and a reply with its message |
| Dispatcher.CentralDispatcher.DispatchLocally | src/core/central_dispatcher.py:217-233 | local execution performs exactly a run of delivery steps that ends with ack and release, whatever the agent does |
| Dispatcher.CentralDispatcher.DispatchToServer | src/core/central_dispatcher.py:225-253 | raises, with nothing done, exactly on a server id that is a list or an object; otherwise forwarded when the server is connected, parked when not; the slot and the row stay in any case |
| Dispatcher.LocalPathRuns | src/core/central_dispatcher.py:225-233 | what the delivery steps of a local execution add up to |
| Dispatcher.RemotePathRuns | src/core/ws_server.py:144-156 | once a server has sent an object: the forward ends with a reply row that carries this object, the state it tells, the object's own role before the context's, and ack and release |
| Dispatcher.PollTakesEarlyRows | src/core/central_dispatcher.py:177-211 | a poll takes the first unacked row of every task not in flight that has fewer than ten unacked rows before it |
| Dispatcher.PollIdleWhenAllHeld | src/core/central_dispatcher.py:189-211 | a poll changes nothing if and only if every row it read belongs to a task in flight |
| Dispatcher.PollMakesProgress | src/core/central_dispatcher.py:177-211 | while fewer than ten unacked rows belong to tasks in flight, a poll makes progress if there is any row to deal with |
| Dispatcher.FoundBelowLimit | src/database/repositories/message_repository.py:89-105 | the limited query returns every unacked row with fewer than that many unacked rows before it |
| Recovery.Startup.RecoverOrphansOnStartup | src/scenarios/scenario_manager.py:428-447 | running scenarios and unfinished tasks become failed, everything else stays, and the counts are exact |
| Recovery.Startup.FailAllIn | src/scenarios/scenario_manager.py:437-440 | one pass fails exactly the tasks in one state and counts them |
| Recovery.RecoveryIsCompleteAndIdempotent | src/scenarios/scenario_manager.py:415-425 | afterwards no scenario is running and no task unfinished, finished ones are unchanged, and sweeping again changes nothing |
| Recovery.SettledForever | src/core/central_dispatcher.py:86-92 | once a task is finished and nothing executes it, in every run no agent runs it and no reply for it is written |
| Recovery.RestartEndsEveryTask | src/scenarios/scenario_manager.py:418-424 | so a crash and a restart end every task for good, however often its rows are redelivered |
| Redelivery.RestartAcksEveryRow | src/core/ws_server.py:105-111 | from the state after any crash and restart, some run acks every unacked row, local or bound to a server, starting no agent, sending nothing, and writing no task or reply row, if and only if no unacked row has a server id that cannot be looked up |
| WaveBarrier.OneWave | src/core/agents/scheduling_agent.py:157-163 | with earlier waves fully collected, further replies are replies to tasks of the wave, at most one each; as many as the wave has tasks are one for each |
| WaveBarrier.EveryWaveIsABarrier | src/core/agents/scheduling_agent.py:112-163 | the same for every wave of a fresh run up to and including the first short one, by induction over the collections |
| WaveBarrier.AnsweredIsFull | src/core/message_queue.py:89-119 | nothing is left behind: if earlier collections were full and the last table of this one holds a reply to each task of its wave, it comes back full |
| WaveBarrier.CollectEveryWave | src/core/message_queue.py:89-119 | over every delivery run, crashes included, and with the collecting loop itself: as long as earlier collections came back full, one holds replies to its own wave only, at most one each; if full, one for each task; and it is full if its last poll finds a reply to each task |
| Platform.DriveKeepsWorld | src/core/central_dispatcher.py:174-253 | while a scenario runs, any delivery steps of its surroundings keep exactly its own written messages dispatched, and leave its undispatched tasks alone |
| Platform.DriveIsRun | src/core/central_dispatcher.py:174-253 | the surroundings are not held up: any run of steps they may take is taken as it is |
| EndToEnd.RunScenario | src/core/agents/scheduling_agent.py:101-168 | scheduler, queue and delivery together, with surroundings that act between any two of the scheduler's marks, rows and polls, and with any delays and time-outs: one delivery run, whose database holds exactly the rows of the sent messages that can be encoded and the failed marks, and leaves every other task as it was; a result of the wave loop for the replies really collected, each of which stands in the database and tells how its task ended; and, as long as the earlier waves got a reply for each of their rows, a wave collects replies to its own tasks only, at most one each, and one for each row if its last poll finds them |
| EndToEnd.MissingRowIsMissed | src/core/message_queue.py:72-95 | of such a run: a message that cannot be encoded leaves its task undispatched and as it was, and if the earlier waves were full, its wave collects fewer replies than it sent messages |
| EndToEnd.CleanScenarioIsWritten | src/core/agents/scheduling_agent.py:135-155 | of such a run: with clean contexts and subtask names every message gets its row |
| EndToEnd.PunctualRunIsExact | src/core/agents/scheduling_agent.py:112-168 | of such a run, when all collections but the last brought a reply for each row: skipped exactly the subtasks with a failed predecessor, dispatched exactly the others |
| Markdown.MarkdownToHtml | src/pages/scenario_dashboard/export_html.py:266-317 | the loop writes each maximal run of same-kind list lines as one list, and each other line as its block |
| Markdown.Page.CloseList | src/pages/scenario_dashboard/export_html.py:270-274 | closes the open list, if any |
| Markdown.Page.WriteLine | src/pages/scenario_dashboard/export_html.py:276-315 | after one line, the output is still a beginning of the same page |
| Markdown.ReadsBack | src/pages/scenario_dashboard/export_html.py:266-317 | round trip: the output is balanced, each item stands in a list of its own kind, and without list tags it is the lines in order |
| Markdown.PageIsDetermined | src/pages/scenario_dashboard/export_html.py:266-317 | the output is the only page that reads back as the lines and has no empty list and no list merely continued by the next |

## Left out

- Liveness across reconnects: a register can fall between the connection check and the parking, a replaced socket's futures are not failed, and ten in-flight rows at the front hide everything behind them.
- At most one remote execution: a parked task is sent again after a dropped connection, so only its finalization is unique.
- Other writers of task states: the watchdog, stopping a scenario and the cancel API write without regard to the current state.
- EndToEnd.RunScenario: says nothing about a restarted scenario, which rereads old replies because its offset is released, or about a run that a crash cuts off; and it leaves out results that can be sent but not stored, with which replies are not unique.
- WaveBarrier.CollectEveryWave: says nothing about waves after the first short one, where late replies mix in; RunSafety says what the scheduler then does.
- Dispatcher.CentralDispatcher.DispatchToServer: the remote path beyond this point is proved step by step in the delivery model, not as one method, because it waits on the event loop.
- Dispatch rows whose content is readable but is not an object with an object as context: only `dispatch_subtasks` writes such rows, and it writes objects.
- Failing database calls other than by values, and the fallback to local execution when no server subsystem is attached.
- Id repair in `_normalize_subtasks`, role association, persisted `depends_on`, agent names and durations.
- Order among concurrent workers beyond atomic steps, pool sizes, sleeps and the clock.
- Goal decomposition, LLM calls, sandboxing, heartbeats, status frames, events, server rows in the database.
- Classifying Markdown lines, HTML escaping, joining the output and the bold pass.
- Event bus, A2A queues, state machine tables, web pages and authentication.
