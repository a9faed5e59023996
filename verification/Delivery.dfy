/** Task delivery as a labelled transition system.

    Durable state: the task and message tables. Volatile state: the poller's snapshot,
    the in-flight set, the running closures and coroutines (`Activity`), and the
    server registry. A step is one atomic stretch of one thread: a database call, a
    critical section, or a stretch of the event loop between two awaits. */
module Delivery {
  import opened Wrappers
  import opened Results
  import opened Store
  import opened WsServer

  /** Where a submitted closure or a forward coroutine stands. */
  datatype Phase =
    | Queued                               // submitted to the executor
    | Ready                                // local: found not terminal, agent being set up
    | Executing                            // local: marked running, agent at work
    | Offline(server: ServerId)            // saw its server disconnected, about to park
    | Scheduled(server: ServerId)          // forward handed to the event loop
    | Sending(server: ServerId, fut: nat)  // forward awaiting its send
    | Awaiting(server: ServerId, fut: nat) // forward awaiting its future
    | Finalizing(outcome: Outcome)         // has a result, about to write the task row
    | Replying(outcome: Outcome)           // about to write the reply row
    | Acking                               // about to ack the dispatch row
    | Releasing                            // about to leave the in-flight set
  {
    predicate Forwarding() { Sending? || Awaiting? }

    /** Past the terminal check and not yet past the write of the task row. */
    predicate Live() { Ready? || Executing? || Sending? || Awaiting? || Finalizing? }

    /** Past the write of the task row. */
    predicate Late() { Replying? || Acking? || Releasing? }
  }

  datatype Activity = Activity(job: Job, phase: Phase) {
    function Task(): TaskId { job.msg.taskId }
  }

  /** The handler of one socket. `sid` is its local `server_id`. */
  datatype Socket = Open(sid: Option<ServerId>) | Registering(id: ServerId, prev: Option<ServerId>) | Shut

  datatype State = State(
    up: bool,
    messages: MessageTable,
    tasks: TaskTable,
    snapshot: seq<Record>,
    inFlight: set<TaskId>,
    acts: seq<Activity>,
    ws: Registry,
    sockets: map<SocketId, Socket>)

  datatype Event =
    // scheduling side
    | Create(task: TaskId) | Insert(row: Message) | Skip(task: TaskId)
    // poller thread
    | Poll | Take
    // executor threads
    | Route(i: nat) | Defer(i: nat) | SetupFails(i: nat) | Start(i: nat) | Finish(i: nat, run: AgentRun)
    // event loop
    | Begin(i: nat) | Sent(i: nat) | SendFails(i: nat) | Resume(i: nat)
    | TaskResult(task: TaskId, result: Value)
    | Connect(w: SocketId) | Register(w: SocketId, sid: ServerId) | RegisterNameless(w: SocketId)
    | Registered(w: SocketId) | RegisterAckFails(w: SocketId) | Close(w: SocketId)
    // the common tail of both paths
    | Finalize(i: nat) | WriteReply(i: nat) | Ack(i: nat) | Release(i: nat)
    // the platform
    | Crash | Recover

  const POLL_LIMIT: nat := 10

  predicate At(s: State, i: nat) { s.up && i < |s.acts| }

  predicate IsDispatchOf(m: Message, t: TaskId) {
    m.Dispatch? && m.parses && m.msg.taskId == t
  }

  predicate Undispatched(messages: MessageTable, t: TaskId) {
    forall k | 0 <= k < |messages| :: !IsDispatchOf(messages[k], t)
  }

  predicate Enabled(s: State, e: Event) {
    match e
    case Create(t) => s.up && t !in s.tasks
    case Insert(row) =>
      && s.up && row.Dispatch? && !row.acked
      && (row.parses ==> row.msg.taskId in s.tasks && CleanContext(row.msg.context))
    case Skip(t) => s.up && t in s.tasks && Undispatched(s.messages, t)
    case Poll => s.up && s.snapshot == []
    case Take => s.up && s.snapshot != [] && s.snapshot[0].row.Dispatch?
    case Route(i) => At(s, i) && s.acts[i].phase.Queued?
    case Defer(i) => At(s, i) && s.acts[i].phase.Offline?
    case SetupFails(i) => At(s, i) && s.acts[i].phase.Ready?
    case Start(i) => At(s, i) && s.acts[i].phase.Ready?
    case Finish(i, _) => At(s, i) && s.acts[i].phase.Executing?
    case Begin(i) => At(s, i) && s.acts[i].phase.Scheduled?
    case Sent(i) => At(s, i) && s.acts[i].phase.Sending?
    case SendFails(i) => At(s, i) && s.acts[i].phase.Sending?
    case Resume(i) =>
      && At(s, i) && s.acts[i].phase.Awaiting? && s.acts[i].phase.fut < |s.ws.futures|
      && !s.ws.futures[s.acts[i].phase.fut].Unresolved?
    case TaskResult(_, _) => s.up && WellFormed(s.ws)
    case Connect(w) => s.up && w !in s.sockets
    case Register(w, sid) => s.up && w in s.sockets && s.sockets[w].Open? && sid.Named()
    case RegisterNameless(w) => s.up && w in s.sockets && s.sockets[w].Open?
    case Registered(w) => s.up && w in s.sockets && s.sockets[w].Registering?
    case RegisterAckFails(w) => s.up && w in s.sockets && s.sockets[w].Registering?
    case Close(w) => s.up && w in s.sockets && s.sockets[w].Open?
    case Finalize(i) => At(s, i) && s.acts[i].phase.Finalizing?
    case WriteReply(i) => At(s, i) && s.acts[i].phase.Replying?
    case Ack(i) => At(s, i) && s.acts[i].phase.Acking?
    case Release(i) => At(s, i) && s.acts[i].phase.Releasing?
    case Crash => s.up
    case Recover => !s.up
  }

  predicate IsTerminal(tasks: TaskTable, t: TaskId) {
    t in tasks && tasks[t].Terminal()
  }

  // ---- effects on the activities -----------------------------------------------------------

  function Moved(s: State, i: nat, phase: Phase): State
    requires i < |s.acts|
  {
    s.(acts := s.acts[i := s.acts[i].(phase := phase)])
  }

  function Removed(s: State, i: nat): State
    requires i < |s.acts|
  {
    s.(acts := s.acts[..i] + s.acts[i + 1..])
  }

  /** The activity parks its job for the server and ends. */
  function ParkedAway(s: State, i: nat, sid: ServerId): State
    requires i < |s.acts|
  {
    Removed(s, i).(ws := Park(s.ws, sid, s.acts[i].job))
  }

  // ---- poller --------------------------------------------------------------------------------

  /** One record of the snapshot: the guard, and the hand-over to the executor. */
  function TakeStep(s: State): State
    requires s.snapshot != [] && s.snapshot[0].row.Dispatch?
  {
    var rec := s.snapshot[0];
    var rest := s.(snapshot := s.snapshot[1..]);
    if !rec.row.parses then rest.(messages := AckRow(s.messages, rec.id))
    else if rec.row.msg.taskId in s.inFlight then rest
    else rest.(inFlight := s.inFlight + {rec.row.msg.taskId},
               acts := s.acts + [Activity(Job(rec.row.scenario, rec.row.msg, rec.id), Queued)])
  }

  // ---- executor --------------------------------------------------------------------------------

  /** `_dispatch_one` up to its first effect. Looking up a list or an object raises, outside of
      any handler: the closure ends, and neither acks nor frees the slot. */
  function RouteStep(s: State, i: nat): State
    requires i < |s.acts|
  {
    var server := s.acts[i].job.msg.context.server;
    if !Truthy(server) then Moved(s, i, if IsTerminal(s.tasks, s.acts[i].Task()) then Acking else Ready)
    else if !Hashable(server) then Removed(s, i)
    else var sid := KeyOf(server);
         Moved(s, i, if sid in s.ws.connections then Scheduled(sid) else Offline(sid))
  }

  // ---- event loop ---------------------------------------------------------------------------------

  /** `forward_task` up to its first await. */
  function BeginStep(s: State, i: nat): State
    requires i < |s.acts| && s.acts[i].phase.Scheduled?
  {
    var t, sid := s.acts[i].Task(), s.acts[i].phase.server;
    if IsTerminal(s.tasks, t) then Moved(s, i, Acking)
    else if sid !in s.ws.connections then
      var tracked := s.(ws := Forgotten(Tracked(s.ws, t, sid), t));
      ParkedAway(tracked, i, sid)
    else Moved(s, i, Sending(sid, |s.ws.futures|)).(ws := Tracked(s.ws, t, sid), tasks := Mark(s.tasks, t, Running))
  }

  /** The except branch of `forward_task`. */
  function AbandonStep(s: State, i: nat): State
    requires i < |s.acts| && s.acts[i].phase.Forwarding()
  {
    ParkedAway(s.(ws := Forgotten(s.ws, s.acts[i].Task())), i, s.acts[i].phase.server)
  }

  /** `forward_task` after its future is done. The pops come first; a result that is neither
      an object nor falsy then ends the coroutine, which neither acks nor frees the slot. */
  function ResumeStep(s: State, i: nat): State
    requires i < |s.acts| && s.acts[i].phase.Awaiting? && s.acts[i].phase.fut < |s.ws.futures|
    requires !s.ws.futures[s.acts[i].phase.fut].Unresolved?
  {
    match s.ws.futures[s.acts[i].phase.fut]
    case Resolved(result) =>
      var popped := s.(ws := Forgotten(s.ws, s.acts[i].Task()));
      if KillsForward(result) then Removed(popped, i)
      else Moved(popped, i, Finalizing(RemoteOutcome(result, s.acts[i].job.msg.context.role)))
    case Lost => AbandonStep(s, i)
  }

  /** `_drain_deferred` for the id a socket has just registered. */
  function RegisteredStep(s: State, w: SocketId): State
    requires w in s.sockets && s.sockets[w].Registering?
  {
    var id := s.sockets[w].id;
    var jobs := Parked(s.ws, id);
    s.(sockets := s.sockets[w := Open(Some(id))],
       ws := Drained(s.ws, id),
       acts := s.acts + seq(|jobs|, k requires 0 <= k < |jobs| => Activity(jobs[k], Scheduled(id))))
  }

  /** The `finally` of a handler whose local `server_id` is `held`. */
  function HandlerExit(s: State, w: SocketId, held: Option<ServerId>): State {
    s.(sockets := s.sockets[w := Shut],
       ws := if held.Some? then Disconnected(s.ws, held.value, w) else s.ws)
  }

  // ---- tail -------------------------------------------------------------------------------------------

  /** `finalize_task`, task half. A failing write is logged and ignored. */
  function Finalized(tasks: TaskTable, t: TaskId, outcome: Outcome): TaskTable {
    if !outcome.Storable() then tasks else Mark(tasks, t, if outcome.Success() then Success else Failed)
  }

  /** `finalize_task`, reply half. */
  function WithReply(messages: MessageTable, scenario: ScenarioId, t: TaskId, outcome: Outcome): MessageTable {
    if !outcome.Encodable() then messages else messages + [Reply(scenario, t, outcome.result, true)]
  }

  // ---- restart -------------------------------------------------------------------------------------------

  /** `recover_orphans_on_startup`, task half. */
  function Recovered(tasks: TaskTable): TaskTable {
    map t | t in tasks :: if tasks[t].Terminal() then tasks[t] else Failed
  }

  function Apply(s: State, e: Event): State
    requires Enabled(s, e)
  {
    match e
    case Create(t) => s.(tasks := s.tasks[t := Pending])
    case Insert(row) => s.(messages := s.messages + [row])
    case Skip(t) => s.(tasks := Mark(s.tasks, t, Failed))
    case Poll => s.(snapshot := FindUnacked(s.messages, 0, POLL_LIMIT))
    case Take => TakeStep(s)
    case Route(i) => RouteStep(s, i)
    case Defer(i) => ParkedAway(s, i, s.acts[i].phase.server)
    case SetupFails(i) => Moved(s, i, Acking)
    case Start(i) => Moved(s, i, Executing).(tasks := Mark(s.tasks, s.acts[i].Task(), Running))
    case Finish(i, run) => Moved(s, i, Finalizing(LocalOutcome(run, s.acts[i].job.msg.context.role)))
    case Begin(i) => BeginStep(s, i)
    case Sent(i) => Moved(s, i, Awaiting(s.acts[i].phase.server, s.acts[i].phase.fut))
    case SendFails(i) => AbandonStep(s, i)
    case Resume(i) => ResumeStep(s, i)
    case TaskResult(t, result) => s.(ws := Answered(s.ws, t, result))
    case Connect(w) => s.(sockets := s.sockets[w := Open(None)])
    case Register(w, sid) =>
      s.(ws := s.ws.(connections := s.ws.connections[sid := w]),
         sockets := s.sockets[w := Registering(sid, s.sockets[w].sid)])
    case RegisterNameless(w) => s.(sockets := s.sockets[w := Open(None)])
    case Registered(w) => RegisteredStep(s, w)
    case RegisterAckFails(w) => HandlerExit(s, w, s.sockets[w].prev)
    case Close(w) => HandlerExit(s, w, s.sockets[w].sid)
    case Finalize(i) =>
      var outcome := s.acts[i].phase.outcome;
      Moved(s, i, Replying(outcome)).(tasks := Finalized(s.tasks, s.acts[i].Task(), outcome))
    case WriteReply(i) =>
      Moved(s, i, Acking).(messages :=
        WithReply(s.messages, s.acts[i].job.scenario, s.acts[i].Task(), s.acts[i].phase.outcome))
    case Ack(i) => Moved(s, i, Releasing).(messages := AckRow(s.messages, s.acts[i].job.dispatchId))
    case Release(i) => Removed(s, i).(inFlight := s.inFlight - {s.acts[i].Task()})
    case Crash => State(false, s.messages, s.tasks, [], {}, [], EMPTY, map[])
    case Recover => s.(up := true, tasks := Recovered(s.tasks))
  }

  const INITIAL := State(true, [], map[], [], {}, [], EMPTY, map[])

  // ---- runs --------------------------------------------------------------------------------------------------

  ghost predicate Run(s: State, es: seq<Event>)
    decreases |es|
  {
    es == [] || (Enabled(s, es[0]) && Run(Apply(s, es[0]), es[1..]))
  }

  ghost function After(s: State, es: seq<Event>): State
    requires Run(s, es)
    decreases |es|
  {
    if es == [] then s else After(Apply(s, es[0]), es[1..])
  }

  ghost predicate Reachable(s: State) {
    exists es :: Run(INITIAL, es) && After(INITIAL, es) == s
  }

  lemma RunCons(s: State, e: Event, es: seq<Event>)
    requires Enabled(s, e) && Run(Apply(s, e), es)
    ensures Run(s, [e] + es) && After(s, [e] + es) == After(Apply(s, e), es)
  {
    assert ([e] + es)[1..] == es;
  }

  lemma {:induction false} RunConcat(s: State, es: seq<Event>, more: seq<Event>)
    requires Run(s, es) && Run(After(s, es), more)
    ensures Run(s, es + more) && After(s, es + more) == After(After(s, es), more)
    decreases |es|
  {
    if es == [] {
      assert es + more == more;
    } else {
      RunConcat(Apply(s, es[0]), es[1..], more);
      assert (es + more)[1..] == es[1..] + more;
    }
  }

  lemma RunSnoc(s: State, es: seq<Event>, e: Event)
    requires Run(s, es) && Enabled(After(s, es), e)
    ensures Run(s, es + [e]) && After(s, es + [e]) == Apply(After(s, es), e)
  {
    RunCons(After(s, es), e, []);
    assert [e] + [] == [e];
    RunConcat(s, es, [e]);
  }

  lemma {:induction false} SplitRun(s: State, es: seq<Event>, n: nat)
    requires Run(s, es) && n <= |es|
    ensures Run(s, es[..n]) && Run(After(s, es[..n]), es[n..])
    ensures After(After(s, es[..n]), es[n..]) == After(s, es)
    decreases n
  {
    if n == 0 {
      assert es[0..] == es;
    } else {
      SplitRun(Apply(s, es[0]), es[1..], n - 1);
      assert es[..n][1..] == es[1..][..n - 1] && es[n..] == es[1..][n - 1..];
    }
  }

  lemma InitiallyReachable()
    ensures Reachable(INITIAL)
  {
    assert Run(INITIAL, []);
  }

  lemma ReachStep(s: State, e: Event) returns (s': State)
    requires Reachable(s) && Enabled(s, e)
    ensures Reachable(s') && s' == Apply(s, e)
  {
    var es :| Run(INITIAL, es) && After(INITIAL, es) == s;
    RunSnoc(INITIAL, es, e);
    s' := Apply(s, e);
  }
}
