/** Futures, the pending table and the server table stay consistent in every step. */
module DeliveryFutures {
  import opened Results
  import opened Store
  import opened WsServer
  import opened Delivery
  import opened DeliveryInvariant

  ghost predicate OneEach(acts: seq<Activity>) {
    forall i, j | 0 <= i < j < |acts| :: acts[i].Task() != acts[j].Task()
  }

  ghost predicate NotTracked(ws: Registry, t: TaskId) {
    t !in ws.pending && t !in ws.taskServer
  }

  /** `later` differs from `ws` at most in the entries of task t and in new futures. */
  ghost predicate OnlyTouches(ws: Registry, later: Registry, t: TaskId) {
    && later.connections == ws.connections
    && ws.futures <= later.futures
    && (forall u | u != t :: (u in later.pending <==> u in ws.pending)
                          && (u in later.taskServer <==> u in ws.taskServer))
    && (forall u | u != t && u in ws.pending :: later.pending[u] == ws.pending[u])
    && (forall u | u != t && u in ws.taskServer :: later.taskServer[u] == ws.taskServer[u])
  }

  lemma OtherForwardOk(a: Activity, ws: Registry, later: Registry, t: TaskId)
    requires ForwardOk(a, ws) && a.Task() != t && OnlyTouches(ws, later, t)
    ensures ForwardOk(a, later)
  {
  }

  lemma StillHeld(acts: seq<Activity>, i: nat, t: TaskId)
    requires i < |acts| && t in ActTasks(acts) && t != acts[i].Task()
    ensures t in ActTasks(acts[..i] + acts[i + 1..])
  {
    var rest := acts[..i] + acts[i + 1..];
    var k :| 0 <= k < |ActTasks(acts)| && ActTasks(acts)[k] == t;
    assert ActTasks(rest)[if k < i then k else k - 1] == t;
  }

  /** An activity leaves, and its task has no entries any more. */
  lemma RemovedFutures(acts: seq<Activity>, i: nat, ws: Registry, later: Registry)
    requires i < |acts| && FuturesOk(acts, ws) && OneEach(acts)
    requires OnlyTouches(ws, later, acts[i].Task()) && NotTracked(later, acts[i].Task())
    ensures FuturesOk(acts[..i] + acts[i + 1..], later)
  {
    var rest, t := acts[..i] + acts[i + 1..], acts[i].Task();
    forall k | 0 <= k < |rest| ensures ForwardOk(rest[k], later) {
      OtherForwardOk(acts[if k < i then k else k + 1], ws, later, t);
    }
    forall u | u in later.pending ensures u in ActTasks(rest) { StillHeld(acts, i, u); }
    forall u | u in later.taskServer ensures u in ActTasks(rest) { StillHeld(acts, i, u); }
  }

  /** An activity moves, and the registry changes at most for its own task. */
  lemma MovedFutures(s: State, i: nat, phase: Phase, later: Registry)
    requires i < |s.acts| && FuturesOk(s.acts, s.ws) && OneEach(s.acts)
    requires OnlyTouches(s.ws, later, s.acts[i].Task())
    requires ForwardOk(s.acts[i].(phase := phase), later)
    requires phase.Forwarding() ==>
               phase.fut >= |s.ws.futures| || (s.acts[i].phase.Forwarding() && phase.fut == s.acts[i].phase.fut)
    ensures FuturesOk(Moved(s, i, phase).acts, later)
  {
    var acts := Moved(s, i, phase).acts;
    SameTasks(s, i, phase);
    forall k | 0 <= k < |acts| ensures ForwardOk(acts[k], later) {
      if k != i {
        OtherForwardOk(s.acts[k], s.ws, later, s.acts[i].Task());
      }
    }
    assert s.acts[i].Task() == acts[i].Task() == ActTasks(acts)[i];
    forall k, j | 0 <= k < j < |acts| && acts[k].phase.Forwarding() && acts[j].phase.Forwarding()
      ensures acts[k].phase.fut != acts[j].phase.fut
    {
      assert k != i ==> acts[k] == s.acts[k];
      assert j != i ==> acts[j] == s.acts[j];
      assert k != i ==> ForwardOk(s.acts[k], s.ws);
      assert j != i ==> ForwardOk(s.acts[j], s.ws);
    }
  }

  /** New activities for tasks without entries. */
  lemma AddedFutures(acts: seq<Activity>, more: seq<Activity>, ws: Registry)
    requires FuturesOk(acts, ws)
    requires forall k | 0 <= k < |more| :: !more[k].phase.Forwarding() && NotTracked(ws, more[k].Task())
    ensures FuturesOk(acts + more, ws)
  {
    assert ActTasks(acts + more) == ActTasks(acts) + ActTasks(more);
    forall k | 0 <= k < |acts + more| ensures ForwardOk((acts + more)[k], ws) {
      if k < |acts| {
        assert ForwardOk(acts[k], ws);
      }
    }
  }

  /** The pending future of another task is not this activity's future. */
  lemma OwnFuture(acts: seq<Activity>, ws: Registry, t: TaskId, k: nat)
    requires FuturesOk(acts, ws) && t in ws.pending
    requires k < |acts| && acts[k].Task() != t && acts[k].phase.Forwarding()
    ensures ws.pending[t] != acts[k].phase.fut
  {
    var j :| 0 <= j < |ActTasks(acts)| && ActTasks(acts)[j] == t;
    assert ForwardOk(acts[j], ws);
  }

  /** A result changes the entries of one task and resolves that task's future. */
  lemma AnsweredFutures(acts: seq<Activity>, ws: Registry, t: TaskId, result: Value)
    requires FuturesOk(acts, ws) && WellFormed(ws)
    ensures FuturesOk(acts, Answered(ws, t, result))
  {
    var later := Answered(ws, t, result);
    forall k | 0 <= k < |acts| ensures ForwardOk(acts[k], later) {
      assert ForwardOk(acts[k], ws);
      if t in ws.pending && acts[k].Task() != t && acts[k].phase.Forwarding() {
        OwnFuture(acts, ws, t, k);
      }
    }
  }

  /** A disconnect fails every unresolved future whose server entry names the server. */
  lemma DisconnectedFutures(acts: seq<Activity>, ws: Registry, sid: ServerId, w: SocketId)
    requires FuturesOk(acts, ws)
    ensures FuturesOk(acts, Disconnected(ws, sid, w))
  {
    var later := Disconnected(ws, sid, w);
    forall k | 0 <= k < |acts| ensures ForwardOk(acts[k], later) {
      var a := acts[k];
      assert ForwardOk(a, ws);
      if a.phase.Forwarding() && Owns(ws, sid, w) && ws.futures[a.phase.fut].Unresolved? && a.phase.server == sid {
        assert a.Task() in ws.taskServer && ws.pending[a.Task()] in FuturesOf(ws, sid);
      }
    }
  }

  lemma ConnectedFutures(acts: seq<Activity>, ws: Registry, sid: ServerId, w: SocketId)
    requires FuturesOk(acts, ws)
    ensures FuturesOk(acts, ws.(connections := ws.connections[sid := w]))
  {
    forall k | 0 <= k < |acts| ensures ForwardOk(acts[k], ws.(connections := ws.connections[sid := w])) {
      assert ForwardOk(acts[k], ws);
    }
  }

  // ---- step by step --------------------------------------------------------------------------

  lemma TrackedIsHeld(s: State, t: TaskId)
    requires HeldOnce(s) && FuturesOk(s.acts, s.ws)
    ensures t in s.ws.pending || t in s.ws.taskServer ==> t in s.inFlight && t in ActTasks(s.acts)
  {
    OneHolder(s);
    if t in ActTasks(s.acts) {
      var k :| 0 <= k < |ActTasks(s.acts)| && ActTasks(s.acts)[k] == t;
      assert s.acts[k].Task() in s.inFlight;
    }
  }

  /** A parked task has no activity, hence no entries. */
  lemma ParkedIsNotHeld(s: State, sid: ServerId, k: nat)
    requires HeldOnce(s) && sid in s.ws.deferred && k < |s.ws.deferred[sid]|
    ensures s.ws.deferred[sid][k].msg.taskId !in ActTasks(s.acts)
  {
    var t, jobs := s.ws.deferred[sid][k].msg.taskId, s.ws.deferred[sid];
    ParkedSplit(s.ws.deferred, sid);
    assert JobTasks(jobs)[k] in multiset(JobTasks(jobs));
    assert ParkedTasks(s.ws.deferred)[t] >= 1;
    assert HeldTasks(s)[t] <= multiset(s.inFlight)[t] <= 1;
    assert multiset(ActTasks(s.acts))[t] == 0;
  }

  lemma TakenFutures(s: State)
    requires s.snapshot != [] && s.snapshot[0].row.Dispatch? && HeldOnce(s) && FuturesOk(s.acts, s.ws)
    ensures FuturesOk(TakeStep(s).acts, s.ws)
  {
    var rec := s.snapshot[0];
    if rec.row.parses && rec.row.msg.taskId !in s.inFlight {
      TrackedIsHeld(s, rec.row.msg.taskId);
      AddedFutures(s.acts, [Activity(Job(rec.row.scenario, rec.row.msg, rec.id), Queued)], s.ws);
    }
  }

  lemma SameEntries(acts: seq<Activity>, ws: Registry, later: Registry)
    requires FuturesOk(acts, ws) && later == ws.(deferred := later.deferred)
    ensures FuturesOk(acts, later)
  {
    forall k | 0 <= k < |acts| ensures ForwardOk(acts[k], later) {
      assert ForwardOk(acts[k], ws);
    }
  }

  lemma DrainedFutures(s: State, w: SocketId)
    requires w in s.sockets && s.sockets[w].Registering? && HeldOnce(s) && FuturesOk(s.acts, s.ws)
    ensures FuturesOk(RegisteredStep(s, w).acts, RegisteredStep(s, w).ws)
  {
    var id := s.sockets[w].id;
    var jobs := Parked(s.ws, id);
    var more := seq(|jobs|, k requires 0 <= k < |jobs| => Activity(jobs[k], Scheduled(id)));
    forall k | 0 <= k < |more| ensures NotTracked(s.ws, more[k].Task()) {
      ParkedIsNotHeld(s, id, k);
      TrackedIsHeld(s, more[k].Task());
    }
    AddedFutures(s.acts, more, s.ws);
    SameEntries(s.acts + more, s.ws, Drained(s.ws, id));
  }

  /** The leaving activity takes its own entries with it. */
  lemma RemovalShape(s: State, e: Event)
    requires Enabled(s, e) && Removes(s, e) && ForwardOk(s.acts[e.i], s.ws)
    ensures Apply(s, e).acts == s.acts[..e.i] + s.acts[e.i + 1..]
    ensures OnlyTouches(s.ws, Apply(s, e).ws, s.acts[e.i].Task())
    ensures NotTracked(Apply(s, e).ws, s.acts[e.i].Task())
  {
    if LosesTask(s, e) {
      LostShape(s, e);
    }
  }

  lemma KeepsFuturesRemoving(s: State, e: Event)
    requires Enabled(s, e) && Inv(s) && Removes(s, e)
    ensures FuturesOk(Apply(s, e).acts, Apply(s, e).ws)
  {
    OneHolder(s);
    assert ForwardOk(s.acts[e.i], s.ws);
    RemovalShape(s, e);
    RemovedFutures(s.acts, e.i, s.ws, Apply(s, e).ws);
  }

  /** Between the terminal check and the send, the task gets a fresh future. */
  lemma BegunFutures(s: State, i: nat)
    requires Enabled(s, Begin(i)) && !Parks(s, Begin(i)) && FuturesOk(s.acts, s.ws) && OneEach(s.acts)
    ensures FuturesOk(BeginStep(s, i).acts, BeginStep(s, i).ws)
  {
    var t, sid := s.acts[i].Task(), s.acts[i].phase.server;
    assert ForwardOk(s.acts[i], s.ws);
    if IsTerminal(s.tasks, t) {
      MovedFutures(s, i, Acking, s.ws);
    } else {
      MovedFutures(s, i, Sending(sid, |s.ws.futures|), Tracked(s.ws, t, sid));
    }
  }

  lemma ResumedFutures(s: State, i: nat)
    requires Enabled(s, Resume(i)) && Moves(s, Resume(i)) && FuturesOk(s.acts, s.ws) && OneEach(s.acts)
    ensures FuturesOk(ResumeStep(s, i).acts, ResumeStep(s, i).ws)
  {
    assert ForwardOk(s.acts[i], s.ws);
    MovedFutures(s, i, ResumeStep(s, i).acts[i].phase, Forgotten(s.ws, s.acts[i].Task()));
  }

  lemma OtherMovesKeepRegistry(s: State, e: Event)
    requires Enabled(s, e) && Moves(s, e) && !e.Begin? && !e.Resume?
    ensures Apply(s, e).ws == s.ws
    ensures var phase := Apply(s, e).acts[e.i].phase;
            phase.Forwarding() ==> s.acts[e.i].phase.Forwarding() && phase.fut == s.acts[e.i].phase.fut
                                   && phase.server == s.acts[e.i].phase.server
    ensures s.acts[e.i].phase.Forwarding() ==> Apply(s, e).acts[e.i].phase.Forwarding()
  {
  }

  lemma KeepsFuturesMoving(s: State, e: Event)
    requires Enabled(s, e) && Inv(s) && Moves(s, e)
    ensures FuturesOk(Apply(s, e).acts, Apply(s, e).ws)
  {
    OneHolder(s);
    assert ForwardOk(s.acts[e.i], s.ws);
    if e.Begin? {
      BegunFutures(s, e.i);
    } else if e.Resume? {
      ResumedFutures(s, e.i);
    } else {
      OtherMovesKeepRegistry(s, e);
      MovedShape(s, e);
      MovedFutures(s, e.i, Apply(s, e).acts[e.i].phase, s.ws);
    }
  }

  lemma KeepsFuturesQuiet(s: State, e: Event)
    requires Enabled(s, e) && Inv(s) && (Quiet(s, e) || e.Crash?)
    ensures FuturesOk(Apply(s, e).acts, Apply(s, e).ws)
  {
    match e {
      case TaskResult(t, result) => AnsweredFutures(s.acts, s.ws, t, result);
      case Register(w, sid) => ConnectedFutures(s.acts, s.ws, sid, w);
      case RegisterAckFails(w) =>
        if s.sockets[w].prev.Some? { DisconnectedFutures(s.acts, s.ws, s.sockets[w].prev.value, w); }
      case Close(w) =>
        if s.sockets[w].sid.Some? { DisconnectedFutures(s.acts, s.ws, s.sockets[w].sid.value, w); }
      case _ =>
    }
  }

  lemma KeepsFutures(s: State, e: Event)
    requires Enabled(s, e) && Inv(s)
    ensures FuturesOk(Apply(s, e).acts, Apply(s, e).ws)
  {
    if e.Take? {
      TakenFutures(s);
    } else if e.Registered? {
      DrainedFutures(s, e.w);
    } else if Removes(s, e) {
      KeepsFuturesRemoving(s, e);
    } else if Moves(s, e) {
      KeepsFuturesMoving(s, e);
    } else {
      KeepsFuturesQuiet(s, e);
    }
  }

  // ---- every step, every run -------------------------------------------------------------------

  lemma StaysUp(s: State, e: Event)
    requires Enabled(s, e)
    ensures Apply(s, e).up <==> !e.Crash?
  {
  }

  lemma KeepsDown(s: State, e: Event)
    requires Enabled(s, e) && DownIsEmpty(s)
    ensures DownIsEmpty(Apply(s, e))
  {
    StaysUp(s, e);
  }

  lemma StepKeepsInv(s: State, e: Event)
    requires Enabled(s, e) && Inv(s)
    ensures Inv(Apply(s, e))
  {
    KeepsHeldOnce(s, e);
    KeepsRows(s, e);
    KeepsSnapshot(s, e);
    KeepsJobs(s, e);
    KeepsPhases(s, e);
    KeepsFutures(s, e);
    KeepsDown(s, e);
  }

  lemma {:induction false} RunKeepsInv(s: State, es: seq<Event>)
    requires Inv(s) && Run(s, es)
    ensures Inv(After(s, es))
    decreases |es|
  {
    if es != [] {
      StepKeepsInv(s, es[0]);
      RunKeepsInv(Apply(s, es[0]), es[1..]);
    }
  }

  lemma InitialInv()
    ensures Inv(INITIAL) && Owned(INITIAL)
  {
    assert ActTasks([]) == [];
  }

  ghost predicate NeverLosesTask(s: State, es: seq<Event>)
    requires Run(s, es)
    decreases |es|
  {
    es == [] || (!LosesTask(s, es[0]) && NeverLosesTask(Apply(s, es[0]), es[1..]))
  }

  /** Single ownership over whole runs: as long as no step loses its task, every task in flight
      is held by exactly one activity or parking list. */
  lemma {:induction false} RunKeepsOwned(s: State, es: seq<Event>)
    requires Owned(s) && Run(s, es) && NeverLosesTask(s, es)
    ensures Owned(After(s, es))
    decreases |es|
  {
    if es != [] {
      KeepsOwned(s, es[0]);
      RunKeepsOwned(Apply(s, es[0]), es[1..]);
    }
  }

  // ---- stranded tasks ---------------------------------------------------------------------------------

  /** The task is in flight, but nothing holds it. */
  ghost predicate Stranded(s: State, t: TaskId) {
    t in s.inFlight && HeldTasks(s)[t] == 0
  }

  /** What a closure or forward that dies this way leaves behind. */
  lemma LosingStrandsTask(s: State, e: Event)
    requires Enabled(s, e) && Inv(s) && LosesTask(s, e)
    ensures Stranded(Apply(s, e), s.acts[e.i].Task())
    ensures Apply(s, e).tasks == s.tasks && Apply(s, e).messages == s.messages
  {
    var t := s.acts[e.i].Task();
    OneHolder(s);
    LostShape(s, e);
    RemovedHeld(s, e.i);
    assert HeldTasks(s)[t] <= multiset(s.inFlight)[t];
    assert HeldTasks(Apply(s, e))[t] + 1 == HeldTasks(s)[t];
  }

  lemma StrandedStays(s: State, e: Event, t: TaskId)
    requires Enabled(s, e) && !e.Crash? && Stranded(s, t)
    ensures Stranded(Apply(s, e), t)
  {
    if e.Take? {
      TakeHeld(s);
    } else if e.Release? || LosesTask(s, e) {
      RemovedHeld(s, e.i);
      assert HeldTasks(s)[t] == (HeldTasks(Apply(s, e)) + multiset{s.acts[e.i].Task()})[t];
    } else {
      SameHeld(s, e);
    }
  }

  lemma StrandedHasNoActivity(s: State, t: TaskId)
    requires Stranded(s, t)
    ensures forall i | 0 <= i < |s.acts| :: s.acts[i].Task() != t
  {
    forall i | 0 <= i < |s.acts| ensures s.acts[i].Task() != t {
      assert ActTasks(s.acts)[i] in multiset(ActTasks(s.acts));
      assert s.acts[i].Task() == t ==> HeldTasks(s)[t] >= 1;
    }
  }

  /** Only its own activity, or a skip before its first dispatch, writes a task's row. */
  lemma StrandedKeepsState(s: State, e: Event, t: TaskId)
    requires Enabled(s, e) && !e.Crash? && s.up && Stranded(s, t) && t in s.tasks && !Undispatched(s.messages, t)
    ensures t in Apply(s, e).tasks && Apply(s, e).tasks[t] == s.tasks[t]
  {
    StrandedHasNoActivity(s, t);
    if Moves(s, e) {
      MovedShape(s, e);
    } else if Parks(s, e) {
      ParkedShape(s, e);
    }
  }

  /** Only its own activity acks a task's row. */
  lemma StrandedKeepsRow(s: State, e: Event, t: TaskId, k: nat)
    requires Enabled(s, e) && !e.Crash? && Inv(s) && Stranded(s, t)
    requires k < |s.messages| && IsDispatchOf(s.messages[k], t)
    ensures k < |Apply(s, e).messages| && Apply(s, e).messages[k] == s.messages[k]
  {
    MessagesExtend(s, e);
    StrandedHasNoActivity(s, t);
    OnlyTakeAndAckChangeRows(s, e, k);
    if e.Take? {
      assert RecordOk(s.messages, s.snapshot[0]);
    } else if e.Ack? {
      assert JobOk(s.messages, s.acts[e.i].job);
    }
  }

  /** Until the process ends, a stranded task stays stranded: no poll, result, disconnect or reconnect
      brings it back. Its row keeps its state, and its dispatch rows are never acked. */
  lemma {:induction false} StrandedForever(s: State, es: seq<Event>, t: TaskId, k: nat)
    requires Inv(s) && s.up && Stranded(s, t) && Run(s, es) && forall e | e in es :: !e.Crash?
    requires k < |s.messages| && IsDispatchOf(s.messages[k], t)
    ensures Stranded(After(s, es), t)
    ensures t in s.tasks && t in After(s, es).tasks && After(s, es).tasks[t] == s.tasks[t]
    ensures k < |After(s, es).messages| && After(s, es).messages[k] == s.messages[k]
    decreases |es|
  {
    if es != [] {
      StepKeepsInv(s, es[0]);
      StaysUp(s, es[0]);
      StrandedStays(s, es[0], t);
      StrandedKeepsState(s, es[0], t);
      StrandedKeepsRow(s, es[0], t, k);
      StrandedForever(Apply(s, es[0]), es[1..], t, k);
    }
  }
}
