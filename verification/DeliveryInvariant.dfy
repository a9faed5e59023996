/** What every reachable state of the delivery protocol satisfies. */
module DeliveryInvariant {
  import opened Sets
  import opened Results
  import opened Store
  import opened WsServer
  import opened Delivery

  // ---- single ownership --------------------------------------------------------------------

  function ActTasks(acts: seq<Activity>): seq<TaskId> {
    seq(|acts|, i requires 0 <= i < |acts| => acts[i].Task())
  }

  function JobTasks(jobs: seq<Job>): seq<TaskId> {
    seq(|jobs|, i requires 0 <= i < |jobs| => jobs[i].msg.taskId)
  }

  /** The tasks of all parked jobs, counted with multiplicity. */
  ghost function ParkedTasks(deferred: map<ServerId, seq<Job>>): multiset<TaskId>
    decreases |deferred|
  {
    if deferred.Keys == {} then multiset{} else
      var sid := AnyOf(deferred.Keys);
      multiset(JobTasks(deferred[sid])) + ParkedTasks(deferred - {sid})
  }

  /** The tasks held by activities and parking lists, with multiplicity. */
  ghost function HeldTasks(s: State): multiset<TaskId> {
    multiset(ActTasks(s.acts)) + ParkedTasks(s.ws.deferred)
  }

  /** No task is held twice, and every held task is in flight. */
  ghost predicate HeldOnce(s: State) {
    HeldTasks(s) <= multiset(s.inFlight)
  }

  /** And every task in flight is held: none is lost. */
  ghost predicate Owned(s: State) {
    HeldTasks(s) == multiset(s.inFlight)
  }

  // ---- rows and jobs ----------------------------------------------------------------------------

  ghost predicate RowsOk(messages: MessageTable, tasks: TaskTable) {
    && (forall k | 0 <= k < |messages| && messages[k].Dispatch? && messages[k].parses ::
          messages[k].msg.taskId in tasks)
    && (forall k | 0 <= k < |messages| && messages[k].Reply? :: messages[k].task in tasks)
  }

  ghost predicate RecordOk(messages: MessageTable, r: Record) {
    r.row.Dispatch? && 1 <= r.id <= |messages| && SameButAck(r.row, messages[r.id - 1])
  }

  /** Snapshot rows are rows of the table as they were at some earlier moment. */
  ghost predicate SnapshotOk(messages: MessageTable, snapshot: seq<Record>) {
    forall k | 0 <= k < |snapshot| :: RecordOk(messages, snapshot[k])
  }

  /** The job came from a readable dispatch row of its own task. */
  ghost predicate JobOk(messages: MessageTable, job: Job) {
    && 1 <= job.dispatchId <= |messages|
    && var m := messages[job.dispatchId - 1];
       m.Dispatch? && m.parses && m.msg == job.msg && m.scenario == job.scenario
  }

  ghost predicate JobsOk(messages: MessageTable, acts: seq<Activity>, deferred: map<ServerId, seq<Job>>) {
    && (forall i | 0 <= i < |acts| :: JobOk(messages, acts[i].job))
    && (forall sid, k | sid in deferred && 0 <= k < |deferred[sid]| :: JobOk(messages, deferred[sid][k]))
  }

  // ---- phases --------------------------------------------------------------------------------------

  /** Between its terminal check and its write, an activity's task is not terminal. */
  ghost predicate PhasesOk(acts: seq<Activity>, tasks: TaskTable) {
    forall i | 0 <= i < |acts| ::
      acts[i].Task() in tasks && (acts[i].phase.Live() ==> !tasks[acts[i].Task()].Terminal())
  }

  // ---- futures -------------------------------------------------------------------------------------

  /** The pending and server entries of a task belong to its one running forward; while
      the future is unresolved both are present and the server is connected. */
  ghost predicate ForwardOk(a: Activity, ws: Registry) {
    var t := a.Task();
    && (t in ws.pending ==> a.phase.Forwarding() && a.phase.fut == ws.pending[t])
    && (t in ws.taskServer ==> a.phase.Forwarding() && a.phase.server == ws.taskServer[t])
    && (a.phase.Forwarding() ==>
          && a.phase.fut < |ws.futures|
          && (ws.futures[a.phase.fut].Unresolved? ==>
                && t in ws.pending && t in ws.taskServer && a.phase.server in ws.connections))
  }

  ghost predicate FuturesOk(acts: seq<Activity>, ws: Registry) {
    && (forall i | 0 <= i < |acts| :: ForwardOk(acts[i], ws))
    && (forall t | t in ws.pending :: t in ActTasks(acts))
    && (forall t | t in ws.taskServer :: t in ActTasks(acts))
    && (forall i, j | 0 <= i < j < |acts| && acts[i].phase.Forwarding() && acts[j].phase.Forwarding() ::
          acts[i].phase.fut != acts[j].phase.fut)
  }

  ghost predicate DownIsEmpty(s: State) {
    !s.up ==> s.snapshot == [] && s.inFlight == {} && s.acts == [] && s.ws == EMPTY && s.sockets == map[]
  }

  ghost predicate Inv(s: State) {
    && HeldOnce(s)
    && RowsOk(s.messages, s.tasks)
    && SnapshotOk(s.messages, s.snapshot)
    && JobsOk(s.messages, s.acts, s.ws.deferred)
    && PhasesOk(s.acts, s.tasks)
    && FuturesOk(s.acts, s.ws)
    && DownIsEmpty(s)
  }

  // ---- counting held tasks ------------------------------------------------------------------------------

  lemma ParkedUnfold(deferred: map<ServerId, seq<Job>>)
    requires deferred.Keys != {}
    ensures ParkedTasks(deferred)
            == multiset(JobTasks(deferred[AnyOf(deferred.Keys)])) + ParkedTasks(deferred - {AnyOf(deferred.Keys)})
  {
  }

  lemma WithoutBoth(deferred: map<ServerId, seq<Job>>, a: ServerId, b: ServerId)
    ensures deferred - {a} - {b} == deferred - {b} - {a}
  {
  }

  lemma Exchange(all: multiset<TaskId>, a: multiset<TaskId>, b: multiset<TaskId>, c: multiset<TaskId>,
                 noA: multiset<TaskId>, noB: multiset<TaskId>)
    requires all == a + noA && noA == b + c && noB == a + c
    ensures all == b + noB
  {
  }

  lemma {:induction false} ParkedSplit(deferred: map<ServerId, seq<Job>>, sid: ServerId)
    requires sid in deferred
    ensures ParkedTasks(deferred) == multiset(JobTasks(deferred[sid])) + ParkedTasks(deferred - {sid})
    decreases |deferred|
  {
    var other := AnyOf(deferred.Keys);
    ParkedUnfold(deferred);
    if other != sid {
      ParkedSplit(deferred - {other}, sid);
      ParkedSplit(deferred - {sid}, other);
      WithoutBoth(deferred, other, sid);
      Exchange(ParkedTasks(deferred), multiset(JobTasks(deferred[other])), multiset(JobTasks(deferred[sid])),
               ParkedTasks(deferred - {sid} - {other}), ParkedTasks(deferred - {other}), ParkedTasks(deferred - {sid}));
    }
  }

  lemma ParkedElsewhere(deferred: map<ServerId, seq<Job>>, sid: ServerId, jobs: seq<Job>)
    ensures ParkedTasks(deferred[sid := jobs]) == ParkedTasks(deferred - {sid}) + multiset(JobTasks(jobs))
  {
    ParkedSplit(deferred[sid := jobs], sid);
    assert deferred[sid := jobs] - {sid} == deferred - {sid};
  }

  lemma DrainRemovesTasks(r: Registry, sid: ServerId)
    ensures ParkedTasks(r.deferred)
            == ParkedTasks(Drained(r, sid).deferred) + multiset(JobTasks(Parked(r, sid)))
  {
    if sid in r.deferred {
      ParkedSplit(r.deferred, sid);
    } else {
      assert r.deferred - {sid} == r.deferred;
    }
  }

  lemma ParkAddsTask(r: Registry, sid: ServerId, job: Job)
    ensures ParkedTasks(Park(r, sid, job).deferred) == ParkedTasks(r.deferred) + multiset{job.msg.taskId}
  {
    var jobs := Parked(r, sid);
    DrainRemovesTasks(r, sid);
    ParkedElsewhere(r.deferred, sid, jobs + [job]);
    assert JobTasks(jobs + [job]) == JobTasks(jobs) + [job.msg.taskId];
    assert multiset(JobTasks(jobs + [job])) == multiset(JobTasks(jobs)) + multiset{job.msg.taskId};
  }

  lemma RemoveOne(acts: seq<Activity>, i: nat)
    requires i < |acts|
    ensures multiset(ActTasks(acts[..i] + acts[i + 1..])) + multiset{acts[i].Task()} == multiset(ActTasks(acts))
  {
    var ts := ActTasks(acts);
    assert ts == ts[..i] + [ts[i]] + ts[i + 1..];
    assert ActTasks(acts[..i] + acts[i + 1..]) == ts[..i] + ts[i + 1..];
  }

  lemma RepeatCounts(ts: seq<TaskId>, i: nat, j: nat)
    requires i < j < |ts| && ts[i] == ts[j]
    ensures multiset(ts)[ts[j]] >= 2
  {
    assert ts == ts[..j] + [ts[j]] + ts[j + 1..];
    assert ts[i] in ts[..j];
  }

  /** Two activities never hold the same task, and every held task is in flight. */
  lemma OneHolder(s: State)
    requires HeldOnce(s)
    ensures forall i, j | 0 <= i < j < |s.acts| :: s.acts[i].Task() != s.acts[j].Task()
    ensures forall i | 0 <= i < |s.acts| :: s.acts[i].Task() in s.inFlight
  {
    var ts := ActTasks(s.acts);
    forall i, j | 0 <= i < j < |s.acts| ensures s.acts[i].Task() != s.acts[j].Task() {
      assert multiset(ts)[ts[j]] <= multiset(s.inFlight)[ts[j]] <= 1;
      if ts[i] == ts[j] {
        RepeatCounts(ts, i, j);
      }
    }
    forall i | 0 <= i < |s.acts| ensures s.acts[i].Task() in s.inFlight {
      assert ts[i] in multiset(ts);
      assert ts[i] in multiset(s.inFlight);
    }
  }

  /** The steps after which an activity's job is parked. */
  predicate Parks(s: State, e: Event)
    requires Enabled(s, e)
  {
    match e
    case Defer(_) => true
    case SendFails(_) => true
    case Begin(i) =>
      !IsTerminal(s.tasks, s.acts[i].Task()) && s.acts[i].phase.server !in s.ws.connections
    case Resume(i) => s.ws.futures[s.acts[i].phase.fut].Lost?
    case _ => false
  }

  /** A closure ends on a server id that it cannot look up, or a forward on a result that kills
      it; both keep the slot of their task. */
  predicate LosesTask(s: State, e: Event)
    requires Enabled(s, e)
  {
    match e
    case Route(i) => Unroutable(s.acts[i].job.msg.context.server)
    case Resume(i) =>
      s.ws.futures[s.acts[i].phase.fut].Resolved? && KillsForward(s.ws.futures[s.acts[i].phase.fut].result)
    case _ => false
  }

  /** The steps after which an activity is gone. */
  predicate Removes(s: State, e: Event)
    requires Enabled(s, e)
  {
    Parks(s, e) || LosesTask(s, e) || e.Release?
  }

  /** The steps that move one activity to another phase. */
  predicate Moves(s: State, e: Event)
    requires Enabled(s, e)
  {
    && !Parks(s, e) && !LosesTask(s, e)
    && (e.Route? || e.SetupFails? || e.Start? || e.Finish? || e.Begin? || e.Sent? || e.Resume?
        || e.Finalize? || e.WriteReply? || e.Ack?)
  }

  /** The steps that touch no activity. */
  predicate Quiet(s: State, e: Event)
    requires Enabled(s, e)
  {
    !Moves(s, e) && !Removes(s, e) && !e.Take? && !e.Registered? && !e.Crash?
  }

  lemma MovedActs(s: State, e: Event)
    requires Enabled(s, e) && Moves(s, e)
    ensures e.i < |s.acts| == |Apply(s, e).acts|
    ensures Apply(s, e).acts == Moved(s, e.i, Apply(s, e).acts[e.i].phase).acts
    ensures Apply(s, e).ws.deferred == s.ws.deferred && Apply(s, e).inFlight == s.inFlight
  {
  }

  /** The activity and parking lists after a step that moves one activity. */
  lemma MovedShape(s: State, e: Event)
    requires Enabled(s, e) && Moves(s, e)
    ensures e.i < |s.acts| == |Apply(s, e).acts|
    ensures Apply(s, e).acts == Moved(s, e.i, Apply(s, e).acts[e.i].phase).acts
    ensures Apply(s, e).ws.deferred == s.ws.deferred && Apply(s, e).inFlight == s.inFlight
    ensures Apply(s, e).tasks.Keys == s.tasks.Keys
    ensures forall t | t in s.tasks && t != s.acts[e.i].Task() :: Apply(s, e).tasks[t] == s.tasks[t]
    ensures Apply(s, e).acts[e.i].phase.Live() && s.acts[e.i].Task() in s.tasks
            && (s.acts[e.i].phase.Live() ==> !s.tasks[s.acts[e.i].Task()].Terminal())
            ==> !Apply(s, e).tasks[s.acts[e.i].Task()].Terminal()
  {
    MovedActs(s, e);
  }

  lemma ParkedShape(s: State, e: Event)
    requires Enabled(s, e) && Parks(s, e)
    ensures e.i < |s.acts|
    ensures s.acts[e.i].phase.Offline? || s.acts[e.i].phase.Scheduled? || s.acts[e.i].phase.Forwarding()
    ensures Apply(s, e).acts == ParkedAway(s, e.i, s.acts[e.i].phase.server).acts
    ensures Apply(s, e).ws.deferred == ParkedAway(s, e.i, s.acts[e.i].phase.server).ws.deferred
    ensures Apply(s, e).inFlight == s.inFlight && Apply(s, e).tasks == s.tasks
  {
  }

  lemma LostShape(s: State, e: Event)
    requires Enabled(s, e) && LosesTask(s, e)
    ensures e.i < |s.acts| && (s.acts[e.i].phase.Queued? || s.acts[e.i].phase.Awaiting?)
    ensures Apply(s, e).acts == Removed(s, e.i).acts
    ensures Apply(s, e).ws == if e.Resume? then Forgotten(s.ws, s.acts[e.i].Task()) else s.ws
    ensures Apply(s, e).inFlight == s.inFlight && Apply(s, e).tasks == s.tasks
  {
  }

  lemma QuietShape(s: State, e: Event)
    requires Enabled(s, e) && Quiet(s, e)
    ensures Apply(s, e).acts == s.acts
    ensures Apply(s, e).ws.deferred == s.ws.deferred && Apply(s, e).inFlight == s.inFlight
  {
  }

  // ---- how steps change the held tasks -------------------------------------------------------------------

  lemma SameTasks(s: State, i: nat, phase: Phase)
    requires i < |s.acts|
    ensures ActTasks(Moved(s, i, phase).acts) == ActTasks(s.acts)
  {
  }

  lemma ParkingHeld(s: State, i: nat, sid: ServerId)
    requires i < |s.acts|
    ensures HeldTasks(ParkedAway(s, i, sid)) == HeldTasks(s)
  {
    RemoveOne(s.acts, i);
    ParkAddsTask(s.ws, sid, s.acts[i].job);
  }

  lemma RemovedHeld(s: State, i: nat)
    requires i < |s.acts|
    ensures multiset(ActTasks(Removed(s, i).acts)) + ParkedTasks(s.ws.deferred) + multiset{s.acts[i].Task()}
            == HeldTasks(s)
  {
    RemoveOne(s.acts, i);
  }

  lemma TakeHeld(s: State)
    requires s.snapshot != [] && s.snapshot[0].row.Dispatch?
    ensures var s' := TakeStep(s);
            || (HeldTasks(s') == HeldTasks(s) && s'.inFlight == s.inFlight)
            || exists t :: t !in s.inFlight && s'.inFlight == s.inFlight + {t}
                           && HeldTasks(s') == HeldTasks(s) + multiset{t}
  {
    var s', t := TakeStep(s), s.snapshot[0].row.msg.taskId;
    if s'.acts != s.acts {
      assert ActTasks(s'.acts) == ActTasks(s.acts) + [t];
      assert multiset(ActTasks(s.acts) + [t]) == multiset(ActTasks(s.acts)) + multiset{t};
      assert t !in s.inFlight && s'.inFlight == s.inFlight + {t}
             && HeldTasks(s') == HeldTasks(s) + multiset{t};
    }
  }

  lemma RegisteredHeld(s: State, w: SocketId)
    requires w in s.sockets && s.sockets[w].Registering?
    ensures HeldTasks(RegisteredStep(s, w)) == HeldTasks(s)
  {
    var id := s.sockets[w].id;
    DrainRemovesTasks(s.ws, id);
    assert ActTasks(RegisteredStep(s, w).acts) == ActTasks(s.acts) + JobTasks(Parked(s.ws, id));
  }

  lemma ParkedHeld(s: State, e: Event)
    requires Enabled(s, e) && Parks(s, e)
    ensures HeldTasks(Apply(s, e)) == HeldTasks(s) && Apply(s, e).inFlight == s.inFlight
  {
    ParkedShape(s, e);
    ParkingHeld(s, e.i, s.acts[e.i].phase.server);
  }

  lemma MovedHeld(s: State, e: Event)
    requires Enabled(s, e) && Moves(s, e)
    ensures HeldTasks(Apply(s, e)) == HeldTasks(s) && Apply(s, e).inFlight == s.inFlight
  {
    MovedShape(s, e);
    SameTasks(s, e.i, Apply(s, e).acts[e.i].phase);
  }

  /** Steps that neither take nor end a task's delivery keep what is held. */
  predicate KeepsHeld(s: State, e: Event)
    requires Enabled(s, e)
  {
    !e.Take? && !e.Release? && !e.Crash? && !LosesTask(s, e)
  }

  lemma SameHeld(s: State, e: Event)
    requires Enabled(s, e) && KeepsHeld(s, e)
    ensures HeldTasks(Apply(s, e)) == HeldTasks(s) && Apply(s, e).inFlight == s.inFlight
  {
    if e.Registered? {
      RegisteredHeld(s, e.w);
    } else if Parks(s, e) {
      ParkedHeld(s, e);
    } else if Moves(s, e) {
      MovedHeld(s, e);
    } else {
      QuietShape(s, e);
    }
  }

  lemma Less(all: multiset<TaskId>, rest: multiset<TaskId>, f: set<TaskId>, t: TaskId)
    requires all <= multiset(f) && rest + multiset{t} == all
    ensures rest <= multiset(f - {t}) && rest <= multiset(f)
    ensures all == multiset(f) ==> rest == multiset(f - {t}) && rest != multiset(f)
  {
    assert all[t] == rest[t] + 1 && multiset(f)[t] == 1;
    forall x ensures rest[x] <= multiset(f - {t})[x] {
      assert all[x] == (rest + multiset{t})[x] && all[x] <= multiset(f)[x];
    }
    if all == multiset(f) {
      forall x ensures rest[x] == multiset(f - {t})[x] {
        assert all[x] == (rest + multiset{t})[x];
      }
    }
  }

  /** Every step, with any result, keeps every task held at most once, and only while in
      flight. */
  lemma KeepsHeldOnce(s: State, e: Event)
    requires Enabled(s, e) && HeldOnce(s)
    ensures HeldOnce(Apply(s, e))
  {
    if e.Take? {
      TakeHeld(s);
    } else if e.Crash? {
      assert ActTasks([]) == [];
    } else if e.Release? || LosesTask(s, e) {
      RemovedHeld(s, e.i);
      Less(HeldTasks(s), HeldTasks(Apply(s, e)), s.inFlight, s.acts[e.i].Task());
    } else {
      SameHeld(s, e);
    }
  }

  /** A step keeps every task in flight held, none lost, exactly when it neither looks up a
      server id that is a list or an object nor ends a forward on a result that is neither an
      object nor falsy. */
  lemma KeepsOwned(s: State, e: Event)
    requires Enabled(s, e) && Owned(s)
    ensures Owned(Apply(s, e)) <==> !LosesTask(s, e)
  {
    if e.Take? {
      TakeHeld(s);
    } else if e.Crash? {
      assert ActTasks([]) == [];
    } else if e.Release? {
      RemovedHeld(s, e.i);
      Less(HeldTasks(s), HeldTasks(Apply(s, e)), s.inFlight, s.acts[e.i].Task());
    } else if LosesTask(s, e) {
      LostShape(s, e);
      RemovedHeld(s, e.i);
      Less(HeldTasks(s), HeldTasks(Apply(s, e)), s.inFlight, s.acts[e.i].Task());
    } else {
      SameHeld(s, e);
    }
  }

  // ---- steps keep rows and jobs -------------------------------------------------------------------------------

  lemma AckExtends(messages: MessageTable, id: nat)
    ensures Extends(messages, AckRow(messages, id))
  {
  }

  /** Tables only grow and get acked. */
  lemma MessagesExtend(s: State, e: Event)
    requires Enabled(s, e)
    ensures Extends(s.messages, Apply(s, e).messages)
  {
    if e.Take? && !s.snapshot[0].row.parses {
      AckExtends(s.messages, s.snapshot[0].id);
    } else if e.Ack? {
      AckExtends(s.messages, s.acts[e.i].job.dispatchId);
    }
  }

  lemma {:induction false} RunExtends(s: State, es: seq<Event>)
    requires Run(s, es)
    ensures Extends(s.messages, After(s, es).messages)
    decreases |es|
  {
    if es != [] {
      MessagesExtend(s, es[0]);
      RunExtends(Apply(s, es[0]), es[1..]);
      ExtendsTransitive(s.messages, Apply(s, es[0]).messages, After(s, es).messages);
    }
  }

  lemma ForwardsKeepMessages(s: State, e: Event)
    requires Enabled(s, e) && (e.Route? || e.Defer? || e.Begin? || e.SendFails? || e.Resume?)
    ensures Apply(s, e).messages == s.messages
  {
  }

  lemma OnlyTakeAndAckChangeRows(s: State, e: Event, k: nat)
    requires Enabled(s, e) && k < |s.messages| <= |Apply(s, e).messages|
    ensures Apply(s, e).messages[k] != s.messages[k] ==> e.Take? || e.Ack?
  {
    if e.Route? || e.Defer? || e.Begin? || e.SendFails? || e.Resume? {
      ForwardsKeepMessages(s, e);
    }
  }

  lemma KeepsRows(s: State, e: Event)
    requires Enabled(s, e) && RowsOk(s.messages, s.tasks) && PhasesOk(s.acts, s.tasks)
    ensures s.tasks.Keys <= Apply(s, e).tasks.Keys
    ensures RowsOk(Apply(s, e).messages, Apply(s, e).tasks)
  {
    var s' := Apply(s, e);
    MessagesExtend(s, e);
    forall k | 0 <= k < |s.messages| ensures SameButAck(s.messages[k], s'.messages[k]) {
    }
  }

  lemma {:induction false} FindUnackedOk(messages: MessageTable, k: nat, limit: nat)
    requires k <= |messages|
    ensures |FindUnacked(messages, k, limit)| <= limit
    ensures forall r | r in FindUnacked(messages, k, limit) ::
              k < r.id <= |messages| && r.row == messages[r.id - 1] && Unacked(r.row)
    decreases |messages| - k
  {
    if k < |messages| && limit > 0 {
      if Unacked(messages[k]) {
        FindUnackedOk(messages, k + 1, limit - 1);
      } else {
        FindUnackedOk(messages, k + 1, limit);
      }
    }
  }

  lemma RecordStaysOk(earlier: MessageTable, later: MessageTable, r: Record)
    requires Extends(earlier, later) && RecordOk(earlier, r)
    ensures RecordOk(later, r)
  {
    assert SameButAck(earlier[r.id - 1], later[r.id - 1]);
  }

  lemma SameSnapshot(s: State, e: Event)
    requires Enabled(s, e) && !e.Poll? && !e.Crash?
    ensures Apply(s, e).snapshot == if e.Take? then s.snapshot[1..] else s.snapshot
  {
  }

  lemma KeepsSnapshot(s: State, e: Event)
    requires Enabled(s, e) && SnapshotOk(s.messages, s.snapshot)
    ensures SnapshotOk(Apply(s, e).messages, Apply(s, e).snapshot)
  {
    var s' := Apply(s, e);
    if e.Poll? {
      FindUnackedOk(s.messages, 0, POLL_LIMIT);
    } else if !e.Crash? {
      MessagesExtend(s, e);
      SameSnapshot(s, e);
      forall k | 0 <= k < |s'.snapshot| ensures RecordOk(s'.messages, s'.snapshot[k]) {
        RecordStaysOk(s.messages, s'.messages, s.snapshot[if e.Take? then k + 1 else k]);
      }
    }
  }

  lemma JobStaysOk(earlier: MessageTable, later: MessageTable, job: Job)
    requires Extends(earlier, later) && JobOk(earlier, job)
    ensures JobOk(later, job)
  {
    assert SameButAck(earlier[job.dispatchId - 1], later[job.dispatchId - 1]);
  }

  lemma RemovedJobs(s: State, i: nat)
    requires i < |s.acts| && JobsOk(s.messages, s.acts, s.ws.deferred)
    ensures JobsOk(s.messages, Removed(s, i).acts, s.ws.deferred)
  {
    forall k | 0 <= k < |s.acts| - 1 ensures JobOk(s.messages, Removed(s, i).acts[k].job) {
      assert Removed(s, i).acts[k] == s.acts[if k < i then k else k + 1];
    }
  }

  lemma ParkedAwayJobs(s: State, i: nat, sid: ServerId)
    requires i < |s.acts| && JobsOk(s.messages, s.acts, s.ws.deferred)
    ensures JobsOk(s.messages, ParkedAway(s, i, sid).acts, ParkedAway(s, i, sid).ws.deferred)
  {
    var s' := ParkedAway(s, i, sid);
    RemovedJobs(s, i);
    forall id, k | id in s'.ws.deferred && 0 <= k < |s'.ws.deferred[id]|
      ensures JobOk(s.messages, s'.ws.deferred[id][k])
    {
      if id == sid && k == |Parked(s.ws, sid)| {
        assert s'.ws.deferred[id][k] == s.acts[i].job;
      } else {
        assert s'.ws.deferred[id][k] == s.ws.deferred[id][k];
      }
    }
  }

  lemma MovedJobs(s: State, s': State, i: nat, phase: Phase)
    requires JobsOk(s.messages, s.acts, s.ws.deferred) && s'.ws.deferred == s.ws.deferred
    requires s'.acts == s.acts || (i < |s.acts| && s'.acts == Moved(s, i, phase).acts)
    ensures JobsOk(s.messages, s'.acts, s'.ws.deferred)
  {
    forall k | 0 <= k < |s'.acts| ensures JobOk(s.messages, s'.acts[k].job) {
      assert s'.acts[k].job == s.acts[k].job;
    }
  }

  lemma AddedJobs(s: State, e: Event)
    requires Enabled(s, e) && (e.Take? || e.Registered?)
    requires JobsOk(s.messages, s.acts, s.ws.deferred) && SnapshotOk(s.messages, s.snapshot)
    ensures JobsOk(s.messages, Apply(s, e).acts, Apply(s, e).ws.deferred)
  {
    var s' := Apply(s, e);
    if e.Take? {
      assert RecordOk(s.messages, s.snapshot[0]);
    } else {
      var id := s.sockets[e.w].id;
      forall i | 0 <= i < |s'.acts| ensures JobOk(s.messages, s'.acts[i].job) {
        if i >= |s.acts| {
          assert s'.acts[i].job == s.ws.deferred[id][i - |s.acts|];
        }
      }
    }
  }

  lemma LeavingJobs(s: State, e: Event)
    requires Enabled(s, e) && Removes(s, e) && JobsOk(s.messages, s.acts, s.ws.deferred)
    ensures JobsOk(s.messages, Apply(s, e).acts, Apply(s, e).ws.deferred)
  {
    if Parks(s, e) {
      ParkedShape(s, e);
      ParkedAwayJobs(s, e.i, s.acts[e.i].phase.server);
    } else {
      RemovedJobs(s, e.i);
      if LosesTask(s, e) {
        LostShape(s, e);
      }
    }
  }

  /** Every job held after a step was held before it or has just been taken. */
  lemma JobsComeFrom(s: State, e: Event)
    requires Enabled(s, e)
    requires JobsOk(s.messages, s.acts, s.ws.deferred) && SnapshotOk(s.messages, s.snapshot)
    ensures JobsOk(s.messages, Apply(s, e).acts, Apply(s, e).ws.deferred)
  {
    if e.Take? || e.Registered? {
      AddedJobs(s, e);
    } else if Removes(s, e) {
      LeavingJobs(s, e);
    } else if Moves(s, e) {
      MovedShape(s, e);
      MovedJobs(s, Apply(s, e), e.i, Apply(s, e).acts[e.i].phase);
    } else if !e.Crash? {
      QuietShape(s, e);
    }
  }

  lemma KeepsJobs(s: State, e: Event)
    requires Enabled(s, e) && JobsOk(s.messages, s.acts, s.ws.deferred) && SnapshotOk(s.messages, s.snapshot)
    ensures JobsOk(Apply(s, e).messages, Apply(s, e).acts, Apply(s, e).ws.deferred)
  {
    var s' := Apply(s, e);
    JobsComeFrom(s, e);
    MessagesExtend(s, e);
    forall i | 0 <= i < |s'.acts| ensures JobOk(s'.messages, s'.acts[i].job) {
      JobStaysOk(s.messages, s'.messages, s'.acts[i].job);
    }
    forall sid, k | sid in s'.ws.deferred && 0 <= k < |s'.ws.deferred[sid]|
      ensures JobOk(s'.messages, s'.ws.deferred[sid][k])
    {
      JobStaysOk(s.messages, s'.messages, s'.ws.deferred[sid][k]);
    }
  }

  // ---- steps keep phases ---------------------------------------------------------------------------------------

  lemma MovedPhases(s: State, i: nat, phase: Phase, tasks: TaskTable)
    requires HeldOnce(s) && PhasesOk(s.acts, s.tasks) && i < |s.acts|
    requires tasks.Keys == s.tasks.Keys
    requires forall t | t in tasks && t != s.acts[i].Task() :: tasks[t] == s.tasks[t]
    requires phase.Live() ==> !tasks[s.acts[i].Task()].Terminal()
    ensures PhasesOk(Moved(s, i, phase).acts, tasks)
  {
    OneHolder(s);
  }

  lemma RemovedPhases(s: State, i: nat)
    requires i < |s.acts| && PhasesOk(s.acts, s.tasks)
    ensures PhasesOk(Removed(s, i).acts, s.tasks)
  {
    forall k | 0 <= k < |s.acts| - 1 ensures Removed(s, i).acts[k] == s.acts[if k < i then k else k + 1] {
    }
  }

  lemma AddedPhases(s: State, e: Event)
    requires Enabled(s, e) && Inv(s) && (e.Take? || e.Registered?)
    ensures PhasesOk(Apply(s, e).acts, s.tasks)
  {
    var s' := Apply(s, e);
    AddedJobs(s, e);
    forall i | 0 <= i < |s'.acts|
      ensures s'.acts[i].Task() in s.tasks && (s'.acts[i].phase.Live() ==> !s.tasks[s'.acts[i].Task()].Terminal())
    {
      assert JobOk(s.messages, s'.acts[i].job);
      assert i < |s.acts| ==> s'.acts[i] == s.acts[i];
    }
  }

  lemma SkipHasNoActivity(s: State, t: TaskId)
    requires JobsOk(s.messages, s.acts, s.ws.deferred) && Undispatched(s.messages, t)
    ensures forall i | 0 <= i < |s.acts| :: s.acts[i].Task() != t
  {
    forall i | 0 <= i < |s.acts| ensures s.acts[i].Task() != t {
      assert JobOk(s.messages, s.acts[i].job);
      assert !IsDispatchOf(s.messages[s.acts[i].job.dispatchId - 1], t);
    }
  }

  lemma RemovingPhases(s: State, e: Event)
    requires Enabled(s, e) && PhasesOk(s.acts, s.tasks) && Removes(s, e)
    ensures PhasesOk(Apply(s, e).acts, Apply(s, e).tasks)
  {
    RemovedPhases(s, e.i);
    if Parks(s, e) {
      ParkedShape(s, e);
    }
  }

  lemma MovingPhases(s: State, e: Event)
    requires Enabled(s, e) && HeldOnce(s) && PhasesOk(s.acts, s.tasks) && Moves(s, e)
    ensures PhasesOk(Apply(s, e).acts, Apply(s, e).tasks)
  {
    MovedShape(s, e);
    MovedPhases(s, e.i, Apply(s, e).acts[e.i].phase, Apply(s, e).tasks);
  }

  lemma QuietPhases(s: State, e: Event)
    requires Enabled(s, e) && Inv(s) && (Quiet(s, e) || e.Crash?)
    ensures PhasesOk(Apply(s, e).acts, Apply(s, e).tasks)
  {
    if e.Skip? {
      SkipHasNoActivity(s, e.task);
    }
  }

  /** A task row changes only at its own activity's steps, or while it has no activity. */
  lemma KeepsPhases(s: State, e: Event)
    requires Enabled(s, e) && Inv(s)
    ensures PhasesOk(Apply(s, e).acts, Apply(s, e).tasks)
  {
    if e.Take? || e.Registered? {
      AddedPhases(s, e);
    } else if Removes(s, e) {
      RemovingPhases(s, e);
    } else if Moves(s, e) {
      MovingPhases(s, e);
    } else {
      QuietPhases(s, e);
    }
  }
}
