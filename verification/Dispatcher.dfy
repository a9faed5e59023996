/** `CentralDispatcher`: the poller's loop body, local execution, routing. Each method is
    tied to the steps of the delivery protocol that it performs in sequence. */
module Dispatcher {
  import opened Results
  import opened Store
  import opened WsServer
  import opened Delivery
  import opened DeliveryInvariant

  /** What the agent does with a task: setting it up raises, or it runs. */
  datatype Agent = SetupRaises | Runs(run: AgentRun)

  /** The steps of one local delivery, for the activity at index 0. */
  function LocalPath(tasks: TaskTable, t: TaskId, agent: Agent): seq<Event> {
    if IsTerminal(tasks, t) then [Route(0), Ack(0), Release(0)]
    else if agent.SetupRaises? then [Route(0), SetupFails(0), Ack(0), Release(0)]
    else [Route(0), Start(0), Finish(0, agent.run), Finalize(0), WriteReply(0), Ack(0), Release(0)]
  }

  /** Taking every record of the snapshot in turn, with no other step in between. */
  function TakeAll(s: State): State
    requires forall r | r in s.snapshot :: r.row.Dispatch?
    decreases |s.snapshot|
  {
    if s.snapshot == [] then s else TakeAll(TakeStep(s))
  }

  /** A task executed and finalized, its row acked and its slot freed. */
  function Executed(s: State, job: Job, tasks: TaskTable, outcome: Outcome): State {
    s.(acts := [],
       tasks := Finalized(tasks, job.msg.taskId, outcome),
       messages := AckRow(WithReply(s.messages, job.scenario, job.msg.taskId, outcome), job.dispatchId),
       inFlight := s.inFlight - {job.msg.taskId})
  }

  lemma AckAndRelease(s: State, job: Job)
    requires s.up && s.acts == [Activity(job, Acking)]
    ensures Run(s, [Ack(0), Release(0)])
    ensures After(s, [Ack(0), Release(0)])
            == s.(acts := [], messages := AckRow(s.messages, job.dispatchId), inFlight := s.inFlight - {job.msg.taskId})
  {
    var s1 := Apply(s, Ack(0));
    assert s1.acts == [Activity(job, Releasing)];
    RunCons(s1, Release(0), []);
    RunCons(s, Ack(0), [Release(0)]);
    assert Apply(s1, Release(0)).acts == [];
  }

  lemma ReplyAndRelease(s: State, job: Job, outcome: Outcome)
    requires s.up && s.acts == [Activity(job, Finalizing(outcome))]
    ensures var path := [Finalize(0), WriteReply(0), Ack(0), Release(0)];
            Run(s, path) && After(s, path) == Executed(s, job, s.tasks, outcome)
  {
    var s2 := Apply(s, Finalize(0));
    assert s2.acts == [Activity(job, Replying(outcome))];
    var s3 := Apply(s2, WriteReply(0));
    assert s3.acts == [Activity(job, Acking)];
    AckAndRelease(s3, job);
    RunCons(s2, WriteReply(0), [Ack(0), Release(0)]);
    RunCons(s, Finalize(0), [WriteReply(0), Ack(0), Release(0)]);
  }

  lemma ExecuteAndRelease(s: State, job: Job, run: AgentRun)
    requires s.up && s.acts == [Activity(job, Ready)]
    ensures var path := [Start(0), Finish(0, run), Finalize(0), WriteReply(0), Ack(0), Release(0)];
            && Run(s, path)
            && After(s, path) == Executed(s, job, Mark(s.tasks, job.msg.taskId, Running),
                                          LocalOutcome(run, job.msg.context.role))
  {
    var s1 := Apply(s, Start(0));
    assert s1.acts == [Activity(job, Executing)];
    var s2 := Apply(s1, Finish(0, run));
    assert s2.acts == [Activity(job, Finalizing(LocalOutcome(run, job.msg.context.role)))];
    ReplyAndRelease(s2, job, LocalOutcome(run, job.msg.context.role));
    RunCons(s1, Finish(0, run), [Finalize(0), WriteReply(0), Ack(0), Release(0)]);
    RunCons(s, Start(0), [Finish(0, run), Finalize(0), WriteReply(0), Ack(0), Release(0)]);
  }

  lemma LocalPathRuns(s: State, job: Job, agent: Agent)
    requires s.up && s.acts == [Activity(job, Queued)] && !Truthy(job.msg.context.server)
    ensures var path := LocalPath(s.tasks, job.msg.taskId, agent);
            var t := job.msg.taskId;
            && Run(s, path)
            && After(s, path) == (if IsTerminal(s.tasks, t) || agent.SetupRaises?
                 then s.(acts := [], messages := AckRow(s.messages, job.dispatchId), inFlight := s.inFlight - {t})
                 else Executed(s, job, Mark(s.tasks, t, Running), LocalOutcome(agent.run, job.msg.context.role)))
  {
    var t := job.msg.taskId;
    var routed := Apply(s, Route(0));
    if IsTerminal(s.tasks, t) {
      AckAndRelease(routed, job);
      RunCons(s, Route(0), [Ack(0), Release(0)]);
    } else if agent.SetupRaises? {
      AckAndRelease(Apply(routed, SetupFails(0)), job);
      RunCons(routed, SetupFails(0), [Ack(0), Release(0)]);
      RunCons(s, Route(0), [SetupFails(0), Ack(0), Release(0)]);
    } else {
      ExecuteAndRelease(routed, job, agent.run);
      RunCons(s, Route(0), [Start(0), Finish(0, agent.run), Finalize(0), WriteReply(0), Ack(0), Release(0)]);
    }
  }

  /** What a finalized result leaves in the tables. */
  lemma ExecutedRecords(s: State, job: Job, tasks: TaskTable, outcome: Outcome)
    requires outcome.result.Object? && job.msg.taskId in tasks
    ensures var t, result, later := job.msg.taskId, outcome.result, Executed(s, job, tasks, outcome);
            && later.messages
               == AckRow(s.messages + if Clean(result) then [Reply(job.scenario, t, result, true)] else [],
                         job.dispatchId)
            && later.tasks
               == tasks[t := if Truthy(Get(result, SuccessKey, Null))
                             then if Clean(result) && Binds(outcome.role) then Success else tasks[t]
                             else if Binds(Get(result, ErrorKey, String(Literal("Unknown")))) then Failed else tasks[t]]
  {
  }

  /** The rest of a forward whose server has sent an object: the reply row carries this object, and the
      task ends as it says; the role that is stored is the object's own, if it has one. */
  lemma RemotePathRuns(s: State, job: Job, server: ServerId, fut: nat, result: JsonObject)
    requires s.up && s.acts == [Activity(job, Awaiting(server, fut))] && job.msg.taskId in s.tasks
    requires fut < |s.ws.futures| && s.ws.futures[fut] == Resolved(result)
    ensures var path := [Resume(0), Finalize(0), WriteReply(0), Ack(0), Release(0)];
            var t, own := job.msg.taskId, Get(result, RoleKey, Null);
            var role := if Truthy(own) then own else job.msg.context.role;
            && Run(s, path)
            && After(s, path)
               == s.(acts := [], inFlight := s.inFlight - {t}, ws := Forgotten(s.ws, t),
                     messages := AckRow(
                       s.messages + if Clean(result) then [Reply(job.scenario, t, result, true)] else [],
                       job.dispatchId),
                     tasks := s.tasks[t :=
                       if Truthy(Get(result, SuccessKey, Null))
                       then if Clean(result) && Binds(role) then Success else s.tasks[t]
                       else if Binds(Get(result, ErrorKey, String(Literal("Unknown")))) then Failed else s.tasks[t]])
  {
    var outcome := RemoteOutcome(result, job.msg.context.role);
    var s1 := Apply(s, Resume(0));
    assert s1.acts == [Activity(job, Finalizing(outcome))];
    ReplyAndRelease(s1, job, outcome);
    RunCons(s, Resume(0), [Finalize(0), WriteReply(0), Ack(0), Release(0)]);
    ExecutedRecords(s1, job, s1.tasks, outcome);
  }

  class CentralDispatcher {
    var messages: MessageTable   // database
    var tasks: TaskTable         // database
    var inFlight: set<TaskId>
    var executor: seq<Activity>  // closures submitted and not yet started

    /** The dispatcher as a protocol state without server connections. */
    function View(snapshot: seq<Record>, acts: seq<Activity>): State
      reads this
    {
      State(true, messages, tasks, snapshot, inFlight, acts, EMPTY, map[])
    }

    method AckMessage(id: nat)
      modifies this`messages
      ensures messages == AckRow(old(messages), id)
    {
      if 1 <= id <= |messages| && messages[id - 1].Dispatch? {
        messages := messages[id - 1 := messages[id - 1].(acked := true)];
      }
    }

    /** `_ack`: ack the row, then free the slot. */
    method Ack(id: nat, t: TaskId)
      modifies this`messages, this`inFlight
      ensures messages == AckRow(old(messages), id) && inFlight == old(inFlight) - {t}
    {
      AckMessage(id);
      inFlight := inFlight - {t};
    }

    /** One iteration of the loop in `_run`. */
    method PollOnce()
      modifies this
      ensures (forall r | r in FindUnacked(old(messages), 0, POLL_LIMIT) :: r.row.Dispatch?)
              && View([], executor)
                 == TakeAll(old(View(FindUnacked(messages, 0, POLL_LIMIT), executor)))
    {
      var pending := FindUnacked(messages, 0, POLL_LIMIT);
      FindUnackedOk(messages, 0, POLL_LIMIT);
      ghost var start := View(pending, executor);
      for k := 0 to |pending|
        invariant tasks == old(tasks)
        invariant TakeAll(start) == TakeAll(View(pending[k..], executor))
      {
        var rec := pending[k];
        assert pending[k..][0] == rec && pending[k..][1..] == pending[k + 1..];
        if !rec.row.parses {
          AckMessage(rec.id);
        } else {
          var t := rec.row.msg.taskId;
          if t !in inFlight {
            inFlight := inFlight + {t};
            executor := executor + [Activity(Job(rec.row.scenario, rec.row.msg, rec.id), Queued)];
          }
        }
      }
    }

    /** `finalize_task`: two writes, each guarded by its own handler. Looking into a result
        that is not an object raises in both. */
    method FinalizeTask(scenario: ScenarioId, t: TaskId, outcome: Outcome)
      modifies this`tasks, this`messages
      ensures tasks == Finalized(old(tasks), t, outcome)
      ensures messages == WithReply(old(messages), scenario, t, outcome)
      ensures outcome.result.Object? && t in old(tasks) ==>
                tasks == old(tasks)[t :=
                  if Truthy(Get(outcome.result, SuccessKey, Null))
                  then if Clean(outcome.result) && Binds(outcome.role) then Success else old(tasks)[t]
                  else if Binds(Get(outcome.result, ErrorKey, String(Literal("Unknown")))) then Failed
                       else old(tasks)[t]]
      ensures outcome.result.Object? && t !in old(tasks) ==> tasks == old(tasks)
      ensures outcome.result.Object? ==>
                messages == old(messages)
                            + if Clean(outcome.result) then [Reply(scenario, t, outcome.result, true)] else []
      ensures !outcome.result.Object? ==> tasks == old(tasks) && messages == old(messages)
    {
      var result := outcome.result;
      if result.Object? {
        if Truthy(Get(result, SuccessKey, Null)) {
          if Clean(result) && Binds(outcome.role) {
            tasks := Mark(tasks, t, Success);
          }
        } else {
          var error := Get(result, ErrorKey, String(Literal("Unknown")));
          if Binds(error) {
            tasks := Mark(tasks, t, Failed);
          }
        }
        if Clean(result) {
          messages := messages + [Reply(scenario, t, result, true)];
        }
      }
    }

    /** `run_task_locally`. An unfinished task whose agent can be set up is marked running, and then
        finalized with the object that the agent returns, with a failure that holds the message
        of its exception, or with some failure if it returns anything else. */
    method RunTaskLocally(job: Job, agent: Agent)
      modifies this`tasks, this`messages
      ensures if IsTerminal(old(tasks), job.msg.taskId) || agent.SetupRaises?
              then tasks == old(tasks) && messages == old(messages)
              else var outcome := LocalOutcome(agent.run, job.msg.context.role);
                   && tasks == Finalized(Mark(old(tasks), job.msg.taskId, Running), job.msg.taskId, outcome)
                   && messages == WithReply(old(messages), job.scenario, job.msg.taskId, outcome)
      ensures var t, role := job.msg.taskId, job.msg.context.role;
              t in old(tasks) && !old(tasks)[t].Terminal() && agent.Runs? ==>
              match agent.run
              case Returns(result) =>
                if result.Object? then
                  && tasks == old(tasks)[t :=
                       if Truthy(Get(result, SuccessKey, Null))
                       then if Clean(result) && Binds(role) then Success else Running
                       else if Binds(Get(result, ErrorKey, String(Literal("Unknown")))) then Failed else Running]
                  && messages == old(messages) + if Clean(result) then [Reply(job.scenario, t, result, true)] else []
                else
                  && tasks == old(tasks)[t := Failed] && |messages| == |old(messages)| + 1
                  && messages[..|old(messages)|] == old(messages)
                  && var reply := messages[|old(messages)|];
                     reply.Reply? && reply.task == t && reply.scenario == job.scenario && reply.parses
                     && !Truthy(Get(reply.result, SuccessKey, Null))
              case Raises(message) =>
                && tasks == old(tasks)[t := if CleanText(message) then Failed else Running]
                && messages == old(messages) + if CleanText(message) then
                     [Reply(job.scenario, t, Object(map[SuccessKey := Bool(false), OutputKey := String([]),
                                                        ErrorKey := String(message)]), true)] else []
    {
      var t := job.msg.taskId;
      if t in tasks && tasks[t].Terminal() {
        return;
      }
      if agent.SetupRaises? {
        return;
      }
      tasks := Mark(tasks, t, Running);
      if agent.run.Raises? {
        if CleanText(agent.run.message) {
          FailureIsWritten(agent.run.message);
        } else {
          FailureIsNotWritten(agent.run.message);
        }
        FinalizeTask(job.scenario, t, Outcome(Failure(agent.run.message), Null));
      } else if agent.run.result.Object? {
        FinalizeTask(job.scenario, t, Outcome(agent.run.result, job.msg.context.role));
      } else {
        FailureIsWritten(Literal("no attribute 'get'"));
        FinalizeTask(job.scenario, t, Outcome(Failure(Literal("no attribute 'get'")), Null));
      }
    }

    /** `_dispatch_one` for a task without a server: it performs exactly the protocol steps
        of the local path, and the ack comes last whatever happened. */
    method DispatchLocally(job: Job, agent: Agent)
      requires !Truthy(job.msg.context.server)
      modifies this`tasks, this`messages, this`inFlight
      ensures var s := old(View([], [Activity(job, Queued)]));
              && Run(s, LocalPath(s.tasks, job.msg.taskId, agent))
              && View([], []) == After(s, LocalPath(s.tasks, job.msg.taskId, agent))
    {
      ghost var s := View([], [Activity(job, Queued)]);
      LocalPathRuns(s, job, agent);
      RunTaskLocally(job, agent);
      Ack(job.dispatchId, job.msg.taskId);
    }

    /** `_dispatch_one` for a task bound to a server. When the server id cannot be looked up, the
        closure ends in an exception. In any case the row and the slot stay as they are. */
    method DispatchToServer(ws: WSDispatcher, job: Job) returns (raises: bool)
      requires Truthy(job.msg.context.server)
      modifies ws
      ensures raises <==> Unroutable(job.msg.context.server)
      ensures raises ==> ws.View() == old(ws.View()) && ws.scheduled == old(ws.scheduled)
      ensures !raises ==>
                var sid := KeyOf(job.msg.context.server);
                if sid in old(ws.View().connections)
                then ws.View() == old(ws.View()) && ws.scheduled == old(ws.scheduled) + [(sid, job)]
                else ws.View() == Park(old(ws.View()), sid, job) && ws.scheduled == old(ws.scheduled)
    {
      raises := job.msg.context.server.List? || job.msg.context.server.Object?;
      if raises {
        return;
      }
      var sid := KeyOf(job.msg.context.server);
      var connected := ws.IsConnected(sid);
      if connected {
        ws.ScheduleForward(sid, job);
      } else {
        ws.Defer(sid, job);
      }
    }
  }

  // ---- what one poll takes ------------------------------------------------------------------------

  /** Unacked rows among rows k + 1 to n. */
  function CountUnacked(messages: MessageTable, k: nat, n: nat): nat
    requires k <= n <= |messages|
    decreases n - k
  {
    if k == n then 0 else (if Unacked(messages[k]) then 1 else 0) + CountUnacked(messages, k + 1, n)
  }

  /** The query returns every unacked row with fewer than `limit` unacked rows before it. */
  lemma {:induction false} FoundBelowLimit(messages: MessageTable, k: nat, limit: nat, n: nat)
    requires k <= n < |messages| && Unacked(messages[n]) && CountUnacked(messages, k, n) < limit
    ensures Record(n + 1, messages[n]) in FindUnacked(messages, k, limit)
    decreases n - k
  {
    if k < n {
      FoundBelowLimit(messages, k + 1, if Unacked(messages[k]) then limit - 1 else limit, n);
    }
  }

  predicate Takeable(r: Record, inFlight: set<TaskId>) {
    r.row.Dispatch? && r.row.parses && r.row.msg.taskId !in inFlight
  }

  lemma {:induction false} TakeAllKeepsActs(s: State, a: Activity)
    requires forall r | r in s.snapshot :: r.row.Dispatch?
    requires a in s.acts
    ensures a in TakeAll(s).acts
    decreases |s.snapshot|
  {
    if s.snapshot != [] {
      TakeAllKeepsActs(TakeStep(s), a);
    }
  }

  /** The first takeable record of a task in the snapshot is handed to the executor. */
  lemma {:induction false} TakesFirstOfTask(s: State, i: nat)
    requires forall r | r in s.snapshot :: r.row.Dispatch?
    requires i < |s.snapshot| && Takeable(s.snapshot[i], s.inFlight)
    requires forall j | 0 <= j < i && s.snapshot[j].row.parses ::
               s.snapshot[j].row.msg.taskId != s.snapshot[i].row.msg.taskId
    ensures Activity(Job(s.snapshot[i].row.scenario, s.snapshot[i].row.msg, s.snapshot[i].id), Queued)
            in TakeAll(s).acts
    decreases |s.snapshot|
  {
    var a := Activity(Job(s.snapshot[i].row.scenario, s.snapshot[i].row.msg, s.snapshot[i].id), Queued);
    var next := TakeStep(s);
    if i == 0 {
      assert next.acts[|s.acts|] == a;
      TakeAllKeepsActs(next, a);
    } else {
      assert next.snapshot[i - 1] == s.snapshot[i];
      assert s.snapshot[0].row.parses ==> s.snapshot[0].row.msg.taskId != s.snapshot[i].row.msg.taskId;
      forall j | 0 <= j < i - 1 && next.snapshot[j].row.parses
        ensures next.snapshot[j].row.msg.taskId != s.snapshot[i].row.msg.taskId
      {
        assert next.snapshot[j] == s.snapshot[j + 1];
      }
      TakesFirstOfTask(next, i - 1);
    }
  }

  lemma FoundAfter(messages: MessageTable, k: nat, limit: nat, r: Record)
    requires k <= |messages|
    ensures r in FindUnacked(messages, k, limit) ==> r.id > k
  {
    FindUnackedOk(messages, k, limit);
  }

  lemma {:induction false} AckHidesRowFrom(messages: MessageTable, id: nat, k: nat, limit: nat, limit': nat, r: Record)
    requires k <= |messages| && limit >= |messages| - k && limit' >= |messages| - k
    ensures r in FindUnacked(AckRow(messages, id), k, limit')
            <==> r in FindUnacked(messages, k, limit) && r.id != id
    decreases |messages| - k
  {
    var later := AckRow(messages, id);
    if k < |messages| {
      AckHidesRowFrom(messages, id, k + 1, if Unacked(messages[k]) then limit - 1 else limit,
                      if Unacked(later[k]) then limit' - 1 else limit', r);
      FoundAfter(messages, k + 1, if Unacked(messages[k]) then limit - 1 else limit, r);
    }
  }

  /** An acked row is never found again, and the ack hides no other row. */
  lemma {:induction false} AckHidesRow(messages: MessageTable, id: nat, k: nat, r: Record)
    requires k <= |messages|
    ensures r in FindUnacked(AckRow(messages, id), k, |messages|)
            <==> r in FindUnacked(messages, k, |messages|) && r.id != id
  {
    AckHidesRowFrom(messages, id, k, |messages|, |messages|, r);
  }

  ghost predicate InIdOrder(rows: seq<Record>) {
    forall i, j | 0 <= i < j < |rows| :: rows[i].id < rows[j].id
  }

  lemma FirstInIdOrder(first: Record, rest: seq<Record>)
    requires InIdOrder(rest) && forall r | r in rest :: first.id < r.id
    ensures InIdOrder([first] + rest)
  {
    var rows := [first] + rest;
    forall i, j | 0 <= i < j < |rows| ensures rows[i].id < rows[j].id {
      assert rows[j] == rest[j - 1] && rest[j - 1] in rest;
      assert i > 0 ==> rows[i] == rest[i - 1];
    }
  }

  lemma {:induction false} FindUnackedSorted(messages: MessageTable, k: nat, limit: nat)
    requires k <= |messages|
    ensures InIdOrder(FindUnacked(messages, k, limit))
    decreases |messages| - k
  {
    if k < |messages| && limit > 0 {
      if Unacked(messages[k]) {
        FindUnackedSorted(messages, k + 1, limit - 1);
        FindUnackedOk(messages, k + 1, limit - 1);
        FirstInIdOrder(Record(k + 1, messages[k]), FindUnacked(messages, k + 1, limit - 1));
      } else {
        FindUnackedSorted(messages, k + 1, limit);
      }
    }
  }

  /** A poll takes the first unacked row of every task that is not in flight, if fewer
      than ten unacked rows come before it. */
  lemma PollTakesEarlyRows(s: State, n: nat)
    requires n < |s.messages| && Unacked(s.messages[n]) && CountUnacked(s.messages, 0, n) < 10
    requires Takeable(Record(n + 1, s.messages[n]), s.inFlight)
    requires forall j | 0 <= j < n && Unacked(s.messages[j]) && s.messages[j].parses ::
               s.messages[j].msg.taskId != s.messages[n].msg.taskId
    ensures forall r | r in FindUnacked(s.messages, 0, POLL_LIMIT) :: r.row.Dispatch?
    ensures Activity(Job(s.messages[n].scenario, s.messages[n].msg, n + 1), Queued)
            in TakeAll(s.(snapshot := FindUnacked(s.messages, 0, POLL_LIMIT))).acts
  {
    var snapshot := FindUnacked(s.messages, 0, POLL_LIMIT);
    FindUnackedOk(s.messages, 0, POLL_LIMIT);
    FoundBelowLimit(s.messages, 0, POLL_LIMIT, n);
    var i :| 0 <= i < |snapshot| && snapshot[i] == Record(n + 1, s.messages[n]);
    FindUnackedSorted(s.messages, 0, POLL_LIMIT);
    forall j | 0 <= j < i && snapshot[j].row.parses
      ensures snapshot[j].row.msg.taskId != snapshot[i].row.msg.taskId
    {
      assert snapshot[j] in snapshot;
      assert snapshot[j].row == s.messages[snapshot[j].id - 1];
    }
    TakesFirstOfTask(s.(snapshot := snapshot), i);
  }

  // ---- progress --------------------------------------------------------------------------------------

  predicate Held(m: Message, inFlight: set<TaskId>) {
    Unacked(m) && m.parses && m.msg.taskId in inFlight
  }

  /** Rows after the first k that are unacked only because their task is in flight. */
  function CountHeld(messages: MessageTable, k: nat, inFlight: set<TaskId>): nat
    requires k <= |messages|
    decreases |messages| - k
  {
    if k == |messages| then 0 else
      (if Held(messages[k], inFlight) then 1 else 0) + CountHeld(messages, k + 1, inFlight)
  }

  /** Taking further records never undoes an ack or a hand-over. */
  lemma {:induction false} TakeAllGrows(s: State)
    requires forall r | r in s.snapshot :: r.row.Dispatch?
    ensures s.inFlight <= TakeAll(s).inFlight && Extends(s.messages, TakeAll(s).messages)
    decreases |s.snapshot|
  {
    if s.snapshot != [] {
      TakeAllGrows(TakeStep(s));
      ExtendsTransitive(s.messages, TakeStep(s).messages, TakeAll(s).messages);
    }
  }

  lemma NotHeldMakesProgress(s: State)
    requires s.snapshot != [] && forall r | r in s.snapshot :: r.row.Dispatch?
    requires var r := s.snapshot[0];
             1 <= r.id <= |s.messages| && s.messages[r.id - 1] == r.row && Unacked(r.row) && !Held(r.row, s.inFlight)
    ensures TakeAll(s) != s.(snapshot := [])
  {
    var r, next := s.snapshot[0], TakeStep(s);
    TakeAllGrows(next);
    if r.row.parses {
      assert r.row.msg.taskId in next.inFlight;
    } else {
      assert SameButAck(next.messages[r.id - 1], TakeAll(next).messages[r.id - 1]);
    }
  }

  ghost predicate AllHeld(rows: seq<Record>, inFlight: set<TaskId>) {
    forall r | r in rows :: Held(r.row, inFlight)
  }

  lemma AllHeldFirst(rows: seq<Record>, inFlight: set<TaskId>)
    requires rows != []
    ensures AllHeld(rows, inFlight) <==> Held(rows[0].row, inFlight) && AllHeld(rows[1..], inFlight)
  {
    assert rows == [rows[0]] + rows[1..];
  }

  lemma HeldIsPassedOver(s: State)
    requires s.snapshot != [] && Held(s.snapshot[0].row, s.inFlight)
    ensures TakeStep(s) == s.(snapshot := s.snapshot[1..])
  {
  }

  /** A poll changes nothing exactly when every record it read is held. */
  lemma {:induction false} PollIdleWhenAllHeld(s: State)
    requires forall r | r in s.snapshot ::
               r.row.Dispatch? && 1 <= r.id <= |s.messages| && s.messages[r.id - 1] == r.row && Unacked(r.row)
    ensures TakeAll(s) == s.(snapshot := []) <==> AllHeld(s.snapshot, s.inFlight)
    decreases |s.snapshot|
  {
    if s.snapshot != [] {
      AllHeldFirst(s.snapshot, s.inFlight);
      if Held(s.snapshot[0].row, s.inFlight) {
        HeldIsPassedOver(s);
        PollIdleWhenAllHeld(TakeStep(s));
      } else {
        assert s.snapshot[0] in s.snapshot;
        NotHeldMakesProgress(s);
      }
    }
  }

  lemma {:induction false} HeldRecordsAreCounted(messages: MessageTable, k: nat, limit: nat, inFlight: set<TaskId>)
    requires k <= |messages|
    requires forall r | r in FindUnacked(messages, k, limit) :: Held(r.row, inFlight)
    ensures |FindUnacked(messages, k, limit)| <= CountHeld(messages, k, inFlight)
    decreases |messages| - k
  {
    if k < |messages| && limit > 0 {
      if Unacked(messages[k]) {
        var rest := FindUnacked(messages, k + 1, limit - 1);
        assert FindUnacked(messages, k, limit) == [Record(k + 1, messages[k])] + rest;
        forall r | r in rest ensures Held(r.row, inFlight) {
          assert r in FindUnacked(messages, k, limit);
        }
        HeldRecordsAreCounted(messages, k + 1, limit - 1, inFlight);
        assert Record(k + 1, messages[k]) in FindUnacked(messages, k, limit);
      } else {
        HeldRecordsAreCounted(messages, k + 1, limit, inFlight);
      }
    }
  }

  lemma {:induction false} ShortSnapshotIsComplete(messages: MessageTable, k: nat, limit: nat, n: nat)
    requires k <= n < |messages| && Unacked(messages[n]) && |FindUnacked(messages, k, limit)| < limit
    ensures Record(n + 1, messages[n]) in FindUnacked(messages, k, limit)
    decreases n - k
  {
    if k < n {
      ShortSnapshotIsComplete(messages, k + 1, if Unacked(messages[k]) then limit - 1 else limit, n);
    }
  }

  /** While fewer than ten unacked rows belong to tasks in flight, a poll makes progress
      whenever there is an unacked row it could deal with. */
  lemma PollMakesProgress(s: State, n: nat)
    requires CountHeld(s.messages, 0, s.inFlight) < 10
    requires n < |s.messages| && Unacked(s.messages[n]) && !Held(s.messages[n], s.inFlight)
    ensures forall r | r in FindUnacked(s.messages, 0, POLL_LIMIT) :: r.row.Dispatch?
    ensures TakeAll(s.(snapshot := FindUnacked(s.messages, 0, POLL_LIMIT))) != s.(snapshot := [])
  {
    var snapshot := FindUnacked(s.messages, 0, POLL_LIMIT);
    FindUnackedOk(s.messages, 0, POLL_LIMIT);
    PollIdleWhenAllHeld(s.(snapshot := snapshot));
    if AllHeld(snapshot, s.inFlight) {
      HeldRecordsAreCounted(s.messages, 0, POLL_LIMIT, s.inFlight);
      ShortSnapshotIsComplete(s.messages, 0, POLL_LIMIT, n);
    }
  }
}
