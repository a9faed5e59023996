/** `recover_orphans_on_startup`, and what a restart means for redelivered rows. */
module Recovery {
  import opened Sets
  import opened Results
  import opened Store
  import opened Delivery
  import opened DeliveryInvariant
  import opened DeliveryFutures
  import opened DeliverySafety

  datatype ScenarioState = Initializing | ScenarioRunning | Completed | ScenarioFailed | ScenarioCancelled

  function Swept(tasks: TaskTable, state: TaskState): TaskTable {
    map t | t in tasks :: if tasks[t] == state then Failed else tasks[t]
  }

  /** The sweep of one state, with the rows in `left` still to do. */
  function SweptBut(tasks: TaskTable, state: TaskState, left: set<TaskId>): TaskTable {
    map t | t in tasks :: if tasks[t] == state && t !in left then Failed else tasks[t]
  }

  lemma SweepOneMore(tasks: TaskTable, state: TaskState, left: set<TaskId>, t: TaskId)
    requires t in left && t in tasks && tasks[t] == state
    ensures Mark(SweptBut(tasks, state, left), t, Failed) == SweptBut(tasks, state, left - {t})
  {
  }

  function RecoveredBut(scenarios: map<ScenarioId, ScenarioState>, left: set<ScenarioId>)
    : map<ScenarioId, ScenarioState>
  {
    map s | s in scenarios :: if scenarios[s].ScenarioRunning? && s !in left then ScenarioFailed else scenarios[s]
  }

  lemma RecoverOneMore(scenarios: map<ScenarioId, ScenarioState>, left: set<ScenarioId>, s: ScenarioId)
    requires s in left && s in scenarios && scenarios[s].ScenarioRunning?
    ensures RecoveredBut(scenarios, left)[s := ScenarioFailed] == RecoveredBut(scenarios, left - {s})
  {
  }

  function InState(tasks: TaskTable, state: TaskState): set<TaskId> {
    set t | t in tasks && tasks[t] == state
  }

  function RecoveredScenarios(scenarios: map<ScenarioId, ScenarioState>): map<ScenarioId, ScenarioState> {
    map s | s in scenarios :: if scenarios[s].ScenarioRunning? then ScenarioFailed else scenarios[s]
  }

  lemma ThreeSweeps(tasks: TaskTable)
    ensures Swept(Swept(Swept(tasks, Pending), Running), Waiting) == Recovered(tasks)
  {
    var twice: TaskTable :=
      map t | t in tasks :: if tasks[t] == Pending || tasks[t] == Running then Failed else tasks[t];
    assert Swept(Swept(tasks, Pending), Running) == twice;
    var thrice: TaskTable :=
      map t | t in tasks ::
        if tasks[t] == Pending || tasks[t] == Running || tasks[t] == Waiting then Failed else tasks[t];
    assert Swept(twice, Waiting) == thrice;
    assert forall s: TaskState :: s.Terminal() <==> s != Pending && s != Running && s != Waiting;
    assert thrice == Recovered(tasks);
  }

  lemma CountNonTerminal(tasks: TaskTable)
    ensures |InState(tasks, Pending)| + |InState(tasks, Running)| + |InState(tasks, Waiting)|
            == |set t | t in tasks && !tasks[t].Terminal()|
  {
    var p, r, w := InState(tasks, Pending), InState(tasks, Running), InState(tasks, Waiting);
    var swept := set t | t in tasks && !tasks[t].Terminal();
    assert swept == p + r + w;
    assert |p + r| == |p| + |r| && |p + r + w| == |p + r| + |w|;
  }

  lemma SweptElsewhere(tasks: TaskTable, state: TaskState, other: TaskState)
    requires other != state && other != Failed
    ensures InState(Swept(tasks, state), other) == InState(tasks, other)
  {
    forall t ensures t in InState(Swept(tasks, state), other) <==> t in InState(tasks, other) {
    }
  }

  lemma SweepsRecover(tasks: TaskTable)
    ensures Swept(Swept(Swept(tasks, Pending), Running), Waiting) == Recovered(tasks)
    ensures |InState(tasks, Pending)| + |InState(Swept(tasks, Pending), Running)|
            + |InState(Swept(Swept(tasks, Pending), Running), Waiting)|
            == |set t | t in tasks && !tasks[t].Terminal()|
  {
    ThreeSweeps(tasks);
    SweptElsewhere(tasks, Pending, Running);
    SweptElsewhere(tasks, Pending, Waiting);
    SweptElsewhere(Swept(tasks, Pending), Running, Waiting);
    CountNonTerminal(tasks);
  }

  class Startup {
    var scenarios: map<ScenarioId, ScenarioState>
    var tasks: TaskTable

    /** The sweep. Counts are what the log line and the event report. */
    method RecoverOrphansOnStartup() returns (nScenarios: nat, nTasks: nat)
      modifies this
      ensures tasks == Recovered(old(tasks))
      ensures scenarios == RecoveredScenarios(old(scenarios))
      ensures nTasks == |set t | t in old(tasks) && !old(tasks)[t].Terminal()|
      ensures nScenarios == |set s | s in old(scenarios) && old(scenarios)[s].ScenarioRunning?|
    {
      var running := set s | s in scenarios && scenarios[s].ScenarioRunning?;
      ghost var before := scenarios;
      nScenarios := 0;
      while running != {}
        invariant running <= set s | s in before && before[s].ScenarioRunning?
        invariant scenarios == RecoveredBut(before, running) && tasks == old(tasks)
        invariant nScenarios + |running| == |set s | s in before && before[s].ScenarioRunning?|
        decreases running
      {
        var s := Choose(running);
        RecoverOneMore(before, running, s);
        scenarios := scenarios[s := ScenarioFailed];
        running := running - {s};
        nScenarios := nScenarios + 1;
      }
      assert RecoveredBut(before, {}) == RecoveredScenarios(before);
      var nPending := FailAllIn(Pending);
      var nRunning := FailAllIn(Running);
      var nWaiting := FailAllIn(Waiting);
      nTasks := nPending + nRunning + nWaiting;
      SweepsRecover(old(tasks));
    }

    /** One pass of the inner loop: every task found in `state` is marked failed. */
    method FailAllIn(state: TaskState) returns (n: nat)
      requires !state.Terminal()
      modifies this`tasks
      ensures tasks == Swept(old(tasks), state)
      ensures n == |InState(old(tasks), state)|
      ensures tasks.Keys == old(tasks).Keys
      ensures forall t | t in old(tasks) :: tasks[t] == if old(tasks)[t] == state then Failed else old(tasks)[t]
    {
      var found := set t | t in tasks && tasks[t] == state;
      ghost var before := tasks;
      n := 0;
      while found != {}
        invariant found <= InState(before, state) && tasks == SweptBut(before, state, found)
        invariant n + |found| == |InState(before, state)|
        decreases found
      {
        var t := Choose(found);
        SweepOneMore(before, state, found, t);
        tasks := Mark(tasks, t, Failed);
        found := found - {t};
        n := n + 1;
      }
      assert SweptBut(before, state, {}) == Swept(before, state);
    }
  }

  /** The sweep is complete, leaves finished work alone, and running it again changes
      nothing. */
  lemma RecoveryIsCompleteAndIdempotent(tasks: TaskTable, scenarios: map<ScenarioId, ScenarioState>)
    ensures Recovered(tasks).Keys == tasks.Keys
    ensures forall t | t in tasks :: IsTerminal(Recovered(tasks), t)
    ensures forall t | IsTerminal(tasks, t) :: Recovered(tasks)[t] == tasks[t]
    ensures forall t | t in tasks && !tasks[t].Terminal() :: Recovered(tasks)[t] == Failed
    ensures RecoveredScenarios(scenarios).Keys == scenarios.Keys
    ensures forall s | s in scenarios :: RecoveredScenarios(scenarios)[s]
              == if scenarios[s].ScenarioRunning? then ScenarioFailed else scenarios[s]
    ensures Recovered(Recovered(tasks)) == Recovered(tasks)
    ensures forall s | s in scenarios :: !RecoveredScenarios(scenarios)[s].ScenarioRunning?
    ensures RecoveredScenarios(RecoveredScenarios(scenarios)) == RecoveredScenarios(scenarios)
  {
    assert forall t | t in tasks :: Recovered(tasks)[t].Terminal();
  }

  // ---- redelivery after a restart ---------------------------------------------------------------

  /** The task is finished and nothing in the process is executing it or about to reply. */
  ghost predicate Settled(s: State, t: TaskId) {
    && IsTerminal(s.tasks, t)
    && (forall i | 0 <= i < |s.acts| && s.acts[i].Task() == t ::
          !s.acts[i].phase.Live() && !s.acts[i].phase.Replying?)
  }

  /** After crash and recovery every task is settled. */
  lemma RestartSettlesEverything(s: State, t: TaskId)
    requires Inv(s) && s.up && t in s.tasks
    ensures Enabled(s, Crash) && Enabled(Apply(s, Crash), Recover)
    ensures Settled(Apply(Apply(s, Crash), Recover), t)
    ensures Apply(Apply(s, Crash), Recover).messages == s.messages
  {
    RecoveryIsCompleteAndIdempotent(s.tasks, map[]);
  }

  lemma SettledMove(s: State, e: Event, t: TaskId)
    requires Enabled(s, e) && Settled(s, t) && Moves(s, e) && s.acts[e.i].Task() == t
    ensures !Apply(s, e).acts[e.i].phase.Live() && !Apply(s, e).acts[e.i].phase.Replying?
  {
  }

  lemma NoReplyForSettled(s: State, e: Event, t: TaskId, k: nat)
    requires Enabled(s, e) && Settled(s, t) && |s.messages| <= k < |Apply(s, e).messages|
    ensures !IsReplyOf(Apply(s, e).messages[k], t)
  {
    if Apply(s, e).messages[k].Reply? {
      SameReplies(s, e, k);
    }
  }

  lemma SettledStep(s: State, e: Event, t: TaskId)
    requires Enabled(s, e) && Inv(s) && Settled(s, t)
    ensures Settled(Apply(s, e), t)
    ensures forall k | |s.messages| <= k < |Apply(s, e).messages| :: !IsReplyOf(Apply(s, e).messages[k], t)
  {
    var s' := Apply(s, e);
    TerminalStays(s, e, t);
    forall i | 0 <= i < |s'.acts| && s'.acts[i].Task() == t
      ensures !s'.acts[i].phase.Live() && !s'.acts[i].phase.Replying?
    {
      if Moves(s, e) && i == e.i {
        SettledMove(s, e, t);
      } else {
        var k := ActComesFrom(s, e, i);
      }
    }
    forall k | |s.messages| <= k < |s'.messages| ensures !IsReplyOf(s'.messages[k], t) {
      NoReplyForSettled(s, e, t, k);
    }
  }

  /** From then on, whatever is redelivered or dispatched again: no agent runs the task, no
      reply for it is written, and its state does not leave the terminal ones. */
  lemma {:induction false} SettledForever(s: State, es: seq<Event>, t: TaskId)
    requires Inv(s) && Run(s, es) && Settled(s, t)
    ensures Settled(After(s, es), t)
    ensures |s.messages| <= |After(s, es).messages|
    ensures forall k | |s.messages| <= k < |After(s, es).messages| :: !IsReplyOf(After(s, es).messages[k], t)
    decreases |es|
  {
    if es != [] {
      var next := Apply(s, es[0]);
      StepKeepsInv(s, es[0]);
      SettledStep(s, es[0], t);
      MessagesExtend(s, es[0]);
      SettledForever(next, es[1..], t);
      RunExtends(next, es[1..]);
      forall k | |s.messages| <= k < |After(s, es).messages| ensures !IsReplyOf(After(s, es).messages[k], t) {
        if k < |next.messages| {
          assert SameButAck(next.messages[k], After(next, es[1..]).messages[k]);
        }
      }
    }
  }

  /** A restart ends every task for good: in every run after it, however often its rows are
      redelivered, no agent runs the task and no reply for it is written. */
  lemma RestartEndsEveryTask(s: State, es: seq<Event>, t: TaskId)
    requires Inv(s) && s.up && t in s.tasks && Run(Apply(Apply(s, Crash), Recover), es)
    ensures var later := After(Apply(Apply(s, Crash), Recover), es);
            && Settled(later, t)
            && forall k | |s.messages| <= k < |later.messages| :: !IsReplyOf(later.messages[k], t)
  {
    RestartSettlesEverything(s, t);
    StepKeepsInv(s, Crash);
    StepKeepsInv(Apply(s, Crash), Recover);
    SettledForever(Apply(Apply(s, Crash), Recover), es, t);
  }

  /** The steps by which a redelivered row of a settled task gets acked. */
  function RedeliverySteps(s: State, i: nat): seq<Event>
    requires i < |s.acts|
  {
    if !Truthy(s.acts[i].job.msg.context.server) then [Route(i), Ack(i), Release(i)]
    else [Route(i), Begin(i), Ack(i), Release(i)]
  }

  lemma FinishAcking(s: State, i: nat)
    requires At(s, i) && s.acts[i].phase.Acking?
    ensures Run(s, [Ack(i), Release(i)])
    ensures After(s, [Ack(i), Release(i)])
            == Removed(s, i).(messages := AckRow(s.messages, s.acts[i].job.dispatchId),
                              inFlight := s.inFlight - {s.acts[i].Task()})
  {
    var s1 := Apply(s, Ack(i));
    assert Run(Apply(s1, Release(i)), []);
    RunCons(s1, Release(i), []);
    RunCons(s, Ack(i), [Release(i)]);
  }

  /** The activity has acked its row and released its slot. */
  function AckedAndGone(s: State, i: nat): State
    requires i < |s.acts|
  {
    Removed(s, i).(messages := AckRow(s.messages, s.acts[i].job.dispatchId),
                   inFlight := s.inFlight - {s.acts[i].Task()})
  }

  lemma FinishFrom(s: State, s1: State, i: nat)
    requires At(s, i) && s1 == Moved(s, i, Acking)
    ensures Run(s1, [Ack(i), Release(i)]) && After(s1, [Ack(i), Release(i)]) == AckedAndGone(s, i)
  {
    FinishAcking(s1, i);
    assert Removed(s1, i).acts == Removed(s, i).acts;
  }

  lemma LocalRedelivery(s: State, i: nat)
    requires At(s, i) && s.acts[i].phase.Queued? && IsTerminal(s.tasks, s.acts[i].Task())
    requires !Truthy(s.acts[i].job.msg.context.server)
    ensures Run(s, RedeliverySteps(s, i)) && After(s, RedeliverySteps(s, i)) == AckedAndGone(s, i)
  {
    FinishFrom(s, Apply(s, Route(i)), i);
    RunCons(s, Route(i), [Ack(i), Release(i)]);
  }

  lemma RemoteRedelivery(s: State, i: nat)
    requires At(s, i) && s.acts[i].phase.Queued? && IsTerminal(s.tasks, s.acts[i].Task())
    requires var server := s.acts[i].job.msg.context.server;
             Truthy(server) && Hashable(server) && KeyOf(server) in s.ws.connections
    ensures Run(s, RedeliverySteps(s, i)) && After(s, RedeliverySteps(s, i)) == AckedAndGone(s, i)
  {
    var s1 := Apply(s, Route(i));
    var s2 := Apply(s1, Begin(i));
    assert s2.acts == Moved(s, i, Acking).acts;
    FinishFrom(s, s2, i);
    RunCons(s1, Begin(i), [Ack(i), Release(i)]);
    RunCons(s, Route(i), [Begin(i), Ack(i), Release(i)]);
  }

  /** A redelivered row of a settled task, once taken, can go straight to its ack: nothing
      is executed, sent or replied. For a row bound to a server, if that is connected. */
  lemma RedeliveryIsAcked(s: State, i: nat)
    requires At(s, i) && s.acts[i].phase.Queued? && IsTerminal(s.tasks, s.acts[i].Task())
    requires var server := s.acts[i].job.msg.context.server;
             Truthy(server) ==> Hashable(server) && KeyOf(server) in s.ws.connections
    ensures Run(s, RedeliverySteps(s, i)) && After(s, RedeliverySteps(s, i)) == AckedAndGone(s, i)
  {
    if !Truthy(s.acts[i].job.msg.context.server) {
      LocalRedelivery(s, i);
    } else {
      RemoteRedelivery(s, i);
    }
  }
}
