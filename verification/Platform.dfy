/** The delivery protocol as the surroundings of one running scenario: what may happen between
    two writes of its scheduler, and the scheduler's own writes as delivery steps. */
module Platform {
  import opened Results
  import opened Store
  import opened MessageQueue
  import opened Delivery
  import opened DeliveryInvariant
  import opened DeliveryFutures
  import opened DeliverySafety
  import opened DeliveryInputs
  import opened DeliveryResults
  import opened WaveBarrier

  /** Some delivery run leads from s to `later`. */
  ghost predicate LeadsTo(s: State, later: State) {
    exists es :: Run(s, es) && After(s, es) == later
  }

  lemma RunLeads(s: State, es: seq<Event>)
    requires Run(s, es)
    ensures LeadsTo(s, After(s, es))
  {
  }

  lemma LeadsOn(a: State, b: State, c: State)
    requires LeadsTo(a, b) && LeadsTo(b, c)
    ensures LeadsTo(a, c)
  {
    var es :| Run(a, es) && After(a, es) == b;
    var more :| Run(b, more) && After(b, more) == c;
    RunConcat(a, es, more);
  }

  lemma LeadsExtends(s: State, later: State)
    requires LeadsTo(s, later)
    ensures Extends(s.messages, later.messages)
  {
    var es :| Run(s, es) && After(s, es) == later;
    RunExtends(s, es);
  }

  lemma LeadsNowhere(s: State)
    ensures LeadsTo(s, s)
  {
    assert Run(s, []) && After(s, []) == s;
  }

  /** What the surroundings may do while the scenario with these tasks runs: any delivery step,
      also for other scenarios, except that only the scenario's own scheduler dispatches and
      skips its tasks. A restart would end the scheduler, too. Results that can be sent but not
      stored are left out, since replies are not unique with them. */
  predicate Allowed(s: State, e: Event, mine: set<TaskId>, scenario: ScenarioId)
    requires Enabled(s, e)
  {
    match e
    case Crash => false
    case Recover => false
    case Insert(row) => row.parses ==> row.scenario != scenario && row.msg.taskId !in mine
    case Skip(t) => t !in mine
    case _ => !RepliesUnstored(s, e)
  }

  /** The events of es, one after the other, as far as they can happen. */
  function Drive(s: State, es: seq<Event>, mine: set<TaskId>, scenario: ScenarioId): State
    decreases |es|
  {
    if es == [] then s
    else if Enabled(s, es[0]) && Allowed(s, es[0], mine, scenario)
    then Drive(Apply(s, es[0]), es[1..], mine, scenario)
    else Drive(s, es[1..], mine, scenario)
  }

  /** Every event of the run from s is allowed. */
  ghost predicate AllAllowed(s: State, es: seq<Event>, mine: set<TaskId>, scenario: ScenarioId)
    requires Run(s, es)
    decreases |es|
  {
    es == [] || (Allowed(s, es[0], mine, scenario) && AllAllowed(Apply(s, es[0]), es[1..], mine, scenario))
  }

  /** Events that can happen, do: nothing the surroundings may do is held up. */
  lemma {:induction false} DriveIsRun(s: State, es: seq<Event>, mine: set<TaskId>, scenario: ScenarioId)
    requires Run(s, es) && AllAllowed(s, es, mine, scenario)
    ensures Drive(s, es, mine, scenario) == After(s, es)
    decreases |es|
  {
    if es != [] {
      DriveIsRun(Apply(s, es[0]), es[1..], mine, scenario);
    }
  }

  /** The platform is up, and has not replied results that cannot be stored. */
  ghost predicate Sound(s: State) {
    s.up && exists es :: Run(INITIAL, es) && NeverRepliesUnstored(INITIAL, es) && After(INITIAL, es) == s
  }

  lemma SoundFacts(s: State)
    requires Sound(s)
    ensures Inv(s) && ReplyOk(s) && OriginOk(s.messages) && TableOk(s.messages)
  {
    var es :| Run(INITIAL, es) && NeverRepliesUnstored(INITIAL, es) && After(INITIAL, es) == s;
    InitialInv();
    RunKeepsInv(INITIAL, es);
    RunKeepsReplyOk(INITIAL, es);
    RunKeepsOrigin(INITIAL, es);
  }

  lemma SoundRowTells(s: State, k: nat)
    requires Sound(s) && k < |s.messages| && s.messages[k].Reply?
    ensures s.messages[k].task in s.tasks
    ensures s.tasks[s.messages[k].task]
            == if Truthy(Get(s.messages[k].result, SuccessKey, Null)) then Success else Failed
  {
    var es :| Run(INITIAL, es) && NeverRepliesUnstored(INITIAL, es) && After(INITIAL, es) == s;
    ReplyTellsState(es, k);
  }

  lemma {:induction false} NeverRepliesSnoc(s: State, es: seq<Event>, e: Event)
    requires Run(s, es) && NeverRepliesUnstored(s, es)
    requires Enabled(After(s, es), e) && !RepliesUnstored(After(s, es), e)
    ensures Run(s, es + [e]) && NeverRepliesUnstored(s, es + [e])
    decreases |es|
  {
    RunSnoc(s, es, e);
    if es == [] {
      assert [] + [e] == [e];
    } else {
      NeverRepliesSnoc(Apply(s, es[0]), es[1..], e);
      assert (es + [e])[1..] == es[1..] + [e];
    }
  }

  /** Exactly the tasks in `sent` have been dispatched for the scenario, and no other task in
      `mine` has been dispatched at all. */
  ghost predicate World(s: State, mine: set<TaskId>, scenario: ScenarioId, sent: set<TaskId>) {
    && Sound(s) && mine <= s.tasks.Keys
    && (forall t | t in mine && t !in sent :: Undispatched(s.messages, t))
    && DispatchedTasks(s.messages, scenario) == sent
  }

  /** A task that is not dispatched keeps its state, unless it is skipped. */
  lemma UndispatchedKeepsState(s: State, e: Event, t: TaskId)
    requires Enabled(s, e) && s.up && JobsOk(s.messages, s.acts, s.ws.deferred)
    requires t in s.tasks && Undispatched(s.messages, t) && e != Skip(t)
    ensures t in Apply(s, e).tasks && Apply(s, e).tasks[t] == s.tasks[t]
  {
    SkipHasNoActivity(s, t);
    if Moves(s, e) {
      MovedShape(s, e);
    } else if Parks(s, e) {
      ParkedShape(s, e);
    }
  }

  lemma SameDispatched(was: MessageTable, now: MessageTable, scenario: ScenarioId)
    requires Extends(was, now)
    requires forall k | |was| <= k < |now| :: !(now[k].Dispatch? && now[k].parses && now[k].scenario == scenario)
    ensures DispatchedTasks(now, scenario) == DispatchedTasks(was, scenario)
  {
    forall t ensures t in DispatchedTasks(now, scenario) <==> t in DispatchedTasks(was, scenario) {
      if t in DispatchedTasks(now, scenario) {
        var m :| m in now && m.Dispatch? && m.parses && m.scenario == scenario && m.msg.taskId == t;
        var k :| 0 <= k < |now| && now[k] == m;
        assert SameButAck(was[k], now[k]) && was[k] in was;
      }
      if t in DispatchedTasks(was, scenario) {
        var m :| m in was && m.Dispatch? && m.parses && m.scenario == scenario && m.msg.taskId == t;
        var k :| 0 <= k < |was| && was[k] == m;
        assert SameButAck(was[k], now[k]) && now[k] in now;
      }
    }
  }

  lemma StillUndispatched(was: MessageTable, now: MessageTable, t: TaskId)
    requires Extends(was, now) && Undispatched(was, t)
    requires forall k | |was| <= k < |now| :: !IsDispatchOf(now[k], t)
    ensures Undispatched(now, t)
  {
    forall k | 0 <= k < |now| ensures !IsDispatchOf(now[k], t) {
      if k < |was| {
        assert SameButAck(was[k], now[k]) && !IsDispatchOf(was[k], t);
      }
    }
  }

  lemma StepKeepsSound(s: State, e: Event)
    requires Enabled(s, e) && Sound(s) && !e.Crash? && !RepliesUnstored(s, e)
    ensures Sound(Apply(s, e)) && s.tasks.Keys <= Apply(s, e).tasks.Keys && Extends(s.messages, Apply(s, e).messages)
  {
    var es :| Run(INITIAL, es) && NeverRepliesUnstored(INITIAL, es) && After(INITIAL, es) == s;
    RunSnoc(INITIAL, es, e);
    NeverRepliesSnoc(INITIAL, es, e);
    SoundFacts(s);
    StaysUp(s, e);
    KeepsRows(s, e);
    MessagesExtend(s, e);
  }

  lemma StepKeepsWorld(s: State, e: Event, mine: set<TaskId>, scenario: ScenarioId, sent: set<TaskId>)
    requires Enabled(s, e) && World(s, mine, scenario, sent) && Allowed(s, e, mine, scenario)
    ensures World(Apply(s, e), mine, scenario, sent) && Extends(s.messages, Apply(s, e).messages)
    ensures forall t | t in mine && t !in sent :: Apply(s, e).tasks[t] == s.tasks[t]
  {
    var now := Apply(s, e).messages;
    SoundFacts(s);
    StepKeepsSound(s, e);
    forall k | |s.messages| <= k < |now|
      ensures now[k].Dispatch? && now[k].parses ==> now[k].scenario != scenario && now[k].msg.taskId !in mine
    {
      NewRow(s, e, k);
    }
    SameDispatched(s.messages, now, scenario);
    forall t | t in mine && t !in sent ensures Undispatched(now, t) && Apply(s, e).tasks[t] == s.tasks[t] {
      StillUndispatched(s.messages, now, t);
      UndispatchedKeepsState(s, e, t);
    }
  }

  lemma {:induction false} DriveKeepsWorld(s: State, es: seq<Event>, mine: set<TaskId>, scenario: ScenarioId,
                                           sent: set<TaskId>) returns (path: seq<Event>)
    requires World(s, mine, scenario, sent)
    ensures Run(s, path) && After(s, path) == Drive(s, es, mine, scenario)
    ensures World(Drive(s, es, mine, scenario), mine, scenario, sent)
    ensures Extends(s.messages, Drive(s, es, mine, scenario).messages)
    ensures forall t | t in mine && t !in sent :: Drive(s, es, mine, scenario).tasks[t] == s.tasks[t]
    decreases |es|
  {
    if es == [] {
      path := [];
    } else if Enabled(s, es[0]) && Allowed(s, es[0], mine, scenario) {
      var next := Apply(s, es[0]);
      StepKeepsWorld(s, es[0], mine, scenario, sent);
      var more := DriveKeepsWorld(next, es[1..], mine, scenario, sent);
      RunCons(s, es[0], more);
      path := [es[0]] + more;
      ExtendsTransitive(s.messages, next.messages, Drive(next, es[1..], mine, scenario).messages);
    } else {
      path := DriveKeepsWorld(s, es[1..], mine, scenario, sent);
    }
  }

  // ---- the scheduler's writes ---------------------------------------------------------------------

  /** Marking an undispatched task failed is a skip. */
  lemma SkippingKeepsWorld(s: State, mine: set<TaskId>, scenario: ScenarioId, sent: set<TaskId>, t: TaskId)
    requires World(s, mine, scenario, sent) && t in mine && t !in sent
    ensures var later := s.(tasks := Mark(s.tasks, t, Failed));
            LeadsTo(s, later) && World(later, mine, scenario, sent)
  {
    StepKeepsSound(s, Skip(t));
    assert Run(Apply(s, Skip(t)), []) && After(s, [Skip(t)]) == Apply(s, Skip(t));
  }

  lemma NotAmong(messages: MessageTable, scenario: ScenarioId, m: TaskMessage, t: TaskId)
    requires Undispatched(messages, t) && t != m.taskId
    ensures Undispatched(messages + [DispatchRow(scenario, m)], t)
  {
    var now := messages + [DispatchRow(scenario, m)];
    forall k | 0 <= k < |now| ensures !IsDispatchOf(now[k], t) {
      assert k < |messages| ==> !IsDispatchOf(messages[k], t);
    }
  }

  lemma OneMoreDispatched(messages: MessageTable, scenario: ScenarioId, m: TaskMessage)
    ensures DispatchedTasks(messages + [DispatchRow(scenario, m)], scenario)
            == DispatchedTasks(messages, scenario) + {m.taskId}
  {
    var row := DispatchRow(scenario, m);
    forall t ensures t in DispatchedTasks(messages + [row], scenario)
                     <==> t in DispatchedTasks(messages, scenario) || t == m.taskId
    {
      if t in DispatchedTasks(messages + [row], scenario) {
        var x :| x in messages + [row] && x.Dispatch? && x.parses && x.scenario == scenario && x.msg.taskId == t;
        assert x in messages || x == row;
      }
      if t in DispatchedTasks(messages, scenario) {
        var x :| x in messages && x.Dispatch? && x.parses && x.scenario == scenario && x.msg.taskId == t;
        assert x in messages + [row];
      }
      assert row in messages + [row];
    }
  }

  /** Writing a dispatch row is an insert. */
  lemma InsertingKeepsWorld(s: State, mine: set<TaskId>, scenario: ScenarioId, sent: set<TaskId>, m: TaskMessage)
    requires World(s, mine, scenario, sent) && m.taskId in mine && CleanContext(m.context)
    ensures var later := s.(messages := s.messages + [DispatchRow(scenario, m)]);
            && LeadsTo(s, later) && World(later, mine, scenario, sent + {m.taskId})
            && Extends(s.messages, later.messages)
  {
    var e := Insert(DispatchRow(scenario, m));
    StepKeepsSound(s, e);
    assert Run(Apply(s, e), []) && After(s, [e]) == Apply(s, e);
    OneMoreDispatched(s.messages, scenario, m);
    forall t | t in mine && t !in sent + {m.taskId}
      ensures Undispatched(s.messages + [DispatchRow(scenario, m)], t)
    {
      NotAmong(s.messages, scenario, m, t);
    }
  }
}
