/** What the reply rows say: whose result they carry, and how the task ended. */
module DeliveryResults {
  import opened Results
  import opened Store
  import opened WsServer
  import opened Delivery
  import opened DeliveryInvariant
  import opened DeliveryFutures
  import opened DeliverySafety

  // ---- a reply row tells how its task ended ------------------------------------------------------

  predicate TellsState(tasks: TaskTable, t: TaskId, result: Value)
    requires result.Object?
  {
    t in tasks && tasks[t] == if Truthy(Get(result, SuccessKey, Null)) then Success else Failed
  }

  predicate RowTells(tasks: TaskTable, m: Message) {
    m.Reply? ==> TellsState(tasks, m.task, m.result)
  }

  predicate ReplierTells(tasks: TaskTable, a: Activity) {
    a.phase.Replying? && a.phase.outcome.Encodable() ==> TellsState(tasks, a.Task(), a.phase.outcome.result)
  }

  /** Every reply row, and every activity about to write one, tells the state of its task. */
  ghost predicate RepliesTell(s: State) {
    && (forall k | 0 <= k < |s.messages| :: RowTells(s.tasks, s.messages[k]))
    && (forall i | 0 <= i < |s.acts| :: ReplierTells(s.tasks, s.acts[i]))
  }

  lemma RepliedIsDispatched(messages: MessageTable, k: nat)
    requires OriginOk(messages) && k < |messages| && messages[k].Reply?
    ensures !Undispatched(messages, messages[k].task)
  {
    assert AnswersRow(messages, k);
    var j :| 0 <= j < k && IsDispatchOf(messages[j], messages[k].task)
                        && messages[j].scenario == messages[k].scenario;
  }

  /** A finished task with a dispatch row keeps its very state. */
  lemma TellsForGood(s: State, e: Event, t: TaskId, result: Value)
    requires Enabled(s, e) && Inv(s) && result.Object? && TellsState(s.tasks, t, result)
    requires !Undispatched(s.messages, t)
    ensures TellsState(Apply(s, e).tasks, t, result)
  {
    TerminalStays(s, e, t);
  }

  lemma ActIsDispatched(s: State, i: nat)
    requires Inv(s) && i < |s.acts|
    ensures !Undispatched(s.messages, s.acts[i].Task())
  {
    assert JobOk(s.messages, s.acts[i].job);
    assert IsDispatchOf(s.messages[s.acts[i].job.dispatchId - 1], s.acts[i].Task());
  }

  /** Finalizing a result that can be stored writes the state that it tells. */
  lemma FinalizedTells(s: State, e: Event)
    requires Enabled(s, e) && Inv(s) && e.Finalize? && !RepliesUnstored(s, e)
    ensures e.i < |Apply(s, e).acts| && ReplierTells(Apply(s, e).tasks, Apply(s, e).acts[e.i])
  {
    assert s.acts[e.i].Task() in s.tasks;
  }

  lemma ReplierStaysTelling(s: State, e: Event, i: nat)
    requires Enabled(s, e) && Inv(s) && RepliesTell(s) && !RepliesUnstored(s, e) && i < |Apply(s, e).acts|
    ensures ReplierTells(Apply(s, e).tasks, Apply(s, e).acts[i])
  {
    var a := Apply(s, e).acts[i];
    if a.phase.Replying? && a.phase.outcome.Encodable() {
      if Moves(s, e) && i == e.i {
        OnlyFinalizeStartsReplying(s, e);
        FinalizedTells(s, e);
      } else {
        var k := ActComesFrom(s, e, i);
        assert ReplierTells(s.tasks, s.acts[k]);
        ActIsDispatched(s, k);
        TellsForGood(s, e, a.Task(), a.phase.outcome.result);
      }
    }
  }

  lemma RowStaysTelling(s: State, e: Event, k: nat)
    requires Enabled(s, e) && Inv(s) && OriginOk(s.messages) && RepliesTell(s) && k < |Apply(s, e).messages|
    ensures RowTells(Apply(s, e).tasks, Apply(s, e).messages[k])
  {
    var m := Apply(s, e).messages[k];
    if m.Reply? {
      SameReplies(s, e, k);
      if k < |s.messages| {
        assert RowTells(s.tasks, s.messages[k]);
        RepliedIsDispatched(s.messages, k);
        TellsForGood(s, e, m.task, m.result);
      } else {
        assert ReplierTells(s.tasks, s.acts[e.i]);
        ActIsDispatched(s, e.i);
        TellsForGood(s, e, m.task, m.result);
      }
    }
  }

  lemma {:induction false} RunKeepsTelling(s: State, es: seq<Event>)
    requires Inv(s) && OriginOk(s.messages) && RepliesTell(s) && Run(s, es) && NeverRepliesUnstored(s, es)
    ensures RepliesTell(After(s, es))
    decreases |es|
  {
    if es != [] {
      var next := Apply(s, es[0]);
      StepKeepsInv(s, es[0]);
      KeepsOrigin(s, es[0]);
      forall k | 0 <= k < |next.messages| ensures RowTells(next.tasks, next.messages[k]) {
        RowStaysTelling(s, es[0], k);
      }
      forall i | 0 <= i < |next.acts| ensures ReplierTells(next.tasks, next.acts[i]) {
        ReplierStaysTelling(s, es[0], i);
      }
      RunKeepsTelling(next, es[1..]);
    }
  }

  /** Over every run in which no result is replied that cannot be stored, crashes included: the task of
      a reply row is in state success if the result in the row says so, and failed otherwise. */
  lemma ReplyTellsState(es: seq<Event>, k: nat)
    requires Run(INITIAL, es) && NeverRepliesUnstored(INITIAL, es)
    requires k < |After(INITIAL, es).messages| && After(INITIAL, es).messages[k].Reply?
    ensures var s := After(INITIAL, es);
            && s.messages[k].task in s.tasks
            && s.tasks[s.messages[k].task]
               == if Truthy(Get(s.messages[k].result, SuccessKey, Null)) then Success else Failed
  {
    InitialInv();
    RunKeepsTelling(INITIAL, es);
    assert RowTells(After(INITIAL, es).tasks, After(INITIAL, es).messages[k]);
  }

  // ---- whose result a reply row carries ------------------------------------------------------------

  /** What an agent's run comes to as a result: an object that it returns is the result itself; an
      exception becomes a failure with its message; any other value becomes some failure. */
  ghost predicate Yields(run: AgentRun, result: Value) {
    match run
    case Raises(message) =>
      result == Object(map[SuccessKey := Bool(false), OutputKey := String([]), ErrorKey := String(message)])
    case Returns(value) =>
      if value.Object? then result == value else result.Object? && !Truthy(Get(result, SuccessKey, Null))
  }

  /** The step brings the result of task t: a server's message, or the end of a local agent's run. */
  ghost predicate Brings(s: State, e: Event, t: TaskId, result: Value)
    requires Enabled(s, e)
  {
    match e
    case TaskResult(u, v) => u == t && v == result
    case Finish(i, run) => s.acts[i].Task() == t && Yields(run, result)
    case _ => false
  }

  ghost predicate Brought(s: State, es: seq<Event>, t: TaskId, result: Value)
    requires Run(s, es)
    decreases |es|
  {
    es != [] && (Brings(s, es[0], t, result) || Brought(Apply(s, es[0]), es[1..], t, result))
  }

  type Known = iset<(TaskId, Value)>

  ghost predicate RowKnown(m: Message, known: Known) {
    m.Reply? ==> (m.task, m.result) in known
  }

  ghost predicate ActKnown(a: Activity, futures: seq<Fut>, known: Known) {
    && (a.phase.Finalizing? || a.phase.Replying? ==> (a.Task(), a.phase.outcome.result) in known)
    && (a.phase.Forwarding() && a.phase.fut < |futures| && futures[a.phase.fut].Resolved? ==>
          (a.Task(), futures[a.phase.fut].result) in known)
  }

  /** Whatever result stands in the state is known. */
  ghost predicate AllKnown(s: State, known: Known) {
    && (forall k | 0 <= k < |s.messages| :: RowKnown(s.messages[k], known))
    && (forall i | 0 <= i < |s.acts| :: ActKnown(s.acts[i], s.ws.futures, known))
  }

  ghost function NowKnown(s: State, e: Event, known: Known): Known
    requires Enabled(s, e)
  {
    known + iset t, result | Brings(s, e, t, result) :: (t, result)
  }

  lemma RowStaysKnown(s: State, e: Event, known: Known, k: nat)
    requires Enabled(s, e) && AllKnown(s, known) && k < |Apply(s, e).messages|
    ensures RowKnown(Apply(s, e).messages[k], known)
  {
    if Apply(s, e).messages[k].Reply? {
      SameReplies(s, e, k);
      if k < |s.messages| {
        assert RowKnown(s.messages[k], known);
      } else {
        assert ActKnown(s.acts[e.i], s.ws.futures, known);
      }
    }
  }

  /** A server's message resolves the future of its own task. */
  lemma AnsweredStaysKnown(s: State, t: TaskId, result: Value, known: Known, i: nat)
    requires Enabled(s, TaskResult(t, result)) && Inv(s) && AllKnown(s, known) && i < |s.acts|
    ensures ActKnown(s.acts[i], Apply(s, TaskResult(t, result)).ws.futures, NowKnown(s, TaskResult(t, result), known))
  {
    assert ActKnown(s.acts[i], s.ws.futures, known);
    assert Brings(s, TaskResult(t, result), t, result);
    if t in s.ws.pending && s.acts[i].Task() != t && s.acts[i].phase.Forwarding() {
      OwnFuture(s.acts, s.ws, t, i);
    }
  }

  lemma DisconnectedStaysKnown(a: Activity, ws: Registry, sid: ServerId, w: SocketId, known: Known)
    requires ActKnown(a, ws.futures, known)
    ensures ActKnown(a, Disconnected(ws, sid, w).futures, known)
  {
  }

  lemma FinishedIsKnown(s: State, i: nat, run: AgentRun, known: Known)
    requires Enabled(s, Finish(i, run))
    ensures i < |Apply(s, Finish(i, run)).acts|
    ensures ActKnown(Apply(s, Finish(i, run)).acts[i], s.ws.futures, NowKnown(s, Finish(i, run), known))
  {
    var outcome := LocalOutcome(run, s.acts[i].job.msg.context.role);
    assert Brings(s, Finish(i, run), s.acts[i].Task(), outcome.result);
  }

  lemma ResumedIsKnown(s: State, i: nat, known: Known)
    requires Enabled(s, Resume(i)) && Moves(s, Resume(i)) && ActKnown(s.acts[i], s.ws.futures, known)
    ensures i < |ResumeStep(s, i).acts|
    ensures ActKnown(ResumeStep(s, i).acts[i], ResumeStep(s, i).ws.futures, known)
  {
  }

  lemma BegunIsKnown(s: State, i: nat, known: Known)
    requires Enabled(s, Begin(i)) && Moves(s, Begin(i)) && ActKnown(s.acts[i], s.ws.futures, known)
    ensures i < |BeginStep(s, i).acts|
    ensures ActKnown(BeginStep(s, i).acts[i], BeginStep(s, i).ws.futures, known)
  {
  }

  lemma OtherMoveStaysKnown(s: State, e: Event, known: Known)
    requires Enabled(s, e) && Moves(s, e) && !e.Finish? && !e.Resume? && !e.Begin?
    requires ActKnown(s.acts[e.i], s.ws.futures, known) && ForwardOk(s.acts[e.i], s.ws)
    ensures e.i < |Apply(s, e).acts| && ActKnown(Apply(s, e).acts[e.i], Apply(s, e).ws.futures, known)
  {
    OtherMovesKeepRegistry(s, e);
  }

  /** The activity that moves goes on with the result it has, or with the one the step brings. */
  lemma MovedStaysKnown(s: State, e: Event, known: Known)
    requires Enabled(s, e) && Inv(s) && AllKnown(s, known) && Moves(s, e)
    ensures e.i < |Apply(s, e).acts|
    ensures ActKnown(Apply(s, e).acts[e.i], Apply(s, e).ws.futures, NowKnown(s, e, known))
  {
    assert ActKnown(s.acts[e.i], s.ws.futures, known) && ForwardOk(s.acts[e.i], s.ws);
    if e.Finish? {
      FinishedIsKnown(s, e.i, e.run, known);
    } else if e.Resume? {
      ResumedIsKnown(s, e.i, known);
    } else if e.Begin? {
      BegunIsKnown(s, e.i, known);
    } else {
      OtherMoveStaysKnown(s, e, known);
    }
  }

  lemma ExitStaysKnown(s: State, e: Event, k: nat, known: Known)
    requires Enabled(s, e) && (e.Close? || e.RegisterAckFails?)
    requires k < |s.acts| && ActKnown(s.acts[k], s.ws.futures, known)
    ensures ActKnown(s.acts[k], Apply(s, e).ws.futures, known)
  {
    var held := if e.Close? then s.sockets[e.w].sid else s.sockets[e.w].prev;
    if held.Some? {
      DisconnectedStaysKnown(s.acts[k], s.ws, held.value, e.w, known);
    }
  }

  lemma BegunLeavesOthers(s: State, i: nat, k: nat, known: Known)
    requires Enabled(s, Begin(i)) && k < |s.acts| && ForwardOk(s.acts[k], s.ws)
    requires ActKnown(s.acts[k], s.ws.futures, known)
    ensures ActKnown(s.acts[k], BeginStep(s, i).ws.futures, known)
  {
  }

  /** Futures other than the answered one keep their results or lose them. */
  lemma SameFutureKnown(s: State, e: Event, k: nat, known: Known)
    requires Enabled(s, e) && Inv(s) && AllKnown(s, known) && k < |s.acts| && !e.Crash?
    ensures ActKnown(s.acts[k], Apply(s, e).ws.futures, NowKnown(s, e, known))
  {
    assert ActKnown(s.acts[k], s.ws.futures, known) && ForwardOk(s.acts[k], s.ws);
    if e.TaskResult? {
      AnsweredStaysKnown(s, e.task, e.result, known, k);
    } else if e.Begin? {
      BegunLeavesOthers(s, e.i, k, known);
    } else if e.Close? || e.RegisterAckFails? {
      ExitStaysKnown(s, e, k, known);
    } else {
      OthersLeaveFutures(s, e);
    }
  }

  lemma ActStaysKnown(s: State, e: Event, known: Known, i: nat)
    requires Enabled(s, e) && Inv(s) && AllKnown(s, known) && i < |Apply(s, e).acts|
    ensures ActKnown(Apply(s, e).acts[i], Apply(s, e).ws.futures, NowKnown(s, e, known))
  {
    var a := Apply(s, e).acts[i];
    if Moves(s, e) && i == e.i {
      MovedStaysKnown(s, e, known);
    } else if !e.Crash? && (a.phase.Finalizing? || a.phase.Replying? || a.phase.Forwarding()) {
      var k := ActComesFrom(s, e, i);
      SameFutureKnown(s, e, k, known);
    }
  }

  lemma StepKeepsKnown(s: State, e: Event, known: Known)
    requires Enabled(s, e) && Inv(s) && AllKnown(s, known)
    ensures AllKnown(Apply(s, e), NowKnown(s, e, known))
  {
    var s' := Apply(s, e);
    forall k | 0 <= k < |s'.messages| ensures RowKnown(s'.messages[k], NowKnown(s, e, known)) {
      RowStaysKnown(s, e, known, k);
    }
    forall i | 0 <= i < |s'.acts| ensures ActKnown(s'.acts[i], s'.ws.futures, NowKnown(s, e, known)) {
      ActStaysKnown(s, e, known, i);
    }
  }

  lemma {:induction false} RowsAreBrought(s: State, es: seq<Event>, known: Known, k: nat)
    requires Inv(s) && AllKnown(s, known) && Run(s, es)
    requires k < |After(s, es).messages| && After(s, es).messages[k].Reply?
    ensures var m := After(s, es).messages[k];
            (m.task, m.result) in known || Brought(s, es, m.task, m.result)
    decreases |es|
  {
    if es == [] {
      assert RowKnown(s.messages[k], known);
    } else {
      StepKeepsInv(s, es[0]);
      StepKeepsKnown(s, es[0], known);
      RowsAreBrought(Apply(s, es[0]), es[1..], NowKnown(s, es[0], known), k);
    }
  }

  /** Over every run, crashes included, each reply row carries a result that a server sent for its
      very task, or that the agent executing it came to. */
  lemma ReplyCarriesResult(es: seq<Event>, k: nat)
    requires Run(INITIAL, es) && k < |After(INITIAL, es).messages| && After(INITIAL, es).messages[k].Reply?
    ensures Brought(INITIAL, es, After(INITIAL, es).messages[k].task, After(INITIAL, es).messages[k].result)
  {
    InitialInv();
    RowsAreBrought(INITIAL, es, iset{}, k);
  }
}
