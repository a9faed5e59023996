/** The guarantees of delivery from its inputs alone: ordinary results, roles and server ids, and
    agents that can be set up. */
module DeliveryInputs {
  import opened Results
  import opened Store
  import opened WsServer
  import opened Delivery
  import opened DeliveryInvariant
  import opened DeliveryFutures
  import opened DeliverySafety

  predicate OrdinaryRun(run: AgentRun) {
    match run
    case Raises(message) => CleanText(message)
    case Returns(result) => result.Object? ==> Ordinary(result)
  }

  predicate OrdinaryRow(m: Message) {
    m.Dispatch? && m.parses ==> Binds(m.msg.context.role) && !Unroutable(m.msg.context.server)
  }

  /** What the outside may contribute to a step: a server's result, an agent's result or
      exception, a dispatch row. */
  predicate OrdinaryInput(e: Event) {
    match e
    case TaskResult(_, result) => Ordinary(result)
    case Finish(_, run) => OrdinaryRun(run)
    case Insert(row) => OrdinaryRow(row)
    case SetupFails(_) => false
    case _ => true
  }

  predicate Writable(outcome: Outcome) {
    outcome.Storable() && outcome.Encodable()
  }

  predicate WritablePhase(phase: Phase) {
    phase.Finalizing? ==> Writable(phase.outcome)
  }

  predicate OrdinaryFut(f: Fut) {
    f.Resolved? ==> Ordinary(f.result)
  }

  /** Everything the state has taken in so far was ordinary. */
  ghost predicate OrdinaryState(s: State) {
    && (forall k | 0 <= k < |s.messages| :: OrdinaryRow(s.messages[k]))
    && (forall f | 0 <= f < |s.ws.futures| :: OrdinaryFut(s.ws.futures[f]))
    && (forall i | 0 <= i < |s.acts| :: WritablePhase(s.acts[i].phase))
  }

  lemma NewRow(s: State, e: Event, k: nat)
    requires Enabled(s, e) && |s.messages| <= k < |Apply(s, e).messages|
    ensures (e.Insert? && Apply(s, e).messages[k] == e.row) || Apply(s, e).messages[k].Reply?
  {
  }

  lemma RowsStayOrdinary(s: State, e: Event)
    requires Enabled(s, e) && OrdinaryState(s) && OrdinaryInput(e)
    ensures forall k | 0 <= k < |Apply(s, e).messages| :: OrdinaryRow(Apply(s, e).messages[k])
  {
    var ms := Apply(s, e).messages;
    MessagesExtend(s, e);
    forall k | 0 <= k < |ms| ensures OrdinaryRow(ms[k]) {
      if k < |s.messages| {
        assert SameButAck(s.messages[k], ms[k]) && OrdinaryRow(s.messages[k]);
      } else {
        NewRow(s, e, k);
      }
    }
  }

  lemma FuturesStayOrdinary(s: State, e: Event)
    requires Enabled(s, e) && OrdinaryState(s) && OrdinaryInput(e)
    ensures forall f | 0 <= f < |Apply(s, e).ws.futures| :: OrdinaryFut(Apply(s, e).ws.futures[f])
  {
    if !e.Crash? && !(e.TaskResult? || e.Begin? || e.RegisterAckFails? || e.Close?) {
      OthersLeaveFutures(s, e);
    }
  }

  lemma JobIsOrdinary(s: State, i: nat)
    requires Inv(s) && OrdinaryState(s) && i < |s.acts|
    ensures Binds(s.acts[i].job.msg.context.role) && !Unroutable(s.acts[i].job.msg.context.server)
  {
    assert JobOk(s.messages, s.acts[i].job);
    assert OrdinaryRow(s.messages[s.acts[i].job.dispatchId - 1]);
  }

  lemma LocalIsWritable(run: AgentRun, role: Value)
    requires OrdinaryRun(run) && Binds(role)
    ensures Writable(LocalOutcome(run, role))
  {
    match run
    case Raises(message) => FailureIsWritten(message);
    case Returns(result) =>
      if result.Object? {
        OrdinaryIsWritten(result, role);
      } else {
        FailureIsWritten(Literal("no attribute 'get'"));
      }
  }

  lemma OnlyResultsFinalize(s: State, e: Event)
    requires Enabled(s, e) && Moves(s, e) && !e.Finish? && !e.Resume?
    ensures e.i < |Apply(s, e).acts| && !Apply(s, e).acts[e.i].phase.Finalizing?
  {
  }

  lemma MovedStaysWritable(s: State, e: Event)
    requires Enabled(s, e) && Inv(s) && OrdinaryState(s) && OrdinaryInput(e) && Moves(s, e)
    ensures e.i < |Apply(s, e).acts| && WritablePhase(Apply(s, e).acts[e.i].phase)
  {
    var role := s.acts[e.i].job.msg.context.role;
    JobIsOrdinary(s, e.i);
    if e.Finish? {
      LocalIsWritable(e.run, role);
    } else if e.Resume? {
      var f := s.ws.futures[s.acts[e.i].phase.fut];
      assert OrdinaryFut(f);
      OrdinaryIsWritten(f.result, role);
    } else {
      OnlyResultsFinalize(s, e);
    }
  }

  lemma ActsStayWritable(s: State, e: Event)
    requires Enabled(s, e) && Inv(s) && OrdinaryState(s) && OrdinaryInput(e)
    ensures forall i | 0 <= i < |Apply(s, e).acts| :: WritablePhase(Apply(s, e).acts[i].phase)
  {
    forall i | 0 <= i < |Apply(s, e).acts| ensures WritablePhase(Apply(s, e).acts[i].phase) {
      if Moves(s, e) && i == e.i {
        MovedStaysWritable(s, e);
      } else {
        var k := ActComesFrom(s, e, i);
        assert k < |s.acts| ==> WritablePhase(s.acts[k].phase);
      }
    }
  }

  /** In an ordinary state none of the failing steps can happen, except a raising set-up. */
  lemma OrdinaryStepIsSafe(s: State, e: Event)
    requires Enabled(s, e) && Inv(s) && OrdinaryState(s) && !e.SetupFails?
    ensures !SkipsTaskWrite(s, e) && !RepliesUnstored(s, e) && !LosesTask(s, e)
  {
    if e.Route? {
      JobIsOrdinary(s, e.i);
    } else if e.Finalize? {
      assert WritablePhase(s.acts[e.i].phase);
    } else if e.Resume? {
      var f := s.ws.futures[s.acts[e.i].phase.fut];
      assert OrdinaryFut(f);
    }
  }

  lemma {:induction false} OrdinaryRunIsSafe(s: State, es: seq<Event>)
    requires Inv(s) && OrdinaryState(s) && Run(s, es) && forall e | e in es :: OrdinaryInput(e)
    ensures AlwaysWrites(s, es) && NeverRepliesUnstored(s, es) && NeverLosesTask(s, es)
    decreases |es|
  {
    if es != [] {
      var e := es[0];
      assert e in es && OrdinaryInput(e);
      OrdinaryStepIsSafe(s, e);
      RowsStayOrdinary(s, e);
      FuturesStayOrdinary(s, e);
      ActsStayWritable(s, e);
      StepKeepsInv(s, e);
      OrdinaryRunIsSafe(Apply(s, e), es[1..]);
    }
  }

  /** With ordinary inputs, over any run and any number of crashes: every task in flight has
      exactly one holder, rows are acked for finished tasks only, and every task gets at most
      one reply, and that once it is finished. */
  lemma OrdinaryInputsAreSafe(es: seq<Event>)
    requires Run(INITIAL, es) && forall e | e in es :: OrdinaryInput(e)
    ensures var s := After(INITIAL, es);
            Owned(s) && !AckedUnfinished(s.messages, s.tasks) && RepliesSound(s.messages, s.tasks)
  {
    InitialInv();
    OrdinaryRunIsSafe(INITIAL, es);
    RunKeepsOwned(INITIAL, es);
    AckAfterExecute(es);
    AtMostOneReply(es);
  }
}
