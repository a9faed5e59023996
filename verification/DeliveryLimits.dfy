/** Where the guarantees of DeliverySafety end: the exact steps after which they fail, and
    reachable states in which they have failed, with the results that lead there. */
module DeliveryLimits {
  import opened Wrappers
  import opened Results
  import opened Store
  import opened WsServer
  import opened Delivery
  import opened DeliveryInvariant
  import opened DeliveryFutures
  import opened DeliverySafety

  // ---- the steps that break a guarantee --------------------------------------------------------

  /** Some continuation in which every task row is written acks a row of an unfinished task. */
  ghost predicate MayAckUnfinished(s: State) {
    exists es :: Run(s, es) && AlwaysWrites(s, es) && AckedUnfinished(After(s, es).messages, After(s, es).tasks)
  }

  /** Some continuation without unstorable replies ends with an unsound reply. */
  ghost predicate MayReplyUnsoundly(s: State) {
    exists es :: Run(s, es) && NeverRepliesUnstored(s, es)
                 && !RepliesSound(After(s, es).messages, After(s, es).tasks)
  }

  /** The ack goes out for whatever task is on its way to it. */
  lemma AckGoesOut(s: State, i: nat)
    requires Inv(s) && At(s, i) && s.acts[i].phase.Acking? && !IsTerminal(s.tasks, s.acts[i].Task())
    ensures Run(s, [Ack(i)]) && AlwaysWrites(s, [Ack(i)])
    ensures AckedUnfinished(After(s, [Ack(i)]).messages, After(s, [Ack(i)]).tasks)
  {
    var s' := Apply(s, Ack(i));
    assert Run(s', []) && After(s, [Ack(i)]) == s';
    assert JobOk(s.messages, s.acts[i].job);
    assert !RowAckOk(s'.messages[s.acts[i].job.dispatchId - 1], s'.tasks);
  }

  lemma ReplyThenAck(s: State, i: nat)
    requires Inv(s) && At(s, i) && s.acts[i].phase.Replying? && !IsTerminal(s.tasks, s.acts[i].Task())
    ensures MayAckUnfinished(s)
  {
    var s' := Apply(s, WriteReply(i));
    StepKeepsInv(s, WriteReply(i));
    AckGoesOut(s', i);
    RunCons(s, WriteReply(i), [Ack(i)]);
    assert ([WriteReply(i)] + [Ack(i)])[1..] == [Ack(i)];
    assert AlwaysWrites(s, [WriteReply(i)] + [Ack(i)]);
  }

  lemma SkippedWriteIsAcked(s: State, e: Event)
    requires Enabled(s, e) && Inv(s) && SkipsTaskWrite(s, e)
    ensures MayAckUnfinished(Apply(s, e))
  {
    StepKeepsInv(s, e);
    if e.SetupFails? {
      AckGoesOut(Apply(s, e), e.i);
    } else {
      ReplyThenAck(Apply(s, e), e.i);
    }
  }

  /** Ack after execute fails exactly because of these steps: from a sound state, a step lets
      some continuation, itself without such steps, ack a row of an unfinished task, if and
      only if it is a raising agent set-up or the finalizing of a result that cannot be
      stored. */
  lemma AckAfterExecuteFailsExactly(s: State, e: Event)
    requires Enabled(s, e) && Inv(s) && AckOk(s)
    ensures SkipsTaskWrite(s, e) <==> MayAckUnfinished(Apply(s, e))
  {
    if SkipsTaskWrite(s, e) {
      SkippedWriteIsAcked(s, e);
    } else {
      AckAfterExecuteStep(s, e);
      StepKeepsInv(s, e);
      forall es | Run(Apply(s, e), es) && AlwaysWrites(Apply(s, e), es)
        ensures !AckedUnfinished(After(Apply(s, e), es).messages, After(Apply(s, e), es).tasks)
      {
        RunKeepsAckOk(Apply(s, e), es);
      }
    }
  }

  lemma UnstoredReplyGoesOut(s: State, e: Event)
    requires Enabled(s, e) && Inv(s) && RepliesUnstored(s, e)
    ensures MayReplyUnsoundly(Apply(s, e))
  {
    var s1 := Apply(s, e);
    var s2 := Apply(s1, WriteReply(e.i));
    assert Run(s2, []) && After(s1, [WriteReply(e.i)]) == s2 && NeverRepliesUnstored(s1, [WriteReply(e.i)]);
    var reply := s2.messages[|s1.messages|];
    assert reply.Reply? && !IsTerminal(s2.tasks, reply.task);
  }

  /** At most one reply, for finished tasks only, fails exactly because of this step: the
      finalizing of a result that can be sent but not stored. */
  lemma OneReplyFailsExactly(s: State, e: Event)
    requires Enabled(s, e) && Inv(s) && ReplyOk(s)
    ensures RepliesUnstored(s, e) <==> MayReplyUnsoundly(Apply(s, e))
  {
    if RepliesUnstored(s, e) {
      UnstoredReplyGoesOut(s, e);
    } else {
      OneReplyStep(s, e);
      StepKeepsInv(s, e);
      forall es | Run(Apply(s, e), es) && NeverRepliesUnstored(Apply(s, e), es)
        ensures RepliesSound(After(Apply(s, e), es).messages, After(Apply(s, e), es).tasks)
      {
        RunKeepsReplyOk(Apply(s, e), es);
      }
    }
  }

  // ---- one task, forwarded to one server ----------------------------------------------------------

  const SRV := NumberId(7.0)

  function MessageFor(server: Value): TaskMessage {
    TaskMessage(1, Context(server, Null, None, Null))
  }

  const MSG := MessageFor(Int(7))

  function Row(acked: bool): Message {
    Dispatch(5, MSG, true, acked)
  }

  function JobFor(id: nat): Job {
    Job(5, MSG, id)
  }

  /** The server is connected through socket 3. Task 1 is not finished. */
  function Idle(messages: MessageTable, state: TaskState, futures: seq<Fut>): State {
    State(true, messages, map[1 := state], [], {}, [], Registry(map[SRV := 3], map[], map[], map[], futures),
          map[3 := Open(Some(SRV))])
  }

  /** The forward for row id is at `phase`, and nothing is pending. */
  function Forward(messages: MessageTable, id: nat, phase: Phase, futures: seq<Fut>): State {
    Idle(messages, Running, futures).(inFlight := {1}, acts := [Activity(JobFor(id), phase)])
  }

  lemma RegisteringIsReachable() returns (s: State)
    ensures Reachable(s)
    ensures s == Idle([], Pending, []).(tasks := map[], sockets := map[3 := Registering(SRV, None)])
  {
    InitiallyReachable();
    s := ReachStep(INITIAL, Connect(3));
    s := ReachStep(s, Register(3, SRV));
  }

  lemma ConnectedIsReachable() returns (s: State)
    ensures Reachable(s)
    ensures s == Idle([], Pending, []).(tasks := map[])
  {
    s := RegisteringIsReachable();
    s := ReachStep(s, Registered(3));
    assert s.acts == [] && s.ws.deferred == map[];
  }

  lemma DispatchedIsReachable()
    ensures Reachable(Idle([Row(false)], Pending, []))
  {
    var s := ConnectedIsReachable();
    s := ReachStep(s, Create(1));
    s := ReachStep(s, Insert(Row(false)));
    assert s == Idle([Row(false)], Pending, []);
  }

  lemma QueuedIsReachable(messages: MessageTable, id: nat, state: TaskState, futures: seq<Fut>)
    requires Reachable(Idle(messages, state, futures))
    requires FindUnacked(messages, 0, POLL_LIMIT) == [Record(id, Row(false))]
    ensures Reachable(Forward(messages, id, Queued, futures).(tasks := map[1 := state]))
  {
    var s := ReachStep(Idle(messages, state, futures), Poll);
    s := ReachStep(s, Take);
    assert s.acts == [Activity(JobFor(id), Queued)] && s.snapshot == [] && s.inFlight == {1};
  }

  lemma ScheduledIsReachable(messages: MessageTable, id: nat, state: TaskState, futures: seq<Fut>)
    requires Reachable(Forward(messages, id, Queued, futures).(tasks := map[1 := state]))
    ensures Reachable(Forward(messages, id, Scheduled(SRV), futures).(tasks := map[1 := state]))
  {
    var s := ReachStep(Forward(messages, id, Queued, futures).(tasks := map[1 := state]), Route(0));
    assert s.acts == [Activity(JobFor(id), Scheduled(SRV))];
  }

  lemma SendingIsReachable(messages: MessageTable, id: nat, state: TaskState, futures: seq<Fut>) returns (s: State)
    requires Reachable(Forward(messages, id, Queued, futures).(tasks := map[1 := state])) && !state.Terminal()
    ensures Reachable(s)
    ensures s == Forward(messages, id, Sending(SRV, |futures|), futures)
                 .(ws := Tracked(Idle([], Pending, futures).ws, 1, SRV))
  {
    ScheduledIsReachable(messages, id, state, futures);
    s := ReachStep(Forward(messages, id, Scheduled(SRV), futures).(tasks := map[1 := state]), Begin(0));
    assert s.acts == [Activity(JobFor(id), Sending(SRV, |futures|))];
  }

  lemma AnswerArrives(s: State, futures: seq<Fut>, result: Value)
    requires Reachable(s) && s.up && s.ws == Tracked(Idle([], Pending, futures).ws, 1, SRV)
    ensures Reachable(s.(ws := Idle([], Pending, futures + [Resolved(result)]).ws))
  {
    var later := ReachStep(s, TaskResult(1, result));
    assert later.ws.pending == map[] && later.ws.taskServer == map[];
  }

  /** The server answers with `result`. */
  lemma AnsweredIsReachable(messages: MessageTable, id: nat, state: TaskState, futures: seq<Fut>, result: Value)
    requires Reachable(Idle(messages, state, futures)) && !state.Terminal()
    requires FindUnacked(messages, 0, POLL_LIMIT) == [Record(id, Row(false))]
    ensures Reachable(Forward(messages, id, Awaiting(SRV, |futures|), futures + [Resolved(result)]))
  {
    QueuedIsReachable(messages, id, state, futures);
    var s := SendingIsReachable(messages, id, state, futures);
    s := ReachStep(s, Sent(0));
    assert s.acts == [Activity(JobFor(id), Awaiting(SRV, |futures|))];
    AnswerArrives(s, futures, result);
  }

  lemma {:induction false} OneUnackedFrom(messages: MessageTable, k: nat)
    requires k < |messages| && messages[|messages| - 1] == Row(false)
    requires forall j | 0 <= j < |messages| - 1 :: !Unacked(messages[j])
    ensures FindUnacked(messages, k, POLL_LIMIT) == [Record(|messages|, Row(false))]
    decreases |messages| - k
  {
    if k == |messages| - 1 {
      assert FindUnacked(messages, k + 1, POLL_LIMIT - 1) == [];
    } else {
      OneUnackedFrom(messages, k + 1);
    }
  }

  lemma OneUnacked(messages: MessageTable)
    requires |messages| > 0 && messages[|messages| - 1] == Row(false)
    requires forall k | 0 <= k < |messages| - 1 :: !Unacked(messages[k])
    ensures FindUnacked(messages, 0, POLL_LIMIT) == [Record(|messages|, Row(false))]
  {
    OneUnackedFrom(messages, 0);
  }

  lemma LostIsReachable(s: State, e: Event, t: TaskId)
    requires Reachable(s) && Enabled(s, e) && LosesTask(s, e) && t == s.acts[e.i].Task()
    ensures var s' := Apply(s, e);
            Reachable(s') && Stranded(s', t) && !Owned(s') && s'.tasks == s.tasks && s'.messages == s.messages
  {
    var es :| Run(INITIAL, es) && After(INITIAL, es) == s;
    InitialInv();
    RunKeepsInv(INITIAL, es);
    var s' := ReachStep(s, e);
    LosingStrandsTask(s, e);
    assert multiset(s'.inFlight)[t] == 1;
  }

  // ---- a server id that cannot be looked up -------------------------------------------------------

  /** For every server id that is a non-empty list or object there is a reachable state in which
      its task is pending, in flight, held by nobody, and its row is unacked. By
      StuckRowIsNeverAcked that row is never acked, not even after a restart. */
  lemma UnroutableIsReachable(server: Value)
    requires Unroutable(server) && Clean(server)
    ensures exists s :: Reachable(s) && Stranded(s, 1) && !Owned(s) && s.tasks == map[1 := Pending]
                        && s.messages == [Dispatch(5, MessageFor(server), true, false)]
  {
    var row := Dispatch(5, MessageFor(server), true, false);
    InitiallyReachable();
    var s := ReachStep(INITIAL, Create(1));
    s := ReachStep(s, Insert(row));
    assert s.messages == [row];
    assert FindUnacked([row], 1, POLL_LIMIT - 1) == [];
    s := ReachStep(s, Poll);
    s := ReachStep(s, Take);
    assert s.acts == [Activity(Job(5, row.msg, 1), Queued)];
    LostIsReachable(s, Route(0), 1);
  }

  // ---- a result that kills its forward ------------------------------------------------------------

  /** For every value that is neither an object nor falsy there is a reachable state in which
      it has been the result of task 1: the task is running, in flight, held by nobody, and its
      row is unacked. */
  lemma KilledForwardIsReachable(result: Value)
    requires KillsForward(result)
    ensures exists s :: Reachable(s) && Stranded(s, 1) && !Owned(s)
                        && s.messages == [Row(false)] && s.tasks == map[1 := Running]
  {
    DispatchedIsReachable();
    OneUnacked([Row(false)]);
    AnsweredIsReachable([Row(false)], 1, Pending, [], result);
    var s := Forward([Row(false)], 1, Awaiting(SRV, 0), [Resolved(result)]);
    assert [] + [Resolved(result)] == [Resolved(result)];
    LostIsReachable(s, Resume(0), 1);
  }

  // ---- results that cannot be stored --------------------------------------------------------------

  lemma FinalizingIsReachable(messages: MessageTable, id: nat, futures: seq<Fut>, result: Value)
    requires Reachable(Forward(messages, id, Awaiting(SRV, |futures|), futures + [Resolved(result)]))
    requires !KillsForward(result)
    ensures Reachable(Forward(messages, id, Finalizing(RemoteOutcome(result, Null)), futures + [Resolved(result)]))
  {
    var s := ReachStep(Forward(messages, id, Awaiting(SRV, |futures|), futures + [Resolved(result)]), Resume(0));
    assert s.acts == [Activity(JobFor(id), Finalizing(RemoteOutcome(result, Null)))];
    assert s.ws.pending == map[] && s.ws.taskServer == map[];
  }

  lemma RepliedIsReachable(messages: MessageTable, id: nat, futures: seq<Fut>, outcome: Outcome)
    requires Reachable(Forward(messages, id, Finalizing(outcome), futures)) && !outcome.Storable()
    ensures Reachable(Forward(WithReply(messages, 5, 1, outcome), id, Acking, futures))
  {
    var s := ReachStep(Forward(messages, id, Finalizing(outcome), futures), Finalize(0));
    assert s.acts == [Activity(JobFor(id), Replying(outcome))];
    s := ReachStep(s, WriteReply(0));
    assert s.acts == [Activity(JobFor(id), Acking)];
  }

  lemma ReleasedIsReachable(messages: MessageTable, id: nat, futures: seq<Fut>)
    requires Reachable(Forward(messages, id, Acking, futures))
    ensures Reachable(Idle(AckRow(messages, id), Running, futures))
  {
    var s := ReachStep(Forward(messages, id, Acking, futures), Ack(0));
    assert s.acts == [Activity(JobFor(id), Releasing)];
    s := ReachStep(s, Release(0));
    assert s.acts == [] && s.inFlight == {};
  }

  /** After a result that cannot be stored: the row is acked and the slot is free, but the task
      is still running. */
  lemma UnstorableIsAcked(result: Value)
    requires !KillsForward(result) && !RemoteOutcome(result, Null).Storable()
    ensures Reachable(Idle(WithReply([Row(true)], 5, 1, RemoteOutcome(result, Null)), Running, [Resolved(result)]))
  {
    var outcome, rows := RemoteOutcome(result, Null), [Row(false)];
    DispatchedIsReachable();
    OneUnacked(rows);
    AnsweredIsReachable(rows, 1, Pending, [], result);
    FinalizingIsReachable(rows, 1, [], result);
    RepliedIsReachable(rows, 1, [] + [Resolved(result)], outcome);
    ReleasedIsReachable(WithReply(rows, 5, 1, outcome), 1, [] + [Resolved(result)]);
    assert AckRow(WithReply(rows, 5, 1, outcome), 1) == WithReply([Row(true)], 5, 1, outcome);
    assert [] + [Resolved(result)] == [Resolved(result)];
  }

  /** `null`, or any other falsy value that is not an object: the row is acked, the task stays
      running, and no reply exists. */
  lemma FalsyResultIsAckedUnfinished(result: Value)
    requires !result.Object? && !Truthy(result)
    ensures exists s :: Reachable(s) && s.messages == [Row(true)] && s.tasks == map[1 := Running]
  {
    NotAnObject(result, Null);
    UnstorableIsAcked(result);
  }

  /** A success with an unpaired surrogate in its output: likewise. */
  lemma UncleanResultIsAckedUnfinished()
    ensures exists s :: Reachable(s) && s.messages == [Row(true)] && s.tasks == map[1 := Running]
  {
    OddOutput(Null);
    UnstorableIsAcked(ODD_OUTPUT);
  }

  lemma DispatchedAgain(messages: MessageTable, futures: seq<Fut>)
    requires Reachable(Idle(messages, Running, futures))
    ensures Reachable(Idle(messages + [Row(false)], Running, futures))
  {
    var s := ReachStep(Idle(messages, Running, futures), Insert(Row(false)));
    assert s == Idle(messages + [Row(false)], Running, futures);
  }

  /** A result that can be sent but not stored: a reply for a task that is still running, and
      after another dispatch row of the task, a second reply. */
  lemma UnstoredResultRepliesTwice(result: JsonObject)
    requires RemoteOutcome(result, Null).Encodable() && !RemoteOutcome(result, Null).Storable()
    ensures exists s, j, k :: Reachable(s) && 0 <= j < k < |s.messages|
                              && s.messages[j] == s.messages[k] == Reply(5, 1, result, true)
  {
    UnstorableIsAcked(result);
    var replied := [Row(true), Reply(5, 1, result, true)];
    var rows := replied + [Row(false)];
    DispatchedAgain(replied, [Resolved(result)]);
    OneUnacked(rows);
    AnsweredIsReachable(rows, 3, Running, [Resolved(result)], result);
    FinalizingIsReachable(rows, 3, [Resolved(result)], result);
    RepliedIsReachable(rows, 3, [Resolved(result)] + [Resolved(result)], RemoteOutcome(result, Null));
    var later := WithReply(rows, 5, 1, RemoteOutcome(result, Null));
    assert later[1] == later[3] == Reply(5, 1, result, true);
  }

  /** Two such results: a success whose role is a list, and a failure whose error is one. */
  lemma SuccessAndFailureReplyTwice()
    ensures exists s, j, k :: Reachable(s) && 0 <= j < k < |s.messages|
                              && s.messages[j] == s.messages[k] == Reply(5, 1, ODD_ROLE, true)
    ensures exists s, j, k :: Reachable(s) && 0 <= j < k < |s.messages|
                              && s.messages[j] == s.messages[k] == Reply(5, 1, ODD_ERROR, true)
  {
    OddRole(Null);
    OddError(Null);
    UnstoredResultRepliesTwice(ODD_ROLE);
    UnstoredResultRepliesTwice(ODD_ERROR);
  }
}
