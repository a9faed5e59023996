/** Safety of task delivery over whole runs: ack after execute, at most one reply,
    terminal states, futures, and redelivery after a restart. */
module DeliverySafety {
  import opened Results
  import opened Store
  import opened WsServer
  import opened Delivery
  import opened DeliveryInvariant
  import opened DeliveryFutures

  // ---- terminal states -------------------------------------------------------------------------

  lemma TerminalMoving(s: State, e: Event, t: TaskId)
    requires Enabled(s, e) && Inv(s) && IsTerminal(s.tasks, t) && Moves(s, e)
    ensures t in Apply(s, e).tasks && Apply(s, e).tasks[t] == s.tasks[t]
  {
    MovedShape(s, e);
  }

  /** No step takes a task out of the terminal states, and only a skip of an undispatched
      task can replace one terminal state by another. */
  lemma TerminalStays(s: State, e: Event, t: TaskId)
    requires Enabled(s, e) && Inv(s) && IsTerminal(s.tasks, t)
    ensures IsTerminal(Apply(s, e).tasks, t)
    ensures !(e.Skip? && e.task == t) ==> Apply(s, e).tasks[t] == s.tasks[t]
  {
    if Moves(s, e) {
      assert s.acts[e.i].Task() in s.tasks;
      TerminalMoving(s, e, t);
    } else if Parks(s, e) {
      ParkedShape(s, e);
    }
  }

  /** A terminal task stays terminal in every run, and keeps its very state unless the
      scheduler skips it. */
  lemma {:induction false} TerminalForever(s: State, es: seq<Event>, t: TaskId)
    requires Inv(s) && Run(s, es) && IsTerminal(s.tasks, t)
    ensures IsTerminal(After(s, es).tasks, t)
    ensures Skip(t) !in es ==> After(s, es).tasks[t] == s.tasks[t]
    decreases |es|
  {
    if es != [] {
      StepKeepsInv(s, es[0]);
      TerminalStays(s, es[0], t);
      TerminalForever(Apply(s, es[0]), es[1..], t);
    }
  }

  // ---- futures ------------------------------------------------------------------------------------

  lemma EndingForwardsLeaveFutures(s: State, e: Event)
    requires Enabled(s, e) && (e.Resume? || e.SendFails? || e.Defer?)
    ensures Apply(s, e).ws.futures == s.ws.futures
  {
  }

  lemma OthersLeaveFutures(s: State, e: Event)
    requires Enabled(s, e) && !e.Crash? && !(e.TaskResult? || e.Begin? || e.RegisterAckFails? || e.Close?)
    ensures Apply(s, e).ws.futures == s.ws.futures
  {
    if e.Resume? || e.SendFails? || e.Defer? {
      EndingForwardsLeaveFutures(s, e);
    }
  }

  /** Within the life of a process a future is resolved at most once. */
  lemma FuturesResolveOnce(s: State, e: Event)
    requires Enabled(s, e) && !e.Crash?
    ensures KeepsDone(s.ws.futures, Apply(s, e).ws.futures)
  {
    if !(e.TaskResult? || e.Begin? || e.RegisterAckFails? || e.Close?) {
      OthersLeaveFutures(s, e);
    }
  }

  /** An unresolved pending future has a server entry, and that server has an entry in the
      connections table. Every waiting forward finds its own future. */
  lemma WaitingForwardIsTracked(s: State, t: TaskId)
    requires Inv(s) && t in s.ws.pending
    ensures s.ws.pending[t] < |s.ws.futures|
    ensures s.ws.futures[s.ws.pending[t]].Unresolved? ==>
              t in s.ws.taskServer && s.ws.taskServer[t] in s.ws.connections
    ensures exists i :: 0 <= i < |s.acts| && s.acts[i].Task() == t
                        && s.acts[i].phase.Forwarding() && s.acts[i].phase.fut == s.ws.pending[t]
  {
    var i :| 0 <= i < |ActTasks(s.acts)| && ActTasks(s.acts)[i] == t;
    assert ForwardOk(s.acts[i], s.ws);
  }

  /** The well-formedness guards of the steps never block anything: in every reachable state a
      server's message can be handled, a snapshot row can be taken, and a waiting forward
      finds its future. */
  lemma GuardsNeverBlock(s: State, t: TaskId, result: Value)
    requires Inv(s) && s.up
    ensures Enabled(s, TaskResult(t, result))
    ensures s.snapshot != [] <==> Enabled(s, Take)
    ensures forall i | 0 <= i < |s.acts| && s.acts[i].phase.Awaiting? ::
              s.acts[i].phase.fut < |s.ws.futures|
              && (Enabled(s, Resume(i)) <==> !s.ws.futures[s.acts[i].phase.fut].Unresolved?)
  {
    forall u | u in s.ws.pending ensures s.ws.pending[u] < |s.ws.futures| {
      WaitingForwardIsTracked(s, u);
    }
    if s.snapshot != [] {
      assert RecordOk(s.messages, s.snapshot[0]);
    }
    forall i | 0 <= i < |s.acts| && s.acts[i].phase.Awaiting? ensures s.acts[i].phase.fut < |s.ws.futures| {
      assert ForwardOk(s.acts[i], s.ws);
    }
  }

  /** The pops at the end of a forward remove the entry of that forward or nothing. */
  lemma PopsOnlyOwnEntries(s: State, i: nat)
    requires Inv(s) && i < |s.acts| && s.acts[i].phase.Forwarding()
    ensures s.acts[i].Task() in s.ws.pending ==> s.ws.pending[s.acts[i].Task()] == s.acts[i].phase.fut
    ensures s.acts[i].Task() in s.ws.taskServer ==>
              s.ws.taskServer[s.acts[i].Task()] == s.acts[i].phase.server
    ensures forall j | 0 <= j < |s.acts| && j != i :: s.acts[j].Task() != s.acts[i].Task()
  {
    OneHolder(s);
    assert ForwardOk(s.acts[i], s.ws);
  }

  // ---- ack after execute -----------------------------------------------------------------------------

  ghost predicate RowAckOk(m: Message, tasks: TaskTable) {
    m.Dispatch? && m.parses && m.acked ==> IsTerminal(tasks, m.msg.taskId)
  }

  /** An acked readable row belongs to a terminal task, and so does every activity that is
      on its way to ack. */
  ghost predicate AckOk(s: State) {
    && (forall k | 0 <= k < |s.messages| :: RowAckOk(s.messages[k], s.tasks))
    && (forall i | 0 <= i < |s.acts| && s.acts[i].phase.Late() :: IsTerminal(s.tasks, s.acts[i].Task()))
  }

  /** The steps that go on to the ack although the task row was not written: agent set-up
      raised, or the result could not be stored. */
  predicate SkipsTaskWrite(s: State, e: Event)
    requires Enabled(s, e)
  {
    e.SetupFails? || (e.Finalize? && !s.acts[e.i].phase.outcome.Storable())
  }

  lemma NewlyAcked(s: State, e: Event, k: nat)
    requires Enabled(s, e) && Inv(s) && AckOk(s)
    requires k < |s.messages| <= |Apply(s, e).messages| && Apply(s, e).messages[k] != s.messages[k]
    ensures s.messages[k].Dispatch?
    ensures s.messages[k].parses ==> IsTerminal(s.tasks, s.messages[k].msg.taskId)
  {
    OnlyTakeAndAckChangeRows(s, e, k);
    if e.Take? {
      assert RecordOk(s.messages, s.snapshot[0]);
    } else {
      assert JobOk(s.messages, s.acts[e.i].job);
      assert s.acts[e.i].phase.Late();
    }
  }

  lemma RowsStayAckOk(s: State, e: Event)
    requires Enabled(s, e) && Inv(s) && AckOk(s)
    ensures forall k | 0 <= k < |Apply(s, e).messages| :: RowAckOk(Apply(s, e).messages[k], Apply(s, e).tasks)
  {
    var s' := Apply(s, e);
    MessagesExtend(s, e);
    forall k | 0 <= k < |s'.messages| ensures RowAckOk(s'.messages[k], s'.tasks) {
      if k < |s.messages| {
        assert SameButAck(s.messages[k], s'.messages[k]) && RowAckOk(s.messages[k], s.tasks);
        if s'.messages[k] != s.messages[k] {
          NewlyAcked(s, e, k);
        }
        if s'.messages[k].Dispatch? && s'.messages[k].parses && s'.messages[k].acked {
          TerminalStays(s, e, s'.messages[k].msg.taskId);
        }
      }
    }
  }

  lemma LateAfterMove(s: State, e: Event)
    requires Enabled(s, e) && Inv(s) && AckOk(s) && !SkipsTaskWrite(s, e) && Moves(s, e)
    requires e.i < |Apply(s, e).acts| && Apply(s, e).acts[e.i].phase.Late()
    ensures IsTerminal(s.tasks, Apply(s, e).acts[e.i].Task())
            || IsTerminal(Apply(s, e).tasks, Apply(s, e).acts[e.i].Task())
  {
    assert s.acts[e.i].Task() in s.tasks;
  }

  lemma AddedActs(s: State, e: Event, i: nat)
    requires Enabled(s, e) && (e.Take? || e.Registered? || e.Crash?) && i < |Apply(s, e).acts|
    ensures !Apply(s, e).acts[i].phase.Queued? && !Apply(s, e).acts[i].phase.Scheduled? ==>
              i < |s.acts| && Apply(s, e).acts[i] == s.acts[i]
  {
  }

  lemma RemovedActs(s: State, e: Event)
    requires Enabled(s, e) && Removes(s, e)
    ensures e.i < |s.acts| && Apply(s, e).acts == Removed(s, e.i).acts
  {
    if Parks(s, e) {
      ParkedShape(s, e);
    } else if LosesTask(s, e) {
      LostShape(s, e);
    }
  }

  /** An activity other than the one that moved was there before, in the same phase, or is
      freshly queued or scheduled. */
  lemma ActComesFrom(s: State, e: Event, i: nat) returns (k: nat)
    requires Enabled(s, e) && i < |Apply(s, e).acts|
    requires !(Moves(s, e) && i == e.i)
    ensures !Apply(s, e).acts[i].phase.Queued? && !Apply(s, e).acts[i].phase.Scheduled? ==>
              && k < |s.acts| && Apply(s, e).acts[i] == s.acts[k]
              && (Moves(s, e) || Removes(s, e) ==> k != e.i)
  {
    k := i;
    if Moves(s, e) {
      MovedShape(s, e);
    } else if Removes(s, e) {
      RemovedActs(s, e);
      k := if i < e.i then i else i + 1;
    } else if Quiet(s, e) {
      QuietShape(s, e);
    } else {
      AddedActs(s, e, i);
    }
  }

  lemma LateComesFrom(s: State, e: Event, i: nat)
    requires Enabled(s, e) && Inv(s) && AckOk(s) && !SkipsTaskWrite(s, e)
    requires i < |Apply(s, e).acts| && Apply(s, e).acts[i].phase.Late()
    ensures IsTerminal(s.tasks, Apply(s, e).acts[i].Task())
            || IsTerminal(Apply(s, e).tasks, Apply(s, e).acts[i].Task())
  {
    if Moves(s, e) && i == e.i {
      LateAfterMove(s, e);
    } else {
      var k := ActComesFrom(s, e, i);
    }
  }

  lemma LateStaysOk(s: State, e: Event)
    requires Enabled(s, e) && Inv(s) && AckOk(s) && !SkipsTaskWrite(s, e)
    ensures forall i | 0 <= i < |Apply(s, e).acts| && Apply(s, e).acts[i].phase.Late() ::
              IsTerminal(Apply(s, e).tasks, Apply(s, e).acts[i].Task())
  {
    var s' := Apply(s, e);
    forall i | 0 <= i < |s'.acts| && s'.acts[i].phase.Late()
      ensures IsTerminal(s'.tasks, s'.acts[i].Task())
    {
      LateComesFrom(s, e, i);
      if IsTerminal(s.tasks, s'.acts[i].Task()) {
        TerminalStays(s, e, s'.acts[i].Task());
      }
    }
  }

  /** A step keeps ack-after-execute exactly when it does not skip the task write. */
  lemma AckAfterExecuteStep(s: State, e: Event)
    requires Enabled(s, e) && Inv(s) && AckOk(s)
    ensures AckOk(Apply(s, e)) <==> !SkipsTaskWrite(s, e)
  {
    var s' := Apply(s, e);
    if SkipsTaskWrite(s, e) {
      assert s'.acts[e.i].phase.Late() && !IsTerminal(s'.tasks, s'.acts[e.i].Task());
    } else {
      RowsStayAckOk(s, e);
      LateStaysOk(s, e);
    }
  }

  ghost predicate AlwaysWrites(s: State, es: seq<Event>)
    requires Run(s, es)
    decreases |es|
  {
    es == [] || (!SkipsTaskWrite(s, es[0]) && AlwaysWrites(Apply(s, es[0]), es[1..]))
  }

  lemma {:induction false} RunKeepsAckOk(s: State, es: seq<Event>)
    requires Inv(s) && AckOk(s) && Run(s, es) && AlwaysWrites(s, es)
    ensures AckOk(After(s, es))
    decreases |es|
  {
    if es != [] {
      StepKeepsInv(s, es[0]);
      AckAfterExecuteStep(s, es[0]);
      RunKeepsAckOk(Apply(s, es[0]), es[1..]);
    }
  }

  /** Some readable dispatch row is acked although its task is not finished. */
  ghost predicate AckedUnfinished(messages: MessageTable, tasks: TaskTable) {
    exists k :: 0 <= k < |messages| && !RowAckOk(messages[k], tasks)
  }

  /** Over any run, with any number of crashes, a task that is not terminal keeps every one
      of its readable dispatch rows unacked. */
  lemma AckAfterExecute(es: seq<Event>)
    requires Run(INITIAL, es) && AlwaysWrites(INITIAL, es)
    ensures !AckedUnfinished(After(INITIAL, es).messages, After(INITIAL, es).tasks)
  {
    InitialInv();
    RunKeepsAckOk(INITIAL, es);
  }

  // ---- at most one reply ---------------------------------------------------------------------------------

  predicate IsReplyOf(m: Message, t: TaskId) {
    m.Reply? && m.task == t
  }

  ghost predicate HasReply(messages: MessageTable, t: TaskId) {
    exists k :: 0 <= k < |messages| && IsReplyOf(messages[k], t)
  }

  /** At most one reply per task, and only for terminal tasks. */
  ghost predicate RepliesSound(messages: MessageTable, tasks: TaskTable) {
    && (forall j, k | 0 <= j < k < |messages| && messages[j].Reply? && messages[k].Reply? ::
          messages[j].task != messages[k].task)
    && (forall k | 0 <= k < |messages| && messages[k].Reply? :: IsTerminal(tasks, messages[k].task))
  }

  /** And an activity about to reply is the first to do so. */
  ghost predicate ReplyOk(s: State) {
    && RepliesSound(s.messages, s.tasks)
    && (forall i | 0 <= i < |s.acts| && s.acts[i].phase.Replying? ::
          && !HasReply(s.messages, s.acts[i].Task())
          && (s.acts[i].phase.outcome.Encodable() ==> IsTerminal(s.tasks, s.acts[i].Task())))
  }

  /** A result that can be sent as a reply but not stored in the task row. */
  predicate RepliesUnstored(s: State, e: Event)
    requires Enabled(s, e)
  {
    e.Finalize? && s.acts[e.i].phase.outcome.Encodable() && !s.acts[e.i].phase.outcome.Storable()
  }

  /** Acks and appended dispatch rows leave the replies as they are. */
  lemma SameReplies(s: State, e: Event, k: nat)
    requires Enabled(s, e) && k < |Apply(s, e).messages| && Apply(s, e).messages[k].Reply?
    ensures k < |s.messages| ==> Apply(s, e).messages[k] == s.messages[k]
    ensures k >= |s.messages| ==>
              && e.WriteReply? && k == |s.messages| && s.acts[e.i].phase.outcome.Encodable()
              && Apply(s, e).messages[k].task == s.acts[e.i].Task()
              && Apply(s, e).messages[k].scenario == s.acts[e.i].job.scenario
              && Apply(s, e).messages[k].result == s.acts[e.i].phase.outcome.result
  {
    MessagesExtend(s, e);
    assert k < |s.messages| ==> SameButAck(s.messages[k], Apply(s, e).messages[k]);
  }

  lemma ReplyCameBefore(s: State, e: Event, t: TaskId)
    requires Enabled(s, e) && HasReply(Apply(s, e).messages, t)
    ensures HasReply(s.messages, t) || (e.WriteReply? && s.acts[e.i].Task() == t)
  {
    var k :| 0 <= k < |Apply(s, e).messages| && IsReplyOf(Apply(s, e).messages[k], t);
    SameReplies(s, e, k);
    if k < |s.messages| {
      assert IsReplyOf(s.messages[k], t);
    }
  }

  lemma RepliesStayUnique(s: State, e: Event)
    requires Enabled(s, e) && Inv(s) && ReplyOk(s)
    ensures RepliesSound(Apply(s, e).messages, Apply(s, e).tasks)
  {
    var ms := Apply(s, e).messages;
    forall j, k | 0 <= j < k < |ms| && ms[j].Reply? && ms[k].Reply? ensures ms[j].task != ms[k].task {
      SameReplies(s, e, j);
      SameReplies(s, e, k);
      if k >= |s.messages| {
        assert IsReplyOf(s.messages[j], ms[j].task);
      }
    }
    forall k | 0 <= k < |ms| && ms[k].Reply? ensures IsTerminal(Apply(s, e).tasks, ms[k].task) {
      SameReplies(s, e, k);
      TerminalStays(s, e, ms[k].task);
    }
  }

  lemma OnlyFinalizeStartsReplying(s: State, e: Event)
    requires Enabled(s, e) && Moves(s, e) && e.i < |Apply(s, e).acts| && Apply(s, e).acts[e.i].phase.Replying?
    ensures e.Finalize?
  {
  }

  lemma NoReplyWhileLive(s: State, i: nat)
    requires Inv(s) && ReplyOk(s) && i < |s.acts| && s.acts[i].phase.Live()
    ensures !HasReply(s.messages, s.acts[i].Task())
  {
  }

  lemma ReplierAfterMove(s: State, e: Event)
    requires Enabled(s, e) && Inv(s) && ReplyOk(s) && !RepliesUnstored(s, e) && Moves(s, e)
    requires e.i < |Apply(s, e).acts| && Apply(s, e).acts[e.i].phase.Replying?
    ensures e.Finalize?
    ensures var a := Apply(s, e).acts[e.i];
            && !HasReply(s.messages, a.Task())
            && (a.phase.outcome.Encodable() ==> IsTerminal(Apply(s, e).tasks, a.Task()))
  {
    OnlyFinalizeStartsReplying(s, e);
    assert s.acts[e.i].Task() in s.tasks;
    NoReplyWhileLive(s, e.i);
  }

  lemma ReplierComesFrom(s: State, e: Event, i: nat)
    requires Enabled(s, e) && Inv(s) && ReplyOk(s) && !RepliesUnstored(s, e)
    requires i < |Apply(s, e).acts| && Apply(s, e).acts[i].phase.Replying?
    ensures var a := Apply(s, e).acts[i];
            && !HasReply(s.messages, a.Task())
            && (a.phase.outcome.Encodable() ==>
                  IsTerminal(s.tasks, a.Task()) || IsTerminal(Apply(s, e).tasks, a.Task()))
            && (e.WriteReply? ==> s.acts[e.i].Task() != a.Task())
  {
    if Moves(s, e) && i == e.i {
      ReplierAfterMove(s, e);
    } else {
      var k := ActComesFrom(s, e, i);
      OneHolder(s);
    }
  }

  lemma RepliersStayFirst(s: State, e: Event)
    requires Enabled(s, e) && Inv(s) && ReplyOk(s) && !RepliesUnstored(s, e)
    ensures var s' := Apply(s, e);
            forall i | 0 <= i < |s'.acts| && s'.acts[i].phase.Replying? ::
              && !HasReply(s'.messages, s'.acts[i].Task())
              && (s'.acts[i].phase.outcome.Encodable() ==> IsTerminal(s'.tasks, s'.acts[i].Task()))
  {
    var s' := Apply(s, e);
    forall i | 0 <= i < |s'.acts| && s'.acts[i].phase.Replying?
      ensures !HasReply(s'.messages, s'.acts[i].Task())
      ensures s'.acts[i].phase.outcome.Encodable() ==> IsTerminal(s'.tasks, s'.acts[i].Task())
    {
      var t := s'.acts[i].Task();
      ReplierComesFrom(s, e, i);
      if HasReply(s'.messages, t) {
        ReplyCameBefore(s, e, t);
      }
      if IsTerminal(s.tasks, t) {
        TerminalStays(s, e, t);
      }
    }
  }

  /** A step keeps at-most-one-reply exactly when it does not finalize a result that can be
      sent but not stored. */
  lemma OneReplyStep(s: State, e: Event)
    requires Enabled(s, e) && Inv(s) && ReplyOk(s)
    ensures ReplyOk(Apply(s, e)) <==> !RepliesUnstored(s, e)
  {
    var s' := Apply(s, e);
    if RepliesUnstored(s, e) {
      assert s'.acts[e.i].phase.Replying? && !IsTerminal(s'.tasks, s'.acts[e.i].Task());
    } else {
      RepliesStayUnique(s, e);
      RepliersStayFirst(s, e);
    }
  }

  ghost predicate NeverRepliesUnstored(s: State, es: seq<Event>)
    requires Run(s, es)
    decreases |es|
  {
    es == [] || (!RepliesUnstored(s, es[0]) && NeverRepliesUnstored(Apply(s, es[0]), es[1..]))
  }

  lemma {:induction false} RunKeepsReplyOk(s: State, es: seq<Event>)
    requires Inv(s) && ReplyOk(s) && Run(s, es) && NeverRepliesUnstored(s, es)
    ensures ReplyOk(After(s, es))
    decreases |es|
  {
    if es != [] {
      StepKeepsInv(s, es[0]);
      OneReplyStep(s, es[0]);
      RunKeepsReplyOk(Apply(s, es[0]), es[1..]);
    }
  }

  /** Over any run, with any number of crashes and redeliveries: at most one reply row per
      task, and a reply only for a terminal task. */
  lemma AtMostOneReply(es: seq<Event>)
    requires Run(INITIAL, es) && NeverRepliesUnstored(INITIAL, es)
    ensures RepliesSound(After(INITIAL, es).messages, After(INITIAL, es).tasks)
  {
    InitialInv();
    RunKeepsReplyOk(INITIAL, es);
  }

  // ---- every reply answers a dispatch row ------------------------------------------------------------------

  ghost predicate AnswersRow(messages: MessageTable, k: nat)
    requires k < |messages| && messages[k].Reply?
  {
    exists j :: 0 <= j < k && IsDispatchOf(messages[j], messages[k].task)
                && messages[j].scenario == messages[k].scenario
  }

  /** And every reply row is readable and holds a result that could be encoded. */
  ghost predicate OriginOk(messages: MessageTable) {
    forall k | 0 <= k < |messages| && messages[k].Reply? ::
      AnswersRow(messages, k) && messages[k].parses && Clean(messages[k].result)
  }

  lemma KeepsOrigin(s: State, e: Event)
    requires Enabled(s, e) && Inv(s) && OriginOk(s.messages)
    ensures OriginOk(Apply(s, e).messages)
  {
    var ms := Apply(s, e).messages;
    MessagesExtend(s, e);
    forall k | 0 <= k < |ms| && ms[k].Reply? ensures AnswersRow(ms, k) && ms[k].parses && Clean(ms[k].result) {
      SameReplies(s, e, k);
      if k < |s.messages| {
        var j :| 0 <= j < k && IsDispatchOf(s.messages[j], ms[k].task) && s.messages[j].scenario == ms[k].scenario;
        assert SameButAck(s.messages[j], ms[j]);
        assert IsDispatchOf(ms[j], ms[k].task);
      } else {
        var job := s.acts[e.i].job;
        assert JobOk(s.messages, job);
        assert SameButAck(s.messages[job.dispatchId - 1], ms[job.dispatchId - 1]);
        assert IsDispatchOf(ms[job.dispatchId - 1], ms[k].task);
      }
    }
  }

  lemma {:induction false} RunKeepsOrigin(s: State, es: seq<Event>)
    requires Inv(s) && OriginOk(s.messages) && Run(s, es)
    ensures OriginOk(After(s, es).messages)
    decreases |es|
  {
    if es != [] {
      StepKeepsInv(s, es[0]);
      KeepsOrigin(s, es[0]);
      RunKeepsOrigin(Apply(s, es[0]), es[1..]);
    }
  }

  // ---- rows that can never be acked ------------------------------------------------------------------------

  /** The server id of the row, a list or an object, cannot be looked up. */
  predicate StuckRow(m: Message) {
    m.Dispatch? && m.parses && Unroutable(m.msg.context.server)
  }

  /** An activity with such a server id has not been routed, and none is parked. */
  ghost predicate StuckJobs(acts: seq<Activity>, deferred: map<ServerId, seq<Job>>) {
    && (forall i | 0 <= i < |acts| && Unroutable(acts[i].job.msg.context.server) :: acts[i].phase.Queued?)
    && (forall sid, k | sid in deferred && 0 <= k < |deferred[sid]| ::
          !Unroutable(deferred[sid][k].msg.context.server))
  }

  lemma OnlyRoutableMoves(s: State, e: Event)
    requires Enabled(s, e) && StuckJobs(s.acts, s.ws.deferred) && Moves(s, e)
    ensures e.i < |s.acts| && !Unroutable(s.acts[e.i].job.msg.context.server)
  {
  }

  lemma StuckAfterRemoval(s: State, i: nat)
    requires i < |s.acts| && StuckJobs(s.acts, s.ws.deferred)
    ensures StuckJobs(Removed(s, i).acts, s.ws.deferred)
  {
    var rest := Removed(s, i).acts;
    forall k | 0 <= k < |rest| && Unroutable(rest[k].job.msg.context.server) ensures rest[k].phase.Queued? {
      assert rest[k] == s.acts[if k < i then k else k + 1];
    }
  }

  lemma StuckAfterAdding(s: State, e: Event)
    requires Enabled(s, e) && StuckJobs(s.acts, s.ws.deferred) && (e.Take? || e.Registered?)
    ensures StuckJobs(Apply(s, e).acts, Apply(s, e).ws.deferred)
  {
  }

  lemma StuckAfterMoving(s: State, e: Event)
    requires Enabled(s, e) && StuckJobs(s.acts, s.ws.deferred) && Moves(s, e)
    ensures StuckJobs(Apply(s, e).acts, Apply(s, e).ws.deferred)
  {
    var acts := Apply(s, e).acts;
    OnlyRoutableMoves(s, e);
    MovedShape(s, e);
    forall k | 0 <= k < |acts| && Unroutable(acts[k].job.msg.context.server) ensures acts[k].phase.Queued? {
      assert acts[k].job == s.acts[k].job && (k != e.i ==> acts[k] == s.acts[k]);
    }
  }

  lemma StuckAfterParking(s: State, e: Event)
    requires Enabled(s, e) && StuckJobs(s.acts, s.ws.deferred) && Parks(s, e)
    ensures StuckJobs(Apply(s, e).acts, Apply(s, e).ws.deferred)
  {
    ParkedShape(s, e);
    StuckAfterRemoval(s, e.i);
    assert !Unroutable(s.acts[e.i].job.msg.context.server);
  }

  lemma StuckStaysUnrouted(s: State, e: Event)
    requires Enabled(s, e) && StuckJobs(s.acts, s.ws.deferred)
    ensures StuckJobs(Apply(s, e).acts, Apply(s, e).ws.deferred)
  {
    if Moves(s, e) {
      StuckAfterMoving(s, e);
    } else if Parks(s, e) {
      StuckAfterParking(s, e);
    } else if LosesTask(s, e) {
      LostShape(s, e);
      StuckAfterRemoval(s, e.i);
    } else if e.Release? {
      StuckAfterRemoval(s, e.i);
    } else if Quiet(s, e) {
      QuietShape(s, e);
    } else if !e.Crash? {
      StuckAfterAdding(s, e);
    }
  }

  lemma AcksNoStuckRow(s: State, e: Event, k: nat)
    requires Enabled(s, e) && Inv(s) && StuckJobs(s.acts, s.ws.deferred)
    requires k < |s.messages| <= |Apply(s, e).messages| && StuckRow(s.messages[k])
    ensures Apply(s, e).messages[k] == s.messages[k]
  {
    OnlyTakeAndAckChangeRows(s, e, k);
    if e.Take? {
      assert RecordOk(s.messages, s.snapshot[0]);
    } else if e.Ack? {
      assert JobOk(s.messages, s.acts[e.i].job);
    }
  }

  /** No run ever acks such a row, with any number of crashes and restarts. */
  lemma {:induction false} StuckRowIsNeverAcked(s: State, es: seq<Event>, k: nat)
    requires Inv(s) && StuckJobs(s.acts, s.ws.deferred) && Run(s, es)
    requires k < |s.messages| && StuckRow(s.messages[k])
    ensures StuckJobs(After(s, es).acts, After(s, es).ws.deferred)
    ensures k < |After(s, es).messages| && After(s, es).messages[k] == s.messages[k]
    decreases |es|
  {
    if es != [] {
      StepKeepsInv(s, es[0]);
      StuckStaysUnrouted(s, es[0]);
      MessagesExtend(s, es[0]);
      AcksNoStuckRow(s, es[0], k);
      StuckRowIsNeverAcked(Apply(s, es[0]), es[1..], k);
    }
  }
}
