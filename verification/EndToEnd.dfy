/** A whole scenario: the wave loop, the queue and the delivery protocol together. */
module EndToEnd {
  import opened Sets
  import opened Results
  import opened Graphs
  import opened Waves
  import opened Store
  import opened Replies
  import opened Scheduling
  import opened RunSafety
  import opened MessageQueue
  import opened Delivery
  import opened DeliverySafety
  import opened WaveBarrier
  import opened Platform

  /** What `run` works on once the task rows exist. */
  datatype Setting = Setting(id: ScenarioId, byId: map<Id, Subtask>, waves: seq<seq<Subtask>>, idMap: IdMap,
                             contexts: map<Id, Context>)
  {
    ghost predicate Valid() {
      && Plan(byId, waves, idMap)
      && byId.Keys <= contexts.Keys && (forall x | x in contexts :: contexts[x].upstream.None?)
    }

    function Mine(): set<TaskId> {
      idMap.Values
    }
  }

  type Scenario = sc: Setting | sc.Valid() ghost witness Setting(0, map[], [], map[], map[])

  // ---- the collected replies, wave by wave ------------------------------------------------------

  /** The replies so far, and nothing for the waves to come. */
  function Padded(feed: seq<seq<ReplyMessage>>, n: nat): seq<seq<ReplyMessage>>
    requires |feed| <= n
  {
    feed + seq(n - |feed|, _ => [])
  }

  lemma {:induction false} AgreeReplies(f: seq<seq<ReplyMessage>>, h: seq<seq<ReplyMessage>>, asked: seq<bool>)
    requires |asked| <= |f| && |asked| <= |h| && f[..|asked|] == h[..|asked|]
    ensures AllReplies(f, asked) == AllReplies(h, asked)
  {
    if asked != [] {
      var n := |asked| - 1;
      assert f[..n] == f[..n + 1][..n] && h[..n] == h[..n + 1][..n];
      assert f[n] == f[..n + 1][n] && h[n] == h[..n + 1][n];
      AgreeReplies(f, h, asked[..n]);
    }
  }

  lemma AgreeBefore(f: seq<seq<ReplyMessage>>, h: seq<seq<ReplyMessage>>, asked: seq<bool>, n: nat, k: nat)
    requires k <= n <= |f| && n <= |h| && k <= |asked| <= |f| && |asked| <= |h| && f[..n] == h[..n]
    ensures RepliesBefore(f, asked, k) == RepliesBefore(h, asked, k)
    ensures FailedBefore(f, asked, k) == FailedBefore(h, asked, k)
  {
    assert f[..k] == f[..n][..k] && h[..k] == h[..n][..k];
    AgreeReplies(f, h, asked[..k]);
  }

  lemma AgreeHits(g: Graph, idMap: IdMap, f: seq<seq<ReplyMessage>>, h: seq<seq<ReplyMessage>>, asked: seq<bool>)
    requires |asked| <= |f| && |asked| <= |h| && f[..|asked|] == h[..|asked|]
    ensures Hits(g, idMap, f, asked) == Hits(g, idMap, h, asked)
  {
    forall k, z | 0 <= k <= |asked| ensures HitAt(g, idMap, f, asked, k, z) <==> HitAt(g, idMap, h, asked, k, z) {
      AgreeBefore(f, h, asked, |asked|, k);
    }
    forall z ensures IsHit(g, idMap, f, asked, z) <==> IsHit(g, idMap, h, asked, z) {
      if IsHit(g, idMap, f, asked, z) {
        var k :| 0 <= k <= |asked| && HitAt(g, idMap, f, asked, k, z);
        assert HitAt(g, idMap, h, asked, k, z);
      }
      if IsHit(g, idMap, h, asked, z) {
        var k :| 0 <= k <= |asked| && HitAt(g, idMap, h, asked, k, z);
        assert HitAt(g, idMap, f, asked, k, z);
      }
    }
  }

  /** What was told does not depend on replies that came later. */
  lemma AgreeTold(byId: map<Id, Subtask>, idMap: IdMap, f: seq<seq<ReplyMessage>>, h: seq<seq<ReplyMessage>>,
                  asked: seq<bool>, n: nat, msgs: seq<TaskMessage>, lids: seq<Id>, sentIn: seq<nat>)
    requires |asked| <= |f| && |asked| <= |h| && |asked| <= n + 1 && n <= |f| && n <= |h| && f[..n] == h[..n]
    requires |lids| == |msgs| && ToldInTime(byId, idMap, f, asked, msgs, lids, sentIn)
    ensures ToldInTime(byId, idMap, h, asked, msgs, lids, sentIn)
  {
    forall i | 0 <= i < |lids| ensures ToldAt(byId, idMap, h, asked, sentIn[i], lids[i], msgs[i].context) {
      assert ToldAt(byId, idMap, f, asked, sentIn[i], lids[i], msgs[i].context);
      AgreeBefore(f, h, asked, n, sentIn[i]);
    }
  }

  // ---- marked tasks are not dispatched ------------------------------------------------------------

  ghost predicate AllFailed(tasks: TaskTable, ts: set<TaskId>) {
    forall t | t in ts :: t in tasks && tasks[t] == Failed
  }

  lemma AlreadyMarked(tasks: TaskTable, ts: set<TaskId>)
    requires AllFailed(tasks, ts)
    ensures MarkedFailed(tasks, ts) == tasks
  {
    forall t | t in tasks ensures MarkedFailed(tasks, ts)[t] == tasks[t] {
    }
  }

  lemma MarkedUnsent(byId: map<Id, Subtask>, idMap: IdMap, feed: seq<seq<ReplyMessage>>, hit: set<Id>, r: RunResult)
    requires |r.asked| <= |feed| && Progress(byId, idMap, feed, hit, r) && Injective(idMap)
    ensures r.marked !! TaskIds(r.sent) && TaskIds(r.sent) <= idMap.Values
  {
    forall m | m in r.sent ensures m.taskId !in r.marked && m.taskId in idMap.Values {
      var i :| 0 <= i < |r.sent| && r.sent[i] == m;
      assert r.lids[i] in r.lids && r.lids[i] !in LocalIds(idMap, r.marked);
    }
  }

  // ---- dispatching one wave -----------------------------------------------------------------------

  /** Of the messages in `sent`, exactly those that can be encoded have been dispatched for the
      scenario. */
  ghost predicate WorldOf(sc: Scenario, sent: seq<TaskMessage>, s: State) {
    World(s, sc.Mine(), sc.id, TaskIds(Written(sent)))
  }

  /** The results a run can have so far, given the replies of its first waves. */
  ghost function Runs(sc: Scenario, feed: seq<seq<ReplyMessage>>): iset<RunResult>
    requires |feed| <= |sc.waves|
  {
    iset r: RunResult | r.reached == |feed| && RunSoFar(sc.byId, sc.waves, sc.idMap, Padded(feed, |sc.waves|), r)
  }

  /** A wave more was sent than replies were collected for: `next` came out of `r`. */
  ghost predicate Sent(sc: Scenario, feed: seq<seq<ReplyMessage>>, r: RunResult, next: RunResult)
    requires |feed| < |sc.waves|
  {
    && r.reached == |feed| == |r.asked|
    && next.reached == r.reached + 1 && next.asked == r.asked + [next.sent != r.sent]
    && r.sent <= next.sent && next.sentIn == r.sentIn + Repeat(r.reached, |next.sent| - |r.sent|)
    && next.bad == r.bad && next.replies == r.replies
    && Progress(sc.byId, sc.idMap, Padded(feed, |sc.waves|),
                Hits(Sanitized(sc.byId), sc.idMap, Padded(feed, |sc.waves|), r.asked), next)
    && AskedWhenSent(sc.waves, next.lids, next.asked)
  }

  ghost function Sendings(sc: Scenario, feed: seq<seq<ReplyMessage>>, r: RunResult): iset<RunResult>
    requires |feed| < |sc.waves|
  {
    iset next: RunResult | Sent(sc, feed, r, next)
  }

  lemma Rejoin(sent: seq<TaskMessage>, more: seq<TaskMessage>)
    requires sent <= more
    ensures sent + more[|sent|..] == more
  {
  }

  lemma AllHandedOver(outbox: seq<TaskMessage>, sent: seq<TaskMessage>, more: seq<TaskMessage>)
    requires sent <= more && outbox == sent + more[|sent|..]
    ensures outbox == more
  {
  }

  /** A wave is prepared. Its marks are made on a copy of the task table. */
  method PlanWave(agent: SchedulingAgent, sc: Scenario, r: RunResult, tasks: TaskTable,
                  ghost feed: seq<seq<ReplyMessage>>)
    returns (next: RunResult)
    requires |feed| < |sc.waves| && r in Runs(sc, feed) && AllFailed(tasks, r.marked)
    requires agent.outbox == r.sent
    modifies agent
    ensures next in Sendings(sc, feed, r) && agent.outbox == next.sent
    ensures r.sent <= next.sent && next.sentIn == r.sentIn + Repeat(r.reached, |next.sent| - |r.sent|)
    ensures r.lids <= next.lids && |r.lids| == |r.sent| && r.marked <= next.marked
    ensures AllCarry(sc.byId, sc.idMap, sc.contexts, r.replies, next.sent[|r.sent|..], next.lids[|r.sent|..])
  {
    AlreadyMarked(tasks, r.marked);
    agent.tasks := tasks;
    next := agent.DispatchWave(sc.byId, sc.waves, sc.idMap, sc.contexts, r, Padded(feed, |sc.waves|), tasks);
    AllHandedOver(agent.outbox, r.sent, next.sent);
  }

  // ---- collecting one wave -------------------------------------------------------------------------

  lemma PaddedAgrees(feed: seq<seq<ReplyMessage>>, replies: seq<ReplyMessage>, n: nat)
    requires |feed| < n
    ensures Padded(feed, n)[..|feed|] == Padded(feed + [replies], n)[..|feed|] == feed
    ensures Padded(feed + [replies], n)[|feed|] == replies
    ensures replies == [] ==> Padded(feed + [replies], n) == Padded(feed, n)
  {
  }

  /** The results in these replies can be encoded. */
  ghost predicate CleanReplies(replies: seq<ReplyMessage>) {
    forall i | 0 <= i < |replies| :: Clean(replies[i].result)
  }

  lemma {:induction false} RepliesAreClean(messages: MessageTable, n: nat, scenario: ScenarioId)
    requires n <= |messages| && OriginOk(messages)
    ensures CleanReplies(ScenarioReplies(messages[..n], scenario))
    decreases n
  {
    if n > 0 {
      assert messages[..n][..n - 1] == messages[..n - 1];
      RepliesAreClean(messages, n - 1, scenario);
    }
  }

  lemma CollectedAreClean(messages: MessageTable, start: nat, end: nat, scenario: ScenarioId,
                          replies: seq<ReplyMessage>)
    requires start <= end <= |messages| && OriginOk(messages)
    requires ScenarioReplies(messages[..end], scenario) == ScenarioReplies(messages[..start], scenario) + replies
    ensures CleanReplies(replies)
  {
    var past := ScenarioReplies(messages[..start], scenario);
    RepliesAreClean(messages, end, scenario);
    forall i | 0 <= i < |replies| ensures Clean(replies[i].result) {
      assert (past + replies)[|past| + i] == replies[i];
    }
  }

  /** Every collected reply is a reply to a task that was sent, so to one of a wave so far. */
  lemma CollectedUpTo(sc: Scenario, feed: seq<seq<ReplyMessage>>, r: RunResult, sent: RunResult,
                      messages: MessageTable, start: nat, end: nat, replies: seq<ReplyMessage>)
    requires |feed| < |sc.waves| && sent in Sendings(sc, feed, r)
    requires TableOk(messages) && DispatchedTasks(messages, sc.id) <= TaskIds(sent.sent)
    requires start <= end <= |messages|
    requires ScenarioReplies(messages[..end], sc.id) == ScenarioReplies(messages[..start], sc.id) + replies
    ensures LocalIds(sc.idMap, Replied(replies)) <= Placed(Sanitized(sc.byId), |sent.asked|)
  {
    RepliesAreDispatched(messages, end, sc.id);
    ConcatReplies(ScenarioReplies(messages[..start], sc.id), replies);
    forall x | x in LocalIds(sc.idMap, Replied(replies)) ensures x in Placed(Sanitized(sc.byId), |sent.asked|) {
      assert sc.idMap[x] in TaskIds(sent.sent);
      SentMeansListed(sc.idMap, sent.sent, sent.lids, x);
    }
  }

  /** The result of a run after one more wave was sent, with its replies about to be absorbed. */
  ghost predicate Absorbing(sc: Scenario, padded: seq<seq<ReplyMessage>>, asked: seq<bool>, sent: RunResult)
    requires |asked| < |padded|
  {
    && sent.asked == asked + [true] && sent.reached == |sent.asked| <= |sc.waves| == |padded|
    && RepliesUpTo(Sanitized(sc.byId), sc.idMap, |asked|, padded[|asked|])
    && sent.bad == FailedIn(AllReplies(padded, asked)) && sent.replies == Absorbed(map[], AllReplies(padded, asked))
    && LocalIds(sc.idMap, sent.replies.Keys + sent.bad) <= Placed(Sanitized(sc.byId), |asked|)
    && Progress(sc.byId, sc.idMap, padded, Hits(Sanitized(sc.byId), sc.idMap, padded, asked), sent)
    && AskedWhenSent(sc.waves, sent.lids, sent.asked)
  }

  /** Learning the replies of the wave does not change what the wave was prepared with. */
  lemma SentWithReplies(sc: Scenario, feed: seq<seq<ReplyMessage>>, r: RunResult, sent: RunResult,
                        replies: seq<ReplyMessage>)
    requires |feed| < |sc.waves| && r in Runs(sc, feed) && sent in Sendings(sc, feed, r) && sent.sent != r.sent
    requires LocalIds(sc.idMap, Replied(replies)) <= Placed(Sanitized(sc.byId), |sent.asked|)
    ensures Absorbing(sc, Padded(feed + [replies], |sc.waves|), r.asked, sent)
  {
    var padded, later := Padded(feed, |sc.waves|), Padded(feed + [replies], |sc.waves|);
    assert RunSoFar(sc.byId, sc.waves, sc.idMap, padded, r);
    PaddedAgrees(feed, replies, |sc.waves|);
    AgreeReplies(padded, later, r.asked);
    AgreeHits(Sanitized(sc.byId), sc.idMap, padded, later, r.asked);
    AgreeTold(sc.byId, sc.idMap, padded, later, sent.asked, |feed|, sent.sent, sent.lids, sent.sentIn);
  }

  /** The replies of a wave are absorbed and propagated. */
  method AbsorbWave(agent: SchedulingAgent, sc: Scenario, sent: RunResult, replies: seq<ReplyMessage>,
                    tasks: TaskTable, ghost feed: seq<seq<ReplyMessage>>, ghost asked: seq<bool>)
    returns (next: RunResult)
    requires |asked| <= |feed| < |sc.waves| && replies == Padded(feed + [replies], |sc.waves|)[|asked|]
    requires Absorbing(sc, Padded(feed + [replies], |sc.waves|), asked, sent) && sent.reached == |feed| + 1
    requires AllFailed(tasks, sent.marked)
    modifies agent`tasks
    ensures next in Runs(sc, feed + [replies])
    ensures next == sent.(bad := next.bad, replies := next.replies, marked := next.marked)
    ensures sent.marked <= next.marked
  {
    ghost var padded := Padded(feed + [replies], |sc.waves|);
    AlreadyMarked(tasks, sent.marked);
    agent.tasks := tasks;
    next := agent.CollectAndPropagate(sc.byId, sc.waves, sc.idMap, replies, sent, padded, asked, tasks);
  }

  lemma ReadyToAbsorb(sc: Scenario, feed: seq<seq<ReplyMessage>>, r: RunResult, sent: RunResult,
                      messages: MessageTable, start: nat, end: nat, replies: seq<ReplyMessage>)
    requires |feed| < |sc.waves| && r in Runs(sc, feed) && sent in Sendings(sc, feed, r) && sent.sent != r.sent
    requires TableOk(messages) && DispatchedTasks(messages, sc.id) <= TaskIds(sent.sent)
    requires start <= end <= |messages|
    requires ScenarioReplies(messages[..end], sc.id) == ScenarioReplies(messages[..start], sc.id) + replies
    ensures |r.asked| <= |feed| && sent.reached == |feed| + 1 && CleanReplies(replies)
    ensures replies == Padded(feed + [replies], |sc.waves|)[|r.asked|]
    ensures Absorbing(sc, Padded(feed + [replies], |sc.waves|), r.asked, sent)
  {
    CollectedUpTo(sc, feed, r, sent, messages, start, end, replies);
    PaddedAgrees(feed, replies, |sc.waves|);
    SentWithReplies(sc, feed, r, sent, replies);
    CollectedAreClean(messages, start, end, sc.id, replies);
  }

  /** The replies of a wave in which something was sent are collected and propagated. */
  method CollectWave(agent: SchedulingAgent, queue: MessageQueueService, sc: Scenario, r: RunResult, sent: RunResult,
                     views: seq<MessageTable>, tasks: TaskTable, ghost feed: seq<seq<ReplyMessage>>)
    returns (next: RunResult, replies: seq<ReplyMessage>)
    requires |feed| < |sc.waves| && r in Runs(sc, feed) && sent in Sendings(sc, feed, r)
    requires sent.sent != r.sent && r.sent <= sent.sent && AllFailed(tasks, sent.marked)
    requires Growing(views) && views != [] && queue.Offset(sc.id) <= |views[0]|
    requires TableOk(Last(views)) && DispatchedTasks(Last(views), sc.id) <= TaskIds(sent.sent)
    modifies agent`tasks, queue
    ensures next in Runs(sc, feed + [replies])
    ensures next == sent.(bad := next.bad, replies := next.replies, marked := next.marked)
    ensures sent.marked <= next.marked
    ensures |replies| <= |sent.sent| - |r.sent| && CleanReplies(replies)
    ensures old(queue.Offset(sc.id)) <= queue.Offset(sc.id) <= |Last(views)|
    ensures ScenarioReplies(Last(views)[..queue.Offset(sc.id)], sc.id)
            == ScenarioReplies(Last(views)[..old(queue.Offset(sc.id))], sc.id) + replies
    ensures |replies| < |sent.sent| - |r.sent| ==>
              Exhausted(Last(views), sc.id, old(queue.Offset(sc.id)), queue.Offset(sc.id))
  {
    ghost var start := queue.Offset(sc.id);
    var polls: nat;
    replies, polls := queue.CollectReplies(sc.id, |sent.sent| - |r.sent|, views);
    ReadyToAbsorb(sc, feed, r, sent, Last(views), start, queue.Offset(sc.id), replies);
    next := AbsorbWave(agent, sc, sent, replies, tasks, feed, r.asked);
  }

  /** A wave in which nothing was sent collects nothing. */
  lemma EmptyWave(sc: Scenario, feed: seq<seq<ReplyMessage>>, r: RunResult, sent: RunResult)
    requires |feed| < |sc.waves| && r in Runs(sc, feed) && sent in Sendings(sc, feed, r)
    requires sent.sent == r.sent
    ensures sent in Runs(sc, feed + [[]])
  {
    PaddedAgrees(feed, [], |sc.waves|);
    NothingCollected(sc.byId, sc.waves, sc.idMap, Padded(feed, |sc.waves|), r, sent);
  }

  // ---- the surroundings ---------------------------------------------------------------------------

  /** Tasks without a dispatch row and without a mark are as they were. */
  ghost predicate Untouched(sc: Scenario, was: TaskTable, now: TaskTable, sent: seq<TaskMessage>, marked: set<TaskId>)
  {
    forall t | t in sc.Mine() && t !in TaskIds(Written(sent)) && t !in marked ::
      t in was && t in now && now[t] == was[t]
  }

  /** A delivery run leads from `start` to `now`. Of the messages in `sent`, exactly those that can
      be encoded have been dispatched; the marked tasks are failed, and all others are as they
      were. */
  ghost predicate ComesTo(sc: Scenario, start: State, now: State, sent: seq<TaskMessage>, marked: set<TaskId>) {
    exists es :: Run(start, es) && After(start, es) == now
                 && WorldOf(sc, sent, now) && AllFailed(now.tasks, marked)
                 && Untouched(sc, start.tasks, now.tasks, sent, marked)
  }

  lemma Arrive(sc: Scenario, start: State, now: State, sent: seq<TaskMessage>, marked: set<TaskId>)
    requires LeadsTo(start, now) && WorldOf(sc, sent, now) && AllFailed(now.tasks, marked)
    requires Untouched(sc, start.tasks, now.tasks, sent, marked)
    ensures ComesTo(sc, start, now, sent, marked)
  {
  }

  lemma AtFirst(sc: Scenario, start: State)
    requires WorldOf(sc, [], start)
    ensures ComesTo(sc, start, start, [], {})
  {
    LeadsNowhere(start);
    Arrive(sc, start, start, [], {});
  }

  /** The tasks in `marked` belong to the scenario, and none of them is dispatched. */
  ghost predicate Markable(sc: Scenario, marked: set<TaskId>, sent: seq<TaskMessage>) {
    marked <= sc.Mine() && marked !! TaskIds(Written(sent))
  }

  lemma KeptFailed(sc: Scenario, was: TaskTable, now: TaskTable, sent: seq<TaskMessage>, marked: set<TaskId>)
    requires AllFailed(was, marked) && Markable(sc, marked, sent) && Untouched(sc, was, now, sent, {})
    ensures AllFailed(now, marked)
  {
    forall t | t in marked ensures t in now && now[t] == Failed {
      assert t in sc.Mine() && t !in TaskIds(Written(sent)) && t !in {};
    }
  }

  /** Steps of the surroundings keep what is dispatched, and the failed tasks failed. */
  lemma DriveOn(sc: Scenario, start: State, s: State, es: seq<Event>, sent: seq<TaskMessage>, marked: set<TaskId>)
    requires ComesTo(sc, start, s, sent, marked) && Markable(sc, marked, sent)
    ensures ComesTo(sc, start, Drive(s, es, sc.Mine(), sc.id), sent, marked)
    ensures LeadsTo(s, Drive(s, es, sc.Mine(), sc.id))
  {
    var later := Drive(s, es, sc.Mine(), sc.id);
    var path := DriveKeepsWorld(s, es, sc.Mine(), sc.id, TaskIds(Written(sent)));
    RunLeads(s, path);
    LeadsOn(start, s, later);
    KeptFailed(sc, s.tasks, later.tasks, sent, marked);
    Arrive(sc, start, later, sent, marked);
  }

  // ---- the writes of a wave -----------------------------------------------------------------------

  lemma MarkOne(sc: Scenario, start: State, s: State, t: TaskId, sent: seq<TaskMessage>, marked: set<TaskId>)
    requires ComesTo(sc, start, s, sent, marked) && t in sc.Mine() && t !in TaskIds(Written(sent))
    ensures ComesTo(sc, start, s.(tasks := Mark(s.tasks, t, Failed)), sent, marked + {t})
    ensures LeadsTo(s, s.(tasks := Mark(s.tasks, t, Failed)))
  {
    var later := s.(tasks := Mark(s.tasks, t, Failed));
    SkippingKeepsWorld(s, sc.Mine(), sc.id, TaskIds(Written(sent)), t);
    LeadsOn(start, s, later);
    Arrive(sc, start, later, sent, marked + {t});
  }

  lemma DriveAndMark(sc: Scenario, start: State, s: State, es: seq<Event>, t: TaskId, sent: seq<TaskMessage>,
                     marked: set<TaskId>)
    requires ComesTo(sc, start, s, sent, marked) && Markable(sc, marked + {t}, sent)
    ensures var driven := Drive(s, es, sc.Mine(), sc.id);
            && ComesTo(sc, start, driven.(tasks := Mark(driven.tasks, t, Failed)), sent, marked + {t})
            && LeadsTo(s, driven.(tasks := Mark(driven.tasks, t, Failed)))
  {
    assert t in marked + {t} && Markable(sc, marked, sent);
    var driven := Drive(s, es, sc.Mine(), sc.id);
    DriveOn(sc, start, s, es, sent, marked);
    MarkOne(sc, start, driven, t, sent, marked);
    LeadsOn(s, driven, driven.(tasks := Mark(driven.tasks, t, Failed)));
  }

  lemma OneLess(all: set<TaskId>, todo: set<TaskId>, t: TaskId)
    requires todo <= all && t in todo
    ensures all - (todo - {t}) == all - todo + {t} && all - todo + {t} <= all
  {
  }

  lemma IdsOfTwo(a: seq<TaskMessage>, b: seq<TaskMessage>)
    ensures TaskIds(a + b) == TaskIds(a) + TaskIds(b)
  {
    forall m ensures m in a + b <==> m in a || m in b {
    }
  }

  lemma OneId(m: TaskMessage)
    ensures TaskIds([m]) == {m.taskId}
  {
    assert m in [m];
  }

  lemma OneMoreId(sent: seq<TaskMessage>, m: TaskMessage)
    ensures TaskIds(Written(sent + [m]))
            == TaskIds(Written(sent)) + if CleanContext(m.context) then {m.taskId} else {}
  {
    WrittenSnoc(sent, m);
    if CleanContext(m.context) {
      IdsOfTwo(Written(sent), [m]);
      OneId(m);
    } else {
      assert Written(sent) + [] == Written(sent);
    }
  }

  lemma WrittenOne(scenario: ScenarioId, sent: seq<TaskMessage>, m: TaskMessage)
    ensures DispatchRows(scenario, Written([m]))
            == if CleanContext(m.context) then [DispatchRow(scenario, m)] else []
    ensures TaskIds(Written(sent + [m]))
            == TaskIds(Written(sent)) + if CleanContext(m.context) then {m.taskId} else {}
  {
    OneMoreId(sent, m);
    WrittenSnoc([], m);
    assert [] + [m] == [m];
  }

  lemma RowWritten(sc: Scenario, start: State, s: State, m: TaskMessage, sent: seq<TaskMessage>, marked: set<TaskId>)
    requires ComesTo(sc, start, s, sent, marked) && m.taskId in sc.Mine() && CleanContext(m.context)
    ensures var later := s.(messages := s.messages + [DispatchRow(sc.id, m)]);
            ComesTo(sc, start, later, sent + [m], marked) && LeadsTo(s, later)
  {
    var later := s.(messages := s.messages + [DispatchRow(sc.id, m)]);
    WrittenOne(sc.id, sent, m);
    InsertingKeepsWorld(s, sc.Mine(), sc.id, TaskIds(Written(sent)), m);
    LeadsOn(start, s, later);
    Arrive(sc, start, later, sent + [m], marked);
  }

  lemma RowNotWritten(sc: Scenario, start: State, s: State, m: TaskMessage, sent: seq<TaskMessage>, marked: set<TaskId>)
    requires ComesTo(sc, start, s, sent, marked) && !CleanContext(m.context)
    ensures ComesTo(sc, start, s, sent + [m], marked)
  {
    WrittenOne(sc.id, sent, m);
    Arrive(sc, start, s, sent + [m], marked);
  }

  lemma RowOne(sc: Scenario, start: State, s: State, m: TaskMessage, sent: seq<TaskMessage>, marked: set<TaskId>)
    requires ComesTo(sc, start, s, sent, marked) && m.taskId in sc.Mine()
    ensures var later := s.(messages := s.messages + DispatchRows(sc.id, Written([m])));
            ComesTo(sc, start, later, sent + [m], marked) && LeadsTo(s, later)
  {
    WrittenOne(sc.id, sent, m);
    if CleanContext(m.context) {
      RowWritten(sc, start, s, m, sent, marked);
    } else {
      assert s.messages + [] == s.messages;
      RowNotWritten(sc, start, s, m, sent, marked);
      LeadsNowhere(s);
    }
  }

  function Gap(gaps: seq<seq<Event>>, i: nat): seq<Event> {
    if i < |gaps| then gaps[i] else []
  }

  /** The tasks in `all` are marked failed one by one, except those in `marked`, which already are;
      the order is arbitrary. Before each mark the surroundings take their steps. */
  method MarkTasks(sc: Scenario, ghost start: State, s: State, marked: set<TaskId>, all: set<TaskId>,
                   gaps: seq<seq<Event>>, ghost sent: seq<TaskMessage>)
    returns (later: State)
    requires ComesTo(sc, start, s, sent, marked) && marked <= all && Markable(sc, all, sent)
    ensures ComesTo(sc, start, later, sent, all) && LeadsTo(s, later)
  {
    var todo, i := all - marked, 0;
    later := s;
    assert all - todo == marked;
    LeadsNowhere(s);
    while todo != {}
      invariant todo <= all && i >= 0
      invariant ComesTo(sc, start, later, sent, all - todo) && LeadsTo(s, later)
      decreases todo
    {
      var t := Choose(todo);
      ghost var was := later;
      OneLess(all, todo, t);
      DriveAndMark(sc, start, later, Gap(gaps, i), t, sent, all - todo);
      later := Drive(later, Gap(gaps, i), sc.Mine(), sc.id);
      later := later.(tasks := Mark(later.tasks, t, Failed));
      LeadsOn(s, was, later);
      todo, i := todo - {t}, i + 1;
    }
    assert all - todo == all;
  }

  lemma NextMessage(sent: seq<TaskMessage>, msgs: seq<TaskMessage>, i: nat)
    requires i < |msgs|
    ensures sent + msgs[..i] + [msgs[i]] == sent + msgs[..i + 1] && msgs[i].taskId in TaskIds(msgs)
  {
    assert msgs[i] in msgs;
  }

  lemma NotWrittenYet(sc: Scenario, sent: seq<TaskMessage>, msgs: seq<TaskMessage>, i: nat, marked: set<TaskId>)
    requires i <= |msgs| && marked <= sc.Mine() && marked !! TaskIds(sent + msgs)
    ensures Markable(sc, marked, sent + msgs[..i])
  {
    forall m | m in Written(sent + msgs[..i]) ensures m.taskId !in marked {
      WrittenAreClean(sent + msgs[..i], m);
      assert m in sent + msgs;
    }
  }

  /** The dispatch rows are written one by one, and before each row the surroundings take their
      steps. */
  method WriteRows(queue: MessageQueueService, sc: Scenario, ghost start: State, s: State, msgs: seq<TaskMessage>,
                   gaps: seq<seq<Event>>, ghost sent: seq<TaskMessage>, ghost marked: set<TaskId>)
    returns (later: State)
    requires ComesTo(sc, start, s, sent, marked) && TaskIds(msgs) <= sc.Mine()
    requires marked <= sc.Mine() && marked !! TaskIds(sent + msgs)
    ensures ComesTo(sc, start, later, sent + msgs, marked) && LeadsTo(s, later)
  {
    later := s;
    LeadsNowhere(s);
    assert sent + msgs[..0] == sent;
    for i := 0 to |msgs|
      invariant ComesTo(sc, start, later, sent + msgs[..i], marked) && LeadsTo(s, later)
    {
      ghost var was, so := later, sent + msgs[..i];
      NotWrittenYet(sc, sent, msgs, i, marked);
      DriveOn(sc, start, later, Gap(gaps, i), so, marked);
      later := Drive(later, Gap(gaps, i), sc.Mine(), sc.id);
      LeadsOn(s, was, later);
      NextMessage(sent, msgs, i);
      RowOne(sc, start, later, msgs[i], so, marked);
      was := later;
      var messages := queue.WriteRow(later.messages, sc.id, msgs[i]);
      later := later.(messages := messages);
      LeadsOn(s, was, later);
    }
    assert msgs[..|msgs|] == msgs;
  }

  // ---- polling ------------------------------------------------------------------------------------

  lemma GrowOne(views: seq<MessageTable>, view: MessageTable)
    requires Growing(views) && views != [] && Extends(Last(views), view)
    ensures Growing(views + [view])
  {
    var all := views + [view];
    forall i, j | 0 <= i <= j < |all| ensures Extends(all[i], all[j]) {
      if j < |views| {
        assert Extends(views[i], views[j]);
      } else if i < |views| {
        assert Extends(views[i], Last(views));
        ExtendsTransitive(views[i], Last(views), view);
      }
    }
  }

  /** `now` is reached by these last events of the surroundings. */
  ghost predicate EndsWith(sc: Scenario, was: State, es: seq<Event>, now: State) {
    exists u :: LeadsTo(was, u) && Drive(u, es, sc.Mine(), sc.id) == now
  }

  /** The polls for one wave: before each, the surroundings take their steps. */
  method PollTables(sc: Scenario, ghost start: State, s: State, ticks: seq<seq<Event>>, ghost sent: seq<TaskMessage>,
                    ghost marked: set<TaskId>)
    returns (views: seq<MessageTable>, later: State)
    requires ComesTo(sc, start, s, sent, marked) && Markable(sc, marked, sent) && ticks != []
    ensures views != [] && Growing(views) && Last(views) == later.messages && Extends(s.messages, views[0])
    ensures ComesTo(sc, start, later, sent, marked)
    ensures LeadsTo(s, later) && EndsWith(sc, s, Last(ticks), later)
  {
    later := Drive(s, ticks[0], sc.Mine(), sc.id);
    DriveOn(sc, start, s, ticks[0], sent, marked);
    LeadsNowhere(s);
    LeadsExtends(s, later);
    assert EndsWith(sc, s, ticks[0], later);
    views := [later.messages];
    for j := 1 to |ticks|
      invariant views != [] && Growing(views) && Last(views) == later.messages && Extends(s.messages, views[0])
      invariant ComesTo(sc, start, later, sent, marked)
      invariant LeadsTo(s, later) && EndsWith(sc, s, ticks[j - 1], later)
    {
      ghost var was := later;
      DriveOn(sc, start, later, ticks[j], sent, marked);
      later := Drive(later, ticks[j], sc.Mine(), sc.id);
      assert EndsWith(sc, s, ticks[j], later);
      LeadsOn(s, was, later);
      LeadsExtends(was, later);
      GrowOne(views, later.messages);
      views := views + [later.messages];
    }
  }

  // ---- what the rows hold ---------------------------------------------------------------------------

  ghost predicate CleanNames(sc: Scenario) {
    forall x | x in sc.byId :: CleanName(x)
  }

  /** A message carries the context associated with its subtask; unless names of subtasks get in
      the way, its row can be written exactly when this context can be encoded. */
  ghost predicate AsAssociated(sc: Scenario, x: Id, c: Context) {
    && x in sc.contexts && c == sc.contexts[x].(upstream := c.upstream)
    && (CleanContext(c) ==> CleanContext(sc.contexts[x]))
    && (CleanNames(sc) && CleanContext(sc.contexts[x]) ==> CleanContext(c))
  }

  ghost predicate RowsAsAssociated(sc: Scenario, sent: seq<TaskMessage>, lids: seq<Id>) {
    && |lids| == |sent|
    && (forall i | 0 <= i < |sent| :: AsAssociated(sc, lids[i], sent[i].context))
  }

  ghost predicate CleanFeed(feed: seq<seq<ReplyMessage>>) {
    forall k | 0 <= k < |feed| :: CleanReplies(feed[k])
  }

  lemma {:induction false} CleanSoFar(feed: seq<seq<ReplyMessage>>, asked: seq<bool>)
    requires |asked| <= |feed| && CleanFeed(feed)
    ensures CleanReplies(AllReplies(feed, asked))
  {
    if asked != [] {
      var n := |asked| - 1;
      CleanSoFar(feed, asked[..n]);
      assert CleanReplies(feed[n]);
    }
  }

  ghost predicate CleanResults(replies: map<TaskId, JsonObject>) {
    forall t | t in replies :: Clean(replies[t])
  }

  lemma {:induction false} CleanWhenAbsorbed(replies: seq<ReplyMessage>)
    requires CleanReplies(replies)
    ensures CleanResults(Absorbed(map[], replies))
  {
    if replies != [] {
      var n := |replies| - 1;
      CleanWhenAbsorbed(replies[..n]);
    }
  }

  /** The database holds no result that cannot be encoded, so the scheduler knows none. */
  lemma KnownResultsAreClean(sc: Scenario, feed: seq<seq<ReplyMessage>>, r: RunResult)
    requires |feed| <= |sc.waves| && r in Runs(sc, feed) && CleanFeed(feed)
    ensures CleanResults(r.replies)
  {
    var padded := Padded(feed, |sc.waves|);
    assert RunSoFar(sc.byId, sc.waves, sc.idMap, padded, r);
    CleanSoFar(padded, r.asked);
    CleanWhenAbsorbed(AllReplies(padded, r.asked));
  }

  lemma CarriedIsAssociated(sc: Scenario, replies: map<TaskId, JsonObject>, x: Id, c: Context)
    requires x in sc.byId && CleanResults(replies)
    requires Carries(sc.contexts[x], sc.byId[x].dependsOn, sc.idMap, replies, c)
    ensures AsAssociated(sc, x, c)
  {
    if CleanNames(sc) && CleanContext(sc.contexts[x]) {
      forall d | d in sc.byId[x].dependsOn && d in sc.idMap && sc.idMap[d] in replies
        ensures CleanName(d) && Clean(replies[sc.idMap[d]])
      {
        assert d in sc.byId;
      }
    }
  }

  lemma NewRowsAsAssociated(sc: Scenario, r: RunResult, next: RunResult)
    requires RowsAsAssociated(sc, r.sent, r.lids) && CleanResults(r.replies)
    requires r.sent <= next.sent && r.lids <= next.lids && |r.lids| == |r.sent|
    requires AllCarry(sc.byId, sc.idMap, sc.contexts, r.replies, next.sent[|r.sent|..], next.lids[|r.sent|..])
    ensures RowsAsAssociated(sc, next.sent, next.lids)
  {
    var n := |r.sent|;
    forall i | 0 <= i < |next.sent| ensures AsAssociated(sc, next.lids[i], next.sent[i].context) {
      if i < n {
        assert AsAssociated(sc, r.lids[i], r.sent[i].context);
      } else {
        assert next.lids[i] == next.lids[n..][i - n] && next.sent[i] == next.sent[n..][i - n];
        CarriedIsAssociated(sc, r.replies, next.lids[i], next.sent[i].context);
      }
    }
  }

  // ---- which replies belong to which wave -----------------------------------------------------------

  predicate WrittenAt(r: RunResult, k: nat, i: nat)
    requires |r.sentIn| == |r.sent| && i < |r.sent|
  {
    r.sentIn[i] == k && CleanContext(r.sent[i].context)
  }

  /** The tasks of wave k whose dispatch rows were written. */
  function WrittenTo(r: RunResult, k: nat): set<TaskId>
    requires |r.sentIn| == |r.sent|
  {
    set i | 0 <= i < |r.sent| && WrittenAt(r, k, i) :: r.sent[i].taskId
  }

  /** What a run so far says about where its messages were sent. */
  ghost predicate WellSent(sc: Scenario, r: RunResult) {
    && |r.sentIn| == |r.sent|
    && (forall i | 0 <= i < |r.sent| :: r.sentIn[i] < r.reached)
    && (forall i, j | 0 <= i < j < |r.sent| :: r.sent[i].taskId != r.sent[j].taskId)
    && (forall k | 0 <= k < r.reached <= |sc.waves| :: LocalIds(sc.idMap, WrittenTo(r, k)) <= Ids(sc.waves[k]))
  }

  lemma SentInOwnWave(sc: Scenario, padded: seq<seq<ReplyMessage>>, sent: RunResult, k: nat)
    requires |sent.asked| <= |padded| && k < |sc.waves| && MessagesOf(sc.idMap, sent.sent, sent.lids)
    requires ToldInTime(sc.byId, sc.idMap, padded, sent.asked, sent.sent, sent.lids, sent.sentIn)
    ensures LocalIds(sc.idMap, WrittenTo(sent, k)) <= Ids(sc.waves[k])
  {
    assert IsWave(Sanitized(sc.byId), sc.byId, sc.waves[k], k);
    forall x | x in LocalIds(sc.idMap, WrittenTo(sent, k)) ensures x in Ids(sc.waves[k]) {
      var i :| 0 <= i < |sent.sent| && WrittenAt(sent, k, i) && sent.sent[i].taskId == sc.idMap[x];
      assert ToldAt(sc.byId, sc.idMap, padded, sent.asked, k, sent.lids[i], sent.sent[i].context);
      assert sent.lids[i] == x;
    }
  }

  lemma RunIsWellSent(sc: Scenario, feed: seq<seq<ReplyMessage>>, r: RunResult)
    requires |feed| <= |sc.waves| && r in Runs(sc, feed)
    ensures WellSent(sc, r)
  {
    var padded := Padded(feed, |sc.waves|);
    assert RunSoFar(sc.byId, sc.waves, sc.idMap, padded, r);
    forall i | 0 <= i < |r.sent| ensures r.sentIn[i] < r.reached {
      assert ToldAt(sc.byId, sc.idMap, padded, r.asked, r.sentIn[i], r.lids[i], r.sent[i].context);
    }
    forall i, j | 0 <= i < j < |r.sent| ensures r.sent[i].taskId != r.sent[j].taskId {
      assert r.lids[i] != r.lids[j];
    }
    forall k | 0 <= k < r.reached <= |sc.waves| ensures LocalIds(sc.idMap, WrittenTo(r, k)) <= Ids(sc.waves[k]) {
      SentInOwnWave(sc, padded, r, k);
    }
  }

  /** The new messages went to the new wave; the earlier waves are as they were. */
  lemma WrittenToNow(r: RunResult, sent: RunResult, k: nat)
    requires |r.sentIn| == |r.sent| && forall i | 0 <= i < |r.sent| :: r.sentIn[i] < r.reached
    requires r.sent <= sent.sent && sent.sentIn == r.sentIn + Repeat(r.reached, |sent.sent| - |r.sent|)
    ensures k < r.reached ==> WrittenTo(sent, k) == WrittenTo(r, k)
    ensures WrittenTo(sent, r.reached) == TaskIds(Written(sent.sent[|r.sent|..]))
  {
    forall t ensures k < r.reached ==> (t in WrittenTo(sent, k) <==> t in WrittenTo(r, k)) {
      if k < r.reached && t in WrittenTo(sent, k) {
        var i :| 0 <= i < |sent.sent| && WrittenAt(sent, k, i) && sent.sent[i].taskId == t;
        assert i < |r.sent| && WrittenAt(r, k, i) && r.sent[i] == sent.sent[i];
      }
      if k < r.reached && t in WrittenTo(r, k) {
        var i :| 0 <= i < |r.sent| && WrittenAt(r, k, i) && r.sent[i].taskId == t;
        assert WrittenAt(sent, k, i) && r.sent[i] == sent.sent[i];
      }
    }
    var msgs := sent.sent[|r.sent|..];
    forall t ensures t in WrittenTo(sent, r.reached) <==> t in TaskIds(Written(msgs)) {
      if t in WrittenTo(sent, r.reached) {
        var i :| 0 <= i < |sent.sent| && WrittenAt(sent, r.reached, i) && sent.sent[i].taskId == t;
        assert i >= |r.sent| && msgs[i - |r.sent|] == sent.sent[i] && sent.sent[i] in msgs;
        WrittenAreClean(msgs, sent.sent[i]);
      }
      if t in TaskIds(Written(msgs)) {
        var m :| m in Written(msgs) && m.taskId == t;
        WrittenAreClean(msgs, m);
        var i :| 0 <= i < |msgs| && msgs[i] == m;
        assert WrittenAt(sent, r.reached, |r.sent| + i) && sent.sent[|r.sent| + i] == m;
      }
    }
  }

  function WaveTasks(r: RunResult): seq<set<TaskId>>
    requires |r.sentIn| == |r.sent|
  {
    seq(r.reached, k requires 0 <= k < r.reached => WrittenTo(r, k))
  }

  /** cs describes the collections of a run so far: their waves are new, and their replies are
      those between one offset and the next. */
  ghost predicate Trail(sc: Scenario, cs: seq<Collection>, feed: seq<seq<ReplyMessage>>, r: RunResult,
                        offset: nat, messages: MessageTable) {
    && |cs| == |feed| == r.reached <= |sc.waves| && |r.sentIn| == |r.sent|
    && CleanFeed(feed) && RowsAsAssociated(sc, r.sent, r.lids)
    && SoundCollections(cs, WaveTasks(r), sc.id)
    && (forall k | 0 <= k < |cs| :: FoundAll(cs, WaveTasks(r), k, sc.id))
    && WavesUpTo(WaveTasks(r), r.reached) == TaskIds(Written(r.sent))
    && (forall k | 0 <= k < |cs| :: cs[k].replies == feed[k])
    && offset == OffsetBefore(cs, |cs|)
    && (cs != [] ==> Extends(Last(cs).messages, messages))
  }

  /** What the surroundings do during one turn: before each mark and each row of the wave, before
      each poll for it, and before each mark of the propagation. */
  datatype Turn = Turn(marks: seq<seq<Event>>, rows: seq<seq<Event>>, polls: seq<seq<Event>>, late: seq<seq<Event>>)

  /** `table` is what the last poll found, after the last events of the surroundings before it, on the
      way from `was` to `now`. */
  ghost predicate PolledAt(sc: Scenario, was: State, now: State, es: seq<Event>, table: MessageTable) {
    exists u, p :: LeadsTo(was, u) && Drive(u, es, sc.Mine(), sc.id) == p && p.messages == table && LeadsTo(p, now)
  }

  lemma PolledLater(sc: Scenario, first: State, was: State, now: State, later: State, es: seq<Event>,
                    table: MessageTable)
    requires PolledAt(sc, was, now, es, table) && LeadsTo(first, was) && LeadsTo(now, later)
    ensures PolledAt(sc, first, later, es, table)
  {
    var u, p :| LeadsTo(was, u) && Drive(u, es, sc.Mine(), sc.id) == p && p.messages == table && LeadsTo(p, now);
    LeadsOn(first, was, u);
    LeadsOn(p, now, later);
  }

  /** The tables of the waves that were asked are those of their last polls. */
  ghost predicate AllPolled(sc: Scenario, start: State, s: State, turns: seq<Turn>, asked: seq<bool>,
                            tables: seq<MessageTable>) {
    && |asked| == |tables| <= |turns|
    && (forall k | 0 <= k < |asked| && asked[k] ::
          turns[k].polls != [] && PolledAt(sc, start, s, Last(turns[k].polls), tables[k]))
  }

  lemma OneMorePolled(sc: Scenario, start: State, s: State, later: State, turns: seq<Turn>, asked: seq<bool>,
                      ask: bool, tables: seq<MessageTable>, table: MessageTable)
    requires AllPolled(sc, start, s, turns, asked, tables) && LeadsTo(start, s) && LeadsTo(s, later)
    requires |asked| < |turns| && turns[|asked|].polls != []
    requires ask ==> PolledAt(sc, s, later, Last(turns[|asked|].polls), table)
    ensures AllPolled(sc, start, later, turns, asked + [ask], tables + [table])
  {
    LeadsNowhere(later);
    LeadsNowhere(start);
    forall k | 0 <= k < |asked + [ask]| && (asked + [ask])[k]
      ensures turns[k].polls != [] && PolledAt(sc, start, later, Last(turns[k].polls), (tables + [table])[k])
    {
      if k < |asked| {
        PolledLater(sc, start, start, s, later, Last(turns[k].polls), tables[k]);
      } else {
        PolledLater(sc, start, s, later, later, Last(turns[k].polls), table);
      }
    }
  }

  function Tables(cs: seq<Collection>): seq<MessageTable> {
    seq(|cs|, k requires 0 <= k < |cs| => cs[k].messages)
  }

  /** The replies so far came out of such collections, and their tables out of the polls. */
  ghost predicate Collected(sc: Scenario, start: State, turns: seq<Turn>, feed: seq<seq<ReplyMessage>>, r: RunResult,
                            s: State, offset: nat) {
    exists cs :: Trail(sc, cs, feed, r, offset, s.messages) && AllPolled(sc, start, s, turns, r.asked, Tables(cs))
  }

  lemma {:induction false} WavesUpToPrefix(waves: seq<set<TaskId>>, wave: set<TaskId>, k: nat)
    requires k <= |waves|
    ensures WavesUpTo(waves + [wave], k) == WavesUpTo(waves, k)
  {
    if k > 0 {
      WavesUpToPrefix(waves, wave, k - 1);
    }
  }

  lemma WaveTasksNow(r: RunResult, next: RunResult)
    requires |r.sentIn| == |r.sent| && forall i | 0 <= i < |r.sent| :: r.sentIn[i] < r.reached
    requires r.sent <= next.sent && next.sentIn == r.sentIn + Repeat(r.reached, |next.sent| - |r.sent|)
    requires next.reached == r.reached + 1
    ensures WaveTasks(next) == WaveTasks(r) + [TaskIds(Written(next.sent[|r.sent|..]))]
  {
    forall k | 0 <= k < next.reached
      ensures WaveTasks(next)[k] == (WaveTasks(r) + [TaskIds(Written(next.sent[|r.sent|..]))])[k]
    {
      WrittenToNow(r, next, k);
    }
  }

  lemma StillSound(cs: seq<Collection>, c: Collection, waves: seq<set<TaskId>>, wave: set<TaskId>, k: nat,
                   scenario: ScenarioId)
    requires k < |cs| <= |waves| && SoundCollection(cs, waves, k, scenario)
    ensures SoundCollection(cs + [c], waves + [wave], k, scenario)
  {
    WavesUpToPrefix(waves, wave, k);
    assert k > 0 ==> (cs + [c])[k - 1] == cs[k - 1];
  }

  lemma OneMoreSound(cs: seq<Collection>, c: Collection, waves: seq<set<TaskId>>, wave: set<TaskId>,
                     scenario: ScenarioId)
    requires SoundCollections(cs, waves, scenario) && |cs| == |waves|
    requires SoundCollection(cs + [c], waves + [wave], |cs|, scenario)
    ensures SoundCollections(cs + [c], waves + [wave], scenario)
  {
    forall k | 0 <= k < |cs + [c]| ensures SoundCollection(cs + [c], waves + [wave], k, scenario) {
      if k < |cs| {
        assert SoundCollection(cs, waves, k, scenario);
        StillSound(cs, c, waves, wave, k, scenario);
      }
    }
  }

  lemma SplitIds(all: seq<TaskMessage>, n: nat)
    requires n <= |all|
    ensures TaskIds(Written(all)) == TaskIds(Written(all[..n])) + TaskIds(Written(all[n..]))
  {
    assert all == all[..n] + all[n..];
    WrittenConcat(all[..n], all[n..]);
    IdsOfTwo(Written(all[..n]), Written(all[n..]));
  }

  lemma NewMessagesDisjoint(all: seq<TaskMessage>, n: nat)
    requires n <= |all| && forall i, j | 0 <= i < j < |all| :: all[i].taskId != all[j].taskId
    ensures TaskIds(Written(all[..n])) !! TaskIds(Written(all[n..]))
  {
    forall t | t in TaskIds(Written(all[..n])) ensures t !in TaskIds(Written(all[n..])) {
      var m :| m in Written(all[..n]) && m.taskId == t;
      WrittenAreClean(all[..n], m);
      var i :| 0 <= i < n && all[i] == m;
      forall x | x in Written(all[n..]) ensures x.taskId != t {
        WrittenAreClean(all[n..], x);
        var j :| 0 <= j < |all| - n && all[n..][j] == x;
        assert all[n + j] == x;
      }
    }
  }

  lemma NewCollectionIsSound(sc: Scenario, cs: seq<Collection>, r: RunResult, next: RunResult, c: Collection,
                             messages: MessageTable)
    requires |cs| == r.reached && WellSent(sc, next) && TableOk(c.messages)
    requires |r.sentIn| == |r.sent| && r.sent <= next.sent
    requires WavesUpTo(WaveTasks(r), r.reached) == TaskIds(Written(r.sent))
    requires DispatchedTasks(c.messages, sc.id) == TaskIds(Written(next.sent))
    requires cs != [] ==> Extends(Last(cs).messages, messages)
    requires Extends(messages, c.messages) && GapFree(cs + [c], |cs|, sc.id)
    ensures SoundCollection(cs + [c], WaveTasks(r) + [TaskIds(Written(next.sent[|r.sent|..]))], |cs|, sc.id)
    ensures WavesUpTo(WaveTasks(r) + [TaskIds(Written(next.sent[|r.sent|..]))], r.reached + 1)
            == TaskIds(Written(next.sent))
  {
    var n := |r.sent|;
    WavesUpToPrefix(WaveTasks(r), TaskIds(Written(next.sent[n..])), r.reached);
    assert next.sent[..n] == r.sent;
    NewMessagesDisjoint(next.sent, n);
    SplitIds(next.sent, n);
    if cs != [] {
      ExtendsTransitive(Last(cs).messages, messages, c.messages);
      assert (cs + [c])[|cs| - 1] == Last(cs);
    }
  }

  lemma StepIsSound(sc: Scenario, cs: seq<Collection>, r: RunResult, next: RunResult, messages: MessageTable,
                    c: Collection)
    requires |cs| == r.reached && WellSent(sc, r) && SoundCollections(cs, WaveTasks(r), sc.id)
    requires WavesUpTo(WaveTasks(r), r.reached) == TaskIds(Written(r.sent))
    requires cs != [] ==> Extends(Last(cs).messages, messages)
    requires next.reached == r.reached + 1 && WellSent(sc, next) && TableOk(c.messages)
    requires r.sent <= next.sent && next.sentIn == r.sentIn + Repeat(r.reached, |next.sent| - |r.sent|)
    requires DispatchedTasks(c.messages, sc.id) == TaskIds(Written(next.sent))
    requires Extends(messages, c.messages) && GapFree(cs + [c], |cs|, sc.id)
    ensures SoundCollections(cs + [c], WaveTasks(next), sc.id)
    ensures WavesUpTo(WaveTasks(next), next.reached) == TaskIds(Written(next.sent))
  {
    WaveTasksNow(r, next);
    NewCollectionIsSound(sc, cs, r, next, c, messages);
    OneMoreSound(cs, c, WaveTasks(r), TaskIds(Written(next.sent[|r.sent|..])), sc.id);
  }

  lemma StillFoundAll(cs: seq<Collection>, c: Collection, waves: seq<set<TaskId>>, wave: set<TaskId>, k: nat,
                      scenario: ScenarioId)
    requires k < |cs| <= |waves| && FoundAll(cs, waves, k, scenario)
    ensures FoundAll(cs + [c], waves + [wave], k, scenario)
  {
    assert k > 0 ==> (cs + [c])[k - 1] == cs[k - 1];
  }

  lemma {:induction false} WrittenIdsBound(msgs: seq<TaskMessage>)
    ensures |TaskIds(Written(msgs))| <= |msgs|
  {
    if msgs != [] {
      var n := |msgs| - 1;
      WrittenIdsBound(msgs[..n]);
      OneMoreId(msgs[..n], msgs[n]);
      assert msgs[..n] + [msgs[n]] == msgs;
    }
  }

  /** The new collection found all there was, if it came back short of its rows. */
  lemma StepFindsAll(sc: Scenario, cs: seq<Collection>, r: RunResult, next: RunResult, c: Collection)
    requires |cs| == r.reached && WellSent(sc, r) && |next.sentIn| == |next.sent|
    requires forall k | 0 <= k < |cs| :: FoundAll(cs, WaveTasks(r), k, sc.id)
    requires next.reached == r.reached + 1
    requires r.sent <= next.sent && next.sentIn == r.sentIn + Repeat(r.reached, |next.sent| - |r.sent|)
    requires GapFree(cs + [c], |cs|, sc.id)
    requires |c.replies| < |next.sent| - |r.sent| ==>
               Exhausted(c.messages, sc.id, OffsetBefore(cs, |cs|), c.offset)
    ensures forall k | 0 <= k < |cs + [c]| :: FoundAll(cs + [c], WaveTasks(next), k, sc.id)
  {
    var wave := TaskIds(Written(next.sent[|r.sent|..]));
    WaveTasksNow(r, next);
    WrittenIdsBound(next.sent[|r.sent|..]);
    forall k | 0 <= k < |cs + [c]| ensures FoundAll(cs + [c], WaveTasks(r) + [wave], k, sc.id) {
      if k < |cs| {
        StillFoundAll(cs, c, WaveTasks(r), wave, k, sc.id);
      } else {
        assert OffsetBefore(cs + [c], k) == OffsetBefore(cs, k);
      }
    }
  }

  /** What one collection adds to the replies before offset `start`: c.messages is the table that
      the last poll read, between `was` and `now`; n replies were expected. */
  ghost predicate Collects(sc: Scenario, c: Collection, start: nat, was: MessageTable, now: MessageTable,
                           sent: seq<TaskMessage>, n: nat) {
    && TableOk(c.messages) && DispatchedTasks(c.messages, sc.id) == TaskIds(Written(sent))
    && Extends(was, c.messages) && Extends(c.messages, now)
    && start <= c.offset <= |c.messages| && CleanReplies(c.replies)
    && ScenarioReplies(c.messages[..c.offset], sc.id) == ScenarioReplies(c.messages[..start], sc.id) + c.replies
    && (|c.replies| < n ==> Exhausted(c.messages, sc.id, start, c.offset))
  }

  lemma CollectsFrom(sc: Scenario, c: Collection, start: nat, first: MessageTable, was: MessageTable,
                     now: MessageTable, sent: seq<TaskMessage>, n: nat)
    requires Extends(first, was) && Collects(sc, c, start, was, now, sent, n)
    ensures Collects(sc, c, start, first, now, sent, n)
  {
    ExtendsTransitive(first, was, c.messages);
  }

  lemma OffsetInside(sc: Scenario, start: State, turns: seq<Turn>, feed: seq<seq<ReplyMessage>>, r: RunResult, s: State,
                     offset: nat)
    requires Collected(sc, start, turns, feed, r, s, offset)
    ensures offset <= |s.messages|
  {
    var cs :| Trail(sc, cs, feed, r, offset, s.messages);
    if cs != [] {
      assert SoundCollection(cs, WaveTasks(r), |cs| - 1, sc.id);
    }
  }

  lemma LongerTrail(sc: Scenario, cs: seq<Collection>, c: Collection, feed: seq<seq<ReplyMessage>>, next: RunResult,
                    now: MessageTable)
    requires |cs| == |feed| < |sc.waves| && next.reached == |cs| + 1 && |next.sentIn| == |next.sent|
    requires CleanFeed(feed) && CleanReplies(c.replies) && RowsAsAssociated(sc, next.sent, next.lids)
    requires forall k | 0 <= k < |cs| :: cs[k].replies == feed[k]
    requires SoundCollections(cs + [c], WaveTasks(next), sc.id) && Extends(c.messages, now)
    requires forall k | 0 <= k < |cs + [c]| :: FoundAll(cs + [c], WaveTasks(next), k, sc.id)
    requires WavesUpTo(WaveTasks(next), next.reached) == TaskIds(Written(next.sent))
    ensures Trail(sc, cs + [c], feed + [c.replies], next, c.offset, now)
  {
  }

  lemma GapFreeNow(cs: seq<Collection>, c: Collection, start: nat, scenario: ScenarioId)
    requires start == OffsetBefore(cs, |cs|) && start <= c.offset <= |c.messages|
    requires ScenarioReplies(c.messages[..c.offset], scenario)
             == ScenarioReplies(c.messages[..start], scenario) + c.replies
    ensures GapFree(cs + [c], |cs|, scenario)
  {
  }

  lemma OneMoreTable(cs: seq<Collection>, c: Collection)
    ensures Tables(cs + [c]) == Tables(cs) + [c.messages]
  {
  }

  lemma TrailStep(sc: Scenario, cs: seq<Collection>, feed: seq<seq<ReplyMessage>>, r: RunResult, next: RunResult,
                  offset: nat, was: MessageTable, c: Collection, now: MessageTable)
    requires |feed| < |sc.waves| && Trail(sc, cs, feed, r, offset, was)
    requires WellSent(sc, r) && WellSent(sc, next) && RowsAsAssociated(sc, next.sent, next.lids)
    requires r.reached == |feed| && next.reached == |feed| + 1
    requires r.sent <= next.sent && next.sentIn == r.sentIn + Repeat(r.reached, |next.sent| - |r.sent|)
    requires Collects(sc, c, offset, was, now, next.sent, |next.sent| - |r.sent|)
    ensures Trail(sc, cs + [c], feed + [c.replies], next, c.offset, now)
  {
    GapFreeNow(cs, c, offset, sc.id);
    StepIsSound(sc, cs, r, next, was, c);
    StepFindsAll(sc, cs, r, next, c);
    LongerTrail(sc, cs, c, feed, next, now);
  }

  /** The new collection was made on the way from `was` to `now`. */
  ghost predicate MadeBetween(sc: Scenario, turns: seq<Turn>, was: State, now: State, r: RunResult, next: RunResult,
                              c: Collection) {
    && LeadsTo(was, now) && |r.asked| < |turns| && turns[|r.asked|].polls != []
    && next.asked == r.asked + [next.sent != r.sent]
    && (next.sent != r.sent ==> PolledAt(sc, was, now, Last(turns[|r.asked|].polls), c.messages))
  }

  lemma CollectedStep(sc: Scenario, start: State, turns: seq<Turn>, feed: seq<seq<ReplyMessage>>, r: RunResult,
                      next: RunResult, was: State, now: State, offset: nat, c: Collection)
    requires |feed| < |sc.waves| && Collected(sc, start, turns, feed, r, was, offset)
    requires WellSent(sc, r) && WellSent(sc, next) && RowsAsAssociated(sc, next.sent, next.lids)
    requires r.reached == |feed| && next.reached == |feed| + 1
    requires r.sent <= next.sent && next.sentIn == r.sentIn + Repeat(r.reached, |next.sent| - |r.sent|)
    requires Collects(sc, c, offset, was.messages, now.messages, next.sent, |next.sent| - |r.sent|)
    requires LeadsTo(start, was) && MadeBetween(sc, turns, was, now, r, next, c)
    ensures Collected(sc, start, turns, feed + [c.replies], next, now, c.offset)
  {
    var cs :| Trail(sc, cs, feed, r, offset, was.messages) && AllPolled(sc, start, was, turns, r.asked, Tables(cs));
    OneMorePolled(sc, start, was, now, turns, r.asked, next.sent != r.sent, Tables(cs), c.messages);
    OneMoreTable(cs, c);
    TrailStep(sc, cs, feed, r, next, offset, was.messages, c, now.messages);
  }

  // ---- one wave ----------------------------------------------------------------------------------

  lemma SentMarkedUnsent(sc: Scenario, feed: seq<seq<ReplyMessage>>, r: RunResult, sent: RunResult)
    requires |feed| < |sc.waves| && sent in Sendings(sc, feed, r)
    ensures sent.marked <= sc.Mine() && sent.marked !! TaskIds(sent.sent) && TaskIds(sent.sent) <= sc.Mine()
  {
    var padded := Padded(feed, |sc.waves|);
    MarkedUnsent(sc.byId, sc.idMap, padded, Hits(Sanitized(sc.byId), sc.idMap, padded, r.asked), sent);
  }

  lemma MarkedUnwritten(sc: Scenario, marked: set<TaskId>, sent: seq<TaskMessage>, more: seq<TaskMessage>)
    requires marked <= sc.Mine() && marked !! TaskIds(more) && sent <= more
    ensures Markable(sc, marked, sent) && TaskIds(more[|sent|..]) <= TaskIds(more)
  {
    forall m | m in Written(sent) ensures m.taskId !in marked {
      WrittenAreClean(sent, m);
      assert m in more;
    }
  }

  lemma RunIsMarkedUnsent(sc: Scenario, feed: seq<seq<ReplyMessage>>, r: RunResult)
    requires |feed| <= |sc.waves| && r in Runs(sc, feed)
    ensures r.marked <= sc.Mine() && r.marked !! TaskIds(r.sent) && TaskIds(r.sent) <= sc.Mine()
    ensures r.reached == |feed|
  {
    var padded := Padded(feed, |sc.waves|);
    MarkedUnsent(sc.byId, sc.idMap, padded, Hits(Sanitized(sc.byId), sc.idMap, padded, r.asked), r);
  }

  lemma RunIsMarkable(sc: Scenario, feed: seq<seq<ReplyMessage>>, r: RunResult)
    requires |feed| <= |sc.waves| && r in Runs(sc, feed)
    ensures Markable(sc, r.marked, r.sent)
  {
    RunIsMarkedUnsent(sc, feed, r);
    MarkedUnwritten(sc, r.marked, r.sent, r.sent);
  }

  lemma SentIsDispatched(sent: seq<TaskMessage>)
    ensures TaskIds(Written(sent)) <= TaskIds(sent)
  {
    forall m | m in Written(sent) ensures m in sent {
      WrittenAreClean(sent, m);
    }
  }

  /** What a run holds between two turns. */
  ghost predicate Underway(sc: Scenario, start: State, turns: seq<Turn>, feed: seq<seq<ReplyMessage>>, r: RunResult,
                           s: State, offset: nat)
    requires |feed| <= |sc.waves|
  {
    && r in Runs(sc, feed) && ComesTo(sc, start, s, r.sent, r.marked)
    && Collected(sc, start, turns, feed, r, s, offset)
  }

  lemma ComesToFacts(sc: Scenario, start: State, s: State, sent: seq<TaskMessage>, marked: set<TaskId>)
    requires ComesTo(sc, start, s, sent, marked)
    ensures AllFailed(s.tasks, marked)
    ensures TableOk(s.messages) && DispatchedTasks(s.messages, sc.id) == TaskIds(Written(sent))
  {
    SoundFacts(s);
  }

  lemma CollectedFacts(sc: Scenario, start: State, turns: seq<Turn>, feed: seq<seq<ReplyMessage>>, r: RunResult,
                       s: State, offset: nat)
    requires |feed| <= |sc.waves| && r in Runs(sc, feed) && Collected(sc, start, turns, feed, r, s, offset)
    ensures RowsAsAssociated(sc, r.sent, r.lids) && CleanResults(r.replies)
  {
    var cs :| Trail(sc, cs, feed, r, offset, s.messages);
    KnownResultsAreClean(sc, feed, r);
  }

  /** The first half of a turn: the wave is prepared, then its marks and rows are written. */
  method StartTurn(agent: SchedulingAgent, queue: MessageQueueService, sc: Scenario, r: RunResult, s: State,
                   turns: seq<Turn>, ghost start: State, ghost feed: seq<seq<ReplyMessage>>, ghost offset: nat)
    returns (sent: RunResult, later: State)
    requires |feed| < |sc.waves| && Underway(sc, start, turns, feed, r, s, offset) && agent.outbox == r.sent
    requires r.reached < |turns|
    modifies agent
    ensures sent in Sendings(sc, feed, r) && RowsAsAssociated(sc, sent.sent, sent.lids) && agent.outbox == sent.sent
    ensures r.sent <= sent.sent && sent.sentIn == r.sentIn + Repeat(r.reached, |sent.sent| - |r.sent|)
    ensures sent.asked == r.asked + [sent.sent != r.sent] && r.reached == |r.asked|
    ensures ComesTo(sc, start, later, sent.sent, sent.marked) && LeadsTo(s, later)
  {
    ComesToFacts(sc, start, s, r.sent, r.marked);
    sent := PlanWave(agent, sc, r, s.tasks, feed);
    CollectedFacts(sc, start, turns, feed, r, s, offset);
    NewRowsAsAssociated(sc, r, sent);
    SentMarkedUnsent(sc, feed, r, sent);
    MarkedUnwritten(sc, sent.marked, r.sent, sent.sent);
    Rejoin(r.sent, sent.sent);
    var marked := MarkTasks(sc, start, s, r.marked, sent.marked, turns[r.reached].marks, r.sent);
    later := WriteRows(queue, sc, start, marked, sent.sent[|r.sent|..], turns[r.reached].rows, r.sent, sent.marked);
    LeadsOn(s, marked, later);
  }

  /** The polls of a wave in which something was sent, and its replies. */
  method PollTurn(agent: SchedulingAgent, queue: MessageQueueService, sc: Scenario, r: RunResult, sent: RunResult,
                  s: State, turn: Turn, ghost start: State, ghost feed: seq<seq<ReplyMessage>>)
    returns (next: RunResult, polled: State, replies: seq<ReplyMessage>)
    requires |feed| < |sc.waves| && r in Runs(sc, feed) && sent in Sendings(sc, feed, r) && sent.sent != r.sent
    requires ComesTo(sc, start, s, sent.sent, sent.marked)
    requires turn.polls != [] && queue.Offset(sc.id) <= |s.messages|
    modifies agent`tasks, queue
    ensures next in Runs(sc, feed + [replies]) && sent.marked <= next.marked
    ensures next == sent.(bad := next.bad, replies := next.replies, marked := next.marked)
    ensures ComesTo(sc, start, polled, sent.sent, sent.marked)
    ensures LeadsTo(s, polled) && EndsWith(sc, s, Last(turn.polls), polled)
    ensures r.sent <= sent.sent
    ensures Collects(sc, Collection(polled.messages, queue.Offset(sc.id), replies), old(queue.Offset(sc.id)),
                     s.messages, polled.messages, sent.sent, |sent.sent| - |r.sent|)
  {
    var views;
    SentMarkedUnsent(sc, feed, r, sent);
    MarkedUnwritten(sc, sent.marked, sent.sent, sent.sent);
    views, polled := PollTables(sc, start, s, turn.polls, sent.sent, sent.marked);
    ComesToFacts(sc, start, polled, sent.sent, sent.marked);
    SentIsDispatched(sent.sent);
    next, replies := CollectWave(agent, queue, sc, r, sent, views, polled.tasks, feed);
    ExtendsTransitive(s.messages, views[0], polled.messages);
  }

  lemma NothingCollects(sc: Scenario, start: State, s: State, sent: seq<TaskMessage>, marked: set<TaskId>, offset: nat)
    requires ComesTo(sc, start, s, sent, marked) && offset <= |s.messages|
    ensures Collects(sc, Collection(s.messages, offset, []), offset, s.messages, s.messages, sent, 0)
  {
    ComesToFacts(sc, start, s, sent, marked);
  }

  /** Polls between further steps of the surroundings, if something was sent, then the marks of the
      propagation. */
  method CollectTurn(agent: SchedulingAgent, queue: MessageQueueService, sc: Scenario, r: RunResult, sent: RunResult,
                     s: State, turns: seq<Turn>, ghost start: State, ghost feed: seq<seq<ReplyMessage>>,
                     ghost offset: nat)
    returns (next: RunResult, later: State, replies: seq<ReplyMessage>, ghost c: Collection)
    requires |feed| < |sc.waves| && r in Runs(sc, feed) && sent in Sendings(sc, feed, r)
    requires ComesTo(sc, start, s, sent.sent, sent.marked)
    requires sent.asked == r.asked + [sent.sent != r.sent] && r.reached == |r.asked| < |turns|
    requires turns[r.reached].polls != [] && offset == queue.Offset(sc.id) <= |s.messages|
    modifies agent`tasks, queue
    ensures next in Runs(sc, feed + [replies])
    ensures next.sent == sent.sent && next.lids == sent.lids && next.sentIn == sent.sentIn
    ensures ComesTo(sc, start, later, next.sent, next.marked)
    ensures MadeBetween(sc, turns, s, later, r, next, c)
    ensures c.replies == replies && c.offset == queue.Offset(sc.id) && r.sent <= sent.sent
    ensures Collects(sc, c, offset, s.messages, later.messages, next.sent, |sent.sent| - |r.sent|)
  {
    if sent.sent == r.sent {
      LeadsNowhere(s);
      EmptyWave(sc, feed, r, sent);
      NothingCollects(sc, start, s, sent.sent, sent.marked, queue.Offset(sc.id));
      next, later, replies := sent, s, [];
      c := Collection(s.messages, queue.Offset(sc.id), []);
    } else {
      var polled;
      next, polled, replies := PollTurn(agent, queue, sc, r, sent, s, turns[r.reached], start, feed);
      c := Collection(polled.messages, queue.Offset(sc.id), replies);
      RunIsMarkable(sc, feed + [replies], next);
      later := MarkTasks(sc, start, polled, sent.marked, next.marked, turns[r.reached].late, sent.sent);
      LeadsOn(s, polled, later);
      LeadsExtends(polled, later);
    }
  }

  lemma MadeFrom(sc: Scenario, turns: seq<Turn>, was: State, s: State, now: State, r: RunResult, next: RunResult,
                 c: Collection)
    requires LeadsTo(was, s) && MadeBetween(sc, turns, s, now, r, next, c)
    ensures MadeBetween(sc, turns, was, now, r, next, c)
  {
    LeadsOn(was, s, now);
    LeadsNowhere(now);
    if next.sent != r.sent {
      PolledLater(sc, was, s, now, now, Last(turns[|r.asked|].polls), c.messages);
    }
  }

  lemma RunLed(sc: Scenario, start: State, s: State, sent: seq<TaskMessage>, marked: set<TaskId>)
    requires ComesTo(sc, start, s, sent, marked)
    ensures LeadsTo(start, s)
  {
  }

  lemma TurnCollected(sc: Scenario, start: State, turns: seq<Turn>, feed: seq<seq<ReplyMessage>>, r: RunResult,
                      next: RunResult, was: State, written: State, later: State, offset: nat, c: Collection)
    requires |feed| < |sc.waves| && Collected(sc, start, turns, feed, r, was, offset)
    requires WellSent(sc, r) && WellSent(sc, next) && RowsAsAssociated(sc, next.sent, next.lids)
    requires r.reached == |feed| && next.reached == |feed| + 1
    requires r.sent <= next.sent && next.sentIn == r.sentIn + Repeat(r.reached, |next.sent| - |r.sent|)
    requires Collects(sc, c, offset, written.messages, later.messages, next.sent, |next.sent| - |r.sent|)
    requires LeadsTo(start, was) && LeadsTo(was, written) && MadeBetween(sc, turns, written, later, r, next, c)
    ensures Collected(sc, start, turns, feed + [c.replies], next, later, c.offset)
  {
    LeadsExtends(was, written);
    CollectsFrom(sc, c, offset, was.messages, written.messages, later.messages, next.sent, |next.sent| - |r.sent|);
    MadeFrom(sc, turns, was, written, later, r, next, c);
    CollectedStep(sc, start, turns, feed, r, next, was, later, offset, c);
  }

  lemma SameGrowth(r: RunResult, sent: RunResult, next: RunResult)
    requires r.sent <= sent.sent && sent.sentIn == r.sentIn + Repeat(r.reached, |sent.sent| - |r.sent|)
    requires next.sent == sent.sent && next.sentIn == sent.sentIn
    ensures r.sent <= next.sent && next.sentIn == r.sentIn + Repeat(r.reached, |next.sent| - |r.sent|)
  {
  }

  lemma TurnDone(sc: Scenario, start: State, turns: seq<Turn>, feed: seq<seq<ReplyMessage>>, r: RunResult,
                 sent: RunResult, next: RunResult, was: State, written: State, later: State, c: Collection,
                 replies: seq<ReplyMessage>, offset: nat, nowOffset: nat)
    requires |feed| < |sc.waves| && r in Runs(sc, feed) && Collected(sc, start, turns, feed, r, was, offset)
    requires RowsAsAssociated(sc, sent.sent, sent.lids) && LeadsTo(start, was) && LeadsTo(was, written)
    requires r.sent <= sent.sent && sent.sentIn == r.sentIn + Repeat(r.reached, |sent.sent| - |r.sent|)
    requires next in Runs(sc, feed + [replies])
    requires next.sent == sent.sent && next.lids == sent.lids && next.sentIn == sent.sentIn
    requires c.replies == replies && c.offset == nowOffset
    requires Collects(sc, c, offset, written.messages, later.messages, next.sent, |sent.sent| - |r.sent|)
    requires MadeBetween(sc, turns, written, later, r, next, c)
    ensures Collected(sc, start, turns, feed + [replies], next, later, nowOffset)
  {
    RunIsWellSent(sc, feed, r);
    RunIsWellSent(sc, feed + [replies], next);
    SameGrowth(r, sent, next);
    assert RowsAsAssociated(sc, next.sent, next.lids);
    TurnCollected(sc, start, turns, feed, r, next, was, written, later, offset, c);
  }

  /** The second half of a turn. Before it the run was in state `was`. */
  method FinishTurn(agent: SchedulingAgent, queue: MessageQueueService, sc: Scenario, r: RunResult, sent: RunResult,
                    s: State, turns: seq<Turn>, ghost start: State, ghost was: State,
                    ghost feed: seq<seq<ReplyMessage>>)
    returns (next: RunResult, later: State, replies: seq<ReplyMessage>)
    requires |feed| < |sc.waves| && Underway(sc, start, turns, feed, r, was, queue.Offset(sc.id))
    requires sent in Sendings(sc, feed, r) && RowsAsAssociated(sc, sent.sent, sent.lids)
    requires r.sent <= sent.sent && sent.sentIn == r.sentIn + Repeat(r.reached, |sent.sent| - |r.sent|)
    requires ComesTo(sc, start, s, sent.sent, sent.marked)
    requires sent.asked == r.asked + [sent.sent != r.sent] && r.reached == |r.asked| < |turns|
    requires turns[r.reached].polls != [] && LeadsTo(was, s)
    modifies agent`tasks, queue
    ensures Underway(sc, start, turns, feed + [replies], next, later, queue.Offset(sc.id)) && next.sent == sent.sent
  {
    ghost var offset := queue.Offset(sc.id);
    ghost var c;
    LeadsExtends(was, s);
    RunLed(sc, start, was, r.sent, r.marked);
    OffsetInside(sc, start, turns, feed, r, was, offset);
    next, later, replies, c := CollectTurn(agent, queue, sc, r, sent, s, turns, start, feed, offset);
    TurnDone(sc, start, turns, feed, r, sent, next, was, s, later, c, replies, offset, queue.Offset(sc.id));
  }

  /** One turn of the wave loop, in its surroundings. */
  method OneTurn(agent: SchedulingAgent, queue: MessageQueueService, sc: Scenario, r: RunResult, s: State,
                 turns: seq<Turn>, ghost start: State, ghost feed: seq<seq<ReplyMessage>>)
    returns (next: RunResult, later: State, replies: seq<ReplyMessage>)
    requires |feed| < |sc.waves| && Underway(sc, start, turns, feed, r, s, queue.Offset(sc.id))
    requires r.reached < |turns| && turns[r.reached].polls != [] && agent.outbox == r.sent
    modifies agent, queue
    ensures Underway(sc, start, turns, feed + [replies], next, later, queue.Offset(sc.id))
    ensures agent.outbox == next.sent
  {
    var sent, written;
    sent, written := StartTurn(agent, queue, sc, r, s, turns, start, feed, queue.Offset(sc.id));
    next, later, replies := FinishTurn(agent, queue, sc, r, sent, written, turns, start, s, feed);
  }

  // ---- the whole run -------------------------------------------------------------------------------

  lemma StartsUnderway(sc: Scenario, start: State, turns: seq<Turn>)
    requires WorldOf(sc, [], start)
    ensures Underway(sc, start, turns, [], RunResult(0, [], [], [], {}, {}, {}, map[], []), start, 0)
  {
    assert AllPolled(sc, start, start, turns, [], Tables([]));
    assert Trail(sc, [], [], RunResult(0, [], [], [], {}, {}, {}, map[], []), 0, start.messages);
    RunStarts(sc.byId, sc.waves, sc.idMap, Padded([], |sc.waves|));
    AtFirst(sc, start);
  }

  /** As long as the earlier waves came back full, with a reply for each of their rows, a wave's
      replies are its own. */
  ghost predicate OwnRepliesWhileFull(feed: seq<seq<ReplyMessage>>, waves: seq<set<TaskId>>) {
    && |feed| == |waves|
    && (forall k | 0 <= k < |feed| && AllFull(feed, waves, k) :: OwnReplies(feed[k], waves[k]))
  }

  /** And nothing is left behind: if the last poll finds a reply to each of its rows, a wave comes
      back full. */
  ghost predicate FullWhenAnswered(scenario: ScenarioId, feed: seq<seq<ReplyMessage>>, waves: seq<set<TaskId>>,
                                   tables: seq<MessageTable>) {
    && |feed| == |waves| == |tables|
    && (forall k | 0 <= k < |feed| && AllFull(feed, waves, k) && AllAnswered(tables[k], scenario, waves[k]) ::
          |feed[k]| == |waves[k]|)
  }

  lemma NoMoreThanTasks(replies: seq<ReplyMessage>, wave: set<TaskId>)
    requires OwnReplies(replies, wave)
    ensures |replies| <= |wave|
  {
    CountDistinct(replies);
    SubsetSize(Replied(replies), wave);
  }

  lemma CollectedIsBarrier(sc: Scenario, start: State, turns: seq<Turn>, feed: seq<seq<ReplyMessage>>, r: RunResult,
                           s: State, offset: nat) returns (tables: seq<MessageTable>)
    requires Collected(sc, start, turns, feed, r, s, offset)
    ensures |r.sentIn| == |r.sent| && OwnRepliesWhileFull(feed, WaveTasks(r))
    ensures FullWhenAnswered(sc.id, feed, WaveTasks(r), tables) && AllPolled(sc, start, s, turns, r.asked, tables)
  {
    var cs :| Trail(sc, cs, feed, r, offset, s.messages) && AllPolled(sc, start, s, turns, r.asked, Tables(cs));
    var waves := WaveTasks(r);
    tables := Tables(cs);
    forall k | 0 <= k < |feed| && AllFull(feed, waves, k)
      ensures OwnReplies(feed[k], waves[k])
      ensures AllAnswered(tables[k], sc.id, waves[k]) ==> |feed[k]| == |waves[k]|
    {
      EveryWaveIsABarrier(cs, waves, sc.id, k);
      NoMoreThanTasks(feed[k], waves[k]);
      assert FoundAll(cs, waves, k, sc.id);
      if AllAnswered(tables[k], sc.id, waves[k]) {
        AnsweredIsFull(cs, waves, sc.id, k);
      }
    }
  }

  // ---- the replies are true ------------------------------------------------------------------------

  /** A row of the table holds this reply, and the task is in state success if the reply counts as
      one, and failed otherwise. */
  ghost predicate Holds(scenario: ScenarioId, s: State, reply: ReplyMessage) {
    && Reply(scenario, reply.taskId, reply.result, true) in s.messages
    && reply.taskId in s.tasks && s.tasks[reply.taskId] == (if reply.success then Success else Failed)
  }

  ghost predicate AllHold(scenario: ScenarioId, s: State, feed: seq<seq<ReplyMessage>>) {
    forall k, i | 0 <= k < |feed| && 0 <= i < |feed[k]| :: Holds(scenario, s, feed[k][i])
  }

  lemma {:induction false} RepliesHold(scenario: ScenarioId, s: State, n: nat, i: nat)
    requires Sound(s) && n <= |s.messages| && i < |ScenarioReplies(s.messages[..n], scenario)|
    ensures Holds(scenario, s, ScenarioReplies(s.messages[..n], scenario)[i])
  {
    assert s.messages[..n][..n - 1] == s.messages[..n - 1];
    if i < |ScenarioReplies(s.messages[..n - 1], scenario)| {
      RepliesHold(scenario, s, n - 1, i);
    } else {
      SoundRowTells(s, n - 1);
      assert s.messages[n - 1] in s.messages;
    }
  }

  lemma {:induction false} TrailExtends(cs: seq<Collection>, waves: seq<set<TaskId>>, scenario: ScenarioId, k: nat,
                                        messages: MessageTable)
    requires SoundCollections(cs, waves, scenario) && k < |cs| && Extends(Last(cs).messages, messages)
    ensures Extends(cs[k].messages, messages)
    decreases |cs| - k
  {
    if k + 1 < |cs| {
      TrailExtends(cs, waves, scenario, k + 1, messages);
      assert SoundCollection(cs, waves, k + 1, scenario);
      ExtendsTransitive(cs[k].messages, cs[k + 1].messages, messages);
    }
  }

  lemma CollectionHolds(scenario: ScenarioId, s: State, c: Collection, before: nat, i: nat)
    requires Sound(s) && Extends(c.messages, s.messages) && before <= c.offset <= |c.messages| && i < |c.replies|
    requires ScenarioReplies(c.messages[..c.offset], scenario)
             == ScenarioReplies(c.messages[..before], scenario) + c.replies
    ensures Holds(scenario, s, c.replies[i])
  {
    var n := |ScenarioReplies(c.messages[..before], scenario)|;
    ExtendsKeepsReplies(c.messages, s.messages, c.offset, scenario);
    assert ScenarioReplies(s.messages[..c.offset], scenario)[n + i] == c.replies[i];
    RepliesHold(scenario, s, c.offset, n + i);
  }

  /** What was collected stands in the database and tells the state of its task. */
  lemma CollectedHolds(sc: Scenario, start: State, turns: seq<Turn>, feed: seq<seq<ReplyMessage>>, r: RunResult,
                       s: State, offset: nat)
    requires Collected(sc, start, turns, feed, r, s, offset) && Sound(s)
    ensures AllHold(sc.id, s, feed)
  {
    var cs :| Trail(sc, cs, feed, r, offset, s.messages);
    forall k, i | 0 <= k < |feed| && 0 <= i < |feed[k]| ensures Holds(sc.id, s, feed[k][i]) {
      assert SoundCollection(cs, WaveTasks(r), k, sc.id);
      TrailExtends(cs, WaveTasks(r), sc.id, k, s.messages);
      CollectionHolds(sc.id, s, cs[k], OffsetBefore(cs, k), i);
    }
  }

  /** `run` from its task rows on, in any surroundings. turns[k] is what happens around wave k,
      between any two of its writes and polls; the deadline passes before wave `deadline`. All
      this together is one delivery run. The database holds exactly the rows of the sent messages
      that can be encoded, and tasks neither dispatched nor marked are as they were. The result
      is one of the wave loop for the replies it really collected, so the lemmas of RunSafety
      apply to it; each of these stands in the database and tells how its task ended; and as long
      as the earlier waves got a reply for each of their rows, a wave collects replies to its own
      tasks, at most one each, and one for each row if its last poll finds them. */
  method RunScenario(agent: SchedulingAgent, queue: MessageQueueService, sc: Scenario, start: State,
                     turns: seq<Turn>, deadline: nat)
    returns (r: RunResult, s: State, feed: seq<seq<ReplyMessage>>, ghost tables: seq<MessageTable>)
    requires WorldOf(sc, [], start) && queue.Offset(sc.id) == 0 && agent.outbox == []
    requires |turns| == |sc.waves| && forall k | 0 <= k < |turns| :: turns[k].polls != []
    modifies agent, queue
    ensures |feed| == if deadline < |sc.waves| then deadline else |sc.waves|
    ensures r in Runs(sc, feed) && agent.outbox == r.sent && RowsAsAssociated(sc, r.sent, r.lids)
    ensures ComesTo(sc, start, s, r.sent, r.marked)
    ensures WellSent(sc, r) && OwnRepliesWhileFull(feed, WaveTasks(r)) && AllHold(sc.id, s, feed)
    ensures FullWhenAnswered(sc.id, feed, WaveTasks(r), tables) && AllPolled(sc, start, s, turns, r.asked, tables)
  {
    r, s, feed := RunResult(0, [], [], [], {}, {}, {}, map[], []), start, [];
    StartsUnderway(sc, start, turns);
    while r.reached < |sc.waves| && r.reached < deadline
      invariant r.reached == |feed| <= |sc.waves| && r.reached <= deadline
      invariant Underway(sc, start, turns, feed, r, s, queue.Offset(sc.id)) && agent.outbox == r.sent
    {
      var replies;
      r, s, replies := OneTurn(agent, queue, sc, r, s, turns, start, feed);
      feed := feed + [replies];
    }
    CollectedFacts(sc, start, turns, feed, r, s, queue.Offset(sc.id));
    RunIsWellSent(sc, feed, r);
    tables := CollectedIsBarrier(sc, start, turns, feed, r, s, queue.Offset(sc.id));
    CollectedHolds(sc, start, turns, feed, r, s, queue.Offset(sc.id));
  }

  // ---- what follows -------------------------------------------------------------------------------

  /** When the contexts of the subtasks and their names can be encoded, every message gets its row. */
  lemma CleanScenarioIsWritten(sc: Scenario, r: RunResult)
    requires RowsAsAssociated(sc, r.sent, r.lids) && CleanNames(sc)
    requires forall x | x in sc.contexts :: CleanContext(sc.contexts[x])
    ensures Written(r.sent) == r.sent
  {
    AllWritten(r.sent);
    forall m | m in r.sent ensures CleanContext(m.context) {
      var i :| 0 <= i < |r.sent| && r.sent[i] == m;
      assert AsAssociated(sc, r.lids[i], r.sent[i].context);
    }
  }

  /** The tasks sent in wave k, with rows or without. */
  function SentTo(r: RunResult, k: nat): set<TaskId>
    requires |r.sentIn| == |r.sent|
  {
    set i | 0 <= i < |r.sent| && r.sentIn[i] == k :: r.sent[i].taskId
  }

  lemma NotWritten(sc: Scenario, r: RunResult, i: nat)
    requires WellSent(sc, r) && i < |r.sent| && !CleanContext(r.sent[i].context)
    ensures r.sent[i].taskId !in TaskIds(Written(r.sent))
    ensures WrittenTo(r, r.sentIn[i]) < SentTo(r, r.sentIn[i])
  {
    var t, k := r.sent[i].taskId, r.sentIn[i];
    forall m | m in Written(r.sent) ensures m.taskId != t {
      WrittenAreClean(r.sent, m);
      var j :| 0 <= j < |r.sent| && r.sent[j] == m;
    }
    forall j | 0 <= j < |r.sent| && WrittenAt(r, k, j) ensures r.sent[j].taskId in SentTo(r, k) {
    }
    assert t in SentTo(r, k);
    assert t !in WrittenTo(r, k);
  }

  /** A message whose row cannot be written: its task has no dispatch row and keeps the state it
      had. If the earlier waves came back full, its own wave waits out its time, since it can never
      come back with as many replies as it sent messages. */
  lemma MissingRowIsMissed(sc: Scenario, start: State, s: State, feed: seq<seq<ReplyMessage>>, r: RunResult, i: nat)
    requires |feed| <= |sc.waves| && r in Runs(sc, feed) && WellSent(sc, r)
    requires OwnRepliesWhileFull(feed, WaveTasks(r)) && ComesTo(sc, start, s, r.sent, r.marked)
    requires i < |r.sent| && !CleanContext(r.sent[i].context)
    ensures var t := r.sent[i].taskId;
            && Undispatched(s.messages, t)
            && t in start.tasks && t in s.tasks && s.tasks[t] == start.tasks[t]
    ensures var k := r.sentIn[i];
            && k < |feed|
            && (AllFull(feed, WaveTasks(r), k) ==> |feed[k]| < |SentTo(r, k)|)
  {
    var t, k := r.sent[i].taskId, r.sentIn[i];
    NotWritten(sc, r, i);
    RunIsMarkedUnsent(sc, feed, r);
    assert r.sent[i] in r.sent && t in TaskIds(r.sent);
    if AllFull(feed, WaveTasks(r), k) {
      assert OwnReplies(feed[k], WaveTasks(r)[k]);
      CountDistinct(feed[k]);
      SubsetSize(WrittenTo(r, k), SentTo(r, k));
      SubsetSize(Replied(feed[k]), WrittenTo(r, k));
    }
  }

  lemma OwnRepliesAreOnTime(sc: Scenario, feed: seq<seq<ReplyMessage>>, r: RunResult)
    requires |feed| <= |sc.waves| && r in Runs(sc, feed) && WellSent(sc, r)
    requires OwnRepliesWhileFull(feed, WaveTasks(r)) && (feed != [] ==> AllFull(feed, WaveTasks(r), |feed| - 1))
    ensures |r.asked| <= |sc.waves| && OnTime(sc.idMap, sc.waves, Padded(feed, |sc.waves|), r.asked)
  {
    var padded := Padded(feed, |sc.waves|);
    assert RunSoFar(sc.byId, sc.waves, sc.idMap, padded, r);
    forall k | 0 <= k < |r.asked| ensures LocalIds(sc.idMap, Replied(padded[k])) <= Ids(sc.waves[k]) {
      assert AllFull(feed, WaveTasks(r), k) && OwnReplies(feed[k], WaveTasks(r)[k]);
      FewerLocals(sc.idMap, Replied(feed[k]), WrittenTo(r, k));
    }
  }

  /** When every collection but the last came back full, the run has skipped exactly the
      subtasks of reached waves that have a predecessor with a failed reply in the database,
      and dispatched exactly the others. */
  lemma PunctualRunIsExact(sc: Scenario, feed: seq<seq<ReplyMessage>>, r: RunResult, k: nat, x: Id)
    requires |feed| <= |sc.waves| && r in Runs(sc, feed) && WellSent(sc, r)
    requires k < |feed| && OwnRepliesWhileFull(feed, WaveTasks(r)) && AllFull(feed, WaveTasks(r), |feed| - 1)
    requires x in Ids(sc.waves[k])
    ensures |r.asked| <= |sc.waves| && x in sc.idMap
    ensures sc.idMap[x] in r.skipped
            <==> PredecessorFailed(sc.byId, sc.idMap, AllReplies(Padded(feed, |sc.waves|), r.asked), x)
    ensures sc.idMap[x] in TaskIds(r.sent)
            <==> !PredecessorFailed(sc.byId, sc.idMap, AllReplies(Padded(feed, |sc.waves|), r.asked), x)
  {
    OwnRepliesAreOnTime(sc, feed, r);
    SkippedExactlyWhenPredecessorFailed(sc.byId, sc.waves, sc.idMap, Padded(feed, |sc.waves|), r, k, x);
  }
}
