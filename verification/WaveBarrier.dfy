/** The wave barrier: counting replies is enough. Delivery (at most one reply per task, only
    for dispatched tasks), the queue (gap-free consumption) and the scheduler together
    guarantee that as many replies as tasks means exactly those tasks. */
module WaveBarrier {
  import opened Sets
  import opened Store
  import opened Replies
  import opened MessageQueue
  import opened Delivery
  import opened DeliveryInvariant
  import opened DeliveryFutures
  import opened DeliverySafety

  /** What delivery guarantees about the message table. */
  ghost predicate TableOk(messages: MessageTable) {
    && OriginOk(messages)
    && (forall j, k | 0 <= j < k < |messages| && messages[j].Reply? && messages[k].Reply? ::
          messages[j].task != messages[k].task)
  }

  lemma RunsKeepTableOk(es: seq<Event>)
    requires Run(INITIAL, es) && NeverRepliesUnstored(INITIAL, es)
    ensures TableOk(After(INITIAL, es).messages)
  {
    InitialInv();
    RunKeepsReplyOk(INITIAL, es);
    RunKeepsOrigin(INITIAL, es);
  }

  /** Tasks with a readable dispatch row in the scenario. */
  function DispatchedTasks(messages: MessageTable, scenario: ScenarioId): set<TaskId> {
    set m | m in messages && m.Dispatch? && m.parses && m.scenario == scenario :: m.msg.taskId
  }

  // ---- replies, row by row ------------------------------------------------------------------

  lemma {:induction false} ReplyHasRow(messages: MessageTable, n: nat, scenario: ScenarioId, i: nat) returns (k: nat)
    requires n <= |messages| && i < |ScenarioReplies(messages[..n], scenario)|
    ensures k < n && IsReply(messages[k], scenario)
    ensures messages[k].task == ScenarioReplies(messages[..n], scenario)[i].taskId
    decreases n
  {
    assert messages[..n][..n - 1] == messages[..n - 1];
    if i < |ScenarioReplies(messages[..n - 1], scenario)| {
      k := ReplyHasRow(messages, n - 1, scenario, i);
    } else {
      k := n - 1;
    }
  }

  ghost predicate DistinctTasks(replies: seq<ReplyMessage>) {
    forall i, j | 0 <= i < j < |replies| :: replies[i].taskId != replies[j].taskId
  }

  lemma {:induction false} RepliesAreDistinct(messages: MessageTable, n: nat, scenario: ScenarioId)
    requires n <= |messages| && TableOk(messages)
    ensures DistinctTasks(ScenarioReplies(messages[..n], scenario))
    decreases n
  {
    if n > 0 {
      var earlier := ScenarioReplies(messages[..n - 1], scenario);
      assert messages[..n][..n - 1] == messages[..n - 1];
      RepliesAreDistinct(messages, n - 1, scenario);
      if messages[n - 1].Reply? {
        forall i | 0 <= i < |earlier| ensures earlier[i].taskId != messages[n - 1].task {
          var k := ReplyHasRow(messages, n - 1, scenario, i);
        }
      }
    }
  }

  lemma RepliesAreDispatched(messages: MessageTable, n: nat, scenario: ScenarioId)
    requires n <= |messages| && TableOk(messages)
    ensures Replied(ScenarioReplies(messages[..n], scenario)) <= DispatchedTasks(messages, scenario)
  {
    var replies := ScenarioReplies(messages[..n], scenario);
    forall t | t in Replied(replies) ensures t in DispatchedTasks(messages, scenario) {
      var r :| r in replies && r.taskId == t;
      var i :| 0 <= i < |replies| && replies[i] == r;
      var k := ReplyHasRow(messages, n, scenario, i);
      assert AnswersRow(messages, k);
      var j :| 0 <= j < k && IsDispatchOf(messages[j], t) && messages[j].scenario == scenario;
      assert messages[j] in messages;
    }
  }

  lemma {:induction false} CountDistinct(replies: seq<ReplyMessage>)
    requires DistinctTasks(replies)
    ensures |Replied(replies)| == |replies|
  {
    if replies != [] {
      var n := |replies| - 1;
      CountDistinct(replies[..n]);
      SnocReplies(replies, n);
      assert replies[..n + 1] == replies;
      assert replies[n].taskId !in Replied(replies[..n]);
    }
  }

  // ---- one wave ------------------------------------------------------------------------------------

  lemma NotRepliedBefore(past: seq<ReplyMessage>, replies: seq<ReplyMessage>, i: nat)
    requires DistinctTasks(past + replies) && i < |replies|
    ensures replies[i].taskId !in Replied(past)
  {
    assert (past + replies)[|past| + i] == replies[i];
    forall r | r in past ensures r.taskId != replies[i].taskId {
      var j :| 0 <= j < |past| && past[j] == r;
      assert (past + replies)[j] == r;
    }
  }

  /** If the earlier waves were fully collected, then further replies are replies to the tasks
      of this wave, at most one each; and |wave| of them are one for each task, so that this
      wave is fully collected, too. */
  lemma OneWave(messages: MessageTable, scenario: ScenarioId, earlier: set<TaskId>, wave: set<TaskId>,
                before: nat, now: nat, replies: seq<ReplyMessage>)
    requires TableOk(messages) && before <= now <= |messages|
    requires DispatchedTasks(messages, scenario) <= earlier + wave
    requires Replied(ScenarioReplies(messages[..before], scenario)) == earlier
    requires ScenarioReplies(messages[..now], scenario) == ScenarioReplies(messages[..before], scenario) + replies
    ensures Replied(replies) <= wave && DistinctTasks(replies)
    ensures |replies| == |wave| ==>
              Replied(replies) == wave && Replied(ScenarioReplies(messages[..now], scenario)) == earlier + wave
  {
    var past, all := ScenarioReplies(messages[..before], scenario), ScenarioReplies(messages[..now], scenario);
    RepliesAreDistinct(messages, now, scenario);
    RepliesAreDispatched(messages, now, scenario);
    forall i, j | 0 <= i < j < |replies| ensures replies[i].taskId != replies[j].taskId {
      assert all[|past| + i] == replies[i] && all[|past| + j] == replies[j];
    }
    forall t | t in Replied(replies) ensures t in wave {
      var r :| r in replies && r.taskId == t;
      var i :| 0 <= i < |replies| && replies[i] == r;
      assert all[|past| + i] == r && r in all;
      NotRepliedBefore(past, replies, i);
      assert t in Replied(all) && t in DispatchedTasks(messages, scenario) && t !in earlier;
    }
    CountDistinct(replies);
    if |replies| == |wave| {
      SubsetSize(Replied(replies), wave);
      ConcatReplies(past, replies);
    }
  }

  // ---- all waves of a fresh run --------------------------------------------------------------------

  /** One call of `collect_replies`: the table and the offset at its end, and what it returned. */
  datatype Collection = Collection(messages: MessageTable, offset: nat, replies: seq<ReplyMessage>)

  ghost function WavesUpTo(waves: seq<set<TaskId>>, k: nat): set<TaskId>
    requires k <= |waves|
  {
    if k == 0 then {} else WavesUpTo(waves, k - 1) + waves[k - 1]
  }

  function OffsetBefore(cs: seq<Collection>, k: nat): nat
    requires k <= |cs|
  {
    if k == 0 then 0 else cs[k - 1].offset
  }

  /** Wave k is new, and nothing outside the waves up to k has been dispatched. */
  ghost predicate NewWave(messages: MessageTable, waves: seq<set<TaskId>>, k: nat, scenario: ScenarioId)
    requires k < |waves|
  {
    && waves[k] !! WavesUpTo(waves, k)
    && DispatchedTasks(messages, scenario) <= WavesUpTo(waves, k) + waves[k]
  }

  /** What `collect_replies` promises: the replies are those between two offsets. */
  ghost predicate GapFree(cs: seq<Collection>, k: nat, scenario: ScenarioId)
    requires k < |cs|
  {
    && OffsetBefore(cs, k) <= cs[k].offset <= |cs[k].messages|
    && ScenarioReplies(cs[k].messages[..cs[k].offset], scenario)
       == ScenarioReplies(cs[k].messages[..OffsetBefore(cs, k)], scenario) + cs[k].replies
  }

  ghost predicate SoundCollection(cs: seq<Collection>, waves: seq<set<TaskId>>, k: nat, scenario: ScenarioId)
    requires k < |cs| <= |waves|
  {
    && TableOk(cs[k].messages)
    && (k > 0 ==> Extends(cs[k - 1].messages, cs[k].messages))
    && NewWave(cs[k].messages, waves, k, scenario)
    && GapFree(cs, k, scenario)
  }

  /** A fresh scenario: waves of new tasks, dispatched one after the other. */
  ghost predicate SoundCollections(cs: seq<Collection>, waves: seq<set<TaskId>>, scenario: ScenarioId) {
    && |cs| <= |waves|
    && (forall k | 0 <= k < |cs| :: SoundCollection(cs, waves, k, scenario))
  }

  /** The first n collections returned as many replies as their waves have tasks. */
  ghost predicate FullBefore(cs: seq<Collection>, waves: seq<set<TaskId>>, n: nat)
    requires n <= |cs| <= |waves|
  {
    forall j | 0 <= j < n :: |cs[j].replies| == |waves[j]|
  }

  /** Exactly these tasks have a reply among the first n rows. */
  ghost predicate Gathered(messages: MessageTable, n: nat, scenario: ScenarioId, tasks: set<TaskId>) {
    n <= |messages| && Replied(ScenarioReplies(messages[..n], scenario)) == tasks
  }

  ghost predicate GatheredAfter(cs: seq<Collection>, waves: seq<set<TaskId>>, scenario: ScenarioId, k: nat)
    requires k < |cs| <= |waves|
  {
    Gathered(cs[k].messages, cs[k].offset, scenario, WavesUpTo(waves, k + 1))
  }

  lemma GatheredStays(was: MessageTable, now: MessageTable, n: nat, scenario: ScenarioId, tasks: set<TaskId>)
    requires Extends(was, now) && Gathered(was, n, scenario, tasks)
    ensures Gathered(now, n, scenario, tasks)
  {
    ExtendsKeepsReplies(was, now, n, scenario);
  }

  lemma OneCollection(cs: seq<Collection>, waves: seq<set<TaskId>>, scenario: ScenarioId, k: nat)
    requires SoundCollections(cs, waves, scenario) && k < |cs|
    requires k > 0 ==> GatheredAfter(cs, waves, scenario, k - 1)
    ensures Replied(cs[k].replies) <= waves[k] && DistinctTasks(cs[k].replies)
    ensures |cs[k].replies| == |waves[k]| ==>
              Replied(cs[k].replies) == waves[k] && GatheredAfter(cs, waves, scenario, k)
  {
    assert SoundCollection(cs, waves, k, scenario);
    if k > 0 {
      GatheredStays(cs[k - 1].messages, cs[k].messages, cs[k - 1].offset, scenario, WavesUpTo(waves, k));
    }
    OneWave(cs[k].messages, scenario, WavesUpTo(waves, k), waves[k], OffsetBefore(cs, k), cs[k].offset, cs[k].replies);
  }

  /** As long as all earlier collections came back full, a collection holds replies to the
      tasks of its own wave, at most one each; and if it is full itself, one for each. */
  lemma {:induction false} EveryWaveIsABarrier(cs: seq<Collection>, waves: seq<set<TaskId>>, scenario: ScenarioId,
                                               k: nat)
    requires SoundCollections(cs, waves, scenario) && k < |cs| && FullBefore(cs, waves, k)
    ensures Replied(cs[k].replies) <= waves[k] && DistinctTasks(cs[k].replies)
    ensures |cs[k].replies| == |waves[k]| ==>
              Replied(cs[k].replies) == waves[k] && GatheredAfter(cs, waves, scenario, k)
  {
    if k > 0 {
      EveryWaveIsABarrier(cs, waves, scenario, k - 1);
    }
    OneCollection(cs, waves, scenario, k);
  }

  /** In a table whose replies can all be read, a collection that found nothing more has them all. */
  lemma NothingLeft(messages: MessageTable, scenario: ScenarioId, start: nat, now: nat)
    requires now <= |messages| && TableOk(messages) && Exhausted(messages, scenario, start, now)
    ensures ScenarioReplies(messages[..now], scenario) == ScenarioReplies(messages, scenario)
  {
  }

  /** The table holds a reply to each of these tasks. */
  ghost predicate AllAnswered(messages: MessageTable, scenario: ScenarioId, tasks: set<TaskId>) {
    forall t | t in tasks :: exists k :: 0 <= k < |messages| && IsReply(messages[k], scenario) && messages[k].task == t
  }

  lemma {:induction false} RowIsReplied(messages: MessageTable, scenario: ScenarioId, k: nat)
    requires TableOk(messages) && k < |messages| && IsReply(messages[k], scenario)
    ensures messages[k].task in Replied(ScenarioReplies(messages, scenario))
  {
    var now := ScenarioReplies(messages[..k + 1], scenario);
    assert messages[..k + 1][..k] == messages[..k];
    assert now[|now| - 1] == Read(messages[k]);
    RepliesOfPrefix(messages, k + 1, scenario);
    assert ScenarioReplies(messages, scenario)[|now| - 1] == Read(messages[k]);
  }

  lemma AnsweredIsReplied(messages: MessageTable, scenario: ScenarioId, tasks: set<TaskId>)
    requires TableOk(messages) && AllAnswered(messages, scenario, tasks)
    ensures tasks <= Replied(ScenarioReplies(messages, scenario))
  {
    forall t | t in tasks ensures t in Replied(ScenarioReplies(messages, scenario)) {
      var k :| 0 <= k < |messages| && IsReply(messages[k], scenario) && messages[k].task == t;
      RowIsReplied(messages, scenario, k);
    }
  }

  lemma ShortMeansUnanswered(messages: MessageTable, scenario: ScenarioId, start: nat, now: nat,
                             earlier: set<TaskId>, wave: set<TaskId>, replies: seq<ReplyMessage>)
    requires TableOk(messages) && start <= now <= |messages| && Exhausted(messages, scenario, start, now)
    requires ScenarioReplies(messages[..now], scenario) == ScenarioReplies(messages[..start], scenario) + replies
    requires Replied(ScenarioReplies(messages[..start], scenario)) == earlier && earlier !! wave
    requires DistinctTasks(replies) && AllAnswered(messages, scenario, wave)
    ensures |wave| <= |replies|
  {
    NothingLeft(messages, scenario, start, now);
    AnsweredIsReplied(messages, scenario, wave);
    ConcatReplies(ScenarioReplies(messages[..start], scenario), replies);
    CountDistinct(replies);
    SubsetSize(wave, Replied(replies));
  }

  lemma NothingGathered(messages: MessageTable, scenario: ScenarioId)
    ensures Gathered(messages, 0, scenario, {})
  {
  }

  lemma StaysGathered(cs: seq<Collection>, waves: seq<set<TaskId>>, scenario: ScenarioId, k: nat)
    requires 0 < k < |cs| <= |waves| && SoundCollection(cs, waves, k, scenario)
    requires GatheredAfter(cs, waves, scenario, k - 1)
    ensures Gathered(cs[k].messages, OffsetBefore(cs, k), scenario, WavesUpTo(waves, k))
  {
    GatheredStays(cs[k - 1].messages, cs[k].messages, cs[k - 1].offset, scenario, WavesUpTo(waves, k));
  }

  lemma GatheredBefore(cs: seq<Collection>, waves: seq<set<TaskId>>, scenario: ScenarioId, k: nat)
    requires SoundCollections(cs, waves, scenario) && k < |cs| && FullBefore(cs, waves, k)
    ensures Gathered(cs[k].messages, OffsetBefore(cs, k), scenario, WavesUpTo(waves, k))
  {
    if k == 0 {
      NothingGathered(cs[0].messages, scenario);
    } else {
      EveryWaveIsABarrier(cs, waves, scenario, k - 1);
      StaysGathered(cs, waves, scenario, k);
    }
  }

  /** If collection k came back short, it had found all there was. */
  ghost predicate FoundAll(cs: seq<Collection>, waves: seq<set<TaskId>>, k: nat, scenario: ScenarioId)
    requires k < |cs| <= |waves|
  {
    GapFree(cs, k, scenario)
    && (|cs[k].replies| < |waves[k]| ==> Exhausted(cs[k].messages, scenario, OffsetBefore(cs, k), cs[k].offset))
  }

  /** Nothing is left behind: if the earlier collections came back full, and the last table of this
      one holds a reply to each task of the wave, then it comes back full. */
  lemma AnsweredIsFull(cs: seq<Collection>, waves: seq<set<TaskId>>, scenario: ScenarioId, k: nat)
    requires SoundCollections(cs, waves, scenario) && k < |cs| && FullBefore(cs, waves, k)
    requires FoundAll(cs, waves, k, scenario) && AllAnswered(cs[k].messages, scenario, waves[k])
    ensures |cs[k].replies| >= |waves[k]|
  {
    assert SoundCollection(cs, waves, k, scenario);
    if |cs[k].replies| < |waves[k]| {
      GatheredBefore(cs, waves, scenario, k);
      EveryWaveIsABarrier(cs, waves, scenario, k);
      ShortMeansUnanswered(cs[k].messages, scenario, OffsetBefore(cs, k), cs[k].offset, WavesUpTo(waves, k), waves[k],
                           cs[k].replies);
    }
  }

  /** messages is the table after the first n events. */
  ghost predicate TableAt(es: seq<Event>, n: nat, messages: MessageTable) {
    n <= |es| && Run(INITIAL, es[..n]) && messages == After(INITIAL, es[..n]).messages
  }

  lemma {:induction false} PrefixNeverReplies(s: State, es: seq<Event>, n: nat)
    requires Run(s, es) && n <= |es| && NeverRepliesUnstored(s, es) && Run(s, es[..n])
    ensures NeverRepliesUnstored(s, es[..n])
    decreases n
  {
    if n > 0 {
      assert es[..n][1..] == es[1..][..n - 1];
      PrefixNeverReplies(Apply(s, es[0]), es[1..], n - 1);
    }
  }

  lemma RunTable(es: seq<Event>, n: nat, messages: MessageTable)
    requires Run(INITIAL, es) && NeverRepliesUnstored(INITIAL, es) && TableAt(es, n, messages)
    ensures TableOk(messages)
  {
    PrefixNeverReplies(INITIAL, es, n);
    RunsKeepTableOk(es[..n]);
  }

  lemma LaterTable(es: seq<Event>, m: nat, was: MessageTable, n: nat, now: MessageTable)
    requires m <= n && TableAt(es, m, was) && TableAt(es, n, now)
    ensures Extends(was, now)
  {
    SplitRun(INITIAL, es[..n], m);
    assert es[..n][..m] == es[..m];
    RunExtends(After(INITIAL, es[..m]), es[..n][m..]);
  }

  /** The collections before wave k returned as many replies as their waves have tasks. */
  predicate AllFull(got: seq<seq<ReplyMessage>>, waves: seq<set<TaskId>>, k: nat)
    requires k <= |got| <= |waves|
  {
    forall j | 0 <= j < k :: |got[j]| == |waves[j]|
  }

  /** Replies to tasks of the wave, at most one each; as many as tasks means one for each. */
  ghost predicate OwnReplies(replies: seq<ReplyMessage>, wave: set<TaskId>) {
    && Replied(replies) <= wave && DistinctTasks(replies)
    && (|replies| == |wave| ==> Replied(replies) == wave)
  }

  ghost predicate PollsOf(es: seq<Event>, views: seq<MessageTable>, cuts: seq<nat>) {
    && |views| == |cuts| > 0
    && (forall i | 0 <= i < |views| :: TableAt(es, cuts[i], views[i]))
    && (forall i, j | 0 <= i <= j < |cuts| :: cuts[i] <= cuts[j])
  }

  ghost predicate TurnOf(waves: seq<set<TaskId>>, views: seq<seq<MessageTable>>, cuts: seq<seq<nat>>,
                         k: nat, scenario: ScenarioId)
    requires k < |views| == |cuts| == |waves|
  {
    && (views[k] != [] ==> NewWave(Last(views[k]), waves, k, scenario))
    && (k > 0 && cuts[k - 1] != [] && cuts[k] != [] ==> Last(cuts[k - 1]) <= cuts[k][0])
  }

  /** The polls of the waves read the table at successive moments of the run. No later
      wave has been dispatched by the last poll of an earlier one. */
  ghost predicate PolledInTurn(es: seq<Event>, waves: seq<set<TaskId>>, views: seq<seq<MessageTable>>,
                               cuts: seq<seq<nat>>, scenario: ScenarioId) {
    && |views| == |cuts| == |waves|
    && (forall k | 0 <= k < |waves| :: PollsOf(es, views[k], cuts[k]))
    && (forall k | 0 <= k < |waves| :: TurnOf(waves, views, cuts, k, scenario))
  }

  ghost predicate RecordedAt(cs: seq<Collection>, got: seq<seq<ReplyMessage>>, waves: seq<set<TaskId>>,
                             views: seq<seq<MessageTable>>, k: nat, scenario: ScenarioId)
    requires k < |cs| == |got| <= |views| == |waves|
  {
    && views[k] != [] && cs[k].messages == Last(views[k])
    && cs[k].replies == got[k] && |got[k]| <= |waves[k]|
    && FoundAll(cs, waves, k, scenario)
  }

  /** cs describes the collections made so far, and got what they returned. */
  ghost predicate Recorded(cs: seq<Collection>, got: seq<seq<ReplyMessage>>, waves: seq<set<TaskId>>,
                           views: seq<seq<MessageTable>>, scenario: ScenarioId) {
    && |cs| == |got| <= |views| == |waves|
    && (forall k | 0 <= k < |cs| :: RecordedAt(cs, got, waves, views, k, scenario))
  }

  lemma RecordedSizes(cs: seq<Collection>, got: seq<seq<ReplyMessage>>, waves: seq<set<TaskId>>,
                      views: seq<seq<MessageTable>>, scenario: ScenarioId)
    requires Recorded(cs, got, waves, views, scenario)
    ensures forall k | 0 <= k < |got| :: |got[k]| <= |waves[k]|
  {
    forall k | 0 <= k < |got| ensures |got[k]| <= |waves[k]| {
      assert RecordedAt(cs, got, waves, views, k, scenario);
    }
  }

  lemma RecordOne(cs: seq<Collection>, got: seq<seq<ReplyMessage>>, waves: seq<set<TaskId>>,
                  views: seq<seq<MessageTable>>, scenario: ScenarioId, c: Collection)
    requires Recorded(cs, got, waves, views, scenario) && |cs| < |waves|
    requires views[|cs|] != [] && c.messages == Last(views[|cs|]) && |c.replies| <= |waves[|cs|]|
    requires FoundAll(cs + [c], waves, |cs|, scenario)
    ensures Recorded(cs + [c], got + [c.replies], waves, views, scenario)
  {
    forall k | 0 <= k < |cs + [c]| ensures RecordedAt(cs + [c], got + [c.replies], waves, views, k, scenario) {
      if k < |cs| {
        assert RecordedAt(cs, got, waves, views, k, scenario);
        assert FoundAll(cs, waves, k, scenario);
      }
    }
  }

  lemma PollsGrow(es: seq<Event>, views: seq<MessageTable>, cuts: seq<nat>)
    requires PollsOf(es, views, cuts)
    ensures Growing(views)
  {
    forall i, j | 0 <= i <= j < |views| ensures Extends(views[i], views[j]) {
      LaterTable(es, cuts[i], views[i], cuts[j], views[j]);
    }
  }

  /** The next collection may start: its tables grow, and reach past the offset. */
  lemma NextWave(cs: seq<Collection>, got: seq<seq<ReplyMessage>>, waves: seq<set<TaskId>>,
                 views: seq<seq<MessageTable>>, es: seq<Event>, cuts: seq<seq<nat>>, scenario: ScenarioId)
    requires Recorded(cs, got, waves, views, scenario) && |cs| < |waves|
    requires PolledInTurn(es, waves, views, cuts, scenario)
    ensures Growing(views[|cs|]) && views[|cs|] != []
    ensures OffsetBefore(cs, |cs|) <= |views[|cs|][0]|
  {
    var k := |cs|;
    assert PollsOf(es, views[k], cuts[k]);
    PollsGrow(es, views[k], cuts[k]);
    if k > 0 {
      assert RecordedAt(cs, got, waves, views, k - 1, scenario);
      assert PollsOf(es, views[k - 1], cuts[k - 1]) && TurnOf(waves, views, cuts, k, scenario);
      LaterTable(es, Last(cuts[k - 1]), Last(views[k - 1]), cuts[k][0], views[k][0]);
    }
  }

  lemma SoundAt(cs: seq<Collection>, got: seq<seq<ReplyMessage>>, waves: seq<set<TaskId>>,
                views: seq<seq<MessageTable>>, es: seq<Event>, cuts: seq<seq<nat>>, scenario: ScenarioId, j: nat)
    requires Run(INITIAL, es) && NeverRepliesUnstored(INITIAL, es)
    requires PolledInTurn(es, waves, views, cuts, scenario) && Recorded(cs, got, waves, views, scenario)
    requires j < |got|
    ensures SoundCollection(cs, waves, j, scenario)
  {
    assert RecordedAt(cs, got, waves, views, j, scenario);
    assert PollsOf(es, views[j], cuts[j]) && TurnOf(waves, views, cuts, j, scenario);
    RunTable(es, Last(cuts[j]), cs[j].messages);
    if j > 0 {
      assert RecordedAt(cs, got, waves, views, j - 1, scenario) && PollsOf(es, views[j - 1], cuts[j - 1]);
      LaterTable(es, Last(cuts[j - 1]), cs[j - 1].messages, Last(cuts[j]), cs[j].messages);
    }
  }

  lemma SoundPrefix(cs: seq<Collection>, got: seq<seq<ReplyMessage>>, waves: seq<set<TaskId>>,
                    views: seq<seq<MessageTable>>, es: seq<Event>, cuts: seq<seq<nat>>, scenario: ScenarioId, k: nat)
    requires Run(INITIAL, es) && NeverRepliesUnstored(INITIAL, es)
    requires PolledInTurn(es, waves, views, cuts, scenario) && Recorded(cs, got, waves, views, scenario)
    requires k < |got| && AllFull(got, waves, k)
    ensures OwnReplies(got[k], waves[k])
    ensures AllAnswered(Last(views[k]), scenario, waves[k]) ==> |got[k]| == |waves[k]|
  {
    forall j | 0 <= j < |cs| ensures SoundCollection(cs, waves, j, scenario) {
      SoundAt(cs, got, waves, views, es, cuts, scenario, j);
    }
    forall j | 0 <= j <= k ensures cs[j].replies == got[j] {
      assert RecordedAt(cs, got, waves, views, j, scenario);
    }
    EveryWaveIsABarrier(cs, waves, scenario, k);
    if AllAnswered(Last(views[k]), scenario, waves[k]) {
      assert RecordedAt(cs, got, waves, views, k, scenario);
      AnsweredIsFull(cs, waves, scenario, k);
    }
  }

  /** The barrier, over delivery runs and with the collecting code itself. es is any run of
      the delivery protocol in which no unstorable result is replied. As long as every
      earlier collection came back full, a collection holds replies to the tasks of its own
      wave and no others, at most one each; if it is full itself, one for each; and it is full
      if its last poll finds a reply to each task of the wave. */
  method CollectEveryWave(queue: MessageQueueService, scenario: ScenarioId, waves: seq<set<TaskId>>,
                          views: seq<seq<MessageTable>>, ghost es: seq<Event>, ghost cuts: seq<seq<nat>>)
    returns (got: seq<seq<ReplyMessage>>)
    requires queue.Offset(scenario) == 0
    requires Run(INITIAL, es) && NeverRepliesUnstored(INITIAL, es)
    requires PolledInTurn(es, waves, views, cuts, scenario)
    modifies queue
    ensures |got| == |waves| && forall k | 0 <= k < |got| :: |got[k]| <= |waves[k]|
    ensures forall k | 0 <= k < |got| && AllFull(got, waves, k) :: OwnReplies(got[k], waves[k])
    ensures forall k | 0 <= k < |got| && AllFull(got, waves, k) && AllAnswered(Last(views[k]), scenario, waves[k]) ::
              |got[k]| == |waves[k]|
  {
    got := [];
    ghost var cs: seq<Collection> := [];
    for k := 0 to |waves|
      invariant |got| == |cs| == k && queue.Offset(scenario) == OffsetBefore(cs, k)
      invariant Recorded(cs, got, waves, views, scenario)
    {
      NextWave(cs, got, waves, views, es, cuts, scenario);
      var replies, _ := queue.CollectReplies(scenario, |waves[k]|, views[k]);
      ghost var c := Collection(Last(views[k]), queue.Offset(scenario), replies);
      RecordOne(cs, got, waves, views, scenario, c);
      cs := cs + [c];
      got := got + [replies];
    }
    RecordedSizes(cs, got, waves, views, scenario);
    forall k | 0 <= k < |got| && AllFull(got, waves, k)
      ensures OwnReplies(got[k], waves[k])
      ensures AllAnswered(Last(views[k]), scenario, waves[k]) ==> |got[k]| == |waves[k]|
    {
      SoundPrefix(cs, got, waves, views, es, cuts, scenario, k);
    }
  }
}
