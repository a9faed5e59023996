/** What a whole run of the wave loop guarantees, stated on its result. Replies may be late: a
    wave can time out, and its replies then turn up in the collection of a later one. */
module RunSafety {
  import opened Wrappers
  import opened Results
  import opened Graphs
  import opened Waves
  import opened Failures
  import opened Store
  import opened Replies
  import opened Scheduling

  /** Some direct or transitive predecessor of x got a failed reply. */
  ghost predicate PredecessorFailed(byId: map<Id, Subtask>, idMap: IdMap, replies: seq<ReplyMessage>, x: Id) {
    exists y :: y in idMap && idMap[y] in FailedIn(replies) && Reaches(Sanitized(byId), x, y)
  }

  /** A predecessor of x got a failed reply in time: x is, or depends on, a subtask one of whose
      direct dependencies had a failed reply before that subtask's own wave. */
  ghost predicate FailedInTime(byId: map<Id, Subtask>, idMap: IdMap, feed: seq<seq<ReplyMessage>>, asked: seq<bool>,
                               x: Id)
    requires |asked| <= |feed|
  {
    exists z :: (z == x || Reaches(Sanitized(byId), x, z)) && IsHit(Sanitized(byId), idMap, feed, asked, z)
  }

  lemma StruckIsInTime(byId: map<Id, Subtask>, idMap: IdMap, feed: seq<seq<ReplyMessage>>, asked: seq<bool>, x: Id)
    requires |asked| <= |feed| && x in byId
    ensures x in Struck(Sanitized(byId), Hits(Sanitized(byId), idMap, feed, asked))
            <==> FailedInTime(byId, idMap, feed, asked, x)
  {
    var g, hit := Sanitized(byId), Hits(Sanitized(byId), idMap, feed, asked);
    if x in Affected(g, hit) {
      var z :| z in hit && Reaches(g, x, z);
    }
    if FailedInTime(byId, idMap, feed, asked, x) {
      var z :| (z == x || Reaches(g, x, z)) && IsHit(g, idMap, feed, asked, z);
      var k :| 0 <= k <= |asked| && HitAt(g, idMap, feed, asked, k, z);
      assert z in hit;
    }
  }

  lemma SentMeansListed(idMap: IdMap, msgs: seq<TaskMessage>, lids: seq<Id>, x: Id)
    requires Injective(idMap) && x in idMap && MessagesOf(idMap, msgs, lids)
    ensures idMap[x] in TaskIds(msgs) <==> x in lids
  {
    if x in lids {
      var i :| 0 <= i < |lids| && lids[i] == x;
      assert msgs[i] in msgs;
    }
    if idMap[x] in TaskIds(msgs) {
      var m :| m in msgs && m.taskId == idMap[x];
      var i :| 0 <= i < |msgs| && msgs[i] == m;
      assert idMap[lids[i]] == idMap[x];
    }
  }

  // ---- with any replies --------------------------------------------------------------------------

  lemma SortedDecides(g: Graph, idMap: IdMap, n: nat, struck: set<Id>, skipped: set<TaskId>, marked: set<TaskId>,
                      lids: seq<Id>, x: Id)
    requires Sorted(g, idMap, n, struck, skipped, marked, lids) && x in idMap && x in Placed(g, n)
    ensures idMap[x] in skipped <==> x in struck
    ensures x in lids <==> x !in struck
  {
    assert idMap[x] in skipped <==> x in LocalIds(idMap, skipped);
  }

  /** A subtask of a reached wave is skipped exactly when a predecessor failed in time, and
      dispatched exactly when none did. */
  lemma SkippedExactlyWhenFailedInTime(byId: map<Id, Subtask>, waves: seq<seq<Subtask>>, idMap: IdMap,
                                       feed: seq<seq<ReplyMessage>>, r: RunResult, k: nat, x: Id)
    requires Plan(byId, waves, idMap) && RunSoFar(byId, waves, idMap, feed, r)
    requires k < r.reached && x in Ids(waves[k])
    ensures x in idMap
    ensures idMap[x] in r.skipped <==> FailedInTime(byId, idMap, feed, r.asked, x)
    ensures idMap[x] in TaskIds(r.sent) <==> !FailedInTime(byId, idMap, feed, r.asked, x)
  {
    var g := Sanitized(byId);
    assert IsWave(g, byId, waves[k], k);
    PlacedGrows(g, k + 1, r.reached);
    StruckIsInTime(byId, idMap, feed, r.asked, x);
    SortedDecides(g, idMap, r.reached, Struck(g, Hits(g, idMap, feed, r.asked)), r.skipped, r.marked, r.lids, x);
    SentMeansListed(idMap, r.sent, r.lids, x);
  }

  /** Every subtask, reached or not, is marked failed exactly when a predecessor failed in time. */
  lemma MarkedExactlyWhenFailedInTime(byId: map<Id, Subtask>, waves: seq<seq<Subtask>>, idMap: IdMap,
                                      feed: seq<seq<ReplyMessage>>, r: RunResult, x: Id)
    requires Plan(byId, waves, idMap) && RunSoFar(byId, waves, idMap, feed, r) && x in byId
    ensures idMap[x] in r.marked <==> FailedInTime(byId, idMap, feed, r.asked, x)
  {
    StruckIsInTime(byId, idMap, feed, r.asked, x);
    assert idMap[x] in r.marked <==> x in LocalIds(idMap, r.marked);
  }

  /** No task is dispatched twice, and none is both dispatched and skipped. */
  lemma DispatchedOnceOrSkipped(byId: map<Id, Subtask>, waves: seq<seq<Subtask>>, idMap: IdMap,
                                feed: seq<seq<ReplyMessage>>, r: RunResult)
    requires Plan(byId, waves, idMap) && RunSoFar(byId, waves, idMap, feed, r)
    ensures forall i, j | 0 <= i < j < |r.sent| :: r.sent[i].taskId != r.sent[j].taskId
    ensures TaskIds(r.sent) !! r.skipped
  {
    forall m | m in r.sent ensures m.taskId !in r.skipped {
      var i :| 0 <= i < |r.sent| && r.sent[i] == m;
      var x := r.lids[i];
      assert x in r.lids;
      assert x !in LocalIds(idMap, r.skipped);
    }
  }

  lemma ToldKnown(byId: map<Id, Subtask>, idMap: IdMap, feed: seq<seq<ReplyMessage>>, asked: seq<bool>,
                  k: nat, x: Id, c: Context, d: Id)
    requires k <= |asked| <= |feed| && ToldAt(byId, idMap, feed, asked, k, x, c) && d in Sanitized(byId)[x]
    ensures c.upstream.Some? && d in idMap
    ensures var known, told := RepliesBefore(feed, asked, k), c.upstream.value.results;
            && (d in told <==> idMap[d] in known)
            && (d in told ==> told[d] == known[idMap[d]])
  {
  }

  /** The message of x told it, of each known dependency, the result of the last reply before wave k. */
  lemma ToldLastReplies(byId: map<Id, Subtask>, idMap: IdMap, feed: seq<seq<ReplyMessage>>, asked: seq<bool>,
                        k: nat, x: Id, c: Context, d: Id)
    requires k <= |asked| <= |feed| && ToldAt(byId, idMap, feed, asked, k, x, c) && d in Sanitized(byId)[x]
    ensures c.upstream.Some? && d in idMap
    ensures HoldsLastReply(c.upstream.value.results, d, feed, asked, k, idMap[d])
  {
    ToldKnown(byId, idMap, feed, asked, k, x, c, d);
    KnownReplyByReply(feed, asked, k, idMap[d]);
  }

  /** Every known dependency of a dispatched subtask was itself dispatched before, and the
      message carries its result exactly when a reply to it was collected before the subtask's
      wave: the result of the last such reply. */
  lemma DependentsAreTold(byId: map<Id, Subtask>, waves: seq<seq<Subtask>>, idMap: IdMap,
                          feed: seq<seq<ReplyMessage>>, r: RunResult, i: nat, d: Id)
    requires Plan(byId, waves, idMap) && RunSoFar(byId, waves, idMap, feed, r)
    requires i < |r.sent| && d in Sanitized(byId)[r.lids[i]]
    ensures d in r.lids && r.sentIn[i] < r.reached && r.sent[i].context.upstream.Some?
    ensures InLayer(Sanitized(byId), r.lids[i], r.sentIn[i]) && d in Placed(Sanitized(byId), r.sentIn[i])
    ensures HoldsLastReply(r.sent[i].context.upstream.value.results, d, feed, r.asked, r.sentIn[i], idMap[d])
  {
    var g, x, k := Sanitized(byId), r.lids[i], r.sentIn[i];
    var struck := Struck(g, Hits(g, idMap, feed, r.asked));
    assert x in r.lids;
    assert ToldAt(byId, idMap, feed, r.asked, k, x, r.sent[i].context);
    ToldLastReplies(byId, idMap, feed, r.asked, k, x, r.sent[i].context, d);
    PlacedGrows(g, k, r.reached);
    StruckStep(g, Hits(g, idMap, feed, r.asked), x);
    assert d in struck ==> Blocked(g, struck, x);
    assert d in Placed(g, r.reached) && d !in struck;
  }

  /** One output for each position of the list that names a subtask answered before wave k, in the
      order of the list: the output in the last reply. */
  ghost predicate ListsLastOutputs(deps: seq<Id>, idMap: IdMap, feed: seq<seq<ReplyMessage>>, asked: seq<bool>,
                                   k: nat, outputs: seq<Value>)
    requires k <= |asked| <= |feed|
  {
    var known := RepliesBefore(feed, asked, k);
    && |outputs| == CountAnswered(deps, idMap, known)
    && (forall p, w, j | 0 <= p < |deps| && deps[p] in idMap && LastReply(feed, asked, k, idMap[deps[p]], w, j) ::
          var n := CountAnswered(deps[..p], idMap, known);
          n < |outputs| && outputs[n] == Get(feed[w][j].result, OutputKey, String([])))
  }

  lemma ToldLastOutputs(byId: map<Id, Subtask>, idMap: IdMap, feed: seq<seq<ReplyMessage>>, asked: seq<bool>,
                        k: nat, x: Id, c: Context)
    requires k <= |asked| <= |feed| && ToldAt(byId, idMap, feed, asked, k, x, c) && c.upstream.Some?
    ensures x in byId && ListsLastOutputs(byId[x].dependsOn, idMap, feed, asked, k, c.upstream.value.outputs)
  {
    var deps, known := byId[x].dependsOn, RepliesBefore(feed, asked, k);
    forall p, w, j | 0 <= p < |deps| && deps[p] in idMap && LastReply(feed, asked, k, idMap[deps[p]], w, j)
      ensures var n, outputs := CountAnswered(deps[..p], idMap, known), c.upstream.value.outputs;
              n < |outputs| && outputs[n] == Get(feed[w][j].result, OutputKey, String([]))
    {
      KnownIsLastReply(feed, asked, k, idMap[deps[p]], w, j);
      assert IsAnswered(deps[p], idMap, known);
    }
  }

  /** The outputs a dispatched subtask is given stand in the order of its dependency list. */
  lemma OutputsInListOrder(byId: map<Id, Subtask>, waves: seq<seq<Subtask>>, idMap: IdMap,
                           feed: seq<seq<ReplyMessage>>, r: RunResult, i: nat)
    requires Plan(byId, waves, idMap) && RunSoFar(byId, waves, idMap, feed, r)
    requires i < |r.sent| && r.sent[i].context.upstream.Some?
    ensures r.lids[i] in byId && r.sentIn[i] < |r.asked|
    ensures ListsLastOutputs(byId[r.lids[i]].dependsOn, idMap, feed, r.asked, r.sentIn[i],
                             r.sent[i].context.upstream.value.outputs)
  {
    assert ToldAt(byId, idMap, feed, r.asked, r.sentIn[i], r.lids[i], r.sent[i].context);
    ToldLastOutputs(byId, idMap, feed, r.asked, r.sentIn[i], r.lids[i], r.sent[i].context);
  }

  /** A predecessor that failed in time failed. */
  lemma FailedInTimeMeansFailed(byId: map<Id, Subtask>, idMap: IdMap, feed: seq<seq<ReplyMessage>>, asked: seq<bool>,
                                x: Id)
    requires |asked| <= |feed| && idMap.Keys == byId.Keys && FailedInTime(byId, idMap, feed, asked, x)
    ensures PredecessorFailed(byId, idMap, AllReplies(feed, asked), x)
  {
    var g := Sanitized(byId);
    var z :| (z == x || Reaches(g, x, z)) && IsHit(g, idMap, feed, asked, z);
    var k :| 0 <= k <= |asked| && HitAt(g, idMap, feed, asked, k, z);
    var d :| d in g[z] && d in LocalIds(idMap, FailedBefore(feed, asked, k));
    StillKnown(feed, asked, k);
    OneStep(g, z, d);
    if z != x {
      ReachesTransitive(g, x, z, d);
    }
  }

  // ---- with replies on time ------------------------------------------------------------------------

  /** What was collected for a wave are replies to that wave. */
  ghost predicate OnTime(idMap: IdMap, waves: seq<seq<Subtask>>, feed: seq<seq<ReplyMessage>>, asked: seq<bool>)
    requires |asked| <= |feed| == |waves|
  {
    forall k | 0 <= k < |asked| && asked[k] :: LocalIds(idMap, Replied(feed[k])) <= Ids(waves[k])
  }

  lemma LastStep(g: Graph, x: Id, y: Id) returns (z: Id)
    requires Reaches(g, x, y)
    ensures z in g && y in g[z] && (z == x || Reaches(g, x, z))
  {
    var p :| WalkBetween(g, p, x, y);
    z := p[|p| - 2];
    assert p[|p| - 2 + 1] in g[z];
    if |p| > 2 {
      SubwalkIsWalk(g, p, 0, |p| - 1);
      assert WalkBetween(g, p[0..|p| - 1], x, z);
    }
  }

  /** A failed reply was collected in the wave of its own task. */
  lemma FailedOnTime(byId: map<Id, Subtask>, waves: seq<seq<Subtask>>, idMap: IdMap,
                     feed: seq<seq<ReplyMessage>>, asked: seq<bool>, y: Id) returns (j: nat)
    requires Plan(byId, waves, idMap) && |asked| <= |feed| == |waves| && OnTime(idMap, waves, feed, asked)
    requires y in idMap && idMap[y] in FailedIn(AllReplies(feed, asked))
    ensures j < |asked| && y !in Placed(Sanitized(byId), j) && idMap[y] in FailedBefore(feed, asked, j + 1)
  {
    var r :| r in AllReplies(feed, asked) && !r.success && r.taskId == idMap[y];
    j := CollectedInWave(feed, asked, r);
    assert y in LocalIds(idMap, Replied(feed[j])) && IsWave(Sanitized(byId), byId, waves[j], j);
    KnownBefore(feed, asked, j, j + 1, r);
  }

  lemma NotPlacedBeforeDependency(g: Graph, y: Id, z: Id, j: nat)
    requires z in g && y in g[z] && y !in Placed(g, j)
    ensures z !in Placed(g, j + 1)
  {
  }

  lemma HitOnTime(byId: map<Id, Subtask>, waves: seq<seq<Subtask>>, idMap: IdMap,
                  feed: seq<seq<ReplyMessage>>, asked: seq<bool>, y: Id, z: Id)
    requires Plan(byId, waves, idMap) && |asked| <= |feed| == |waves| && OnTime(idMap, waves, feed, asked)
    requires y in idMap && idMap[y] in FailedIn(AllReplies(feed, asked))
    requires z in byId && y in Sanitized(byId)[z]
    ensures IsHit(Sanitized(byId), idMap, feed, asked, z)
  {
    var j := FailedOnTime(byId, waves, idMap, feed, asked, y);
    NotPlacedBeforeDependency(Sanitized(byId), y, z, j);
    assert y in LocalIds(idMap, FailedBefore(feed, asked, j + 1));
    assert HitAt(Sanitized(byId), idMap, feed, asked, j + 1, z);
  }

  /** Then a failure is always in time. */
  lemma OnTimeIsInTime(byId: map<Id, Subtask>, waves: seq<seq<Subtask>>, idMap: IdMap,
                       feed: seq<seq<ReplyMessage>>, asked: seq<bool>, x: Id)
    requires Plan(byId, waves, idMap) && |asked| <= |feed| == |waves| && x in byId
    requires OnTime(idMap, waves, feed, asked)
    ensures FailedInTime(byId, idMap, feed, asked, x)
            <==> PredecessorFailed(byId, idMap, AllReplies(feed, asked), x)
  {
    var g := Sanitized(byId);
    if PredecessorFailed(byId, idMap, AllReplies(feed, asked), x) {
      var y :| y in idMap && idMap[y] in FailedIn(AllReplies(feed, asked)) && Reaches(g, x, y);
      var z := LastStep(g, x, y);
      HitOnTime(byId, waves, idMap, feed, asked, y, z);
    }
    if FailedInTime(byId, idMap, feed, asked, x) {
      FailedInTimeMeansFailed(byId, idMap, feed, asked, x);
    }
  }

  /** Among the subtasks of reached waves: skipped exactly when a predecessor failed,
      dispatched exactly when not. */
  lemma SkippedExactlyWhenPredecessorFailed(byId: map<Id, Subtask>, waves: seq<seq<Subtask>>, idMap: IdMap,
                                            feed: seq<seq<ReplyMessage>>, r: RunResult, k: nat, x: Id)
    requires Plan(byId, waves, idMap) && RunSoFar(byId, waves, idMap, feed, r)
    requires OnTime(idMap, waves, feed, r.asked)
    requires k < r.reached && x in Ids(waves[k])
    ensures x in idMap
    ensures idMap[x] in r.skipped <==> PredecessorFailed(byId, idMap, AllReplies(feed, r.asked), x)
    ensures idMap[x] in TaskIds(r.sent) <==> !PredecessorFailed(byId, idMap, AllReplies(feed, r.asked), x)
  {
    SkippedExactlyWhenFailedInTime(byId, waves, idMap, feed, r, k, x);
    OnTimeIsInTime(byId, waves, idMap, feed, r.asked, x);
  }

  /** Every subtask, reached or not, is marked failed exactly when a predecessor failed. */
  lemma MarkedExactlyWhenPredecessorFailed(byId: map<Id, Subtask>, waves: seq<seq<Subtask>>, idMap: IdMap,
                                           feed: seq<seq<ReplyMessage>>, r: RunResult, x: Id)
    requires Plan(byId, waves, idMap) && RunSoFar(byId, waves, idMap, feed, r) && x in byId
    requires OnTime(idMap, waves, feed, r.asked)
    ensures idMap[x] in r.marked <==> PredecessorFailed(byId, idMap, AllReplies(feed, r.asked), x)
  {
    MarkedExactlyWhenFailedInTime(byId, waves, idMap, feed, r, x);
    OnTimeIsInTime(byId, waves, idMap, feed, r.asked, x);
  }

  lemma NotRepliedLater(byId: map<Id, Subtask>, waves: seq<seq<Subtask>>, idMap: IdMap,
                        feed: seq<seq<ReplyMessage>>, asked: seq<bool>, d: Id, k: nat)
    requires Plan(byId, waves, idMap) && |asked| <= |feed| == |waves| && OnTime(idMap, waves, feed, asked)
    requires d in idMap && k < |asked| && asked[k] && d in Placed(Sanitized(byId), k)
    ensures idMap[d] !in Replied(feed[k])
  {
    assert IsWave(Sanitized(byId), byId, waves[k], k);
    assert d !in Ids(waves[k]);
    assert d !in LocalIds(idMap, Replied(feed[k]));
  }

  /** Replies on time: wave n changes nothing that is known about a task before it. */
  lemma KnownOneMore(byId: map<Id, Subtask>, waves: seq<seq<Subtask>>, idMap: IdMap,
                     feed: seq<seq<ReplyMessage>>, asked: seq<bool>, d: Id, n: nat)
    requires Plan(byId, waves, idMap) && |asked| <= |feed| == |waves| && OnTime(idMap, waves, feed, asked)
    requires d in idMap && n < |asked| && d in Placed(Sanitized(byId), n)
    ensures var before, later := RepliesBefore(feed, asked, n), RepliesBefore(feed, asked, n + 1);
            && (idMap[d] in before <==> idMap[d] in later)
            && (idMap[d] in before ==> before[idMap[d]] == later[idMap[d]])
  {
    var before := RepliesBefore(feed, asked, n);
    assert asked[..n + 1] == asked[..n] + [asked[n]];
    OneMoreWave(feed, asked[..n], asked[n]);
    if asked[n] {
      NotRepliedLater(byId, waves, idMap, feed, asked, d, n);
      AbsorbedOther(before, feed[n], idMap[d]);
      assert RepliesBefore(feed, asked, n + 1) == Absorbed(before, feed[n]);
    }
  }

  /** Replies on time: nothing after wave k changes what is known about a task before it. */
  lemma {:induction false} KnownStays(byId: map<Id, Subtask>, waves: seq<seq<Subtask>>, idMap: IdMap,
                                      feed: seq<seq<ReplyMessage>>, asked: seq<bool>, d: Id, k: nat, n: nat)
    requires Plan(byId, waves, idMap) && |asked| <= |feed| == |waves| && OnTime(idMap, waves, feed, asked)
    requires d in idMap && k <= n <= |asked| && d in Placed(Sanitized(byId), k)
    ensures var before, later := RepliesBefore(feed, asked, k), RepliesBefore(feed, asked, n);
            && (idMap[d] in before <==> idMap[d] in later)
            && (idMap[d] in before ==> before[idMap[d]] == later[idMap[d]])
    decreases n
  {
    if k < n {
      KnownStays(byId, waves, idMap, feed, asked, d, k, n - 1);
      PlacedGrows(Sanitized(byId), k, n - 1);
      KnownOneMore(byId, waves, idMap, feed, asked, d, n - 1);
    }
  }

  lemma FailedDependencyStrikes(byId: map<Id, Subtask>, waves: seq<seq<Subtask>>, idMap: IdMap,
                                feed: seq<seq<ReplyMessage>>, asked: seq<bool>, d: Id, x: Id)
    requires Plan(byId, waves, idMap) && |asked| <= |feed| == |waves| && OnTime(idMap, waves, feed, asked)
    requires x in byId && d in Sanitized(byId)[x]
    ensures idMap[d] in FailedIn(AllReplies(feed, asked)) ==>
              x in Struck(Sanitized(byId), Hits(Sanitized(byId), idMap, feed, asked))
  {
    if idMap[d] in FailedIn(AllReplies(feed, asked)) {
      HitOnTime(byId, waves, idMap, feed, asked, d, x);
    }
  }

  /** With replies on time, what x was told of d before wave k is all that is ever known of d. */
  lemma ToldAllThereIs(byId: map<Id, Subtask>, waves: seq<seq<Subtask>>, idMap: IdMap,
                       feed: seq<seq<ReplyMessage>>, asked: seq<bool>, k: nat, x: Id, c: Context, d: Id)
    requires Plan(byId, waves, idMap) && |asked| <= |feed| == |waves| && OnTime(idMap, waves, feed, asked)
    requires k <= |asked| && ToldAt(byId, idMap, feed, asked, k, x, c)
    requires d in Sanitized(byId)[x] && d in Placed(Sanitized(byId), k)
    ensures c.upstream.Some? && d in idMap
    ensures HoldsLastReply(c.upstream.value.results, d, feed, asked, |asked|, idMap[d])
    ensures d in c.upstream.value.results <==> idMap[d] in RepliesBefore(feed, asked, |asked|)
  {
    ToldKnown(byId, idMap, feed, asked, k, x, c, d);
    KnownStays(byId, waves, idMap, feed, asked, d, k, |asked|);
    KnownReplyByReply(feed, asked, |asked|, idMap[d]);
  }

  /** No dependency of a dispatched subtask failed, if replies are on time. */
  lemma NoDependencyFailed(byId: map<Id, Subtask>, waves: seq<seq<Subtask>>, idMap: IdMap,
                           feed: seq<seq<ReplyMessage>>, r: RunResult, x: Id, d: Id)
    requires Plan(byId, waves, idMap) && RunSoFar(byId, waves, idMap, feed, r)
    requires OnTime(idMap, waves, feed, r.asked) && x in r.lids && x in byId && d in Sanitized(byId)[x]
    ensures d in idMap && idMap[d] !in r.bad
  {
    FailedDependencyStrikes(byId, waves, idMap, feed, r.asked, d, x);
  }

  lemma DispatchedIsAnswered(idMap: IdMap, feed: seq<seq<ReplyMessage>>, r: RunResult, d: Id)
    requires |r.asked| <= |feed| && r.replies == Absorbed(map[], AllReplies(feed, r.asked))
    requires Injective(idMap) && MessagesOf(idMap, r.sent, r.lids) && d in idMap && d in r.lids
    requires forall m | m in r.sent :: m.taskId in r.replies
    ensures idMap[d] in RepliesBefore(feed, r.asked, |r.asked|)
  {
    SentMeansListed(idMap, r.sent, r.lids, d);
    var m :| m in r.sent && m.taskId == idMap[d];
    assert r.asked[..|r.asked|] == r.asked;
  }

  /** When every dispatched task was answered, each dispatched subtask had all of its
      known dependencies dispatched before it and carries for each of them the result of the
      last reply there ever was. */
  lemma DependentsSeeEveryResult(byId: map<Id, Subtask>, waves: seq<seq<Subtask>>, idMap: IdMap,
                                 feed: seq<seq<ReplyMessage>>, r: RunResult, i: nat, d: Id)
    requires Plan(byId, waves, idMap) && RunSoFar(byId, waves, idMap, feed, r)
    requires OnTime(idMap, waves, feed, r.asked) && forall m | m in r.sent :: m.taskId in r.replies
    requires i < |r.sent| && d in Sanitized(byId)[r.lids[i]]
    ensures d in r.lids && idMap[d] !in r.bad && r.sent[i].context.upstream.Some?
    ensures d in r.sent[i].context.upstream.value.results
    ensures HoldsLastReply(r.sent[i].context.upstream.value.results, d, feed, r.asked, |r.asked|, idMap[d])
  {
    var x := r.lids[i];
    DependentsAreTold(byId, waves, idMap, feed, r, i, d);
    assert ToldAt(byId, idMap, feed, r.asked, r.sentIn[i], x, r.sent[i].context);
    ToldAllThereIs(byId, waves, idMap, feed, r.asked, r.sentIn[i], x, r.sent[i].context, d);
    DispatchedIsAnswered(idMap, feed, r, d);
    NoDependencyFailed(byId, waves, idMap, feed, r, x, d);
  }

  // ---- late replies -------------------------------------------------------------------------------

  const FIRST := Subtask(1, 0, [])

  const SECOND := Subtask(2, 1, [1])

  const PAIR: map<Id, Subtask> := map[1 := FIRST, 2 := SECOND]

  const PAIR_WAVES: seq<seq<Subtask>> := [[FIRST], [SECOND]]

  const ROWS: IdMap := map[1 := 11, 2 := 12]

  function LateFeed(failure: JsonObject): seq<seq<ReplyMessage>> {
    [[], [ReplyMessage(11, false, failure)]]
  }

  lemma LateFeedReplies(failure: JsonObject)
    ensures AllReplies(LateFeed(failure), [true]) == []
    ensures AllReplies(LateFeed(failure), [true, true]) == [ReplyMessage(11, false, failure)]
  {
    assert [true, true][..1] == [true] && [true][..0] == [];
  }

  lemma PairGraph()
    ensures Sanitized(PAIR) == map[1 := {}, 2 := {1}]
    ensures Placed(Sanitized(PAIR), 1) == {1} && Placed(Sanitized(PAIR), 2) == {1, 2}
  {
    var g := Sanitized(PAIR);
    assert g[1] == {} && g[2] == {1};
    assert Placed(g, 0) == {};
    forall x ensures x in Placed(g, 1) <==> x == 1 {
    }
    forall x ensures x in Placed(g, 2) <==> x == 1 || x == 2 {
    }
  }

  lemma PairPlan()
    ensures Plan(PAIR, PAIR_WAVES, ROWS)
  {
    PairGraph();
    var g := Sanitized(PAIR);
    assert FIRST in [FIRST] && SECOND in [SECOND];
    assert Placed(g, 0) == {};
    forall x ensures x in Ids([FIRST]) <==> InLayer(g, x, 0) {
    }
    forall x ensures x in Ids([SECOND]) <==> InLayer(g, x, 1) {
    }
    assert IsWave(g, PAIR, PAIR_WAVES[0], 0) && IsWave(g, PAIR, PAIR_WAVES[1], 1);
  }

  lemma NothingHitInTime(failure: JsonObject, asked: seq<bool>, k: nat, z: Id)
    requires k <= |asked| == 2
    ensures !HitAt(Sanitized(PAIR), ROWS, LateFeed(failure), asked, k, z)
  {
    PairGraph();
    if k < 2 {
      assert asked[..k] == if k == 0 then [] else [asked[0]];
      assert AllReplies(LateFeed(failure), []) == [];
      assert AllReplies(LateFeed(failure), asked[..k]) == [];
      assert FailedBefore(LateFeed(failure), asked, k) == {};
    }
  }

  lemma NoHits(failure: JsonObject, asked: seq<bool>)
    requires |asked| == 2
    ensures Hits(Sanitized(PAIR), ROWS, LateFeed(failure), asked) == {}
  {
    forall z ensures !IsHit(Sanitized(PAIR), ROWS, LateFeed(failure), asked, z) {
      forall k | 0 <= k <= 2 ensures !HitAt(Sanitized(PAIR), ROWS, LateFeed(failure), asked, k, z) {
        NothingHitInTime(failure, asked, k, z);
      }
    }
  }

  lemma BothAreAsked(lids: seq<Id>, asked: seq<bool>)
    requires |asked| == 2 && AskedWhenSent(PAIR_WAVES, lids, asked) && 1 in lids && 2 in lids
    ensures asked == [true, true]
  {
    assert FIRST in PAIR_WAVES[0] && SECOND in PAIR_WAVES[1];
    assert SentIn(PAIR_WAVES[0], lids) && SentIn(PAIR_WAVES[1], lids);
  }

  lemma BothAreSent(failure: JsonObject, r: RunResult)
    requires RunSoFar(PAIR, PAIR_WAVES, ROWS, LateFeed(failure), r) && r.reached == 2
    ensures 1 in r.lids && 2 in r.lids && r.asked == [true, true]
  {
    PairGraph();
    NoHits(failure, r.asked);
    NothingStruck(Sanitized(PAIR));
    BothAreAsked(r.lids, r.asked);
  }

  lemma LateFailureIsFailure(failure: JsonObject)
    ensures PredecessorFailed(PAIR, ROWS, AllReplies(LateFeed(failure), [true, true]), 2)
  {
    PairGraph();
    LateFeedReplies(failure);
    OneStep(Sanitized(PAIR), 2, 1);
    assert ReplyMessage(11, false, failure) in AllReplies(LateFeed(failure), [true, true]);
    assert ROWS[1] in FailedIn(AllReplies(LateFeed(failure), [true, true]));
  }

  /** A late failure is missed. Subtask 2 depends on subtask 1. The collection of the first wave
      times out, and the failed reply to 1 turns up in the collection of the second: by then 2
      has been dispatched. */
  lemma LateFailureIsMissed(failure: JsonObject, r: RunResult)
    requires RunSoFar(PAIR, PAIR_WAVES, ROWS, LateFeed(failure), r) && r.reached == 2
    ensures 12 in TaskIds(r.sent) && 12 !in r.skipped
    ensures PredecessorFailed(PAIR, ROWS, AllReplies(LateFeed(failure), r.asked), 2)
  {
    PairPlan();
    BothAreSent(failure, r);
    SentMeansListed(ROWS, r.sent, r.lids, 2);
    DispatchedOnceOrSkipped(PAIR, PAIR_WAVES, ROWS, LateFeed(failure), r);
    LateFailureIsFailure(failure);
  }

  /** And it happens: this is the run that the wave loop makes of it. */
  method RunIntoLateFailure(failure: JsonObject) returns (r: RunResult)
    ensures RunSoFar(PAIR, PAIR_WAVES, ROWS, LateFeed(failure), r)
    ensures 12 in TaskIds(r.sent) && 12 !in r.skipped
    ensures PredecessorFailed(PAIR, ROWS, AllReplies(LateFeed(failure), r.asked), 2)
  {
    PairPlan();
    PairGraph();
    var contexts := map[1 := Context(Null, Null, None, Null), 2 := Context(Null, Null, None, Null)];
    var agent := new SchedulingAgent(map[11 := Pending, 12 := Pending]);
    r := agent.RunWaves(PAIR, PAIR_WAVES, ROWS, contexts, LateFeed(failure), 2);
    LateFailureIsMissed(failure, r);
  }

  // ---- creating the task rows ----------------------------------------------------------------

  lemma PrefixGrows(subtasks: seq<Subtask>, k: nat)
    requires k < |subtasks|
    ensures Ids(subtasks[..k + 1]) == Ids(subtasks[..k]) + {subtasks[k].id}
    ensures ById(subtasks[..k + 1]) == ById(subtasks[..k])[subtasks[k].id := subtasks[k]]
  {
    assert subtasks[..k + 1] == subtasks[..k] + [subtasks[k]];
    assert subtasks[..k + 1][..k] == subtasks[..k];
  }

  /** Every subtask in idMap is mapped to the row of its parent and goal. */
  ghost predicate MapsToRows(byKey: map<(TaskId, int), TaskId>, parent: TaskId, byId: map<Id, Subtask>, idMap: IdMap) {
    && idMap.Keys <= byId.Keys
    && (forall x | x in idMap :: (parent, byId[x].goal) in byKey && idMap[x] == byKey[(parent, byId[x].goal)])
  }

  lemma MapsOneMore(was: map<(TaskId, int), TaskId>, now: map<(TaskId, int), TaskId>, parent: TaskId,
                    byId: map<Id, Subtask>, idMap: IdMap, sub: Subtask)
    requires MapsToRows(was, parent, byId, idMap) && (parent, sub.goal) in now
    requires if (parent, sub.goal) in was then now == was
             else now == was[(parent, sub.goal) := now[(parent, sub.goal)]]
    ensures MapsToRows(now, parent, byId[sub.id := sub], idMap[sub.id := now[(parent, sub.goal)]])
  {
  }

  /** `_create_subtask` finds a row by its parent and goal before it creates one. */
  class TaskCreator {
    var byKey: map<(TaskId, int), TaskId>  // idempotency_key -> task id
    var tasks: TaskTable

    ghost predicate Valid()
      reads this
    {
      && (forall key | key in byKey :: byKey[key] in tasks)
      && (forall a, b | a in byKey && b in byKey && byKey[a] == byKey[b] :: a == b)
    }

    method CreateSubtask(parent: TaskId, sub: Subtask, uuid: TaskId) returns (t: TaskId)
      requires Valid() && uuid !in tasks
      modifies this
      ensures Valid() && (parent, sub.goal) in byKey && t == byKey[(parent, sub.goal)]
      ensures if (parent, sub.goal) in old(byKey)
              then byKey == old(byKey) && tasks == old(tasks)
              else byKey == old(byKey)[(parent, sub.goal) := uuid] && tasks == old(tasks)[uuid := Pending]
    {
      var key := (parent, sub.goal);
      if key in byKey {
        return byKey[key];
      }
      tasks := tasks[uuid := Pending];
      byKey := byKey[key := uuid];
      return uuid;
    }

    /** The creation loop of `run`. uuids[k] is the id generated for subtask k. */
    method CreateAll(parent: TaskId, subtasks: seq<Subtask>, uuids: seq<TaskId>) returns (idMap: IdMap)
      requires Valid() && |uuids| == |subtasks|
      requires forall k | 0 <= k < |uuids| :: uuids[k] !in tasks
      requires forall j, k | 0 <= j < k < |uuids| :: uuids[j] != uuids[k]
      modifies this
      ensures Valid() && idMap.Keys == Ids(subtasks)
      ensures forall x | x in idMap ::
                (parent, ById(subtasks)[x].goal) in byKey && idMap[x] == byKey[(parent, ById(subtasks)[x].goal)]
      ensures forall t | t in old(tasks) :: t in tasks && tasks[t] == old(tasks)[t]
      ensures forall t | t in tasks && t !in old(tasks) :: tasks[t] == Pending
    {
      idMap := map[];
      for k := 0 to |subtasks|
        invariant Valid() && idMap.Keys == Ids(subtasks[..k])
        invariant MapsToRows(byKey, parent, ById(subtasks[..k]), idMap)
        invariant forall j | k <= j < |uuids| :: uuids[j] !in tasks
        invariant forall t | t in old(tasks) :: t in tasks && tasks[t] == old(tasks)[t]
        invariant forall t | t in tasks && t !in old(tasks) :: tasks[t] == Pending
      {
        var sub := subtasks[k];
        ghost var was := byKey;
        PrefixGrows(subtasks, k);
        var t := CreateSubtask(parent, sub, uuids[k]);
        MapsOneMore(was, byKey, parent, ById(subtasks[..k]), idMap, sub);
        idMap := idMap[sub.id := t];
      }
      assert subtasks[..|subtasks|] == subtasks;
    }
  }

  /** Subtasks get a task row each exactly when their goals differ: the key ignores ids. */
  lemma OneRowEachIffGoalsDiffer(byKey: map<(TaskId, int), TaskId>, parent: TaskId,
                                 byId: map<Id, Subtask>, idMap: IdMap)
    requires forall a, b | a in byKey && b in byKey && byKey[a] == byKey[b] :: a == b
    requires idMap.Keys == byId.Keys
    requires forall x | x in idMap :: (parent, byId[x].goal) in byKey && idMap[x] == byKey[(parent, byId[x].goal)]
    ensures Injective(idMap)
            <==> forall x, y | x in byId && y in byId && byId[x].goal == byId[y].goal :: x == y
  {
    if Injective(idMap) {
      forall x, y | x in byId && y in byId && byId[x].goal == byId[y].goal ensures x == y {
        assert idMap[x] == idMap[y];
      }
    } else {
      var x, y :| x in idMap && y in idMap && idMap[x] == idMap[y] && x != y;
      assert byId[x].goal == byId[y].goal;
    }
  }
}
