/** The wave loop of `SchedulingAgent.run` with `_propagate_failure` and
    `_inject_upstream`. Local ids (`Id`) name subtasks; task ids name task rows. */
module Scheduling {
  import opened Wrappers
  import opened Results
  import opened Graphs
  import opened Waves
  import opened Failures
  import opened Store
  import opened Replies

  type IdMap = map<Id, TaskId>

  /** One task row per subtask. */
  ghost predicate Injective(idMap: IdMap) {
    forall x, y | x in idMap && y in idMap && idMap[x] == idMap[y] :: x == y
  }

  /** The waves of a plan and the task row of every subtask, one row each. */
  ghost predicate Plan(byId: map<Id, Subtask>, waves: seq<seq<Subtask>>, idMap: IdMap) {
    && IsWaves(Sanitized(byId), byId, waves)
    && idMap.Keys == byId.Keys
    && Injective(idMap)
  }

  /** The subtasks whose task ids are in ts. */
  ghost function LocalIds(idMap: IdMap, ts: set<TaskId>): set<Id> {
    set x | x in idMap && idMap[x] in ts
  }

  ghost function MarkedFailed(tasks: TaskTable, ts: set<TaskId>): TaskTable {
    map t | t in tasks :: if t in ts then Failed else tasks[t]
  }

  // ---- small steps on these sets ---------------------------------------------------------------

  lemma UnionOfLocals(idMap: IdMap, a: set<TaskId>, b: set<TaskId>)
    ensures LocalIds(idMap, a + b) == LocalIds(idMap, a) + LocalIds(idMap, b)
  {
  }

  lemma FewerLocals(idMap: IdMap, a: set<TaskId>, b: set<TaskId>)
    requires a <= b
    ensures LocalIds(idMap, a) <= LocalIds(idMap, b)
  {
    forall x | x in LocalIds(idMap, a) ensures x in LocalIds(idMap, b) {
    }
  }

  lemma AddLocalId(idMap: IdMap, ts: set<TaskId>, x: Id)
    requires Injective(idMap) && x in idMap
    ensures LocalIds(idMap, ts + {idMap[x]}) == LocalIds(idMap, ts) + {x}
    ensures idMap[x] in idMap.Values
  {
    forall y ensures y in LocalIds(idMap, ts + {idMap[x]}) <==> y in LocalIds(idMap, ts) + {x} {
    }
  }

  lemma MarkOneMore(tasks: TaskTable, ts: set<TaskId>, t: TaskId)
    ensures Mark(MarkedFailed(tasks, ts), t, Failed) == MarkedFailed(tasks, ts + {t})
  {
  }

  lemma MarkMore(tasks: TaskTable, a: set<TaskId>, b: set<TaskId>)
    ensures MarkedFailed(MarkedFailed(tasks, a), b) == MarkedFailed(tasks, a + b)
  {
  }

  lemma OneMoreOf(a: set<Id>, p: set<Id>, done: set<Id>, x: Id)
    ensures a * (p + (done + {x})) == if x in a then a * (p + done) + {x} else a * (p + done)
  {
  }

  /** One more subtask looked at: the skipped ones are the affected ones so far. */
  lemma OneMoreSkipped(idMap: IdMap, skipped: set<TaskId>, a: set<Id>, p: set<Id>, done: set<Id>, x: Id)
    requires Injective(idMap) && x in idMap && skipped <= idMap.Values
    requires LocalIds(idMap, skipped) == a * (p + done)
    ensures x in a ==> LocalIds(idMap, skipped + {idMap[x]}) == a * (p + (done + {x}))
    ensures x !in a ==> LocalIds(idMap, skipped) == a * (p + (done + {x}))
    ensures skipped + {idMap[x]} <= idMap.Values
  {
    AddLocalId(idMap, skipped, x);
    OneMoreOf(a, p, done, x);
  }

  lemma InNextPrefix(g: Graph, byId: map<Id, Subtask>, wave: seq<Subtask>, k: nat, i: nat)
    requires IsWave(g, byId, wave, k) && i < |wave|
    ensures Ids(wave[..i + 1]) == Ids(wave[..i]) + {wave[i].id}
    ensures wave[i].id !in Ids(wave[..i]) && InLayer(g, wave[i].id, k)
    ensures wave[i].id in byId && byId[wave[i].id] == wave[i]
    ensures forall x | x in Ids(wave[..i]) :: InLayer(g, x, k)
  {
    assert wave[i] in wave && wave[i].id in Ids(wave);
    assert wave[..i + 1] == wave[..i] + [wave[i]];
    forall x | x in Ids(wave[..i]) ensures x in Ids(wave) && x != wave[i].id {
      var s :| s in wave[..i] && s.id == x;
      assert s in wave;
    }
    forall x ensures x in Ids(wave[..i + 1]) <==> x in Ids(wave[..i]) + {wave[i].id} {
      if x in Ids(wave[..i]) {
        var s :| s in wave[..i] && s.id == x;
        assert s in wave[..i + 1];
      }
      if x == wave[i].id {
        assert wave[i] in wave[..i + 1];
      }
    }
  }

  lemma LayerComplete(g: Graph, byId: map<Id, Subtask>, wave: seq<Subtask>, k: nat)
    requires IsWave(g, byId, wave, k)
    ensures Placed(g, k) + Ids(wave) == Placed(g, k + 1)
  {
    PlacedGrows(g, k, k + 1);
    forall x ensures x in Placed(g, k) + Ids(wave) <==> x in Placed(g, k + 1) {
    }
  }

  // ---- predecessors of one subtask ----------------------------------------------------

  /** The test made before dispatching or skipping: the raw list, through the map. */
  predicate AnyIn(deps: seq<Id>, idMap: IdMap, ts: set<TaskId>) {
    exists d | d in deps :: d in idMap && idMap[d] in ts
  }

  /** As long as the subtask itself is not in ts, unknown and self references in the
      raw list make no difference. */
  lemma AnyInMeansBlocked(byId: map<Id, Subtask>, idMap: IdMap, ts: set<TaskId>, x: Id)
    requires idMap.Keys == byId.Keys && x in byId && idMap[x] !in ts
    ensures AnyIn(byId[x].dependsOn, idMap, ts)
            <==> Blocked(Sanitized(byId), LocalIds(idMap, ts), x)
  {
    var g := Sanitized(byId);
    if AnyIn(byId[x].dependsOn, idMap, ts) {
      var d :| d in byId[x].dependsOn && d in idMap && idMap[d] in ts;
      assert d in g[x] && d in LocalIds(idMap, ts);
    }
    if Blocked(g, LocalIds(idMap, ts), x) {
      var d :| d in g[x] && d in LocalIds(idMap, ts);
      assert d in byId[x].dependsOn;
    }
  }

  lemma PreparationTest(byId: map<Id, Subtask>, idMap: IdMap, failed: set<TaskId>, skipped: set<TaskId>,
                        k: nat, wave: seq<Subtask>, i: nat)
    requires idMap.Keys == byId.Keys && i < |wave|
    requires IsWave(Sanitized(byId), byId, wave, k)
    requires LocalIds(idMap, failed) <= Placed(Sanitized(byId), k)
    requires LocalIds(idMap, skipped) <= Ids(wave[..i])
    ensures AnyIn(wave[i].dependsOn, idMap, failed + skipped)
            <==> Blocked(Sanitized(byId), LocalIds(idMap, failed), wave[i].id)
  {
    var g, x := Sanitized(byId), wave[i].id;
    InNextPrefix(g, byId, wave, k, i);
    assert x !in LocalIds(idMap, failed) && x !in LocalIds(idMap, skipped);
    AnyInMeansBlocked(byId, idMap, failed + skipped, x);
    forall d | d in Placed(g, k)
      ensures d in LocalIds(idMap, failed + skipped) <==> d in LocalIds(idMap, failed)
    {
      assert d !in LocalIds(idMap, skipped);
    }
    BlockedLooksBack(g, LocalIds(idMap, failed + skipped), LocalIds(idMap, failed), k, x);
  }

  lemma PropagationTest(byId: map<Id, Subtask>, idMap: IdMap, failed: set<TaskId>, skipped: set<TaskId>,
                        start: nat, j: nat, wave: seq<Subtask>, i: nat)
    requires idMap.Keys == byId.Keys && start <= j && i < |wave|
    requires IsWave(Sanitized(byId), byId, wave, j)
    requires forall x | x in byId && x !in Placed(Sanitized(byId), start) :: idMap[x] !in failed
    requires LocalIds(idMap, skipped)
             == Affected(LaterPart(Sanitized(byId), start), LocalIds(idMap, failed))
                * (Placed(Sanitized(byId), j) + Ids(wave[..i]))
    ensures AnyIn(wave[i].dependsOn, idMap, failed + skipped)
            <==> wave[i].id in Affected(LaterPart(Sanitized(byId), start), LocalIds(idMap, failed))
  {
    var g, later := Sanitized(byId), LaterPart(Sanitized(byId), start);
    var bad, x := LocalIds(idMap, failed), wave[i].id;
    var affected := Affected(later, bad);
    InNextPrefix(g, byId, wave, j, i);
    PlacedGrows(g, start, j);
    assert x !in LocalIds(idMap, skipped);
    AnyInMeansBlocked(byId, idMap, failed + skipped, x);
    assert LocalIds(idMap, failed + skipped) == bad + LocalIds(idMap, skipped);
    BlockedLooksBack(g, bad + LocalIds(idMap, skipped), bad + affected, j, x);
    assert later[x] == g[x];
    AffectedStep(later, bad, x);
  }

  // ---- what a subtask is told ------------------------------------------------------------------

  ghost predicate UpstreamFor(deps: set<Id>, idMap: IdMap, replies: map<TaskId, JsonObject>, u: Upstream)
    requires deps <= idMap.Keys
  {
    && (forall d :: d in u.results <==> d in deps && idMap[d] in replies)
    && (forall d | d in u.results :: d in deps && idMap[d] in replies && u.results[d] == replies[idMap[d]])
  }

  /** One entry for each known, non-self dependency that has been answered. */
  ghost predicate InjectedFor(g: Graph, idMap: IdMap, replies: map<TaskId, JsonObject>, x: Id, c: Context) {
    && x in g && g[x] <= idMap.Keys
    && (c.upstream.None? ==> g[x] == {})
    && (c.upstream.Some? ==> UpstreamFor(g[x], idMap, replies, c.upstream.value))
  }

  predicate IsAnswered(d: Id, idMap: IdMap, replies: map<TaskId, JsonObject>) {
    d in idMap && idMap[d] in replies
  }

  /** How many positions of the list name an answered subtask. */
  function CountAnswered(deps: seq<Id>, idMap: IdMap, replies: map<TaskId, JsonObject>): nat {
    if deps == [] then 0 else
      var n := |deps| - 1;
      CountAnswered(deps[..n], idMap, replies) + if IsAnswered(deps[n], idMap, replies) then 1 else 0
  }

  /** One output for each answered position of the list, in the order of the list. */
  ghost predicate InListOrder(deps: seq<Id>, idMap: IdMap, replies: map<TaskId, JsonObject>, outputs: seq<Value>) {
    && |outputs| == CountAnswered(deps, idMap, replies)
    && (forall k | 0 <= k < |deps| && IsAnswered(deps[k], idMap, replies) ::
          var n := CountAnswered(deps[..k], idMap, replies);
          n < |outputs| && outputs[n] == Get(replies[idMap[deps[k]]], OutputKey, String([])))
  }

  lemma NextInList(deps: seq<Id>, k: nat, idMap: IdMap, replies: map<TaskId, JsonObject>, outputs: seq<Value>)
    requires k < |deps| && InListOrder(deps[..k], idMap, replies, outputs)
    ensures !IsAnswered(deps[k], idMap, replies) ==> InListOrder(deps[..k + 1], idMap, replies, outputs)
    ensures IsAnswered(deps[k], idMap, replies) ==>
              InListOrder(deps[..k + 1], idMap, replies,
                          outputs + [Get(replies[idMap[deps[k]]], OutputKey, String([]))])
  {
    var more := deps[..k + 1];
    assert more[..k] == deps[..k];
    forall i | 0 <= i < k ensures more[..i] == deps[..k][..i] && more[i] == deps[..k][i] {
    }
  }

  /** The names and results that an injection adds to the context can be encoded. */
  predicate CleanAnswers(deps: seq<Id>, idMap: IdMap, replies: map<TaskId, JsonObject>) {
    forall d | d in deps && d in idMap && idMap[d] in replies :: CleanName(d) && Clean(replies[idMap[d]])
  }

  lemma {:induction false} AnsweredPosition(deps: seq<Id>, idMap: IdMap, replies: map<TaskId, JsonObject>, i: nat)
    returns (k: nat)
    requires i < CountAnswered(deps, idMap, replies)
    ensures k < |deps| && IsAnswered(deps[k], idMap, replies) && CountAnswered(deps[..k], idMap, replies) == i
  {
    var n := |deps| - 1;
    if i < CountAnswered(deps[..n], idMap, replies) {
      k := AnsweredPosition(deps[..n], idMap, replies, i);
      assert deps[..n][..k] == deps[..k];
    } else {
      k := n;
    }
  }

  lemma CleanOutputs(deps: seq<Id>, idMap: IdMap, replies: map<TaskId, JsonObject>, outputs: seq<Value>)
    requires CleanAnswers(deps, idMap, replies) && InListOrder(deps, idMap, replies, outputs)
    ensures forall i | 0 <= i < |outputs| :: Clean(outputs[i])
  {
    forall i | 0 <= i < |outputs| ensures Clean(outputs[i]) {
      var k := AnsweredPosition(deps, idMap, replies, i);
      assert deps[k] in deps && Clean(replies[idMap[deps[k]]]);
    }
  }

  method InjectUpstream(c: Context, deps: seq<Id>, idMap: IdMap, replies: map<TaskId, JsonObject>)
    returns (r: Context)
    ensures deps == [] ==> r == c
    ensures deps != [] ==>
              && r.upstream.Some? && r == c.(upstream := r.upstream)
              && (forall d :: d in r.upstream.value.results
                              <==> d in deps && d in idMap && idMap[d] in replies)
              && (forall d | d in r.upstream.value.results ::
                    r.upstream.value.results[d] == replies[idMap[d]])
    ensures deps != [] ==>
              && |r.upstream.value.outputs| == CountAnswered(deps, idMap, replies)
              && forall k | 0 <= k < |deps| && IsAnswered(deps[k], idMap, replies) ::
                   var n := CountAnswered(deps[..k], idMap, replies);
                   && n < |r.upstream.value.outputs|
                   && r.upstream.value.outputs[n] == Get(replies[idMap[deps[k]]], OutputKey, String([]))
  {
    if deps == [] {
      return c;
    }
    var results: map<int, JsonObject> := map[];
    var outputs := [];
    for k := 0 to |deps|
      invariant InListOrder(deps[..k], idMap, replies, outputs)
      invariant forall d :: d in results <==> d in deps[..k] && d in idMap && idMap[d] in replies
      invariant forall d | d in results :: results[d] == replies[idMap[d]]
    {
      var lid := deps[k];
      assert deps[..k + 1] == deps[..k] + [lid];
      NextInList(deps, k, idMap, replies, outputs);
      if lid in idMap && idMap[lid] in replies {
        results := results[lid := replies[idMap[lid]]];
        outputs := outputs + [Get(replies[idMap[lid]], OutputKey, String([]))];
      }
    }
    assert deps[..|deps|] == deps;
    return c.(upstream := Some(Upstream(results, outputs)));
  }

  /** c is the context associated with a subtask, with the results of its dependencies added; its
      row can be written exactly when all of this can be encoded. */
  ghost predicate Carries(base: Context, deps: seq<Id>, idMap: IdMap, replies: map<TaskId, JsonObject>, c: Context) {
    && c == base.(upstream := c.upstream)
    && (CleanContext(c) <==> CleanContext(base) && CleanAnswers(deps, idMap, replies))
  }

  lemma InjectedCarries(base: Context, deps: seq<Id>, idMap: IdMap, replies: map<TaskId, JsonObject>, c: Context)
    requires base.upstream.None?
    requires deps == [] ==> c == base
    requires deps != [] ==>
               && c.upstream.Some? && c == base.(upstream := c.upstream)
               && InListOrder(deps, idMap, replies, c.upstream.value.outputs)
               && (forall d :: d in c.upstream.value.results
                               <==> d in deps && d in idMap && idMap[d] in replies)
               && (forall d | d in c.upstream.value.results ::
                     c.upstream.value.results[d] == replies[idMap[d]])
    ensures Carries(base, deps, idMap, replies, c)
  {
    if deps != [] {
      if CleanAnswers(deps, idMap, replies) {
        CleanOutputs(deps, idMap, replies, c.upstream.value.outputs);
      }
      if CleanUpstream(c.upstream.value) {
        forall d | d in deps && d in idMap && idMap[d] in replies ensures CleanName(d) && Clean(replies[idMap[d]]) {
          assert d in c.upstream.value.results;
        }
      }
    }
  }

  // ---- the messages of one wave, and of all ----------------------------------------------------

  /** msgs[i] is the message for subtask lids[i], and no subtask occurs twice. */
  ghost predicate MessagesOf(idMap: IdMap, msgs: seq<TaskMessage>, lids: seq<Id>) {
    && |lids| == |msgs|
    && (forall i | 0 <= i < |lids| :: lids[i] in idMap && msgs[i].taskId == idMap[lids[i]])
    && (forall i, j | 0 <= i < j < |lids| :: lids[i] != lids[j])
  }

  /** c was prepared for subtask x with these replies. */
  ghost predicate ToldWith(byId: map<Id, Subtask>, idMap: IdMap, replies: map<TaskId, JsonObject>, x: Id, c: Context) {
    && InjectedFor(Sanitized(byId), idMap, replies, x, c)
    && (c.upstream.Some? ==>
          x in byId && InListOrder(byId[x].dependsOn, idMap, replies, c.upstream.value.outputs))
  }

  lemma MessageIsInjected(byId: map<Id, Subtask>, idMap: IdMap, replies: map<TaskId, JsonObject>,
                          x: Id, c: Context)
    requires idMap.Keys == byId.Keys && x in byId && idMap[x] !in replies
    requires byId[x].dependsOn == [] ==> c.upstream.None?
    requires byId[x].dependsOn != [] ==>
               && c.upstream.Some?
               && (forall d :: d in c.upstream.value.results
                               <==> d in byId[x].dependsOn && d in idMap && idMap[d] in replies)
               && (forall d | d in c.upstream.value.results ::
                     c.upstream.value.results[d] == replies[idMap[d]])
               && InListOrder(byId[x].dependsOn, idMap, replies, c.upstream.value.outputs)
    ensures ToldWith(byId, idMap, replies, x, c)
  {
    var g := Sanitized(byId);
    if c.upstream.None? {
      assert g[x] == {};
    } else {
      forall d ensures d in c.upstream.value.results <==> d in g[x] && idMap[d] in replies {
      }
    }
  }

  /** All messages were prepared with the same replies. */
  ghost predicate ToldBy(byId: map<Id, Subtask>, idMap: IdMap, replies: map<TaskId, JsonObject>,
                         msgs: seq<TaskMessage>, lids: seq<Id>)
    requires |lids| == |msgs|
  {
    forall i | 0 <= i < |lids| :: ToldWith(byId, idMap, replies, lids[i], msgs[i].context)
  }

  /** msgs[i] carries the context of subtask lids[i], and the replies. */
  ghost predicate AllCarry(byId: map<Id, Subtask>, idMap: IdMap, contexts: map<Id, Context>,
                           replies: map<TaskId, JsonObject>, msgs: seq<TaskMessage>, lids: seq<Id>)
  {
    && |lids| == |msgs|
    && (forall i | 0 <= i < |lids| ::
          && lids[i] in byId && lids[i] in contexts
          && Carries(contexts[lids[i]], byId[lids[i]].dependsOn, idMap, replies, msgs[i].context))
  }

  /** x is in layer k, and its context was prepared with the replies there were before wave k. */
  ghost predicate ToldAt(byId: map<Id, Subtask>, idMap: IdMap, feed: seq<seq<ReplyMessage>>, asked: seq<bool>,
                         k: nat, x: Id, c: Context)
    requires |asked| <= |feed|
  {
    && k < |asked| && InLayer(Sanitized(byId), x, k)
    && ToldWith(byId, idMap, RepliesBefore(feed, asked, k), x, c)
  }

  /** Each message was prepared in its own wave, with the replies there were before it. */
  ghost predicate ToldInTime(byId: map<Id, Subtask>, idMap: IdMap, feed: seq<seq<ReplyMessage>>, asked: seq<bool>,
                             msgs: seq<TaskMessage>, lids: seq<Id>, sentIn: seq<nat>)
    requires |lids| == |msgs| && |asked| <= |feed|
  {
    && |sentIn| == |lids|
    && (forall i | 0 <= i < |lids| :: ToldAt(byId, idMap, feed, asked, sentIn[i], lids[i], msgs[i].context))
  }

  lemma JoinMessages(idMap: IdMap, msgs: seq<TaskMessage>, lids: seq<Id>,
                     newMsgs: seq<TaskMessage>, newLids: seq<Id>)
    requires MessagesOf(idMap, msgs, lids) && MessagesOf(idMap, newMsgs, newLids)
    requires forall x | x in lids :: x !in newLids
    ensures MessagesOf(idMap, msgs + newMsgs, lids + newLids)
  {
    forall i, j | 0 <= i < j < |lids + newLids| ensures (lids + newLids)[i] != (lids + newLids)[j] {
      if i < |lids| <= j {
        assert lids[i] in lids && newLids[j - |lids|] in newLids;
      }
    }
  }

  lemma StillTold(byId: map<Id, Subtask>, idMap: IdMap, feed: seq<seq<ReplyMessage>>, asked: seq<bool>, ask: bool,
                  k: nat, x: Id, c: Context)
    requires |asked| < |feed| && ToldAt(byId, idMap, feed, asked, k, x, c)
    ensures ToldAt(byId, idMap, feed, asked + [ask], k, x, c)
  {
    assert (asked + [ask])[..k] == asked[..k];
  }

  lemma NowTold(byId: map<Id, Subtask>, idMap: IdMap, feed: seq<seq<ReplyMessage>>, asked: seq<bool>, ask: bool,
                x: Id, c: Context)
    requires |asked| < |feed| && InLayer(Sanitized(byId), x, |asked|)
    requires ToldWith(byId, idMap, RepliesBefore(feed, asked, |asked|), x, c)
    ensures ToldAt(byId, idMap, feed, asked + [ask], |asked|, x, c)
  {
    assert (asked + [ask])[..|asked|] == asked[..|asked|];
  }

  function Repeat(k: nat, n: nat): seq<nat> {
    seq(n, _ => k)
  }

  lemma JoinTold(byId: map<Id, Subtask>, idMap: IdMap, feed: seq<seq<ReplyMessage>>, asked: seq<bool>, ask: bool,
                 msgs: seq<TaskMessage>, lids: seq<Id>, sentIn: seq<nat>,
                 newMsgs: seq<TaskMessage>, newLids: seq<Id>)
    requires |lids| == |msgs| && |newLids| == |newMsgs| && |asked| < |feed|
    requires ToldInTime(byId, idMap, feed, asked, msgs, lids, sentIn)
    requires ToldBy(byId, idMap, RepliesBefore(feed, asked, |asked|), newMsgs, newLids)
    requires forall x | x in newLids :: InLayer(Sanitized(byId), x, |asked|)
    ensures ToldInTime(byId, idMap, feed, asked + [ask], msgs + newMsgs, lids + newLids,
                       sentIn + Repeat(|asked|, |newLids|))
  {
    var all, allMsgs, allIn := lids + newLids, msgs + newMsgs, sentIn + Repeat(|asked|, |newLids|);
    forall i | 0 <= i < |all|
      ensures ToldAt(byId, idMap, feed, asked + [ask], allIn[i], all[i], allMsgs[i].context)
    {
      if i < |lids| {
        StillTold(byId, idMap, feed, asked, ask, sentIn[i], lids[i], msgs[i].context);
      } else {
        var j := i - |lids|;
        assert newLids[j] in newLids;
        NowTold(byId, idMap, feed, asked, ask, newLids[j], newMsgs[j].context);
      }
    }
  }

  // ---- the loop over one wave ------------------------------------------------------------

  /** After the subtasks in `done` were looked at: a message for each unblocked one,
      a skip for each blocked one. */
  ghost predicate Prepared(byId: map<Id, Subtask>, idMap: IdMap, done: set<Id>, bad: set<Id>,
                           replies: map<TaskId, JsonObject>, msgs: seq<TaskMessage>, lids: seq<Id>,
                           skipped: set<TaskId>) {
    && MessagesOf(idMap, msgs, lids)
    && ToldBy(byId, idMap, replies, msgs, lids)
    && (forall x :: x in lids <==> x in done && !Blocked(Sanitized(byId), bad, x))
    && (forall x :: x in LocalIds(idMap, skipped) <==> x in done && Blocked(Sanitized(byId), bad, x))
    && skipped <= idMap.Values
  }

  /** A blocked subtask is skipped. */
  lemma SkipOneMore(byId: map<Id, Subtask>, idMap: IdMap, wave: seq<Subtask>, k: nat, i: nat, bad: set<Id>,
                    replies: map<TaskId, JsonObject>, msgs: seq<TaskMessage>, lids: seq<Id>, skipped: set<TaskId>)
    requires IsWave(Sanitized(byId), byId, wave, k) && i < |wave|
    requires idMap.Keys == byId.Keys && Injective(idMap)
    requires Prepared(byId, idMap, Ids(wave[..i]), bad, replies, msgs, lids, skipped)
    requires Blocked(Sanitized(byId), bad, wave[i].id)
    ensures wave[i].id in idMap
    ensures Prepared(byId, idMap, Ids(wave[..i + 1]), bad, replies, msgs, lids, skipped + {idMap[wave[i].id]})
  {
    InNextPrefix(Sanitized(byId), byId, wave, k, i);
    AddLocalId(idMap, skipped, wave[i].id);
  }

  /** The message of any other one is prepared. */
  lemma SendOneMore(byId: map<Id, Subtask>, idMap: IdMap, wave: seq<Subtask>, k: nat, i: nat, bad: set<Id>,
                    replies: map<TaskId, JsonObject>, msgs: seq<TaskMessage>, lids: seq<Id>, skipped: set<TaskId>,
                    c: Context)
    requires IsWave(Sanitized(byId), byId, wave, k) && i < |wave| && idMap.Keys == byId.Keys
    requires Prepared(byId, idMap, Ids(wave[..i]), bad, replies, msgs, lids, skipped)
    requires !Blocked(Sanitized(byId), bad, wave[i].id)
    requires ToldWith(byId, idMap, replies, wave[i].id, c)
    ensures wave[i].id in idMap
    ensures Prepared(byId, idMap, Ids(wave[..i + 1]), bad, replies, msgs + [TaskMessage(idMap[wave[i].id], c)],
                     lids + [wave[i].id], skipped)
  {
    InNextPrefix(Sanitized(byId), byId, wave, k, i);
  }

  lemma CarryOneMore(byId: map<Id, Subtask>, idMap: IdMap, contexts: map<Id, Context>,
                     replies: map<TaskId, JsonObject>, msgs: seq<TaskMessage>, lids: seq<Id>,
                     x: Id, m: TaskMessage)
    requires AllCarry(byId, idMap, contexts, replies, msgs, lids)
    requires x in byId && x in contexts && Carries(contexts[x], byId[x].dependsOn, idMap, replies, m.context)
    ensures AllCarry(byId, idMap, contexts, replies, msgs + [m], lids + [x])
  {
  }

  ghost predicate Precedes(wave: seq<Subtask>, x: Id, y: Id) {
    exists p, q | 0 <= p < q < |wave| :: wave[p].id == x && wave[q].id == y
  }

  /** The listed subtasks stand in the order of the wave. */
  ghost predicate InWaveOrder(wave: seq<Subtask>, lids: seq<Id>) {
    forall i, j | 0 <= i < j < |lids| :: Precedes(wave, lids[i], lids[j])
  }

  lemma StillPrecedes(wave: seq<Subtask>, i: nat, x: Id, y: Id)
    requires i < |wave| && Precedes(wave[..i], x, y)
    ensures Precedes(wave[..i + 1], x, y)
  {
    var p, q :| 0 <= p < q < i && wave[..i][p].id == x && wave[..i][q].id == y;
    assert wave[..i + 1][p].id == x && wave[..i + 1][q].id == y;
  }

  lemma LastIsPreceded(wave: seq<Subtask>, i: nat, x: Id)
    requires i < |wave| && x in Ids(wave[..i])
    ensures Precedes(wave[..i + 1], x, wave[i].id)
  {
    var s :| s in wave[..i] && s.id == x;
    var p :| 0 <= p < i && wave[..i][p] == s;
    assert wave[..i + 1][p].id == x && wave[..i + 1][i].id == wave[i].id;
  }

  lemma OrderOneMore(wave: seq<Subtask>, i: nat, lids: seq<Id>)
    requires i < |wave| && InWaveOrder(wave[..i], lids) && forall x | x in lids :: x in Ids(wave[..i])
    ensures InWaveOrder(wave[..i + 1], lids) && InWaveOrder(wave[..i + 1], lids + [wave[i].id])
  {
    var all := lids + [wave[i].id];
    forall a, b | 0 <= a < b < |all| ensures Precedes(wave[..i + 1], all[a], all[b]) {
      if b < |lids| {
        StillPrecedes(wave, i, lids[a], lids[b]);
      } else {
        LastIsPreceded(wave, i, lids[a]);
      }
    }
    forall a, b | 0 <= a < b < |lids| ensures Precedes(wave[..i + 1], lids[a], lids[b]) {
      StillPrecedes(wave, i, lids[a], lids[b]);
    }
  }

  lemma NotYetReplied(idMap: IdMap, replies: map<TaskId, JsonObject>, x: Id, earlier: set<Id>)
    requires LocalIds(idMap, replies.Keys) <= earlier && x in idMap && x !in earlier
    ensures idMap[x] !in replies
  {
    assert x !in LocalIds(idMap, replies.Keys);
  }

  // ---- the loop over waves -------------------------------------------------------------------

  /** The replies collected for wave k are replies to tasks of waves up to k; they may be late. */
  ghost predicate RepliesUpTo(g: Graph, idMap: IdMap, k: nat, feed: seq<ReplyMessage>) {
    LocalIds(idMap, Replied(feed)) <= Placed(g, k + 1)
  }

  /** z is hit: one of its direct dependencies had a failed reply before the k-th wave, and z's
      own wave was still to come. */
  ghost predicate HitAt(g: Graph, idMap: IdMap, feed: seq<seq<ReplyMessage>>, asked: seq<bool>, k: nat, z: Id)
    requires k <= |asked| <= |feed|
  {
    z in g && z !in Placed(g, k) && Blocked(g, LocalIds(idMap, FailedBefore(feed, asked, k)), z)
  }

  ghost predicate IsHit(g: Graph, idMap: IdMap, feed: seq<seq<ReplyMessage>>, asked: seq<bool>, z: Id)
    requires |asked| <= |feed|
  {
    exists k | 0 <= k <= |asked| :: HitAt(g, idMap, feed, asked, k, z)
  }

  ghost function Hits(g: Graph, idMap: IdMap, feed: seq<seq<ReplyMessage>>, asked: seq<bool>): set<Id>
    requires |asked| <= |feed|
  {
    set z | z in g && IsHit(g, idMap, feed, asked, z)
  }

  /** Among the nodes still to come, the hit ones are those with a dependency failed by now. */
  lemma HitsAreBlocked(g: Graph, idMap: IdMap, feed: seq<seq<ReplyMessage>>, asked: seq<bool>)
    requires |asked| <= |feed|
    ensures HitsFrom(g, Hits(g, idMap, feed, asked), LocalIds(idMap, FailedIn(AllReplies(feed, asked))), |asked|)
  {
    var n, bad := |asked|, LocalIds(idMap, FailedIn(AllReplies(feed, asked)));
    assert asked[..n] == asked;
    forall z | z in g && z !in Placed(g, n)
      ensures z in Hits(g, idMap, feed, asked) <==> Blocked(g, bad, z)
    {
      if Blocked(g, bad, z) {
        assert HitAt(g, idMap, feed, asked, n, z);
      }
      if IsHit(g, idMap, feed, asked, z) {
        var k :| 0 <= k <= n && HitAt(g, idMap, feed, asked, k, z);
        StillKnown(feed, asked, k);
        FewerLocals(idMap, FailedBefore(feed, asked, k), FailedIn(AllReplies(feed, asked)));
      }
    }
  }

  /** One wave later the old hits are still hits, and new ones are still to come. */
  lemma HitsGrow(g: Graph, idMap: IdMap, feed: seq<seq<ReplyMessage>>, asked: seq<bool>, ask: bool)
    returns (more: set<Id>)
    requires |asked| < |feed|
    ensures Hits(g, idMap, feed, asked + [ask]) == Hits(g, idMap, feed, asked) + more
    ensures forall z | z in more :: z !in Placed(g, |asked| + 1)
    ensures !ask ==> Hits(g, idMap, feed, asked + [ask]) == Hits(g, idMap, feed, asked)
  {
    var n, later := |asked|, asked + [ask];
    more := set z | z in g && HitAt(g, idMap, feed, later, n + 1, z);
    forall k, z | 0 <= k <= n ensures HitAt(g, idMap, feed, later, k, z) <==> HitAt(g, idMap, feed, asked, k, z) {
      assert later[..k] == asked[..k];
    }
    forall z ensures z in Hits(g, idMap, feed, later) <==> z in Hits(g, idMap, feed, asked) + more {
      if IsHit(g, idMap, feed, later, z) {
        var k :| 0 <= k <= n + 1 && HitAt(g, idMap, feed, later, k, z);
        assert k <= n ==> HitAt(g, idMap, feed, asked, k, z);
      }
      if IsHit(g, idMap, feed, asked, z) {
        var k :| 0 <= k <= n && HitAt(g, idMap, feed, asked, k, z);
        assert HitAt(g, idMap, feed, later, k, z);
      }
      if z in more {
        assert HitAt(g, idMap, feed, later, n + 1, z);
      }
    }
    if !ask {
      forall z | z in more ensures z in Hits(g, idMap, feed, asked) {
        assert later[..n + 1] == later && asked[..n] == asked;
        OneMoreWave(feed, asked, ask);
        PlacedGrows(g, n, n + 1);
        assert HitAt(g, idMap, feed, asked, n, z);
      }
    }
  }

  /** asked[k]: wave k had something to dispatch, so its replies were collected. `marked`
      are the tasks written as failed; `lids` the subtasks of `sent`, and `sentIn` their waves. */
  datatype RunResult = RunResult(reached: nat, sent: seq<TaskMessage>, lids: seq<Id>, sentIn: seq<nat>,
                                 skipped: set<TaskId>, bad: set<TaskId>, marked: set<TaskId>,
                                 replies: map<TaskId, JsonObject>, asked: seq<bool>)

  /** A further wave in which these messages were sent and these tasks skipped. */
  function WithWave(r: RunResult, msgs: seq<TaskMessage>, lids: seq<Id>, skipped: set<TaskId>): RunResult {
    r.(reached := r.reached + 1, sent := r.sent + msgs, lids := r.lids + lids,
       sentIn := r.sentIn + Repeat(|r.asked|, |lids|), skipped := r.skipped + skipped,
       marked := r.marked + skipped, asked := r.asked + [msgs != []])
  }

  /** In the first n waves exactly the struck subtasks were skipped, exactly the others were
      sent; and all struck subtasks are marked failed. */
  ghost predicate Sorted(g: Graph, idMap: IdMap, n: nat, struck: set<Id>,
                         skipped: set<TaskId>, marked: set<TaskId>, lids: seq<Id>) {
    && LocalIds(idMap, skipped) == struck * Placed(g, n)
    && LocalIds(idMap, marked) == struck
    && skipped <= idMap.Values && marked <= idMap.Values
    && (forall x :: x in lids <==> x in Placed(g, n) && x !in struck)
  }

  /** The waves of r.asked were prepared, with these hits. */
  ghost predicate Progress(byId: map<Id, Subtask>, idMap: IdMap, feed: seq<seq<ReplyMessage>>, hit: set<Id>,
                           r: RunResult)
    requires |r.asked| <= |feed|
  {
    && Sorted(Sanitized(byId), idMap, |r.asked|, Struck(Sanitized(byId), hit), r.skipped, r.marked, r.lids)
    && MessagesOf(idMap, r.sent, r.lids)
    && ToldInTime(byId, idMap, feed, r.asked, r.sent, r.lids, r.sentIn)
  }

  ghost predicate SentIn(wave: seq<Subtask>, lids: seq<Id>) {
    exists x :: x in lids && x in Ids(wave)
  }

  /** Replies were collected for exactly the waves in which something was sent. */
  ghost predicate AskedWhenSent(waves: seq<seq<Subtask>>, lids: seq<Id>, asked: seq<bool>) {
    && |asked| <= |waves|
    && (forall k | 0 <= k < |asked| :: asked[k] <==> SentIn(waves[k], lids))
  }

  ghost predicate RunSoFar(byId: map<Id, Subtask>, waves: seq<seq<Subtask>>, idMap: IdMap,
                           feed: seq<seq<ReplyMessage>>, r: RunResult) {
    && r.reached == |r.asked| <= |feed| == |waves|
    && r.bad == FailedIn(AllReplies(feed, r.asked))
    && r.replies == Absorbed(map[], AllReplies(feed, r.asked))
    && LocalIds(idMap, r.replies.Keys + r.bad) <= Placed(Sanitized(byId), r.reached)
    && Progress(byId, idMap, feed, Hits(Sanitized(byId), idMap, feed, r.asked), r)
    && AskedWhenSent(waves, r.lids, r.asked)
  }

  // ---- preparing one more wave -----------------------------------------------------------------

  /** Before wave n, a member is struck exactly when a dependency failed or was skipped. */
  lemma StruckMeansBlocked(g: Graph, hit: set<Id>, skipped: set<Id>, bad: set<Id>, n: nat, x: Id)
    requires Closed(g) && hit <= g.Keys && HitsFrom(g, hit, bad, n)
    requires skipped == Struck(g, hit) * Placed(g, n) && InLayer(g, x, n)
    ensures x in Struck(g, hit) <==> Blocked(g, skipped + bad, x)
  {
    StruckStep(g, hit, x);
    BlockedLooksBack(g, skipped, Struck(g, hit), n, x);
    if Blocked(g, skipped + bad, x) {
      var d :| d in g[x] && d in skipped + bad;
      if d in bad {
        assert Blocked(g, bad, x);
      } else {
        assert Blocked(g, skipped, x);
      }
    }
    if x in Struck(g, hit) {
      if x in hit {
        var d :| d in g[x] && d in bad;
      } else {
        var d :| d in g[x] && d in skipped;
      }
    }
  }

  /** Preparing wave n skips its struck members and sends the others. */
  lemma PreparedIsStruck(byId: map<Id, Subtask>, idMap: IdMap, hit: set<Id>, n: nat, wave: seq<Subtask>,
                         skipped: set<TaskId>, bad: set<TaskId>, replies: map<TaskId, JsonObject>,
                         msgs: seq<TaskMessage>, lids: seq<Id>, newSkipped: set<TaskId>)
    requires IsWave(Sanitized(byId), byId, wave, n)
    requires hit <= byId.Keys && HitsFrom(Sanitized(byId), hit, LocalIds(idMap, bad), n)
    requires LocalIds(idMap, skipped) == Struck(Sanitized(byId), hit) * Placed(Sanitized(byId), n)
    requires Prepared(byId, idMap, Ids(wave), LocalIds(idMap, skipped + bad), replies, msgs, lids, newSkipped)
    ensures forall x :: x in lids <==> x in Ids(wave) && x !in Struck(Sanitized(byId), hit)
    ensures LocalIds(idMap, newSkipped) == Ids(wave) * Struck(Sanitized(byId), hit)
  {
    var g := Sanitized(byId);
    UnionOfLocals(idMap, skipped, bad);
    forall x | x in Ids(wave)
      ensures Blocked(g, LocalIds(idMap, skipped + bad), x) <==> x in Struck(g, hit)
    {
      assert InLayer(g, x, n);
      StruckMeansBlocked(g, hit, LocalIds(idMap, skipped), LocalIds(idMap, bad), n, x);
    }
    forall x ensures x in lids <==> x in Ids(wave) && x !in Struck(g, hit) {
    }
    forall x ensures x in LocalIds(idMap, newSkipped) <==> x in Ids(wave) * Struck(g, hit) {
    }
  }

  lemma SortOneMore(g: Graph, idMap: IdMap, n: nat, struck: set<Id>, ids: set<Id>,
                    skipped: set<TaskId>, marked: set<TaskId>, lids: seq<Id>,
                    newSkipped: set<TaskId>, newLids: seq<Id>)
    requires Sorted(g, idMap, n, struck, skipped, marked, lids)
    requires Placed(g, n) + ids == Placed(g, n + 1)
    requires forall x :: x in newLids <==> x in ids && x !in struck
    requires LocalIds(idMap, newSkipped) == ids * struck && newSkipped <= idMap.Values
    ensures Sorted(g, idMap, n + 1, struck, skipped + newSkipped, marked + newSkipped, lids + newLids)
  {
    UnionOfLocals(idMap, skipped, newSkipped);
    UnionOfLocals(idMap, marked, newSkipped);
    assert struck * Placed(g, n) + ids * struck == struck * (Placed(g, n) + ids);
    forall x ensures x in lids + newLids <==> x in Placed(g, n + 1) && x !in struck {
      assert x in lids + newLids <==> x in lids || x in newLids;
      assert x in Placed(g, n + 1) <==> x in Placed(g, n) || x in ids;
    }
  }

  lemma JoinMore(byId: map<Id, Subtask>, idMap: IdMap, feed: seq<seq<ReplyMessage>>, wave: seq<Subtask>,
                 r: RunResult, msgs: seq<TaskMessage>, lids: seq<Id>, ask: bool)
    requires |r.asked| < |feed| && IsWave(Sanitized(byId), byId, wave, |r.asked|)
    requires MessagesOf(idMap, r.sent, r.lids) && MessagesOf(idMap, msgs, lids)
    requires ToldInTime(byId, idMap, feed, r.asked, r.sent, r.lids, r.sentIn)
    requires ToldBy(byId, idMap, RepliesBefore(feed, r.asked, |r.asked|), msgs, lids)
    requires forall x | x in lids :: x in Ids(wave)
    requires forall x | x in r.lids :: x in Placed(Sanitized(byId), |r.asked|)
    ensures MessagesOf(idMap, r.sent + msgs, r.lids + lids)
    ensures ToldInTime(byId, idMap, feed, r.asked + [ask], r.sent + msgs, r.lids + lids,
                       r.sentIn + Repeat(|r.asked|, |lids|))
  {
    forall x | x in lids ensures InLayer(Sanitized(byId), x, |r.asked|) {
    }
    JoinMessages(idMap, r.sent, r.lids, msgs, lids);
    JoinTold(byId, idMap, feed, r.asked, ask, r.sent, r.lids, r.sentIn, msgs, lids);
  }

  lemma StillSorted(byId: map<Id, Subtask>, idMap: IdMap, replies: map<TaskId, JsonObject>, hit: set<Id>,
                    wave: seq<Subtask>, bad: set<TaskId>, r: RunResult,
                    msgs: seq<TaskMessage>, lids: seq<Id>, newSkipped: set<TaskId>)
    requires var g := Sanitized(byId);
             Sorted(g, idMap, |r.asked|, Struck(g, hit), r.skipped, r.marked, r.lids)
    requires hit <= byId.Keys && HitsFrom(Sanitized(byId), hit, LocalIds(idMap, bad), |r.asked|)
    requires IsWave(Sanitized(byId), byId, wave, |r.asked|)
    requires Prepared(byId, idMap, Ids(wave), LocalIds(idMap, r.skipped + bad), replies, msgs, lids, newSkipped)
    ensures var g, next := Sanitized(byId), WithWave(r, msgs, lids, newSkipped);
            Sorted(g, idMap, |next.asked|, Struck(g, hit), next.skipped, next.marked, next.lids)
  {
    var g, n := Sanitized(byId), |r.asked|;
    LayerComplete(g, byId, wave, n);
    PreparedIsStruck(byId, idMap, hit, n, wave, r.skipped, bad, replies, msgs, lids, newSkipped);
    SortOneMore(g, idMap, n, Struck(g, hit), Ids(wave), r.skipped, r.marked, r.lids, newSkipped, lids);
  }

  lemma AfterPrepare(byId: map<Id, Subtask>, idMap: IdMap, feed: seq<seq<ReplyMessage>>, hit: set<Id>,
                     wave: seq<Subtask>, bad: set<TaskId>, r: RunResult,
                     msgs: seq<TaskMessage>, lids: seq<Id>, newSkipped: set<TaskId>)
    requires |r.asked| < |feed| && Progress(byId, idMap, feed, hit, r)
    requires hit <= byId.Keys && HitsFrom(Sanitized(byId), hit, LocalIds(idMap, bad), |r.asked|)
    requires IsWave(Sanitized(byId), byId, wave, |r.asked|)
    requires Prepared(byId, idMap, Ids(wave), LocalIds(idMap, r.skipped + bad),
                      RepliesBefore(feed, r.asked, |r.asked|), msgs, lids, newSkipped)
    ensures Progress(byId, idMap, feed, hit, WithWave(r, msgs, lids, newSkipped))
  {
    StillSorted(byId, idMap, RepliesBefore(feed, r.asked, |r.asked|), hit, wave, bad, r, msgs, lids, newSkipped);
    JoinMore(byId, idMap, feed, wave, r, msgs, lids, msgs != []);
  }

  lemma SentInNow(wave: seq<Subtask>, lids: seq<Id>, newLids: seq<Id>)
    requires forall x | x in newLids :: x in Ids(wave)
    requires forall x | x in lids :: x !in Ids(wave)
    ensures SentIn(wave, lids + newLids) <==> newLids != []
  {
    if newLids != [] {
      var x := newLids[0];
      assert x in newLids && x in Ids(wave) && x in lids + newLids;
    } else {
      assert lids + newLids == lids;
    }
  }

  lemma SentInBefore(wave: seq<Subtask>, lids: seq<Id>, newLids: seq<Id>)
    requires forall x | x in newLids :: x !in Ids(wave)
    ensures SentIn(wave, lids + newLids) <==> SentIn(wave, lids)
  {
    if SentIn(wave, lids) {
      var x :| x in lids && x in Ids(wave);
      assert x in lids + newLids;
    }
  }

  lemma EarlierWaveUnsent(byId: map<Id, Subtask>, waves: seq<seq<Subtask>>, j: nat, k: nat, newLids: seq<Id>)
    requires IsWaves(Sanitized(byId), byId, waves) && j < k < |waves|
    requires forall x | x in newLids :: x in Ids(waves[k])
    ensures forall x | x in newLids :: x !in Ids(waves[j])
  {
    var g := Sanitized(byId);
    assert IsWave(g, byId, waves[k], k) && IsWave(g, byId, waves[j], j);
    PlacedGrows(g, j + 1, k);
  }

  lemma AskedStep(byId: map<Id, Subtask>, waves: seq<seq<Subtask>>, lids: seq<Id>, asked: seq<bool>,
                  newLids: seq<Id>)
    requires IsWaves(Sanitized(byId), byId, waves) && |asked| < |waves|
    requires AskedWhenSent(waves, lids, asked)
    requires forall x | x in lids :: x !in Ids(waves[|asked|])
    requires forall x | x in newLids :: x in Ids(waves[|asked|])
    ensures AskedWhenSent(waves, lids + newLids, asked + [newLids != []])
  {
    var k := |asked|;
    SentInNow(waves[k], lids, newLids);
    forall j | 0 <= j < k ensures SentIn(waves[j], lids + newLids) <==> SentIn(waves[j], lids) {
      EarlierWaveUnsent(byId, waves, j, k, newLids);
      SentInBefore(waves[j], lids, newLids);
    }
  }

  /** Preparing and sending one wave, seen from the whole run. */
  lemma AfterDispatch(byId: map<Id, Subtask>, waves: seq<seq<Subtask>>, idMap: IdMap, feed: seq<seq<ReplyMessage>>,
                      r: RunResult, msgs: seq<TaskMessage>, lids: seq<Id>, newSkipped: set<TaskId>)
    requires Plan(byId, waves, idMap) && RunSoFar(byId, waves, idMap, feed, r) && r.reached < |waves|
    requires Prepared(byId, idMap, Ids(waves[r.reached]), LocalIds(idMap, r.skipped + r.bad), r.replies,
                      msgs, lids, newSkipped)
    ensures var next := WithWave(r, msgs, lids, newSkipped);
            && Progress(byId, idMap, feed, Hits(Sanitized(byId), idMap, feed, r.asked), next)
            && AskedWhenSent(waves, next.lids, next.asked)
  {
    var g, k := Sanitized(byId), r.reached;
    assert IsWave(g, byId, waves[k], k) && r.asked[..k] == r.asked;
    HitsAreBlocked(g, idMap, feed, r.asked);
    AfterPrepare(byId, idMap, feed, Hits(g, idMap, feed, r.asked), waves[k], r.bad, r,
                 msgs, lids, newSkipped);
    forall x | x in r.lids ensures x !in Ids(waves[k]) {
      assert x in Placed(g, k);
    }
    AskedStep(byId, waves, r.lids, r.asked, lids);
  }

  /** Nothing failed or replied so far but what the earlier waves sent or skipped. */
  lemma ReadyToPrepare(byId: map<Id, Subtask>, waves: seq<seq<Subtask>>, idMap: IdMap,
                       feed: seq<seq<ReplyMessage>>, r: RunResult)
    requires Plan(byId, waves, idMap) && RunSoFar(byId, waves, idMap, feed, r) && r.reached < |waves|
    ensures IsWave(Sanitized(byId), byId, waves[r.reached], r.reached)
    ensures LocalIds(idMap, r.skipped + r.bad) <= Placed(Sanitized(byId), r.reached)
    ensures LocalIds(idMap, r.replies.Keys) <= Placed(Sanitized(byId), r.reached)
    ensures |r.lids| == |r.sent|
  {
    UnionOfLocals(idMap, r.skipped, r.bad);
    UnionOfLocals(idMap, r.replies.Keys, r.bad);
  }

  // ---- collecting and propagating ----------------------------------------------------------------

  lemma NothingLaterFailed(byId: map<Id, Subtask>, idMap: IdMap, n: nat, failed: set<TaskId>)
    requires idMap.Keys == byId.Keys
    requires LocalIds(idMap, failed) <= Placed(Sanitized(byId), n)
    ensures forall x | x in byId && x !in Placed(Sanitized(byId), n) :: idMap[x] !in failed
  {
    forall x | x in byId && x !in Placed(Sanitized(byId), n) ensures idMap[x] !in failed {
      assert x !in LocalIds(idMap, failed);
    }
  }

  /** After the replies of wave n - 1: what is marked plus what the propagation finds is what
      is struck now. */
  lemma AfterPropagate(g: Graph, idMap: IdMap, feed: seq<seq<ReplyMessage>>, asked: seq<bool>, ask: bool,
                       skipped: set<Id>, bad: set<Id>)
    requires Closed(g) && |asked| < |feed| && bad <= g.Keys
    requires skipped == Struck(g, Hits(g, idMap, feed, asked)) * Placed(g, |asked| + 1)
    requires bad == LocalIds(idMap, FailedIn(AllReplies(feed, asked + [ask])))
    ensures var n, was, now := |asked| + 1, Hits(g, idMap, feed, asked), Hits(g, idMap, feed, asked + [ask]);
            && Struck(g, now) * Placed(g, n) == Struck(g, was) * Placed(g, n)
            && Struck(g, was) + Affected(LaterPart(g, n), skipped + bad) == Struck(g, now)
  {
    var n, was, now := |asked| + 1, Hits(g, idMap, feed, asked), Hits(g, idMap, feed, asked + [ask]);
    var more := HitsGrow(g, idMap, feed, asked, ask);
    LaterHits(g, was, more, n);
    HitsAreBlocked(g, idMap, feed, asked + [ask]);
    PropagationFindsStruck(g, now, skipped, bad, n);
    forall x | x in Struck(g, now) && x in Placed(g, n) ensures x in Struck(g, was) {
      assert x in Struck(g, now) * Placed(g, n);
    }
  }

  lemma NothingFailedYet(g: Graph, idMap: IdMap, feed: seq<seq<ReplyMessage>>, asked: seq<bool>)
    requires |asked| <= |feed| && FailedIn(AllReplies(feed, asked)) == {}
    ensures Hits(g, idMap, feed, asked) == {}
  {
    forall z | z in g ensures !IsHit(g, idMap, feed, asked, z) {
      forall k | 0 <= k <= |asked| ensures !HitAt(g, idMap, feed, asked, k, z) {
        StillKnown(feed, asked, k);
        assert FailedBefore(feed, asked, k) == {};
      }
    }
  }

  /** What is known after one more wave of replies concerns waves already dispatched. */
  lemma KnownReplies(g: Graph, idMap: IdMap, k: nat, all: map<TaskId, JsonObject>, bad: set<TaskId>,
                     feed: seq<ReplyMessage>)
    requires LocalIds(idMap, all.Keys + bad) <= Placed(g, k) && RepliesUpTo(g, idMap, k, feed)
    ensures LocalIds(idMap, Absorbed(all, feed).Keys) <= Placed(g, k + 1)
    ensures LocalIds(idMap, bad + FailedIn(feed)) <= Placed(g, k + 1)
    ensures LocalIds(idMap, Absorbed(all, feed).Keys + (bad + FailedIn(feed))) <= Placed(g, k + 1)
  {
    var later := Absorbed(all, feed).Keys + (bad + FailedIn(feed));
    AbsorbedAnswers(all, feed);
    PlacedGrows(g, k, k + 1);
    assert FailedIn(feed) <= Replied(feed);
    forall x | x in LocalIds(idMap, later) ensures x in Placed(g, k + 1) {
      if idMap[x] in all.Keys + bad {
        assert x in LocalIds(idMap, all.Keys + bad);
      } else {
        assert x in LocalIds(idMap, Replied(feed));
      }
    }
    FewerLocals(idMap, Absorbed(all, feed).Keys, later);
    FewerLocals(idMap, bad + FailedIn(feed), later);
  }

  /** A wave in which nothing was sent changes nothing else. */
  lemma NothingCollected(byId: map<Id, Subtask>, waves: seq<seq<Subtask>>, idMap: IdMap,
                         feed: seq<seq<ReplyMessage>>, r: RunResult, next: RunResult)
    requires RunSoFar(byId, waves, idMap, feed, r) && r.reached < |waves|
    requires next.reached == r.reached + 1 && next.asked == r.asked + [false]
    requires next.bad == r.bad && next.replies == r.replies
    requires Progress(byId, idMap, feed, Hits(Sanitized(byId), idMap, feed, r.asked), next)
    requires AskedWhenSent(waves, next.lids, next.asked)
    ensures RunSoFar(byId, waves, idMap, feed, next)
  {
    var g := Sanitized(byId);
    OneMoreWave(feed, r.asked, false);
    var more := HitsGrow(g, idMap, feed, r.asked, false);
    PlacedGrows(g, r.reached, r.reached + 1);
  }

  /** Progress depends on the hits only through what is struck. */
  lemma SameProgress(byId: map<Id, Subtask>, idMap: IdMap, feed: seq<seq<ReplyMessage>>, was: set<Id>, now: set<Id>,
                     r: RunResult, marked: set<TaskId>, bad: set<TaskId>, replies: map<TaskId, JsonObject>)
    requires |r.asked| <= |feed| && Progress(byId, idMap, feed, was, r)
    requires Struck(Sanitized(byId), now) * Placed(Sanitized(byId), |r.asked|)
             == Struck(Sanitized(byId), was) * Placed(Sanitized(byId), |r.asked|)
    requires LocalIds(idMap, marked) == Struck(Sanitized(byId), now) && marked <= idMap.Values
    ensures Progress(byId, idMap, feed, now, r.(bad := bad, replies := replies, marked := marked))
  {
    var g, n := Sanitized(byId), |r.asked|;
    forall x | x in Placed(g, n) ensures x in Struck(g, now) <==> x in Struck(g, was) {
      assert x in Struck(g, now) * Placed(g, n) <==> x in Struck(g, was) * Placed(g, n);
    }
  }

  lemma AfterCollect(byId: map<Id, Subtask>, waves: seq<seq<Subtask>>, idMap: IdMap,
                     feed: seq<seq<ReplyMessage>>, asked: seq<bool>, r: RunResult, found: set<TaskId>)
    requires |asked| < |waves| == |feed| && idMap.Keys == byId.Keys
    requires r.asked == asked + [true] && r.reached == |r.asked|
    requires r.bad == FailedIn(AllReplies(feed, asked)) && r.replies == Absorbed(map[], AllReplies(feed, asked))
    requires LocalIds(idMap, r.replies.Keys + r.bad) <= Placed(Sanitized(byId), |asked|)
    requires RepliesUpTo(Sanitized(byId), idMap, |asked|, feed[|asked|])
    requires Progress(byId, idMap, feed, Hits(Sanitized(byId), idMap, feed, asked), r)
    requires AskedWhenSent(waves, r.lids, r.asked)
    requires found <= idMap.Values
             && LocalIds(idMap, found) == Affected(LaterPart(Sanitized(byId), r.reached),
                                                   LocalIds(idMap, r.skipped + (r.bad + FailedIn(feed[|asked|]))))
    ensures RunSoFar(byId, waves, idMap, feed,
                     r.(bad := r.bad + FailedIn(feed[|asked|]), replies := Absorbed(r.replies, feed[|asked|]),
                        marked := r.marked + found))
  {
    var g, bad := Sanitized(byId), r.bad + FailedIn(feed[|asked|]);
    OneMoreWave(feed, asked, true);
    KnownReplies(g, idMap, |asked|, r.replies, r.bad, feed[|asked|]);
    UnionOfLocals(idMap, r.skipped, bad);
    UnionOfLocals(idMap, r.marked, found);
    AfterPropagate(g, idMap, feed, asked, true, LocalIds(idMap, r.skipped), LocalIds(idMap, bad));
    SameProgress(byId, idMap, feed, Hits(g, idMap, feed, asked), Hits(g, idMap, feed, r.asked), r,
                 r.marked + found, bad, Absorbed(r.replies, feed[|asked|]));
  }

  lemma RunStarts(byId: map<Id, Subtask>, waves: seq<seq<Subtask>>, idMap: IdMap, feed: seq<seq<ReplyMessage>>)
    requires |feed| == |waves|
    ensures RunSoFar(byId, waves, idMap, feed, RunResult(0, [], [], [], {}, {}, {}, map[], []))
  {
    NothingFailedYet(Sanitized(byId), idMap, feed, []);
    NothingStruck(Sanitized(byId));
  }

  lemma NewPart<T>(sent: seq<T>, more: seq<T>)
    ensures (sent + more)[|sent|..] == more
  {
  }

  lemma NothingMarked(idMap: IdMap, tasks: TaskTable)
    ensures LocalIds(idMap, {}) == {} && MarkedFailed(tasks, {}) == tasks
  {
  }

  lemma WaveOf(byId: map<Id, Subtask>, waves: seq<seq<Subtask>>, idMap: IdMap, j: nat)
    requires Plan(byId, waves, idMap) && j < |waves|
    ensures IsWave(Sanitized(byId), byId, waves[j], j)
  {
  }

  lemma NewWaveOf(r: RunResult, msgs: seq<TaskMessage>, lids: seq<Id>, skipped: set<TaskId>)
    requires |r.lids| == |r.sent| == |r.sentIn| && r.reached == |r.asked| && |lids| == |msgs|
    ensures var next := WithWave(r, msgs, lids, skipped);
            && next.reached == r.reached + 1 && next.asked == r.asked + [next.sent != r.sent]
            && next.bad == r.bad && next.replies == r.replies
            && r.sent <= next.sent && next.sentIn == r.sentIn + Repeat(r.reached, |next.sent| - |r.sent|)
            && r.lids <= next.lids && r.marked <= next.marked
            && next.sent[|r.sent|..] == msgs && next.lids[|r.sent|..] == lids
  {
    NewPart(r.sent, msgs);
    NewPart(r.lids, lids);
  }

  /** The run r, extended by a prepared wave. */
  ghost predicate Prepares(byId: map<Id, Subtask>, waves: seq<seq<Subtask>>, idMap: IdMap, contexts: map<Id, Context>,
                           feed: seq<seq<ReplyMessage>>, r: RunResult, next: RunResult)
    requires r.reached < |waves| && |r.asked| < |feed| && byId.Keys <= contexts.Keys && idMap.Keys == byId.Keys
  {
    && next.reached == r.reached + 1 && next.asked == r.asked + [next.sent != r.sent]
    && next.bad == r.bad && next.replies == r.replies
    && r.sent <= next.sent && next.sentIn == r.sentIn + Repeat(r.reached, |next.sent| - |r.sent|)
    && Progress(byId, idMap, feed, Hits(Sanitized(byId), idMap, feed, r.asked), next)
    && AskedWhenSent(waves, next.lids, next.asked)
    && r.lids <= next.lids && |r.lids| == |r.sent| && r.marked <= next.marked
    && AllCarry(byId, idMap, contexts, r.replies, next.sent[|r.sent|..], next.lids[|r.sent|..])
    && InWaveOrder(waves[r.reached], next.lids[|r.sent|..])
  }

  lemma NextWave(byId: map<Id, Subtask>, waves: seq<seq<Subtask>>, idMap: IdMap, contexts: map<Id, Context>,
                 feed: seq<seq<ReplyMessage>>, r: RunResult, msgs: seq<TaskMessage>, lids: seq<Id>,
                 skipped: set<TaskId>)
    requires Plan(byId, waves, idMap) && RunSoFar(byId, waves, idMap, feed, r) && r.reached < |waves|
    requires byId.Keys <= contexts.Keys
    requires Prepared(byId, idMap, Ids(waves[r.reached]), LocalIds(idMap, r.skipped + r.bad), r.replies,
                      msgs, lids, skipped)
    requires AllCarry(byId, idMap, contexts, r.replies, msgs, lids) && InWaveOrder(waves[r.reached], lids)
    ensures Prepares(byId, waves, idMap, contexts, feed, r, WithWave(r, msgs, lids, skipped))
  {
    AfterDispatch(byId, waves, idMap, feed, r, msgs, lids, skipped);
    NewWaveOf(r, msgs, lids, skipped);
    var next := WithWave(r, msgs, lids, skipped);
    assert next.sent[|r.sent|..] == msgs && next.lids[|r.sent|..] == lids;
  }

  lemma Regroup(before: seq<TaskMessage>, sent: seq<TaskMessage>, more: seq<TaskMessage>)
    requires sent <= more
    ensures before + sent + more[|sent|..] == before + more
  {
    assert sent + more[|sent|..] == more;
  }

  class SchedulingAgent {
    var tasks: TaskTable           // rows written through task_repo
    var outbox: seq<TaskMessage>   // dispatch rows written by dispatch_subtasks, in order

    constructor (tasks: TaskTable)
      ensures this.tasks == tasks && outbox == []
    {
      this.tasks, outbox := tasks, [];
    }

    /** `_propagate_failure`: one pass over the waves from `start` on. */
    method PropagateFailure(byId: map<Id, Subtask>, waves: seq<seq<Subtask>>, idMap: IdMap,
                            failed: set<TaskId>, start: nat)
      returns (skipped: set<TaskId>)
      requires Plan(byId, waves, idMap) && start <= |waves|
      requires forall x | x in byId && x !in Placed(Sanitized(byId), start) :: idMap[x] !in failed
      modifies this`tasks
      ensures LocalIds(idMap, skipped)
              == Affected(LaterPart(Sanitized(byId), start), LocalIds(idMap, failed))
      ensures skipped <= idMap.Values
      ensures tasks == MarkedFailed(old(tasks), skipped)
      ensures forall t | t in old(tasks) ::
                t in tasks && tasks[t] == if t in skipped then Failed else old(tasks)[t]
    {
      ghost var g, bad := Sanitized(byId), LocalIds(idMap, failed);
      ghost var affected := Affected(LaterPart(g, start), bad);
      NothingEarlierAffected(g, bad, start);
      NothingMarked(idMap, tasks);
      skipped := {};
      for j := start to |waves|
        invariant LocalIds(idMap, skipped) == affected * Placed(g, j)
        invariant skipped <= idMap.Values && tasks == MarkedFailed(old(tasks), skipped)
      {
        WaveOf(byId, waves, idMap, j);
        skipped := PropagateIntoWave(byId, waves[j], idMap, failed, start, skipped, j, old(tasks));
      }
      AffectedAreNodes(g, start, bad, |waves|);
    }

    /** The inner loop over one later wave. */
    method PropagateIntoWave(byId: map<Id, Subtask>, wave: seq<Subtask>, idMap: IdMap,
                             failed: set<TaskId>, ghost start: nat, before: set<TaskId>,
                             ghost j: nat, ghost initial: TaskTable)
      returns (skipped: set<TaskId>)
      requires idMap.Keys == byId.Keys && Injective(idMap) && start <= j
      requires IsWave(Sanitized(byId), byId, wave, j)
      requires forall x | x in byId && x !in Placed(Sanitized(byId), start) :: idMap[x] !in failed
      requires LocalIds(idMap, before)
               == Affected(LaterPart(Sanitized(byId), start), LocalIds(idMap, failed))
                  * Placed(Sanitized(byId), j)
      requires before <= idMap.Values && tasks == MarkedFailed(initial, before)
      modifies this`tasks
      ensures LocalIds(idMap, skipped)
              == Affected(LaterPart(Sanitized(byId), start), LocalIds(idMap, failed))
                 * Placed(Sanitized(byId), j + 1)
      ensures skipped <= idMap.Values && tasks == MarkedFailed(initial, skipped)
    {
      ghost var g := Sanitized(byId);
      ghost var affected := Affected(LaterPart(g, start), LocalIds(idMap, failed));
      skipped := before;
      for i := 0 to |wave|
        invariant LocalIds(idMap, skipped) == affected * (Placed(g, j) + Ids(wave[..i]))
        invariant skipped <= idMap.Values && tasks == MarkedFailed(initial, skipped)
      {
        var sub := wave[i];
        InNextPrefix(g, byId, wave, j, i);
        PropagationTest(byId, idMap, failed, skipped, start, j, wave, i);
        OneMoreSkipped(idMap, skipped, affected, Placed(g, j), Ids(wave[..i]), sub.id);
        if AnyIn(sub.dependsOn, idMap, failed + skipped) {
          var tid := idMap[sub.id];
          MarkOneMore(initial, skipped, tid);
          tasks := Mark(tasks, tid, Failed);
          skipped := skipped + {tid};
        }
      }
      assert wave[..|wave|] == wave;
      LayerComplete(g, byId, wave, j);
    }

    /** The loop over one wave: skip the subtasks with a failed predecessor, prepare a
        message for each of the others. The context of a message holds the server and role
        associated with its subtask. */
    method PrepareWave(byId: map<Id, Subtask>, wave: seq<Subtask>, idMap: IdMap,
                       contexts: map<Id, Context>, failed: set<TaskId>,
                       replies: map<TaskId, JsonObject>, ghost k: nat)
      returns (msgs: seq<TaskMessage>, lids: seq<Id>, skipped: set<TaskId>)
      requires idMap.Keys == byId.Keys && Injective(idMap)
      requires byId.Keys <= contexts.Keys && forall x | x in contexts :: contexts[x].upstream.None?
      requires IsWave(Sanitized(byId), byId, wave, k)
      requires LocalIds(idMap, failed) <= Placed(Sanitized(byId), k)
      requires LocalIds(idMap, replies.Keys) <= Placed(Sanitized(byId), k)
      modifies this`tasks
      ensures Prepared(byId, idMap, Ids(wave), LocalIds(idMap, failed), replies, msgs, lids, skipped)
      ensures AllCarry(byId, idMap, contexts, replies, msgs, lids) && InWaveOrder(wave, lids)
      ensures tasks == MarkedFailed(old(tasks), skipped)
      ensures forall t | t in old(tasks) ::
                t in tasks && tasks[t] == if t in skipped then Failed else old(tasks)[t]
    {
      ghost var g, bad := Sanitized(byId), LocalIds(idMap, failed);
      msgs, lids, skipped := [], [], {};
      for i := 0 to |wave|
        invariant Prepared(byId, idMap, Ids(wave[..i]), bad, replies, msgs, lids, skipped)
        invariant AllCarry(byId, idMap, contexts, replies, msgs, lids) && InWaveOrder(wave[..i], lids)
        invariant tasks == MarkedFailed(old(tasks), skipped)
      {
        var sub := wave[i];
        InNextPrefix(g, byId, wave, k, i);
        var tid := idMap[sub.id];
        PreparationTest(byId, idMap, failed, skipped, k, wave, i);
        OrderOneMore(wave, i, lids);
        if AnyIn(sub.dependsOn, idMap, failed + skipped) {
          SkipOneMore(byId, idMap, wave, k, i, bad, replies, msgs, lids, skipped);
          MarkOneMore(old(tasks), skipped, tid);
          tasks := Mark(tasks, tid, Failed);
          skipped := skipped + {tid};
        } else {
          var c := InjectUpstream(contexts[sub.id], sub.dependsOn, idMap, replies);
          NotYetReplied(idMap, replies, sub.id, Placed(g, k));
          MessageIsInjected(byId, idMap, replies, sub.id, c);
          SendOneMore(byId, idMap, wave, k, i, bad, replies, msgs, lids, skipped, c);
          InjectedCarries(contexts[sub.id], sub.dependsOn, idMap, replies, c);
          CarryOneMore(byId, idMap, contexts, replies, msgs, lids, sub.id, TaskMessage(tid, c));
          msgs := msgs + [TaskMessage(tid, c)];
          lids := lids + [sub.id];
        }
      }
      assert wave[..|wave|] == wave;
    }

    /** The loop over the replies of one wave. */
    method AbsorbReplies(all: map<TaskId, JsonObject>, bad: set<TaskId>, feed: seq<ReplyMessage>)
      returns (all': map<TaskId, JsonObject>, bad': set<TaskId>)
      ensures all' == Absorbed(all, feed) && bad' == bad + FailedIn(feed)
      ensures forall t :: t in all' <==> t in all || exists k :: 0 <= k < |feed| && feed[k].taskId == t
      ensures forall t | t in all && (forall k | 0 <= k < |feed| :: feed[k].taskId != t) :: all'[t] == all[t]
      ensures forall k | 0 <= k < |feed| && (forall j | k < j < |feed| :: feed[j].taskId != feed[k].taskId) ::
                feed[k].taskId in all' && all'[feed[k].taskId] == feed[k].result
      ensures forall t :: t in bad'
                          <==> t in bad || exists k :: 0 <= k < |feed| && feed[k].taskId == t && !feed[k].success
    {
      all', bad' := all, bad;
      for k := 0 to |feed|
        invariant all' == Absorbed(all, feed[..k]) && bad' == bad + FailedIn(feed[..k])
      {
        var r := feed[k];
        SnocReplies(feed, k);
        assert feed[..k + 1][..k] == feed[..k];
        all' := all'[r.taskId := r.result];
        if !r.success {
          bad' := bad' + {r.taskId};
        }
      }
      assert feed[..|feed|] == feed;
      AbsorbedAnswers(all, feed);
      forall k | 0 <= k < |feed| && (forall j | k < j < |feed| :: feed[j].taskId != feed[k].taskId)
        ensures feed[k].taskId in all' && all'[feed[k].taskId] == feed[k].result
      {
        LastReplyWins(all, feed, k);
      }
    }

    /** The first half of an iteration up to the dispatch: the wave is prepared. */
    method PrepareNext(byId: map<Id, Subtask>, waves: seq<seq<Subtask>>, idMap: IdMap,
                        contexts: map<Id, Context>, r: RunResult,
                        ghost feed: seq<seq<ReplyMessage>>, ghost initial: TaskTable)
      returns (next: RunResult)
      requires Plan(byId, waves, idMap) && r.reached < |waves|
      requires byId.Keys <= contexts.Keys && forall x | x in contexts :: contexts[x].upstream.None?
      requires RunSoFar(byId, waves, idMap, feed, r)
      requires tasks == MarkedFailed(initial, r.marked)
      modifies this`tasks
      ensures Prepares(byId, waves, idMap, contexts, feed, r, next)
      ensures tasks == MarkedFailed(initial, next.marked)
    {
      var k := r.reached;
      ReadyToPrepare(byId, waves, idMap, feed, r);
      var msgs, lids, newSkipped := PrepareWave(byId, waves[k], idMap, contexts, r.skipped + r.bad, r.replies, k);
      MarkMore(initial, r.marked, newSkipped);
      NextWave(byId, waves, idMap, contexts, feed, r, msgs, lids, newSkipped);
      next := WithWave(r, msgs, lids, newSkipped);
    }

    /** The first half of an iteration: the wave is prepared, and its messages, if there are any, go
        to the queue. */
    method DispatchWave(byId: map<Id, Subtask>, waves: seq<seq<Subtask>>, idMap: IdMap,
                        contexts: map<Id, Context>, r: RunResult,
                        ghost feed: seq<seq<ReplyMessage>>, ghost initial: TaskTable)
      returns (next: RunResult)
      requires Plan(byId, waves, idMap) && r.reached < |waves|
      requires byId.Keys <= contexts.Keys && forall x | x in contexts :: contexts[x].upstream.None?
      requires RunSoFar(byId, waves, idMap, feed, r)
      requires tasks == MarkedFailed(initial, r.marked)
      modifies this
      ensures next.reached == r.reached + 1 && next.asked == r.asked + [next.sent != r.sent]
      ensures next.bad == r.bad && next.replies == r.replies
      ensures r.sent <= next.sent && next.sentIn == r.sentIn + Repeat(r.reached, |next.sent| - |r.sent|)
      ensures Progress(byId, idMap, feed, Hits(Sanitized(byId), idMap, feed, r.asked), next)
      ensures AskedWhenSent(waves, next.lids, next.asked)
      ensures r.lids <= next.lids && |r.lids| == |r.sent| && r.marked <= next.marked
      ensures AllCarry(byId, idMap, contexts, r.replies, next.sent[|r.sent|..], next.lids[|r.sent|..])
      ensures InWaveOrder(waves[r.reached], next.lids[|r.sent|..])
      ensures tasks == MarkedFailed(initial, next.marked)
      ensures outbox == old(outbox) + next.sent[|r.sent|..]
    {
      next := PrepareNext(byId, waves, idMap, contexts, r, feed, initial);
      var msgs := next.sent[|r.sent|..];
      if msgs != [] {
        outbox := outbox + msgs;
      }
    }

    /** The propagation after a wave, if anything has failed or was skipped so far. */
    method PropagateIfAny(byId: map<Id, Subtask>, waves: seq<seq<Subtask>>, idMap: IdMap, failed: set<TaskId>,
                          start: nat, ghost marked: set<TaskId>, ghost initial: TaskTable)
      returns (skipped: set<TaskId>)
      requires Plan(byId, waves, idMap) && start <= |waves|
      requires forall x | x in byId && x !in Placed(Sanitized(byId), start) :: idMap[x] !in failed
      requires tasks == MarkedFailed(initial, marked)
      modifies this`tasks
      ensures skipped <= idMap.Values
              && LocalIds(idMap, skipped) == Affected(LaterPart(Sanitized(byId), start), LocalIds(idMap, failed))
      ensures tasks == MarkedFailed(initial, marked + skipped)
    {
      if failed == {} {
        NothingStruck(Sanitized(byId));
        assert marked + {} == marked;
        return {};
      }
      skipped := PropagateFailure(byId, waves, idMap, failed, start);
      MarkMore(initial, marked, skipped);
    }

    /** The rest of an iteration, once something was dispatched. */
    method CollectAndPropagate(byId: map<Id, Subtask>, waves: seq<seq<Subtask>>, idMap: IdMap,
                               replies: seq<ReplyMessage>, r: RunResult,
                               ghost feed: seq<seq<ReplyMessage>>, ghost asked: seq<bool>, ghost initial: TaskTable)
      returns (next: RunResult)
      requires Plan(byId, waves, idMap) && r.reached == |r.asked| <= |waves| == |feed|
      requires r.asked == asked + [true] && replies == feed[|asked|]
      requires RepliesUpTo(Sanitized(byId), idMap, |asked|, replies)
      requires r.bad == FailedIn(AllReplies(feed, asked)) && r.replies == Absorbed(map[], AllReplies(feed, asked))
      requires LocalIds(idMap, r.replies.Keys + r.bad) <= Placed(Sanitized(byId), |asked|)
      requires Progress(byId, idMap, feed, Hits(Sanitized(byId), idMap, feed, asked), r)
      requires AskedWhenSent(waves, r.lids, r.asked) && tasks == MarkedFailed(initial, r.marked)
      modifies this`tasks
      ensures RunSoFar(byId, waves, idMap, feed, next)
      ensures next == r.(bad := next.bad, replies := next.replies, marked := next.marked) && r.marked <= next.marked
      ensures tasks == MarkedFailed(initial, next.marked)
    {
      var n := r.reached;
      var all, bad := AbsorbReplies(r.replies, r.bad, replies);
      NothingLaterFailed(byId, idMap, n, r.skipped + bad) by {
        KnownReplies(Sanitized(byId), idMap, |asked|, r.replies, r.bad, replies);
        UnionOfLocals(idMap, r.skipped, bad);
      }
      var skipped := PropagateIfAny(byId, waves, idMap, r.skipped + bad, n, r.marked, initial);
      next := r.(bad := bad, replies := all, marked := r.marked + skipped);
      AfterCollect(byId, waves, idMap, feed, asked, r, skipped);
    }

    /** One iteration of the loop over waves. */
    method RunOneWave(byId: map<Id, Subtask>, waves: seq<seq<Subtask>>, idMap: IdMap,
                      contexts: map<Id, Context>, feed: seq<seq<ReplyMessage>>, r: RunResult,
                      ghost initial: TaskTable)
      returns (next: RunResult)
      requires Plan(byId, waves, idMap) && |feed| == |waves| && r.reached < |waves|
      requires byId.Keys <= contexts.Keys && forall x | x in contexts :: contexts[x].upstream.None?
      requires RepliesUpTo(Sanitized(byId), idMap, r.reached, feed[r.reached])
      requires RunSoFar(byId, waves, idMap, feed, r)
      requires tasks == MarkedFailed(initial, r.marked)
      modifies this
      ensures next.reached == r.reached + 1 && RunSoFar(byId, waves, idMap, feed, next)
      ensures tasks == MarkedFailed(initial, next.marked)
      ensures r.sent <= next.sent && outbox == old(outbox) + next.sent[|r.sent|..]
    {
      var k := r.reached;
      next := DispatchWave(byId, waves, idMap, contexts, r, feed, initial);
      if next.sent != r.sent {
        next := CollectAndPropagate(byId, waves, idMap, feed[k], next, feed, r.asked, initial);
      } else {
        NothingCollected(byId, waves, idMap, feed, r, next);
      }
    }

    /** The dispatch-and-collect loop of `run`. feed[k] is what `collect_replies` returns
        for wave k, if it is asked; the deadline passes before wave `deadline`. */
    method RunWaves(byId: map<Id, Subtask>, waves: seq<seq<Subtask>>, idMap: IdMap,
                    contexts: map<Id, Context>, feed: seq<seq<ReplyMessage>>, deadline: nat)
      returns (r: RunResult)
      requires Plan(byId, waves, idMap) && |feed| == |waves|
      requires byId.Keys <= contexts.Keys && forall x | x in contexts :: contexts[x].upstream.None?
      requires forall k | 0 <= k < |waves| :: RepliesUpTo(Sanitized(byId), idMap, k, feed[k])
      modifies this
      ensures r.reached == if deadline < |waves| then deadline else |waves|
      ensures RunSoFar(byId, waves, idMap, feed, r)
      ensures tasks == MarkedFailed(old(tasks), r.marked)
      ensures forall t | t in old(tasks) ::
                t in tasks && tasks[t] == if t in r.marked then Failed else old(tasks)[t]
      ensures outbox == old(outbox) + r.sent
    {
      r := RunResult(0, [], [], [], {}, {}, {}, map[], []);
      RunStarts(byId, waves, idMap, feed);
      assert MarkedFailed(tasks, {}) == tasks;
      while r.reached < |waves| && r.reached < deadline
        invariant r.reached <= |waves| && r.reached <= deadline
        invariant RunSoFar(byId, waves, idMap, feed, r)
        invariant tasks == MarkedFailed(old(tasks), r.marked)
        invariant outbox == old(outbox) + r.sent
      {
        ghost var sent := r.sent;
        r := RunOneWave(byId, waves, idMap, contexts, feed, r, old(tasks));
        Regroup(old(outbox), sent, r.sent);
      }
    }
  }
}
