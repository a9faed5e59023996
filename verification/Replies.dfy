/** Reply messages, and what the wave loop has learnt from them so far. */
module Replies {
  import opened Results
  import opened Store

  datatype ReplyMessage = ReplyMessage(taskId: TaskId, success: bool, result: JsonObject)

  function Replied(feed: seq<ReplyMessage>): set<TaskId> {
    set r | r in feed :: r.taskId
  }

  function FailedIn(feed: seq<ReplyMessage>): set<TaskId> {
    set r | r in feed && !r.success :: r.taskId
  }

  /** The reply dictionary: a later reply for the same task wins. */
  function Absorbed(all: map<TaskId, JsonObject>, feed: seq<ReplyMessage>): map<TaskId, JsonObject> {
    if feed == [] then all else
      var last := feed[|feed| - 1];
      Absorbed(all, feed[..|feed| - 1])[last.taskId := last.result]
  }

  /** All replies collected from the waves that were asked. */
  function AllReplies(feed: seq<seq<ReplyMessage>>, asked: seq<bool>): seq<ReplyMessage>
    requires |asked| <= |feed|
  {
    if asked == [] then [] else
      var n := |asked| - 1;
      AllReplies(feed, asked[..n]) + if asked[n] then feed[n] else []
  }

  /** The reply dictionary as it is before wave k. */
  function RepliesBefore(feed: seq<seq<ReplyMessage>>, asked: seq<bool>, k: nat): map<TaskId, JsonObject>
    requires k <= |asked| <= |feed|
  {
    Absorbed(map[], AllReplies(feed, asked[..k]))
  }

  /** The tasks with a failed reply before wave k. */
  function FailedBefore(feed: seq<seq<ReplyMessage>>, asked: seq<bool>, k: nat): set<TaskId>
    requires k <= |asked| <= |feed|
  {
    FailedIn(AllReplies(feed, asked[..k]))
  }

  lemma SnocReplies(feed: seq<ReplyMessage>, k: nat)
    requires k < |feed|
    ensures Replied(feed[..k + 1]) == Replied(feed[..k]) + {feed[k].taskId}
    ensures FailedIn(feed[..k + 1])
            == FailedIn(feed[..k]) + if feed[k].success then {} else {feed[k].taskId}
  {
    assert feed[..k + 1] == feed[..k] + [feed[k]];
    forall r ensures r in feed[..k + 1] <==> r in feed[..k] || r == feed[k] {
    }
    assert feed[k] in feed[..k + 1];
  }

  /** Exactly the replied tasks gain a result; the others keep theirs. */
  lemma {:induction false} AbsorbedAnswers(all: map<TaskId, JsonObject>, feed: seq<ReplyMessage>)
    ensures Absorbed(all, feed).Keys == all.Keys + Replied(feed)
    ensures forall t | t in all && t !in Replied(feed) :: Absorbed(all, feed)[t] == all[t]
  {
    if feed != [] {
      var n := |feed| - 1;
      AbsorbedAnswers(all, feed[..n]);
      SnocReplies(feed, n);
      assert feed[..n + 1] == feed;
    }
  }

  /** The last reply to a task is the one that counts. */
  lemma {:induction false} LastReplyWins(all: map<TaskId, JsonObject>, feed: seq<ReplyMessage>, k: nat)
    requires k < |feed| && forall j | k < j < |feed| :: feed[j].taskId != feed[k].taskId
    ensures feed[k].taskId in Absorbed(all, feed) && Absorbed(all, feed)[feed[k].taskId] == feed[k].result
  {
    var n := |feed| - 1;
    if k < n {
      LastReplyWins(all, feed[..n], k);
    }
  }

  lemma AbsorbedOther(all: map<TaskId, JsonObject>, feed: seq<ReplyMessage>, t: TaskId)
    requires t !in Replied(feed)
    ensures t in Absorbed(all, feed) <==> t in all
    ensures t in all ==> Absorbed(all, feed)[t] == all[t]
  {
    AbsorbedAnswers(all, feed);
  }

  lemma {:induction false} AbsorbedConcat(all: map<TaskId, JsonObject>, a: seq<ReplyMessage>, b: seq<ReplyMessage>)
    ensures Absorbed(all, a + b) == Absorbed(Absorbed(all, a), b)
  {
    if b == [] {
      assert a + b == a;
    } else {
      var n := |b| - 1;
      assert (a + b)[..|a + b| - 1] == a + b[..n];
      AbsorbedConcat(all, a, b[..n]);
    }
  }

  lemma ConcatReplies(a: seq<ReplyMessage>, b: seq<ReplyMessage>)
    ensures Replied(a + b) == Replied(a) + Replied(b)
    ensures FailedIn(a + b) == FailedIn(a) + FailedIn(b)
  {
    forall r ensures r in a + b <==> r in a || r in b {
    }
  }

  lemma OneMoreWave(feed: seq<seq<ReplyMessage>>, asked: seq<bool>, ask: bool)
    requires |asked| < |feed|
    ensures AllReplies(feed, asked + [ask]) == AllReplies(feed, asked) + if ask then feed[|asked|] else []
    ensures FailedIn(AllReplies(feed, asked + [ask]))
            == FailedIn(AllReplies(feed, asked)) + if ask then FailedIn(feed[|asked|]) else {}
    ensures Absorbed(map[], AllReplies(feed, asked + [ask]))
            == if ask then Absorbed(Absorbed(map[], AllReplies(feed, asked)), feed[|asked|])
               else Absorbed(map[], AllReplies(feed, asked))
  {
    assert (asked + [ask])[..|asked|] == asked;
    if ask {
      ConcatReplies(AllReplies(feed, asked), feed[|asked|]);
      AbsorbedConcat(map[], AllReplies(feed, asked), feed[|asked|]);
    } else {
      assert AllReplies(feed, asked + [ask]) == AllReplies(feed, asked);
    }
  }

  /** Each collected reply was collected in some wave that was asked. */
  lemma {:induction false} CollectedInWave(feed: seq<seq<ReplyMessage>>, asked: seq<bool>, r: ReplyMessage)
    returns (k: nat)
    requires |asked| <= |feed| && r in AllReplies(feed, asked)
    ensures k < |asked| && asked[k] && r in feed[k]
  {
    var n := |asked| - 1;
    if r in AllReplies(feed, asked[..n]) {
      k := CollectedInWave(feed, asked[..n], r);
    } else {
      k := n;
    }
  }

  /** What was collected in a wave before k is known before wave k. */
  lemma {:induction false} KnownBefore(feed: seq<seq<ReplyMessage>>, asked: seq<bool>, j: nat, k: nat, r: ReplyMessage)
    requires j < k <= |asked| <= |feed| && asked[j] && r in feed[j]
    ensures r in AllReplies(feed, asked[..k])
    decreases k
  {
    assert asked[..k][..k - 1] == asked[..k - 1];
    if j < k - 1 {
      KnownBefore(feed, asked, j, k - 1, r);
    }
  }

  /** What is known before wave k is known at the end. */
  lemma StillKnown(feed: seq<seq<ReplyMessage>>, asked: seq<bool>, k: nat)
    requires k <= |asked| <= |feed|
    ensures forall r | r in AllReplies(feed, asked[..k]) :: r in AllReplies(feed, asked)
    ensures FailedBefore(feed, asked, k) <= FailedIn(AllReplies(feed, asked))
  {
    forall r | r in AllReplies(feed, asked[..k]) ensures r in AllReplies(feed, asked) {
      var j := CollectedInWave(feed, asked[..k], r);
      KnownBefore(feed, asked, j, |asked|, r);
      assert asked[..|asked|] == asked;
    }
  }

  // ---- the dictionary, reply by reply -------------------------------------------------------------

  /** Of the replies collected before wave k, the j-th one of wave w is the last to task t. */
  ghost predicate LastReply(feed: seq<seq<ReplyMessage>>, asked: seq<bool>, k: nat, t: TaskId, w: int, j: int)
    requires k <= |asked| <= |feed|
  {
    && 0 <= w < k && asked[w] && 0 <= j < |feed[w]| && feed[w][j].taskId == t
    && (forall i | j < i < |feed[w]| :: feed[w][i].taskId != t)
    && (forall v, i | w < v < k && asked[v] && 0 <= i < |feed[v]| :: feed[v][i].taskId != t)
  }

  lemma BeforeNextWave(feed: seq<seq<ReplyMessage>>, asked: seq<bool>, k: nat)
    requires k < |asked| <= |feed|
    ensures RepliesBefore(feed, asked, k + 1)
            == if asked[k] then Absorbed(RepliesBefore(feed, asked, k), feed[k]) else RepliesBefore(feed, asked, k)
  {
    assert asked[..k + 1] == asked[..k] + [asked[k]];
    OneMoreWave(feed, asked[..k], asked[k]);
  }

  lemma NotReplied(replies: seq<ReplyMessage>, t: TaskId)
    requires forall i | 0 <= i < |replies| :: replies[i].taskId != t
    ensures t !in Replied(replies)
  {
  }

  /** What is known about a task before wave k is its last reply. */
  lemma {:induction false} KnownIsLastReply(feed: seq<seq<ReplyMessage>>, asked: seq<bool>, k: nat, t: TaskId,
                                            w: int, j: int)
    requires k <= |asked| <= |feed| && LastReply(feed, asked, k, t, w, j)
    ensures t in RepliesBefore(feed, asked, k) && RepliesBefore(feed, asked, k)[t] == feed[w][j].result
  {
    BeforeNextWave(feed, asked, k - 1);
    if w == k - 1 {
      LastReplyWins(RepliesBefore(feed, asked, w), feed[w], j);
    } else {
      KnownIsLastReply(feed, asked, k - 1, t, w, j);
      if asked[k - 1] {
        NotReplied(feed[k - 1], t);
        AbsorbedOther(RepliesBefore(feed, asked, k - 1), feed[k - 1], t);
      }
    }
  }

  lemma {:induction false} LastIn(replies: seq<ReplyMessage>, t: TaskId) returns (j: nat)
    requires t in Replied(replies)
    ensures j < |replies| && replies[j].taskId == t
    ensures forall i | j < i < |replies| :: replies[i].taskId != t
  {
    var n := |replies| - 1;
    if replies[n].taskId == t {
      j := n;
    } else {
      SnocReplies(replies, n);
      assert replies[..n + 1] == replies;
      j := LastIn(replies[..n], t);
    }
  }

  lemma NoneReplies(replies: seq<ReplyMessage>, t: TaskId)
    requires t !in Replied(replies)
    ensures forall i | 0 <= i < |replies| :: replies[i].taskId != t
  {
    forall i | 0 <= i < |replies| ensures replies[i].taskId != t {
      assert replies[i] in replies;
    }
  }

  /** And whatever is known has such a reply. */
  lemma {:induction false} KnownHasReply(feed: seq<seq<ReplyMessage>>, asked: seq<bool>, k: nat, t: TaskId)
    returns (w: nat, j: nat)
    requires k <= |asked| <= |feed| && t in RepliesBefore(feed, asked, k)
    ensures LastReply(feed, asked, k, t, w, j)
  {
    BeforeNextWave(feed, asked, k - 1);
    if asked[k - 1] && t in Replied(feed[k - 1]) {
      w := k - 1;
      j := LastIn(feed[w], t);
    } else {
      if asked[k - 1] {
        AbsorbedOther(RepliesBefore(feed, asked, k - 1), feed[k - 1], t);
      }
      w, j := KnownHasReply(feed, asked, k - 1, t);
      if asked[k - 1] {
        NoneReplies(feed[k - 1], t);
      }
    }
  }

  /** The entry x is there exactly when a reply to task t was collected before wave k, and then it
      is the result of the last one. */
  ghost predicate HoldsLastReply(told: map<int, JsonObject>, x: int, feed: seq<seq<ReplyMessage>>, asked: seq<bool>,
                                 k: nat, t: TaskId)
    requires k <= |asked| <= |feed|
  {
    && (x in told <==> exists w, j :: LastReply(feed, asked, k, t, w, j))
    && (forall w, j | LastReply(feed, asked, k, t, w, j) :: x in told && told[x] == feed[w][j].result)
  }

  lemma KnownReplyByReply(feed: seq<seq<ReplyMessage>>, asked: seq<bool>, k: nat, t: TaskId)
    requires k <= |asked| <= |feed|
    ensures HoldsLastReply(RepliesBefore(feed, asked, k), t, feed, asked, k, t)
  {
    if t in RepliesBefore(feed, asked, k) {
      var w, j := KnownHasReply(feed, asked, k, t);
      assert LastReply(feed, asked, k, t, w, j);
    }
    forall w, j | LastReply(feed, asked, k, t, w, j)
      ensures t in RepliesBefore(feed, asked, k) && RepliesBefore(feed, asked, k)[t] == feed[w][j].result
    {
      KnownIsLastReply(feed, asked, k, t, w, j);
    }
  }
}
