/** `MessageQueueService`: dispatch rows are appended, reply rows are read through a
    stored offset. */
module MessageQueue {
  import opened Wrappers
  import opened Results
  import opened Store
  import opened Replies

  predicate IsReply(m: Message, scenario: ScenarioId) {
    m.Reply? && m.scenario == scenario
  }

  function Read(m: Message): ReplyMessage
    requires m.Reply?
  {
    ReplyMessage(m.task, Truthy(Get(m.result, SuccessKey, Bool(false))), m.result)
  }

  /** The readable replies of a scenario, in id order. */
  function ScenarioReplies(messages: MessageTable, scenario: ScenarioId): seq<ReplyMessage> {
    if messages == [] then [] else
      var n := |messages| - 1;
      ScenarioReplies(messages[..n], scenario)
      + if IsReply(messages[n], scenario) && messages[n].parses then [Read(messages[n])] else []
  }

  /** `find_pending_messages`: reply rows of a scenario with id > k, at most `limit`. */
  function FindPending(messages: MessageTable, k: nat, scenario: ScenarioId, limit: nat): seq<Record>
    decreases |messages| - k
  {
    if k >= |messages| || limit == 0 then []
    else if IsReply(messages[k], scenario) then
      [Record(k + 1, messages[k])] + FindPending(messages, k + 1, scenario, limit - 1)
    else FindPending(messages, k + 1, scenario, limit)
  }

  function Readable(rows: seq<Record>): seq<ReplyMessage>
    requires forall r | r in rows :: r.row.Reply?
  {
    if rows == [] then [] else
      var n := |rows| - 1;
      Readable(rows[..n]) + if rows[n].row.parses then [Read(rows[n].row)] else []
  }

  /** The offset after reading `rows`. */
  function Through(rows: seq<Record>, k: nat): nat {
    if rows == [] then k else rows[|rows| - 1].id
  }

  lemma {:induction false} PendingRows(messages: MessageTable, k: nat, scenario: ScenarioId, limit: nat)
    ensures |FindPending(messages, k, scenario, limit)| <= limit
    ensures forall r | r in FindPending(messages, k, scenario, limit) ::
              k < r.id <= |messages| && r.row == messages[r.id - 1] && IsReply(r.row, scenario)
    decreases |messages| - k
  {
    if k < |messages| && limit > 0 {
      if IsReply(messages[k], scenario) {
        PendingRows(messages, k + 1, scenario, limit - 1);
      } else {
        PendingRows(messages, k + 1, scenario, limit);
      }
    }
  }

  /** `rows` holds every readable reply after the first k rows and up to its last row;
      fewer than `limit` rows reach to the end of the table. */
  ghost predicate Covers(messages: MessageTable, k: nat, scenario: ScenarioId, limit: nat, rows: seq<Record>) {
    && (forall r | r in rows :: r.row.Reply?)
    && k <= Through(rows, k) <= |messages|
    && ScenarioReplies(messages[..Through(rows, k)], scenario)
       == ScenarioReplies(messages[..k], scenario) + Readable(rows)
    && (|rows| < limit ==>
          ScenarioReplies(messages[..Through(rows, k)], scenario) == ScenarioReplies(messages, scenario))
  }

  lemma OneMoreRow(messages: MessageTable, k: nat, scenario: ScenarioId)
    requires k < |messages|
    ensures ScenarioReplies(messages[..k + 1], scenario)
            == ScenarioReplies(messages[..k], scenario)
               + if IsReply(messages[k], scenario) && messages[k].parses then [Read(messages[k])] else []
  {
    assert messages[..k + 1][..k] == messages[..k];
  }

  lemma {:induction false} PrependReadable(first: Record, rest: seq<Record>)
    requires first.row.Reply? && forall r | r in rest :: r.row.Reply?
    ensures Readable([first] + rest) == (if first.row.parses then [Read(first.row)] else []) + Readable(rest)
  {
    if rest != [] {
      var n := |rest| - 1;
      assert ([first] + rest)[..n + 1] == [first] + rest[..n];
      PrependReadable(first, rest[..n]);
    }
  }

  lemma CoverReply(messages: MessageTable, k: nat, scenario: ScenarioId, limit: nat, rest: seq<Record>)
    requires k < |messages| && limit > 0 && IsReply(messages[k], scenario)
    requires Covers(messages, k + 1, scenario, limit - 1, rest)
    ensures Covers(messages, k, scenario, limit, [Record(k + 1, messages[k])] + rest)
  {
    var first := Record(k + 1, messages[k]);
    OneMoreRow(messages, k, scenario);
    PrependReadable(first, rest);
    assert Through([first] + rest, k) == Through(rest, k + 1);
    assert ScenarioReplies(messages[..k], scenario)
           + ((if first.row.parses then [Read(first.row)] else []) + Readable(rest))
           == ScenarioReplies(messages[..k], scenario)
              + (if first.row.parses then [Read(first.row)] else []) + Readable(rest);
  }

  lemma CoverOther(messages: MessageTable, k: nat, scenario: ScenarioId, limit: nat, rows: seq<Record>)
    requires k < |messages| && !IsReply(messages[k], scenario)
    requires Covers(messages, k + 1, scenario, limit, rows)
    ensures Covers(messages, k, scenario, limit, rows)
  {
    OneMoreRow(messages, k, scenario);
  }

  /** A query skips no readable reply: what it returns is exactly the stretch between
      the old offset and the new one. */
  lemma {:induction false} PendingIsGapFree(messages: MessageTable, k: nat, scenario: ScenarioId, limit: nat)
    requires k <= |messages|
    ensures Covers(messages, k, scenario, limit, FindPending(messages, k, scenario, limit))
    decreases |messages| - k
  {
    if k == |messages| {
      assert messages[..k] == messages;
    } else if limit > 0 {
      if IsReply(messages[k], scenario) {
        PendingIsGapFree(messages, k + 1, scenario, limit - 1);
        CoverReply(messages, k, scenario, limit, FindPending(messages, k + 1, scenario, limit - 1));
      } else {
        PendingIsGapFree(messages, k + 1, scenario, limit);
        CoverOther(messages, k, scenario, limit, FindPending(messages, k + 1, scenario, limit));
      }
    }
  }

  /** Acks and appended rows do not change the replies already in the table. */
  lemma {:induction false} ExtendsKeepsReplies(a: MessageTable, b: MessageTable, n: nat, scenario: ScenarioId)
    requires Extends(a, b) && n <= |a|
    ensures ScenarioReplies(a[..n], scenario) == ScenarioReplies(b[..n], scenario)
  {
    if n > 0 {
      assert a[..n][..n - 1] == a[..n - 1] && b[..n][..n - 1] == b[..n - 1];
      ExtendsKeepsReplies(a, b, n - 1, scenario);
      assert SameButAck(a[n - 1], b[n - 1]);
    }
  }

  /** A history of what the table holds at successive moments. */
  ghost predicate Growing(views: seq<MessageTable>) {
    forall i, j | 0 <= i <= j < |views| :: Extends(views[i], views[j])
  }

  // ---- dispatch rows ------------------------------------------------------------------------

  function DispatchRow(scenario: ScenarioId, msg: TaskMessage): Message {
    Dispatch(scenario, msg, true, false)
  }

  function DispatchRows(scenario: ScenarioId, msgs: seq<TaskMessage>): MessageTable {
    seq(|msgs|, i requires 0 <= i < |msgs| => DispatchRow(scenario, msgs[i]))
  }

  /** The messages whose rows can be written, in order. */
  function Written(msgs: seq<TaskMessage>): seq<TaskMessage> {
    if msgs == [] then [] else
      var n := |msgs| - 1;
      Written(msgs[..n]) + if CleanContext(msgs[n].context) then [msgs[n]] else []
  }

  lemma WrittenSnoc(msgs: seq<TaskMessage>, msg: TaskMessage)
    ensures Written(msgs + [msg]) == Written(msgs) + if CleanContext(msg.context) then [msg] else []
  {
    assert (msgs + [msg])[..|msgs|] == msgs;
  }

  lemma {:induction false} WrittenConcat(a: seq<TaskMessage>, b: seq<TaskMessage>)
    ensures Written(a + b) == Written(a) + Written(b)
  {
    if b == [] {
      assert a + b == a;
    } else {
      var n := |b| - 1;
      WrittenConcat(a, b[..n]);
      WrittenSnoc(a + b[..n], b[n]);
      assert a + b[..n] + [b[n]] == a + b;
    }
  }

  /** A message gets its row exactly when it can be encoded. */
  lemma {:induction false} WrittenAreClean(msgs: seq<TaskMessage>, m: TaskMessage)
    ensures m in Written(msgs) <==> m in msgs && CleanContext(m.context)
  {
    if msgs != [] {
      WrittenAreClean(msgs[..|msgs| - 1], m);
    }
  }

  lemma {:induction false} FewerWritten(msgs: seq<TaskMessage>)
    ensures |Written(msgs)| <= |msgs|
    ensures |Written(msgs)| == |msgs| ==> forall m | m in msgs :: CleanContext(m.context)
  {
    if msgs != [] {
      FewerWritten(msgs[..|msgs| - 1]);
    }
  }

  /** Every message gets its row exactly when all can be encoded. */
  lemma {:induction false} AllWritten(msgs: seq<TaskMessage>)
    ensures Written(msgs) == msgs <==> forall m | m in msgs :: CleanContext(m.context)
  {
    if msgs != [] {
      var n := |msgs| - 1;
      AllWritten(msgs[..n]);
      FewerWritten(msgs);
    }
  }

  /** A row is written exactly when every part of the message can be encoded. */
  lemma EveryPartDecides(m: TaskMessage)
    ensures var c := m.context;
            Written([m]) == [m]
            <==> && Clean(c.server) && Clean(c.role) && Clean(c.rest)
                 && (c.upstream.Some? ==>
                       && (forall d | d in c.upstream.value.results ::
                             CleanName(d) && Clean(c.upstream.value.results[d]))
                       && (forall i | 0 <= i < |c.upstream.value.outputs| :: Clean(c.upstream.value.outputs[i])))
    ensures Written([m]) == [m] || Written([m]) == []
  {
    WrittenSnoc([], m);
    assert [] + [m] == [m];
  }

  /** A role with an unpaired surrogate: no row is written, and nothing says so. */
  lemma OddRoleIsNotWritten(t: TaskId, server: Value, rest: Value)
    ensures Written([TaskMessage(t, Context(server, String([LoneSurrogate]), None, rest))]) == []
  {
    var role := String([LoneSurrogate]);
    assert !role.text[0].Scalar?;
    assert !Clean(role);
    WrittenSnoc([], TaskMessage(t, Context(server, role, None, rest)));
  }

  // ---- offsets ------------------------------------------------------------------------------

  function Sum(counts: seq<nat>): nat {
    if counts == [] then 0 else Sum(counts[..|counts| - 1]) + counts[|counts| - 1]
  }

  lemma {:induction false} RepliesOfPrefix(messages: MessageTable, n: nat, scenario: ScenarioId)
    requires n <= |messages|
    ensures ScenarioReplies(messages[..n], scenario) <= ScenarioReplies(messages, scenario)
    decreases |messages|
  {
    if n == |messages| {
      assert messages[..n] == messages;
    } else {
      assert messages[..|messages| - 1][..n] == messages[..n];
      RepliesOfPrefix(messages[..|messages| - 1], n, scenario);
    }
  }

  /** Between the offsets `start` and `now` nothing was left behind: either no readable reply stands
      after `now`, or a row was passed that cannot be read. */
  ghost predicate Exhausted(view: MessageTable, scenario: ScenarioId, start: nat, now: nat)
    requires now <= |view|
  {
    || ScenarioReplies(view[..now], scenario) == ScenarioReplies(view, scenario)
    || exists k :: start <= k < now && IsReply(view[k], scenario) && !view[k].parses
  }

  lemma {:induction false} SomeUnreadable(rows: seq<Record>) returns (i: nat)
    requires (forall r | r in rows :: r.row.Reply?) && |Readable(rows)| < |rows|
    ensures i < |rows| && !rows[i].row.parses
  {
    var n := |rows| - 1;
    if rows[n].row.parses {
      i := SomeUnreadable(rows[..n]);
    } else {
      i := n;
    }
  }

  lemma {:induction false} ThroughAll(messages: MessageTable, k: nat, scenario: ScenarioId, limit: nat)
    ensures var rows := FindPending(messages, k, scenario, limit);
            forall r | r in rows :: r.id <= Through(rows, k)
    decreases |messages| - k
  {
    if k < |messages| && limit > 0 {
      if IsReply(messages[k], scenario) {
        var rest := FindPending(messages, k + 1, scenario, limit - 1);
        ThroughAll(messages, k + 1, scenario, limit - 1);
        PendingRows(messages, k + 1, scenario, limit - 1);
        assert rest != [] ==> rest[|rest| - 1] in rest;
      } else {
        ThroughAll(messages, k + 1, scenario, limit);
      }
    }
  }

  /** A poll that returns fewer replies than it asked for has read to the end, or has passed a row
      that cannot be read. */
  lemma PollExhausts(view: MessageTable, k: nat, scenario: ScenarioId, limit: nat)
    requires k <= |view|
    ensures forall r | r in FindPending(view, k, scenario, limit) :: r.row.Reply?
    ensures var rows := FindPending(view, k, scenario, limit);
            |Readable(rows)| < limit ==> Through(rows, k) <= |view| && Exhausted(view, scenario, k, Through(rows, k))
  {
    var rows := FindPending(view, k, scenario, limit);
    PendingRows(view, k, scenario, limit);
    PendingIsGapFree(view, k, scenario, limit);
    if |rows| == limit && |Readable(rows)| < limit {
      var i := SomeUnreadable(rows);
      ThroughAll(view, k, scenario, limit);
      assert rows[i] in rows;
      assert IsReply(view[rows[i].id - 1], scenario) && !view[rows[i].id - 1].parses;
    }
  }

  lemma StillExhausted(view: MessageTable, scenario: ScenarioId, start: nat, before: nat, now: nat)
    requires start <= before <= now <= |view| && Exhausted(view, scenario, before, now)
    ensures Exhausted(view, scenario, start, now)
  {
  }

  lemma OneMoreCollection(last: MessageTable, final: MessageTable, scenario: ScenarioId, before: nat, now: nat,
                          all: seq<ReplyMessage>, replies: seq<ReplyMessage>)
    requires Extends(last, final) && before <= now <= |last| && all == ScenarioReplies(final[..before], scenario)
    requires ScenarioReplies(last[..now], scenario) == ScenarioReplies(last[..before], scenario) + replies
    ensures all + replies == ScenarioReplies(final[..now], scenario)
  {
    ExtendsKeepsReplies(last, final, before, scenario);
    ExtendsKeepsReplies(last, final, now, scenario);
  }

  lemma Regroup(a: seq<ReplyMessage>, b: seq<ReplyMessage>, c: seq<ReplyMessage>)
    ensures a + b + c == a + (b + c)
  {
  }

  function Last<T>(s: seq<T>): T
    requires s != []
  {
    s[|s| - 1]
  }

  ghost predicate AllReadable(view: MessageTable, scenario: ScenarioId) {
    forall k | 0 <= k < |view| && IsReply(view[k], scenario) :: view[k].parses
  }

  /** What successive calls of the collector see, each in several polls, until `final`. */
  ghost predicate Successive(views: seq<seq<MessageTable>>, final: MessageTable) {
    && (forall k | 0 <= k < |views| :: Growing(views[k]) && views[k] != [])
    && (forall k | 0 <= k < |views| :: Extends(Last(views[k]), final))
    && (forall k | 0 < k < |views| :: Extends(Last(views[k - 1]), views[k][0]))
  }

  lemma SuccessiveAt(views: seq<seq<MessageTable>>, final: MessageTable, k: nat)
    requires Successive(views, final) && k < |views|
    ensures views[k] != [] && Growing(views[k])
    ensures Extends(views[k][0], Last(views[k])) && Extends(Last(views[k]), final)
    ensures k + 1 < |views| ==> views[k + 1] != [] && |Last(views[k])| <= |views[k + 1][0]|
  {
    if k + 1 < |views| {
      assert Extends(Last(views[k + 1 - 1]), views[k + 1][0]);
    }
  }

  /** If call k came back short, all the replies there were by then have been collected. */
  ghost predicate CaughtUp(counts: seq<nat>, expected: seq<nat>, k: nat, last: MessageTable, scenario: ScenarioId)
    requires k < |counts| <= |expected|
  {
    counts[k] < expected[k] && AllReadable(last, scenario) ==>
      Sum(counts[..k + 1]) == |ScenarioReplies(last, scenario)|
  }

  lemma CollectedAll(last: MessageTable, final: MessageTable, scenario: ScenarioId, before: nat, now: nat,
                     all: seq<ReplyMessage>)
    requires Extends(last, final) && now <= |last| && Exhausted(last, scenario, before, now)
    requires AllReadable(last, scenario) && all == ScenarioReplies(final[..now], scenario)
    ensures all == ScenarioReplies(last, scenario)
  {
    ExtendsKeepsReplies(last, final, now, scenario);
  }

  lemma OneMoreCount(counts: seq<nat>, expected: seq<nat>, views: seq<seq<MessageTable>>, n: nat,
                     scenario: ScenarioId)
    requires |counts| < |expected| == |views| && forall k | 0 <= k < |views| :: views[k] != []
    requires forall j | 0 <= j < |counts| :: CaughtUp(counts, expected, j, Last(views[j]), scenario)
    ensures Sum(counts + [n]) == Sum(counts) + n && (counts + [n])[..|counts| + 1] == counts + [n]
    ensures forall j | 0 <= j < |counts| :: CaughtUp(counts + [n], expected, j, Last(views[j]), scenario)
  {
    var more := counts + [n];
    assert more[..|counts|] == counts;
    forall j | 0 <= j < |counts| ensures CaughtUp(more, expected, j, Last(views[j]), scenario) {
      assert more[..j + 1] == counts[..j + 1];
      assert CaughtUp(counts, expected, j, Last(views[j]), scenario);
    }
  }

  class MessageQueueService {
    var offsets: map<ScenarioId, nat>  // consumer_offsets; the consumer is named by its scenario

    function Offset(scenario: ScenarioId): nat
      reads this
    {
      if scenario in offsets then offsets[scenario] else 0
    }

    /** One turn of the loop in `dispatch_subtasks`: a row that cannot be encoded is not written,
        and the failure is logged. */
    method WriteRow(messages: MessageTable, scenario: ScenarioId, msg: TaskMessage) returns (later: MessageTable)
      ensures later == messages + DispatchRows(scenario, Written([msg]))
    {
      WrittenSnoc([], msg);
      assert [] + [msg] == [msg];
      if !CleanContext(msg.context) {
        return messages;
      }
      return messages + [DispatchRow(scenario, msg)];
    }

    method DispatchSubtasks(messages: MessageTable, scenario: ScenarioId, subtasks: seq<TaskMessage>)
      returns (later: MessageTable)
      ensures later == messages + DispatchRows(scenario, Written(subtasks))
    {
      later := messages;
      for i := 0 to |subtasks|
        invariant later == messages + DispatchRows(scenario, Written(subtasks[..i]))
      {
        assert subtasks[..i] + [subtasks[i]] == subtasks[..i + 1];
        WrittenConcat(subtasks[..i], [subtasks[i]]);
        later := WriteRow(later, scenario, subtasks[i]);
      }
      assert subtasks[..|subtasks|] == subtasks;
    }

    /** One poll: read at most `limit` rows and advance the offset past each of them. */
    method PollReplies(scenario: ScenarioId, view: MessageTable, limit: nat) returns (replies: seq<ReplyMessage>)
      requires Offset(scenario) <= |view|
      modifies this
      ensures |replies| <= limit
      ensures old(Offset(scenario)) <= Offset(scenario) <= |view|
      ensures forall s | s != scenario :: Offset(s) == old(Offset(s))
      ensures ScenarioReplies(view[..Offset(scenario)], scenario)
              == ScenarioReplies(view[..old(Offset(scenario))], scenario) + replies
      ensures |replies| < limit ==> Exhausted(view, scenario, old(Offset(scenario)), Offset(scenario))
    {
      ghost var start := Offset(scenario);
      var pending := FindPending(view, Offset(scenario), scenario, limit);
      PendingRows(view, start, scenario, limit);
      PendingIsGapFree(view, start, scenario, limit);
      replies := [];
      for k := 0 to |pending|
        invariant replies == Readable(pending[..k]) && |replies| <= k
        invariant Offset(scenario) == Through(pending[..k], start)
        invariant forall s | s != scenario :: Offset(s) == old(Offset(s))
      {
        var record := pending[k];
        assert pending[..k + 1][..k] == pending[..k];
        if record.row.parses {
          replies := replies + [Read(record.row)];
        }
        offsets := offsets[scenario := record.id];
      }
      assert pending[..|pending|] == pending;
      if |replies| < limit {
        PollExhausts(view, start, scenario, limit);
      }
    }

    /** `collect_replies`: views[k] is the table as poll k finds it; the deadline passes
        after the last one. It comes back short only when the last table holds no further reply, or
        rows that cannot be read took the places of some. */
    method CollectReplies(scenario: ScenarioId, expected: nat, views: seq<MessageTable>)
      returns (replies: seq<ReplyMessage>, polls: nat)
      requires Growing(views) && views != [] && Offset(scenario) <= |views[0]|
      modifies this
      ensures polls <= |views| && |replies| <= expected
      ensures |replies| < expected ==> polls == |views|
      ensures old(Offset(scenario)) <= Offset(scenario)
      ensures forall s | s != scenario :: Offset(s) == old(Offset(s))
      ensures Offset(scenario) <= |Last(views)|
      ensures ScenarioReplies(Last(views)[..Offset(scenario)], scenario)
              == ScenarioReplies(Last(views)[..old(Offset(scenario))], scenario) + replies
      ensures |replies| < expected ==>
                Exhausted(Last(views), scenario, old(Offset(scenario)), Offset(scenario))
    {
      ghost var start := Offset(scenario);
      ghost var final := Last(views);
      assert Extends(views[0], final);
      replies, polls := [], 0;
      while |replies| < expected && polls < |views|
        invariant polls <= |views| && |replies| <= expected
        invariant start <= Offset(scenario) <= |final|
        invariant polls < |views| ==> Offset(scenario) <= |views[polls]|
        invariant forall s | s != scenario :: Offset(s) == old(Offset(s))
        invariant ScenarioReplies(final[..Offset(scenario)], scenario)
                  == ScenarioReplies(final[..start], scenario) + replies
        invariant |replies| < expected && polls > 0 ==>
                    Offset(scenario) <= |views[polls - 1]|
                    && Exhausted(views[polls - 1], scenario, start, Offset(scenario))
        decreases |views| - polls
      {
        ghost var before := Offset(scenario);
        assert Extends(views[polls], final);
        var more := PollReplies(scenario, views[polls], expected - |replies|);
        OneMoreCollection(views[polls], final, scenario, before, Offset(scenario),
                          ScenarioReplies(final[..start], scenario) + replies, more);
        Regroup(ScenarioReplies(final[..start], scenario), replies, more);
        if |replies| + |more| < expected {
          StillExhausted(views[polls], scenario, start, before, Offset(scenario));
        }
        replies := replies + more;
        if polls + 1 < |views| {
          assert Extends(views[polls], views[polls + 1]);
        }
        polls := polls + 1;
      }
    }

    /** Successive calls, one per entry of `expected`, with producers appending all the
        while: together they return a gap-free prefix of the scenario's replies, and after a call
        that came back short every reply in the last table it saw, if all can be read. */
    method CollectWaves(scenario: ScenarioId, expected: seq<nat>, views: seq<seq<MessageTable>>, final: MessageTable)
      returns (all: seq<ReplyMessage>, counts: seq<nat>)
      requires |expected| == |views| && Offset(scenario) == 0 && Successive(views, final)
      modifies this
      ensures Offset(scenario) <= |final| && all == ScenarioReplies(final[..Offset(scenario)], scenario)
      ensures all <= ScenarioReplies(final, scenario)
      ensures |counts| == |expected| && forall k | 0 <= k < |counts| :: counts[k] <= expected[k]
      ensures Sum(counts) == |all|
      ensures forall k | 0 <= k < |counts| && counts[k] < expected[k] && AllReadable(Last(views[k]), scenario) ::
                Sum(counts[..k + 1]) == |ScenarioReplies(Last(views[k]), scenario)|
    {
      all, counts := [], [];
      for k := 0 to |views|
        invariant Offset(scenario) <= |final| && all == ScenarioReplies(final[..Offset(scenario)], scenario)
        invariant k < |views| ==> Offset(scenario) <= |views[k][0]|
        invariant |counts| == k && forall j | 0 <= j < k :: counts[j] <= expected[j]
        invariant Sum(counts) == |all|
        invariant forall j | 0 <= j < k :: CaughtUp(counts, expected, j, Last(views[j]), scenario)
      {
        ghost var before := Offset(scenario);
        SuccessiveAt(views, final, k);
        var replies, _ := CollectReplies(scenario, expected[k], views[k]);
        OneMoreCollection(Last(views[k]), final, scenario, before, Offset(scenario), all, replies);
        all := all + replies;
        OneMoreCount(counts, expected, views, |replies|, scenario);
        if |replies| < expected[k] && AllReadable(Last(views[k]), scenario) {
          CollectedAll(Last(views[k]), final, scenario, before, Offset(scenario), all);
        }
        counts := counts + [|replies|];
      }
      RepliesOfPrefix(final, Offset(scenario), scenario);
    }
  }
}
