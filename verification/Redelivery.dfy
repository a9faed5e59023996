/** After a restart every row that the crash left unacked can be acked without executing
    anything. */
module Redelivery {
  import opened Wrappers
  import opened Sets
  import opened Results
  import opened Store
  import opened WsServer
  import opened Delivery
  import opened DeliveryInvariant
  import opened DeliveryFutures
  import opened DeliverySafety
  import opened Recovery

  /** No agent is started, nothing is sent, and no task or reply row is written. */
  predicate Harmless(e: Event) {
    !e.Create? && !e.Insert? && !e.Skip? && !e.Start? && !e.Finish? && !e.Sent? && !e.Finalize? && !e.WriteReply?
    && !e.Crash? && !e.Recover?
  }

  ghost predicate HarmlessRun(s: State, es: seq<Event>) {
    Run(s, es) && forall e | e in es :: Harmless(e)
  }

  lemma JoinHarmless(s: State, es: seq<Event>, more: seq<Event>)
    requires HarmlessRun(s, es) && HarmlessRun(After(s, es), more)
    ensures HarmlessRun(s, es + more) && After(s, es + more) == After(After(s, es), more)
  {
    RunConcat(s, es, more);
  }

  /** No unacked row has a server id that cannot be looked up. */
  ghost predicate NoneStuck(messages: MessageTable) {
    forall k | 0 <= k < |messages| && Unacked(messages[k]) :: !StuckRow(messages[k])
  }

  /** Every task is finished, nothing is under way, and no row is stuck. */
  ghost predicate Calm(s: State) {
    && s.up && s.acts == [] && s.inFlight == {} && s.ws.deferred == map[]
    && SnapshotOk(s.messages, s.snapshot) && RowsOk(s.messages, s.tasks)
    && (forall t | t in s.tasks :: s.tasks[t].Terminal())
    && NoneStuck(s.messages) && forall r | r in s.snapshot :: !StuckRow(r.row)
  }

  // ---- one record ---------------------------------------------------------------------------------

  /** A new socket has registered for sid. */
  function ConnectedState(s: State, w: SocketId, sid: ServerId): State {
    s.(ws := s.ws.(connections := s.ws.connections[sid := w]), sockets := s.sockets[w := Open(Some(sid))])
  }

  lemma RegisteredRun(s: State, w: SocketId, sid: ServerId)
    requires s.up && s.acts == [] && s.ws.deferred == map[]
    requires w in s.sockets && s.sockets[w].Registering? && s.sockets[w].id == sid
    ensures Run(s, [Registered(w)])
    ensures After(s, [Registered(w)]) == s.(sockets := s.sockets[w := Open(Some(sid))])
  {
    var s' := Apply(s, Registered(w));
    assert s'.acts == [] && s'.ws.deferred == map[];
    assert Run(s', []);
  }

  lemma RegisterRun(s: State, w: SocketId, sid: ServerId)
    requires s.up && s.acts == [] && s.ws.deferred == map[] && w in s.sockets && s.sockets[w].Open? && sid.Named()
    ensures HarmlessRun(s, [Register(w, sid), Registered(w)])
    ensures After(s, [Register(w, sid), Registered(w)]) == ConnectedState(s, w, sid)
  {
    var s' := Apply(s, Register(w, sid));
    RegisteredRun(s', w, sid);
    RunCons(s, Register(w, sid), [Registered(w)]);
    assert s'.sockets[w := Open(Some(sid))] == s.sockets[w := Open(Some(sid))];
  }

  lemma RegisteringRun(s: State, w: SocketId, sid: ServerId)
    requires s.up && s.acts == [] && s.ws.deferred == map[] && w !in s.sockets && sid.Named()
    ensures HarmlessRun(s, [Connect(w), Register(w, sid), Registered(w)])
    ensures After(s, [Connect(w), Register(w, sid), Registered(w)]) == ConnectedState(s, w, sid)
  {
    RegisterRun(Apply(s, Connect(w)), w, sid);
    RunCons(s, Connect(w), [Register(w, sid), Registered(w)]);
    assert [Connect(w)] + [Register(w, sid), Registered(w)] == [Connect(w), Register(w, sid), Registered(w)];
    assert ConnectedState(Apply(s, Connect(w)), w, sid) == ConnectedState(s, w, sid);
  }

  /** The server can be connected first. */
  lemma CanConnect(s: State, sid: ServerId) returns (es: seq<Event>)
    requires Calm(s) && sid.Named()
    ensures HarmlessRun(s, es) && Calm(After(s, es)) && sid in After(s, es).ws.connections
    ensures After(s, es) == s.(ws := After(s, es).ws, sockets := After(s, es).sockets)
  {
    if sid in s.ws.connections {
      es := [];
    } else {
      var w := FreshAbove(s.sockets.Keys);
      RegisteringRun(s, w, sid);
      es := [Connect(w), Register(w, sid), Registered(w)];
    }
  }

  /** What the poller makes of the first record when nothing is in flight. */
  lemma TakeFirst(s: State)
    requires Calm(s) && s.snapshot != []
    ensures Enabled(s, Take)
    ensures var rec, s' := s.snapshot[0], Apply(s, Take);
            s' == if !rec.row.parses then s.(snapshot := s.snapshot[1..], messages := AckRow(s.messages, rec.id))
                  else s.(snapshot := s.snapshot[1..], inFlight := {rec.row.msg.taskId},
                          acts := [Activity(Job(rec.row.scenario, rec.row.msg, rec.id), Queued)])
  {
    assert RecordOk(s.messages, s.snapshot[0]);
  }

  lemma AckedRowStaysCalm(s: State, id: nat)
    requires Calm(s) && s.snapshot != []
    ensures Calm(s.(snapshot := s.snapshot[1..], messages := AckRow(s.messages, id)))
  {
    var s' := s.(snapshot := s.snapshot[1..], messages := AckRow(s.messages, id));
    AckExtends(s.messages, id);
    forall k | 0 <= k < |s'.snapshot| ensures RecordOk(s'.messages, s'.snapshot[k]) {
      RecordStaysOk(s.messages, s'.messages, s.snapshot[k + 1]);
    }
    forall k | 0 <= k < |s.messages| ensures SameButAck(s.messages[k], s'.messages[k]) {
    }
    forall r | r in s'.snapshot ensures r in s.snapshot {
    }
  }

  lemma AckTaken(s: State, id: nat) returns (es: seq<Event>)
    requires s.up && |s.acts| == 1 && s.acts[0].phase.Queued? && s.acts[0].job.dispatchId == id
    requires IsTerminal(s.tasks, s.acts[0].Task()) && s.inFlight == {s.acts[0].Task()}
    requires var server := s.acts[0].job.msg.context.server;
             Truthy(server) ==> Hashable(server) && KeyOf(server) in s.ws.connections
    ensures HarmlessRun(s, es)
    ensures After(s, es) == s.(acts := [], inFlight := {}, messages := AckRow(s.messages, id))
  {
    RedeliveryIsAcked(s, 0);
    es := RedeliverySteps(s, 0);
    assert AckedAndGone(s, 0).acts == [] && AckedAndGone(s, 0).inFlight == {};
  }

  lemma FirstIsFinished(s: State)
    requires Calm(s) && s.snapshot != [] && s.snapshot[0].row.Dispatch? && s.snapshot[0].row.parses
    ensures IsTerminal(s.tasks, s.snapshot[0].row.msg.taskId)
  {
    assert RecordOk(s.messages, s.snapshot[0]);
    assert SameButAck(s.snapshot[0].row, s.messages[s.snapshot[0].id - 1]);
  }

  /** A readable record is taken, found finished, and acked. */
  lemma ClearReadable(s: State) returns (es: seq<Event>)
    requires Calm(s) && s.snapshot != [] && s.snapshot[0].row.Dispatch? && s.snapshot[0].row.parses
    requires var server := s.snapshot[0].row.msg.context.server;
             Truthy(server) ==> Hashable(server) && KeyOf(server) in s.ws.connections
    ensures HarmlessRun(s, es)
    ensures After(s, es) == s.(snapshot := s.snapshot[1..], messages := AckRow(s.messages, s.snapshot[0].id))
  {
    TakeFirst(s);
    FirstIsFinished(s);
    var more := AckTaken(Apply(s, Take), s.snapshot[0].id);
    RunCons(s, Take, more);
    es := [Take] + more;
  }

  lemma ClearFirst(s: State) returns (es: seq<Event>)
    requires Calm(s) && s.snapshot != []
    ensures HarmlessRun(s, es) && Calm(After(s, es))
    ensures After(s, es).snapshot == s.snapshot[1..] && After(s, es).tasks == s.tasks
    ensures After(s, es).messages == AckRow(s.messages, s.snapshot[0].id)
  {
    var rec := s.snapshot[0];
    assert RecordOk(s.messages, rec);
    if !rec.row.parses {
      TakeFirst(s);
      es := [Take];
      assert Run(Apply(s, Take), []) && After(s, [Take]) == Apply(s, Take);
      AckedRowStaysCalm(s, rec.id);
    } else if !Truthy(rec.row.msg.context.server) {
      es := ClearReadable(s);
      AckedRowStaysCalm(s, rec.id);
    } else {
      assert rec in s.snapshot && !StuckRow(rec.row);
      var first := CanConnect(s, KeyOf(rec.row.msg.context.server));
      var more := ClearReadable(After(s, first));
      JoinHarmless(s, first, more);
      es := first + more;
      AckedRowStaysCalm(After(s, first), rec.id);
    }
  }

  // ---- a whole snapshot ---------------------------------------------------------------------------

  function AckAll(messages: MessageTable, rows: seq<Record>): MessageTable
    decreases |rows|
  {
    if rows == [] then messages else AckAll(AckRow(messages, rows[0].id), rows[1..])
  }

  lemma {:induction false} AckAllAcks(messages: MessageTable, rows: seq<Record>, k: nat)
    requires k < |messages|
    ensures |AckAll(messages, rows)| == |messages| && Extends(messages, AckAll(messages, rows))
    ensures (exists r :: r in rows && r.id == k + 1) ==> !Unacked(AckAll(messages, rows)[k])
    decreases |rows|
  {
    if rows != [] {
      var next := AckRow(messages, rows[0].id);
      AckExtends(messages, rows[0].id);
      AckAllAcks(next, rows[1..], k);
      ExtendsTransitive(messages, next, AckAll(messages, rows));
      if rows[0].id == k + 1 {
        assert SameButAck(next[k], AckAll(next, rows[1..])[k]);
      }
    }
  }

  lemma {:induction false} ClearSnapshot(s: State) returns (es: seq<Event>)
    requires Calm(s)
    ensures HarmlessRun(s, es) && Calm(After(s, es))
    ensures After(s, es).snapshot == [] && After(s, es).tasks == s.tasks
    ensures After(s, es).messages == AckAll(s.messages, s.snapshot)
    decreases |s.snapshot|
  {
    if s.snapshot == [] {
      es := [];
    } else {
      var first := ClearFirst(s);
      var more := ClearSnapshot(After(s, first));
      JoinHarmless(s, first, more);
      es := first + more;
    }
  }

  // ---- every row ----------------------------------------------------------------------------------

  function UnackedRows(messages: MessageTable): set<nat> {
    set k | 0 <= k < |messages| && Unacked(messages[k])
  }

  lemma PolledStaysCalm(s: State)
    requires Calm(s) && s.snapshot == []
    ensures Enabled(s, Poll) && Calm(Apply(s, Poll))
    ensures Apply(s, Poll) == s.(snapshot := FindUnacked(s.messages, 0, POLL_LIMIT))
  {
    FindUnackedOk(s.messages, 0, POLL_LIMIT);
  }

  lemma {:induction false} FindsSome(messages: MessageTable, k: nat, limit: nat, n: nat)
    requires k <= n < |messages| && Unacked(messages[n]) && limit > 0
    ensures FindUnacked(messages, k, limit) != []
    decreases n - k
  {
    if k < n && !Unacked(messages[k]) {
      FindsSome(messages, k + 1, limit, n);
    }
  }

  /** A poll and its snapshot leave fewer rows unacked. */
  lemma FewerUnacked(messages: MessageTable, n: nat)
    requires n < |messages| && Unacked(messages[n])
    ensures UnackedRows(AckAll(messages, FindUnacked(messages, 0, POLL_LIMIT))) < UnackedRows(messages)
  {
    var rows := FindUnacked(messages, 0, POLL_LIMIT);
    var later := AckAll(messages, rows);
    FindsSome(messages, 0, POLL_LIMIT, n);
    FindUnackedOk(messages, 0, POLL_LIMIT);
    assert rows[0] in rows;
    var first := rows[0].id - 1;
    AckAllAcks(messages, rows, first);
    forall k | k in UnackedRows(later) ensures k in UnackedRows(messages) {
      AckAllAcks(messages, rows, k);
      assert SameButAck(messages[k], later[k]);
    }
    assert first in UnackedRows(messages) && first !in UnackedRows(later);
  }

  lemma {:induction false} ClearEverything(s: State) returns (es: seq<Event>)
    requires Calm(s) && s.snapshot == []
    ensures HarmlessRun(s, es) && Calm(After(s, es)) && UnackedRows(After(s, es).messages) == {}
    ensures After(s, es).tasks == s.tasks
    ensures |After(s, es).messages| == |s.messages|
    decreases UnackedRows(s.messages)
  {
    if UnackedRows(s.messages) == {} {
      es := [];
    } else {
      var n := Member(UnackedRows(s.messages));
      PolledStaysCalm(s);
      var polled := Apply(s, Poll);
      var first := ClearSnapshot(polled);
      FewerUnacked(s.messages, n);
      AckAllAcks(s.messages, polled.snapshot, n);
      var more := ClearEverything(After(polled, first));
      JoinHarmless(polled, first, more);
      RunCons(s, Poll, first + more);
      es := [Poll] + (first + more);
    }
  }

  lemma RestartIsCalm(s: State)
    requires Inv(s) && s.up && NoneStuck(s.messages)
    ensures var restarted := Apply(Apply(s, Crash), Recover);
            Calm(restarted) && restarted.snapshot == [] && restarted.messages == s.messages
  {
    RecoveryIsCompleteAndIdempotent(s.tasks, map[]);
  }

  lemma RestartAcksRows(s: State) returns (es: seq<Event>)
    requires Inv(s) && s.up && NoneStuck(s.messages)
    ensures var restarted := Apply(Apply(s, Crash), Recover);
            && HarmlessRun(restarted, es)
            && (forall m | m in After(restarted, es).messages :: !Unacked(m))
            && Extends(s.messages, After(restarted, es).messages)
            && |After(restarted, es).messages| == |s.messages|
            && After(restarted, es).tasks == restarted.tasks
  {
    RestartIsCalm(s);
    es := ClearEverything(Apply(Apply(s, Crash), Recover));
    RunExtends(Apply(Apply(s, Crash), Recover), es);
    var later := After(Apply(Apply(s, Crash), Recover), es).messages;
    forall m | m in later ensures !Unacked(m) {
      var k :| 0 <= k < |later| && later[k] == m;
      assert k !in UnackedRows(later);
    }
  }

  /** A row with a server id that cannot be looked up is as it was in every run after a restart. */
  lemma StuckRowSurvivesRestart(s: State, es: seq<Event>, k: nat)
    requires Inv(s) && s.up && Run(Apply(Apply(s, Crash), Recover), es)
    requires k < |s.messages| && StuckRow(s.messages[k])
    ensures var later := After(Apply(Apply(s, Crash), Recover), es).messages;
            k < |later| && later[k] == s.messages[k]
  {
    StepKeepsInv(s, Crash);
    StepKeepsInv(Apply(s, Crash), Recover);
    StuckRowIsNeverAcked(Apply(Apply(s, Crash), Recover), es, k);
  }

  /** From the state after a crash and a restart, some run acks every dispatch row that the
      crash left unacked, local or bound to a server, and on the way starts no agent, sends
      nothing, and writes no task or reply row: if and only if no unacked row has a server id
      that cannot be looked up. */
  lemma RestartAcksEveryRow(s: State)
    requires Inv(s) && s.up
    ensures var restarted := Apply(Apply(s, Crash), Recover);
            NoneStuck(s.messages)
            <==> exists es :: HarmlessRun(restarted, es)
                              && (forall m | m in After(restarted, es).messages :: !Unacked(m))
                              && Extends(s.messages, After(restarted, es).messages)
                              && |After(restarted, es).messages| == |s.messages|
                              && After(restarted, es).tasks == restarted.tasks
  {
    var restarted := Apply(Apply(s, Crash), Recover);
    if NoneStuck(s.messages) {
      var es := RestartAcksRows(s);
    } else {
      var k :| 0 <= k < |s.messages| && Unacked(s.messages[k]) && StuckRow(s.messages[k]);
      forall es | Run(restarted, es) ensures exists m :: m in After(restarted, es).messages && Unacked(m) {
        StuckRowSurvivesRestart(s, es, k);
        assert s.messages[k] in After(restarted, es).messages;
      }
    }
  }
}
