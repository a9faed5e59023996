/** The connections table against the history of register and disconnect events. */
module Connections {
  import opened Wrappers
  import opened Store
  import opened WsServer
  import opened Delivery
  import opened DeliveryFutures
  import opened DeliverySafety
  import opened DeliveryLimits

  /** The socket that most recently registered for the server id in this process. */
  function Latest(es: seq<Event>, sid: ServerId): Option<SocketId> {
    if es == [] then None else
      var n := |es| - 1;
      match es[n]
      case Register(w, id) => if id == sid then Some(w) else Latest(es[..n], sid)
      case Crash => None
      case _ => Latest(es[..n], sid)
  }

  lemma RunFront(s: State, es: seq<Event>)
    requires Run(s, es) && es != []
    ensures var n := |es| - 1;
            && Run(s, es[..n]) && Enabled(After(s, es[..n]), es[n])
            && After(s, es) == Apply(After(s, es[..n]), es[n])
  {
    var n := |es| - 1;
    SplitRun(s, es, n);
    assert es[n..] == [es[n]];
  }

  ghost predicate Follows(s: State, sid: ServerId, latest: Option<SocketId>) {
    match latest
    case None => sid !in s.ws.connections
    case Some(w) =>
      && w in s.sockets
      && (sid in s.ws.connections ==> s.ws.connections[sid] == w)
      && (!s.sockets[w].Shut? ==> sid in s.ws.connections)
  }

  /** Holds after every run: a table entry is the latest registrant, and a latest registrant
      whose socket is not shut has its entry. */
  ghost predicate FollowsLatest(s: State, es: seq<Event>) {
    forall sid :: Follows(s, sid, Latest(es, sid))
  }

  predicate TouchesSockets(e: Event) {
    e.Connect? || e.Register? || e.RegisterNameless? || e.Registered? || e.RegisterAckFails? || e.Close? || e.Crash?
  }

  lemma ResumeLeavesSockets(s: State, i: nat)
    requires Enabled(s, Resume(i))
    ensures ResumeStep(s, i).sockets == s.sockets && ResumeStep(s, i).ws.connections == s.ws.connections
  {
  }

  lemma BeginLeavesSockets(s: State, i: nat)
    requires Enabled(s, Begin(i))
    ensures BeginStep(s, i).sockets == s.sockets && BeginStep(s, i).ws.connections == s.ws.connections
  {
  }

  lemma ForwardsLeaveSockets(s: State, e: Event)
    requires Enabled(s, e) && (e.Begin? || e.Resume? || e.SendFails?)
    ensures Apply(s, e).sockets == s.sockets && Apply(s, e).ws.connections == s.ws.connections
  {
    if e.Resume? {
      ResumeLeavesSockets(s, e.i);
    } else if e.Begin? {
      BeginLeavesSockets(s, e.i);
    }
  }

  lemma SocketsUntouched(s: State, e: Event)
    requires Enabled(s, e) && !TouchesSockets(e)
    ensures Apply(s, e).sockets == s.sockets && Apply(s, e).ws.connections == s.ws.connections
  {
    if e.Begin? || e.Resume? || e.SendFails? {
      ForwardsLeaveSockets(s, e);
    }
  }

  lemma ExitFollows(s: State, e: Event, sid: ServerId, latest: Option<SocketId>)
    requires Enabled(s, e) && Follows(s, sid, latest) && (e.RegisterAckFails? || e.Close?)
    ensures Follows(Apply(s, e), sid, latest)
  {
  }

  lemma FollowsStep(s: State, e: Event, sid: ServerId, latest: Option<SocketId>)
    requires Enabled(s, e) && Follows(s, sid, latest)
    ensures Follows(Apply(s, e), sid,
                    if e.Register? && e.sid == sid then Some(e.w) else if e.Crash? then None else latest)
  {
    if !TouchesSockets(e) {
      SocketsUntouched(s, e);
    } else if e.RegisterAckFails? || e.Close? {
      ExitFollows(s, e, sid, latest);
    }
  }

  lemma {:induction false} RunFollowsLatest(es: seq<Event>)
    requires Run(INITIAL, es)
    ensures FollowsLatest(After(INITIAL, es), es)
    decreases |es|
  {
    if es != [] {
      var n := |es| - 1;
      RunFront(INITIAL, es);
      RunFollowsLatest(es[..n]);
      forall sid ensures Follows(After(INITIAL, es), sid, Latest(es, sid)) {
        FollowsStep(After(INITIAL, es[..n]), es[n], sid, Latest(es[..n], sid));
      }
    }
  }

  // ---- entries of sockets that are gone ------------------------------------------------------

  /** The entry for sid, if any, belongs to a handler that will clear it. */
  ghost predicate ClearableEntry(s: State, sid: ServerId) {
    sid in s.ws.connections ==>
      var w := s.ws.connections[sid];
      w in s.sockets && match s.sockets[w]
                        case Open(held) => held == Some(sid)
                        case Registering(id, _) => id == sid
                        case Shut => false
  }

  /** Every entry belongs to a handler that still knows it must clear it. */
  ghost predicate Clearable(s: State) {
    forall sid | sid in s.ws.connections :: ClearableEntry(s, sid)
  }

  /** The steps by which a handler forgets a slot its socket still owns: registering anew
      under another id or without one, and a failing register acknowledgement. */
  predicate LosesSlot(s: State, e: Event)
    requires Enabled(s, e)
  {
    match e
    case Register(w, sid) =>
      s.sockets[w].sid.Some? && s.sockets[w].sid.value != sid && Owns(s.ws, s.sockets[w].sid.value, w)
    case RegisterNameless(w) =>
      s.sockets[w].sid.Some? && Owns(s.ws, s.sockets[w].sid.value, w)
    case RegisterAckFails(w) =>
      Owns(s.ws, s.sockets[w].id, w) && s.sockets[w].prev != Some(s.sockets[w].id)
    case _ => false
  }

  lemma ExitKeepsClearable(s: State, w: SocketId, held: Option<ServerId>, sid: ServerId)
    requires Clearable(s) && w in s.sockets
    requires forall x | x in s.ws.connections && s.ws.connections[x] == w :: held == Some(x)
    ensures ClearableEntry(HandlerExit(s, w, held), sid)
  {
  }

  lemma RegisterKeepsClearable(s: State, w: SocketId, id: ServerId, sid: ServerId)
    requires Clearable(s) && Enabled(s, Register(w, id)) && !LosesSlot(s, Register(w, id))
    ensures ClearableEntry(Apply(s, Register(w, id)), sid)
  {
  }

  lemma HandshakeKeepsClearable(s: State, e: Event, sid: ServerId)
    requires Clearable(s) && Enabled(s, e) && !LosesSlot(s, e)
    requires e.Connect? || e.RegisterNameless? || e.Registered? || e.Crash?
    ensures ClearableEntry(Apply(s, e), sid)
  {
  }

  lemma ClearableKept(s: State, e: Event)
    requires Enabled(s, e) && Clearable(s) && !LosesSlot(s, e)
    ensures Clearable(Apply(s, e))
  {
    forall sid ensures ClearableEntry(Apply(s, e), sid) {
      if !TouchesSockets(e) {
        SocketsUntouched(s, e);
      } else if e.RegisterAckFails? {
        ExitKeepsClearable(s, e.w, s.sockets[e.w].prev, sid);
      } else if e.Close? {
        ExitKeepsClearable(s, e.w, s.sockets[e.w].sid, sid);
      } else if e.Register? {
        RegisterKeepsClearable(s, e.w, e.sid, sid);
      } else {
        HandshakeKeepsClearable(s, e, sid);
      }
    }
  }

  ghost predicate KeepsSlots(s: State, es: seq<Event>)
    requires Run(s, es)
    decreases |es|
  {
    es == [] || (!LosesSlot(s, es[0]) && KeepsSlots(Apply(s, es[0]), es[1..]))
  }

  lemma {:induction false} RunKeepsClearable(s: State, es: seq<Event>)
    requires Clearable(s) && Run(s, es) && KeepsSlots(s, es)
    ensures Clearable(After(s, es))
    decreases |es|
  {
    if es != [] {
      ClearableKept(s, es[0]);
      RunKeepsClearable(Apply(s, es[0]), es[1..]);
    }
  }

  /** After any run in which no handler loses its slot, including replaced sockets: a server
      is connected exactly when its latest registrant has not disconnected, and then to it. */
  lemma ConnectedToLatest(es: seq<Event>, sid: ServerId)
    requires Run(INITIAL, es) && KeepsSlots(INITIAL, es)
    ensures var s := After(INITIAL, es);
            && (sid in s.ws.connections
                <==> Latest(es, sid).Some? && Latest(es, sid).value in s.sockets
                     && !s.sockets[Latest(es, sid).value].Shut?)
            && (sid in s.ws.connections ==> s.ws.connections[sid] == Latest(es, sid).value)
  {
    RunFollowsLatest(es);
    assert Follows(After(INITIAL, es), sid, Latest(es, sid));
    RunKeepsClearable(INITIAL, es);
  }

  /** The disconnect of a replaced socket changes nothing in the registry. */
  lemma ReplacedSocketIsIgnored(s: State, w: SocketId)
    requires Enabled(s, Close(w)) && s.sockets[w].sid.Some? && !Owns(s.ws, s.sockets[w].sid.value, w)
    ensures Apply(s, Close(w)) == s.(sockets := s.sockets[w := Shut])
  {
  }

  lemma OnlyRegisterOwns(s: State, e: Event, w: SocketId, sid: ServerId)
    requires Enabled(s, e) && !Owns(s.ws, sid, w) && e != Register(w, sid)
    ensures !Owns(Apply(s, e).ws, sid, w)
  {
    if !TouchesSockets(e) {
      SocketsUntouched(s, e);
    }
  }

  /** A replaced socket gets its slot back only by registering again: whatever else happens, the
      table never points to it, and its disconnect then changes nothing but the socket. */
  lemma {:induction false} ReplacedNeverReturns(s: State, es: seq<Event>, w: SocketId, sid: ServerId)
    requires Run(s, es) && !Owns(s.ws, sid, w) && Register(w, sid) !in es
    ensures !Owns(After(s, es).ws, sid, w)
    ensures var later := After(s, es);
            Enabled(later, Close(w)) && later.sockets[w].sid == Some(sid) ==>
              Apply(later, Close(w)) == later.(sockets := later.sockets[w := Shut])
    decreases |es|
  {
    if es == [] {
      if Enabled(s, Close(w)) && s.sockets[w].sid == Some(sid) {
        ReplacedSocketIsIgnored(s, w);
      }
    } else {
      OnlyRegisterOwns(s, es[0], w, sid);
      ReplacedNeverReturns(Apply(s, es[0]), es[1..], w, sid);
    }
  }

  // ---- stale entries, exactly -------------------------------------------------------------------

  predicate ShutEntry(s: State, sid: ServerId)
    requires sid in s.ws.connections
  {
    s.ws.connections[sid] in s.sockets && s.sockets[s.ws.connections[sid]].Shut?
  }

  /** Some server counts as connected although its socket is shut. */
  ghost predicate Stale(s: State) {
    exists sid :: sid in s.ws.connections && ShutEntry(s, sid)
  }

  /** Some continuation in which no handler forgets a slot leaves a stale entry. */
  ghost predicate MayBecomeStale(s: State) {
    exists es :: Run(s, es) && KeepsSlots(s, es) && Stale(After(s, es))
  }

  /** A handler that has forgotten its socket's slot for sid will not clear it on its way out. */
  lemma CloseLeavesEntry(s: State, w: SocketId, sid: ServerId)
    requires Enabled(s, Close(w)) && Owns(s.ws, sid, w) && s.sockets[w].sid != Some(sid)
    ensures MayBecomeStale(s)
  {
    var s' := Apply(s, Close(w));
    assert ShutEntry(s', sid);
    assert Run(s', []) && After(s, [Close(w)]) == s' && KeepsSlots(s, [Close(w)]);
  }

  lemma RegisteredThenClose(s: State, w: SocketId, sid: ServerId)
    requires Enabled(s, Registered(w)) && Owns(s.ws, sid, w) && s.sockets[w].id != sid
    ensures MayBecomeStale(s)
  {
    var s' := Apply(s, Registered(w));
    CloseLeavesEntry(s', w, sid);
    var es :| Run(s', es) && KeepsSlots(s', es) && Stale(After(s', es));
    RunCons(s, Registered(w), es);
    assert ([Registered(w)] + es)[1..] == es;
    assert KeepsSlots(s, [Registered(w)] + es);
  }

  lemma LostSlotBecomesStale(s: State, e: Event)
    requires Enabled(s, e) && LosesSlot(s, e)
    ensures MayBecomeStale(Apply(s, e))
  {
    var s' := Apply(s, e);
    if e.RegisterAckFails? {
      assert ShutEntry(s', s.sockets[e.w].id);
      assert Run(s', []) && KeepsSlots(s', []) && After(s', []) == s';
    } else if e.Register? {
      RegisteredThenClose(s', e.w, s.sockets[e.w].sid.value);
    } else {
      CloseLeavesEntry(s', e.w, s.sockets[e.w].sid.value);
    }
  }

  /** A server goes on counting as connected after its socket has shut exactly because of
      these steps: from a sound state, a step lets some continuation, itself without such
      steps, leave a stale entry, if and only if its handler forgets a slot it owns. */
  lemma StaleEntriesExactly(s: State, e: Event)
    requires Enabled(s, e) && Clearable(s)
    ensures LosesSlot(s, e) <==> MayBecomeStale(Apply(s, e))
  {
    if LosesSlot(s, e) {
      LostSlotBecomesStale(s, e);
    } else {
      ClearableKept(s, e);
      forall es | Run(Apply(s, e), es) && KeepsSlots(Apply(s, e), es) ensures !Stale(After(Apply(s, e), es)) {
        RunKeepsClearable(Apply(s, e), es);
      }
    }
  }

  /** A socket that closes before its register acknowledgement is sent stays in the table. */
  lemma FailedAckLeavesStaleEntry(w: SocketId, sid: ServerId)
    requires sid.Named()
    ensures exists s :: Reachable(s) && Owns(s.ws, sid, w) && w in s.sockets && s.sockets[w].Shut?
  {
    InitiallyReachable();
    var s := ReachStep(INITIAL, Connect(w));
    s := ReachStep(s, Register(w, sid));
    s := ReachStep(s, RegisterAckFails(w));
    assert Owns(s.ws, sid, w);
  }

  // ---- forwards and gone servers ------------------------------------------------------------------

  /** No forward waits on a server that is gone: over every run in which no handler forgets a
      slot, an unresolved pending future belongs to a forward whose server is connected
      through a socket that has not shut. */
  lemma NoForwardWaitsOnGoneServer(es: seq<Event>, t: TaskId)
    requires Run(INITIAL, es) && KeepsSlots(INITIAL, es)
    requires t in After(INITIAL, es).ws.pending
    ensures var s := After(INITIAL, es);
            && s.ws.pending[t] < |s.ws.futures|
            && (s.ws.futures[s.ws.pending[t]].Unresolved? ==>
                  && t in s.ws.taskServer && s.ws.taskServer[t] in s.ws.connections
                  && s.ws.connections[s.ws.taskServer[t]] in s.sockets
                  && !s.sockets[s.ws.connections[s.ws.taskServer[t]]].Shut?)
  {
    InitialInv();
    RunKeepsInv(INITIAL, es);
    RunKeepsClearable(INITIAL, es);
    WaitingForwardIsTracked(After(INITIAL, es), t);
  }

  /** The activity awaits an open future, and its server's socket is shut. */
  predicate WaitsOnShutSocket(s: State, i: nat) {
    && At(s, i) && s.acts[i].phase.Awaiting?
    && s.acts[i].phase.fut < |s.ws.futures| && s.ws.futures[s.acts[i].phase.fut].Unresolved?
    && s.acts[i].phase.server in s.ws.connections && ShutEntry(s, s.acts[i].phase.server)
  }

  const OTHER := NumberId(8.0)

  lemma FinishesRegistering(s: State) returns (later: State)
    requires Reachable(s) && s.up && s.sockets == map[3 := Registering(OTHER, Some(SRV))] && s.ws.deferred == map[]
    ensures Reachable(later) && later == s.(sockets := map[3 := Open(Some(OTHER))])
  {
    later := ReachStep(s, Registered(3));
    assert later.acts == s.acts && later.ws.deferred == map[];
  }

  lemma RegistersAnew(s: State) returns (later: State)
    requires Reachable(s) && s.up && s.sockets == map[3 := Open(Some(SRV))] && s.ws.deferred == map[]
    ensures Reachable(later) && later.up && later.acts == s.acts
    ensures later.ws == s.ws.(connections := s.ws.connections[OTHER := 3])
    ensures later.sockets == map[3 := Open(Some(OTHER))]
  {
    later := ReachStep(s, Register(3, OTHER));
    later := FinishesRegistering(later);
  }

  lemma MovesToOtherId(s: State) returns (later: State)
    requires Reachable(s) && s.up && s.sockets == map[3 := Open(Some(SRV))] && s.ws.connections == map[SRV := 3]
    requires s.ws.deferred == map[] && forall t | t in s.ws.taskServer :: s.ws.taskServer[t] == SRV
    ensures Reachable(later) && later.up && later.acts == s.acts && later.ws.futures == s.ws.futures
    ensures later.ws.connections == map[SRV := 3] && later.sockets == map[3 := Shut]
  {
    later := RegistersAnew(s);
    var other := later.ws;
    later := ReachStep(later, Close(3));
    assert FuturesOf(other, OTHER) == {};
    assert later.ws.futures == other.futures;
  }

  /** Without that condition it fails: a forward waits on a server whose socket, after
      registering anew under another id, has shut. */
  lemma ForwardWaitsOnShutSocket()
    ensures exists s, i :: Reachable(s) && WaitsOnShutSocket(s, i)
  {
    DispatchedIsReachable();
    OneUnacked([Row(false)]);
    QueuedIsReachable([Row(false)], 1, Pending, []);
    var s := SendingIsReachable([Row(false)], 1, Pending, []);
    s := ReachStep(s, Sent(0));
    var later := MovesToOtherId(s);
    assert WaitsOnShutSocket(later, 0);
  }
}
