/** `WSDispatcher`: the registry of execution servers, the futures that forwards wait
    on, and the tasks parked for servers that are offline.

    Each operation is a function on `Registry`; the class performs it on its fields. */
module WsServer {
  import opened Wrappers
  import opened Results
  import opened Sets
  import opened Store

  type SocketId = int

  datatype Job = Job(scenario: ScenarioId, msg: TaskMessage, dispatchId: nat)

  /** An asyncio future: a result, or the exception set when its server went away. */
  datatype Fut = Unresolved | Resolved(result: Value) | Lost

  datatype Registry = Registry(
    connections: map<ServerId, SocketId>,
    pending: map<TaskId, nat>,         // task -> index of its future
    taskServer: map<TaskId, ServerId>,
    deferred: map<ServerId, seq<Job>>,
    futures: seq<Fut>)                 // every future created so far

  const EMPTY := Registry(map[], map[], map[], map[], [])

  function Parked(r: Registry, sid: ServerId): seq<Job> {
    if sid in r.deferred then r.deferred[sid] else []
  }

  function Park(r: Registry, sid: ServerId, job: Job): Registry {
    r.(deferred := r.deferred[sid := Parked(r, sid) + [job]])
  }

  function Drained(r: Registry, sid: ServerId): Registry {
    r.(deferred := r.deferred - {sid})
  }

  /** A forward creates its future and records where the task went. */
  function Tracked(r: Registry, t: TaskId, sid: ServerId): Registry {
    r.(futures := r.futures + [Unresolved],
       pending := r.pending[t := |r.futures|],
       taskServer := r.taskServer[t := sid])
  }

  function Forgotten(r: Registry, t: TaskId): Registry {
    r.(pending := r.pending - {t}, taskServer := r.taskServer - {t})
  }

  predicate WellFormed(r: Registry) {
    forall t | t in r.pending :: r.pending[t] < |r.futures|
  }

  /** `_on_task_result`. The server entry goes even when no future is pending; a future
      that is already done keeps its value and its pending entry. */
  function Answered(r: Registry, t: TaskId, result: Value): Registry
    requires WellFormed(r)
  {
    var popped := r.(taskServer := r.taskServer - {t});
    if t in r.pending && r.futures[r.pending[t]].Unresolved? then
      popped.(futures := r.futures[r.pending[t] := Resolved(result)], pending := r.pending - {t})
    else popped
  }

  /** The futures of the tasks forwarded to a server. */
  function FuturesOf(r: Registry, sid: ServerId): set<nat> {
    set t | t in r.taskServer && r.taskServer[t] == sid && t in r.pending :: r.pending[t]
  }

  function Fail(futures: seq<Fut>, failing: set<nat>): seq<Fut> {
    seq(|futures|, f requires 0 <= f < |futures| =>
      if f in failing && futures[f].Unresolved? then Lost else futures[f])
  }

  predicate Owns(r: Registry, sid: ServerId, w: SocketId) {
    sid in r.connections && r.connections[sid] == w
  }

  /** `_on_disconnect` of socket w for the server id its handler holds. */
  function Disconnected(r: Registry, sid: ServerId, w: SocketId): Registry {
    if Owns(r, sid, w) then
      r.(connections := r.connections - {sid}, futures := Fail(r.futures, FuturesOf(r, sid)))
    else r
  }

  /** A disconnect frees the slot if the socket owns it, and then fails exactly the open futures of tasks
      forwarded to the server; otherwise nothing happens. */
  lemma DisconnectFails(r: Registry, sid: ServerId, w: SocketId)
    requires WellFormed(r)
    ensures var next := Disconnected(r, sid, w);
            if sid in r.connections && r.connections[sid] == w then
              && next.connections == r.connections - {sid} && |next.futures| == |r.futures|
              && (forall t | t in r.taskServer && r.taskServer[t] == sid && t in r.pending ::
                    next.futures[r.pending[t]]
                    == if r.futures[r.pending[t]].Unresolved? then Lost else r.futures[r.pending[t]])
              && (forall f | 0 <= f < |r.futures| && next.futures[f] != r.futures[f] ::
                    exists t :: t in r.taskServer && r.taskServer[t] == sid && t in r.pending && r.pending[t] == f)
            else next == r
  {
  }

  /** The jobs parked one after the other. */
  function ParkAll(r: Registry, sid: ServerId, jobs: seq<Job>): Registry {
    if jobs == [] then r else Park(ParkAll(r, sid, jobs[..|jobs| - 1]), sid, jobs[|jobs| - 1])
  }

  /** Jobs leave their parking list in the order in which they were parked. */
  lemma {:induction false} ParkedInOrder(r: Registry, sid: ServerId, jobs: seq<Job>)
    ensures Parked(ParkAll(r, sid, jobs), sid) == (if sid in r.deferred then r.deferred[sid] else []) + jobs
    ensures forall other | other != sid :: Parked(ParkAll(r, sid, jobs), other) == Parked(r, other)
  {
    if jobs != [] {
      ParkedInOrder(r, sid, jobs[..|jobs| - 1]);
    }
  }

  ghost function FuturesOfTasks(r: Registry, ts: set<TaskId>): set<nat> {
    set t | t in ts && t in r.pending :: r.pending[t]
  }

  lemma FailOneMore(r: Registry, ts: set<TaskId>, t: TaskId)
    requires WellFormed(r)
    ensures var was := Fail(r.futures, FuturesOfTasks(r, ts));
            Fail(r.futures, FuturesOfTasks(r, ts + {t}))
            == if t in r.pending && was[r.pending[t]].Unresolved? then was[r.pending[t] := Lost] else was
  {
    if t in r.pending {
      assert FuturesOfTasks(r, ts + {t}) == FuturesOfTasks(r, ts) + {r.pending[t]};
    } else {
      assert FuturesOfTasks(r, ts + {t}) == FuturesOfTasks(r, ts);
    }
  }

  class WSDispatcher {
    var connections: map<ServerId, SocketId>
    var pending: map<TaskId, nat>
    var taskServer: map<TaskId, ServerId>
    var deferred: map<ServerId, seq<Job>>
    var futures: seq<Fut>
    var scheduled: seq<(ServerId, Job)>  // forwards handed to the event loop, in order

    function View(): Registry
      reads this
    {
      Registry(connections, pending, taskServer, deferred, futures)
    }

    constructor ()
      ensures View() == EMPTY && scheduled == []
    {
      connections, pending, taskServer, deferred := map[], map[], map[], map[];
      futures, scheduled := [], [];
    }

    method IsConnected(sid: ServerId) returns (b: bool)
      ensures b <==> sid in View().connections
    {
      b := sid in connections;
    }

    method ScheduleForward(sid: ServerId, job: Job)
      modifies this`scheduled
      ensures scheduled == old(scheduled) + [(sid, job)]
    {
      scheduled := scheduled + [(sid, job)];
    }

    method Defer(sid: ServerId, job: Job)
      modifies this`deferred
      ensures View() == Park(old(View()), sid, job)
      ensures deferred == old(deferred)[sid := (if sid in old(deferred) then old(deferred)[sid] else []) + [job]]
    {
      if sid !in deferred {
        deferred := deferred[sid := []];
      }
      deferred := deferred[sid := deferred[sid] + [job]];
    }

    /** First half of `_on_register`: the socket takes the slot of its server id. From then on
        the disconnect of the socket kicked out, or of any other, leaves the registry alone,
        and the new socket's frees exactly this slot. */
    method TakeSlot(w: SocketId, sid: ServerId) returns (kicked: Option<SocketId>)
      modifies this`connections
      ensures View() == old(View()).(connections := old(connections)[sid := w])
      ensures kicked == if sid in old(connections) && old(connections)[sid] != w
                        then Some(old(connections)[sid]) else None
      ensures forall other | other != w :: Disconnected(View(), sid, other) == View()
      ensures Disconnected(View(), sid, w).connections == old(connections) - {sid}
    {
      kicked := if sid in connections && connections[sid] != w then Some(connections[sid]) else None;
      connections := connections[sid := w];
    }

    /** Second half of `_on_register`: everything parked for the server is forwarded. */
    method DrainDeferred(sid: ServerId)
      modifies this`deferred, this`scheduled
      ensures View() == Drained(old(View()), sid)
      ensures scheduled == old(scheduled)
              + seq(|Parked(old(View()), sid)|, k requires 0 <= k < |Parked(old(View()), sid)| =>
                  (sid, Parked(old(View()), sid)[k]))
    {
      var parked := if sid in deferred then deferred[sid] else [];
      deferred := deferred - {sid};
      for k := 0 to |parked|
        invariant deferred == old(deferred) - {sid}
        invariant scheduled == old(scheduled) + seq(k, j requires 0 <= j < k => (sid, parked[j]))
      {
        ScheduleForward(sid, parked[k]);
      }
    }

    /** `forward_task` up to its first await. None: the server was gone and the task was
        parked. Otherwise the socket to send to, with the task tracked. */
    method BeginForward(sid: ServerId, job: Job) returns (socket: Option<SocketId>)
      modifies this`pending, this`taskServer, this`futures, this`deferred
      ensures socket == if sid in connections then Some(connections[sid]) else None
      ensures socket.Some? ==> View() == Tracked(old(View()), job.msg.taskId, sid)
      ensures socket.None? ==>
                View() == Park(Forgotten(Tracked(old(View()), job.msg.taskId, sid), job.msg.taskId), sid, job)
      ensures futures == old(futures) + [Unresolved]
      ensures socket.Some? ==>
                && pending == old(pending)[job.msg.taskId := |old(futures)|]
                && taskServer == old(taskServer)[job.msg.taskId := sid] && deferred == old(deferred)
      ensures socket.None? ==>
                && pending == old(pending) - {job.msg.taskId} && taskServer == old(taskServer) - {job.msg.taskId}
                && deferred == old(deferred)[sid := (if sid in old(deferred) then old(deferred)[sid] else []) + [job]]
    {
      var t := job.msg.taskId;
      futures := futures + [Unresolved];
      pending := pending[t := |futures| - 1];
      taskServer := taskServer[t := sid];
      if sid !in connections {
        Forget(t);
        Defer(sid, job);
        return None;
      }
      return Some(connections[sid]);
    }

    method Forget(t: TaskId)
      modifies this`pending, this`taskServer
      ensures View() == Forgotten(old(View()), t)
    {
      pending := pending - {t};
      taskServer := taskServer - {t};
    }

    /** The except branch of `forward_task`. */
    method AbandonForward(sid: ServerId, job: Job)
      modifies this`pending, this`taskServer, this`deferred
      ensures View() == Park(Forgotten(old(View()), job.msg.taskId), sid, job)
      ensures pending == old(pending) - {job.msg.taskId} && taskServer == old(taskServer) - {job.msg.taskId}
      ensures deferred == old(deferred)[sid := (if sid in old(deferred) then old(deferred)[sid] else []) + [job]]
    {
      Forget(job.msg.taskId);
      Defer(sid, job);
    }

    method OnTaskResult(t: TaskId, result: Value)
      requires WellFormed(View())
      modifies this`pending, this`taskServer, this`futures
      ensures View() == Answered(old(View()), t, result)
      ensures taskServer == old(taskServer) - {t}
      ensures if t in old(pending) && old(futures)[old(pending)[t]].Unresolved?
              then pending == old(pending) - {t} && futures == old(futures)[old(pending)[t] := Resolved(result)]
              else pending == old(pending) && futures == old(futures)
    {
      taskServer := taskServer - {t};
      if t in pending && futures[pending[t]].Unresolved? {
        futures := futures[pending[t] := Resolved(result)];
        pending := pending - {t};
      }
    }

    method OnDisconnect(sid: ServerId, w: SocketId)
      requires WellFormed(View())
      modifies this`connections, this`futures
      ensures View() == Disconnected(old(View()), sid, w)
    {
      if !(sid in connections && connections[sid] == w) {
        return;
      }
      connections := connections - {sid};
      var toFail := set t | t in taskServer && taskServer[t] == sid;
      ghost var all := toFail;
      ghost var before := old(View());
      assert Fail(futures, {}) == futures;
      while toFail != {}
        invariant toFail <= all && |futures| == |before.futures|
        invariant connections == before.connections - {sid}
        invariant futures == Fail(before.futures, FuturesOfTasks(before, all - toFail))
        decreases toFail
      {
        var t := Choose(toFail);
        toFail := toFail - {t};
        ghost var done := all - toFail;
        assert done == all - toFail - {t} + {t};
        FailOneMore(before, all - toFail - {t}, t);
        if t in pending && futures[pending[t]].Unresolved? {
          futures := futures[pending[t] := Lost];
        }
      }
      assert all - toFail == all;
      assert FuturesOfTasks(before, all) == FuturesOf(before, sid);
    }
  }

  // ---- futures are resolved at most once ---------------------------------------------------

  /** `later` keeps every future that was already done in `earlier`. */
  ghost predicate KeepsDone(earlier: seq<Fut>, later: seq<Fut>) {
    && |earlier| <= |later|
    && (forall f | 0 <= f < |earlier| && !earlier[f].Unresolved? :: later[f] == earlier[f])
  }
}
