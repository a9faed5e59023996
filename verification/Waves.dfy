/** `_build_waves`: peel a dependency graph into waves, or report a cycle. */
module Waves {
  import opened Wrappers
  import opened Sets
  import opened Graphs

  datatype Subtask = Subtask(id: Id, goal: int, dependsOn: seq<Id>)

  function Ids(subtasks: seq<Subtask>): set<Id> {
    set s | s in subtasks :: s.id
  }

  /** The dictionary from id to subtask; a repeated id keeps its last subtask. */
  function ById(subtasks: seq<Subtask>): (m: map<Id, Subtask>)
    ensures m.Keys == Ids(subtasks)
    ensures forall x | x in m :: m[x] in subtasks && m[x].id == x
  {
    if subtasks == [] then map[] else
      var last := subtasks[|subtasks| - 1];
      assert subtasks == subtasks[..|subtasks| - 1] + [last];
      ById(subtasks[..|subtasks| - 1])[last.id := last]
  }

  /** Dependency lists with unknown and self references dropped. */
  function Sanitized(byId: map<Id, Subtask>): (g: Graph)
    ensures g.Keys == byId.Keys && Closed(g)
  {
    map x | x in byId :: set d | d in byId[x].dependsOn && d in byId && d != x
  }

  function DependencyGraph(subtasks: seq<Subtask>): Graph {
    Sanitized(ById(subtasks))
  }

  /** waves[k] lists every subtask of layer k exactly once. */
  ghost predicate IsWave(g: Graph, byId: map<Id, Subtask>, wave: seq<Subtask>, k: nat) {
    && (forall s | s in wave :: s.id in byId && byId[s.id] == s)
    && (forall i, j | 0 <= i < j < |wave| :: wave[i].id != wave[j].id)
    && (forall x :: x in Ids(wave) <==> InLayer(g, x, k))
  }

  ghost predicate IsWaves(g: Graph, byId: map<Id, Subtask>, waves: seq<seq<Subtask>>) {
    && (forall k | 0 <= k < |waves| :: IsWave(g, byId, waves[k], k) && waves[k] != [])
    && Placed(g, |waves|) == g.Keys
  }

  /** Loop invariant of BuildWaves: the waves so far are exactly the first layers. */
  ghost predicate Peeled(g: Graph, byId: map<Id, Subtask>, waves: seq<seq<Subtask>>,
                         placed: set<Id>, remaining: set<Id>) {
    && placed == Placed(g, |waves|)
    && remaining == g.Keys - placed
    && placed <= g.Keys
    && (forall k | 0 <= k < |waves| :: IsWave(g, byId, waves[k], k) && waves[k] != [])
  }

  /** The ready comprehension: members of `remaining` whose dependencies are all
      placed, in whatever order the set yields them. */
  method Ready(deps: Graph, placed: set<Id>, remaining: set<Id>) returns (ready: seq<Id>)
    requires remaining <= deps.Keys
    ensures forall x :: x in ready <==> x in remaining && deps[x] <= placed
    ensures forall i, j | 0 <= i < j < |ready| :: ready[i] != ready[j]
  {
    ready := [];
    var todo := remaining;
    while todo != {}
      invariant todo <= remaining
      invariant forall x :: x in ready <==> x in remaining - todo && deps[x] <= placed
      invariant forall i, j | 0 <= i < j < |ready| :: ready[i] != ready[j]
      decreases todo
    {
      var x := Choose(todo);
      todo := todo - {x};
      if deps[x] <= placed {
        ready := ready + [x];
      }
    }
  }

  lemma PeelOne(g: Graph, byId: map<Id, Subtask>, waves: seq<seq<Subtask>>,
                placed: set<Id>, remaining: set<Id>, ready: seq<Id>, wave: seq<Subtask>)
    requires g.Keys == byId.Keys && forall x | x in byId :: byId[x].id == x
    requires Peeled(g, byId, waves, placed, remaining)
    requires forall x :: x in ready <==> x in remaining && g[x] <= placed
    requires forall i, j | 0 <= i < j < |ready| :: ready[i] != ready[j]
    requires |wave| == |ready| > 0
    requires forall i | 0 <= i < |ready| :: ready[i] in byId && wave[i] == byId[ready[i]]
    ensures Peeled(g, byId, waves + [wave],
                   placed + (set x | x in ready), remaining - set x | x in ready)
  {
    var k := |waves|;
    forall x ensures x in Placed(g, k + 1) <==> x in placed || x in ready {
      PlacedNext(g, k, x);
    }
    assert placed + (set x | x in ready) == Placed(g, k + 1);
    forall i | 0 <= i < |ready| ensures wave[i].id == ready[i] && ready[i] in byId {
      assert ready[i] in ready;
    }
    forall x ensures x in Ids(wave) <==> x in ready {
      if x in ready {
        var i :| 0 <= i < |ready| && ready[i] == x;
        assert wave[i] in wave;
      }
    }
    assert IsWave(g, byId, wave, k);
  }

  /** No ready node while some node is unplaced: there is a cycle. */
  lemma StuckMeansCyclic(g: Graph, k: nat)
    requires Closed(g) && Placed(g, k) != g.Keys && Placed(g, k) == Placed(g, k + 1)
    ensures Cyclic(g)
  {
    if k <= |g| {
      PlacedStays(g, k, |g|);
    } else {
      PlacedGrows(g, |g|, k);
    }
    PlacedGrows(g, k, k);
    LayersDecideCycles(g);
  }

  lemma StuckIsForGood(g: Graph, k: nat)
    requires Placed(g, k) == Placed(g, k + 1)
    ensures Placed(g, |g|) <= Placed(g, k)
  {
    if k <= |g| {
      PlacedStays(g, k, |g|);
    } else {
      PlacedGrows(g, |g|, k);
    }
  }

  lemma Stuck(g: Graph, byId: map<Id, Subtask>, waves: seq<seq<Subtask>>,
              placed: set<Id>, remaining: set<Id>)
    requires Closed(g) && Peeled(g, byId, waves, placed, remaining) && remaining != {}
    requires forall x | x in remaining :: !(g[x] <= placed)
    ensures Cyclic(g)
    ensures forall p, x | Cycle(g, p) && x in p :: x in remaining
    ensures forall x :: x in remaining <==> HangsOnCycle(g, x)
  {
    forall x ensures x in Placed(g, |waves| + 1) <==> x in placed {
      PlacedNext(g, |waves|, x);
    }
    assert Placed(g, |waves|) == Placed(g, |waves| + 1);
    StuckMeansCyclic(g, |waves|);
    forall p, x | Cycle(g, p) && x in p ensures x in remaining {
      CycleIsNeverPlaced(g, p, |waves|);
    }
    forall x ensures x in remaining <==> HangsOnCycle(g, x) {
      if x in remaining {
        StuckIsForGood(g, |waves|);
        UnplacedHangsOnCycle(g, x);
      }
      if HangsOnCycle(g, x) {
        HangingIsNeverPlaced(g, x, |waves|);
      }
    }
  }

  lemma AllPlacedMeansAcyclic(g: Graph, k: nat)
    requires Placed(g, k) == g.Keys
    ensures !Cyclic(g)
  {
    if Cyclic(g) {
      var p :| Cycle(g, p);
      assert p[0] in g;
      CycleIsNeverPlaced(g, p, k);
    }
  }

  method BuildWaves(subtasks: seq<Subtask>)
    returns (r: Result<seq<seq<Subtask>>, set<Id>>)
    ensures r.Err? <==> Cyclic(DependencyGraph(subtasks))
    ensures r.Ok? ==> IsWaves(DependencyGraph(subtasks), ById(subtasks), r.value)
    ensures r.Err? ==> r.error != {} && r.error <= Ids(subtasks)
                       && forall p, x | Cycle(DependencyGraph(subtasks), p) && x in p :: x in r.error
    ensures r.Err? ==> forall x :: x in r.error <==> HangsOnCycle(DependencyGraph(subtasks), x)
  {
    var byId := ById(subtasks);
    var deps := Sanitized(byId);
    var waves: seq<seq<Subtask>> := [];
    var placed: set<Id> := {};
    var remaining := byId.Keys;
    while remaining != {}
      invariant Peeled(deps, byId, waves, placed, remaining)
      decreases remaining
    {
      var ready := Ready(deps, placed, remaining);
      if ready == [] {
        Stuck(deps, byId, waves, placed, remaining);
        return Err(remaining);
      }
      assert ready[0] in ready;
      var wave := seq(|ready|, i requires 0 <= i < |ready| => byId[ready[i]]);
      PeelOne(deps, byId, waves, placed, remaining, ready, wave);
      waves := waves + [wave];
      placed := placed + set x | x in ready;
      remaining := remaining - set x | x in ready;
    }
    AllPlacedMeansAcyclic(deps, |waves|);
    return Ok(waves);
  }

  // ---- what a successful result means -------------------------------------------

  /** A subtask's wave number is the length of its longest dependency chain, and
      every valid layering needs at least as many levels below it. */
  lemma WaveNumberIsLongestChain(subtasks: seq<Subtask>, waves: seq<seq<Subtask>>, k: nat, x: Id)
    requires IsWaves(DependencyGraph(subtasks), ById(subtasks), waves)
    requires k < |waves| && x in Ids(subtasks)
    ensures x in Ids(waves[k]) <==> LongestChain(DependencyGraph(subtasks), x, k)
    ensures x in Ids(waves[k]) ==>
              forall level | Layering(DependencyGraph(subtasks), level) :: level[x] >= k
  {
    var g := DependencyGraph(subtasks);
    LayerIsLongestChain(g, x, k);
    if x in Ids(waves[k]) {
      forall level | Layering(g, level) ensures level[x] >= k {
        LayerIsEarliest(g, level, x, k);
      }
    }
  }

  lemma MoreToPlace(g: Graph, byId: map<Id, Subtask>, v: seq<seq<Subtask>>, k: nat)
    requires IsWaves(g, byId, v) && k < |v|
    ensures Placed(g, k) != g.Keys
  {
    var s := v[k][0];
    assert s in v[k] && s.id in Ids(v[k]);
    assert InLayer(g, s.id, k);
  }

  lemma SameLength(g: Graph, byId: map<Id, Subtask>, v: seq<seq<Subtask>>, w: seq<seq<Subtask>>)
    requires IsWaves(g, byId, v) && IsWaves(g, byId, w)
    ensures |v| <= |w|
  {
    if |w| < |v| {
      MoreToPlace(g, byId, v, |w|);
    }
  }

  lemma Shared(g: Graph, byId: map<Id, Subtask>, v: seq<Subtask>, w: seq<Subtask>, k: nat, s: Subtask)
    requires IsWave(g, byId, v, k) && IsWave(g, byId, w, k) && s in v
    ensures s in w
  {
    assert s.id in Ids(v);
    assert s.id in Ids(w);
    var s' :| s' in w && s'.id == s.id;
  }

  lemma {:induction false} NoDuplicates(v: seq<Subtask>)
    requires forall i, j | 0 <= i < j < |v| :: v[i].id != v[j].id
    ensures forall s :: multiset(v)[s] <= 1
  {
    if v != [] {
      var n := |v| - 1;
      NoDuplicates(v[..n]);
      assert v == v[..n] + [v[n]];
      assert v[n] !in v[..n];
    }
  }

  lemma SameElements(g: Graph, byId: map<Id, Subtask>, v: seq<Subtask>, w: seq<Subtask>, k: nat)
    requires IsWave(g, byId, v, k) && IsWave(g, byId, w, k)
    ensures multiset(v) == multiset(w)
  {
    NoDuplicates(v);
    NoDuplicates(w);
    forall s ensures s in v <==> s in w {
      if s in v { Shared(g, byId, v, w, k, s); }
      if s in w { Shared(g, byId, w, v, k, s); }
    }
    forall s ensures multiset(v)[s] == multiset(w)[s] {
      assert s in v <==> s in multiset(v);
      assert s in w <==> s in multiset(w);
    }
  }

  /** Any two results for the same subtasks have the same waves as sets, whatever
      order the sets were iterated in; and every subtask is in exactly one wave. */
  lemma WavesAreDetermined(g: Graph, byId: map<Id, Subtask>, v: seq<seq<Subtask>>, w: seq<seq<Subtask>>)
    requires IsWaves(g, byId, v) && IsWaves(g, byId, w)
    ensures |v| == |w|
    ensures forall k | 0 <= k < |v| :: multiset(v[k]) == multiset(w[k])
  {
    SameLength(g, byId, v, w);
    SameLength(g, byId, w, v);
    forall k | 0 <= k < |v| ensures multiset(v[k]) == multiset(w[k]) {
      assert IsWave(g, byId, v[k], k) && IsWave(g, byId, w[k], k);
      SameElements(g, byId, v[k], w[k], k);
    }
  }
}
