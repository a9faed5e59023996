/** Finite dependency graphs: a node maps to the set of nodes it depends on.

    Two things are defined independently and then connected: the layers that a
    scheduler peels off (`Placed`), and walks along dependency edges (`Walk`,
    `Cyclic`, `Reaches`). */
module Graphs {
  import opened Sets

  // Names of tasks and steps are only ever compared for equality.
  type Id = int

  type Graph = map<Id, set<Id>>

  /** Every dependency is itself a node. */
  ghost predicate Closed(g: Graph) {
    forall x | x in g :: g[x] <= g.Keys
  }

  /** Nodes that can be placed in the first k layers. */
  ghost function Placed(g: Graph, k: nat): set<Id> {
    if k == 0 then {} else set x | x in g && g[x] <= Placed(g, k - 1)
  }

  /** p follows dependency edges: each element depends on the next one. */
  ghost predicate Walk(g: Graph, p: seq<Id>) {
    && (forall i | 0 <= i < |p| :: p[i] in g)
    && (forall i | 0 <= i < |p| - 1 :: p[i + 1] in g[p[i]])
  }

  ghost predicate Cycle(g: Graph, p: seq<Id>) {
    2 <= |p| && Walk(g, p) && p[0] == p[|p| - 1]
  }

  ghost predicate Cyclic(g: Graph) {
    exists p :: Cycle(g, p)
  }

  ghost predicate WalkBetween(g: Graph, p: seq<Id>, x: Id, y: Id) {
    2 <= |p| && Walk(g, p) && p[0] == x && p[|p| - 1] == y
  }

  /** x depends on y, directly or through other nodes. */
  ghost predicate Reaches(g: Graph, x: Id, y: Id) {
    exists p :: WalkBetween(g, p, x, y)
  }

  // ---- layers ---------------------------------------------------------------

  lemma {:induction false} PlacedGrows(g: Graph, j: nat, k: nat)
    requires j <= k
    ensures Placed(g, j) <= Placed(g, k) <= g.Keys
  {
    if k == 0 {
    } else if j == k {
      PlacedGrows(g, j - 1, k - 1);
    } else if j > 0 {
      PlacedGrows(g, j - 1, k - 1);
    }
  }

  lemma PlacedNext(g: Graph, k: nat, x: Id)
    ensures x in Placed(g, k + 1) <==>
              x in Placed(g, k) || (x in g && g[x] <= Placed(g, k))
  {
    PlacedGrows(g, k, k + 1);
  }

  /** Once a layer adds nothing, no later layer adds anything. */
  lemma {:induction false} PlacedStays(g: Graph, j: nat, k: nat)
    requires Placed(g, j) == Placed(g, j + 1) && j <= k
    ensures Placed(g, k) == Placed(g, j)
    decreases k
  {
    if j < k {
      PlacedStays(g, j, k - 1);
      assert Placed(g, k) == Placed(g, j + 1);
    }
  }

  // ---- layers and walks -----------------------------------------------------

  /** Walks that start in the first k layers have at most k nodes. */
  lemma {:induction false} PlacedBoundsWalks(g: Graph, k: nat, p: seq<Id>)
    requires Walk(g, p) && |p| > 0 && p[0] in Placed(g, k)
    ensures |p| <= k
  {
    if |p| > 1 {
      assert Walk(g, p[1..]) by {
        forall i | 0 <= i < |p| - 2 ensures p[1..][i + 1] in g[p[1..][i]] {
          assert p[i + 1 + 1] in g[p[i + 1]];
        }
      }
      assert p[0 + 1] in g[p[0]];
      PlacedBoundsWalks(g, k - 1, p[1..]);
    }
  }

  /** A node outside the first k layers starts a walk of k + 1 nodes. */
  lemma {:induction false} UnplacedHasWalk(g: Graph, k: nat, x: Id) returns (p: seq<Id>)
    requires Closed(g) && x in g && x !in Placed(g, k)
    ensures Walk(g, p) && |p| == k + 1 && p[0] == x
  {
    if k == 0 {
      p := [x];
    } else {
      var y := Outside(g[x], Placed(g, k - 1));
      var q := UnplacedHasWalk(g, k - 1, y);
      p := [x] + q;
      forall i | 0 <= i < |p| - 1 ensures p[i + 1] in g[p[i]] {
        if i > 0 { assert q[i - 1 + 1] in g[q[i - 1]]; }
      }
    }
  }

  lemma {:induction false} DistinctBound(p: seq<Id>, nodes: set<Id>)
    requires forall a, b | 0 <= a < b < |p| :: p[a] != p[b]
    requires forall a | 0 <= a < |p| :: p[a] in nodes
    ensures |p| <= |nodes|
  {
    if |p| > 0 {
      var last := p[|p| - 1];
      DistinctBound(p[..|p| - 1], nodes - {last});
    }
  }

  /** A walk with more nodes than the graph visits some node twice. */
  lemma RepeatedNode(g: Graph, p: seq<Id>) returns (i: nat, j: nat)
    requires Walk(g, p) && |p| > |g|
    ensures i < j < |p| && p[i] == p[j]
  {
    if forall a, b | 0 <= a < b < |p| :: p[a] != p[b] {
      DistinctBound(p, g.Keys);
      assert false;
    } else {
      i, j :| 0 <= i < j < |p| && p[i] == p[j];
    }
  }

  lemma SubwalkIsWalk(g: Graph, p: seq<Id>, i: nat, j: nat)
    requires Walk(g, p) && i <= j <= |p|
    ensures Walk(g, p[i..j])
  {
    var q := p[i..j];
    forall k | 0 <= k < |q| - 1 ensures q[k + 1] in g[q[k]] {
      assert p[i + k + 1] in g[p[i + k]];
    }
  }

  /** A node that no layer reaches lies above a cycle. */
  lemma UnplacedMeansCyclic(g: Graph, x: Id)
    requires Closed(g) && x in g && x !in Placed(g, |g|)
    ensures Cyclic(g)
  {
    var p := UnplacedHasWalk(g, |g|, x);
    var i, j := RepeatedNode(g, p);
    SubwalkIsWalk(g, p, i, j + 1);
    assert Cycle(g, p[i..j + 1]);
  }

  /** No member of a cycle is ever placed. */
  lemma {:induction false} CycleIsNeverPlaced(g: Graph, p: seq<Id>, k: nat)
    requires Cycle(g, p)
    ensures forall i | 0 <= i < |p| :: p[i] !in Placed(g, k)
  {
    if k > 0 {
      CycleIsNeverPlaced(g, p, k - 1);
      forall i | 0 <= i < |p| ensures p[i] !in Placed(g, k) {
        if i < |p| - 1 {
          assert p[i + 1] in g[p[i]];
        } else {
          assert p[0 + 1] in g[p[0]];
        }
      }
    }
  }

  /** x is on a cycle, or depends on a member of one. */
  ghost predicate HangsOnCycle(g: Graph, x: Id) {
    exists p :: Cycle(g, p) && (x == p[0] || Reaches(g, x, p[0]))
  }

  lemma UnplacedHangsOnCycle(g: Graph, x: Id)
    requires Closed(g) && x in g && x !in Placed(g, |g|)
    ensures HangsOnCycle(g, x)
  {
    var p := UnplacedHasWalk(g, |g|, x);
    var i, j := RepeatedNode(g, p);
    SubwalkIsWalk(g, p, i, j + 1);
    var q := p[i..j + 1];
    assert Cycle(g, q);
    if i > 0 {
      SubwalkIsWalk(g, p, 0, i + 1);
      assert WalkBetween(g, p[0..i + 1], x, q[0]);
    }
  }

  /** What a placed node depends on is placed. */
  lemma {:induction false} WalkStaysPlaced(g: Graph, k: nat, p: seq<Id>, i: nat)
    requires Walk(g, p) && i < |p| && p[0] in Placed(g, k)
    ensures p[i] in Placed(g, k)
  {
    if i > 0 {
      WalkStaysPlaced(g, k, p, i - 1);
      assert p[i - 1 + 1] in g[p[i - 1]];
      PlacedGrows(g, k - 1, k);
    }
  }

  /** A node that hangs on a cycle is never placed. */
  lemma HangingIsNeverPlaced(g: Graph, x: Id, k: nat)
    requires HangsOnCycle(g, x)
    ensures x in g && x !in Placed(g, k)
  {
    var p :| Cycle(g, p) && (x == p[0] || Reaches(g, x, p[0]));
    CycleIsNeverPlaced(g, p, k);
    if x != p[0] {
      var q :| WalkBetween(g, q, x, p[0]);
      if x in Placed(g, k) {
        WalkStaysPlaced(g, k, q, |q| - 1);
      }
    }
  }

  /** Peeling layers places every node exactly when there is no cycle. */
  lemma LayersDecideCycles(g: Graph)
    requires Closed(g)
    ensures Cyclic(g) <==> Placed(g, |g|) != g.Keys
  {
    PlacedGrows(g, 0, |g|);
    if Placed(g, |g|) != g.Keys {
      var x := Outside(g.Keys, Placed(g, |g|));
      UnplacedMeansCyclic(g, x);
    }
    if Cyclic(g) {
      var p :| Cycle(g, p);
      CycleIsNeverPlaced(g, p, |g|);
      assert p[0] in g;
    }
  }

  // ---- the layer number is the longest chain ----------------------------------

  /** x is in layer k: it is placed by layer k + 1 but not by layer k. */
  ghost predicate InLayer(g: Graph, x: Id, k: nat) {
    x in Placed(g, k + 1) && x !in Placed(g, k)
  }

  /** The longest dependency chain from x has exactly k edges. */
  ghost predicate LongestChain(g: Graph, x: Id, k: nat) {
    && (exists p :: Walk(g, p) && |p| == k + 1 && p[0] == x)
    && (forall p | Walk(g, p) && |p| > 0 && p[0] == x :: |p| <= k + 1)
  }

  lemma LayerIsLongestChain(g: Graph, x: Id, k: nat)
    requires Closed(g) && x in g
    ensures InLayer(g, x, k) <==> LongestChain(g, x, k)
  {
    if InLayer(g, x, k) {
      var p := UnplacedHasWalk(g, k, x);
      forall q | Walk(g, q) && |q| > 0 && q[0] == x ensures |q| <= k + 1 {
        PlacedBoundsWalks(g, k + 1, q);
      }
    }
    if LongestChain(g, x, k) {
      var p :| Walk(g, p) && |p| == k + 1 && p[0] == x;
      if x in Placed(g, k) { PlacedBoundsWalks(g, k, p); }
      if x !in Placed(g, k + 1) {
        var q := UnplacedHasWalk(g, k + 1, x);
        assert false;
      }
    }
  }

  /** A numbering in which every dependency comes strictly earlier. */
  ghost predicate Layering(g: Graph, level: map<Id, nat>) {
    && g.Keys <= level.Keys
    && (forall x, d | x in g && d in g[x] && d in level :: level[d] < level[x])
  }

  /** No valid layering puts a node of layer k before layer k. */
  lemma {:induction false} LayerIsEarliest(g: Graph, level: map<Id, nat>, x: Id, k: nat)
    requires Closed(g) && Layering(g, level) && x in g && x !in Placed(g, k)
    ensures level[x] >= k
    decreases k
  {
    if k > 0 {
      var y := Outside(g[x], Placed(g, k - 1));
      LayerIsEarliest(g, level, y, k - 1);
    }
  }
}
