/** How failures spread through a dependency graph, and through a schedule in which replies
    may come late. */
module Failures {
  import opened Graphs

  ghost predicate ReachesAny(g: Graph, x: Id, bad: set<Id>) {
    exists y :: y in bad && Reaches(g, x, y)
  }

  /** Nodes with a direct or transitive dependency in `bad`. */
  ghost function Affected(g: Graph, bad: set<Id>): set<Id> {
    set x | x in g && ReachesAny(g, x, bad)
  }

  /** A direct dependency is in `bad`. */
  ghost predicate Blocked(g: Graph, bad: set<Id>, x: Id) {
    x in g && exists d :: d in g[x] && d in bad
  }

  lemma PrependWalk(g: Graph, x: Id, p: seq<Id>, d: Id, y: Id)
    requires WalkBetween(g, p, d, y) && x in g && d in g[x]
    ensures Reaches(g, x, y)
  {
    var q := [x] + p;
    forall i | 0 <= i < |q| - 1 ensures q[i + 1] in g[q[i]] {
      if i > 0 { assert p[i - 1 + 1] in g[p[i - 1]]; }
    }
    assert WalkBetween(g, q, x, y);
  }

  lemma AffectedStep(g: Graph, bad: set<Id>, x: Id)
    requires Closed(g) && bad <= g.Keys
    ensures x in Affected(g, bad) <==> Blocked(g, bad + Affected(g, bad), x)
  {
    if x in Affected(g, bad) {
      var y :| y in bad && Reaches(g, x, y);
      var p :| WalkBetween(g, p, x, y);
      var d := p[1];
      assert p[0 + 1] in g[p[0]];
      if |p| > 2 {
        SubwalkIsWalk(g, p, 1, |p|);
        assert WalkBetween(g, p[1..], d, y);
        assert Reaches(g, d, y);
      }
    }
    if Blocked(g, bad + Affected(g, bad), x) {
      var d :| d in g[x] && d in bad + Affected(g, bad);
      if d in bad {
        assert WalkBetween(g, [x, d], x, d);
        assert Reaches(g, x, d);
      } else {
        var y :| y in bad && Reaches(g, d, y);
        var p :| WalkBetween(g, p, d, y);
        PrependWalk(g, x, p, d, y);
      }
    }
  }

  /** Dependencies of a node in layer k are in the first k layers, so only failures there can
      block it. */
  lemma BlockedLooksBack(g: Graph, a: set<Id>, b: set<Id>, k: nat, x: Id)
    requires x in Placed(g, k + 1)
    requires forall d | d in Placed(g, k) :: d in a <==> d in b
    ensures Blocked(g, a, x) <==> Blocked(g, b, x)
  {
    if Blocked(g, a, x) {
      var d :| d in g[x] && d in a;
      assert d in b;
    }
    if Blocked(g, b, x) {
      var d :| d in g[x] && d in b;
      assert d in a;
    }
  }

  /** Whatever a node placed in the first k + 1 layers depends on is in the first k. */
  lemma {:induction false} DependenciesAreEarlier(g: Graph, k: nat, p: seq<Id>)
    requires Walk(g, p) && |p| >= 2 && p[0] in Placed(g, k + 1)
    ensures p[|p| - 1] in Placed(g, k)
  {
    assert p[0 + 1] in g[p[0]];
    assert p[1] in Placed(g, k);
    if |p| > 2 {
      SubwalkIsWalk(g, p, 1, |p|);
      DependenciesAreEarlier(g, k - 1, p[1..]);
      PlacedGrows(g, k - 1, k);
    }
  }

  // ---- struck nodes ----------------------------------------------------------------------------

  /** The nodes that are hit, and everything that depends on one of them. */
  ghost function Struck(g: Graph, hit: set<Id>): set<Id> {
    hit + Affected(g, hit)
  }

  /** A node is struck exactly when it is hit or a direct dependency is struck. */
  lemma StruckStep(g: Graph, hit: set<Id>, x: Id)
    requires Closed(g) && hit <= g.Keys
    ensures x in Struck(g, hit) <==> x in hit || Blocked(g, Struck(g, hit), x)
  {
    AffectedStep(g, hit, x);
  }

  /** Hits outside the first k layers strike nothing inside them, and hits never heal. */
  lemma LaterHits(g: Graph, hit: set<Id>, more: set<Id>, k: nat)
    requires forall y | y in more :: y !in Placed(g, k)
    ensures Struck(g, hit + more) * Placed(g, k) == Struck(g, hit) * Placed(g, k)
    ensures Struck(g, hit) <= Struck(g, hit + more)
  {
    forall x | x in Struck(g, hit) ensures x in Struck(g, hit + more) {
      if x in Affected(g, hit) {
        var y :| y in hit && Reaches(g, x, y);
        assert y in hit + more;
      }
    }
    forall x | x in Struck(g, hit + more) && x in Placed(g, k) ensures x in Struck(g, hit) {
      if x !in hit {
        var y :| y in hit + more && Reaches(g, x, y);
        var p :| WalkBetween(g, p, x, y);
        DependenciesAreEarlier(g, k - 1, p);
        PlacedGrows(g, k - 1, k);
      }
    }
  }

  lemma NothingStruck(g: Graph)
    ensures Struck(g, {}) == {}
  {
  }

  // ---- one pass over the later waves ----------------------------------------------------------

  /** The graph that `_propagate_failure` sees from wave `start` on: earlier nodes count only
      when they are in the failed set themselves. */
  ghost function LaterPart(g: Graph, start: nat): (later: Graph)
    ensures later.Keys == g.Keys
  {
    map x | x in g :: if x in Placed(g, start) then {} else g[x]
  }

  lemma NothingEarlierAffected(g: Graph, bad: set<Id>, start: nat)
    ensures Affected(LaterPart(g, start), bad) * Placed(g, start) == {}
  {
    var later := LaterPart(g, start);
    forall x | x in Affected(later, bad) ensures x !in Placed(g, start) {
      var y :| y in bad && Reaches(later, x, y);
      var p :| WalkBetween(later, p, x, y);
      assert p[0 + 1] in later[p[0]];
    }
  }

  lemma AffectedAreNodes(g: Graph, start: nat, bad: set<Id>, k: nat)
    requires Placed(g, k) == g.Keys
    ensures Affected(LaterPart(g, start), bad) * Placed(g, k) == Affected(LaterPart(g, start), bad)
  {
  }

  /** Outside the first n layers, the hit nodes are those with a bad dependency. */
  ghost predicate HitsFrom(g: Graph, hit: set<Id>, bad: set<Id>, n: nat) {
    forall z | z in g && z !in Placed(g, n) :: z in hit <==> Blocked(g, bad, z)
  }

  lemma {:induction false} FoundIsStruck(g: Graph, hit: set<Id>, skipped: set<Id>, bad: set<Id>, n: nat, p: seq<Id>)
    requires Closed(g) && hit <= g.Keys
    requires skipped == Struck(g, hit) * Placed(g, n) && HitsFrom(g, hit, bad, n)
    requires |p| >= 2 && Walk(LaterPart(g, n), p) && p[|p| - 1] in skipped + bad
    ensures p[0] in Struck(g, hit) && p[0] !in Placed(g, n)
  {
    var later := LaterPart(g, n);
    var x, d := p[0], p[1];
    assert p[0 + 1] in later[p[0]];
    StruckStep(g, hit, x);
    if |p| > 2 {
      SubwalkIsWalk(later, p, 1, |p|);
      FoundIsStruck(g, hit, skipped, bad, n, p[1..]);
    } else if d in bad {
      assert Blocked(g, bad, x);
    }
  }

  lemma HitIsFound(g: Graph, hit: set<Id>, skipped: set<Id>, bad: set<Id>, n: nat, x: Id)
    requires Closed(g) && hit <= g.Keys && bad <= g.Keys && skipped <= g.Keys
    requires HitsFrom(g, hit, bad, n) && x in hit && x !in Placed(g, n)
    ensures x in Affected(LaterPart(g, n), skipped + bad)
  {
    var d :| d in g[x] && d in bad;
    assert Blocked(LaterPart(g, n), skipped + bad + Affected(LaterPart(g, n), skipped + bad), x);
    AffectedStep(LaterPart(g, n), skipped + bad, x);
  }

  lemma {:induction false} StruckIsFound(g: Graph, hit: set<Id>, skipped: set<Id>, bad: set<Id>, n: nat, p: seq<Id>)
    requires Closed(g) && hit <= g.Keys && bad <= g.Keys
    requires skipped == Struck(g, hit) * Placed(g, n) && HitsFrom(g, hit, bad, n)
    requires |p| >= 2 && Walk(g, p) && p[|p| - 1] in hit && p[0] !in Placed(g, n)
    ensures p[0] in Affected(LaterPart(g, n), skipped + bad)
  {
    var later, f, x, d := LaterPart(g, n), skipped + bad, p[0], p[1];
    assert p[0 + 1] in g[p[0]];
    if d in Placed(g, n) {
      if |p| > 2 {
        SubwalkIsWalk(g, p, 1, |p|);
        assert WalkBetween(g, p[1..], d, p[|p| - 1]);
        assert Reaches(g, d, p[|p| - 1]);
      }
      assert d in skipped;
    } else if |p| > 2 {
      SubwalkIsWalk(g, p, 1, |p|);
      StruckIsFound(g, hit, skipped, bad, n, p[1..]);
    } else {
      HitIsFound(g, hit, skipped, bad, n, d);
    }
    assert Blocked(later, f + Affected(later, f), x);
    AffectedStep(later, f, x);
  }

  /** One pass over the waves from n on, starting from the bad nodes and the struck nodes of
      the earlier waves, finds exactly the struck nodes of the later ones. */
  lemma PropagationFindsStruck(g: Graph, hit: set<Id>, skipped: set<Id>, bad: set<Id>, n: nat)
    requires Closed(g) && hit <= g.Keys && bad <= g.Keys
    requires skipped == Struck(g, hit) * Placed(g, n) && HitsFrom(g, hit, bad, n)
    ensures Affected(LaterPart(g, n), skipped + bad) == Struck(g, hit) - Placed(g, n)
  {
    var later, f := LaterPart(g, n), skipped + bad;
    forall x ensures x in Affected(later, f) <==> x in Struck(g, hit) - Placed(g, n) {
      if x in Affected(later, f) {
        var y :| y in f && Reaches(later, x, y);
        var p :| WalkBetween(later, p, x, y);
        FoundIsStruck(g, hit, skipped, bad, n, p);
      }
      if x in Struck(g, hit) && x !in Placed(g, n) {
        if x in hit {
          HitIsFound(g, hit, skipped, bad, n, x);
        } else {
          var y :| y in hit && Reaches(g, x, y);
          var p :| WalkBetween(g, p, x, y);
          StruckIsFound(g, hit, skipped, bad, n, p);
        }
      }
    }
  }

  // ---- without late replies: plain reachability --------------------------------------------------

  lemma ReachesTransitive(g: Graph, x: Id, y: Id, z: Id)
    requires Reaches(g, x, y) && Reaches(g, y, z)
    ensures Reaches(g, x, z)
  {
    var p :| WalkBetween(g, p, x, y);
    var q :| WalkBetween(g, q, y, z);
    var r := p + q[1..];
    forall i | 0 <= i < |r| - 1 ensures r[i + 1] in g[r[i]] {
      if i + 1 < |p| {
        assert p[i + 1] in g[p[i]];
      } else {
        var j := i - |p| + 1;
        assert r[i] == q[j] && r[i + 1] == q[j + 1];
      }
    }
    assert WalkBetween(g, r, x, z);
  }

  ghost function DirectDependents(g: Graph, bad: set<Id>): set<Id> {
    set x | x in g && Blocked(g, bad, x)
  }

  lemma OneStep(g: Graph, z: Id, d: Id)
    requires z in g && d in g[z] && d in g
    ensures Reaches(g, z, d)
  {
    assert WalkBetween(g, [z, d], z, d);
  }

  lemma LastButOne(g: Graph, p: seq<Id>, bad: set<Id>)
    requires |p| >= 2 && Walk(g, p) && p[|p| - 1] in bad
    ensures p[0] in Struck(g, DirectDependents(g, bad))
  {
    var k := |p| - 2;
    var d := p[k + 1];
    assert d in g[p[k]] && d in bad;
    assert p[k] in DirectDependents(g, bad);
    if k > 0 {
      SubwalkIsWalk(g, p, 0, k + 1);
      assert WalkBetween(g, p[0..k + 1], p[0], p[k]);
      assert Reaches(g, p[0], p[k]);
    }
  }

  /** Striking the direct dependents of the bad nodes is striking all transitive ones. */
  lemma DirectDependentsStrike(g: Graph, bad: set<Id>)
    requires Closed(g)
    ensures Struck(g, DirectDependents(g, bad)) == Affected(g, bad)
  {
    var hit := DirectDependents(g, bad);
    forall x ensures x in Struck(g, hit) <==> x in Affected(g, bad) {
      if x in Struck(g, hit) {
        var z := if x in hit then x else var y :| y in hit && Reaches(g, x, y); y;
        var d :| d in g[z] && d in bad;
        assert z in g;
        if x == z {
          OneStep(g, z, d);
        } else {
          OneStep(g, z, d);
          ReachesTransitive(g, x, z, d);
        }
      }
      if x in Affected(g, bad) {
        var y :| y in bad && Reaches(g, x, y);
        var p :| WalkBetween(g, p, x, y);
        LastButOne(g, p, bad);
      }
    }
  }

  /** If the failed set already contains its dependents among the earlier waves, the one pass
      finds all transitive dependents. */
  lemma PropagationIsReachability(g: Graph, bad: set<Id>, start: nat)
    requires Closed(g) && bad <= Placed(g, start)
    requires Affected(g, bad) * Placed(g, start) <= bad
    ensures Affected(LaterPart(g, start), bad) == Affected(g, bad) - Placed(g, start)
  {
    var hit := DirectDependents(g, bad);
    PlacedGrows(g, start, start);
    DirectDependentsStrike(g, bad);
    PropagationFindsStruck(g, hit, Struck(g, hit) * Placed(g, start), bad, start);
    assert Struck(g, hit) * Placed(g, start) + bad == bad;
  }
}
