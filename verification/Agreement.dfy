/** The two topological sorters, and the ready-set iteration, on the same graph. */
module Agreement {
  import opened Graphs
  import opened Waves
  import opened Flow

  /** Subtasks and flow steps that list the same dependencies. */
  ghost predicate SameLists(byId: map<Id, Subtask>, steps: Steps) {
    && byId.Keys == steps.Keys
    && (forall x | x in steps :: byId[x].dependsOn == steps[x].dependsOn)
  }

  ghost predicate SelfReference(steps: Steps) {
    exists x :: x in steps && x in steps[x].dependsOn
  }

  lemma NoSelfReferences(byId: map<Id, Subtask>, steps: Steps)
    requires SameLists(byId, steps) && !SelfReference(steps)
    ensures Known(steps) == Sanitized(byId)
  {
    forall x | x in steps ensures Known(steps)[x] == Sanitized(byId)[x] {
      assert x !in steps[x].dependsOn;
    }
  }

  /** `get_execution_order` raises exactly when `_build_waves` does or some step
      lists itself. So the sorters disagree exactly on graphs whose only cycles
      are self references, and there only `get_execution_order` raises. */
  lemma SortersAgree(byId: map<Id, Subtask>, steps: Steps)
    requires SameLists(byId, steps)
    ensures Cyclic(Known(steps)) <==> Cyclic(Sanitized(byId)) || SelfReference(steps)
  {
    var all, proper := Known(steps), Sanitized(byId);
    if Cyclic(proper) {
      var p :| Cycle(proper, p);
      forall i | 0 <= i < |p| - 1 ensures p[i + 1] in all[p[i]] {
        assert p[i + 1] in proper[p[i]];
      }
      assert Cycle(all, p);
    }
    if SelfReference(steps) {
      var x :| x in steps && x in steps[x].dependsOn;
      assert Cycle(all, [x, x]);
    }
    if Cyclic(all) && !SelfReference(steps) {
      NoSelfReferences(byId, steps);
    }
  }

  // ---- iterating the ready set ----------------------------------------------------

  /** Steps completed after k rounds that each complete all of `get_ready_steps`. */
  ghost function Done(steps: Steps, k: nat): set<Id> {
    if k == 0 then {} else Done(steps, k - 1) + ReadyIds(steps, Done(steps, k - 1))
  }

  ghost predicate AllKnown(steps: Steps) {
    forall x, d | x in steps && d in steps[x].dependsOn :: d in steps
  }

  lemma KnownIsList(steps: Steps, x: Id, s: set<Id>)
    requires AllKnown(steps) && x in steps
    ensures Known(steps)[x] <= s <==> AllIn(steps[x].dependsOn, s)
  {
    if Known(steps)[x] <= s {
      forall d | d in steps[x].dependsOn ensures d in s {
        assert d in Known(steps)[x];
      }
    }
    if AllIn(steps[x].dependsOn, s) {
      forall d | d in Known(steps)[x] ensures d in s {
      }
    }
  }

  lemma RoundStep(steps: Steps, done: set<Id>, x: Id)
    requires AllKnown(steps)
    ensures x in done + ReadyIds(steps, done)
            <==> x in done || (x in steps && Known(steps)[x] <= done)
  {
    if x in steps {
      KnownIsList(steps, x, done);
    }
  }

  lemma OneMoreRound(steps: Steps, done: set<Id>, k: nat)
    requires AllKnown(steps) && done == Placed(Known(steps), k)
    ensures done + ReadyIds(steps, done) == Placed(Known(steps), k + 1)
  {
    forall x ensures x in done + ReadyIds(steps, done) <==> x in Placed(Known(steps), k + 1) {
      PlacedNext(Known(steps), k, x);
      RoundStep(steps, done, x);
    }
  }

  /** With no unknown references, k rounds complete exactly the first k layers. */
  lemma {:induction false} RoundsAreLayers(steps: Steps, k: nat)
    requires AllKnown(steps)
    ensures Done(steps, k) == Placed(Known(steps), k)
  {
    if k > 0 {
      RoundsAreLayers(steps, k - 1);
      OneMoreRound(steps, Done(steps, k - 1), k - 1);
      assert Done(steps, k) == Done(steps, k - 1) + ReadyIds(steps, Done(steps, k - 1));
    }
  }

  /** On graphs with only known, non-self references, round k of the ready set is
      wave k of `_build_waves`. */
  lemma RoundsAreWaves(byId: map<Id, Subtask>, steps: Steps, waves: seq<seq<Subtask>>, k: nat)
    requires SameLists(byId, steps) && AllKnown(steps) && !SelfReference(steps)
    requires IsWaves(Sanitized(byId), byId, waves)
    ensures k < |waves| ==> ReadyIds(steps, Done(steps, k)) == Ids(waves[k])
    ensures Done(steps, |waves|) == steps.Keys
  {
    var g := Known(steps);
    NoSelfReferences(byId, steps);
    RoundsAreLayers(steps, |waves|);
    RoundsAreLayers(steps, k);
    if k < |waves| {
      assert IsWave(g, byId, waves[k], k);
      forall x ensures x in ReadyIds(steps, Done(steps, k)) <==> x in Ids(waves[k]) {
        PlacedNext(g, k, x);
        if x in steps {
          KnownIsList(steps, x, Done(steps, k));
        }
      }
    }
  }

  lemma {:induction false} DoneIsClosed(steps: Steps, k: nat)
    ensures Done(steps, k) <= steps.Keys
    ensures forall x, d | x in Done(steps, k) && d in steps[x].dependsOn :: d in Done(steps, k)
  {
    if k > 0 {
      DoneIsClosed(steps, k - 1);
      forall x, d | x in Done(steps, k) && d in steps[x].dependsOn ensures d in Done(steps, k) {
      }
    }
  }

  /** The ready-set iteration finishes exactly when every reference is known and
      there is no cycle: unlike the sorters, it never gets past an unknown one. */
  lemma RoundsFinish(steps: Steps)
    ensures (exists k: nat :: Done(steps, k) == steps.Keys)
            <==> AllKnown(steps) && !Cyclic(Known(steps))
  {
    var g := Known(steps);
    if k: nat :| Done(steps, k) == steps.Keys {
      DoneIsClosed(steps, k);
      RoundsAreLayers(steps, k);
      AllPlacedMeansAcyclic(g, k);
    }
    if AllKnown(steps) && !Cyclic(g) {
      LayersDecideCycles(g);
      RoundsAreLayers(steps, |g|);
    }
  }
}
