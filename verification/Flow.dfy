/** `FlowDefinition`: steps in insertion order, the depth-first topological sort
    `get_execution_order`, and the ready set `get_ready_steps`. */
module Flow {
  import opened Wrappers
  import opened Graphs

  datatype FlowStep = FlowStep(stepId: Id, goal: int, dependsOn: seq<Id>)

  type Steps = map<Id, FlowStep>

  ghost predicate WellKeyed(steps: Steps) {
    forall x | x in steps :: steps[x].stepId == x
  }

  /** Known dependencies. Unknown references drop out; self references stay. */
  function Known(steps: Steps): (g: Graph)
    ensures g.Keys == steps.Keys && Closed(g)
  {
    map x | x in steps :: set d | d in steps[x].dependsOn && d in steps
  }

  function StepIds(order: seq<FlowStep>): set<Id> {
    set s | s in order :: s.stepId
  }

  /** Each listed step is a step of the flow, appears once, and comes after all of
      its known dependencies. */
  ghost predicate Topological(steps: Steps, order: seq<FlowStep>) {
    && (forall i | 0 <= i < |order| :: order[i].stepId in steps && steps[order[i].stepId] == order[i])
    && (forall i, j | 0 <= i < j < |order| :: order[i].stepId != order[j].stepId)
    && (forall i | 0 <= i < |order| :: Known(steps)[order[i].stepId] <= StepIds(order[..i]))
  }

  lemma PathClosesCycle(g: Graph, path: seq<Id>, id: Id)
    requires Walk(g, path) && id in path && id in g && id in g[path[|path| - 1]]
    ensures exists p :: Cycle(g, p) && p[0] == id
  {
    var i :| 0 <= i < |path| && path[i] == id;
    SubwalkIsWalk(g, path, i, |path|);
    var p := path[i..] + [id];
    forall k | 0 <= k < |p| - 1 ensures p[k + 1] in g[p[k]] {
      if k + 1 < |path[i..]| {
        assert path[i..][k + 1] in g[path[i..][k]];
      }
    }
    assert Cycle(g, p);
  }

  lemma ExtendWalk(g: Graph, path: seq<Id>, id: Id)
    requires Walk(g, path) && id in g
    requires path != [] ==> id in g[path[|path| - 1]]
    ensures Walk(g, path + [id])
  {
  }

  lemma AppendKeepsTopological(steps: Steps, order: seq<FlowStep>, step: FlowStep)
    requires Topological(steps, order) && step.stepId in steps && steps[step.stepId] == step
    requires step.stepId !in StepIds(order)
    requires forall d | d in step.dependsOn && d in steps :: d in StepIds(order)
    ensures Topological(steps, order + [step])
  {
    var longer := order + [step];
    forall i | 0 <= i < |longer| ensures Known(steps)[longer[i].stepId] <= StepIds(longer[..i]) {
      assert longer[..i] == order[..i];
      if i < |order| {
        assert Known(steps)[order[i].stepId] <= StepIds(order[..i]);
        assert longer[i] == order[i];
      } else {
        assert order[..i] == order && longer[i] == step;
        forall d | d in Known(steps)[step.stepId] ensures d in StepIds(order) {
        }
      }
    }
    forall i | 0 <= i < |order| ensures order[i].stepId != step.stepId {
      assert order[i] in order;
    }
  }

  lemma AppendStepIds(order: seq<FlowStep>, step: FlowStep)
    ensures StepIds(order + [step]) == StepIds(order) + {step.stepId}
  {
    var longer := order + [step];
    forall x ensures x in StepIds(longer) <==> x in StepIds(order) + {step.stepId} {
      assert step in longer;
      if x in StepIds(order) {
        var s :| s in order && s.stepId == x;
        assert s in longer;
      }
    }
  }

  /** The closure of `get_execution_order`: the variables that `visit` updates. */
  class Traversal {
    const steps: Steps
    var visited: set<Id>
    var inProgress: set<Id>
    var result: seq<FlowStep>
    ghost var path: seq<Id>  // inProgress in call order, outermost first

    constructor (steps: Steps)
      requires WellKeyed(steps)
      ensures Valid() && this.steps == steps && path == [] && result == []
    {
      this.steps := steps;
      visited, inProgress, result, path := {}, {}, [], [];
    }

    ghost predicate Valid()
      reads this
    {
      && WellKeyed(steps)
      && Topological(steps, result)
      && visited == StepIds(result)
      && inProgress == (set x | x in path)
      && inProgress !! visited
      && Walk(Known(steps), path)
    }

    /** Returns the id at which a circular dependency was detected, if any. */
    method Visit(step: FlowStep) returns (raised: seq<Id>)
      requires Valid() && step.stepId in steps && steps[step.stepId] == step
      requires path != [] ==> step.stepId in Known(steps)[path[|path| - 1]]
      modifies this
      ensures raised != [] ==> exists p :: Cycle(Known(steps), p) && p[0] == raised[0]
      ensures raised == [] ==> Valid() && path == old(path) && step.stepId in visited
      ensures raised == [] ==> old(visited) <= visited && old(result) <= result
      decreases steps.Keys - inProgress
    {
      var g := Known(steps);
      var id := step.stepId;
      if id in visited {
        return [];
      }
      if id in inProgress {
        PathClosesCycle(g, path, id);
        return [id];
      }
      ExtendWalk(g, path, id);
      inProgress, path := inProgress + {id}, path + [id];
      ghost var stack := path;
      assert stack[|stack| - 1] == id;
      for k := 0 to |step.dependsOn|
        invariant Valid() && path == stack && id in inProgress
        invariant old(visited) <= visited && old(result) <= result
        invariant forall j | 0 <= j < k && step.dependsOn[j] in steps :: step.dependsOn[j] in visited
      {
        var depId := step.dependsOn[k];
        if depId in steps {
          assert depId in g[id];
          raised := Visit(steps[depId]);
          if raised != [] {
            return;
          }
        }
      }
      AppendKeepsTopological(steps, result, step);
      AppendStepIds(result, step);
      path := old(path);
      inProgress := inProgress - {id};
      visited := visited + {id};
      result := result + [step];
      raised := [];
    }
  }

  predicate AllIn(ids: seq<Id>, s: set<Id>) {
    forall d | d in ids :: d in s
  }

  ghost function ReadyIds(steps: Steps, completed: set<Id>): set<Id> {
    set x | x in steps && x !in completed && AllIn(steps[x].dependsOn, completed)
  }

  lemma {:induction false} WalkStaysBefore(steps: Steps, order: seq<FlowStep>, p: seq<Id>, i: nat, k: nat)
    requires Topological(steps, order) && Walk(Known(steps), p)
    requires i < |order| && k < |p| && p[0] == order[i].stepId
    ensures exists j :: 0 <= j <= i && order[j].stepId == p[k] && (k > 0 ==> j < i)
  {
    if k > 0 {
      WalkStaysBefore(steps, order, p, i, k - 1);
      var j :| 0 <= j <= i && order[j].stepId == p[k - 1];
      assert p[k - 1 + 1] in Known(steps)[p[k - 1]];
      assert p[k] in StepIds(order[..j]);
      var s :| s in order[..j] && s.stepId == p[k];
      var j' :| 0 <= j' < j && order[j'] == s;
    }
  }

  /** A full topological order rules out every cycle: along a cycle the positions
      would decrease for ever. */
  lemma TopologicalMeansAcyclic(steps: Steps, order: seq<FlowStep>)
    requires Topological(steps, order) && StepIds(order) == steps.Keys
    ensures !Cyclic(Known(steps))
  {
    if Cyclic(Known(steps)) {
      var p :| Cycle(Known(steps), p);
      assert p[0] in StepIds(order);
      var s :| s in order && s.stepId == p[0];
      var i :| 0 <= i < |order| && order[i] == s;
      WalkStaysBefore(steps, order, p, i, |p| - 1);
    }
  }

  class FlowDefinition {
    var keys: seq<Id>  // dictionary order
    var steps: Steps

    ghost predicate Valid()
      reads this
    {
      && WellKeyed(steps)
      && (forall i, j | 0 <= i < j < |keys| :: keys[i] != keys[j])
      && (set x | x in keys) == steps.Keys
    }

    constructor ()
      ensures Valid() && steps == map[]
    {
      keys, steps := [], map[];
    }

    method AddStep(step: FlowStep)
      requires Valid()
      modifies this
      ensures Valid() && steps == old(steps)[step.stepId := step]
      ensures keys == if step.stepId in old(steps) then old(keys) else old(keys) + [step.stepId]
    {
      if step.stepId !in steps {
        forall i | 0 <= i < |keys| ensures keys[i] != step.stepId {
          assert keys[i] in keys;
        }
        keys := keys + [step.stepId];
      }
      steps := steps[step.stepId := step];
    }

    method GetExecutionOrder() returns (r: Result<seq<FlowStep>, Id>)
      requires Valid()
      ensures r.Err? <==> Cyclic(Known(steps))
      ensures r.Err? ==> exists p :: Cycle(Known(steps), p) && p[0] == r.error
      ensures r.Ok? ==> Topological(steps, r.value) && StepIds(r.value) == steps.Keys
    {
      var t := new Traversal(steps);
      for k := 0 to |keys|
        invariant t.Valid() && t.steps == steps && t.path == []
        invariant forall j | 0 <= j < k :: keys[j] in t.visited
      {
        assert keys[k] in keys;
        var raised := t.Visit(steps[keys[k]]);
        if raised != [] {
          return Err(raised[0]);
        }
      }
      assert StepIds(t.result) == steps.Keys;
      TopologicalMeansAcyclic(steps, t.result);
      return Ok(t.result);
    }

    /** Steps not yet completed whose listed dependencies are all completed. Here
        an unknown dependency is not dropped. */
    method GetReadySteps(completed: set<Id>) returns (ready: seq<FlowStep>)
      requires Valid()
      ensures StepIds(ready) == ReadyIds(steps, completed)
      ensures forall s | s in ready :: s.stepId in steps && steps[s.stepId] == s
      ensures forall i, j | 0 <= i < j < |ready| :: ready[i].stepId != ready[j].stepId
    {
      ready := [];
      for k := 0 to |keys|
        invariant forall s | s in ready :: s.stepId in steps && steps[s.stepId] == s
        invariant forall x :: x in StepIds(ready) <==> x in keys[..k] && x in ReadyIds(steps, completed)
        invariant forall i, j | 0 <= i < j < |ready| :: ready[i].stepId != ready[j].stepId
      {
        assert keys[k] in keys && keys[..k + 1] == keys[..k] + [keys[k]];
        var step := steps[keys[k]];
        if step.stepId !in completed && AllIn(step.dependsOn, completed) {
          assert keys[k] !in keys[..k];
          forall i | 0 <= i < |ready| ensures ready[i].stepId != step.stepId {
            assert ready[i] in ready && ready[i].stepId in StepIds(ready);
          }
          assert forall x :: x in StepIds(ready + [step]) <==> x in StepIds(ready) || x == step.stepId by {
            assert step in ready + [step];
            assert forall s | s in ready :: s in ready + [step];
          }
          ready := ready + [step];
        }
      }
      assert keys[..|keys|] == keys;
    }
  }
}
