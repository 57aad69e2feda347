/**
 `ensureAcyclic`: a depth-first search with a `visiting` and a `visited` set accepts a list of
 steps exactly when every dependency names a step and no step depends on itself, however far.
 */
module WorkflowGraph {
  import opened Outcomes
  import opened WorkflowSpecs

  datatype Refusal = CycleFound | DependencyMissing

  type Graph = map<Key, Step>

  /** Each key of `p` depends directly on the next one. */
  predicate IsPath(g: Graph, p: seq<Key>) {
    && p != []
    && forall i :: 0 <= i < |p| - 1 ==> p[i] in g && p[i + 1] in g[p[i]].dependsOn
  }

  predicate IsCycle(g: Graph, p: seq<Key>) {
    IsPath(g, p) && |p| >= 2 && p[0] == p[|p| - 1]
  }

  ghost predicate Acyclic(g: Graph) {
    forall p :: !IsCycle(g, p)
  }

  predicate Closed(g: Graph) {
    forall k :: k in g ==> forall d :: d in g[k].dependsOn ==> d in g
  }

  /** `order` lists keys once, each after everything it depends on. */
  predicate Topological(g: Graph, order: seq<Key>) {
    && (forall i, j :: 0 <= i < j < |order| ==> order[i] != order[j])
    && (forall i :: 0 <= i < |order| ==> order[i] in g)
    && (forall i :: 0 <= i < |order| ==> forall d :: d in g[order[i]].dependsOn ==> d in order[..i])
  }

  lemma {:induction false} LaterIsEarlier(g: Graph, order: seq<Key>, p: seq<Key>, i: nat, j: nat)
    requires Topological(g, order) && IsPath(g, p) && |p| >= 2
    requires i < |order| && order[i] == p[0] && j < |order| && order[j] == p[|p| - 1]
    ensures j < i
  {
    assert p[1] in g[p[0]].dependsOn;
    var m :| 0 <= m < i && order[m] == p[1];
    if |p| > 2 {
      assert IsPath(g, p[1..]) by {
        forall n | 0 <= n < |p[1..]| - 1 ensures p[1..][n] in g && p[1..][n + 1] in g[p[1..][n]].dependsOn {
          assert p[n + 1] in g && p[n + 2] in g[p[n + 1]].dependsOn;
        }
      }
      LaterIsEarlier(g, order, p[1..], m, j);
    }
  }

  /** An order of all keys leaves no room for a cycle or for a missing dependency. */
  lemma TopologicalIsSound(g: Graph, order: seq<Key>)
    requires Topological(g, order) && forall k :: k in g ==> k in order
    ensures Acyclic(g) && Closed(g)
  {
    forall p ensures !IsCycle(g, p) {
      if IsCycle(g, p) {
        assert p[0] in g;
        var i :| 0 <= i < |order| && order[i] == p[0];
        LaterIsEarlier(g, order, p, i, i);
      }
    }
    forall k, d | k in g && d in g[k].dependsOn ensures d in g {
      var i :| 0 <= i < |order| && order[i] == k;
      assert d in order[..i];
      var m :| 0 <= m < i && order[..i][m] == d;
      assert order[m] in g;
    }
  }

  /** How a refused visit went wrong, seen from a visit that had `visiting` open. */
  predicate Explains(g: Graph, visiting: set<Key>, key: Key, why: Refusal, trail: seq<Key>) {
    && IsPath(g, trail)
    && trail[0] == key
    && match why
       case DependencyMissing => trail[|trail| - 1] !in g
       case CycleFound =>
         || trail[|trail| - 1] in visiting
         || exists i :: 0 <= i < |trail| - 1 && trail[i] == trail[|trail| - 1]
  }

  lemma ExplainsLonger(g: Graph, visiting: set<Key>, key: Key, child: Key, why: Refusal, trail: seq<Key>)
    requires key in g && child in g[key].dependsOn
    requires Explains(g, visiting + {key}, child, why, trail)
    ensures Explains(g, visiting, key, why, [key] + trail)
  {
    var t := [key] + trail;
    forall i | 0 <= i < |t| - 1 ensures t[i] in g && t[i + 1] in g[t[i]].dependsOn {
      if i > 0 { assert t[i] == trail[i - 1] && t[i + 1] == trail[i]; }
    }
    if why == CycleFound {
      if trail[|trail| - 1] == key {
        assert t[0] == t[|t| - 1];
      } else if i :| 0 <= i < |trail| - 1 && trail[i] == trail[|trail| - 1] {
        assert t[i + 1] == t[|t| - 1];
      }
    }
  }

  /** Seen from the outside, a refused search has found a cycle or a missing step. */
  lemma ExplanationRefutes(g: Graph, key: Key, why: Refusal, trail: seq<Key>)
    requires key in g && Explains(g, {}, key, why, trail)
    ensures match why case CycleFound => !Acyclic(g) case DependencyMissing => !Closed(g)
  {
    match why
    case DependencyMissing =>
      assert trail[|trail| - 2] in g;
    case CycleFound =>
      var i :| 0 <= i < |trail| - 1 && trail[i] == trail[|trail| - 1];
      var loop := trail[i..];
      forall n | 0 <= n < |loop| - 1 ensures loop[n] in g && loop[n + 1] in g[loop[n]].dependsOn {
        assert loop[n] == trail[i + n] && loop[n + 1] == trail[i + n + 1];
      }
      assert IsCycle(g, loop);
  }

  class Search {
    const byKey: Graph
    var visiting: set<Key>
    /** JavaScript sets keep insertion order, so `visited` is a list without repeats. */
    var visited: seq<Key>

    predicate Valid()
      reads this
    {
      && Topological(byKey, visited)
      && visiting <= byKey.Keys
      && forall k :: k in visiting ==> k !in visited
    }

    constructor (byKey: Graph)
      ensures this.byKey == byKey && visiting == {} && visited == [] && Valid()
    {
      this.byKey := byKey;
      visiting, visited := {}, [];
    }

    method Visit(key: Key) returns (refusal: Option<Refusal>, ghost trail: seq<Key>)
      requires Valid()
      modifies this
      ensures refusal.None? ==>
        Valid() && visiting == old(visiting) && old(visited) <= visited && key in visited
      ensures refusal.Some? ==> Explains(byKey, old(visiting), key, refusal.value, trail)
      decreases byKey.Keys - visiting
    {
      trail := [key];
      if key in visited {
        return None, trail;
      }
      if key in visiting {
        return Some(CycleFound), trail;
      }
      if key !in byKey {
        return Some(DependencyMissing), trail;
      }
      var deps := byKey[key].dependsOn;
      visiting := visiting + {key};
      ghost var open := visiting;
      var i := 0;
      while i < |deps|
        invariant 0 <= i <= |deps|
        invariant Valid() && visiting == open && old(visited) <= visited
        invariant forall j :: 0 <= j < i ==> deps[j] in visited
      {
        ghost var before := visited;
        ghost var rest;
        refusal, rest := Visit(deps[i]);
        if refusal.Some? {
          ExplainsLonger(byKey, old(visiting), key, deps[i], refusal.value, rest);
          return refusal, [key] + rest;
        }
        assert forall j :: 0 <= j < i ==> deps[j] in before;
        assert forall k :: k in before ==> k in visited;
        i := i + 1;
      }
      visiting := visiting - {key};
      assert visiting == old(visiting);
      ExtendOrder(byKey, visited, key);
      visited := visited + [key];
      return None, trail;
    }
  }

  lemma ExtendOrder(g: Graph, order: seq<Key>, key: Key)
    requires Topological(g, order) && key in g && key !in order
    requires forall d :: d in g[key].dependsOn ==> d in order
    ensures Topological(g, order + [key])
  {
    var longer := order + [key];
    forall i | 0 <= i < |longer| ensures forall d :: d in g[longer[i]].dependsOn ==> d in longer[..i] {
      assert i < |order| ==> longer[..i] == order[..i];
      assert i == |order| ==> longer[..i] == order;
    }
  }

  /** The whole search.  On acceptance `order` is the order in which keys entered `visited`. */
  method EnsureAcyclic(steps: seq<Step>) returns (refusal: Option<Refusal>, order: seq<Key>)
    ensures refusal.None? <==> Acyclic(ByKey(steps)) && Closed(ByKey(steps))
    ensures refusal == Some(CycleFound) ==> !Acyclic(ByKey(steps))
    ensures refusal == Some(DependencyMissing) ==> !Closed(ByKey(steps))
    ensures refusal.None? ==>
      Topological(ByKey(steps), order) && forall k :: k in order <==> k in ByKey(steps)
  {
    var search := new Search(ByKey(steps));
    ByKeyMembers(steps);
    order := [];
    var i := 0;
    while i < |steps|
      invariant 0 <= i <= |steps|
      invariant search.Valid() && search.visiting == {} && search.byKey == ByKey(steps)
      invariant forall j :: 0 <= j < i ==> steps[j].key in search.visited
    {
      ghost var before := search.visited;
      ghost var trail;
      refusal, trail := search.Visit(steps[i].key);
      if refusal.Some? {
        ExplanationRefutes(ByKey(steps), steps[i].key, refusal.value, trail);
        return;
      }
      assert forall j :: 0 <= j < i ==> steps[j].key in before;
      assert forall k :: k in before ==> k in search.visited;
      i := i + 1;
    }
    forall k | k in ByKey(steps) ensures k in search.visited {
      var j :| 0 <= j < |steps| && steps[j] == ByKey(steps)[k];
      assert steps[j].key == k;
    }
    order := search.visited;
    TopologicalIsSound(ByKey(steps), order);
    refusal := None;
  }
}
