/**
 The dynamic work graph: typed relations between pieces of Work, a guarded
 dependency relation, and the readiness of a dependent derived from the outcomes of
 its dependencies.
 */
module WorkGraph {

  type WorkId = string

  datatype Relation = PARENT | DEPENDS_ON | BLOCKS | SUPERSEDES | GENERATED_BY

  datatype DependencyOutcome = PENDING | SUCCEEDED | FAILED

  datatype DependentState = READY | WAITING_DEPENDENCY | BLOCKED_BY_FAILURE

  type Depends = map<WorkId, set<WorkId>>

  function Deps(g: Depends, w: WorkId): set<WorkId> {
    if w in g then g[w] else {}
  }

  function AddEdge(g: Depends, src: WorkId, dst: WorkId): Depends {
    g[src := Deps(g, src) + {dst}]
  }

  // ---------------------------------------------------------------------------
  // Reachability
  // ---------------------------------------------------------------------------

  ghost predicate IsPath(g: Depends, p: seq<WorkId>) {
    && p != []
    && forall i :: 0 <= i < |p| - 1 ==> p[i + 1] in Deps(g, p[i])
  }

  ghost predicate Connects(g: Depends, p: seq<WorkId>, a: WorkId, b: WorkId) {
    IsPath(g, p) && p[0] == a && p[|p| - 1] == b
  }

  /** `b` is `a` itself or one of its transitive dependencies. */
  ghost predicate Reaches(g: Depends, a: WorkId, b: WorkId) {
    exists p :: Connects(g, p, a, b)
  }

  /** No Work is its own transitive dependency. */
  ghost predicate Acyclic(g: Depends) {
    forall p :: IsPath(g, p) && |p| > 1 ==> p[0] != p[|p| - 1]
  }

  lemma ReachesSelf(g: Depends, a: WorkId)
    ensures Reaches(g, a, a)
  {
    assert Connects(g, [a], a, a);
  }

  lemma ReachesPrepend(g: Depends, a: WorkId, b: WorkId, c: WorkId)
    requires b in Deps(g, a) && Reaches(g, b, c)
    ensures Reaches(g, a, c)
  {
    var p :| Connects(g, p, b, c);
    assert Connects(g, [a] + p, a, c);
  }

  lemma ReachesAppend(g: Depends, a: WorkId, b: WorkId, c: WorkId)
    requires Reaches(g, a, b) && c in Deps(g, b)
    ensures Reaches(g, a, c)
  {
    var p :| Connects(g, p, a, b);
    assert Connects(g, p + [c], a, c);
  }

  lemma ReachesTransitive(g: Depends, a: WorkId, b: WorkId, c: WorkId)
    requires Reaches(g, a, b) && Reaches(g, b, c)
    ensures Reaches(g, a, c)
  {
    var p :| Connects(g, p, a, b);
    var q :| Connects(g, q, b, c);
    var r := p + q[1..];
    forall i | 0 <= i < |r| - 1
      ensures r[i + 1] in Deps(g, r[i])
    {
      if i >= |p| - 1 {
        assert r[i] == q[i - (|p| - 1)] && r[i + 1] == q[i + 1 - (|p| - 1)];
      }
    }
    assert Connects(g, r, a, c);
  }

  /** A dependency-closed set holds everything reachable from its members. */
  lemma {:induction false} ClosedHoldsPath(g: Depends, s: set<WorkId>, p: seq<WorkId>, n: nat)
    requires forall x :: x in s ==> Deps(g, x) <= s
    requires IsPath(g, p) && p[0] in s && n < |p|
    ensures p[n] in s
  {
    if n > 0 {
      ClosedHoldsPath(g, s, p, n - 1);
      assert p[n - 1 + 1] in Deps(g, p[n - 1]);
    }
  }

  lemma ClosedHoldsReachable(g: Depends, s: set<WorkId>, a: WorkId, b: WorkId)
    requires forall x :: x in s ==> Deps(g, x) <= s
    requires a in s && Reaches(g, a, b)
    ensures b in s
  {
    var p :| Connects(g, p, a, b);
    ClosedHoldsPath(g, s, p, |p| - 1);
  }

  // ---------------------------------------------------------------------------
  // One new edge
  // ---------------------------------------------------------------------------

  /** Any path of the extended graph is an old path, or runs through the new edge. */
  lemma {:induction false} PathAfterAdd(g: Depends, src: WorkId, dst: WorkId, p: seq<WorkId>)
    requires IsPath(AddEdge(g, src, dst), p)
    ensures
      || Reaches(g, p[0], p[|p| - 1])
      || (Reaches(g, p[0], src) && Reaches(g, dst, p[|p| - 1]))
  {
    if |p| == 1 {
      ReachesSelf(g, p[0]);
    } else {
      var rest := p[1..];
      assert IsPath(AddEdge(g, src, dst), rest) by {
        forall i | 0 <= i < |rest| - 1
          ensures rest[i + 1] in Deps(AddEdge(g, src, dst), rest[i])
        {
          assert p[i + 1 + 1] in Deps(AddEdge(g, src, dst), p[i + 1]);
        }
      }
      PathAfterAdd(g, src, dst, rest);
      assert p[0 + 1] in Deps(AddEdge(g, src, dst), p[0]);
      if p[1] in Deps(g, p[0]) {
        if Reaches(g, p[1], p[|p| - 1]) {
          ReachesPrepend(g, p[0], p[1], p[|p| - 1]);
        } else {
          ReachesPrepend(g, p[0], p[1], src);
        }
      } else {
        ReachesSelf(g, src);
      }
    }
  }

  lemma ReturnMakesCycle(g: Depends, a: WorkId, b: WorkId)
    requires b in Deps(g, a) && Reaches(g, b, a)
    ensures !Acyclic(g)
  {
    var q :| Connects(g, q, b, a);
    var cycle := [a] + q;
    assert IsPath(g, cycle) && cycle[0] == cycle[|cycle| - 1];
  }

  lemma NoWayBack(g: Depends, a: WorkId, b: WorkId)
    requires Acyclic(g) && b in Deps(g, a)
    ensures !Reaches(g, b, a)
  {
    if Reaches(g, b, a) {
      ReturnMakesCycle(g, a, b);
    }
  }

  /** A cycle of the extended graph closes an old path from `dst` back to `src`. */
  lemma CycleNeedsReturnPath(g: Depends, src: WorkId, dst: WorkId, p: seq<WorkId>)
    requires Acyclic(g)
    requires IsPath(AddEdge(g, src, dst), p) && |p| > 1 && p[0] == p[|p| - 1]
    ensures Reaches(g, dst, src)
  {
    var rest := p[1..];
    assert IsPath(AddEdge(g, src, dst), rest) by {
      forall i | 0 <= i < |rest| - 1
        ensures rest[i + 1] in Deps(AddEdge(g, src, dst), rest[i])
      {
        assert p[i + 1 + 1] in Deps(AddEdge(g, src, dst), p[i + 1]);
      }
    }
    PathAfterAdd(g, src, dst, rest);
    assert p[0 + 1] in Deps(AddEdge(g, src, dst), p[0]);
    if p[1] in Deps(g, p[0]) {
      NoWayBack(g, p[0], p[1]);
      ReachesPrepend(g, p[0], p[1], src);
      ReachesTransitive(g, dst, p[0], src);
    }
  }

  /**
   The guard is exact: on an acyclic graph the new edge keeps the graph acyclic if and
   only if `src` is not already reachable from `dst`.
   */
  lemma EdgeKeepsAcyclicIff(g: Depends, src: WorkId, dst: WorkId)
    requires Acyclic(g)
    ensures Acyclic(AddEdge(g, src, dst)) <==> !Reaches(g, dst, src)
  {
    if Reaches(g, dst, src) {
      var q :| Connects(g, q, dst, src);
      var cycle := [src] + q;
      assert IsPath(AddEdge(g, src, dst), cycle);
      assert cycle[0] == cycle[|cycle| - 1];
    } else {
      forall p | IsPath(AddEdge(g, src, dst), p) && |p| > 1
        ensures p[0] != p[|p| - 1]
      {
        if p[0] == p[|p| - 1] {
          CycleNeedsReturnPath(g, src, dst, p);
        }
      }
    }
  }

  // ---------------------------------------------------------------------------
  // The graph object
  // ---------------------------------------------------------------------------

  type Edge = (WorkId, Relation, WorkId)

  datatype Graph = Graph(depends: Depends, rel: seq<Edge>)

  /** What one accepted or refused `add_relation` call means for the whole object. */
  ghost function Added(g: Graph, e: Edge): Graph {
    if e.1 == DEPENDS_ON && Reaches(g.depends, e.2, e.0) then
      g
    else
      Graph(if e.1 == DEPENDS_ON then AddEdge(g.depends, e.0, e.2) else g.depends, g.rel + [e])
  }

  /** The dependency index holds exactly the DEPENDS_ON entries of the relation list. */
  ghost predicate Indexed(g: Graph) {
    forall a, b :: b in Deps(g.depends, a) <==> (a, DEPENDS_ON, b) in g.rel
  }

  lemma AddedKeepsInvariant(g: Graph, e: Edge)
    requires Acyclic(g.depends) && Indexed(g)
    ensures Acyclic(Added(g, e).depends) && Indexed(Added(g, e))
  {
    if e.1 == DEPENDS_ON {
      EdgeKeepsAcyclicIff(g.depends, e.0, e.2);
    }
  }

  /** A relation is recorded, and a dependency indexed, exactly unless it is a dependency that closes a cycle. */
  lemma {:induction false} AddedMeans(g: Graph, e: Edge)
    ensures
      var d := Added(g, e);
      if e.1 == DEPENDS_ON && Reaches(g.depends, e.2, e.0) then d == g
      else
        && d.rel == g.rel + [e]
        && forall w :: Deps(d.depends, w) == Deps(g.depends, w) + if e.1 == DEPENDS_ON && w == e.0 then {e.2} else {}
  {
  }

  ghost function AddedAll(edges: seq<Edge>): Graph {
    if edges == [] then Graph(map[], [])
    else Added(AddedAll(edges[..|edges| - 1]), edges[|edges| - 1])
  }

  /**
   After every sequence of `add_relation` calls the dependency relation is acyclic and
   agrees with the list of accepted relations.
   */
  lemma {:induction false} EveryBuiltGraphIsAcyclic(edges: seq<Edge>)
    ensures Acyclic(AddedAll(edges).depends)
    ensures Indexed(AddedAll(edges))
  {
    if edges == [] {
      forall p: seq<WorkId> | |p| > 1
        ensures !IsPath(map[], p)
      {
        assert p[0 + 1] !in Deps(map[], p[0]);
      }
    } else {
      EveryBuiltGraphIsAcyclic(edges[..|edges| - 1]);
      AddedKeepsInvariant(AddedAll(edges[..|edges| - 1]), edges[|edges| - 1]);
    }
  }

  /**
   The loop invariant of the depth-first search: everything met is reachable from `dst`
   and lies in the finite set `all`, and the only dependencies not yet met are on the stack.
   */
  ghost predicate Explored(g: Depends, dst: WorkId, all: set<WorkId>, seen: set<WorkId>, stack: seq<WorkId>) {
    && (forall x, d :: x in all && d in Deps(g, x) ==> d in all)
    && (forall x :: x in stack || x in seen ==> x in all && Reaches(g, dst, x))
    && (forall x, d :: x in seen && d in Deps(g, x) ==> d in seen || d in stack)
    && (dst in seen || dst in stack)
  }

  lemma PopSeen(g: Depends, dst: WorkId, all: set<WorkId>, seen: set<WorkId>, stack: seq<WorkId>)
    requires Explored(g, dst, all, seen, stack) && stack != [] && stack[|stack| - 1] in seen
    ensures Explored(g, dst, all, seen, stack[..|stack| - 1])
  {
    var popped, node := stack[..|stack| - 1], stack[|stack| - 1];
    assert stack == popped + [node];
    assert forall x :: x in stack ==> x in popped || x == node;
  }

  lemma PushDeps(g: Depends, dst: WorkId, all: set<WorkId>, seen: set<WorkId>, stack: seq<WorkId>, pushed: seq<WorkId>)
    requires Explored(g, dst, all, seen, stack) && stack != [] && stack[|stack| - 1] !in seen
    requires forall x :: x in pushed <==> x in stack[..|stack| - 1] || x in Deps(g, stack[|stack| - 1])
    ensures Explored(g, dst, all, seen + {stack[|stack| - 1]}, pushed)
    ensures |all - (seen + {stack[|stack| - 1]})| < |all - seen|
  {
    var popped, node := stack[..|stack| - 1], stack[|stack| - 1];
    assert stack == popped + [node];
    assert node in stack;
    forall d | d in Deps(g, node)
      ensures Reaches(g, dst, d)
    {
      ReachesAppend(g, dst, node, d);
    }
    assert all - (seen + {node}) == (all - seen) - {node};
  }

  class WorkGraph {
    var depends: Depends
    var rel: seq<Edge>

    ghost function Value(): Graph
      reads this
    {
      Graph(depends, rel)
    }

    ghost predicate Valid()
      reads this
    {
      Acyclic(depends) && Indexed(Value())
    }

    constructor ()
      ensures Value() == AddedAll([]) && Valid()
    {
      depends := map[];
      rel := [];
      new;
      EveryBuiltGraphIsAcyclic([]);
    }

    /** True exactly when `src` is reachable from `dst`; a node may be pushed many times. */
    method WouldCycle(src: WorkId, dst: WorkId) returns (r: bool)
      ensures r <==> Reaches(depends, dst, src)
    {
      if src == dst {
        ReachesSelf(depends, src);
        return true;
      }
      ghost var all := {dst} + set w, d | w in depends && d in depends[w] :: d;
      var stack, seen := [dst], {};
      ReachesSelf(depends, dst);
      while stack != []
        invariant Explored(depends, dst, all, seen, stack)
        invariant src !in seen
        decreases |all - seen|, |stack|
      {
        var node := stack[|stack| - 1];
        var popped := stack[..|stack| - 1];
        if node == src {
          return true;
        }
        if node in seen {
          PopSeen(depends, dst, all, seen, stack);
          stack := popped;
          continue;
        }
        var pushed := PushAll(popped, Deps(depends, node));
        PushDeps(depends, dst, all, seen, stack, pushed);
        stack, seen := pushed, seen + {node};
      }
      if Reaches(depends, dst, src) {
        ClosedHoldsReachable(depends, seen, dst, src);
      }
      r := false;
    }

    /** `stack.extend` of a set: some order, every element on top of the stack. */
    static method PushAll(stack: seq<WorkId>, nodes: set<WorkId>) returns (r: seq<WorkId>)
      ensures forall x :: x in r <==> x in stack || x in nodes
    {
      r := stack;
      var rest := nodes;
      while rest != {}
        invariant rest <= nodes
        invariant forall x :: x in r <==> x in stack || x in nodes - rest
        decreases rest
      {
        var x :| x in rest;
        r := r + [x];
        rest := rest - {x};
      }
    }

    /** Adds the relation, or refuses a dependency edge that would close a cycle. */
    method AddRelation(src: WorkId, relation: Relation, dst: WorkId) returns (accepted: bool)
      requires Valid()
      modifies this
      ensures Valid()
      ensures Value() == Added(old(Value()), (src, relation, dst))
      ensures !accepted <==> relation == DEPENDS_ON && old(Reaches(depends, dst, src))
      ensures !accepted ==> Value() == old(Value())
      ensures accepted ==> rel == old(rel) + [(src, relation, dst)]
      ensures accepted ==>
                forall w :: Deps(depends, w) == old(Deps(depends, w)) + (if relation == DEPENDS_ON && w == src then {dst} else {})
    {
      AddedKeepsInvariant(Value(), (src, relation, dst));
      if relation == DEPENDS_ON {
        var cycle := WouldCycle(src, dst);
        if cycle {
          return false;
        }
        depends := depends[src := Deps(depends, src) + {dst}];
      }
      rel := rel + [(src, relation, dst)];
      accepted := true;
    }
  }

  // ---------------------------------------------------------------------------
  // Readiness
  // ---------------------------------------------------------------------------

  type Outcomes = map<WorkId, DependencyOutcome>

  function OutcomeOf(outcomes: Outcomes, w: WorkId): DependencyOutcome {
    if w in outcomes then outcomes[w] else PENDING
  }

  function Resolve(g: Depends, outcomes: Outcomes, w: WorkId): DependentState {
    if Deps(g, w) == {} then READY
    else if exists d :: d in Deps(g, w) && OutcomeOf(outcomes, d) == FAILED then BLOCKED_BY_FAILURE
    else if forall d :: d in Deps(g, w) ==> OutcomeOf(outcomes, d) == SUCCEEDED then READY
    else WAITING_DEPENDENCY
  }

  ghost predicate ReachesFailure(g: Depends, outcomes: Outcomes, w: WorkId) {
    exists f :: Reaches(g, w, f) && OutcomeOf(outcomes, f) == FAILED
  }

  /** Work that still has to be done and that no failure stands in the way of. */
  ghost predicate Open(g: Depends, outcomes: Outcomes, w: WorkId) {
    OutcomeOf(outcomes, w) != SUCCEEDED && !ReachesFailure(g, outcomes, w)
  }

  /** A chain of distinct Work, each depending on the next. */
  ghost predicate Chain(g: Depends, s: set<WorkId>, p: seq<WorkId>) {
    IsPath(g, p) && forall i :: 0 <= i < |p| ==> p[i] in s
  }

  lemma ChainFits(g: Depends, s: set<WorkId>, p: seq<WorkId>)
    requires Acyclic(g) && Chain(g, s, p)
    ensures |p| <= |s|
  {
    forall i, j | 0 <= i < j < |p|
      ensures p[i] != p[j]
    {
      var q := p[i..j + 1];
      forall k | 0 <= k < |q| - 1
        ensures q[k + 1] in Deps(g, q[k])
      {
        assert p[i + k + 1] in Deps(g, p[i + k]);
      }
      assert IsPath(g, q) && q[0] == p[i] && q[|q| - 1] == p[j];
    }
    DistinctFits(p, s);
  }

  lemma {:induction false} DistinctFits(p: seq<WorkId>, s: set<WorkId>)
    requires forall i, j :: 0 <= i < j < |p| ==> p[i] != p[j]
    requires forall i :: 0 <= i < |p| ==> p[i] in s
    ensures |p| <= |s|
  {
    if p != [] {
      var last := p[|p| - 1];
      DistinctFits(p[..|p| - 1], s - {last});
    }
  }

  lemma OpenDependencyIsOpen(g: Depends, outcomes: Outcomes, w: WorkId, d: WorkId)
    requires Open(g, outcomes, w) && d in Deps(g, w) && OutcomeOf(outcomes, d) != SUCCEEDED
    ensures Open(g, outcomes, d)
  {
    if ReachesFailure(g, outcomes, d) {
      var f :| Reaches(g, d, f) && OutcomeOf(outcomes, f) == FAILED;
      ReachesPrepend(g, w, d, f);
    }
  }

  /** From the end of a chain of open Work, one can walk down to a READY one. */
  lemma {:induction false} WalkToReady(g: Depends, s: set<WorkId>, outcomes: Outcomes, p: seq<WorkId>)
    returns (w: WorkId)
    requires Acyclic(g) && forall x :: x in s ==> Deps(g, x) <= s
    requires Chain(g, s, p) && Open(g, outcomes, p[|p| - 1])
    ensures w in s && Open(g, outcomes, w) && Resolve(g, outcomes, w) == READY
    decreases |s| - |p|
  {
    var last := p[|p| - 1];
    ChainFits(g, s, p);
    if Resolve(g, outcomes, last) == READY {
      w := last;
    } else {
      assert forall d :: d in Deps(g, last) ==> OutcomeOf(outcomes, d) != FAILED by {
        forall d | d in Deps(g, last)
          ensures OutcomeOf(outcomes, d) != FAILED
        {
          ReachesSelf(g, d);
          ReachesPrepend(g, last, d, d);
        }
      }
      var d :| d in Deps(g, last) && OutcomeOf(outcomes, d) != SUCCEEDED;
      OpenDependencyIsOpen(g, outcomes, last, d);
      var q := p + [d];
      assert Chain(g, s, q) by {
        forall i | 0 <= i < |q| - 1
          ensures q[i + 1] in Deps(g, q[i])
        {
          if i < |p| - 1 {
            assert p[i + 1] in Deps(g, p[i]);
          }
        }
      }
      ChainFits(g, s, q);
      w := WalkToReady(g, s, outcomes, q);
    }
  }

  /**
   Deadlock freedom: in a graph built by `add_relation`, whenever a dependency-closed set
   still holds Work that is neither done nor downstream of a failure, one such Work is
   READY. With no FAILED outcome at all this covers every Work that is not done.
   */
  lemma NeverDeadlocks(edges: seq<Edge>, s: set<WorkId>, outcomes: Outcomes, start: WorkId) returns (w: WorkId)
    requires forall x :: x in s ==> Deps(AddedAll(edges).depends, x) <= s
    requires start in s && Open(AddedAll(edges).depends, outcomes, start)
    ensures w in s && OutcomeOf(outcomes, w) != SUCCEEDED
    ensures Resolve(AddedAll(edges).depends, outcomes, w) == READY
    ensures Open(AddedAll(edges).depends, outcomes, w)
  {
    EveryBuiltGraphIsAcyclic(edges);
    w := WalkToReady(AddedAll(edges).depends, s, outcomes, [start]);
  }

  lemma NoFailureMeansOpen(g: Depends, outcomes: Outcomes, w: WorkId)
    requires FAILED !in outcomes.Values
    ensures Open(g, outcomes, w) <==> OutcomeOf(outcomes, w) != SUCCEEDED
  {
    forall f
      ensures OutcomeOf(outcomes, f) != FAILED
    {
      if f in outcomes {
        assert outcomes[f] in outcomes.Values;
      }
    }
  }

  /** With no FAILED outcome, a closed set that holds any Work not yet done holds one that is READY. */
  lemma NoFailureNoDeadlock(edges: seq<Edge>, s: set<WorkId>, outcomes: Outcomes, start: WorkId) returns (w: WorkId)
    requires forall x :: x in s ==> Deps(AddedAll(edges).depends, x) <= s
    requires FAILED !in outcomes.Values
    requires start in s && OutcomeOf(outcomes, start) != SUCCEEDED
    ensures w in s && OutcomeOf(outcomes, w) != SUCCEEDED
    ensures Resolve(AddedAll(edges).depends, outcomes, w) == READY
  {
    NoFailureMeansOpen(AddedAll(edges).depends, outcomes, start);
    w := NeverDeadlocks(edges, s, outcomes, start);
  }

  ghost function Done(outcomes: Outcomes, order: seq<WorkId>): Outcomes {
    if order == [] then outcomes else Done(outcomes, order[..|order| - 1])[order[|order| - 1] := SUCCEEDED]
  }

  ghost predicate Schedule(g: Depends, outcomes: Outcomes, order: seq<WorkId>) {
    forall i :: 0 <= i < |order| ==>
      && OutcomeOf(Done(outcomes, order[..i]), order[i]) != SUCCEEDED
      && Resolve(g, Done(outcomes, order[..i]), order[i]) == READY
  }

  /** Finishing an open Work changes no other Work's standing. */
  lemma FinishingKeepsOthersOpen(g: Depends, outcomes: Outcomes, w: WorkId, x: WorkId)
    requires Open(g, outcomes, w)
    ensures Open(g, outcomes[w := SUCCEEDED], x) <==> Open(g, outcomes, x) && x != w
  {
    var after := outcomes[w := SUCCEEDED];
    ReachesSelf(g, w);
    assert OutcomeOf(outcomes, w) != FAILED;
    assert forall f :: OutcomeOf(after, f) == FAILED <==> OutcomeOf(outcomes, f) == FAILED;
    if ReachesFailure(g, outcomes, x) {
      var f :| Reaches(g, x, f) && OutcomeOf(outcomes, f) == FAILED;
      assert OutcomeOf(after, f) == FAILED;
    }
  }

  lemma {:induction false} DonePrepend(outcomes: Outcomes, w: WorkId, order: seq<WorkId>)
    ensures Done(outcomes, [w] + order) == Done(outcomes[w := SUCCEEDED], order)
  {
    if order == [] {
      assert Done(outcomes, [w][..0]) == outcomes;
      assert [w] + order == [w];
    } else {
      DonePrepend(outcomes, w, order[..|order| - 1]);
      assert ([w] + order)[..|order|] == [w] + order[..|order| - 1];
    }
  }

  lemma SchedulePrepend(g: Depends, outcomes: Outcomes, w: WorkId, order: seq<WorkId>)
    requires OutcomeOf(outcomes, w) != SUCCEEDED && Resolve(g, outcomes, w) == READY
    requires Schedule(g, outcomes[w := SUCCEEDED], order)
    ensures Schedule(g, outcomes, [w] + order)
  {
    var full := [w] + order;
    forall i | 0 <= i < |full|
      ensures OutcomeOf(Done(outcomes, full[..i]), full[i]) != SUCCEEDED
      ensures Resolve(g, Done(outcomes, full[..i]), full[i]) == READY
    {
      if i == 0 {
        assert full[..0] == [];
      } else {
        assert full[..i] == [w] + order[..i - 1];
        DonePrepend(outcomes, w, order[..i - 1]);
        assert full[i] == order[i - 1];
      }
    }
  }

  /**
   Every closed set can be worked off: there is an order that runs each open Work exactly
   once, each READY at its turn, and covers every Work no failure stands in the way of.
   */
  lemma {:induction false} EveryOpenWorkIsSchedulable(g: Depends, s: set<WorkId>, outcomes: Outcomes, open: set<WorkId>)
    returns (order: seq<WorkId>)
    requires Acyclic(g) && forall x :: x in s ==> Deps(g, x) <= s
    requires open <= s && forall x :: x in s ==> (x in open <==> Open(g, outcomes, x))
    ensures Schedule(g, outcomes, order)
    ensures |order| == |open| && forall x :: x in order <==> x in open
    decreases |open|
  {
    if open == {} {
      order := [];
    } else {
      var start :| start in open;
      var w := WalkToReady(g, s, outcomes, [start]);
      var after := outcomes[w := SUCCEEDED];
      forall x | x in s
        ensures x in open - {w} <==> Open(g, after, x)
      {
        FinishingKeepsOthersOpen(g, outcomes, w, x);
      }
      var rest := EveryOpenWorkIsSchedulable(g, s, after, open - {w});
      SchedulePrepend(g, outcomes, w, rest);
      order := [w] + rest;
    }
  }

  /** Finished Work only ever stood on finished Work. */
  ghost predicate Sound(g: Depends, outcomes: Outcomes) {
    forall w, d :: OutcomeOf(outcomes, w) == SUCCEEDED && d in Deps(g, w) ==> OutcomeOf(outcomes, d) == SUCCEEDED
  }

  lemma {:induction false} SoundAlongPath(g: Depends, outcomes: Outcomes, p: seq<WorkId>, n: nat)
    requires Sound(g, outcomes) && IsPath(g, p) && n < |p|
    requires OutcomeOf(outcomes, p[0]) == SUCCEEDED
    ensures OutcomeOf(outcomes, p[n]) == SUCCEEDED
  {
    if n > 0 {
      SoundAlongPath(g, outcomes, p, n - 1);
      assert p[n - 1 + 1] in Deps(g, p[n - 1]);
    }
  }

  /**
   A failure never fakes success: however many READY Works are finished, in whatever
   order, none of them is downstream of a FAILED one.
   */
  lemma {:induction false} FailureNeverFakesSuccess(g: Depends, outcomes: Outcomes, order: seq<WorkId>, w: WorkId)
    requires Sound(g, outcomes)
    requires Schedule(g, outcomes, order)
    requires forall i :: 0 <= i < |order| ==> OutcomeOf(outcomes, order[i]) != FAILED
    requires ReachesFailure(g, outcomes, w)
    ensures OutcomeOf(Done(outcomes, order), w) != SUCCEEDED
  {
    DoneIsSound(g, outcomes, order);
    var f :| Reaches(g, w, f) && OutcomeOf(outcomes, f) == FAILED;
    var p :| Connects(g, p, w, f);
    DoneKeepsOutcome(outcomes, order, f);
    if OutcomeOf(Done(outcomes, order), w) == SUCCEEDED {
      SoundAlongPath(g, Done(outcomes, order), p, |p| - 1);
    }
  }

  lemma {:induction false} DoneKeepsOutcome(outcomes: Outcomes, order: seq<WorkId>, f: WorkId)
    requires f !in order
    ensures OutcomeOf(Done(outcomes, order), f) == OutcomeOf(outcomes, f)
  {
    if order != [] {
      DoneKeepsOutcome(outcomes, order[..|order| - 1], f);
    }
  }

  lemma {:induction false} DoneIsSound(g: Depends, outcomes: Outcomes, order: seq<WorkId>)
    requires Sound(g, outcomes) && Schedule(g, outcomes, order)
    ensures Sound(g, Done(outcomes, order))
  {
    if order != [] {
      var n := |order| - 1;
      var before := order[..n];
      assert Schedule(g, outcomes, before) by {
        forall i | 0 <= i < |before|
          ensures before[..i] == order[..i] && before[i] == order[i]
        {}
      }
      DoneIsSound(g, outcomes, before);
      var w, was := order[n], Done(outcomes, order[..n]);
      assert Resolve(g, was, w) == READY;
      assert forall d :: d in Deps(g, w) ==> OutcomeOf(was, d) == SUCCEEDED;
      var now := Done(outcomes, order);
      assert now == was[w := SUCCEEDED];
      assert forall x :: OutcomeOf(was, x) == SUCCEEDED ==> OutcomeOf(now, x) == SUCCEEDED;
      forall x, d | OutcomeOf(now, x) == SUCCEEDED && d in Deps(g, x)
        ensures OutcomeOf(now, d) == SUCCEEDED
      {
        assert x != w ==> OutcomeOf(was, x) == SUCCEEDED;
      }
    }
  }

  // ---------------------------------------------------------------------------
  // What the three states promise
  // ---------------------------------------------------------------------------

  /** The state is decided by the direct dependencies: all done, one failed, or none failed and one still open. */
  lemma {:induction false} ResolveMeans(g: Depends, outcomes: Outcomes, w: WorkId)
    ensures Resolve(g, outcomes, w) == READY <==> forall d :: d in Deps(g, w) ==> OutcomeOf(outcomes, d) == SUCCEEDED
    ensures Resolve(g, outcomes, w) == BLOCKED_BY_FAILURE <==> exists d :: d in Deps(g, w) && OutcomeOf(outcomes, d) == FAILED
    ensures Resolve(g, outcomes, w) == WAITING_DEPENDENCY <==>
            && (forall d :: d in Deps(g, w) ==> OutcomeOf(outcomes, d) != FAILED)
            && (exists d :: d in Deps(g, w) && OutcomeOf(outcomes, d) == PENDING)
  {
    if Deps(g, w) != {} && (forall d :: d in Deps(g, w) ==> OutcomeOf(outcomes, d) != FAILED)
       && !forall d :: d in Deps(g, w) ==> OutcomeOf(outcomes, d) == SUCCEEDED
    {
      var d :| d in Deps(g, w) && OutcomeOf(outcomes, d) != SUCCEEDED;
      assert OutcomeOf(outcomes, d) == PENDING;
    }
  }

  /** Blocked Work stays blocked along every schedule that does not finish the failed Work itself. */
  lemma {:induction false} BlockedStaysBlocked(g: Depends, outcomes: Outcomes, order: seq<WorkId>, w: WorkId)
    requires Resolve(g, outcomes, w) == BLOCKED_BY_FAILURE
    requires Schedule(g, outcomes, order)
    requires forall i :: 0 <= i < |order| ==> OutcomeOf(outcomes, order[i]) != FAILED
    ensures Resolve(g, Done(outcomes, order), w) == BLOCKED_BY_FAILURE && w !in order
  {
    hide Resolve;
    ResolveMeans(g, outcomes, w);
    var d :| d in Deps(g, w) && OutcomeOf(outcomes, d) == FAILED;
    forall i | 0 <= i <= |order|
      ensures OutcomeOf(Done(outcomes, order[..i]), d) == FAILED
    {
      DoneKeepsOutcome(outcomes, order[..i], d);
    }
    forall i | 0 <= i < |order|
      ensures order[i] != w
    {
      ResolveMeans(g, Done(outcomes, order[..i]), w);
    }
    assert order[..|order|] == order;
    ResolveMeans(g, Done(outcomes, order), w);
  }

  /** Waiting Work with no failure behind it becomes READY along some schedule. */
  lemma {:induction false} WaitingBecomesReady(g: Depends, s: set<WorkId>, outcomes: Outcomes, w: WorkId) returns (order: seq<WorkId>)
    requires Acyclic(g) && forall x :: x in s ==> Deps(g, x) <= s
    requires w in s && Resolve(g, outcomes, w) == WAITING_DEPENDENCY && Open(g, outcomes, w)
    ensures Schedule(g, outcomes, order) && w !in order
    ensures Resolve(g, Done(outcomes, order), w) == READY
  {
    hide Resolve, Open, Schedule;
    var open := set x | x in s && Open(g, outcomes, x);
    var full := EveryOpenWorkIsSchedulable(g, s, outcomes, open);
    assert w in open;
    FirstPlace(full, w);
    var n :| 0 <= n < |full| && full[n] == w && w !in full[..n];
    order := full[..n];
    ScheduleUpTo(g, outcomes, full, n);
  }

  lemma {:induction false} ScheduleUpTo(g: Depends, outcomes: Outcomes, full: seq<WorkId>, n: nat)
    requires Schedule(g, outcomes, full) && n < |full|
    ensures Schedule(g, outcomes, full[..n]) && Resolve(g, Done(outcomes, full[..n]), full[n]) == READY
  {
    hide Resolve, Done;
    forall i | 0 <= i < n
      ensures full[..n][..i] == full[..i] && full[..n][i] == full[i]
    {
    }
  }

  lemma {:induction false} FirstPlace(full: seq<WorkId>, w: WorkId)
    requires w in full
    ensures exists n :: 0 <= n < |full| && full[n] == w && w !in full[..n]
  {
    if full[|full| - 1] == w && w !in full[..|full| - 1] {
    } else {
      var m := |full| - 1;
      assert full == full[..m] + [full[m]];
      FirstPlace(full[..m], w);
      var n :| 0 <= n < m && full[..m][n] == w && w !in full[..m][..n];
      assert full[..m][..n] == full[..n];
    }
  }
}
