/**
 Cascade chain validation (src/baldur/audit/cascade_chain.py): the depth check and
 the depth-first search for a cycle of causation edges.

 Nodes are event identifiers; an effect contributes the edge from the event that
 caused it to its own identifier. Identifiers may repeat, so the graph is a
 multigraph with self-loops.
 */
module CascadeChain {
  import opened Wrappers

  datatype Effect = Effect(eventId: string, causedBy: string)

  // ---------------------------------------------------------------------------
  // The causation graph
  // ---------------------------------------------------------------------------

  ghost predicate Causes(effects: seq<Effect>, a: string, b: string) {
    Effect(b, a) in effects
  }

  ghost predicate IsWalk(effects: seq<Effect>, w: seq<string>) {
    |w| > 0 && forall i | 0 <= i < |w| - 1 :: Causes(effects, w[i], w[i + 1])
  }

  ghost predicate Connects(effects: seq<Effect>, w: seq<string>, a: string, b: string) {
    IsWalk(effects, w) && w[0] == a && w[|w| - 1] == b
  }

  ghost predicate Reachable(effects: seq<Effect>, a: string, b: string) {
    exists w :: Connects(effects, w, a, b)
  }

  /** A closed walk of at least one edge that starts at a node the trigger reaches. */
  ghost predicate IsReachableCycle(effects: seq<Effect>, trigger: string, w: seq<string>) {
    IsWalk(effects, w) && |w| >= 2 && w[0] == w[|w| - 1] && Reachable(effects, trigger, w[0])
  }

  ghost predicate HasReachableCycle(effects: seq<Effect>, trigger: string) {
    exists w :: IsReachableCycle(effects, trigger, w)
  }

  ghost predicate Distinct(s: seq<string>) {
    forall i, j | 0 <= i < j < |s| :: s[i] != s[j]
  }

  /** What a reported cycle promises: a reachable cycle that repeats only its end points. */
  ghost predicate IsReportedCycle(effects: seq<Effect>, trigger: string, w: seq<string>) {
    IsReachableCycle(effects, trigger, w) && Distinct(w[..|w| - 1])
  }

  /** Every edge out of a listed node leads to a node listed strictly earlier. */
  ghost predicate Descends(effects: seq<Effect>, order: seq<string>) {
    && Distinct(order)
    && forall j, b | 0 <= j < |order| && Causes(effects, order[j], b) :: b in order[..j]
  }

  /** The position in `order` is a rank that drops along every edge the trigger reaches. */
  ghost predicate RanksReachableEdges(effects: seq<Effect>, trigger: string, order: seq<string>) {
    Descends(effects, order) && forall a | Reachable(effects, trigger, a) :: a in order
  }

  lemma {:induction false} WalkStaysBelow(effects: seq<Effect>, order: seq<string>, w: seq<string>, p: nat)
    requires Descends(effects, order) && p < |order|
    requires IsWalk(effects, w) && w[0] == order[p]
    ensures w[|w| - 1] in order[..p + 1]
    ensures |w| >= 2 ==> w[|w| - 1] in order[..p]
    decreases |w|
  {
    if |w| >= 2 {
      assert Causes(effects, w[0], w[1]);
      assert w[1] in order[..p];
      var q :| 0 <= q < p && order[q] == w[1];
      forall i | 0 <= i < |w[1..]| - 1 ensures Causes(effects, w[1..][i], w[1..][i + 1]) {
        assert Causes(effects, w[i + 1], w[i + 2]);
      }
      WalkStaysBelow(effects, order, w[1..], q);
    }
  }

  /** A rank that drops along every reachable edge rules every reachable cycle out. */
  lemma RankExcludesCycles(effects: seq<Effect>, trigger: string, order: seq<string>)
    requires RanksReachableEdges(effects, trigger, order)
    ensures !HasReachableCycle(effects, trigger)
  {
    forall w | IsReachableCycle(effects, trigger, w) ensures false {
      var p :| 0 <= p < |order| && order[p] == w[0];
      WalkStaysBelow(effects, order, w, p);
    }
  }

  lemma TriggerInOrderReachesAll(effects: seq<Effect>, trigger: string, order: seq<string>)
    requires Descends(effects, order) && trigger in order
    ensures RanksReachableEdges(effects, trigger, order)
  {
    forall a | Reachable(effects, trigger, a) ensures a in order {
      var w :| Connects(effects, w, trigger, a);
      var p :| 0 <= p < |order| && order[p] == trigger;
      WalkStaysBelow(effects, order, w, p);
    }
  }

  // ---------------------------------------------------------------------------
  // The search
  // ---------------------------------------------------------------------------

  /** The adjacency dictionary: for each cause, the events it caused, in list order. */
  method BuildChildren(effects: seq<Effect>) returns (children: map<string, seq<string>>)
    ensures forall a, b :: (a in children && b in children[a]) <==> Causes(effects, a, b)
  {
    children := map[];
    for i := 0 to |effects|
      invariant forall a, b :: (a in children && b in children[a]) <==> Effect(b, a) in effects[..i]
    {
      var effect := effects[i];
      var causedBy := effect.causedBy;
      if causedBy !in children {
        children := children[causedBy := []];
      }
      ghost var before := children;
      children := children[causedBy := children[causedBy] + [effect.eventId]];
      forall a, b
        ensures (a in children && b in children[a]) <==> Effect(b, a) in effects[..i + 1]
      {
        assert effects[..i + 1] == effects[..i] + [effect];
        assert a != causedBy ==> (a in children <==> a in before);
      }
    }
    assert effects[..|effects|] == effects;
  }

  /** One search: `visited` and `path` are shared by every level of the recursion. */
  class CycleSearch {
    ghost const effects: seq<Effect>
    ghost const trigger: string
    ghost const nodes: set<string>
    const children: map<string, seq<string>>
    var visited: set<string>
    var path: seq<string>
    ghost var finished: seq<string>  // visited nodes already left, in the order they were left

    ghost predicate Valid()
      reads this
    {
      && (forall a, b :: (a in children && b in children[a]) <==> Causes(effects, a, b))
      && trigger in nodes
      && (forall a, b | Causes(effects, a, b) :: b in nodes)
      && visited <= nodes
      && (forall n :: n in visited <==> n in path || n in finished)
      && (forall n | n in path :: n !in finished)
      && Distinct(path)
      && (path != [] ==> IsWalk(effects, path) && path[0] == trigger)
      && Descends(effects, finished)
    }

    constructor (ghost effects: seq<Effect>, ghost trigger: string, children: map<string, seq<string>>)
      requires forall a, b :: (a in children && b in children[a]) <==> Causes(effects, a, b)
      ensures Valid() && path == [] && finished == []
      ensures this.effects == effects && this.trigger == trigger
    {
      this.effects := effects;
      this.trigger := trigger;
      this.nodes := {trigger} + set e | e in effects :: e.eventId;
      this.children := children;
      visited := {};
      path := [];
      finished := [];
      new;
      forall a, b | Causes(effects, a, b) ensures b in nodes {
        assert Effect(b, a) in effects && Effect(b, a).eventId == b;
      }
    }

    /**
     Either every node reachable from `node` has been left and the path is as before,
     or a reachable cycle is returned (and the path stays as it was when it was found).
     */
    method Dfs(node: string) returns (cycle: Option<seq<string>>)
      requires Valid() && node in nodes
      requires if path == [] then node == trigger else Causes(effects, path[|path| - 1], node)
      modifies this
      ensures cycle.None? ==> Valid() && path == old(path) && node in finished
      ensures cycle.None? ==> old(visited) <= visited && old(finished) <= finished
      ensures cycle.Some? ==> IsReportedCycle(effects, trigger, cycle.value)
      decreases nodes - visited
    {
      if node in path {
        var start := IndexOf(path, node);
        CycleIsReported(path, start, node);
        return Some(path[start..] + [node]);
      }
      if node in visited {
        return None;
      }
      visited := visited + {node};
      path := path + [node];
      var kids := if node in children then children[node] else [];
      for i := 0 to |kids|
        invariant Valid() && path == old(path) + [node]
        invariant old(visited) + {node} <= visited && old(finished) <= finished
        invariant forall k | 0 <= k < i :: kids[k] in finished
      {
        assert kids[i] in kids;
        assert path[|path| - 1] == node;
        cycle := Dfs(kids[i]);
        if cycle.Some? {
          return cycle;
        }
      }
      Leave(node, kids);
      cycle := None;
    }

    /** `path.pop()`: the node's children are all finished, so the node is finished too. */
    method Leave(node: string, ghost kids: seq<string>)
      requires Valid() && path != [] && path[|path| - 1] == node
      requires kids == if node in children then children[node] else []
      requires forall k | 0 <= k < |kids| :: kids[k] in finished
      modifies this`path, this`finished
      ensures Valid() && path == old(path)[..|old(path)| - 1] && finished == old(finished) + [node]
    {
      forall b | Causes(effects, node, b) ensures b in finished {
        assert b in kids;
      }
      forall n ensures n in visited <==> n in path[..|path| - 1] || n in finished + [node] {
        assert path == path[..|path| - 1] + [node];
      }
      ghost var before := finished;
      assert node in path && node !in before;
      path := path[..|path| - 1];
      finished := finished + [node];
      forall j, b | 0 <= j < |finished| && Causes(effects, finished[j], b)
        ensures b in finished[..j]
      {
        if j < |before| {
          assert finished[j] == before[j] && finished[..j] == before[..j];
        } else {
          assert finished[..j] == before;
        }
      }
    }

    /** The tail of the path from `node` on, closed by `node`, is a cycle the trigger reaches. */
    lemma CycleIsReported(p: seq<string>, start: nat, node: string)
      requires IsWalk(effects, p) && p[0] == trigger && Distinct(p)
      requires start < |p| && p[start] == node && Causes(effects, p[|p| - 1], node)
      ensures IsReportedCycle(effects, trigger, p[start..] + [node])
    {
      var w := p[start..] + [node];
      forall i | 0 <= i < |w| - 1 ensures Causes(effects, w[i], w[i + 1]) {
        if i < |w| - 2 {
          assert Causes(effects, p[start + i], p[start + i + 1]);
        }
      }
      assert Connects(effects, p[..start + 1], trigger, node);
      assert w[..|w| - 1] == p[start..];
    }
  }

  /** Python's `list.index` on a list that holds the element. */
  method IndexOf(s: seq<string>, x: string) returns (i: nat)
    requires x in s
    ensures i < |s| && s[i] == x && x !in s[..i]
  {
    i := 0;
    while s[i] != x
      invariant i < |s| && x !in s[..i]
      decreases |s| - i
    {
      assert x in s[i + 1..] by {
        assert s == s[..i] + [s[i]] + s[i + 1..];
      }
      i := i + 1;
    }
  }

  /**
   The search reports a cycle exactly when the trigger reaches one. When it does not,
   the order in which nodes were left is a rank that drops along every reachable edge.
   */
  method DetectCycle(effects: seq<Effect>, trigger: string)
    returns (cycle: Option<seq<string>>, ghost order: seq<string>)
    ensures cycle.None? <==> !HasReachableCycle(effects, trigger)
    ensures cycle.None? ==> RanksReachableEdges(effects, trigger, order)
    ensures cycle.Some? ==> IsReportedCycle(effects, trigger, cycle.value)
  {
    if effects == [] {
      order := [trigger];
      TriggerInOrderReachesAll(effects, trigger, order);
      RankExcludesCycles(effects, trigger, order);
      return None, order;
    }
    var children := BuildChildren(effects);
    var search := new CycleSearch(effects, trigger, children);
    cycle := search.Dfs(trigger);
    order := search.finished;
    if cycle.None? {
      TriggerInOrderReachesAll(effects, trigger, order);
      RankExcludesCycles(effects, trigger, order);
    }
  }

  // ---------------------------------------------------------------------------
  // Validation
  // ---------------------------------------------------------------------------

  datatype ChainConfig = ChainConfig(maxChainDepth: int, warnAtDepth: int, blockOnExceed: bool, detectCycles: bool)

  const DEFAULT_CHAIN_CONFIG := ChainConfig(10, 7, true, true)

  /** How validation ends: normally, or by raising one of two exceptions. */
  datatype Verdict =
    | Accepted
    | DepthExceeded(depth: int, maxDepth: int)
    | CycleDetected(cyclePath: seq<string>)

  /**
   Full chain validation. A cycle is raised only when the depth check let the chain
   through, and then exactly when one is reachable.
   */
  method ValidateCascadeChain(effects: seq<Effect>, trigger: string, currentDepth: int, config: Option<ChainConfig>)
    returns (verdict: Verdict)
    ensures var c := if config.Some? then config.value else ChainConfig(10, 7, true, true);
            && (verdict.DepthExceeded? <==> currentDepth >= c.maxChainDepth && c.blockOnExceed)
            && (verdict.CycleDetected? <==>
                  && (currentDepth < c.maxChainDepth || !c.blockOnExceed)
                  && c.detectCycles && HasReachableCycle(effects, trigger))
            && (verdict.CycleDetected? ==> IsReportedCycle(effects, trigger, verdict.cyclePath))
            && (verdict.DepthExceeded? ==> verdict == DepthExceeded(currentDepth, c.maxChainDepth))
  {
    var c := if config.Some? then config.value else DEFAULT_CHAIN_CONFIG;
    verdict := CheckChainDepth(currentDepth, c);
    if verdict.Accepted? {
      verdict := CheckCycle(effects, trigger, c);
    }
  }

  method CheckChainDepth(currentDepth: int, config: ChainConfig) returns (verdict: Verdict)
    ensures verdict == if currentDepth >= config.maxChainDepth && config.blockOnExceed
                       then DepthExceeded(currentDepth, config.maxChainDepth) else Accepted
  {
    verdict := Accepted;
    if currentDepth >= config.maxChainDepth {
      if config.blockOnExceed {
        verdict := DepthExceeded(currentDepth, config.maxChainDepth);
      }
    }
  }

  method CheckCycle(effects: seq<Effect>, trigger: string, config: ChainConfig) returns (verdict: Verdict)
    ensures verdict.CycleDetected? <==> config.detectCycles && HasReachableCycle(effects, trigger)
    ensures verdict.CycleDetected? ==> IsReportedCycle(effects, trigger, verdict.cyclePath)
    ensures !verdict.DepthExceeded?
  {
    if !config.detectCycles {
      return Accepted;
    }
    var cyclePath, _ := DetectCycle(effects, trigger);
    match cyclePath {
      case Some(path) => verdict := CycleDetected(path);
      case None => verdict := Accepted;
    }
  }
}
