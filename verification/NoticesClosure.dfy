/**
 The dependency closure behind the license inventory (scripts/generate_notices.py).

 A node is a distribution name together with the extras it was requested with; the
 worklist explores nodes, and the inventory is the set of installed names among them.
 Name canonicalisation and marker evaluation are parameters: both come from the
 `packaging` library.
 */
module NoticesClosure {
  import opened Wrappers

  datatype Platform = Linux | Windows | MacOs

  const PLATFORMS: seq<Platform> := [Linux, Windows, MacOs]

  datatype Evaluation = Holds | Fails | Raises

  type Marker = (Platform, string) -> Evaluation

  datatype Requirement = Requirement(name: string, extras: set<string>, marker: Option<Marker>)

  /** Installed distributions and their declared requirements, by canonical name. */
  type Index = map<string, seq<Requirement>>

  type Canon = string -> string

  datatype Node = Node(name: string, extras: set<string>)

  // ---------------------------------------------------------------------------
  // The closure as reachability
  // ---------------------------------------------------------------------------

  /** An absent marker counts only under the empty extra; otherwise any platform may satisfy it. */
  ghost predicate MarkerHolds(marker: Option<Marker>, extra: string) {
    match marker
    case None => extra == ""
    case Some(m) => exists p: Platform :: m(p, extra).Holds?
  }

  ghost predicate Included(req: Requirement, active: set<string>) {
    MarkerHolds(req.marker, "") || exists e | e in active :: MarkerHolds(req.marker, e)
  }

  ghost predicate Requires(index: Index, canon: Canon, a: Node, b: Node) {
    a.name in index &&
    exists i | 0 <= i < |index[a.name]| ::
      Included(index[a.name][i], a.extras) && Names(index[a.name][i], canon, b)
  }

  /** The node a requirement asks for: its own name with its own extras. */
  ghost predicate Names(req: Requirement, canon: Canon, b: Node) {
    b.name == canon(req.name) && b.extras == req.extras
  }

  ghost predicate IsWalk(index: Index, canon: Canon, w: seq<Node>) {
    |w| > 0 && forall i | 0 <= i < |w| - 1 :: Requires(index, canon, w[i], w[i + 1])
  }

  ghost predicate Reaches(index: Index, canon: Canon, a: Node, b: Node) {
    exists w :: IsWalk(index, canon, w) && w[0] == a && w[|w| - 1] == b
  }

  /** `n` is installed and required, directly or through others, by `root[extras]`. */
  ghost predicate InClosure(index: Index, canon: Canon, root: string, extras: set<string>, n: string) {
    n in index && exists active :: Reaches(index, canon, Node(canon(root), extras), Node(n, active))
  }

  lemma ReachesItself(index: Index, canon: Canon, a: Node)
    ensures Reaches(index, canon, a, a)
  {
    assert IsWalk(index, canon, [a]);
  }

  lemma ReachesThrough(index: Index, canon: Canon, a: Node, b: Node, c: Node)
    requires Reaches(index, canon, a, b) && Requires(index, canon, b, c)
    ensures Reaches(index, canon, a, c)
  {
    var w :| IsWalk(index, canon, w) && w[0] == a && w[|w| - 1] == b;
    assert IsWalk(index, canon, w + [c]);
  }

  /** A set that holds the start and every requirement of its members holds what the start reaches. */
  lemma {:induction false} ClosedSetHoldsReachable(index: Index, canon: Canon, s: set<Node>, w: seq<Node>)
    requires IsWalk(index, canon, w) && w[0] in s
    requires forall a, b | a in s && Requires(index, canon, a, b) :: b in s
    ensures w[|w| - 1] in s
    decreases |w|
  {
    if |w| > 1 {
      assert Requires(index, canon, w[0], w[1]);
      forall i | 0 <= i < |w[1..]| - 1 ensures Requires(index, canon, w[1..][i], w[1..][i + 1]) {
        assert Requires(index, canon, w[i + 1], w[i + 2]);
      }
      ClosedSetHoldsReachable(index, canon, s, w[1..]);
    }
  }

  // ---------------------------------------------------------------------------
  // How the closure depends on the extras
  // ---------------------------------------------------------------------------

  lemma SwapStart(index: Index, canon: Canon, w: seq<Node>, start: Node)
    requires IsWalk(index, canon, w) && |w| > 1 && Requires(index, canon, start, w[1])
    ensures Reaches(index, canon, start, w[|w| - 1])
  {
    var v := [start] + w[1..];
    forall i | 0 <= i < |v| - 1 ensures Requires(index, canon, v[i], v[i + 1]) {
      assert i > 0 ==> Requires(index, canon, w[i], w[i + 1]);
    }
    assert IsWalk(index, canon, v);
  }

  /** More extras never remove a distribution from the closure. */
  lemma ClosureMonotone(index: Index, canon: Canon, root: string, extras: set<string>, more: set<string>, n: string)
    requires extras <= more && InClosure(index, canon, root, extras, n)
    ensures InClosure(index, canon, root, more, n)
  {
    var active :| Reaches(index, canon, Node(canon(root), extras), Node(n, active));
    var w :| IsWalk(index, canon, w) && w[0] == Node(canon(root), extras) && w[|w| - 1] == Node(n, active);
    if |w| == 1 {
      ReachesItself(index, canon, Node(n, more));
    } else {
      assert Requires(index, canon, w[0], w[1]);
      var i :| 0 <= i < |index[canon(root)]| && Included(index[canon(root)][i], extras)
               && Names(index[canon(root)][i], canon, w[1]);
      assert Included(index[canon(root)][i], more);
      SwapStart(index, canon, w, Node(canon(root), more));
    }
  }

  /** Asking for two sets of extras at once adds nothing beyond asking for each. */
  lemma ClosureOfUnion(index: Index, canon: Canon, root: string, one: set<string>, two: set<string>, n: string)
    ensures InClosure(index, canon, root, one + two, n) <==>
            InClosure(index, canon, root, one, n) || InClosure(index, canon, root, two, n)
  {
    if InClosure(index, canon, root, one, n) {
      ClosureMonotone(index, canon, root, one, one + two, n);
    }
    if InClosure(index, canon, root, two, n) {
      ClosureMonotone(index, canon, root, two, one + two, n);
    }
    if InClosure(index, canon, root, one + two, n) {
      var c := canon(root);
      var active :| Reaches(index, canon, Node(c, one + two), Node(n, active));
      var w :| IsWalk(index, canon, w) && w[0] == Node(c, one + two) && w[|w| - 1] == Node(n, active);
      if |w| == 1 {
        ReachesItself(index, canon, Node(n, one));
      } else {
        assert Requires(index, canon, w[0], w[1]);
        var i :| 0 <= i < |index[c]| && Included(index[c][i], one + two) && Names(index[c][i], canon, w[1]);
        var side := if Included(index[c][i], one) then one else two;
        assert Included(index[c][i], side);
        SwapStart(index, canon, w, Node(c, side));
      }
    }
  }

  /**
   Extras are followed: when a node of the closure requires `n[e]`, every installed requirement
   of `n` that is unconditional or belongs to one of the extras `e` is in the closure.
   */
  lemma ExtrasAreFollowed(index: Index, canon: Canon, root: string, extras: set<string>, a: Node, i: nat, j: nat)
    requires Reaches(index, canon, Node(canon(root), extras), a) && a.name in index && i < |index[a.name]|
    requires var req := index[a.name][i];
             && Included(req, a.extras) && canon(req.name) in index && j < |index[canon(req.name)]|
             && var inner := index[canon(req.name)][j];
                && (MarkerHolds(inner.marker, "") || exists e | e in req.extras :: MarkerHolds(inner.marker, e))
                && canon(inner.name) in index
    ensures InClosure(index, canon, root, extras, canon(index[canon(index[a.name][i].name)][j].name))
  {
    var req := index[a.name][i];
    var b := Node(canon(req.name), req.extras);
    var inner := index[b.name][j];
    assert Names(req, canon, b) && Names(inner, canon, Node(canon(inner.name), inner.extras));
    ReachesThrough(index, canon, Node(canon(root), extras), a, b);
    ReachesThrough(index, canon, Node(canon(root), extras), b, Node(canon(inner.name), inner.extras));
  }

  // ---------------------------------------------------------------------------
  // The worklist
  // ---------------------------------------------------------------------------

  method CheckMarker(marker: Option<Marker>, extra: string) returns (holds: bool)
    ensures holds <==> MarkerHolds(marker, extra)
    ensures marker.None? ==> (holds <==> extra == "")
    ensures marker.Some? ==> (holds <==> exists p: Platform :: marker.value(p, extra) == Holds)
  {
    match marker {
      case None =>
        return extra == "";
      case Some(m) =>
        for i := 0 to |PLATFORMS|
          invariant forall k | 0 <= k < i :: !m(PLATFORMS[k], extra).Holds?
        {
          if m(PLATFORMS[i], extra).Holds? {
            return true;
          }
        }
        forall p: Platform ensures !m(p, extra).Holds? {
          assert p == PLATFORMS[0] || p == PLATFORMS[1] || p == PLATFORMS[2];
        }
        return false;
    }
  }

  method CheckIncluded(req: Requirement, active: set<string>) returns (included: bool)
    ensures included <==> Included(req, active)
  {
    included := CheckMarker(req.marker, "");
    var rest := active;
    while !included && rest != {}
      invariant rest <= active
      invariant included ==> Included(req, active)
      invariant !included ==> !MarkerHolds(req.marker, "")
                              && forall e | e in active - rest :: !MarkerHolds(req.marker, e)
      decreases rest
    {
      var e :| e in rest;
      included := CheckMarker(req.marker, e);
      rest := rest - {e};
    }
  }

  /** The start and every requirement of a seen node have been seen or are on the stack. */
  ghost predicate Covered(index: Index, canon: Canon, start: Node, seen: set<Node>, stack: seq<Node>) {
    && (start in seen || start in stack)
    && (forall b | b in seen || b in stack :: Reaches(index, canon, start, b))
    && (forall a, b | a in seen && Requires(index, canon, a, b) :: b in seen || b in stack)
  }

  ghost predicate NamesOf(index: Index, seen: set<Node>, found: set<string>) {
    forall n :: n in found <==> n in index && exists active :: Node(n, active) in seen
  }

  /** Once the stack is empty the seen nodes are those that the start reaches. */
  lemma SeenIsClosure(index: Index, canon: Canon, root: string, extras: set<string>, seen: set<Node>, n: string)
    requires Covered(index, canon, Node(canon(root), extras), seen, [])
    ensures InClosure(index, canon, root, extras, n) <==> n in index && exists active :: Node(n, active) in seen
  {
    var start := Node(canon(root), extras);
    if InClosure(index, canon, root, extras, n) {
      var active :| Reaches(index, canon, start, Node(n, active));
      var w :| IsWalk(index, canon, w) && w[0] == start && w[|w| - 1] == Node(n, active);
      ClosedSetHoldsReachable(index, canon, seen, w);
    }
  }

  /** A node that is popped again needs nothing more. */
  lemma PopSeen(index: Index, canon: Canon, start: Node, seen: set<Node>, pending: seq<Node>, node: Node)
    requires Covered(index, canon, start, seen, pending + [node]) && node in seen
    ensures Covered(index, canon, start, seen, pending)
  {
  }

  /** Seeing one more node adds its name if it is installed. */
  lemma NamesGrow(index: Index, seen: set<Node>, found: set<string>, node: Node)
    requires NamesOf(index, seen, found)
    ensures NamesOf(index, seen + {node}, if node.name in index then found + {node.name} else found)
  {
    forall n ensures (n in index && exists active :: Node(n, active) in seen + {node}) <==>
                     (n in found || (n == node.name && n in index)) {
      if n == node.name {
        assert Node(n, node.extras) in seen + {node};
      }
    }
  }

  /** Expanding a node whose requirements have been pushed. */
  lemma ExpandCovers(index: Index, canon: Canon, start: Node, seen: set<Node>, pending: seq<Node>, node: Node,
                     stack: seq<Node>)
    requires Covered(index, canon, start, seen, pending + [node])
    requires forall b :: b in stack <==> b in pending || Requires(index, canon, node, b)
    ensures Covered(index, canon, start, seen + {node}, stack)
  {
    forall b | b in stack ensures Reaches(index, canon, start, b) {
      if b !in pending {
        ReachesThrough(index, canon, start, node, b);
      }
    }
  }

  /** All nodes the search can meet. */
  ghost function Universe(index: Index, canon: Canon, start: Node): set<Node> {
    {start} +
    set name, i | name in index && 0 <= i < |index[name]| :: Node(canon(index[name][i].name), index[name][i].extras)
  }

  lemma RequiredInUniverse(index: Index, canon: Canon, start: Node, node: Node, b: Node)
    requires Requires(index, canon, node, b)
    ensures b in Universe(index, canon, start)
  {
    var i :| 0 <= i < |index[node.name]| && Names(index[node.name][i], canon, b);
  }

  /**
   The names found are exactly the installed names that `root[extras]` reaches. The
   search ends on cyclic requirements because each node is expanded once.
   */
  method ResolveClosure(root: string, extras: set<string>, index: Index, canon: Canon) returns (found: set<string>)
    ensures forall n :: n in found <==> InClosure(index, canon, root, extras, n)
  {
    var start := Node(canon(root), extras);
    ghost var universe := Universe(index, canon, start);
    var seen: set<Node> := {};
    found := {};
    var stack := [start];
    ReachesItself(index, canon, start);
    while stack != []
      invariant seen <= universe && forall b | b in stack :: b in universe
      invariant Covered(index, canon, start, seen, stack) && NamesOf(index, seen, found)
      decreases universe - seen, |stack|
    {
      var node := stack[|stack| - 1];
      assert stack == stack[..|stack| - 1] + [node];
      stack := stack[..|stack| - 1];
      if node in seen {
        PopSeen(index, canon, start, seen, stack, node);
        continue;
      }
      ghost var before, pending := seen, stack;
      NamesGrow(index, seen, found, node);
      seen := seen + {node};
      if node.name !in index {
        ExpandCovers(index, canon, start, before, pending, node, stack);
        continue;
      }
      found := found + {node.name};
      stack := PushRequirements(node, index, canon, stack);
      ExpandCovers(index, canon, start, before, pending, node, stack);
      forall b | b in stack && b !in pending ensures b in universe {
        RequiredInUniverse(index, canon, start, node, b);
      }
    }
    forall n ensures n in found <==> InClosure(index, canon, root, extras, n) {
      SeenIsClosure(index, canon, root, extras, seen, n);
    }
  }

  /** Push the node of every requirement included under the node's own extras. */
  method PushRequirements(node: Node, index: Index, canon: Canon, before: seq<Node>) returns (stack: seq<Node>)
    requires node.name in index
    ensures forall b :: b in stack <==> b in before || Requires(index, canon, node, b)
  {
    var reqs := index[node.name];
    stack := before;
    for i := 0 to |reqs|
      invariant forall b :: b in stack <==>
        b in before || exists k | 0 <= k < i :: Included(reqs[k], node.extras) && Names(reqs[k], canon, b)
    {
      var included := CheckIncluded(reqs[i], node.extras);
      if included {
        stack := stack + [Node(canon(reqs[i].name), reqs[i].extras)];
      }
    }
  }
}
