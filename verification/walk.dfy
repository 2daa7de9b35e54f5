/** The stack-based graph walk that three passes of C2 share. */
module Walk {
  import opened Ir
  import opened Cfg

  /** A walk visits blocks and the nodes in them. */
  datatype Ref = BlockRef(b: nat) | NodeRef(b: nat, i: nat)

  predicate ValidRef(g: Graph, r: Ref) {
    r.b < |g| && (r.NodeRef? ==> r.i < |g[r.b]|)
  }

  /** The nodes of a block, in order: the last one ends on top of the stack. */
  function NodesOf(g: Graph, b: nat): (r: seq<Ref>)
    requires b < |g|
    ensures |r| == |g[b]| && forall i :: 0 <= i < |r| ==> r[i] == NodeRef(b, i)
  {
    seq(|g[b]|, i requires 0 <= i < |g[b]| => NodeRef(b, i))
  }

  /** What visiting `r` has to push. */
  ghost predicate Child(g: Graph, r: Ref, q: Ref)
    requires ValidRef(g, r)
  {
    if r.BlockRef? then q.NodeRef? && q.b == r.b && q.i < |g[r.b]|
    else q.BlockRef? && q.b in Targets(g[r.b][r.i])
  }

  // What a walk from `entry` keeps.  `seen` are the refs visited or on the stack.

  ghost predicate Sound(g: Graph, entry: nat, visited: set<Ref>, seen: set<Ref>) {
    && visited <= seen
    && (forall r :: r in seen ==> ValidRef(g, r))
    && (forall r :: r in seen && r.NodeRef? ==> BlockRef(r.b) in visited)
    && (forall r :: r in seen && r.BlockRef? ==> Discovered(g, entry, visited, r.b))
  }

  ghost predicate Complete(g: Graph, entry: nat, visited: set<Ref>, seen: set<Ref>) {
    && BlockRef(entry) in seen
    && (forall r, q :: r in visited && ValidRef(g, r) && Child(g, r, q) ==> q in seen)
  }

  /** A block is the entry or a visited node leads to it. */
  ghost predicate Discovered(g: Graph, entry: nat, visited: set<Ref>, x: nat) {
    x == entry || exists r :: r in visited && Leads(g, r, x)
  }

  predicate Leads(g: Graph, r: Ref, x: nat) {
    r.NodeRef? && ValidRef(g, r) && x in Targets(g[r.b][r.i])
  }

  ghost predicate Ordered(g: Graph, entry: nat, visited: set<Ref>, order: seq<nat>) {
    && (forall b: nat :: b in order <==> BlockRef(b) in visited)
    && Chain(g, entry, order)
  }

  ghost predicate Walking(g: Graph, entry: nat, visited: set<Ref>, seen: set<Ref>, order: seq<nat>) {
    && Sound(g, entry, visited, seen)
    && Complete(g, entry, visited, seen)
    && Ordered(g, entry, visited, order)
  }

  function Visit(order: seq<nat>, r: Ref): seq<nat> {
    if r.BlockRef? then order + [r.b] else order
  }

  ghost function Children(g: Graph, r: Ref): set<Ref>
    requires ValidRef(g, r)
  {
    if r.BlockRef? then set i | 0 <= i < |g[r.b]| :: NodeRef(r.b, i)
    else set b | b in Targets(g[r.b][r.i]) :: BlockRef(b)
  }

  lemma ChildrenAre(g: Graph, r: Ref)
    requires ValidRef(g, r)
    ensures forall q :: q in Children(g, r) <==> Child(g, r, q)
  {
  }

  lemma WalkBegins(g: Graph, entry: nat)
    requires entry < |g|
    ensures Walking(g, entry, {}, {BlockRef(entry)}, [])
  {
  }

  lemma WalkVisits(g: Graph, entry: nat, visited: set<Ref>, seen: set<Ref>, order: seq<nat>, r: Ref)
    requires Closed(g) && Walking(g, entry, visited, seen, order)
    requires r in seen && r !in visited
    ensures Walking(g, entry, visited + {r}, seen + Children(g, r), Visit(order, r))
  {
    ChildrenAre(g, r);
    VisitSound(g, entry, visited, seen, r);
    VisitOrdered(g, entry, visited, seen, order, r);
  }

  lemma VisitSound(g: Graph, entry: nat, visited: set<Ref>, seen: set<Ref>, r: Ref)
    requires Closed(g) && Sound(g, entry, visited, seen)
    requires r in seen
    ensures Sound(g, entry, visited + {r}, seen + Children(g, r))
  {
    ChildrenAre(g, r);
    var visited', seen' := visited + {r}, seen + Children(g, r);
    forall q | q in seen' && q.BlockRef? ensures Discovered(g, entry, visited', q.b) {
      if q in seen {
        assert Discovered(g, entry, visited, q.b);
      } else {
        assert Leads(g, r, q.b);
      }
    }
  }

  lemma VisitOrdered(g: Graph, entry: nat, visited: set<Ref>, seen: set<Ref>, order: seq<nat>, r: Ref)
    requires Sound(g, entry, visited, seen) && Ordered(g, entry, visited, order)
    requires r in seen && r !in visited
    ensures Ordered(g, entry, visited + {r}, Visit(order, r))
  {
    if r.BlockRef? {
      FoundByEarlier(g, entry, visited, seen, order, r.b);
      AppendFound(g, entry, order, r.b);
      assert forall b: nat :: b in order + [r.b] <==> b in order || b == r.b;
      assert r == BlockRef(r.b);
    }
  }

  lemma FoundByEarlier(g: Graph, entry: nat, visited: set<Ref>, seen: set<Ref>, order: seq<nat>, b: nat)
    requires Sound(g, entry, visited, seen) && Ordered(g, entry, visited, order)
    requires BlockRef(b) in seen && BlockRef(b) !in visited
    ensures if order == [] then b == entry else LedTo(g, order, b)
    ensures b !in order
  {
    assert Discovered(g, entry, visited, b);
    if order != [] {
      assert entry in order;
      var q :| q in visited && Leads(g, q, b);
      assert BlockRef(q.b) in visited;
      var i :| 0 <= i < |order| && order[i] == q.b;
      assert Edge(g, order[i], b);
    } else if b != entry {
      assert false;
    }
  }

  ghost predicate Chain(g: Graph, entry: nat, order: seq<nat>) {
    && (order != [] ==> order[0] == entry)
    && (forall i, j :: 0 <= i < j < |order| ==> order[i] != order[j])
    && (forall j :: 0 < j < |order| ==> LedTo(g, order[..j], order[j]))
  }

  lemma AppendFound(g: Graph, entry: nat, order: seq<nat>, b: nat)
    requires Chain(g, entry, order) && b !in order
    requires if order == [] then b == entry else LedTo(g, order, b)
    ensures Chain(g, entry, order + [b])
  {
    var order' := order + [b];
    forall j | 0 < j < |order'| ensures LedTo(g, order'[..j], order'[j]) {
      if j < |order| { assert order'[..j] == order[..j]; } else { assert order'[..j] == order; }
    }
  }

  /** A walk with nothing left to visit has searched the graph. */
  lemma WalkEnds(g: Graph, entry: nat, visited: set<Ref>, order: seq<nat>)
    requires Walking(g, entry, visited, visited, order)
    ensures SearchOrder(g, entry, order)
    ensures forall r :: r in visited <==> r.b in order && ValidRef(g, r)
  {
    assert BlockRef(entry) in visited;
    forall r ensures r in visited <==> r.b in order && ValidRef(g, r) {
      if r.b in order && ValidRef(g, r) && r.NodeRef? {
        assert Child(g, BlockRef(r.b), r);
      }
    }
    forall a, b | a in order && Edge(g, a, b) ensures b in order {
      var i :| 0 <= i < |g[a]| && b in Targets(g[a][i]);
      assert NodeRef(a, i) in visited;
      assert Child(g, NodeRef(a, i), BlockRef(b));
    }
  }

  // ----- the stack -----

  ghost predicate SeenIs(seen: set<Ref>, visited: set<Ref>, stack: seq<Ref>) {
    forall r :: r in seen <==> r in visited || r in stack
  }

  lemma PopKeepsSeen(seen: set<Ref>, visited: set<Ref>, stack: seq<Ref>)
    requires SeenIs(seen, visited, stack) && stack != []
    ensures SeenIs(seen, visited + {stack[|stack|-1]}, stack[..|stack|-1])
  {
    assert stack == stack[..|stack|-1] + [stack[|stack|-1]];
  }

  lemma PushAddsSeen(seen: set<Ref>, visited: set<Ref>, stack: seq<Ref>, pushes: seq<Ref>, more: set<Ref>)
    requires SeenIs(seen, visited, stack)
    requires forall r :: r in pushes <==> r in more
    ensures SeenIs(seen + more, visited, stack + pushes)
  {
  }

  /** The refs of a graph: what a walk can still visit is its measure. */
  ghost function AllRefs(g: Graph): (r: set<Ref>)
    ensures forall q :: ValidRef(g, q) <==> q in r
  {
    (set b | 0 <= b < |g| :: BlockRef(b)) + (set b, i | 0 <= b < |g| && 0 <= i < |g[b]| :: NodeRef(b, i))
  }

  // ----- the loop of a walk -----

  ghost predicate Walks(g: Graph, entry: nat, visited: set<Ref>, seen: set<Ref>, stack: seq<Ref>, order: seq<nat>) {
    Walking(g, entry, visited, seen, order) && SeenIs(seen, visited, stack)
  }

  /** How many refs a walk can still visit. */
  ghost function Left(g: Graph, visited: set<Ref>): nat { |AllRefs(g) - visited| }

  lemma WalksBegin(g: Graph, entry: nat)
    requires entry < |g|
    ensures Walks(g, entry, {}, {BlockRef(entry)}, [BlockRef(entry)], [])
  {
    WalkBegins(g, entry);
  }

  lemma WalksPop(g: Graph, entry: nat, visited: set<Ref>, seen: set<Ref>, stack: seq<Ref>, order: seq<nat>)
    requires Walks(g, entry, visited, seen, stack, order) && stack != []
    ensures stack[|stack|-1] in seen && ValidRef(g, stack[|stack|-1])
    ensures stack[|stack|-1] in visited ==> Walks(g, entry, visited, seen, stack[..|stack|-1], order)
  {
    var r := stack[|stack|-1];
    assert r in stack;
    PopKeepsSeen(seen, visited, stack);
    if r in visited { assert visited + {r} == visited; }
  }

  /** Visiting the ref on top with the given pushes. */
  lemma WalksVisit(g: Graph, entry: nat, visited: set<Ref>, seen: set<Ref>, stack: seq<Ref>, order: seq<nat>,
      pushes: seq<Ref>)
    requires Closed(g) && Walks(g, entry, visited, seen, stack, order) && stack != []
    requires stack[|stack|-1] !in visited && ValidRef(g, stack[|stack|-1])
    requires forall q :: q in pushes <==> Child(g, stack[|stack|-1], q)
    ensures var r := stack[|stack|-1];
      Walks(g, entry, visited + {r}, seen + Children(g, r), stack[..|stack|-1] + pushes, Visit(order, r))
    ensures Left(g, visited + {stack[|stack|-1]}) < Left(g, visited)
  {
    var r := stack[|stack|-1];
    assert r in stack;
    WalkVisits(g, entry, visited, seen, order, r);
    PopKeepsSeen(seen, visited, stack);
    ChildrenAre(g, r);
    PushAddsSeen(seen, visited + {r}, stack[..|stack|-1], pushes, Children(g, r));
    assert AllRefs(g) - (visited + {r}) == AllRefs(g) - visited - {r};
  }

  lemma WalksEnd(g: Graph, entry: nat, visited: set<Ref>, seen: set<Ref>, order: seq<nat>)
    requires Walks(g, entry, visited, seen, [], order)
    ensures SearchOrder(g, entry, order)
    ensures forall r :: r in visited <==> r.b in order && ValidRef(g, r)
  {
    assert seen == visited;
    WalkEnds(g, entry, visited, order);
  }

  /** What visiting `r` pushes.  Of the arms of a branch, two passes push the true
      one first and the pass that places the blocks pushes it last. */
  function PushesOf(g: Graph, r: Ref, trueFirst: bool): (pushes: seq<Ref>)
    requires ValidRef(g, r)
    ensures forall q :: q in pushes <==> Child(g, r, q)
  {
    match r
    case BlockRef(b) => NodesOf(g, b)
    case NodeRef(b, i) =>
      match g[b][i]
      case Jump(d) => [BlockRef(d)]
      case Branch(_, t, f) => if trueFirst then [BlockRef(t), BlockRef(f)] else [BlockRef(f), BlockRef(t)]
      case Plain(_) => []
  }
}
