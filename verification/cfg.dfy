/** The control-flow graph: numbered blocks of nodes, and the machine that runs
    it.  A jump or a branch names the blocks it leads to.
  */
module Cfg {
  import opened Ir

  type Text = seq<Byte>

  datatype Node =
    | Plain(item: Item<Text>)
    | Jump(dest: nat)
    | Branch(cond: nat, onTrue: nat, onFalse: nat)

  type Block = seq<Node>

  type Graph = seq<Block>

  /** The blocks a node leads to. */
  function Targets(node: Node): set<nat> {
    match node
    case Plain(_) => {}
    case Jump(d) => {d}
    case Branch(_, t, f) => {t, f}
  }

  /** The temporaries a node names. */
  function NodeMentions(node: Node): seq<nat> {
    match node
    case Plain(item) => Mentions(item)
    case Jump(_) => []
    case Branch(c, _, _) => [c]
  }

  predicate Edge(g: Graph, a: nat, b: nat) {
    a < |g| && exists i :: 0 <= i < |g[a]| && b in Targets(g[a][i])
  }

  /** The items a block may hold. */
  predicate PlainItem(item: Item<Text>) {
    item.Halt? || item.Inspect? || item.Merge? || item.Alloca? || item.Ret? || item.Do?
  }

  predicate Ends(node: Node) {
    node.Jump? || node.Branch? || (node.Plain? && (node.item.Halt? || node.item.Ret?))
  }

  /** A finished block: it ends in a jump, a branch, a return or a halt, and jumps
      and branches are nowhere else. */
  predicate Finished(block: Block) {
    && block != []
    && Ends(block[|block|-1])
    && (forall i :: 0 <= i < |block| - 1 ==> block[i].Plain?)
    && (forall i :: 0 <= i < |block| && block[i].Plain? ==> PlainItem(block[i].item))
  }

  /** Targets are blocks. */
  predicate Closed(g: Graph) {
    forall a, i, b :: 0 <= a < |g| && 0 <= i < |g[a]| && b in Targets(g[a][i]) ==> b < |g|
  }

  // ----- running -----

  /** Control stands in `block`, at the node `s.pc` of it. */
  datatype Place = Place(block: nat, s: State)

  function Enter(b: nat, s: State): Place { Place(b, s.(pc := 0)) }

  function Step(rt: Runtime<Text>, g: Graph, c: Place): Place {
    if c.s.status != Running then c
    else if c.block >= |g| || c.s.pc >= |g[c.block]| then c.(s := c.s.(status := Stuck))
    else
      match g[c.block][c.s.pc]
      case Plain(item) => if IsBranch(item) then c.(s := c.s.(status := Stuck)) else c.(s := Straight(rt, item, c.s))
      case Jump(d) => Enter(d, c.s)
      case Branch(v, t, f) => Enter(if rt.truthy(Get(rt, c.s.temps, v)) then t else f, c.s)
  }

  function Run(rt: Runtime<Text>, g: Graph, n: nat, c: Place): Place {
    if n == 0 then c else Run(rt, g, n - 1, Step(rt, g, c))
  }

  lemma {:induction false} RunSplit(rt: Runtime<Text>, g: Graph, n: nat, m: nat, c: Place)
    ensures Run(rt, g, n + m, c) == Run(rt, g, m, Run(rt, g, n, c))
  {
    if n > 0 { RunSplit(rt, g, n - 1, m, Step(rt, g, c)); }
  }

  /** The temporary the next step writes. */
  function StepWrites(g: Graph, c: Place): Option<nat> {
    if c.s.status.Running? && c.block < |g| && c.s.pc < |g[c.block]| && g[c.block][c.s.pc].Plain?
    then Writes(g[c.block][c.s.pc].item) else None
  }

  function Begin(entry: nat, world: World): Place { Place(entry, Start(world)) }

  function After(rt: Runtime<Text>, g: Graph, entry: nat, world: World, n: nat): Place {
    Run(rt, g, n, Begin(entry, world))
  }

  lemma AfterStep(rt: Runtime<Text>, g: Graph, entry: nat, world: World, n: nat)
    ensures After(rt, g, entry, world, n + 1) == Step(rt, g, After(rt, g, entry, world, n))
  {
    RunSplit(rt, g, n, 1, Begin(entry, world));
    var c := After(rt, g, entry, world, n);
    assert Run(rt, g, 1, c) == Run(rt, g, 0, Step(rt, g, c));
  }

  /** `o` can be observed of some run of the graph. */
  ghost predicate Shows(rt: Runtime<Text>, g: Graph, entry: nat, world: World, o: Observation) {
    exists n: nat :: Observe(After(rt, g, entry, world, n).s) == o
  }

  // ----- search orders -----

  /** What a graph search yields: the entry first, no block twice, each other block
      led to by an earlier one, and no edge out of the list. */
  ghost predicate SearchOrder(g: Graph, entry: nat, order: seq<nat>) {
    && order != [] && order[0] == entry
    && (forall i, j :: 0 <= i < j < |order| ==> order[i] != order[j])
    && (forall j :: 0 < j < |order| ==> LedTo(g, order[..j], order[j]))
    && (forall a, b :: a in order && Edge(g, a, b) ==> b in order)
  }

  ghost predicate LedTo(g: Graph, before: seq<nat>, b: nat) {
    exists i :: 0 <= i < |before| && Edge(g, before[i], b)
  }

  ghost predicate Path(g: Graph, p: seq<nat>) {
    p != [] && forall i :: 0 <= i < |p| - 1 ==> Edge(g, p[i], p[i+1])
  }

  ghost predicate Reaches(g: Graph, a: nat, b: nat) {
    exists p :: Path(g, p) && p[0] == a && p[|p|-1] == b
  }

  /** The list holds exactly the reachable blocks. */
  lemma SearchOrderReaches(g: Graph, entry: nat, order: seq<nat>, b: nat)
    requires SearchOrder(g, entry, order)
    ensures b in order <==> Reaches(g, entry, b)
  {
    if b in order {
      var k :| 0 <= k < |order| && order[k] == b;
      var _, _ := PathTo(g, entry, order, k);
    }
    if Reaches(g, entry, b) {
      var p :| Path(g, p) && p[0] == entry && p[|p|-1] == b;
      PathStays(g, entry, order, p, |p| - 1);
    }
  }

  /** A path to the block at `k`, and where its blocks are placed. */
  lemma {:induction false} PathTo(g: Graph, entry: nat, order: seq<nat>, k: nat) returns (p: seq<nat>, at: seq<nat>)
    requires SearchOrder(g, entry, order) && k < |order|
    ensures Path(g, p) && p[0] == entry && p[|p|-1] == order[k]
    ensures |at| == |p| && forall j :: 0 <= j < |p| ==> at[j] <= k && order[at[j]] == p[j]
    decreases k
  {
    if k == 0 {
      p, at := [entry], [0];
    } else {
      assert LedTo(g, order[..k], order[k]);
      var i :| 0 <= i < k && Edge(g, order[..k][i], order[k]);
      p, at := PathTo(g, entry, order, i);
      PathExtends(g, p, order[k]);
      p, at := p + [order[k]], at + [k];
    }
  }

  lemma PathExtends(g: Graph, p: seq<nat>, x: nat)
    requires Path(g, p) && Edge(g, p[|p|-1], x)
    ensures Path(g, p + [x])
  {
  }

  lemma {:induction false} PathStays(g: Graph, entry: nat, order: seq<nat>, p: seq<nat>, i: nat)
    requires SearchOrder(g, entry, order)
    requires Path(g, p) && p[0] == entry && i < |p|
    ensures p[i] in order
  {
    if i == 0 {
      assert order[0] == entry;
    } else {
      PathStays(g, entry, order, p, i - 1);
      assert Edge(g, p[i-1], p[i]);
    }
  }

  /** A block on every path from the entry to `x` is placed before `x`. */
  lemma DominatorsFirst(g: Graph, entry: nat, order: seq<nat>, d: nat, k: nat)
    requires SearchOrder(g, entry, order) && k < |order| && d != order[k]
    requires forall p :: Path(g, p) && p[0] == entry && p[|p|-1] == order[k] ==> d in p
    ensures exists i :: 0 <= i < k && order[i] == d
  {
    var p, at := PathTo(g, entry, order, k);
    var j :| 0 <= j < |p| && p[j] == d;
    assert order[at[j]] == d;
  }

  /** Where `b` is in the list. */
  function Position(order: seq<nat>, b: nat): (k: nat)
    requires b in order
    ensures k < |order| && order[k] == b
  {
    if order[0] == b then 0 else 1 + Position(order[1..], b)
  }

  lemma PositionUnique(order: seq<nat>, k: nat)
    requires k < |order|
    requires forall i, j :: 0 <= i < j < |order| ==> order[i] != order[j]
    ensures Position(order, order[k]) == k
  {
  }
}
