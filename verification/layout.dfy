/** C2, first half: the blocks of a function are put in a row by a graph search,
    jumps to the block that follows are cancelled, and labels nothing refers to
    are dropped.
  */
module Layout {
  import opened Ir
  import opened Cfg
  import opened Walk

  /** One way out of a node: a jump has one, a branch has two. */
  datatype Arm = Arm(b: nat, i: nat, onTrue: bool)

  predicate ValidArm(g: Graph, a: Arm) {
    a.b < |g| && a.i < |g[a.b]| &&
    match g[a.b][a.i]
    case Plain(_) => false
    case Jump(_) => a.onTrue
    case Branch(_, _, _) => true
  }

  function ArmTarget(g: Graph, a: Arm): nat
    requires ValidArm(g, a)
  {
    match g[a.b][a.i]
    case Jump(d) => d
    case Branch(_, t, f) => if a.onTrue then t else f
  }

  /** The arms of the blocks in `order`. */
  ghost function ArmsOf(g: Graph, order: seq<nat>): (r: set<Arm>)
    ensures forall a: Arm :: a in r <==> a.b in order && ValidArm(g, a)
  {
    assert forall a: Arm :: a.b in order && ValidArm(g, a) ==>
        NodeRef(a.b, a.i) in AllRefs(g) && a == Arm(a.b, a.i, a.onTrue);
    set r, t | r in AllRefs(g) && r.NodeRef? && t in {true, false} && r.b in order &&
        ValidArm(g, Arm(r.b, r.i, t)) :: Arm(r.b, r.i, t)
  }

  ghost function Into(g: Graph, arms: set<Arm>, x: nat): set<Arm> {
    set a | a in arms && ValidArm(g, a) && ArmTarget(g, a) == x
  }

  /** A reachable jump or branch leads to `x`. */
  ghost predicate Anchored(g: Graph, entry: nat, x: nat) {
    exists b: nat :: Reaches(g, entry, b) && Edge(g, b, x)
  }

  /** The block at `k` ends by going on, unconditionally or when its condition is
      false, to the block placed after it. */
  predicate InPlace(g: Graph, order: seq<nat>, k: nat) {
    && k + 1 < |order| && order[k] < |g| && g[order[k]] != []
    && var last := g[order[k]][|g[order[k]]|-1];
       match last
       case Plain(_) => false
       case Jump(d) => d == order[k+1]
       case Branch(_, _, f) => f == order[k+1]
  }

  /** A row of blocks: their order, which carry a label, whose last jump is cancelled. */
  datatype Row = Row(order: seq<nat>, labelled: seq<bool>, cancelled: seq<bool>)

  ghost predicate IsRow(g: Graph, entry: nat, row: Row) {
    && SearchOrder(g, entry, row.order)
    && |row.labelled| == |row.cancelled| == |row.order|
    && (forall k :: 0 <= k < |row.order| ==> row.cancelled[k] == InPlace(g, row.order, k))
    && (forall k :: 0 <= k < |row.order| ==> row.labelled[k] == Labelled(g, entry, row.order, k))
  }

  ghost predicate Labelled(g: Graph, entry: nat, order: seq<nat>, k: nat)
    requires k < |order|
  {
    && Anchored(g, entry, order[k])
    && !(k > 0 && InPlace(g, order, k - 1) && |Into(g, ArmsOf(g, order), order[k])| == 1)
  }

  /** The arm is turned into an instruction: it is not the cancelled last jump. */
  ghost predicate Emitted(g: Graph, order: seq<nat>, k: nat, i: nat, onTrue: bool)
    requires k < |order|
  {
    && ValidArm(g, Arm(order[k], i, onTrue))
    && !(InPlace(g, order, k) && (g[order[k]][i].Jump? || !onTrue))
  }

  /** What the pass asks of a graph: reachable blocks exist and are finished. */
  ghost predicate GraphFinished(g: Graph, entry: nat) {
    forall b: nat :: Reaches(g, entry, b) ==> b < |g| && Finished(g[b])
  }

  /** The cancelled arm of an in-place block. */
  lemma InPlaceArm(g: Graph, order: seq<nat>, k: nat) returns (a: Arm)
    requires InPlace(g, order, k)
    ensures a in ArmsOf(g, order) && ArmTarget(g, a) == order[k+1]
    ensures a.b == order[k] && a.i == |g[order[k]]| - 1 && (g[a.b][a.i].Jump? || !a.onTrue)
  {
    var i := |g[order[k]]| - 1;
    a := Arm(order[k], i, g[order[k]][i].Jump?);
    assert order[k] in order;
  }

  lemma EmittedFacts(g: Graph, entry: nat, row: Row, k: nat, i: nat, onTrue: bool)
    requires IsRow(g, entry, row)
    requires k < |row.order| && Emitted(g, row.order, k, i, onTrue)
    ensures SearchOrder(g, entry, row.order) && |row.labelled| == |row.order| &&
        ValidArm(g, Arm(row.order[k], i, onTrue))
    ensures forall j :: 0 <= j < |row.order| ==> row.labelled[j] == Labelled(g, entry, row.order, j)
  {
    hide Labelled, SearchOrder, InPlace;
  }

  lemma ArmIsEdge(g: Graph, a: Arm)
    requires ValidArm(g, a)
    ensures Edge(g, a.b, ArmTarget(g, a))
  {
    var x := ArmTarget(g, a);
    assert x in Targets(g[a.b][a.i]);
  }

  /** What a placed block leads to is placed, and anchored. */
  lemma TargetPlaced(g: Graph, entry: nat, order: seq<nat>, b: nat, x: nat)
    requires SearchOrder(g, entry, order) && b in order && Edge(g, b, x)
    ensures x in order && Anchored(g, entry, x)
  {
    hide SearchOrder, Reaches, Edge;
    SearchOrderReaches(g, entry, order, b);
    SearchOrderClosed(g, entry, order, b, x);
  }

  lemma SearchOrderClosed(g: Graph, entry: nat, order: seq<nat>, b: nat, x: nat)
    requires SearchOrder(g, entry, order) && b in order && Edge(g, b, x)
    ensures x in order
  {
    hide Edge;
  }

  lemma LabelStays(g: Graph, entry: nat, order: seq<nat>, p: nat)
    requires p < |order| && Anchored(g, entry, order[p])
    requires p > 0 && InPlace(g, order, p - 1) ==> |Into(g, ArmsOf(g, order), order[p])| != 1
    ensures Labelled(g, entry, order, p)
  {
    hide Anchored, InPlace, Into, ArmsOf;
  }

  lemma PositionIs(order: seq<nat>, x: nat)
    requires x in order
    ensures var p := Position(order, x); p < |order| && order[p] == x
  {
  }

  lemma OrderDistinct(g: Graph, entry: nat, order: seq<nat>)
    requires SearchOrder(g, entry, order)
    ensures Distinct(order)
  {
  }

  ghost predicate Distinct(order: seq<nat>) {
    forall i, j :: 0 <= i < j < |order| ==> order[i] != order[j]
  }

  /** Every emitted reference is to a labelled block. */
  lemma EmittedIsLabelled(g: Graph, entry: nat, row: Row, k: nat, i: nat, onTrue: bool)
    requires IsRow(g, entry, row)
    requires k < |row.order| && Emitted(g, row.order, k, i, onTrue)
    ensures var x := ArmTarget(g, Arm(row.order[k], i, onTrue));
      x in row.order && row.labelled[Position(row.order, x)]
  {
    hide *;
    EmittedFacts(g, entry, row, k, i, onTrue);
    var order, a := row.order, Arm(row.order[k], i, onTrue);
    var x := ArmTarget(g, a);
    ArmIsEdge(g, a);
    TargetPlaced(g, entry, order, order[k], x);
    PositionIs(order, x);
    OrderDistinct(g, entry, order);
    EmittedNotAlone(g, order, k, i, onTrue, Position(order, x));
    LabelStays(g, entry, order, Position(order, x));
  }

  /** If the jump into a block is cancelled, an emitted reference to that block is
      another one. */
  lemma EmittedNotAlone(g: Graph, order: seq<nat>, k: nat, i: nat, onTrue: bool, p: nat)
    requires Distinct(order)
    requires k < |order| && Emitted(g, order, k, i, onTrue)
    requires p < |order| && ArmTarget(g, Arm(order[k], i, onTrue)) == order[p]
    ensures p > 0 && InPlace(g, order, p - 1) ==> |Into(g, ArmsOf(g, order), order[p])| != 1
  {
    if p > 0 && InPlace(g, order, p - 1) && |Into(g, ArmsOf(g, order), order[p])| == 1 {
      var a := Arm(order[k], i, onTrue);
      var c := InPlaceArm(g, order, p - 1);
      OnlyOne(Into(g, ArmsOf(g, order), order[p]), a, c);
      assert false;
    }
  }

  lemma OnlyOne<T>(s: set<T>, a: T, b: T)
    requires |s| == 1 && a in s && b in s
    ensures a == b
  {
    var rest := s - {a};
    assert |rest| == 0;
  }

  // ----- and no label is left over -----

  /** The arms of the blocks in `order` that lead to `x`. */
  lemma AnchorArm(g: Graph, entry: nat, order: seq<nat>, x: nat) returns (a: Arm)
    requires SearchOrder(g, entry, order) && Anchored(g, entry, x)
    ensures a in Into(g, ArmsOf(g, order), x)
  {
    var b: nat :| Reaches(g, entry, b) && Edge(g, b, x);
    SearchOrderReaches(g, entry, order, b);
    var i :| 0 <= i < |g[b]| && x in Targets(g[b][i]);
    var onTrue := if g[b][i].Branch? then x == g[b][i].onTrue else true;
    a := Arm(b, i, onTrue);
    assert ValidArm(g, a) && ArmTarget(g, a) == x;
  }

  /** Another arm than `a`, when `a` is not the only one. */
  lemma AnotherArm(arms: set<Arm>, a: Arm) returns (c: Arm)
    requires a in arms && |arms| != 1
    ensures c in arms && c != a
  {
    var rest := arms - {a};
    assert |rest| == |arms| - 1;
    c :| c in rest;
  }

  /** An arm that is cancelled is the last jump of the block before. */
  lemma CancelledArm(g: Graph, order: seq<nat>, k: nat, a: Arm)
    requires Distinct(order) && k < |order| && a in Into(g, ArmsOf(g, order), order[k])
    requires forall j :: 0 <= j < |order| ==> order[j] < |g| && Finished(g[order[j]])
    requires !Emitted(g, order, Position(order, a.b), a.i, a.onTrue)
    ensures k > 0 && InPlace(g, order, k - 1)
    ensures a.b == order[k-1] && a.i == |g[a.b]| - 1 && a.onTrue == g[a.b][a.i].Jump?
  {
    hide InPlace, ArmsOf, Finished, Position, ValidArm, ArmTarget, Distinct;
    var j := Position(order, a.b);
    PositionIs(order, a.b);
    JumpIsLast(g, a);
    InPlaceGoesOn(g, order, j, a);
    SamePlace(order, j + 1, k);
  }

  lemma SamePlace(order: seq<nat>, i: nat, j: nat)
    requires Distinct(order) && i < |order| && j < |order| && order[i] == order[j]
    ensures i == j
  {
  }

  lemma JumpIsLast(g: Graph, a: Arm)
    requires ValidArm(g, a) && Finished(g[a.b])
    ensures !g[a.b][a.i].Plain? && (g[a.b][a.i].Jump? ==> a.onTrue) && a.i == |g[a.b]| - 1
  {
  }

  lemma InPlaceGoesOn(g: Graph, order: seq<nat>, j: nat, a: Arm)
    requires InPlace(g, order, j) && ValidArm(g, a) && a.b == order[j] && a.i == |g[a.b]| - 1
    requires g[a.b][a.i].Jump? || !a.onTrue
    ensures j + 1 < |order| && ArmTarget(g, a) == order[j+1]
  {
  }

  /** A label that is kept is led to by a jump or a branch that is kept. */
  lemma LabelIsNeeded(g: Graph, entry: nat, row: Row, k: nat) returns (j: nat, i: nat, onTrue: bool)
    requires IsRow(g, entry, row) && k < |row.order| && row.labelled[k]
    requires forall j :: 0 <= j < |row.order| ==> row.order[j] < |g| && Finished(g[row.order[j]])
    ensures j < |row.order| && Emitted(g, row.order, j, i, onTrue)
    ensures ArmTarget(g, Arm(row.order[j], i, onTrue)) == row.order[k]
  {
    var order := row.order;
    assert Labelled(g, entry, order, k);
    OrderDistinct(g, entry, order);
    hide SearchOrder, Anchored, InPlace, Emitted, Finished, ArmsOf, IsRow;
    var a := AnchorArm(g, entry, order, order[k]);
    PositionIs(order, a.b);
    if !Emitted(g, order, Position(order, a.b), a.i, a.onTrue) {
      CancelledArm(g, order, k, a);
      var c := AnotherArm(Into(g, ArmsOf(g, order), order[k]), a);
      PositionIs(order, c.b);
      if !Emitted(g, order, Position(order, c.b), c.i, c.onTrue) {
        CancelledArm(g, order, k, c);
        assert false;
      }
      a := c;
    }
    j, i, onTrue := Position(order, a.b), a.i, a.onTrue;
  }

  /** A block that does not carry a label is the entry, or the block before goes on to it. */
  lemma UnlabelledFollows(g: Graph, entry: nat, row: Row, k: nat)
    requires IsRow(g, entry, row) && 0 < k < |row.order| && !row.labelled[k]
    ensures InPlace(g, row.order, k - 1)
  {
    assert LedTo(g, row.order[..k], row.order[k]);
    var i :| 0 <= i < k && Edge(g, row.order[i], row.order[k]);
    SearchOrderReaches(g, entry, row.order, row.order[i]);
    assert Anchored(g, entry, row.order[k]);
  }

  /** The block that follows an in-place block is referred to: its counter is not 0. */
  lemma InPlaceIsCounted(g: Graph, order: seq<nat>, k: nat)
    requires InPlace(g, order, k)
    ensures |Into(g, ArmsOf(g, order), order[k+1])| > 0
  {
    var a := InPlaceArm(g, order, k);
    assert a in Into(g, ArmsOf(g, order), order[k+1]);
  }

  // ----- the builder of a linear function -----

  /** The temporaries a visited node makes the builder map, in order.  Merges,
      branches and function closures map nothing. */
  function Mapped(node: Node): seq<nat> {
    match node
    case Plain(Alloca(v)) => [v]
    case Plain(Inspect(v)) => [v]
    case Plain(Ret(v)) => [v]
    case Plain(Do(op)) => MappedByOp(op)
    case _ => []
  }

  function MappedByOp(op: Op<Text>): seq<nat> {
    match op
    case MakeFunction(_, _) => []
    case MakeArrowFunction(_, _) => []
    case ObjectGet(dst, obj, member) => [dst, obj, member]
    case Call(dst, callee, args, bound) => [dst, callee] + args + (if bound.Some? then [bound.value] else [])
    case _ => OpMentions(op)
  }

  ghost predicate Injective(m: map<nat, nat>, next: nat) {
    && (forall v :: v in m ==> m[v] < next)
    && (forall v, w :: v in m && w in m && v != w ==> m[v] != m[w])
  }

  class IrBuilder {
    var vars: map<nat, nat>
    var labels: map<nat, nat>
    var nextVar: nat
    var nextLabel: nat
    var items: seq<Item<nat>>

    constructor ()
      ensures vars == map[] && labels == map[] && items == []
      ensures Valid()
    {
      vars, labels, nextVar, nextLabel, items := map[], map[], 0, 0, [];
    }

    ghost predicate Valid()
      reads this
    {
      Injective(vars, nextVar) && Injective(labels, nextLabel)
    }

    method MapVar(v: nat)
      requires Valid()
      modifies this`vars, this`nextVar
      ensures Valid()
      ensures vars.Keys == old(vars).Keys + {v}
    {
      if v !in vars {
        vars := vars[v := nextVar];
        nextVar := nextVar + 1;
      }
    }

    method MapVars(vs: seq<nat>)
      requires Valid()
      modifies this`vars, this`nextVar
      ensures Valid()
      ensures vars.Keys == old(vars).Keys + set v | v in vs
    {
      var i := 0;
      while i < |vs|
        invariant 0 <= i <= |vs|
        invariant Valid()
        invariant vars.Keys == old(vars).Keys + set v | v in vs[..i]
      {
        MapVar(vs[i]);
        assert vs[..i+1] == vs[..i] + [vs[i]];
        i := i + 1;
      }
      assert vs[..|vs|] == vs;
    }

    method LabelBlock(b: nat)
      requires Valid() && b !in labels
      modifies this`labels, this`nextLabel
      ensures Valid()
      ensures labels.Keys == old(labels).Keys + {b}
    {
      labels := labels[b := nextLabel];
      nextLabel := nextLabel + 1;
    }
  }

  class LinearBlock {
    const node: nat
    var enabled: bool
    var counter: nat
    var cancelJump: bool

    constructor (node: nat, anchor: bool)
      ensures this.node == node && enabled == anchor && counter == 0 && !cancelJump
    {
      this.node := node;
      enabled, counter, cancelJump := anchor, 0, false;
    }
  }

  // ----- the passes -----

  /** `xjs_c2_blklayout_collect_anchors` */
  method CollectAnchors(g: Graph, entry: nat) returns (anchors: set<nat>)
    requires Closed(g) && entry < |g|
    ensures forall x :: x in anchors <==> Anchored(g, entry, x)
  {
    anchors := {};
    var visited: set<Ref> := {};
    var stack := [BlockRef(entry)];
    ghost var seen, order := {BlockRef(entry)}, [];
    WalksBegin(g, entry);
    while stack != []
      invariant Walks(g, entry, visited, seen, stack, order)
      invariant AnchorsSoFar(g, visited, anchors)
      decreases Left(g, visited), |stack|
    {
      var cur := stack[|stack|-1];
      WalksPop(g, entry, visited, seen, stack, order);
      if cur !in visited {
        var pushes := PushesOf(g, cur, true);
        WalksVisit(g, entry, visited, seen, stack, order, pushes);
        AnchorsGrow(g, visited, anchors, cur);
        visited := visited + {cur};
        if cur.NodeRef? { anchors := anchors + Targets(g[cur.b][cur.i]); }
        stack := stack[..|stack|-1] + pushes;
        seen, order := seen + Children(g, cur), Visit(order, cur);
      } else {
        stack := stack[..|stack|-1];
      }
    }
    WalksEnd(g, entry, visited, seen, order);
    AnchorsAre(g, entry, visited, order, anchors);
  }

  ghost predicate LeadsFrom(g: Graph, visited: set<Ref>, x: nat) {
    exists r :: r in visited && Leads(g, r, x)
  }

  ghost predicate AnchorsSoFar(g: Graph, visited: set<Ref>, anchors: set<nat>) {
    forall x :: x in anchors <==> LeadsFrom(g, visited, x)
  }

  lemma AnchorsGrow(g: Graph, visited: set<Ref>, anchors: set<nat>, cur: Ref)
    requires ValidRef(g, cur) && AnchorsSoFar(g, visited, anchors)
    ensures AnchorsSoFar(g, visited + {cur}, anchors + if cur.NodeRef? then Targets(g[cur.b][cur.i]) else {})
  {
    var more := if cur.NodeRef? then Targets(g[cur.b][cur.i]) else {};
    forall x ensures x in anchors + more <==> LeadsFrom(g, visited + {cur}, x) {
      if x in anchors {
        var r :| r in visited && Leads(g, r, x);
        assert r in visited + {cur};
      } else if x in more {
        assert Leads(g, cur, x);
      }
    }
  }

  lemma LeadsFromAll(g: Graph, entry: nat, visited: set<Ref>, order: seq<nat>, x: nat)
    requires SearchOrder(g, entry, order)
    requires forall r :: r in visited <==> r.b in order && ValidRef(g, r)
    ensures LeadsFrom(g, visited, x) <==> Anchored(g, entry, x)
  {
    if LeadsFrom(g, visited, x) {
      var r :| r in visited && Leads(g, r, x);
      SearchOrderReaches(g, entry, order, r.b);
      assert Edge(g, r.b, x);
    }
    if Anchored(g, entry, x) {
      var b: nat :| Reaches(g, entry, b) && Edge(g, b, x);
      SearchOrderReaches(g, entry, order, b);
      var i :| 0 <= i < |g[b]| && x in Targets(g[b][i]);
      assert Leads(g, NodeRef(b, i), x);
    }
  }

  lemma AnchorsAre(g: Graph, entry: nat, visited: set<Ref>, order: seq<nat>, anchors: set<nat>)
    requires SearchOrder(g, entry, order)
    requires forall r :: r in visited <==> r.b in order && ValidRef(g, r)
    requires AnchorsSoFar(g, visited, anchors)
    ensures forall x :: x in anchors <==> Anchored(g, entry, x)
  {
    forall x ensures x in anchors <==> Anchored(g, entry, x) {
      LeadsFromAll(g, entry, visited, order, x);
    }
  }

  function NodesIn(blocks: seq<LinearBlock>): (r: seq<nat>)
    ensures |r| == |blocks| && forall k :: 0 <= k < |r| ==> r[k] == blocks[k].node
  {
    seq(|blocks|, k requires 0 <= k < |blocks| => blocks[k].node)
  }

  ghost predicate MapsNode(g: Graph, r: Ref, v: nat) {
    r.NodeRef? && ValidRef(g, r) && v in Mapped(g[r.b][r.i])
  }

  ghost predicate MappedBy(g: Graph, visited: set<Ref>, v: nat) {
    exists r :: r in visited && MapsNode(g, r, v)
  }

  ghost predicate VarsSoFar(g: Graph, visited: set<Ref>, keys: set<nat>) {
    forall v :: v in keys <==> MappedBy(g, visited, v)
  }

  lemma VarsGrow(g: Graph, visited: set<Ref>, keys: set<nat>, cur: Ref)
    requires ValidRef(g, cur) && VarsSoFar(g, visited, keys)
    ensures VarsSoFar(g, visited + {cur}, keys + if cur.NodeRef? then (set v | v in Mapped(g[cur.b][cur.i])) else {})
  {
    var more := if cur.NodeRef? then (set v | v in Mapped(g[cur.b][cur.i])) else {};
    forall v ensures v in keys + more <==> MappedBy(g, visited + {cur}, v) {
      if v in keys {
        var r :| r in visited && MapsNode(g, r, v);
        assert r in visited + {cur};
      } else if v in more {
        assert MapsNode(g, cur, v);
      }
    }
  }

  /** `v` is named by a node of a block in `order` that maps it. */
  ghost predicate MappedIn(g: Graph, order: seq<nat>, v: nat) {
    exists b: nat, i: nat :: b in order && b < |g| && i < |g[b]| && v in Mapped(g[b][i])
  }

  lemma VarsAre(g: Graph, visited: set<Ref>, order: seq<nat>, keys: set<nat>)
    requires forall r :: r in visited <==> r.b in order && ValidRef(g, r)
    requires VarsSoFar(g, visited, keys)
    ensures forall v :: v in keys <==> MappedIn(g, order, v)
  {
    forall v ensures v in keys <==> MappedIn(g, order, v) {
      if MappedBy(g, visited, v) {
        var r :| r in visited && MapsNode(g, r, v);
        assert r.b in order && v in Mapped(g[r.b][r.i]);
      }
      if MappedIn(g, order, v) {
        var b: nat, i: nat :| b in order && b < |g| && i < |g[b]| && v in Mapped(g[b][i]);
        assert MapsNode(g, NodeRef(b, i), v);
      }
    }
  }

  /** The blocks as first placed, and the map that finds them again. */
  ghost predicate Placed(blocks: seq<LinearBlock>, hit: map<nat, LinearBlock>, anchors: set<nat>)
    reads set k | 0 <= k < |blocks| :: blocks[k]
  {
    && (forall k :: 0 <= k < |blocks| ==>
         blocks[k].enabled == (blocks[k].node in anchors) && blocks[k].counter == 0 && !blocks[k].cancelJump)
    && Finds(hit, blocks)
  }

  ghost predicate Finds(hit: map<nat, LinearBlock>, blocks: seq<LinearBlock>) {
    && (forall b :: b in hit <==> b in NodesIn(blocks))
    && (forall k :: 0 <= k < |blocks| ==> blocks[k].node in hit && hit[blocks[k].node] == blocks[k])
  }

  ghost predicate LabelsAre(keys: set<nat>, order: seq<nat>, anchors: set<nat>) {
    forall x :: x in keys <==> x in order && x in anchors
  }

  /** `xjs_c2_block_layout_record_node`, with the label that an anchor gets. */
  method RecordBlock(b: nat, blocks: seq<LinearBlock>, hit: map<nat, LinearBlock>, anchors: set<nat>, irb: IrBuilder)
    returns (blocks': seq<LinearBlock>, hit': map<nat, LinearBlock>)
    requires irb.Valid() && Placed(blocks, hit, anchors) && b !in NodesIn(blocks)
    requires LabelsAre(irb.labels.Keys, NodesIn(blocks), anchors)
    modifies irb`labels, irb`nextLabel
    ensures irb.Valid() && Placed(blocks', hit', anchors)
    ensures NodesIn(blocks') == NodesIn(blocks) + [b]
    ensures LabelsAre(irb.labels.Keys, NodesIn(blocks'), anchors)
    ensures blocks' == blocks + [blocks'[|blocks|]] && fresh(blocks'[|blocks|])
  {
    if b in anchors { irb.LabelBlock(b); }
    var block := new LinearBlock(b, b in anchors);
    blocks', hit' := blocks + [block], hit[b := block];
    assert NodesIn(blocks') == NodesIn(blocks) + [b];
  }

  /** First part of `xjs_c2_blklayout_fill`: place the blocks. */
  method PlaceBlocks(g: Graph, entry: nat, anchors: set<nat>, irb: IrBuilder)
    returns (blocks: seq<LinearBlock>, hit: map<nat, LinearBlock>)
    requires Closed(g) && entry < |g|
    requires irb.Valid() && irb.vars == map[] && irb.labels == map[]
    modifies irb
    ensures irb.Valid() && irb.items == old(irb.items)
    ensures SearchOrder(g, entry, NodesIn(blocks)) && Placed(blocks, hit, anchors)
    ensures forall k :: 0 <= k < |blocks| ==> fresh(blocks[k])
    ensures LabelsAre(irb.labels.Keys, NodesIn(blocks), anchors)
    ensures forall v :: v in irb.vars <==> MappedIn(g, NodesIn(blocks), v)
  {
    hide *;
    blocks, hit := [], map[];
    var visited: set<Ref> := {};
    var stack := [BlockRef(entry)];
    ghost var seen, order := {BlockRef(entry)}, [];
    WalksBegin(g, entry);
    PlacingBegins(g, anchors);
    assert irb.labels.Keys == {} && irb.vars.Keys == {};
    while stack != []
      invariant Walks(g, entry, visited, seen, stack, order)
      invariant order == NodesIn(blocks)
      invariant irb.Valid() && irb.items == old(irb.items)
      invariant Placed(blocks, hit, anchors)
      invariant forall k :: 0 <= k < |blocks| ==> fresh(blocks[k])
      invariant LabelsAre(irb.labels.Keys, order, anchors)
      invariant VarsSoFar(g, visited, irb.vars.Keys)
      decreases Left(g, visited), |stack|
    {
      var cur := stack[|stack|-1];
      WalksPop(g, entry, visited, seen, stack, order);
      if cur !in visited {
        var pushes := PushesOf(g, cur, false);
        WalksVisit(g, entry, visited, seen, stack, order, pushes);
        VarsGrow(g, visited, irb.vars.Keys, cur);
        NewBlock(g, entry, visited, seen, stack, order, cur);
        stack := stack[..|stack|-1] + pushes;
        blocks, hit := VisitRef(g, cur, blocks, hit, anchors, irb);
        visited, seen, order := visited + {cur}, seen + Children(g, cur), Visit(order, cur);
      } else {
        stack := stack[..|stack|-1];
      }
    }
    WalksEnd(g, entry, visited, seen, order);
    VarsAre(g, visited, order, irb.vars.Keys);
  }

  lemma PlacingBegins(g: Graph, anchors: set<nat>)
    ensures Placed([], map[], anchors) && LabelsAre({}, [], anchors) && VarsSoFar(g, {}, {})
  {
  }

  lemma NewBlock(g: Graph, entry: nat, visited: set<Ref>, seen: set<Ref>, stack: seq<Ref>, order: seq<nat>, cur: Ref)
    requires Walks(g, entry, visited, seen, stack, order) && cur !in visited
    ensures cur.BlockRef? ==> cur.b !in order
  {
  }

  /** What the placing walk does at a ref: record a block, or map temporaries. */
  method VisitRef(g: Graph, cur: Ref, blocks: seq<LinearBlock>, hit: map<nat, LinearBlock>, anchors: set<nat>,
      irb: IrBuilder)
    returns (blocks': seq<LinearBlock>, hit': map<nat, LinearBlock>)
    requires ValidRef(g, cur) && (cur.BlockRef? ==> cur.b !in NodesIn(blocks))
    requires irb.Valid() && Placed(blocks, hit, anchors)
    requires LabelsAre(irb.labels.Keys, NodesIn(blocks), anchors)
    modifies irb
    ensures irb.Valid() && Placed(blocks', hit', anchors) && irb.items == old(irb.items)
    ensures NodesIn(blocks') == Visit(NodesIn(blocks), cur)
    ensures LabelsAre(irb.labels.Keys, NodesIn(blocks'), anchors)
    ensures irb.vars.Keys == old(irb.vars).Keys + if cur.NodeRef? then (set v | v in Mapped(g[cur.b][cur.i])) else {}
    ensures |blocks| <= |blocks'| && blocks'[..|blocks|] == blocks
    ensures forall k :: |blocks| <= k < |blocks'| ==> fresh(blocks'[k])
  {
    match cur {
      case BlockRef(b) =>
        blocks', hit' := RecordBlock(b, blocks, hit, anchors, irb);
      case NodeRef(b, i) =>
        blocks', hit' := blocks, hit;
        irb.MapVars(Mapped(g[b][i]));
    }
  }

  // ----- counting references -----

  /** The arms of the nodes visited so far. */
  ghost function ArmsSeen(g: Graph, visited: set<Ref>): (arms: set<Arm>)
    ensures forall a: Arm :: a in arms <==> NodeRef(a.b, a.i) in visited && ValidArm(g, a)
  {
    assert forall a: Arm :: a == Arm(a.b, a.i, a.onTrue);
    set r: Ref, t | r in visited && r.NodeRef? && t in {true, false} &&
        ValidArm(g, Arm(r.b, r.i, t)) :: Arm(r.b, r.i, t)
  }

  /** Every counter is the number of arms that lead to its block. */
  ghost predicate Counted(g: Graph, blocks: seq<LinearBlock>, arms: set<Arm>)
    reads set k | 0 <= k < |blocks| :: blocks[k]
  {
    forall k :: 0 <= k < |blocks| ==> blocks[k].counter == |Into(g, arms, blocks[k].node)|
  }

  lemma IntoGrows(g: Graph, arms: set<Arm>, a: Arm, x: nat)
    requires ValidArm(g, a) && a !in arms
    ensures |Into(g, arms + {a}, x)| == |Into(g, arms, x)| + if ArmTarget(g, a) == x then 1 else 0
  {
    if ArmTarget(g, a) == x {
      assert Into(g, arms + {a}, x) == Into(g, arms, x) + {a};
    } else {
      assert Into(g, arms + {a}, x) == Into(g, arms, x);
    }
  }

  /** Count one arm. */
  method CountArm(g: Graph, blocks: seq<LinearBlock>, hit: map<nat, LinearBlock>, ghost arms: set<Arm>, ghost a: Arm,
      x: nat, target: LinearBlock)
    requires Finds(hit, blocks) && Distinct(NodesIn(blocks)) && x in hit && target == hit[x]
    requires ValidArm(g, a) && a !in arms && ArmTarget(g, a) == x
    requires Counted(g, blocks, arms)
    modifies target`counter
    ensures Counted(g, blocks, arms + {a})
  {
    target.counter := target.counter + 1;
    forall k | 0 <= k < |blocks| ensures blocks[k].counter == |Into(g, arms + {a}, blocks[k].node)| {
      IntoGrows(g, arms, a, blocks[k].node);
      HitIsBlock(blocks, hit, k, x);
    }
  }

  lemma HitIsBlock(blocks: seq<LinearBlock>, hit: map<nat, LinearBlock>, k: nat, x: nat)
    requires Finds(hit, blocks) && k < |blocks| && x in hit
    ensures hit[x] in blocks && hit[x].node == x
    ensures blocks[k] == hit[x] <==> blocks[k].node == x
  {
    var j :| 0 <= j < |blocks| && NodesIn(blocks)[j] == x;
    assert hit[x] == blocks[j];
  }

  /** What the counting walk does at a ref. */
  method CountRef(g: Graph, r: Ref, blocks: seq<LinearBlock>, hit: map<nat, LinearBlock>, ghost visited: set<Ref>)
    requires ValidRef(g, r) && r !in visited
    requires Finds(hit, blocks) && Distinct(NodesIn(blocks))
    requires r.NodeRef? ==> forall x :: x in Targets(g[r.b][r.i]) ==> x in hit
    requires Counted(g, blocks, ArmsSeen(g, visited))
    modifies blocks
    ensures Counted(g, blocks, ArmsSeen(g, visited + {r}))
    ensures forall b :: b in blocks ==> b.enabled == old(b.enabled) && b.cancelJump == old(b.cancelJump)
  {
    hide *;
    ghost var arms := ArmsSeen(g, visited);
    ArmsOfRef(g, visited, r);
    match r {
      case BlockRef(_) =>
      case NodeRef(b, i) =>
        match g[b][i] {
          case Plain(_) =>
          case Jump(d) =>
            Found(blocks, hit, d);
            CountArm(g, blocks, hit, arms, Arm(b, i, true), d, hit[d]);
          case Branch(_, t, f) =>
            Found(blocks, hit, t);
            Found(blocks, hit, f);
            CountArm(g, blocks, hit, arms, Arm(b, i, true), t, hit[t]);
            CountArm(g, blocks, hit, arms + {Arm(b, i, true)}, Arm(b, i, false), f, hit[f]);
        }
    }
  }

  lemma ArmsOfRef(g: Graph, visited: set<Ref>, r: Ref)
    requires ValidRef(g, r) && r !in visited
    ensures var arms, arms' := ArmsSeen(g, visited), ArmsSeen(g, visited + {r});
      match r
      case BlockRef(_) => arms' == arms
      case NodeRef(b, i) =>
        var at, af := Arm(b, i, true), Arm(b, i, false);
        at !in arms && af !in arms && at != af && b < |g| && i < |g[b]| &&
        match g[b][i]
        case Plain(_) => arms' == arms
        case Jump(d) => arms' == arms + {at} && ValidArm(g, at) && ArmTarget(g, at) == d && {d} == Targets(g[b][i])
        case Branch(_, t, f) =>
          && arms' == arms + {at} + {af} && ValidArm(g, at) && ArmTarget(g, at) == t
          && ValidArm(g, af) && ArmTarget(g, af) == f && {t, f} == Targets(g[b][i])
  {
    var arms, arms' := ArmsSeen(g, visited), ArmsSeen(g, visited + {r});
    if r.NodeRef? {
      var at, af := Arm(r.b, r.i, true), Arm(r.b, r.i, false);
      match g[r.b][r.i]
      case Plain(_) => assert arms' == arms;
      case Jump(_) => assert arms' == arms + {at};
      case Branch(_, _, _) => assert arms' == arms + {at} + {af};
    } else {
      assert arms' == arms;
    }
  }

  lemma Found(blocks: seq<LinearBlock>, hit: map<nat, LinearBlock>, x: nat)
    requires Finds(hit, blocks) && x in hit
    ensures hit[x] in blocks
  {
    assert x in NodesIn(blocks);
    HitIsBlock(blocks, hit, 0, x);
  }

  /** A walk stays within any search order. */
  lemma {:induction false} WalkStays(g: Graph, entry: nat, order: seq<nat>, walked: seq<nat>, j: nat)
    requires SearchOrder(g, entry, order) && Chain(g, entry, walked) && j < |walked|
    ensures walked[j] in order
    decreases j
  {
    if j > 0 {
      assert LedTo(g, walked[..j], walked[j]);
      var i :| 0 <= i < j && Edge(g, walked[..j][i], walked[j]);
      WalkStays(g, entry, order, walked, i);
    }
  }

  /** What the ref on top of the stack leads to has been placed. */
  lemma TargetsPlaced(g: Graph, entry: nat, visited: set<Ref>, seen: set<Ref>, stack: seq<Ref>, walked: seq<nat>,
      order: seq<nat>)
    requires Walks(g, entry, visited, seen, stack, walked) && stack != []
    requires SearchOrder(g, entry, order)
    ensures var r := stack[|stack|-1];
      ValidRef(g, r) && (r.NodeRef? ==> forall x :: x in Targets(g[r.b][r.i]) ==> x in order)
  {
    var r := stack[|stack|-1];
    assert r in stack;
    if r.NodeRef? {
      assert BlockRef(r.b) in visited;
      var j :| 0 <= j < |walked| && walked[j] == r.b;
      WalkStays(g, entry, order, walked, j);
      forall x | x in Targets(g[r.b][r.i]) ensures x in order {
        assert Edge(g, r.b, x);
      }
    }
  }

  /** Second part of `xjs_c2_blklayout_fill`: count the references to each block. */
  method CountReferences(g: Graph, entry: nat, blocks: seq<LinearBlock>, hit: map<nat, LinearBlock>)
    requires Closed(g) && entry < |g|
    requires SearchOrder(g, entry, NodesIn(blocks)) && Finds(hit, blocks)
    requires Counted(g, blocks, {})
    modifies blocks
    ensures Counted(g, blocks, ArmsOf(g, NodesIn(blocks)))
    ensures forall b :: b in blocks ==> b.enabled == old(b.enabled) && b.cancelJump == old(b.cancelJump)
  {
    hide *;
    var visited: set<Ref> := {};
    var stack := [BlockRef(entry)];
    ghost var seen, walked := {BlockRef(entry)}, [];
    WalksBegin(g, entry);
    NoArms(g);
    OrderDistinct(g, entry, NodesIn(blocks));
    while stack != []
      invariant Walks(g, entry, visited, seen, stack, walked)
      invariant Counted(g, blocks, ArmsSeen(g, visited))
      invariant forall b :: b in blocks ==> b.enabled == old(b.enabled) && b.cancelJump == old(b.cancelJump)
      decreases Left(g, visited), |stack|
    {
      var cur := stack[|stack|-1];
      WalksPop(g, entry, visited, seen, stack, walked);
      if cur !in visited {
        var pushes := PushesOf(g, cur, true);
        WalksVisit(g, entry, visited, seen, stack, walked, pushes);
        TargetsPlaced(g, entry, visited, seen, stack, walked, NodesIn(blocks));
        InHit(blocks, hit);
        CountRef(g, cur, blocks, hit, visited);
        stack := stack[..|stack|-1] + pushes;
        visited, seen, walked := visited + {cur}, seen + Children(g, cur), Visit(walked, cur);
      } else {
        stack := stack[..|stack|-1];
      }
    }
    WalksEnd(g, entry, visited, seen, walked);
    AllArmsSeen(g, entry, visited, walked, NodesIn(blocks));
  }

  lemma NoArms(g: Graph)
    ensures ArmsSeen(g, {}) == {}
  {
  }

  lemma InHit(blocks: seq<LinearBlock>, hit: map<nat, LinearBlock>)
    requires Finds(hit, blocks)
    ensures forall x :: x in NodesIn(blocks) ==> x in hit
  {
  }

  lemma AllArmsSeen(g: Graph, entry: nat, visited: set<Ref>, walked: seq<nat>, order: seq<nat>)
    requires SearchOrder(g, entry, walked) && SearchOrder(g, entry, order)
    requires forall r :: r in visited <==> r.b in walked && ValidRef(g, r)
    ensures ArmsSeen(g, visited) == ArmsOf(g, order)
  {
    forall a: Arm ensures a in ArmsSeen(g, visited) <==> a in ArmsOf(g, order) {
      SearchOrderReaches(g, entry, walked, a.b);
      SearchOrderReaches(g, entry, order, a.b);
    }
  }

  // ----- in-place jumps -----

  /** The label of the block at `k` goes when the only reference to it is the
      cancelled jump before it. */
  ghost predicate Dropped(g: Graph, order: seq<nat>, k: nat)
    requires k < |order|
  {
    k > 0 && InPlace(g, order, k - 1) && |Into(g, ArmsOf(g, order), order[k])| == 1
  }

  ghost predicate Merged(g: Graph, blocks: seq<LinearBlock>, labelled: seq<bool>, k: nat)
    requires |labelled| == |blocks|
    reads set k | 0 <= k < |blocks| :: blocks[k]
  {
    forall j :: 0 <= j < |blocks| ==>
      && blocks[j].cancelJump == (j < k && InPlace(g, NodesIn(blocks), j))
      && blocks[j].enabled == (labelled[j] && !(j <= k && Dropped(g, NodesIn(blocks), j)))
      && (k < j ==> blocks[j].counter == |Into(g, ArmsOf(g, NodesIn(blocks)), blocks[j].node)|)
  }

  /** `xjs_c2_blklayout_merge_inplace_jumps`; the counter of a block that a jump
      leads to is never found to be zero. */
  method MergeInPlaceJumps(g: Graph, blocks: seq<LinearBlock>, ghost labelled: seq<bool>) returns (ok: bool)
    requires forall k :: 0 <= k < |blocks| ==> blocks[k].node < |g| && g[blocks[k].node] != []
    requires |labelled| == |blocks| && Distinct(NodesIn(blocks))
    requires Merged(g, blocks, labelled, 0)
    modifies blocks
    ensures ok
    ensures |blocks| > 0 ==> Merged(g, blocks, labelled, |blocks| - 1)
  {
    var k := 0;
    while k + 1 < |blocks|
      invariant 0 <= k && (k < |blocks| || |blocks| == 0)
      invariant Merged(g, blocks, labelled, k)
    {
      ok := MergePair(g, blocks, labelled, k);
      if !ok { return false; }
      k := k + 1;
    }
    return true;
  }

  lemma InPlaceIf(g: Graph, order: seq<nat>, k: nat)
    requires k + 1 < |order| && order[k] < |g| && g[order[k]] != []
    ensures var last := g[order[k]][|g[order[k]]|-1];
      InPlace(g, order, k) <==>
          ((last.Jump? && last.dest == order[k+1]) || (last.Branch? && last.onFalse == order[k+1]))
  {
  }

  method MergePair(g: Graph, blocks: seq<LinearBlock>, ghost labelled: seq<bool>, k: nat) returns (ok: bool)
    requires forall k :: 0 <= k < |blocks| ==> blocks[k].node < |g| && g[blocks[k].node] != []
    requires |labelled| == |blocks| && Distinct(NodesIn(blocks)) && k + 1 < |blocks|
    requires Merged(g, blocks, labelled, k)
    modifies blocks[k], blocks[k+1]
    ensures ok
    ensures Merged(g, blocks, labelled, k + 1)
  {
    hide ArmsOf, Into, InPlace;
    var cur, next := blocks[k], blocks[k+1];
    InPlaceIf(g, NodesIn(blocks), k);
    var last := g[cur.node][|g[cur.node]|-1];
    assert forall i, j :: 0 <= i < j < |blocks| ==> NodesIn(blocks)[i] != NodesIn(blocks)[j];
    assert forall j :: 0 <= j < |blocks| && j != k ==> blocks[j] != cur;
    assert forall j :: 0 <= j < |blocks| && j != k + 1 ==> blocks[j] != next;
    if (last.Jump? && last.dest == next.node) || (last.Branch? && last.onFalse == next.node) {
      InPlaceIsCounted(g, NodesIn(blocks), k);
      cur.cancelJump := true;
      if next.counter == 0 {
        return false;
      } else if next.counter == 1 {
        next.enabled := false;
        next.counter := 0;
      }
    }
    return true;
  }

  // ----- the whole layout -----

  ghost function RowOf(blocks: seq<LinearBlock>): Row
    reads set k | 0 <= k < |blocks| :: blocks[k]
  {
    Row(NodesIn(blocks),
        seq(|blocks|, k requires 0 <= k < |blocks| reads set k | 0 <= k < |blocks| :: blocks[k] => blocks[k].enabled),
        seq(|blocks|, k requires 0 <= k < |blocks| reads set k | 0 <= k < |blocks| :: blocks[k] =>
          blocks[k].cancelJump))
  }

  /** `xjs_c2_blklayout_extract` */
  method Extract(g: Graph, entry: nat, irb: IrBuilder) returns (blocks: seq<LinearBlock>, ok: bool)
    requires Closed(g) && entry < |g|
    requires GraphFinished(g, entry)
    requires irb.Valid() && irb.vars == map[] && irb.labels == map[]
    modifies irb
    ensures ok && irb.Valid() && irb.items == old(irb.items)
    ensures IsRow(g, entry, RowOf(blocks))
    ensures forall x :: x in irb.labels <==> x in NodesIn(blocks) && Anchored(g, entry, x)
    ensures forall v :: v in irb.vars <==> MappedIn(g, NodesIn(blocks), v)
  {
    var anchors := CollectAnchors(g, entry);
    var hit;
    blocks, hit := PlaceBlocks(g, entry, anchors, irb);
    NothingCounted(g, blocks, hit, anchors);
    CountReferences(g, entry, blocks, hit);
    ghost var labelled := seq(|blocks|, k requires 0 <= k < |blocks| => blocks[k].node in anchors);
    ReadyToMerge(g, entry, blocks, labelled, anchors);
    ok := MergeInPlaceJumps(g, blocks, labelled);
    MergedIsRow(g, entry, blocks, labelled, anchors);
  }

  lemma NothingCounted(g: Graph, blocks: seq<LinearBlock>, hit: map<nat, LinearBlock>, anchors: set<nat>)
    requires Placed(blocks, hit, anchors)
    ensures Counted(g, blocks, {})
  {
  }

  lemma ReadyToMerge(g: Graph, entry: nat, blocks: seq<LinearBlock>, labelled: seq<bool>, anchors: set<nat>)
    requires SearchOrder(g, entry, NodesIn(blocks)) && |labelled| == |blocks|
    requires GraphFinished(g, entry)
    requires forall k :: 0 <= k < |blocks| ==>
        blocks[k].enabled == (blocks[k].node in anchors) == labelled[k] && !blocks[k].cancelJump
    requires Counted(g, blocks, ArmsOf(g, NodesIn(blocks)))
    ensures Merged(g, blocks, labelled, 0) && Distinct(NodesIn(blocks))
    ensures forall k :: 0 <= k < |blocks| ==> blocks[k].node < |g| && g[blocks[k].node] != []
  {
    forall k | 0 <= k < |blocks| ensures blocks[k].node < |g| && g[blocks[k].node] != [] {
      assert NodesIn(blocks)[k] in NodesIn(blocks);
      SearchOrderReaches(g, entry, NodesIn(blocks), blocks[k].node);
    }
  }

  lemma MergedIsRow(g: Graph, entry: nat, blocks: seq<LinearBlock>, labelled: seq<bool>, anchors: set<nat>)
    requires SearchOrder(g, entry, NodesIn(blocks)) && |labelled| == |blocks|
    requires forall x :: x in anchors <==> Anchored(g, entry, x)
    requires forall k :: 0 <= k < |blocks| ==> labelled[k] == (blocks[k].node in anchors)
    requires Merged(g, blocks, labelled, |blocks| - 1)
    ensures IsRow(g, entry, RowOf(blocks))
  {
  }
}
