/** C2, second half: the blocks of a row are turned into one list of items. */
module Linear {
  import opened Ir
  import opened Correspond
  import opened Cfg
  import Rename
  import opened Layout

  /** A row of blocks with the numbers its temporaries and labels have. */
  datatype Plan = Plan(g: Graph, entry: nat, row: Row, vars: map<nat, nat>, labels: map<nat, nat>)

  function Var(p: Plan, v: nat): nat { Rename.Look(p.vars, v) }

  function LabelOf(p: Plan, b: nat): nat { Rename.Look(p.labels, b) }

  /** The items of one node. */
  function EmitNode(p: Plan, cancelled: bool, node: Node): seq<Item<Text>> {
    match node
    case Plain(item) => [MapItem((v: nat) => Var(p, v), item)]
    case Jump(d) => if cancelled then [] else [Br(LabelOf(p, d))]
    case Branch(c, t, f) => [BrCond(Var(p, c), LabelOf(p, t))] + if cancelled then [] else [Br(LabelOf(p, f))]
  }

  function EmitNodes(p: Plan, cancelled: bool, nodes: seq<Node>): seq<Item<Text>> {
    if nodes == [] then []
    else EmitNodes(p, cancelled, nodes[..|nodes|-1]) + EmitNode(p, cancelled, nodes[|nodes|-1])
  }

  ghost predicate WellShaped(p: Plan) {
    && |p.row.labelled| == |p.row.cancelled| == |p.row.order|
    && forall k :: 0 <= k < |p.row.order| ==> p.row.order[k] < |p.g|
  }

  function EmitBlock(p: Plan, k: nat): seq<Item<Text>>
    requires WellShaped(p) && k < |p.row.order|
  {
    var b := p.row.order[k];
    (if p.row.labelled[k] then [Label(LabelOf(p, b))] else []) + EmitNodes(p, p.row.cancelled[k], p.g[b])
  }

  function EmitRow(p: Plan, k: nat): seq<Item<Text>>
    requires WellShaped(p) && k <= |p.row.order|
  {
    if k == 0 then [] else EmitRow(p, k - 1) + EmitBlock(p, k - 1)
  }

  /** The items of the function, temporaries and labels numbered by the plan. */
  function Items(p: Plan): seq<Item<Text>>
    requires WellShaped(p)
  {
    EmitRow(p, |p.row.order|)
  }

  // ----- where things are -----

  function BlockAt(p: Plan, k: nat): Block
    requires WellShaped(p) && k < |p.row.order|
  {
    p.g[p.row.order[k]]
  }

  /** The point of the block at `k`, its label included. */
  function Offset(p: Plan, k: nat): nat
    requires WellShaped(p) && k <= |p.row.order|
  {
    |EmitRow(p, k)|
  }

  /** The point of node `i` of the block at `k`. */
  function At(p: Plan, k: nat, i: nat): nat
    requires WellShaped(p) && k < |p.row.order| && i <= |BlockAt(p, k)|
  {
    Offset(p, k) + (if p.row.labelled[k] then 1 else 0) + |EmitNodes(p, p.row.cancelled[k], BlockAt(p, k)[..i])|
  }

  lemma {:induction false} RowIsPrefix(p: Plan, k: nat, n: nat)
    requires WellShaped(p) && k <= n <= |p.row.order|
    ensures EmitRow(p, k) <= EmitRow(p, n)
    decreases n
  {
    if k < n { RowIsPrefix(p, k, n - 1); }
  }

  lemma {:induction false} NodesArePrefix(p: Plan, cancelled: bool, nodes: seq<Node>, i: nat)
    requires i <= |nodes|
    ensures EmitNodes(p, cancelled, nodes[..i]) <= EmitNodes(p, cancelled, nodes)
    decreases |nodes|
  {
    if i < |nodes| {
      assert nodes[..|nodes|-1][..i] == nodes[..i];
      NodesArePrefix(p, cancelled, nodes[..|nodes|-1], i);
    } else {
      assert nodes[..i] == nodes;
    }
  }

  lemma SliceAfter<T>(a: seq<T>, b: seq<T>, whole: seq<T>)
    requires a + b <= whole
    ensures |a| + |b| <= |whole| && whole[|a|..|a|+|b|] == b
  {
    assert whole[..|a|+|b|] == a + b;
  }

  lemma SliceWithin<T>(whole: seq<T>, lo: nat, hi: nat, a: nat, b: nat)
    requires lo <= hi <= |whole| && a <= b <= hi - lo
    ensures whole[lo..hi][a..b] == whole[lo + a..lo + b]
  {
    assert forall j :: 0 <= j < b - a ==> whole[lo..hi][a..b][j] == whole[lo..hi][a + j] == whole[lo + a..lo + b][j];
  }

  lemma RowStep(p: Plan, k: nat)
    requires WellShaped(p) && k < |p.row.order|
    ensures EmitRow(p, k + 1) == EmitRow(p, k) + EmitBlock(p, k)
  {
  }

  /** The block at `k` starts at its offset; the next one follows it. */
  lemma BlockPlace(p: Plan, k: nat)
    requires WellShaped(p) && k < |p.row.order|
    ensures Offset(p, k + 1) == Offset(p, k) + |EmitBlock(p, k)| <= |Items(p)|
    ensures Items(p)[Offset(p, k)..Offset(p, k + 1)] == EmitBlock(p, k)
  {
    hide EmitRow, EmitBlock;
    RowStep(p, k);
    RowIsPrefix(p, k + 1, |p.row.order|);
    SliceAfter(EmitRow(p, k), EmitBlock(p, k), Items(p));
  }

  lemma BlockEnd(p: Plan, k: nat)
    requires WellShaped(p) && k < |p.row.order|
    ensures At(p, k, |BlockAt(p, k)|) == Offset(p, k + 1)
  {
    assert BlockAt(p, k)[..|BlockAt(p, k)|] == BlockAt(p, k);
  }

  lemma NodeInBlock(p: Plan, cancelled: bool, nodes: seq<Node>, i: nat)
    requires i < |nodes|
    ensures var a, b := |EmitNodes(p, cancelled, nodes[..i])|, |EmitNodes(p, cancelled, nodes[..i+1])|;
      && b == a + |EmitNode(p, cancelled, nodes[i])| <= |EmitNodes(p, cancelled, nodes)|
      && EmitNodes(p, cancelled, nodes)[a..b] == EmitNode(p, cancelled, nodes[i])
  {
    assert nodes[..i+1][..i] == nodes[..i];
    NodesArePrefix(p, cancelled, nodes, i + 1);
    SliceAfter(EmitNodes(p, cancelled, nodes[..i]), EmitNode(p, cancelled, nodes[i]), EmitNodes(p, cancelled, nodes));
  }

  lemma NodesInBlock(p: Plan, k: nat)
    requires WellShaped(p) && k < |p.row.order|
    ensures var l := if p.row.labelled[k] then 1 else 0;
      |EmitBlock(p, k)| >= l && EmitBlock(p, k)[l..] == EmitNodes(p, p.row.cancelled[k], BlockAt(p, k))
    ensures p.row.labelled[k] ==> EmitBlock(p, k)[0] == Label(LabelOf(p, p.row.order[k]))
  {
  }

  /** The items of node `i` of the block at `k` stand at its point. */
  lemma NodePlace(p: Plan, k: nat, i: nat)
    requires WellShaped(p) && k < |p.row.order| && i < |BlockAt(p, k)|
    ensures var items := EmitNode(p, p.row.cancelled[k], BlockAt(p, k)[i]);
      && At(p, k, i + 1) == At(p, k, i) + |items| <= |Items(p)|
      && Items(p)[At(p, k, i)..At(p, k, i + 1)] == items
  {
    hide EmitNode, EmitNodes, EmitRow, EmitBlock, Items;
    var nodes, cancelled := BlockAt(p, k), p.row.cancelled[k];
    BlockPlace(p, k);
    NodeInBlock(p, cancelled, nodes, i);
    NodesInBlock(p, k);
    var l := if p.row.labelled[k] then 1 else 0;
    var block := EmitBlock(p, k);
    var a, b := |EmitNodes(p, cancelled, nodes[..i])|, |EmitNodes(p, cancelled, nodes[..i+1])|;
    SliceWithin(block, l, |block|, a, b);
    SliceWithin(Items(p), Offset(p, k), Offset(p, k + 1), l + a, l + b);
  }

  /** The label of a labelled block stands at its offset. */
  lemma LabelPlace(p: Plan, k: nat)
    requires WellShaped(p) && k < |p.row.order| && p.row.labelled[k]
    ensures Offset(p, k) < |Items(p)| && Items(p)[Offset(p, k)] == Label(LabelOf(p, p.row.order[k]))
    ensures At(p, k, 0) == Offset(p, k) + 1
  {
    BlockPlace(p, k);
    NodesInBlock(p, k);
    assert Items(p)[Offset(p, k)..Offset(p, k + 1)][0] == Items(p)[Offset(p, k)];
    assert BlockAt(p, k)[..0] == [];
  }

  // ----- labels -----

  ghost predicate OneToOne(m: map<nat, nat>) {
    forall v, w :: v in m && w in m && v != w ==> m[v] != m[w]
  }

  /** The plan names, once, everything the placed blocks mention. */
  ghost predicate Named(p: Plan)
    requires WellShaped(p)
  {
    && OneToOne(p.vars) && OneToOne(p.labels)
    && (forall k :: 0 <= k < |p.row.order| && p.row.labelled[k] ==> p.row.order[k] in p.labels)
    && (forall k, i :: 0 <= k < |p.row.order| && 0 <= i < |BlockAt(p, k)| ==> NamesAll(p.vars, BlockAt(p, k)[i]))
  }

  ghost predicate NamesAll(vars: map<nat, nat>, node: Node) {
    forall v :: v in NodeMentions(node) ==> v in vars
  }

  ghost predicate Planned(p: Plan) {
    && WellShaped(p)
    && IsRow(p.g, p.entry, p.row)
    && (forall k :: 0 <= k < |p.row.order| ==> Finished(BlockAt(p, k)))
    && Named(p)
  }

  ghost predicate Unlabelled(f: seq<Item<Text>>) { forall j :: 0 <= j < |f| ==> !f[j].Label? }

  lemma {:induction false} NodesUnlabelled(p: Plan, cancelled: bool, nodes: seq<Node>)
    requires forall i :: 0 <= i < |nodes| && nodes[i].Plain? ==> PlainItem(nodes[i].item)
    ensures Unlabelled(EmitNodes(p, cancelled, nodes))
  {
    if nodes != [] { NodesUnlabelled(p, cancelled, nodes[..|nodes|-1]); }
  }

  lemma {:induction false} UnlabelledTail(f: seq<Item<Text>>, h: seq<Item<Text>>)
    requires Unlabelled(h)
    ensures LabelPoints(f + h) == LabelPoints(f)
    decreases |h|
  {
    if h == [] {
      assert f + h == f;
    } else {
      assert (f + h)[..|f+h|-1] == f + h[..|h|-1];
      UnlabelledTail(f, h[..|h|-1]);
    }
  }

  lemma LabelTail(f: seq<Item<Text>>, l: nat)
    ensures LabelPoints(f + [Label(l)]) == LabelPoints(f)[l := |f|]
  {
    assert (f + [Label(l)])[..|f|] == f;
  }

  lemma FinishedPlain(block: Block)
    requires Finished(block)
    ensures forall i :: 0 <= i < |block| && block[i].Plain? ==> PlainItem(block[i].item)
  {
  }

  lemma BlockLabelPoints(p: Plan, k: nat)
    requires WellShaped(p) && k < |p.row.order| && Finished(p.g[p.row.order[k]])
    ensures LabelPoints(EmitRow(p, k + 1)) ==
      if p.row.labelled[k] then LabelPoints(EmitRow(p, k))[LabelOf(p, p.row.order[k]) := Offset(p, k)]
      else LabelPoints(EmitRow(p, k))
  {
    hide EmitNodes, EmitRow, LabelPoints, Finished;
    var nodes := EmitNodes(p, p.row.cancelled[k], BlockAt(p, k));
    FinishedPlain(BlockAt(p, k));
    NodesUnlabelled(p, p.row.cancelled[k], BlockAt(p, k));
    RowStep(p, k);
    var f := EmitRow(p, k);
    if p.row.labelled[k] {
      var l := LabelOf(p, p.row.order[k]);
      LabelTail(f, l);
      UnlabelledTail(f + [Label(l)], nodes);
      assert f + EmitBlock(p, k) == (f + [Label(l)]) + nodes;
    } else {
      UnlabelledTail(f, nodes);
      assert f + EmitBlock(p, k) == f + nodes;
    }
  }

  lemma {:induction false} RowLabelPoints(p: Plan, k: nat, j: nat)
    requires Planned(p) && j < k <= |p.row.order| && p.row.labelled[j]
    ensures LabelOf(p, p.row.order[j]) in LabelPoints(EmitRow(p, k))
    ensures LabelPoints(EmitRow(p, k))[LabelOf(p, p.row.order[j])] == Offset(p, j)
    decreases k
  {
    hide *;
    PlanFacts(p, j, k - 1);
    BlockLabelPoints(p, k - 1);
    if j < k - 1 {
      RowLabelPoints(p, k - 1, j);
    }
  }

  lemma PlanFacts(p: Plan, j: nat, k: nat)
    requires Planned(p) && j <= k < |p.row.order|
    ensures WellShaped(p) && Finished(BlockAt(p, j)) && Finished(BlockAt(p, k))
    ensures p.row.order[k] < |p.g| && BlockAt(p, k) == p.g[p.row.order[k]]
    ensures j < k && p.row.labelled[j] && p.row.labelled[k] ==>
      LabelOf(p, p.row.order[j]) != LabelOf(p, p.row.order[k])
  {
    assert j < k ==> p.row.order[j] != p.row.order[k];
  }

  /** A branch to the label of a labelled block goes to the offset of the block. */
  lemma GotoBlock(p: Plan, k: nat, t: State)
    requires Planned(p) && k < |p.row.order| && p.row.labelled[k]
    ensures Goto(Items(p), t, LabelOf(p, p.row.order[k])) == t.(pc := Offset(p, k))
  {
    RowLabelPoints(p, |p.row.order|, k);
  }

  // ----- the simulation -----

  ghost predicate TempsAgree(rt: Runtime<Text>, vars: map<nat, nat>, s: Temps, t: Temps) {
    forall v :: v in vars ==> Get(rt, s, v) == Get(rt, t, vars[v])
  }

  /** `t.pc` is where node `i` of the block at `k` is about to be executed: at the
      node, at the label of the block, or between the two branches of the node. */
  ghost predicate Here(rt: Runtime<Text>, p: Plan, c: Place, t: State, k: nat)
    requires WellShaped(p) && k < |p.row.order| && c.s.pc < |BlockAt(p, k)|
  {
    || t.pc == At(p, k, c.s.pc)
    || AtLabel(p, c, t, k)
    || BetweenBranches(rt, p, c, t, k)
  }

  ghost predicate AtLabel(p: Plan, c: Place, t: State, k: nat)
    requires WellShaped(p) && k < |p.row.order|
  {
    c.s.pc == 0 && p.row.labelled[k] && t.pc == Offset(p, k)
  }

  ghost predicate BetweenBranches(rt: Runtime<Text>, p: Plan, c: Place, t: State, k: nat)
    requires WellShaped(p) && k < |p.row.order| && c.s.pc < |BlockAt(p, k)|
  {
    && BlockAt(p, k)[c.s.pc].Branch? && !p.row.cancelled[k]
    && !rt.truthy(Get(rt, c.s.temps, BlockAt(p, k)[c.s.pc].cond))
    && t.pc == At(p, k, c.s.pc) + 1
  }

  /** The graph at `c` and the list at `t` are at the same place of the run. */
  ghost predicate Sim(rt: Runtime<Text>, p: Plan, c: Place, t: State)
    requires WellShaped(p)
  {
    && Beside(c.s, t) && TempsAgree(rt, p.vars, c.s.temps, t.temps)
    && (c.s.status.Running? ==>
          && c.block in p.row.order
          && c.s.pc < |BlockAt(p, Position(p.row.order, c.block))|
          && Here(rt, p, c, t, Position(p.row.order, c.block)))
  }

  /** Control arrives at a block. */
  lemma Arrive(rt: Runtime<Text>, p: Plan, s: State, x: nat, t: State)
    requires WellShaped(p) && x in p.row.order && BlockAt(p, Position(p.row.order, x)) != []
    requires Beside(s, t) && TempsAgree(rt, p.vars, s.temps, t.temps)
    requires t.pc == Offset(p, Position(p.row.order, x))
    ensures Sim(rt, p, Enter(x, s), t)
  {
    var k := Position(p.row.order, x);
    if !p.row.labelled[k] {
      assert BlockAt(p, k)[..0] == [];
      assert t.pc == At(p, k, 0);
    }
  }

  /** What the list holds where a node stands. */
  lemma NodeItem(p: Plan, k: nat, i: nat, j: nat)
    requires WellShaped(p) && k < |p.row.order| && i < |BlockAt(p, k)|
    requires j < |EmitNode(p, p.row.cancelled[k], BlockAt(p, k)[i])|
    ensures At(p, k, i) + j < |Items(p)|
    ensures Items(p)[At(p, k, i) + j] == EmitNode(p, p.row.cancelled[k], BlockAt(p, k)[i])[j]
  {
    hide EmitNode, Items, At;
    NodePlace(p, k, i);
    assert Items(p)[At(p, k, i)..At(p, k, i + 1)][j] == Items(p)[At(p, k, i) + j];
  }

  lemma PlainKeeps(item: Item<Text>, lab: nat -> nat, reg: nat -> nat)
    requires PlainItem(item)
    ensures Relabel(lab, MapItem(reg, item)) == MapItem(reg, item) && !IsBranch(item) && !IsBranch(MapItem(reg, item))
  {
  }

  lemma ReadsAreMentioned(rt: Runtime<Text>, item: Item<Text>, temps: Temps)
    ensures forall v :: v in ReadsNow(rt, item, temps) ==> v in Mentions(item)
    ensures Writes(item).Some? ==> Writes(item).value in Mentions(item)
  {
    if item.Do? { UsesMentioned(item.op); }
  }

  lemma WriteAgrees(rt: Runtime<Text>, vars: map<nat, nat>, s: Temps, t: Temps, w: Option<nat>, value: Value, s': Temps,
      t': Temps)
    requires OneToOne(vars) && TempsAgree(rt, vars, s, t)
    requires w.Some? ==> w.value in vars
    requires SameWrite(w, value, (v: nat) => Rename.Look(vars, v), s, t, s', t')
    ensures TempsAgree(rt, vars, s', t')
  {
  }

  /** A straight item, executed on both sides. */
  lemma StraightAgrees(rt: Runtime<Text>, p: Plan, item: Item<Text>, s: State, t: State)
    requires OneToOne(p.vars) && PlainItem(item) && s.status.Running?
    requires forall v :: v in Mentions(item) ==> v in p.vars
    requires Beside(s, t) && TempsAgree(rt, p.vars, s.temps, t.temps)
    ensures !IsBranch(item) && !IsBranch(MapItem((v: nat) => Var(p, v), item))
    ensures var s', t' := Straight(rt, item, s), Straight(rt, MapItem((v: nat) => Var(p, v), item), t);
      && Beside(s', t') && TempsAgree(rt, p.vars, s'.temps, t'.temps)
      && (if s'.status.Running? then s'.pc == s.pc + 1 && t'.pc == t.pc + 1 else s'.pc == s.pc && t'.pc == t.pc)
  {
    var reg, lab := (v: nat) => Var(p, v), (l: nat) => l;
    PlainKeeps(item, lab, reg);
    ReadsAreMentioned(rt, item, s.temps);
    StraightTogether(rt, item, reg, lab, s, t);
    var s', t' := Straight(rt, item, s), Straight(rt, MapItem(reg, item), t);
    WriteAgrees(rt, p.vars, s.temps, t.temps, Writes(item),
      if Writes(item).Some? then Written(rt, item, s).0 else rt.undefined, s'.temps, t'.temps);
  }

  // ----- the steps -----

  function PlaceOf(p: Plan, c: Place): nat
    requires c.block in p.row.order
  {
    Position(p.row.order, c.block)
  }

  /** What a simulation that is still running says. */
  lemma SimFacts(rt: Runtime<Text>, p: Plan, c: Place, t: State) returns (k: nat)
    requires Planned(p) && Sim(rt, p, c, t) && c.s.status.Running?
    ensures k < |p.row.order| && p.row.order[k] == c.block && c.block < |p.g| && BlockAt(p, k) == p.g[c.block]
    ensures c.block in p.row.order && k == PlaceOf(p, c)
    ensures c.s.pc < |BlockAt(p, k)| && Here(rt, p, c, t, k) && Finished(BlockAt(p, k)) &&
        NamesAll(p.vars, BlockAt(p, k)[c.s.pc])
    ensures t.status.Running? && Beside(c.s, t) && TempsAgree(rt, p.vars, c.s.temps, t.temps)
    ensures OneToOne(p.vars)
  {
    k := PlaceOf(p, c);
  }

  /** From the label of a block to its first node. */
  lemma LabelStep(rt: Runtime<Text>, p: Plan, c: Place, t: State, k: nat)
    requires Planned(p) && Sim(rt, p, c, t) && c.s.status.Running?
    requires c.block in p.row.order && k == PlaceOf(p, c) && AtLabel(p, c, t, k)
    ensures Sim(rt, p, c, Ir.Step(rt, Items(p), t))
    ensures Ir.Step(rt, Items(p), t).pc == At(p, k, c.s.pc)
  {
    LabelPlace(p, k);
  }

  lemma PlainStep(rt: Runtime<Text>, p: Plan, c: Place, t: State, k: nat)
    requires Planned(p) && Sim(rt, p, c, t) && c.s.status.Running?
    requires c.block in p.row.order && k == PlaceOf(p, c)
    requires t.pc == At(p, k, c.s.pc) && BlockAt(p, k)[c.s.pc].Plain?
    ensures Sim(rt, p, Cfg.Step(rt, p.g, c), Ir.Step(rt, Items(p), t))
  {
    hide Items, EmitRow, EmitBlock, EmitNodes, Straight, Labelled, IsRow;
    var _ := SimFacts(rt, p, c, t);
    var node := BlockAt(p, k)[c.s.pc];
    NodeItem(p, k, c.s.pc, 0);
    NodePlace(p, k, c.s.pc);
    StraightAgrees(rt, p, node.item, c.s, t);
    LastEnds(rt, p, c, k);
  }

  /** A straight item that does not end the run is not the last of its block. */
  lemma LastEnds(rt: Runtime<Text>, p: Plan, c: Place, k: nat)
    requires WellShaped(p) && k < |p.row.order| && c.s.pc < |BlockAt(p, k)| && Finished(BlockAt(p, k))
    requires BlockAt(p, k)[c.s.pc].Plain? && !IsBranch(BlockAt(p, k)[c.s.pc].item)
    ensures Straight(rt, BlockAt(p, k)[c.s.pc].item, c.s).status.Running? ==> c.s.pc + 1 < |BlockAt(p, k)|
  {
  }

  /** A control node is the last of its block. */
  lemma ControlIsLast(p: Plan, k: nat, i: nat)
    requires WellShaped(p) && k < |p.row.order| && i < |BlockAt(p, k)| && Finished(BlockAt(p, k))
    requires !BlockAt(p, k)[i].Plain?
    ensures i == |BlockAt(p, k)| - 1
  {
  }

  /** The block an emitted arm leads to is placed and labelled. */
  lemma ArmPlaced(p: Plan, k: nat, i: nat, onTrue: bool) returns (x: nat)
    requires Planned(p) && k < |p.row.order| && i < |BlockAt(p, k)|
    requires ValidArm(p.g, Arm(p.row.order[k], i, onTrue))
    requires p.row.cancelled[k] ==> BlockAt(p, k)[i].Branch? && onTrue
    ensures x == ArmTarget(p.g, Arm(p.row.order[k], i, onTrue)) && x in p.row.order
    ensures p.row.labelled[Position(p.row.order, x)] && BlockAt(p, Position(p.row.order, x)) != []
  {
    x := ArmTarget(p.g, Arm(p.row.order[k], i, onTrue));
    assert Emitted(p.g, p.row.order, k, i, onTrue);
    EmittedIsLabelled(p.g, p.entry, p.row, k, i, onTrue);
    assert Finished(BlockAt(p, Position(p.row.order, x)));
  }

  /** Control goes to a labelled block through a branch of the list. */
  lemma GoTo(rt: Runtime<Text>, p: Plan, s: State, t: State, x: nat)
    requires Planned(p) && x in p.row.order
    requires p.row.labelled[Position(p.row.order, x)] && BlockAt(p, Position(p.row.order, x)) != []
    requires Beside(s, t) && TempsAgree(rt, p.vars, s.temps, t.temps)
    ensures Sim(rt, p, Enter(x, s), Goto(Items(p), t, LabelOf(p, x)))
  {
    hide Items, EmitRow;
    var k := Position(p.row.order, x);
    GotoBlock(p, k, t);
    Arrive(rt, p, s, x, t.(pc := Offset(p, k)));
  }

  /** A block whose last jump is cancelled ends where the next block begins. */
  lemma InPlaceNext(p: Plan, k: nat, i: nat)
    requires Planned(p) && k < |p.row.order| && i < |BlockAt(p, k)| && !BlockAt(p, k)[i].Plain? && p.row.cancelled[k]
    ensures k + 1 < |p.row.order| && Position(p.row.order, p.row.order[k+1]) == k + 1 && BlockAt(p, k + 1) != []
    ensures match BlockAt(p, k)[i]
            case Jump(d) => d == p.row.order[k+1] && At(p, k, i) == Offset(p, k + 1)
            case Branch(_, _, f) => f == p.row.order[k+1] && At(p, k, i) + 1 == Offset(p, k + 1)
  {
    hide Items, EmitRow, EmitBlock, EmitNodes;
    ControlIsLast(p, k, i);
    assert InPlace(p.g, p.row.order, k);
    NodePlace(p, k, i);
    BlockEnd(p, k);
    PositionUnique(p.row.order, k + 1);
    assert Finished(BlockAt(p, k + 1));
  }

  /** An emitted jump. */
  lemma JumpStep(rt: Runtime<Text>, p: Plan, c: Place, t: State, k: nat)
    requires Planned(p) && Sim(rt, p, c, t) && c.s.status.Running?
    requires c.block in p.row.order && k == PlaceOf(p, c)
    requires t.pc == At(p, k, c.s.pc) && BlockAt(p, k)[c.s.pc].Jump? && !p.row.cancelled[k]
    ensures Sim(rt, p, Cfg.Step(rt, p.g, c), Ir.Step(rt, Items(p), t))
  {
    hide Items, EmitRow, EmitBlock, EmitNodes, IsRow, Goto, Sim;
    var _ := SimFacts(rt, p, c, t);
    NodeItem(p, k, c.s.pc, 0);
    var x := ArmPlaced(p, k, c.s.pc, true);
    GoTo(rt, p, c.s, t, x);
  }

  /** A cancelled jump: the list does nothing. */
  lemma InPlaceStep(rt: Runtime<Text>, p: Plan, c: Place, t: State, k: nat)
    requires Planned(p) && Sim(rt, p, c, t) && c.s.status.Running?
    requires c.block in p.row.order && k == PlaceOf(p, c)
    requires t.pc == At(p, k, c.s.pc) && BlockAt(p, k)[c.s.pc].Jump? && p.row.cancelled[k]
    ensures var c' := Cfg.Step(rt, p.g, c);
      Sim(rt, p, c', t) && c'.s.status.Running? && c'.block in p.row.order && PlaceOf(p, c') == k + 1
  {
    hide Items, EmitRow, EmitBlock, EmitNodes, IsRow, Sim;
    var _ := SimFacts(rt, p, c, t);
    InPlaceNext(p, k, c.s.pc);
    Arrive(rt, p, c.s, p.row.order[k+1], t);
  }

  /** A branch whose condition is true. */
  lemma BranchTakenStep(rt: Runtime<Text>, p: Plan, c: Place, t: State, k: nat)
    requires Planned(p) && Sim(rt, p, c, t) && c.s.status.Running?
    requires c.block in p.row.order && k == PlaceOf(p, c)
    requires t.pc == At(p, k, c.s.pc) && BlockAt(p, k)[c.s.pc].Branch?
    requires rt.truthy(Get(rt, c.s.temps, BlockAt(p, k)[c.s.pc].cond))
    ensures Sim(rt, p, Cfg.Step(rt, p.g, c), Ir.Step(rt, Items(p), t))
  {
    hide Items, EmitRow, EmitBlock, EmitNodes, IsRow, Goto, Sim;
    var _ := SimFacts(rt, p, c, t);
    NodeItem(p, k, c.s.pc, 0);
    var x := ArmPlaced(p, k, c.s.pc, true);
    GoTo(rt, p, c.s, t, x);
    assert BlockAt(p, k)[c.s.pc].cond in NodeMentions(BlockAt(p, k)[c.s.pc]);
  }

  /** A branch whose condition is false: the list steps over its first branch. */
  lemma BranchFallsStep(rt: Runtime<Text>, p: Plan, c: Place, t: State, k: nat)
    requires Planned(p) && Sim(rt, p, c, t) && c.s.status.Running?
    requires c.block in p.row.order && k == PlaceOf(p, c)
    requires t.pc == At(p, k, c.s.pc) && BlockAt(p, k)[c.s.pc].Branch?
    requires !rt.truthy(Get(rt, c.s.temps, BlockAt(p, k)[c.s.pc].cond))
    ensures Sim(rt, p, if p.row.cancelled[k] then Cfg.Step(rt, p.g, c) else c, Ir.Step(rt, Items(p), t))
    ensures !p.row.cancelled[k] ==> BetweenBranches(rt, p, c, Ir.Step(rt, Items(p), t), k)
  {
    hide Items, EmitRow, EmitBlock, EmitNodes, IsRow, Goto, At, Offset;
    var _ := SimFacts(rt, p, c, t);
    NodeItem(p, k, c.s.pc, 0);
    assert BlockAt(p, k)[c.s.pc].cond in NodeMentions(BlockAt(p, k)[c.s.pc]);
    if p.row.cancelled[k] {
      InPlaceNext(p, k, c.s.pc);
      Arrive(rt, p, c.s, p.row.order[k+1], Next(t));
    }
  }

  /** The second branch of a pair. */
  lemma BetweenStep(rt: Runtime<Text>, p: Plan, c: Place, t: State, k: nat)
    requires Planned(p) && Sim(rt, p, c, t) && c.s.status.Running?
    requires c.block in p.row.order && k == PlaceOf(p, c) && BetweenBranches(rt, p, c, t, k)
    ensures Sim(rt, p, Cfg.Step(rt, p.g, c), Ir.Step(rt, Items(p), t))
  {
    hide Items, EmitRow, EmitBlock, EmitNodes, IsRow, Goto, Sim;
    var _ := SimFacts(rt, p, c, t);
    NodeItem(p, k, c.s.pc, 1);
    var x := ArmPlaced(p, k, c.s.pc, false);
    GoTo(rt, p, c.s, t, x);
  }

  lemma CfgRunStep(rt: Runtime<Text>, g: Graph, c: Place, n: nat)
    ensures Cfg.Run(rt, g, n + 1, c) == Cfg.Run(rt, g, n, Cfg.Step(rt, g, c))
    ensures Cfg.Run(rt, g, 0, c) == c
  {
  }

  /** Whatever the first `n` steps of the graph write, the step of the list writes. */
  ghost predicate WritesMatch(rt: Runtime<Text>, p: Plan, c: Place, n: nat, t: State)
    requires WellShaped(p)
  {
    forall k: nat :: k < n && Cfg.StepWrites(p.g, Cfg.Run(rt, p.g, k, c)).Some? ==>
      WritesAt(Items(p), t) == Some(Var(p, Cfg.StepWrites(p.g, Cfg.Run(rt, p.g, k, c)).value))
  }

  lemma NothingWritten(rt: Runtime<Text>, p: Plan, c: Place, t: State)
    requires WellShaped(p)
    ensures WritesMatch(rt, p, c, 0, t)
    ensures Cfg.StepWrites(p.g, c).None? ==> WritesMatch(rt, p, c, 1, t)
  {
    if Cfg.StepWrites(p.g, c).None? {
      forall k: nat | k < 1 ensures Cfg.StepWrites(p.g, Cfg.Run(rt, p.g, k, c)).None? {
        assert k == 0;
      }
    }
  }

  lemma WritesMatchOne(rt: Runtime<Text>, p: Plan, c: Place, t: State)
    requires WellShaped(p)
    requires Cfg.StepWrites(p.g, c).Some? ==> WritesAt(Items(p), t) == Some(Var(p, Cfg.StepWrites(p.g, c).value))
    ensures WritesMatch(rt, p, c, 1, t)
  {
    forall k: nat | k < 1 ensures Cfg.Run(rt, p.g, k, c) == c { assert k == 0; }
  }

  lemma WritesMatchMore(rt: Runtime<Text>, p: Plan, c: Place, n: nat, t: State)
    requires WellShaped(p) && Cfg.StepWrites(p.g, c).None? && WritesMatch(rt, p, Cfg.Step(rt, p.g, c), n, t)
    ensures WritesMatch(rt, p, c, n + 1, t)
  {
    forall k: nat | k < n + 1 && Cfg.StepWrites(p.g, Cfg.Run(rt, p.g, k, c)).Some?
      ensures WritesAt(Items(p), t) == Some(Var(p, Cfg.StepWrites(p.g, Cfg.Run(rt, p.g, k, c)).value))
    {
      if k > 0 { CfgRunStep(rt, p.g, c, k - 1); }
    }
  }

  lemma PlainWrites(rt: Runtime<Text>, p: Plan, c: Place, t: State, k: nat)
    requires Planned(p) && Sim(rt, p, c, t) && c.s.status.Running?
    requires c.block in p.row.order && k == PlaceOf(p, c) && c.s.pc < |BlockAt(p, k)|
    requires t.pc == At(p, k, c.s.pc) && BlockAt(p, k)[c.s.pc].Plain?
    ensures Cfg.StepWrites(p.g, c).Some? ==> WritesAt(Items(p), t) == Some(Var(p, Cfg.StepWrites(p.g, c).value))
    ensures Cfg.StepWrites(p.g, c).None? ==> WritesAt(Items(p), t).None?
  {
    hide Items, EmitRow, EmitBlock, EmitNodes, IsRow, At;
    var _ := SimFacts(rt, p, c, t);
    NodeItem(p, k, c.s.pc, 0);
    MapItemWrites((v: nat) => Var(p, v), BlockAt(p, k)[c.s.pc].item);
  }

  lemma MapItemWrites(f: nat -> nat, item: Item<Text>)
    ensures Writes(MapItem(f, item)) == if Writes(item).Some? then Some(f(Writes(item).value)) else None
  {
    if item.Do? { MapOpUses(f, item.op); }
  }

  lemma ControlWritesNothing(g: Graph, c: Place)
    requires c.block < |g| && c.s.pc < |g[c.block]| && !g[c.block][c.s.pc].Plain?
    ensures Cfg.StepWrites(g, c).None?
  {
  }

  /** A step of the list is matched by some steps of the graph. */
  lemma {:induction false} ListStep(rt: Runtime<Text>, p: Plan, c: Place, t: State) returns (n: nat)
    requires Planned(p) && Sim(rt, p, c, t)
    ensures Sim(rt, p, Cfg.Run(rt, p.g, n, c), Ir.Step(rt, Items(p), t))
    ensures WritesMatch(rt, p, c, n, t)
    decreases if c.block in p.row.order then |p.row.order| - PlaceOf(p, c) else 0
  {
    hide Sim, Items, Planned, EmitRow, WritesMatch, WritesAt;
    PlannedIsShaped(p);
    NothingWritten(rt, p, c, t);
    if !c.s.status.Running? { StoppedStep(rt, p, c, t); return 0; }
    var k := SimFacts(rt, p, c, t);
    var node := BlockAt(p, k)[c.s.pc];
    CfgRunStep(rt, p.g, c, 0);
    CfgRunStep(rt, p.g, Cfg.Step(rt, p.g, c), 0);
    if !node.Plain? { ControlWritesNothing(p.g, c); }
    if t.pc == At(p, k, c.s.pc) {
      match node {
        case Plain(_) =>
          PlainStep(rt, p, c, t, k);
          PlainWrites(rt, p, c, t, k);
          WritesMatchOne(rt, p, c, t);
          return 1;
        case Jump(_) =>
          if p.row.cancelled[k] {
            InPlaceStep(rt, p, c, t, k);
            n := ListStep(rt, p, Cfg.Step(rt, p.g, c), t);
            CfgRunStep(rt, p.g, c, n);
            WritesMatchMore(rt, p, c, n, t);
            return n + 1;
          } else {
            JumpStep(rt, p, c, t, k); return 1;
          }
        case Branch(v, _, _) =>
          if rt.truthy(Get(rt, c.s.temps, v)) {
            BranchTakenStep(rt, p, c, t, k); return 1;
          } else {
            BranchFallsStep(rt, p, c, t, k);
            return if p.row.cancelled[k] then 1 else 0;
          }
      }
    } else if AtLabel(p, c, t, k) {
      LabelStep(rt, p, c, t, k); return 0;
    } else {
      BetweenStep(rt, p, c, t, k); return 1;
    }
  }

  lemma StoppedStep(rt: Runtime<Text>, p: Plan, c: Place, t: State)
    requires WellShaped(p) && Sim(rt, p, c, t) && !c.s.status.Running?
    ensures Sim(rt, p, Cfg.Run(rt, p.g, 0, c), Ir.Step(rt, Items(p), t))
  {
  }

  /** A step of the graph is matched by some steps of the list. */
  lemma GraphStep(rt: Runtime<Text>, p: Plan, c: Place, t: State) returns (m: nat)
    requires Planned(p) && Sim(rt, p, c, t)
    ensures Sim(rt, p, Cfg.Step(rt, p.g, c), Ir.Run(rt, Items(p), m, t))
  {
    if !c.s.status.Running? { return 0; }
    hide Sim, Items, Planned, EmitRow;
    var k := SimFacts(rt, p, c, t);
    if AtLabel(p, c, t, k) && t.pc != At(p, k, c.s.pc) {
      LabelStep(rt, p, c, t, k);
      m := NodeStep(rt, p, c, Ir.Step(rt, Items(p), t), k);
      IrRunStep(rt, Items(p), t, m);
      return m + 1;
    } else {
      m := NodeStep(rt, p, c, t, k);
    }
  }

  lemma IrRunStep(rt: Runtime<Text>, f: seq<Item<Text>>, t: State, m: nat)
    ensures Ir.Run(rt, f, m + 1, t) == Ir.Run(rt, f, m, Ir.Step(rt, f, t))
    ensures Ir.Run(rt, f, 0, t) == t
  {
  }

  lemma PlannedIsShaped(p: Plan)
    requires Planned(p)
    ensures WellShaped(p)
  {
  }

  lemma NodeStep(rt: Runtime<Text>, p: Plan, c: Place, t: State, k: nat) returns (m: nat)
    requires Planned(p) && Sim(rt, p, c, t) && c.s.status.Running?
    requires c.block in p.row.order && k == PlaceOf(p, c) && c.s.pc < |BlockAt(p, k)|
    requires t.pc == At(p, k, c.s.pc) || BetweenBranches(rt, p, c, t, k)
    ensures Sim(rt, p, Cfg.Step(rt, p.g, c), Ir.Run(rt, Items(p), m, t))
  {
    hide Sim, Items, Planned, EmitRow;
    PlannedIsShaped(p);
    var f := Items(p);
    IrRunStep(rt, f, t, 0);
    IrRunStep(rt, f, t, 1);
    IrRunStep(rt, f, Ir.Step(rt, f, t), 0);
    var node := BlockAt(p, k)[c.s.pc];
    if t.pc == At(p, k, c.s.pc) {
      match node {
        case Plain(_) => PlainStep(rt, p, c, t, k); return 1;
        case Jump(_) =>
          if p.row.cancelled[k] {
            InPlaceStep(rt, p, c, t, k); return 0;
          } else {
            JumpStep(rt, p, c, t, k); return 1;
          }
        case Branch(v, _, _) =>
          if rt.truthy(Get(rt, c.s.temps, v)) {
            BranchTakenStep(rt, p, c, t, k); return 1;
          } else {
            BranchFallsStep(rt, p, c, t, k);
            if p.row.cancelled[k] { return 1; }
            BetweenStep(rt, p, c, Ir.Step(rt, f, t), k);
            return 2;
          }
      }
    } else {
      BetweenStep(rt, p, c, t, k); return 1;
    }
  }

  // ----- whole runs -----

  /** The entry of the function is where the list starts. */
  lemma RunsBegin(rt: Runtime<Text>, p: Plan, world: World)
    requires Planned(p)
    ensures Sim(rt, p, Begin(p.entry, world), Start(world))
  {
    assert p.row.order[0] == p.entry && Finished(BlockAt(p, 0));
    PositionUnique(p.row.order, 0);
    Arrive(rt, p, Start(world), p.entry, Start(world));
  }

  /** The list and the graph reach matching places after `m` and `n` steps. */
  ghost predicate Matched(rt: Runtime<Text>, p: Plan, world: World, n: nat, m: nat)
    requires WellShaped(p)
  {
    Sim(rt, p, Cfg.After(rt, p.g, p.entry, world, n), Correspond.After(rt, Items(p), world, m))
  }

  lemma MatchedObserves(rt: Runtime<Text>, p: Plan, world: World, n: nat, m: nat)
    requires WellShaped(p) && Matched(rt, p, world, n, m)
    ensures Observe(Cfg.After(rt, p.g, p.entry, world, n).s) == Observe(Correspond.After(rt, Items(p), world, m))
  {
  }

  /** Whatever the list does, the graph does. */
  lemma {:induction false} ListFollowsGraph(rt: Runtime<Text>, p: Plan, world: World, m: nat) returns (n: nat)
    requires Planned(p)
    ensures WellShaped(p) && Matched(rt, p, world, n, m)
  {
    hide *;
    PlannedIsShaped(p);
    if m == 0 {
      RunsBegin(rt, p, world);
      RunsStand(rt, p, world);
      return 0;
    }
    var k := ListFollowsGraph(rt, p, world, m - 1);
    MatchedIsSim(rt, p, world, k, m - 1);
    var c, t := Cfg.After(rt, p.g, p.entry, world, k), Correspond.After(rt, Items(p), world, m - 1);
    var more := ListStep(rt, p, c, t);
    GraphRuns(rt, p.g, p.entry, world, k, more);
    Correspond.AfterStep(rt, Items(p), world, m - 1);
    n := k + more;
    MatchedIsSim(rt, p, world, n, m);
  }

  /** Whatever the graph does, the list does. */
  lemma {:induction false} GraphFollowsList(rt: Runtime<Text>, p: Plan, world: World, n: nat) returns (m: nat)
    requires Planned(p)
    ensures WellShaped(p) && Matched(rt, p, world, n, m)
  {
    hide *;
    PlannedIsShaped(p);
    if n == 0 {
      RunsBegin(rt, p, world);
      RunsStand(rt, p, world);
      return 0;
    }
    var k := GraphFollowsList(rt, p, world, n - 1);
    MatchedIsSim(rt, p, world, n - 1, k);
    var c, t := Cfg.After(rt, p.g, p.entry, world, n - 1), Correspond.After(rt, Items(p), world, k);
    var more := GraphStep(rt, p, c, t);
    Cfg.AfterStep(rt, p.g, p.entry, world, n - 1);
    ListRuns(rt, Items(p), world, k, more);
    m := k + more;
    MatchedIsSim(rt, p, world, n, m);
  }

  lemma MatchedIsSim(rt: Runtime<Text>, p: Plan, world: World, n: nat, m: nat)
    requires WellShaped(p)
    ensures Matched(rt, p, world, n, m) <==>
      Sim(rt, p, Cfg.After(rt, p.g, p.entry, world, n), Correspond.After(rt, Items(p), world, m))
  {
  }

  lemma RunsStand(rt: Runtime<Text>, p: Plan, world: World)
    requires WellShaped(p)
    ensures Matched(rt, p, world, 0, 0) <==> Sim(rt, p, Begin(p.entry, world), Start(world))
  {
  }

  lemma GraphRuns(rt: Runtime<Text>, g: Graph, entry: nat, world: World, n: nat, m: nat)
    ensures Cfg.After(rt, g, entry, world, n + m) == Cfg.Run(rt, g, m, Cfg.After(rt, g, entry, world, n))
  {
    Cfg.RunSplit(rt, g, n, m, Begin(entry, world));
  }

  lemma ListRuns(rt: Runtime<Text>, f: seq<Item<Text>>, world: World, n: nat, m: nat)
    ensures Correspond.After(rt, f, world, n + m) == Ir.Run(rt, f, m, Correspond.After(rt, f, world, n))
  {
    Ir.RunSplit(rt, f, n, m, Start(world));
  }

  /** Linearisation preserves meaning: the list shows what the graph shows. */
  lemma LinearisationPreservesMeaning(rt: Runtime<Text>, p: Plan, world: World, o: Observation)
    requires Planned(p)
    ensures WellShaped(p)
    ensures Cfg.Shows(rt, p.g, p.entry, world, o) <==> Correspond.Shows(rt, Items(p), world, o)
  {
    PlannedIsShaped(p);
    if n: nat :| Observe(Cfg.After(rt, p.g, p.entry, world, n).s) == o {
      var m := GraphFollowsList(rt, p, world, n);
      MatchedObserves(rt, p, world, n, m);
    }
    if m: nat :| Observe(Correspond.After(rt, Items(p), world, m)) == o {
      var n := ListFollowsGraph(rt, p, world, m);
      MatchedObserves(rt, p, world, n, m);
    }
  }
}
