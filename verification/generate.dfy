/** C2, the code generator: a function of the control-flow graph becomes a list of
    items with data ids, densely numbered temporaries and labels.
  */
module Generate {
  import opened Ir
  import Correspond
  import opened Cfg
  import Rename
  import opened Layout
  import opened Linear
  import opened Recode
  import opened Texts

  /** Every temporary a reachable node names is allocated by a reachable node. */
  ghost predicate Declared(g: Graph, entry: nat) {
    forall b: nat, i: nat, v: nat ::
      Reaches(g, entry, b) && b < |g| && i < |g[b]| && v in NodeMentions(g[b][i]) ==> Allocated(g, entry, v)
  }

  ghost predicate Allocated(g: Graph, entry: nat, v: nat) {
    exists b: nat, i: nat :: Reaches(g, entry, b) && b < |g| && i < |g[b]| && g[b][i] == Plain(Alloca(v))
  }

  /** What the generator asks of a function. */
  ghost predicate Compilable(g: Graph, entry: nat) {
    Closed(g) && entry < |g| && GraphFinished(g, entry) && Declared(g, entry)
  }

  ghost predicate CollectedIn(ids: Ids, g: Graph, entry: nat) {
    forall b: nat, i: nat :: Reaches(g, entry, b) && b < |g| && i < |g[b]| ==> NodeCollected(ids, g[b][i])
  }

  predicate NodeCollected(ids: Ids, node: Node) { node.Plain? ==> ItemCollected(ids, node.item) }

  lemma ProgramIsCollected(p: Program, ids: Ids, k: nat)
    requires IdsOfProgram(p, ids) && k < |p.functions|
    ensures CollectedIn(ids, p.functions[k].g, p.functions[k].entry)
  {
    var g, entry := p.functions[k].g, p.functions[k].entry;
    forall b: nat, i: nat | Reaches(g, entry, b) && b < |g| && i < |g[b]| ensures NodeCollected(ids, g[b][i]) {
      if g[b][i].Plain? { NodeIsCollected(p, ids, k, b, i); }
    }
  }

  /** The layout of a compilable function is a plan. */
  lemma LayoutIsPlan(p: Plan)
    requires Compilable(p.g, p.entry) && IsRow(p.g, p.entry, p.row)
    requires OneToOne(p.vars) && OneToOne(p.labels)
    requires forall x :: x in p.labels <==> x in p.row.order && Anchored(p.g, p.entry, x)
    requires forall v :: v in p.vars <==> MappedIn(p.g, p.row.order, v)
    ensures Planned(p)
  {
    forall k | 0 <= k < |p.row.order|
      ensures p.row.order[k] < |p.g| && Reaches(p.g, p.entry, p.row.order[k]) && Finished(p.g[p.row.order[k]])
    {
      SearchOrderReaches(p.g, p.entry, p.row.order, p.row.order[k]);
    }
    assert WellShaped(p);
    forall k, i | 0 <= k < |p.row.order| && 0 <= i < |BlockAt(p, k)| ensures NamesAll(p.vars, BlockAt(p, k)[i]) {
      forall v: nat | v in NodeMentions(BlockAt(p, k)[i]) ensures v in p.vars {
        assert Allocated(p.g, p.entry, v);
        AllocatedIsMapped(p.g, p.entry, p.row.order, v);
      }
    }
  }

  lemma AllocatedIsMapped(g: Graph, entry: nat, order: seq<nat>, v: nat)
    requires SearchOrder(g, entry, order) && Allocated(g, entry, v)
    ensures MappedIn(g, order, v)
  {
    var b: nat, i: nat :| Reaches(g, entry, b) && b < |g| && i < |g[b]| && g[b][i] == Plain(Alloca(v));
    SearchOrderReaches(g, entry, order, b);
    assert v in Mapped(g[b][i]);
  }

  /** For every finished graph and every row of it, under any numbers that tell its
      temporaries and labels apart, the list shows what the graph shows. */
  lemma RowPreservesMeaning(rt: Runtime<Text>, p: Plan, world: World, o: Observation)
    requires GraphFinished(p.g, p.entry) && IsRow(p.g, p.entry, p.row) && OneToOne(p.vars) && OneToOne(p.labels)
    requires forall x :: x in p.row.order && Anchored(p.g, p.entry, x) ==> x in p.labels
    requires forall b: nat, i: nat :: Reaches(p.g, p.entry, b) && b < |p.g| && i < |p.g[b]| ==>
        NamesAll(p.vars, p.g[b][i])
    ensures WellShaped(p)
    ensures Cfg.Shows(rt, p.g, p.entry, world, o) <==> Correspond.Shows(rt, Items(p), world, o)
  {
    hide *;
    RowIsPlanned(p);
    LinearisationPreservesMeaning(rt, p, world, o);
  }

  lemma RowIsPlanned(p: Plan)
    requires GraphFinished(p.g, p.entry) && IsRow(p.g, p.entry, p.row) && OneToOne(p.vars) && OneToOne(p.labels)
    requires forall x :: x in p.row.order && Anchored(p.g, p.entry, x) ==> x in p.labels
    requires forall b: nat, i: nat :: Reaches(p.g, p.entry, b) && b < |p.g| && i < |p.g[b]| ==>
        NamesAll(p.vars, p.g[b][i])
    ensures WellShaped(p) && Planned(p)
  {
    hide Reaches, Finished, Anchored, InPlace, NamesAll, SearchOrder;
    forall k | 0 <= k < |p.row.order|
      ensures p.row.order[k] < |p.g| && Reaches(p.g, p.entry, p.row.order[k]) && Finished(p.g[p.row.order[k]])
    {
      SearchOrderReaches(p.g, p.entry, p.row.order, p.row.order[k]);
    }
  }

  // ----- generating items -----

  lemma InternedJoin(ids: Ids, f: seq<Item<Text>>, h: seq<Item<Text>>)
    ensures Interned(ids, f + h) == Interned(ids, f) + Interned(ids, h)
  {
  }

  /** Every lookup the generator makes for a node succeeds. */
  ghost predicate Findable(p: Plan, ids: Ids, cancelled: bool, node: Node) {
    && NamesAll(p.vars, node) && NodeCollected(ids, node)
    && (node.Jump? && !cancelled ==> node.dest in p.labels)
    && (node.Branch? ==> node.onTrue in p.labels && (!cancelled ==> node.onFalse in p.labels))
  }

  method FindLabel(irb: IrBuilder, b: nat) returns (l: nat)
    requires b in irb.labels
    ensures l == Rename.Look(irb.labels, b)
  {
    l := irb.labels[b];
  }

  method FindVar(irb: IrBuilder, v: nat) returns (r: nat)
    requires v in irb.vars
    ensures r == Rename.Look(irb.vars, v)
  {
    r := irb.vars[v];
  }

  /** `xjs_c2_gen_ir_single` */
  method GenSingle(irb: IrBuilder, ids: Ids, node: Node, cancelled: bool, ghost p: Plan)
    requires p.vars == irb.vars && p.labels == irb.labels && Findable(p, ids, cancelled, node)
    modifies irb`items
    ensures irb.items == old(irb.items) + Interned(ids, EmitNode(p, cancelled, node))
  {
    match node {
      case Plain(item) =>
        var vars := irb.vars;
        irb.items := irb.items + [InternedItem(ids, MapItem((v: nat) => Rename.Look(vars, v), item))];
        assert MapItem((v: nat) => Rename.Look(vars, v), item) == MapItem((v: nat) => Var(p, v), item) by {
          SameNumbering(p, vars, item);
        }
      case Jump(d) =>
        if !cancelled {
          var l := FindLabel(irb, d);
          irb.items := irb.items + [Br(l)];
        }
      case Branch(c, t, f) =>
        assert c in NodeMentions(node);
        var cond := FindVar(irb, c);
        var l := FindLabel(irb, t);
        irb.items := irb.items + [BrCond(cond, l)];
        if !cancelled {
          var l' := FindLabel(irb, f);
          irb.items := irb.items + [Br(l')];
        }
    }
  }

  lemma SameNumbering(p: Plan, vars: map<nat, nat>, item: Item<Text>)
    requires p.vars == vars
    ensures MapItem((v: nat) => Rename.Look(vars, v), item) == MapItem((v: nat) => Var(p, v), item)
  {
    if item.Do? { SameMapping((v: nat) => Rename.Look(vars, v), (v: nat) => Var(p, v), item.op); }
  }

  lemma SameMapping(f: nat -> nat, h: nat -> nat, op: Op<Text>)
    requires forall v: nat :: f(v) == h(v)
    ensures MapOp(f, op) == MapOp(h, op)
  {
    if op.Call? || op.New? { SameVars(f, h, op.args); }
    hide Ir.MapVars;
  }

  lemma SameVars(f: nat -> nat, h: nat -> nat, vs: seq<nat>)
    requires forall v: nat :: f(v) == h(v)
    ensures Ir.MapVars(f, vs) == Ir.MapVars(h, vs)
  {
  }

  /** `xjs_c2_gen_ir_block` */
  method GenBlock(irb: IrBuilder, ids: Ids, b: nat, nodes: seq<Node>, anchor: bool, cancelled: bool, ghost p: Plan)
    requires p.vars == irb.vars && p.labels == irb.labels
    requires anchor ==> b in irb.labels
    requires forall i :: 0 <= i < |nodes| ==> Findable(p, ids, cancelled, nodes[i])
    modifies irb`items
    ensures irb.items == old(irb.items) + Interned(ids, (if anchor then [Label(LabelOf(p, b))] else []) +
        EmitNodes(p, cancelled, nodes))
  {
    hide EmitNode, Findable, Interned;
    ghost var head: seq<Item<Text>> := if anchor then [Label(LabelOf(p, b))] else [];
    NothingInterned(ids);
    if anchor {
      var l := FindLabel(irb, b);
      irb.items := irb.items + [Label(l)];
      LabelInterned(ids, l);
    }
    assert irb.items == old(irb.items) + Interned(ids, head);
    var i := 0;
    while i < |nodes|
      invariant 0 <= i <= |nodes|
      invariant irb.items == old(irb.items) + Interned(ids, head) + Interned(ids, EmitNodes(p, cancelled, nodes[..i]))
    {
      GenSingle(irb, ids, nodes[i], cancelled, p);
      InternedJoin(ids, EmitNodes(p, cancelled, nodes[..i]), EmitNode(p, cancelled, nodes[i]));
      assert nodes[..i+1][..i] == nodes[..i];
      i := i + 1;
    }
    assert nodes[..|nodes|] == nodes;
    InternedJoin(ids, head, EmitNodes(p, cancelled, nodes));
  }

  lemma NothingInterned(ids: Ids)
    ensures Interned(ids, []) == []
  {
  }

  lemma LabelInterned(ids: Ids, l: nat)
    ensures Interned(ids, [Label(l)]) == [Label(l)]
  {
  }

  /** In a plan every lookup succeeds. */
  lemma BlockIsFindable(p: Plan, ids: Ids, k: nat)
    requires Planned(p) && CollectedIn(ids, p.g, p.entry) && k < |p.row.order|
    requires forall x :: x in p.labels <==> x in p.row.order && Anchored(p.g, p.entry, x)
    ensures forall i :: 0 <= i < |BlockAt(p, k)| ==> Findable(p, ids, p.row.cancelled[k], BlockAt(p, k)[i])
    ensures p.row.labelled[k] ==> p.row.order[k] in p.labels
  {
    var b := p.row.order[k];
    SearchOrderReaches(p.g, p.entry, p.row.order, b);
    forall i: nat | i < |BlockAt(p, k)| ensures Findable(p, ids, p.row.cancelled[k], BlockAt(p, k)[i]) {
      assert NodeCollected(ids, p.g[b][i]);
      forall x | x in Targets(p.g[b][i]) ensures x in p.labels {
        assert Edge(p.g, b, x);
        assert Anchored(p.g, p.entry, x);
      }
    }
  }

  /** `xjs_c2_gen_ir`, without the renaming. */
  method GenItems(irb: IrBuilder, ids: Ids, g: Graph, entry: nat, blocks: seq<LinearBlock>, ghost p: Plan)
    requires p == Plan(g, entry, RowOf(blocks), irb.vars, irb.labels)
    requires Planned(p) && CollectedIn(ids, g, entry)
    requires forall x :: x in p.labels <==> x in p.row.order && Anchored(p.g, p.entry, x)
    requires irb.items == []
    modifies irb`items
    ensures WellShaped(p) && irb.items == Interned(ids, Items(p))
  {
    hide EmitRow, EmitBlock, EmitNodes, Interned, Planned, CollectedIn, Findable;
    PlannedIsShaped(p);
    NothingInterned(ids);
    RowBegins(p);
    var k := 0;
    while k < |blocks|
      invariant 0 <= k <= |blocks|
      invariant irb.items == Interned(ids, EmitRow(p, k))
    {
      BlockIsFindable(p, ids, k);
      BlockIsEmitted(p, k);
      PlacedInGraph(p, k);
      assert p.row.cancelled[k] == blocks[k].cancelJump && p.row.labelled[k] == blocks[k].enabled;
      assert BlockAt(p, k) == g[blocks[k].node];
      GenBlock(irb, ids, blocks[k].node, g[blocks[k].node], blocks[k].enabled, blocks[k].cancelJump, p);
      RowStep(p, k);
      InternedJoin(ids, EmitRow(p, k), EmitBlock(p, k));
      k := k + 1;
    }
  }

  lemma RowBegins(p: Plan)
    requires WellShaped(p)
    ensures EmitRow(p, 0) == []
  {
  }

  lemma PlacedInGraph(p: Plan, k: nat)
    requires Planned(p) && k < |p.row.order|
    ensures p.row.order[k] < |p.g|
  {
  }

  lemma BlockIsEmitted(p: Plan, k: nat)
    requires WellShaped(p) && k < |p.row.order|
    ensures EmitBlock(p, k) == (if p.row.labelled[k] then [Label(LabelOf(p, p.row.order[k]))] else [])
      + EmitNodes(p, p.row.cancelled[k], p.g[p.row.order[k]])
  {
  }

  // ----- a whole function -----

  /** The items are those of the function under some plan, interned and renamed. */
  ghost predicate CodeOf(ids: Ids, g: Graph, entry: nat, p: Plan, items: seq<Item<nat>>) {
    && p.g == g && p.entry == entry && Planned(p)
    && items == Rename.Renamed(Interned(ids, Items(p)))
  }

  /** `xjs_c2_write_text_section_func` */
  method WriteFunction(ids: Ids, g: Graph, entry: nat) returns (items: seq<Item<nat>>, ok: bool, ghost p: Plan)
    requires Compilable(g, entry) && CollectedIn(ids, g, entry)
    ensures ok && CodeOf(ids, g, entry, p, items)
  {
    hide Planned, Interned, Compilable, IsRow, CollectedIn;
    CompilableFacts(g, entry);
    var irb := new IrBuilder();
    var blocks;
    blocks, ok := Extract(g, entry, irb);
    p := Plan(g, entry, RowOf(blocks), irb.vars, irb.labels);
    LayoutIsPlan(p);
    GenItems(irb, ids, g, entry, blocks, p);
    var f := new Rename.IrFunction(irb.items);
    f.Rename();
    items := f.items;
  }

  lemma CompilableFacts(g: Graph, entry: nat)
    requires Compilable(g, entry)
    ensures Closed(g) && entry < |g| && GraphFinished(g, entry)
  {
  }
}
