/** C2 as a whole: what a function of the control-flow graph shows, its items show;
    and what the items are fit for.
  */
module C2 {
  import opened Ir
  import opened Correspond
  import Cfg
  import opened LifeInterval
  import RegAlloc
  import Rename
  import opened Layout
  import opened Linear
  import opened Recode
  import opened Texts
  import opened Generate

  // ----- where an item comes from -----

  lemma {:induction false} RowOrigin(p: Plan, n: nat, q: nat) returns (k: nat)
    requires WellShaped(p) && n <= |p.row.order| && q < Offset(p, n)
    ensures k < n && Offset(p, k) <= q < Offset(p, k + 1)
  {
    if q < Offset(p, n - 1) {
      k := RowOrigin(p, n - 1, q);
    } else {
      k := n - 1;
    }
  }

  lemma {:induction false} NodesOrigin(p: Plan, cancelled: bool, nodes: seq<Cfg.Node>, q: nat) returns (i: nat, j: nat)
    requires q < |EmitNodes(p, cancelled, nodes)|
    ensures i < |nodes| && j < |EmitNode(p, cancelled, nodes[i])|
    ensures q == |EmitNodes(p, cancelled, nodes[..i])| + j
  {
    var most := nodes[..|nodes|-1];
    if q < |EmitNodes(p, cancelled, most)| {
      i, j := NodesOrigin(p, cancelled, most, q);
      assert most[..i] == nodes[..i];
    } else {
      i, j := |nodes| - 1, q - |EmitNodes(p, cancelled, most)|;
    }
  }

  /** The item at `q` is the label of block `k`, or item `j` of its node `i`. */
  ghost predicate ComesFrom(p: Plan, q: nat, k: nat, i: nat, j: nat)
    requires WellShaped(p) && q < |Items(p)|
  {
    && k < |p.row.order| && i < |BlockAt(p, k)|
    && j < |EmitNode(p, p.row.cancelled[k], BlockAt(p, k)[i])|
    && q == At(p, k, i) + j
    && Items(p)[q] == EmitNode(p, p.row.cancelled[k], BlockAt(p, k)[i])[j]
  }

  ghost predicate IsLabelOf(p: Plan, q: nat, k: nat)
    requires WellShaped(p) && q < |Items(p)|
  {
    k < |p.row.order| && p.row.labelled[k] && q == Offset(p, k) && Items(p)[q] == Label(LabelOf(p, p.row.order[k]))
  }

  lemma Origin(p: Plan, q: nat) returns (k: nat, i: nat, j: nat)
    requires WellShaped(p) && q < |Items(p)|
    ensures IsLabelOf(p, q, k) || ComesFrom(p, q, k, i, j)
  {
    hide EmitNode, EmitNodes, EmitRow, EmitBlock;
    k := RowOrigin(p, |p.row.order|, q);
    i, j := 0, 0;
    if p.row.labelled[k] && q == Offset(p, k) {
      LabelPlace(p, k);
    } else {
      NodesInBlock(p, k);
      BlockPlace(p, k);
      var start := Offset(p, k) + if p.row.labelled[k] then 1 else 0;
      i, j := NodesOrigin(p, p.row.cancelled[k], BlockAt(p, k), q - start);
      NodeItem(p, k, i, j);
    }
  }

  // ----- what the items are fit for -----

  lemma EmittedCollected(p: Plan, ids: Ids)
    requires Planned(p) && CollectedIn(ids, p.g, p.entry)
    ensures Collected(ids, Items(p))
  {
    forall q | 0 <= q < |Items(p)| ensures ItemCollected(ids, Items(p)[q]) {
      var k, i, j := Origin(p, q);
      if ComesFrom(p, q, k, i, j) {
        Cfg.SearchOrderReaches(p.g, p.entry, p.row.order, p.row.order[k]);
        assert NodeCollected(ids, BlockAt(p, k)[i]);
        EmitCollected(p, ids, p.row.cancelled[k], BlockAt(p, k)[i], j);
      }
    }
  }

  lemma EmitCollected(p: Plan, ids: Ids, cancelled: bool, node: Cfg.Node, j: nat)
    requires NodeCollected(ids, node) && j < |EmitNode(p, cancelled, node)|
    ensures ItemCollected(ids, EmitNode(p, cancelled, node)[j])
  {
    if node.Plain? && node.item.Do? { MapKeepsText((v: nat) => Var(p, v), node.item.op); }
  }

  lemma MapKeepsText(f: nat -> nat, op: Op<Cfg.Text>)
    ensures NameOf(MapOp(f, op)) == NameOf(op) && StringOf(MapOp(f, op)) == StringOf(op)
  {
  }

  /** No two labels are the same. */
  lemma LabelsAreUnique(p: Plan)
    requires Planned(p)
    ensures UniqueLabels(Items(p))
  {
    forall q, q' | 0 <= q < |Items(p)| && 0 <= q' < |Items(p)|
                   && Items(p)[q].Label? && Items(p)[q'].Label? && Items(p)[q].lbl == Items(p)[q'].lbl
      ensures q == q'
    {
      var k := LabelOrigin(p, q);
      var k' := LabelOrigin(p, q');
      assert p.row.order[k] in p.labels && p.row.order[k'] in p.labels;
    }
  }

  lemma LabelOrigin(p: Plan, q: nat) returns (k: nat)
    requires Planned(p) && q < |Items(p)| && Items(p)[q].Label?
    ensures IsLabelOf(p, q, k)
  {
    hide EmitRow, EmitBlock, EmitNodes, IsRow, MapItem;
    var i, j;
    k, i, j := Origin(p, q);
    if ComesFrom(p, q, k, i, j) {
      assert Cfg.Finished(BlockAt(p, k));
      assert BlockAt(p, k)[i].Plain? ==> Cfg.PlainItem(BlockAt(p, k)[i].item);
      if BlockAt(p, k)[i].Plain? { MapKeepsLabels((v: nat) => Var(p, v), BlockAt(p, k)[i].item); }
      assert false;
    }
  }

  lemma MapKeepsLabels(f: nat -> nat, item: Item<Cfg.Text>)
    ensures MapItem(f, item).Label? == item.Label?
  {
  }

  /** Every branch names a label of the list. */
  lemma LabelsAreDefined(p: Plan)
    requires Planned(p)
    ensures LabelsDefined(Items(p))
  {
    forall q | 0 <= q < |Items(p)| && BranchTarget(Items(p)[q]).Some?
      ensures BranchTarget(Items(p)[q]).value in LabelPoints(Items(p))
    {
      BranchIsDefined(p, q);
    }
  }

  /** Every emitted branch finds its label, and only one: the item of that label stands
      in the list exactly once. */
  lemma BranchFindsOneLabel(p: Plan, q: nat)
    requires Planned(p) && q < |Items(p)| && BranchTarget(Items(p)[q]).Some?
    ensures exists r :: 0 <= r < |Items(p)| && OnlyLabel(Items(p), r, BranchTarget(Items(p)[q]).value)
  {
    hide EmitRow, Planned;
    PlannedIsShaped(p);
    var l := BranchTarget(Items(p)[q]).value;
    BranchIsDefined(p, q);
    LabelsAreUnique(p);
    LabelPointsSound(Items(p), l);
    assert OnlyLabel(Items(p), LabelPoints(Items(p))[l], l);
  }

  /** Every label that stands in the list is branched to. */
  lemma LabelsAreNeeded(p: Plan, q: nat)
    requires Planned(p) && q < |Items(p)| && Items(p)[q].Label?
    ensures exists r :: 0 <= r < |Items(p)| && BranchTarget(Items(p)[r]) == Some(Items(p)[q].lbl)
  {
    hide Items, At, Labelled, InPlace, Named, BlockAt, Cfg.SearchOrder;
    var k := LabelOrigin(p, q);
    forall j | 0 <= j < |p.row.order| ensures p.row.order[j] < |p.g| && Cfg.Finished(p.g[p.row.order[j]]) {
      BlockIsFinished(p, j);
    }
    var j, i, onTrue := LabelIsNeeded(p.g, p.entry, p.row, k);
    var r := ArmItem(p, j, i, onTrue);
  }

  lemma BlockIsFinished(p: Plan, j: nat)
    requires Planned(p) && j < |p.row.order|
    ensures p.row.order[j] < |p.g| && Cfg.Finished(p.g[p.row.order[j]])
  {
    hide IsRow, Named, Cfg.Finished;
    assert Cfg.Finished(BlockAt(p, j));
  }

  /** A jump or a branch that is kept is a branch of the list. */
  lemma ArmItem(p: Plan, j: nat, i: nat, onTrue: bool) returns (r: nat)
    requires Planned(p) && j < |p.row.order| && Emitted(p.g, p.row.order, j, i, onTrue)
    ensures r < |Items(p)|
    ensures BranchTarget(Items(p)[r]) == Some(LabelOf(p, ArmTarget(p.g, Arm(p.row.order[j], i, onTrue))))
  {
    hide Items, At, Labelled, InPlace, Named, Cfg.SearchOrder;
    var node := BlockAt(p, j)[i];
    var n := if node.Branch? && !onTrue then 1 else 0;
    NodeItem(p, j, i, n);
    r := At(p, j, i) + n;
  }

  /** No jump leads to the label that stands right behind it. */
  lemma NoJumpToNext(p: Plan, q: nat, l: nat)
    requires Planned(p) && q + 1 < |Items(p)| && Items(p)[q] == Br(l)
    ensures Items(p)[q+1] != Label(l)
  {
    hide EmitRow, EmitBlock, EmitNodes, InPlace, Labelled;
    var k, i, j := Origin(p, q);
    assert ComesFrom(p, q, k, i, j);
    LastJump(p, q, k, i, j, l);
    var x := if BlockAt(p, k)[i].Jump? then BlockAt(p, k)[i].dest else BlockAt(p, k)[i].onFalse;
    if k + 1 < |p.row.order| {
      if !p.row.labelled[k+1] {
        UnlabelledFollows(p.g, p.entry, p.row, k + 1);
        assert false;
      }
      LabelPlace(p, k + 1);
      var y := ArmPlaced(p, k, i, BlockAt(p, k)[i].Jump?);
      PositionIs(p.row.order, x);
      GoesElsewhere(p, k, i);
      assert p.row.order[k+1] in p.labels && x in p.labels;
    }
  }

  /** A jump of the list is the last item of a block whose last jump is not cancelled. */
  lemma LastJump(p: Plan, q: nat, k: nat, i: nat, j: nat, l: nat)
    requires Planned(p) && q < |Items(p)| && ComesFrom(p, q, k, i, j) && Items(p)[q] == Br(l)
    ensures !p.row.cancelled[k] && i == |BlockAt(p, k)| - 1 && q + 1 == Offset(p, k + 1)
    ensures (BlockAt(p, k)[i].Jump? && l == LabelOf(p, BlockAt(p, k)[i].dest))
      || (BlockAt(p, k)[i].Branch? && l == LabelOf(p, BlockAt(p, k)[i].onFalse))
  {
    hide EmitRow, EmitBlock, EmitNodes, IsRow, Named, Items, At, Offset;
    BlockIsFinished(p, k);
    var node := BlockAt(p, k)[i];
    if node.Plain? {
      assert Cfg.PlainItem(node.item);
      PlainIsNoJump((v: nat) => Var(p, v), node.item);
      assert false;
    }
    NodePlace(p, k, i);
    BlockEnd(p, k);
  }

  lemma PlainIsNoJump(f: nat -> nat, item: Item<Cfg.Text>)
    requires Cfg.PlainItem(item)
    ensures !MapItem(f, item).Br?
  {
  }

  /** A jump that is not cancelled does not lead to the block placed next. */
  lemma GoesElsewhere(p: Plan, k: nat, i: nat)
    requires Planned(p) && k + 1 < |p.row.order| && !p.row.cancelled[k] && i == |BlockAt(p, k)| - 1
    ensures BlockAt(p, k)[i].Jump? ==> BlockAt(p, k)[i].dest != p.row.order[k+1]
    ensures BlockAt(p, k)[i].Branch? ==> BlockAt(p, k)[i].onFalse != p.row.order[k+1]
  {
    assert !InPlace(p.g, p.row.order, k);
  }

  ghost predicate OnlyLabel(f: seq<Item<Cfg.Text>>, r: nat, l: nat)
    requires r < |f|
  {
    f[r] == Label(l) && forall q :: 0 <= q < |f| && f[q] == Label(l) ==> q == r
  }

  lemma BranchIsDefined(p: Plan, q: nat)
    requires Planned(p) && q < |Items(p)| && BranchTarget(Items(p)[q]).Some?
    ensures BranchTarget(Items(p)[q]).value in LabelPoints(Items(p))
  {
    hide EmitRow, EmitBlock, EmitNodes, LabelPoints, IsRow;
    var k, i, j := Origin(p, q);
    assert ComesFrom(p, q, k, i, j);
    var node, cancelled := BlockAt(p, k)[i], p.row.cancelled[k];
    assert Cfg.Finished(BlockAt(p, k));
    assert node.Plain? ==> Cfg.PlainItem(node.item);
    var onTrue := node.Jump? || j == 0;
    var x := ArmPlaced(p, k, i, onTrue);
    RowLabelPoints(p, |p.row.order|, Cfg.Position(p.row.order, x));
  }

  /** The generated numbers of all temporaries are allocated by the items. */
  lemma EmittedAllocated(p: Plan, q: nat, v: nat)
    requires Planned(p) && Declared(p.g, p.entry) && q < |Items(p)| && v in Mentions(Items(p)[q])
    ensures Alloca(v) in Items(p)
  {
    hide EmitRow, EmitBlock, EmitNodes, IsRow, Cfg.Reaches, Allocated;
    var k, i, j := Origin(p, q);
    assert ComesFrom(p, q, k, i, j);
    var node := BlockAt(p, k)[i];
    var w := EmitMentions(p, p.row.cancelled[k], node, j, v);
    BlockIsReached(p, k);
    assert Allocated(p.g, p.entry, w);
    AllocatedIsEmitted(p, w);
  }

  lemma AllocatedIsEmitted(p: Plan, w: nat)
    requires Planned(p) && Allocated(p.g, p.entry, w)
    ensures Alloca(Var(p, w)) in Items(p)
  {
    hide EmitRow, EmitBlock, EmitNodes, IsRow, Cfg.Reaches;
    var b: nat, i: nat :| Cfg.Reaches(p.g, p.entry, b) && b < |p.g| && i < |p.g[b]| &&
        p.g[b][i] == Cfg.Plain(Alloca(w));
    ReachedIsPlaced(p, b);
    NodeItem(p, Cfg.Position(p.row.order, b), i, 0);
  }

  lemma BlockIsReached(p: Plan, k: nat)
    requires Planned(p) && k < |p.row.order|
    ensures Cfg.Reaches(p.g, p.entry, p.row.order[k]) && p.row.order[k] < |p.g|
  {
    Cfg.SearchOrderReaches(p.g, p.entry, p.row.order, p.row.order[k]);
  }

  lemma ReachedIsPlaced(p: Plan, b: nat)
    requires Planned(p) && Cfg.Reaches(p.g, p.entry, b)
    ensures b in p.row.order
  {
    Cfg.SearchOrderReaches(p.g, p.entry, p.row.order, b);
  }

  lemma EmitMentions(p: Plan, cancelled: bool, node: Cfg.Node, j: nat, v: nat) returns (w: nat)
    requires j < |EmitNode(p, cancelled, node)| && v in Mentions(EmitNode(p, cancelled, node)[j])
    ensures w in Cfg.NodeMentions(node) && v == Var(p, w)
  {
    match node
    case Plain(item) =>
      MapItemMentions((v: nat) => Var(p, v), item);
      var m := Mentions(MapItem((v: nat) => Var(p, v), item));
      var i :| 0 <= i < |m| && m[i] == v;
      w := Mentions(item)[i];
    case Branch(c, _, _) => w := c;
    case Jump(_) => assert false;
  }

  // ----- the same, of the interned items -----

  lemma InternedMentions(ids: Ids, item: Item<Cfg.Text>)
    ensures Mentions(InternedItem(ids, item)) == Mentions(item)
    ensures BranchTarget(InternedItem(ids, item)) == BranchTarget(item)
  {
  }

  lemma AllocatedIsNumbered<N>(f: seq<Item<N>>, i: nat, v: nat)
    requires i < |f| && f[i] == Alloca(v)
    ensures v in Rename.VarNumbers(f)
  {
    assert v in Rename.Renumbered(f[i]);
    Rename.VarNumbersBijective(f);
  }

  /** The bound `this` of a call is allocated, as the renaming asks. */
  lemma BoundIsNamed(p: Plan, ids: Ids)
    requires Planned(p) && Declared(p.g, p.entry)
    ensures Rename.ThisIsNamed(Interned(ids, Items(p)))
  {
    hide Items, Planned, Declared, Rename.VarNumbers;
    PlannedIsShaped(p);
    var f := Interned(ids, Items(p));
    forall q | 0 <= q < |f| && f[q].Do? && f[q].op.Call? && f[q].op.bound.Some?
      ensures f[q].op.bound.value in Rename.VarNumbers(f)
    {
      var v := f[q].op.bound.value;
      InternedMentions(ids, Items(p)[q]);
      assert v in Mentions(f[q]);
      EmittedAllocated(p, q, v);
      var i :| 0 <= i < |Items(p)| && Items(p)[i] == Alloca(v);
      AllocatedIsNumbered(f, i, v);
    }
  }

  lemma InternedLabelsDefined(p: Plan, ids: Ids)
    requires Planned(p)
    ensures LabelsDefined(Interned(ids, Items(p)))
  {
    hide LabelPoints, Items;
    LabelsAreDefined(p);
    RecodedLabelPoints(SymbolIds(ids), StringIds(ids), Items(p));
    forall q | 0 <= q < |Items(p)| ensures BranchTarget(Interned(ids, Items(p))[q]) == BranchTarget(Items(p)[q]) {
      InternedMentions(ids, Items(p)[q]);
    }
  }

  lemma CodeFacts(ids: Ids, g: Cfg.Graph, entry: nat, p: Plan, code: seq<Item<nat>>)
    requires CodeOf(ids, g, entry, p, code)
    ensures p.g == g && p.entry == entry && Planned(p) && WellShaped(p)
    ensures code == Rename.Renamed(Interned(ids, Items(p)))
  {
  }

  /** What C2 makes meets the demands of the register scheduler. */
  lemma C2FitsScheduler(ids: Ids, g: Cfg.Graph, entry: nat, p: Plan, code: seq<Item<nat>>)
    requires CodeOf(ids, g, entry, p, code) && Declared(g, entry)
    ensures LabelsDefined(code)
    ensures RegAlloc.Dense(IntervalsUpTo(code, |code|).0)
  {
    CodeFacts(ids, g, entry, p, code);
    hide *;
    InternedLabelsDefined(p, ids);
    BoundIsNamed(p, ids);
    Rename.RenamedLabelsDefined(Interned(ids, Items(p)));
    Rename.RenamedIsDense(Interned(ids, Items(p)));
  }

  // ----- meaning -----

  lemma InternedShows(ids: Ids, table: seq<DataItem>, rt: Runtime<Cfg.Text>, f: seq<Item<Cfg.Text>>, world: World,
      o: Observation)
    requires TableOf(ids, table) && Collected(ids, f)
    ensures Shows(rt, f, world, o) <==> Shows(WithTable(table, rt), Interned(ids, f), world, o)
  {
    forall n: nat
      ensures After(WithTable(table, rt), Interned(ids, f), world, n) == After(rt, f, world, n)
    {
      InterningPreservesMeaning(ids, table, rt, f, world, n);
    }
  }

  lemma RenamedShows<N>(rt: Runtime<N>, f: seq<Item<N>>, world: World, o: Observation)
    requires Rename.ThisIsNamed(f)
    ensures Shows(rt, f, world, o) <==> Shows(rt, Rename.Renamed(f), world, o)
  {
    forall n: nat ensures Observe(After(rt, f, world, n)) == Observe(After(rt, Rename.Renamed(f), world, n)) {
      Rename.RenamingPreservesMeaning(rt, f, world, n);
    }
  }

  /** C2 preserves meaning. */
  lemma C2PreservesMeaning(ids: Ids, table: seq<DataItem>, rt: Runtime<Cfg.Text>, g: Cfg.Graph, entry: nat, p: Plan,
                           code: seq<Item<nat>>, world: World, o: Observation)
    requires CodeOf(ids, g, entry, p, code) && Declared(g, entry)
    requires TableOf(ids, table) && CollectedIn(ids, g, entry)
    ensures Cfg.Shows(rt, g, entry, world, o) <==> Shows(WithTable(table, rt), code, world, o)
  {
    hide Items, Interned, Planned, Shows, Declared;
    LinearisationPreservesMeaning(rt, p, world, o);
    EmittedCollected(p, ids);
    InternedShows(ids, table, rt, Items(p), world, o);
    BoundIsNamed(p, ids);
    RenamedShows(WithTable(table, rt), Interned(ids, Items(p)), world, o);
  }
}
