/** What C2 makes is what the assembler and the virtual machine ask for. */
module C4Fit {
  import opened Ir
  import opened Correspond
  import Cfg
  import opened Layout
  import opened Linear
  import opened Recode
  import opened Texts
  import Rename
  import opened Generate
  import C2
  import opened LifeInterval
  import opened RegAlloc
  import opened RegAllocSim
  import opened Bytes
  import opened Vm
  import opened Lower
  import Ant
  import C0
  import opened C0Nodes

  // ----- control does not run off the end -----

  predicate EndsThere<N>(item: Item<N>) { item.Halt? || item.Ret? || item.Br? }

  lemma LastOfEmitted(p: Plan, node: Cfg.Node)
    requires Cfg.Ends(node)
    ensures var e := EmitNode(p, false, node); e != [] && EndsThere(e[|e|-1])
  {
  }

  lemma OrderNotEmpty(p: Plan)
    requires Planned(p)
    ensures p.row.order != []
  {
  }

  /** The last block of a row keeps its jump. */
  lemma ItemsClose(p: Plan)
    requires Planned(p)
    ensures Closes(Items(p))
  {
    hide EmitNode, EmitNodes, EmitRow, Cfg.SearchOrder, Named, Labelled;
    var n := |p.row.order|;
    assert n > 0 by { OrderNotEmpty(p); }
    var k := n - 1;
    assert !p.row.cancelled[k];
    assert Cfg.Finished(BlockAt(p, k));
    var nodes := BlockAt(p, k);
    LastOfEmitted(p, nodes[|nodes|-1]);
    LastOfNodes(p, nodes);
    RowStep(p, k);
  }

  lemma LastOfNodes(p: Plan, nodes: seq<Cfg.Node>)
    requires nodes != [] && var e := EmitNode(p, false, nodes[|nodes|-1]); e != [] && EndsThere(e[|e|-1])
    ensures var e := EmitNodes(p, false, nodes); e != [] && EndsThere(e[|e|-1])
  {
    hide EmitNode;
  }

  // ----- labels -----

  lemma RenamedUnique<N>(f: seq<Item<N>>)
    requires UniqueLabels(f)
    ensures UniqueLabels(Rename.Renamed(f))
  {
    hide Rename.LabelNumbers, Rename.VarNumbers;
    Rename.LabelNumbersBijective(f);
    var g := Rename.Renamed(f);
    forall i, j | 0 <= i < |g| && 0 <= j < |g| && g[i].Label? && g[j].Label? && g[i].lbl == g[j].lbl ensures i == j {
      assert f[i].Label? && f[j].Label?;
      assert f[i].lbl in Rename.RelabelledLabels(f[i]) && f[j].lbl in Rename.RelabelledLabels(f[j]);
    }
  }

  lemma InternedKinds(ids: Ids, item: Item<Cfg.Text>)
    ensures InternedItem(ids, item).Label? <==> item.Label?
    ensures item.Label? ==> InternedItem(ids, item).lbl == item.lbl
    ensures EndsThere(InternedItem(ids, item)) <==> EndsThere(item)
  {
  }

  lemma RenamedEnds<N>(vars: map<nat, nat>, labels: map<nat, nat>, item: Item<N>)
    ensures EndsThere(Rename.RenameItem(vars, labels, item)) <==> EndsThere(item)
  {
  }

  lemma CodeShape(ids: Ids, g: Cfg.Graph, entry: nat, p: Plan, code: seq<Item<nat>>)
    requires CodeOf(ids, g, entry, p, code)
    ensures UniqueLabels(code) && Closes(code)
  {
    hide Items, Planned, Rename.RenameItem, MapTextItem, Rename.VarNumbers, Rename.LabelNumbers;
    C2.CodeFacts(ids, g, entry, p, code);
    C2.LabelsAreUnique(p);
    ItemsClose(p);
    var f := Interned(ids, Items(p));
    forall q | 0 <= q < |f|
      ensures (f[q].Label? <==> Items(p)[q].Label?) && (f[q].Label? ==> f[q].lbl == Items(p)[q].lbl)
      ensures EndsThere(f[q]) <==> EndsThere(Items(p)[q])
    {
      InternedKinds(ids, Items(p)[q]);
    }
    assert UniqueLabels(f);
    RenamedUnique(f);
    RenamedEnds(Rename.VarNumbers(f), Rename.LabelNumbers(f), f[|f|-1]);
  }

  // ----- names and strings -----

  ghost predicate InTable(items: seq<DataItem>, kind: Texts.Kind, id: nat) {
    exists i :: 0 <= i < |items| && items[i].id == id && items[i].kind == kind
  }

  ghost predicate OpInTable(items: seq<DataItem>, op: Op<nat>) {
    && (NameOf(op).Some? ==> InTable(items, SymbolKind, NameOf(op).value))
    && (StringOf(op).Some? ==> InTable(items, StringKind, StringOf(op).value))
  }

  ghost predicate AllInTable(items: seq<DataItem>, f: seq<Item<nat>>) {
    forall p :: 0 <= p < |f| && f[p].Do? ==> OpInTable(items, f[p].op)
  }

  lemma MappedInTable(items: seq<DataItem>, reg: nat -> nat, op: Op<nat>)
    requires OpInTable(items, op)
    ensures OpInTable(items, MapOp(reg, op))
  {
    hide InTable;
  }

  lemma CollectedInTable(ids: Ids, items: seq<DataItem>, op: Op<Cfg.Text>)
    requires TableOf(ids, items) && OpCollected(ids, op)
    ensures OpInTable(items, MapText(SymbolIds(ids), StringIds(ids), op))
  {
    var r := MapText(SymbolIds(ids), StringIds(ids), op);
    if NameOf(r).Some? {
      var name := NameOf(op).value;
      var i :| 0 <= i < |items| && items[i] == DataItem(ids.symbols[name], SymbolKind, name);
    }
    if StringOf(r).Some? {
      var text := StringOf(op).value;
      var i :| 0 <= i < |items| && items[i] == DataItem(ids.strings[text], StringKind, text);
    }
  }

  lemma CodeInTable(ids: Ids, items: seq<DataItem>, g: Cfg.Graph, entry: nat, p: Plan, code: seq<Item<nat>>)
    requires CodeOf(ids, g, entry, p, code) && TableOf(ids, items) && CollectedIn(ids, g, entry)
    ensures AllInTable(items, code)
  {
    hide Items, Planned, TableOf, OpInTable, MapText, MapOp, Rename.VarNumbers, Rename.LabelNumbers, OpCollected;
    C2.CodeFacts(ids, g, entry, p, code);
    C2.EmittedCollected(p, ids);
    var f := Interned(ids, Items(p));
    forall q | 0 <= q < |code| && code[q].Do? ensures OpInTable(items, code[q].op) {
      assert Items(p)[q].Do? && ItemCollected(ids, Items(p)[q]);
      CollectedInTable(ids, items, Items(p)[q].op);
      MappedInTable(items, (v: nat) => Rename.Look(Rename.VarNumbers(f), v), f[q].op);
    }
  }

  lemma OnRegistersInTable(items: seq<DataItem>, f: seq<Item<nat>>, table: Table)
    requires AllInTable(items, f)
    ensures AllInTable(items, OnRegisters(f, table))
  {
    hide OpInTable, MapOp;
    forall q | 0 <= q < |f| && OnRegisters(f, table)[q].Do? ensures OpInTable(items, OnRegisters(f, table)[q].op) {
      MappedInTable(items, (v: nat) => RegisterAt(table, v, q), f[q].op);
    }
  }

  // ----- registers -----

  /** What is named at a point is alive there, so it has a register of the frame. */
  lemma RegistersInFrame(f: seq<Item<nat>>, table: Table, period: nat, regs: nat, q: nat)
    requires LabelsDefined(f) && q < |f| && regs <= TWO_8
    requires
      var lpm := IntervalsUpTo(f, |f|).0;
      Dense(lpm) && IsPeriod(lpm, period) && Allocation(lpm, table, period, regs)
    ensures InFrame(OnRegisters(f, table)[q], regs)
  {
    hide IntervalsUpTo, Dense;
    var lpm := IntervalsUpTo(f, |f|).0;
    ScanCompletes(f, |f|);
    IntervalsClosed(f, |f|);
    var reg := (v: nat) => RegisterAt(table, v, q);
    MapItemMentions(reg, f[q]);
    forall r | r in Mentions(OnRegisters(f, table)[q]) ensures r < regs {
      var i :| 0 <= i < |Mentions(f[q])| && MapVars(reg, Mentions(f[q]))[i] == r;
      var v := Mentions(f[q])[i];
      assert Names(MentionTable(f), q, v);
      LiveHasRegister(lpm, table, period, regs, v, q);
    }
  }

  lemma LiveHasRegister(lpm: Intervals, table: Table, period: nat, regs: nat, v: nat, q: nat)
    requires Dense(lpm) && IsPeriod(lpm, period) && Allocation(lpm, table, period, regs) && regs <= TWO_8
    requires v in lpm && lpm[v].start <= q <= lpm[v].end
    ensures RegisterAt(table, v, q) < regs
  {
    assert v in LiveAt(lpm, q);
  }

  // ----- kinds of items -----

  lemma PlainlyMapped<N>(nums: set<Num>, reg: nat -> nat, lab: nat -> nat, item: Item<N>)
    ensures Plainly(nums, Relabel(lab, MapItem(reg, item))) <==> Plainly(nums, item)
    ensures Plainly(nums, MapItem(reg, item)) <==> Plainly(nums, item)
  {
  }

  lemma PlainlyInterned(nums: set<Num>, ids: Ids, item: Item<Cfg.Text>)
    ensures Plainly(nums, InternedItem(ids, item)) <==> Plainly(nums, item)
  {
  }

  lemma EmittedPlainly(nums: set<Num>, p: Plan, cancelled: bool, node: Cfg.Node, j: nat)
    requires PlainNode(nums, node) && j < |EmitNode(p, cancelled, node)|
    ensures Plainly(nums, EmitNode(p, cancelled, node)[j])
  {
    if node.Plain? { PlainlyMapped(nums, (v: nat) => Var(p, v), (l: nat) => l, node.item); }
  }

  /** Items are of the kinds of the nodes they come from. */
  lemma CodePlainly(nums: set<Num>, ids: Ids, b: C0.Build, entry: nat, p: Plan, code: seq<Item<nat>>)
    requires CodeOf(ids, b.blocks, entry, p, code) && AllPlain(nums, b)
    ensures forall q :: 0 <= q < |code| ==> Plainly(nums, code[q])
  {
    hide Items, Planned, Plainly, Rename.VarNumbers, Rename.LabelNumbers, MapItem, MapTextItem, Relabel, EmitNode;
    C2.CodeFacts(ids, b.blocks, entry, p, code);
    var f := Interned(ids, Items(p));
    forall q | 0 <= q < |code| ensures Plainly(nums, code[q]) {
      var k, i, j := C2.Origin(p, q);
      if C2.ComesFrom(p, q, k, i, j) {
        assert PlainBlock(nums, b.blocks[p.row.order[k]]);
        EmittedPlainly(nums, p, p.row.cancelled[k], BlockAt(p, k)[i], j);
      } else {
        LabelPlainly(nums, LabelOf(p, p.row.order[k]));
      }
      PlainlyInterned(nums, ids, Items(p)[q]);
      PlainlyMapped(nums, (v: nat) => Rename.Look(Rename.VarNumbers(f), v),
          (l: nat) => Rename.Look(Rename.LabelNumbers(f), l), f[q]);
    }
  }

  lemma LabelPlainly(nums: set<Num>, l: nat)
    ensures Plainly<Cfg.Text>(nums, Label(l))
  {
  }

  /** All numbers are doubles that the assembler keeps. */
  ghost predicate AllKept(d: Doubles, nums: set<Num>) {
    forall num :: num in nums ==> IsDouble(d, num) && Lower.Kept(num)
  }

  /** A plain item has a handler, keeps its number, and names no function. */
  lemma PlainlyFits(d: Doubles, nums: set<Num>, item: Item<nat>)
    requires Plainly(nums, item) && AllKept(d, nums)
    ensures Ant.Handled(item) && EightBytes(item) && NumberKept(d, item) && !(item.Do? && item.op.MakeFunction?)
  {
    hide Lower.Kept;
  }
}
