/** The whole way: from the source of a function to the bytes of a file, and what the
    virtual machine shows of the file.
  */
module Compile {
  import opened Ir
  import opened Correspond
  import Cfg
  import opened Ast
  import C0
  import opened C0Func
  import C0Builder
  import C0Whole
  import C0Nodes
  import C0Shape
  import Scope
  import opened Texts
  import Generate
  import Layout
  import Linear
  import C2
  import InTime
  import opened LifeInterval
  import opened RegAlloc
  import opened RegAllocSim
  import opened Bytes
  import DataSection
  import opened Lower
  import opened Assemble
  import Ant
  import Vm
  import opened C4Fit
  import opened C4

  // ----- code on registers -----

  lemma RegistersShow<N>(rt: Runtime<N>, f: seq<Item<N>>, table: Table, period: nat, regs: nat, world: World,
      o: Observation)
    requires LabelsDefined(f)
    requires Dense(IntervalsUpTo(f, |f|).0) && IsPeriod(IntervalsUpTo(f, |f|).0, period)
    requires Allocation(IntervalsUpTo(f, |f|).0, table, period, regs) && regs <= 256
    requires MentionedInTime(rt, f, IntervalsUpTo(f, |f|).0, world)
    ensures Shows(rt, f, world, o) <==> Shows(rt, OnRegisters(f, table), world, o)
  {
    forall n: nat ensures Observe(After(rt, f, world, n)) == Observe(After(rt, OnRegisters(f, table), world, n)) {
      AllocationPreservesMeaning(rt, f, table, period, regs, world, n);
    }
  }

  /** `code` is what C2 makes of what C0 makes of the function. */
  ghost predicate CodeOfSource(vars: nat, f: Body, ids: Ids, items: seq<DataItem>, p: Linear.Plan,
      code: seq<Item<nat>>) {
    && Compiles(f)
    && var r := GenFunction(vars, f);
       && Generate.CodeOf(ids, r.0.blocks, r.1, p, code) && Generate.CollectedIn(ids, r.0.blocks, r.1)
       && TableOf(ids, items)
  }

  /** Whatever a function of the source ends with, its code on registers ends with,
      and with nothing else. */
  lemma CompilationPreservesMeaning(rt: Runtime<Cfg.Text>, vars: nat, f: Body, ids: Ids, items: seq<DataItem>,
      p: Linear.Plan, code: seq<Item<nat>>, table: Table, period: nat, regs: nat, w: World,
                                        o: Observation)
    requires CodeOfSource(vars, f, ids, items, p, code) && !o.status.Running?
    requires IsPeriod(IntervalsUpTo(code, |code|).0, period)
    requires Allocation(IntervalsUpTo(code, |code|).0, table, period, regs) && regs <= 256
    ensures Means(rt, Compiled, f, w, o) <==> Shows(WithTable(items, rt), OnRegisters(code, table), w, o)
  {
    SourceFacts(vars, f, ids, items, p, code);
    hide *;
    var g, entry := GenFunction(vars, f).0.blocks, GenFunction(vars, f).1;
    var lives, forks := C0Whole.FunctionScoped(vars, f);
    Demands(vars, f);
    C0PreservesMeaning(rt, vars, f, w, o);
    C2.C2PreservesMeaning(ids, items, rt, g, entry, p, code, w, o);
    InTime.CodeInTime(ids, items, rt, g, entry, p, code, lives, forks, w);
    C2.C2FitsScheduler(ids, g, entry, p, code);
    RegistersShow(WithTable(items, rt), code, table, period, regs, w, o);
  }

  lemma SourceFacts(vars: nat, f: Body, ids: Ids, items: seq<DataItem>, p: Linear.Plan, code: seq<Item<nat>>)
    requires CodeOfSource(vars, f, ids, items, p, code)
    ensures Compiles(f) && TableOf(ids, items)
    ensures var r := GenFunction(vars, f);
      Generate.CodeOf(ids, r.0.blocks, r.1, p, code) && Generate.CollectedIn(ids, r.0.blocks, r.1)
  {
  }

  lemma Demands(vars: nat, f: Body)
    requires Compiles(f)
    ensures var r := GenFunction(vars, f);
      Scope.AllFinished(r.0.blocks) && Generate.Declared(r.0.blocks, r.1) && r.0.blocks == C0Whole.GraphOf(vars, f)
  {
    hide GenFunction, Generate.Declared, Scope.AllFinished;
    C0Whole.FunctionCompilable(vars, f);
  }

  // ----- what the assembler asks -----

  /** The IR of a program of one function without parameters. */
  function OneFunction(code: seq<Item<nat>>): seq<Fn> { [Fn([], code, 0)] }

  lemma CodeFromC2(nums: set<Num>, vars: nat, f: Body, ids: Ids, items: seq<DataItem>, p: Linear.Plan,
      code: seq<Item<nat>>)
    requires CodeOfSource(vars, f, ids, items, p, code) && C0Nodes.Over(nums, f) && ONE in nums
    ensures forall q :: 0 <= q < |code| ==> C0Nodes.Plainly(nums, code[q])
    ensures UniqueLabels(code) && Vm.Closes(code) && AllInTable(items, code) && LabelsDefined(code)
    ensures Dense(IntervalsUpTo(code, |code|).0)
  {
    SourceFacts(vars, f, ids, items, p, code);
    hide *;
    var r := GenFunction(vars, f);
    C0Nodes.FunctionPlain(nums, vars, f);
    CodePlainly(nums, ids, r.0, r.1, p, code);
    CodeShape(ids, r.0.blocks, r.1, p, code);
    CodeInTable(ids, items, r.0.blocks, r.1, p, code);
    Demands(vars, f);
    C2.C2FitsScheduler(ids, r.0.blocks, r.1, p, code);
  }

  ghost predicate EightByteNumbers(nums: set<Num>) { forall num :: num in nums ==> |num.bits| == 8 }

  lemma PlainlyHandled(nums: set<Num>, item: Item<nat>)
    requires C0Nodes.Plainly(nums, item) && EightByteNumbers(nums)
    ensures Ant.Handled(item) && EightBytes(item)
  {
  }

  /** C2 and C0 together leave the assembler nothing to refuse. */
  lemma AssemblerTakes(nums: set<Num>, vars: nat, f: Body, ids: Ids, items: seq<DataItem>, p: Linear.Plan,
      code: seq<Item<nat>>)
    requires CodeOfSource(vars, f, ids, items, p, code) && C0Nodes.Over(nums, f) && ONE in nums &&
        EightByteNumbers(nums)
    ensures Ant.FromC2(code) && Ant.AllHandled(OneFunction(code), 1)
  {
    CodeFromC2(nums, vars, f, ids, items, p, code);
    hide C0Nodes.Plainly, CodeOfSource, EightByteNumbers, Dense, UniqueLabels, LabelsDefined, AllInTable, Ant.Handled,
        EightBytes;
    forall q | 0 <= q < |code| ensures Ant.Handled(code[q]) && EightBytes(code[q]) { PlainlyHandled(nums, code[q]); }
  }

  // ----- from the file back to the source -----

  /** How a file has come about. */
  ghost predicate Built(vars: nat, f: Body, ids: Ids, items: seq<DataItem>, p: Linear.Plan, code: seq<Item<nat>>,
      data: map<nat, nat>, fns: seq<Fn>) {
    && CodeOfSource(vars, f, ids, items, p, code) && Ant.Scheduled(OneFunction(code), fns)
    && DataSection.OffsetsOf(items, |items|, data)
  }

  /** The one function, on the registers of its schedule. */
  lemma BuiltSchedule(vars: nat, f: Body, ids: Ids, items: seq<DataItem>, p: Linear.Plan, code: seq<Item<nat>>,
      data: map<nat, nat>, fns: seq<Fn>)
    returns (table: Table, period: nat)
    requires Built(vars, f, ids, items, p, code, data, fns)
    ensures |fns| == 1 && fns[0].params == [] && fns[0].code == OnRegisters(code, table)
    ensures
      var lpm := IntervalsUpTo(code, |code|).0;
      IsPeriod(lpm, period) && Allocation(lpm, table, period, fns[0].regs)
  {
    hide CodeOfSource, IsPeriod, IsPeak, Allocation, IntervalsUpTo;
    assert Ant.OnSchedule(OneFunction(code)[0], fns[0]);
    table, period :| Ant.IsScheduleOf(OneFunction(code)[0], fns[0], table, period);
  }

  lemma OnRegistersKept(d: Doubles, nums: set<Num>, code: seq<Item<nat>>, table: Table, q: nat)
    requires q < |code| && C0Nodes.Plainly(nums, code[q]) && AllKept(d, nums)
    ensures var item := OnRegisters(code, table)[q];
      Ant.Handled(item) && EightBytes(item) && NumberKept(d, item) && !(item.Do? && item.op.MakeFunction?)
    ensures EndsThere(OnRegisters(code, table)[q]) <==> EndsThere(code[q])
    ensures BranchTarget(OnRegisters(code, table)[q]) == BranchTarget(code[q])
  {
    hide C0Nodes.Plainly, AllKept, NumberKept, Ant.Handled, EightBytes;
    var reg := (v: nat) => RegisterAt(table, v, q);
    PlainlyMapped(nums, reg, (l: nat) => l, code[q]);
    PlainlyFits(d, nums, MapItem(reg, code[q]));
  }

  lemma CodeRuns(d: Doubles, nums: set<Num>, items: seq<DataItem>, code: seq<Item<nat>>, fns: seq<Fn>, table: Table,
      period: nat, data: map<nat, nat>)
    requires (forall q :: 0 <= q < |code| ==> C0Nodes.Plainly(nums, code[q])) && AllKept(d, nums)
    requires Vm.Closes(code) && AllInTable(items, code) && LabelsDefined(code) && Dense(IntervalsUpTo(code, |code|).0)
    requires |fns| == 1 && fns[0].params == [] && fns[0].code == OnRegisters(code, table) && fns[0].regs < TWO_8
    requires
      var lpm := IntervalsUpTo(code, |code|).0;
      IsPeriod(lpm, period) && Allocation(lpm, table, period, fns[0].regs)
    ensures Runnable(d, items, fns, 0) && AllLowerable(data, fns)
  {
    hide C0Nodes.Plainly, AllKept, NumberKept, Ant.Handled, EightBytes, Dense, IsPeriod, Allocation, IntervalsUpTo,
        AllInTable, MapItem, EndsThere, Vm.InFrame, Vm.Closes, LabelsDefined, Lowering;
    var f := fns[0].code;
    forall q | 0 <= q < |code|
      ensures Ant.Handled(f[q]) && EightBytes(f[q]) && NumberKept(d, f[q]) && !(f[q].Do? && f[q].op.MakeFunction?)
      ensures (EndsThere(f[q]) <==> EndsThere(code[q])) && BranchTarget(f[q]) == BranchTarget(code[q]) &&
          Vm.InFrame(f[q], fns[0].regs)
      ensures !Lowering(data, fns, 0, q).Unsupported?
    {
      OnRegistersKept(d, nums, code, table, q);
      RegistersInFrame(code, table, period, fns[0].regs, q);
      HandledLowering(data, fns, 0, q);
    }
    OnRegistersInTable(items, code, table);
    OnRegistersLabels(code, table);
    SameLabels(code, f);
    EndsClose(code, f);
  }

  lemma SameLabels(a: seq<Item<nat>>, b: seq<Item<nat>>)
    requires LabelsDefined(a) && |a| == |b| && LabelPoints(b) == LabelPoints(a)
    requires forall q :: 0 <= q < |a| ==> BranchTarget(b[q]) == BranchTarget(a[q])
    ensures LabelsDefined(b)
  {
    hide LabelPoints, BranchTarget;
  }

  lemma EndsClose(a: seq<Item<nat>>, b: seq<Item<nat>>)
    requires Vm.Closes(a) && |a| == |b| && (EndsThere(b[|b|-1]) <==> EndsThere(a[|a|-1]))
    ensures Vm.Closes(b)
  {
  }

  lemma HandledLowering(data: map<nat, nat>, fns: seq<Fn>, k: nat, i: nat)
    requires k < |fns| && i < |fns[k].code| && Ant.Handled(fns[k].code[i])
    ensures !Lowering(data, fns, k, i).Unsupported?
  {
    hide LabelStart, FnOffset, NumberItem;
  }

  lemma OnRegistersLabels(code: seq<Item<nat>>, table: Table)
    ensures LabelPoints(OnRegisters(code, table)) == LabelPoints(code)
  {
    var f := OnRegisters(code, table);
    forall p | 0 <= p < |code| ensures (f[p].Label? <==> code[p].Label?) && (f[p].Label? ==> f[p] == code[p]) {
      Ant.MappedLabel((v: nat) => RegisterAt(table, v, p), code[p]);
    }
    SameLabelPoints(code, f);
  }

  lemma TableIdsDistinct(ids: Ids, items: seq<DataItem>)
    requires TableOf(ids, items)
    ensures DataSection.DistinctIds(items)
  {
  }

  /** The file of a function, loaded into the virtual machine and started, ends with
      what the source of the function ends with, and with nothing else. */
  lemma FileMeansSource(d: Doubles, rt: Runtime<Cfg.Text>, args: nat -> Value, nums: set<Num>, vars: nat, f: Body,
      ids: Ids, items: seq<DataItem>,
                        p: Linear.Plan, code: seq<Item<nat>>, data: map<nat, nat>, fns: seq<Fn>, rest: seq<seq<Byte>>,
                            w: World, o: Observation)
    requires Built(vars, f, ids, items, p, code, data, fns) && |fns| == 1 && fns[0].regs < TWO_8
    requires C0Nodes.Over(nums, f) && ONE in nums && AllKept(d, nums)
    requires RestApart(rest) && |FileOf(items, data, fns, 0, rest)| < TWO_32 && !o.status.Running?
    ensures var file := FileOf(items, data, fns, 0, rest);
      Loadable(file) && (FileShows(d, rt, args, file, fns, w, o) <==> Means(rt, Compiled, f, w, o))
  {
    var table, period := BuiltSchedule(vars, f, ids, items, p, code, data, fns);
    SourceFacts(vars, f, ids, items, p, code);
    NoStart(fns);
    assert DataSection.OffsetsOf(items, |items|, data);
    hide *;
    CodeFromC2(nums, vars, f, ids, items, p, code);
    CodeRuns(d, nums, items, code, fns, table, period, data);
    TableIdsDistinct(ids, items);
    FilePreservesMeaning(d, rt, args, items, data, fns, 0, rest, w, o);
    NoParameters(OnFile(rt, FileOf(items, data, fns, 0, rest), fns), data, args, w);
    CompilationPreservesMeaning(rt, vars, f, ids, items, p, code, table, period, fns[0].regs, w, o);
  }

  lemma NoStart(fns: seq<Fn>)
    ensures FnStart(fns, 0) == 0
  {
  }

  lemma NoParameters(rt: Runtime<nat>, data: map<nat, nat>, args: nat -> Value, w: World)
    ensures Vm.Bound(rt, data, [], args, w) == w
  {
  }

  // ----- the compiler -----

  function SpansBy(spanOf: nat -> Ant.Span, n: nat): seq<seq<Ant.Span>> { [seq(n, spanOf)] }

  /** C0, C2 and C4 in turn, for a program of one function: compilation fails exactly
      when a `break` or a `continue` stands outside of every loop.  Item `i` of the code
      comes from `spanOf(i)`. */
  method CompileFile(stmts: seq<Stmt>, toplevel: bool, exports: seq<Byte>, imports: seq<Byte>, debug: bool,
      spanOf: nat -> Ant.Span, ghost nums: set<Num>)
    returns (bytecode: array<Byte>, names: seq<Cfg.Text>, ok: bool,
             ghost ids: Ids, ghost items: seq<DataItem>, ghost p: Linear.Plan, ghost code: seq<Item<nat>>,
                 ghost data: map<nat, nat>, ghost fns: seq<Fn>)
    requires C0Nodes.Over(nums, Body([], stmts, toplevel)) && ONE in nums && EightByteNumbers(nums)
    ensures ok <==> Compiles(Body(names, stmts, toplevel))
    ensures Hoisted(Body(names, stmts, toplevel))
    ensures ok ==> Built(0, Body(names, stmts, toplevel), ids, items, p, code, data, fns) && |fns| == 1
    ensures ok ==> Ant.SpansFit(fns, SpansBy(spanOf, |code|))
    ensures ok ==>
        bytecode[..] == FileOf(items, data, fns, 0, C4.RestOf(exports, imports, debug, data, fns,
        SpansBy(spanOf, |code|)))
  {
    hide C0Nodes.StmtOver, Hoisted, GenFunction, Compiles, EightByteNumbers, FileOf, Ant.Scheduled, Ant.FromC2,
        Ant.AllHandled, DataSection.OffsetsOf,
         IdsOfProgram, TableOf, Generate.CodeOf, Generate.CollectedIn, Generate.Compilable, DataSection.DistinctIds,
             C4.RestOf;
    bytecode := new Byte[0];
    ids, items, p, code, data, fns := *, *, *, *, *, *;
    var cfgb := new C0Builder.CfgBuilder();
    var ctx := new C0Builder.Context(cfgb);
    var entry;
    ok, entry, names := C0Builder.FunctionScope(ctx, stmts, toplevel);
    if !ok { return; }
    ghost var f := Body(names, stmts, toplevel);
    var g := cfgb.blocks;
    GraphIs(f, g, entry, cfgb.varPool);
    var program := Program([Func([], g, entry)], [], []);
    var interner := new Interner();
    interner.CollectProgram(program);
    var table := interner.WriteTable();
    ids, items := interner.Table(), table;
    Generate.ProgramIsCollected(program, ids, 0);
    var ir, generated;
    ir, generated, p := Generate.WriteFunction(interner.Table(), g, entry);
    code := ir;
    assert CodeOfSource(0, f, ids, items, p, code);
    AssemblerTakes(nums, 0, f, ids, items, p, code);
    TableIdsDistinct(ids, items);
    var offsets, functions;
    bytecode, offsets, functions, ok := C4.Start(OneFunction(ir), table, 0, exports, imports, debug,
        SpansBy(spanOf, |ir|));
    data, fns := offsets, functions;
    Ant.SameCount(OneFunction(code), fns);
  }

  lemma GraphIs(f: Body, g: Cfg.Graph, entry: nat, vars: nat)
    requires Compiles(f) && GenFunction(0, f) == (C0.Build(g, vars), entry)
    ensures g == GenFunction(0, f).0.blocks && entry == GenFunction(0, f).1
    ensures Generate.Compilable(g, entry) && Cfg.Closed(g) && entry < |g|
  {
    hide GenFunction, Generate.Declared, Cfg.Finished, Layout.GraphFinished;
    C0Whole.FunctionCompilable(0, f);
  }
}
