/** The virtual machine on bytes, and the assembler's promise: running the bytes of a
    function shows what running its items shows.
  */
module Vm {
  import opened Ir
  import opened Correspond
  import opened LifeInterval
  import opened Bytes
  import opened Inst
  import opened Lower
  import opened Assemble

  /** A frame: the program counter of `s` is an offset into the text, and the
      function has `regc` registers. */
  datatype Machine = Machine(s: State, regc: nat)

  /** Where the machine finds its instructions. */
  datatype Memory = Memory(bytes: seq<Byte>, text: nat)

  function BindArg(rt: Runtime<nat>, name: nat, value: Value, w: World): World {
    rt.exec(Store(name, 0), [value], rt.exec(DeclVar(name), [], w).1).1
  }

  predicate InFrame<N>(item: Item<N>, regc: nat) { forall v :: v in Mentions(item) ==> v < regc }

  /** An item of which the operands are in the frame; the next one begins at `next`. */
  function Execute(rt: Runtime<nat>, item: Item<nat>, s: State, next: nat): State {
    match item
    case Br(dest) => s.(pc := dest)
    case BrCond(c, dest) => s.(pc := if rt.truthy(Get(rt, s.temps, c)) then dest else next)
    case _ =>
      var t := Straight(rt, item, s);
      if t.status.Running? then t.(pc := next) else t
  }

  /** `xjr_vm_step` */
  function VmStep(d: Doubles, rt: Runtime<nat>, args: nat -> Value, mem: Memory, m: Machine): Machine {
    if m.s.status != Running then m
    else
      var f := Fetched(mem.bytes, mem.text + m.s.pc);
      if f.None? || f.value.1 < mem.text then m.(s := m.s.(status := Stuck))
      else
        var next := f.value.1 - mem.text;
        match Decoded(d, f.value.0)
        case AllocReg(cnt) => Machine(m.s.(pc := next, temps := map[]), cnt)
        case Arg(name, idx) => m.(s := m.s.(pc := next, world := BindArg(rt, name, args(idx), m.s.world)))
        case Code(item) =>
          if InFrame(item, m.regc) then m.(s := Execute(rt, item, m.s, next)) else m.(s := m.s.(status := Stuck))
  }

  function VmRun(d: Doubles, rt: Runtime<nat>, args: nat -> Value, mem: Memory, n: nat, m: Machine): Machine {
    if n == 0 then m else VmRun(d, rt, args, mem, n - 1, VmStep(d, rt, args, mem, m))
  }

  lemma {:induction false} VmSplit(d: Doubles, rt: Runtime<nat>, args: nat -> Value, mem: Memory, n: nat, k: nat,
      m: Machine)
    ensures VmRun(d, rt, args, mem, n + k, m) == VmRun(d, rt, args, mem, k, VmRun(d, rt, args, mem, n, m))
  {
    if n > 0 { VmSplit(d, rt, args, mem, n - 1, k, VmStep(d, rt, args, mem, m)); }
  }

  /** A call of the function at `start`. */
  function Called(start: nat, w: World): Machine { Machine(Start(w).(pc := start), 0) }

  ghost predicate VmShows(d: Doubles, rt: Runtime<nat>, args: nat -> Value, mem: Memory, start: nat, w: World,
      o: Observation) {
    exists n: nat :: Observe(VmRun(d, rt, args, mem, n, Called(start, w)).s) == o
  }

  // ----- programs the assembler and the machine can take -----

  /** Both runtimes do the same with an op and its linked form. */
  ghost predicate Faithful(ir: Runtime<nat>, vm: Runtime<nat>, data: map<nat, nat>, fns: seq<Fn>, op: Op<nat>) {
    forall args, w :: vm.exec(Shape(LinkOp(data, fns, op)), args, w) == ir.exec(Shape(op), args, w)
  }

  ghost predicate AllFaithful(ir: Runtime<nat>, vm: Runtime<nat>, data: map<nat, nat>, fns: seq<Fn>,
      f: seq<Item<nat>>) {
    && ir.undefined == vm.undefined && ir.truthy == vm.truthy
    && forall p :: 0 <= p < |f| && f[p].Do? ==> Faithful(ir, vm, data, fns, f[p].op)
  }

  /** Control does not run off the end. */
  predicate Closes<N>(f: seq<Item<N>>) {
    f != [] && (f[|f|-1].Halt? || f[|f|-1].Ret? || f[|f|-1].Br?)
  }

  /** Everything about a function and the data it refers to fits the format. */
  ghost predicate Fitting(d: Doubles, data: map<nat, nat>, fns: seq<Fn>, k: nat)
    requires k < |fns|
  {
    var f := fns[k].code;
    && fns[k].regs < TWO_8 && |fns[k].params| <= TWO_8 && Closes(f) && LabelsDefined(f)
    && FnStart(fns, |fns|) < TWO_32 && (forall id :: id in data ==> data[id] < TWO_32)
    && (forall p :: 0 <= p < |f| ==> InFrame(f[p], fns[k].regs) && NumberKept(d, f[p]))
  }

  lemma LinkMentions(data: map<nat, nat>, fns: seq<Fn>, k: nat, item: Item<nat>)
    requires k < |fns|
    ensures Mentions(LinkItem(data, fns, k, item)) == Mentions(item)
  {
    hide FnOffset, LabelStart;
  }

  lemma LinkNumber(d: Doubles, data: map<nat, nat>, fns: seq<Fn>, k: nat, item: Item<nat>)
    requires k < |fns|
    ensures NumberKept(d, LinkItem(data, fns, k, item)) == NumberKept(d, item)
  {
    hide FnOffset, LabelStart, Kept, IsDouble;
  }

  lemma OffsetsNarrow(d: Doubles, data: map<nat, nat>, fns: seq<Fn>, k: nat, x: nat)
    requires k < |fns| && Fitting(d, data, fns, k)
    ensures DataOffset(data, x) < TWO_32 && FnOffset(fns, x) < TWO_32 && LabelStart(fns, k, x) < TWO_32
  {
    if x < |fns| { StartsWithin(fns, x, 0); }
    LabelPointsSound(fns[k].code, x);
    if x in LabelPoints(fns[k].code) { StartsWithin(fns, k, LabelPoints(fns[k].code)[x]); }
  }

  lemma LinkNarrow(d: Doubles, data: map<nat, nat>, fns: seq<Fn>, k: nat, i: nat)
    requires k < |fns| && i < |fns[k].code| && Fitting(d, data, fns, k)
    ensures Narrow(LinkItem(data, fns, k, fns[k].code[i]))
  {
    var item := fns[k].code[i];
    LinkMentions(data, fns, k, item);
    assert InFrame(item, fns[k].regs);
    hide LabelStart, FnStart, Mentions, InFrame, Fitting;
    match item
    case Br(l) => OffsetsNarrow(d, data, fns, k, l);
    case BrCond(_, l) => OffsetsNarrow(d, data, fns, k, l);
    case Do(op) =>
      if op.MakeFunction? { OffsetsNarrow(d, data, fns, k, op.func); }
      if NameOf(op).Some? { OffsetsNarrow(d, data, fns, k, NameOf(op).value); }
      if StringOf(op).Some? { OffsetsNarrow(d, data, fns, k, StringOf(op).value); }
    case _ =>
  }

  /** At the start of an item, the machine fetches the item, linked. */
  lemma FetchesItem(d: Doubles, data: map<nat, nat>, fns: seq<Fn>, k: nat, i: nat, mem: Memory)
    requires k < |fns| && i < |fns[k].code| && AllLowerable(data, fns) && Fitting(d, data, fns, k)
    requires StandsAt(mem.bytes, mem.text, TextBytes(data, fns, |fns|)) && Lowering(data, fns, k, i).Emit?
    ensures var ti := Lowering(data, fns, k, i).ti;
      && Fetched(mem.bytes, mem.text + ItemStart(fns, k, i)) == Some((ti, mem.text + ItemStart(fns, k, i + 1)))
      && Decoded(d, ti) == Code(LinkItem(data, fns, k, fns[k].code[i]))
  {
    hide Fetched, Decoded, LowerItem, LinkItem, Narrow, StandsAt, TextBytes, InstBytes, Writable, ItemStart, SizeOf,
        NumberKept, Mentions;
    var item := LinkItem(data, fns, k, fns[k].code[i]);
    assert Lowerable(data, fns, k);
    ItemStands(data, fns, k, i, mem.bytes, mem.text);
    LinkNarrow(d, data, fns, k, i);
    LinkSize(data, fns, k, fns[k].code[i]);
    LinkNumber(d, data, fns, k, fns[k].code[i]);
    LoweredWritable(item);
    FetchesWritten(mem.bytes, mem.text + ItemStart(fns, k, i), LowerItem(item).ti);
    NextStart(fns, k, i);
    ItemMeasured(data, fns, k, i);
    DecodesLowered(d, item);
  }

  // ----- in step -----

  /** The machine is where the items are. */
  predicate At(fns: seq<Fn>, k: nat, s: State, m: Machine) {
    && k < |fns| && m.regc == fns[k].regs && m.s.(pc := s.pc) == s
    && (s.status.Running? ==> s.pc < |fns[k].code| && m.s.pc == ItemStart(fns, k, s.pc))
  }

  lemma LinkedOp(data: map<nat, nat>, fns: seq<Fn>, op: Op<nat>)
    ensures Uses(LinkOp(data, fns, op)) == Uses(op) && Def(LinkOp(data, fns, op)) == Def(op)
  {
    hide FnOffset;
  }

  /** A linked item does what the item does, and goes to the start of the item that
      the item goes to. */
  lemma ExecutesItem(d: Doubles, ir: Runtime<nat>, vm: Runtime<nat>, data: map<nat, nat>, fns: seq<Fn>, k: nat,
      s: State, m: Machine)
    requires k < |fns| && Fitting(d, data, fns, k) && AllFaithful(ir, vm, data, fns, fns[k].code)
    requires At(fns, k, s, m) && s.status.Running?
    ensures var s' := Step(ir, fns[k].code, s);
      At(fns, k, s', m.(s := Execute(vm, LinkItem(data, fns, k, fns[k].code[s.pc]), m.s, ItemStart(fns, k, s.pc + 1))))
  {
    hide ItemStart, LinkOp, InFrame, NumberKept, Faithful;
    match fns[k].code[s.pc]
    case Br(l) => ExecutesBranch(d, ir, vm, data, fns, k, s, m, l);
    case BrCond(_, l) => ExecutesBranch(d, ir, vm, data, fns, k, s, m, l);
    case Do(_) => ExecutesOp(d, ir, vm, data, fns, k, s, m);
    case _ =>
  }

  lemma ExecutesBranch(d: Doubles, ir: Runtime<nat>, vm: Runtime<nat>, data: map<nat, nat>, fns: seq<Fn>, k: nat,
      s: State, m: Machine, l: nat)
    requires k < |fns| && Fitting(d, data, fns, k) && AllFaithful(ir, vm, data, fns, fns[k].code)
    requires At(fns, k, s, m) && s.status.Running? && BranchTarget(fns[k].code[s.pc]) == Some(l)
    ensures var s' := Step(ir, fns[k].code, s);
      At(fns, k, s', m.(s := Execute(vm, LinkItem(data, fns, k, fns[k].code[s.pc]), m.s, ItemStart(fns, k, s.pc + 1))))
  {
    hide ItemStart, InFrame, NumberKept, Faithful;
    LabelPointsSound(fns[k].code, l);
  }

  lemma ExecutesOp(d: Doubles, ir: Runtime<nat>, vm: Runtime<nat>, data: map<nat, nat>, fns: seq<Fn>, k: nat,
      s: State, m: Machine)
    requires k < |fns| && Fitting(d, data, fns, k) && AllFaithful(ir, vm, data, fns, fns[k].code)
    requires At(fns, k, s, m) && s.status.Running? && fns[k].code[s.pc].Do?
    ensures var s' := Step(ir, fns[k].code, s);
      At(fns, k, s', m.(s := Execute(vm, LinkItem(data, fns, k, fns[k].code[s.pc]), m.s, ItemStart(fns, k, s.pc + 1))))
  {
    hide ItemStart, LinkOp, InFrame, NumberKept;
    var op := fns[k].code[s.pc].op;
    LinkedOp(data, fns, op);
    assert Faithful(ir, vm, data, fns, op);
    assert Fetch(vm, m.s.temps, Uses(op)) == Fetch(ir, s.temps, Uses(op));
  }

  lemma VmStepIs(d: Doubles, rt: Runtime<nat>, args: nat -> Value, mem: Memory, m: Machine, ti: TextItem, next: nat,
      item: Item<nat>)
    requires m.s.status.Running? && Fetched(mem.bytes, mem.text + m.s.pc) == Some((ti, mem.text + next))
    requires Decoded(d, ti) == Code(item) && InFrame(item, m.regc)
    ensures VmStep(d, rt, args, mem, m) == m.(s := Execute(rt, item, m.s, next))
  {
    hide Fetched, Decoded, Execute;
  }

  /** Everything the two runs share. */
  ghost predicate Assembled(d: Doubles, ir: Runtime<nat>, vm: Runtime<nat>, data: map<nat, nat>, fns: seq<Fn>, k: nat,
      mem: Memory) {
    && k < |fns| && AllLowerable(data, fns) && Fitting(d, data, fns, k) && AllFaithful(ir, vm, data, fns, fns[k].code)
    && StandsAt(mem.bytes, mem.text, TextBytes(data, fns, |fns|))
  }

  lemma StepExecutes(d: Doubles, ir: Runtime<nat>, vm: Runtime<nat>, args: nat -> Value, data: map<nat, nat>,
      fns: seq<Fn>, k: nat, mem: Memory, s: State, m: Machine)
    requires Assembled(d, ir, vm, data, fns, k, mem) && At(fns, k, s, m) && s.status.Running?
    requires Lowering(data, fns, k, s.pc).Emit?
    ensures VmStep(d, vm, args, mem, m) == m.(s := Execute(vm, LinkItem(data, fns, k, fns[k].code[s.pc]), m.s,
        ItemStart(fns, k, s.pc + 1)))
  {
    hide Fetched, Decoded, Lowering, LinkItem, Execute, VmStep, AllFaithful, ItemStart, Mentions, StandsAt, TextBytes,
        AllLowerable;
    var item := LinkItem(data, fns, k, fns[k].code[s.pc]);
    FetchesItem(d, data, fns, k, s.pc, mem);
    LinkMentions(data, fns, k, fns[k].code[s.pc]);
    assert InFrame(fns[k].code[s.pc], fns[k].regs);
    VmStepIs(d, vm, args, mem, m, Lowering(data, fns, k, s.pc).ti, ItemStart(fns, k, s.pc + 1), item);
  }

  lemma AssembledFacts(d: Doubles, ir: Runtime<nat>, vm: Runtime<nat>, data: map<nat, nat>, fns: seq<Fn>, k: nat,
      mem: Memory)
    requires Assembled(d, ir, vm, data, fns, k, mem)
    ensures k < |fns| && Fitting(d, data, fns, k) && AllFaithful(ir, vm, data, fns, fns[k].code)
  {
  }

  /** A step of an item that became an instruction is a step of the machine. */
  lemma LoudStep(d: Doubles, ir: Runtime<nat>, vm: Runtime<nat>, args: nat -> Value, data: map<nat, nat>, fns: seq<Fn>,
      k: nat, mem: Memory, s: State, m: Machine)
    requires Assembled(d, ir, vm, data, fns, k, mem) && At(fns, k, s, m) && s.status.Running?
    requires Lowering(data, fns, k, s.pc).Emit?
    ensures At(fns, k, Step(ir, fns[k].code, s), VmStep(d, vm, args, mem, m))
  {
    hide *;
    AssembledFacts(d, ir, vm, data, fns, k, mem);
    StepExecutes(d, ir, vm, args, data, fns, k, mem, s, m);
    ExecutesItem(d, ir, vm, data, fns, k, s, m);
  }

  /** A step over a label or an alloca leaves the machine where it is. */
  lemma QuietStep(d: Doubles, ir: Runtime<nat>, vm: Runtime<nat>, data: map<nat, nat>, fns: seq<Fn>, k: nat,
      mem: Memory, s: State, m: Machine)
    requires Assembled(d, ir, vm, data, fns, k, mem) && At(fns, k, s, m) && s.status.Running?
    requires Lowering(data, fns, k, s.pc).Nothing?
    ensures At(fns, k, Step(ir, fns[k].code, s), m) && Step(ir, fns[k].code, s) == Next(s)
  {
    hide LabelStart, FnOffset, ItemStart, AllFaithful, InstBytes, SizeOf, Lowering, StandsAt, TextBytes, Lowerable;
    NextStart(fns, k, s.pc);
    ItemMeasured(data, fns, k, s.pc);
    assert Closes(fns[k].code);
    NothingIs(data, fns, k, s.pc);
  }

  lemma NothingIs(data: map<nat, nat>, fns: seq<Fn>, k: nat, i: nat)
    requires k < |fns| && i < |fns[k].code| && Lowering(data, fns, k, i).Nothing?
    ensures fns[k].code[i].Label? || fns[k].code[i].Alloca?
  {
    hide LabelStart, FnOffset;
  }

  /** After `n` steps of the items, the machine has come to the same place. */
  lemma {:induction false} MachineFollows(d: Doubles, ir: Runtime<nat>, vm: Runtime<nat>, args: nat -> Value,
      data: map<nat, nat>, fns: seq<Fn>, k: nat, mem: Memory, n: nat, s: State, m: Machine) returns (j: nat)
    requires k < |fns| && Assembled(d, ir, vm, data, fns, k, mem) && At(fns, k, s, m)
    ensures At(fns, k, Run(ir, fns[k].code, n, s), VmRun(d, vm, args, mem, j, m))
    decreases n
  {
    hide Assembled, At, Lowering;
    if n == 0 || !s.status.Running? {
      j := 0;
      EndedStays(ir, fns, k, n, s, m);
    } else {
      InCode(d, ir, vm, data, fns, k, mem, s, m);
      var s' := Step(ir, fns[k].code, s);
      if Lowering(data, fns, k, s.pc).Emit? {
        LoudStep(d, ir, vm, args, data, fns, k, mem, s, m);
        var i := MachineFollows(d, ir, vm, args, data, fns, k, mem, n - 1, s', VmStep(d, vm, args, mem, m));
        j := i + 1;
      } else {
        QuietStep(d, ir, vm, data, fns, k, mem, s, m);
        j := MachineFollows(d, ir, vm, args, data, fns, k, mem, n - 1, s', m);
      }
    }
  }

  lemma InCode(d: Doubles, ir: Runtime<nat>, vm: Runtime<nat>, data: map<nat, nat>, fns: seq<Fn>, k: nat, mem: Memory,
      s: State, m: Machine)
    requires Assembled(d, ir, vm, data, fns, k, mem) && At(fns, k, s, m) && s.status.Running?
    ensures k < |fns| && s.pc < |fns[k].code| && !Lowering(data, fns, k, s.pc).Unsupported?
  {
    ItemMeasured(data, fns, k, s.pc);
  }

  lemma {:induction false} EndedStays(ir: Runtime<nat>, fns: seq<Fn>, k: nat, n: nat, s: State, m: Machine)
    requires k < |fns| && At(fns, k, s, m) && (n == 0 || !s.status.Running?)
    ensures At(fns, k, Run(ir, fns[k].code, n, s), m)
  {
    if n > 0 {
      assert Step(ir, fns[k].code, s) == s;
      EndedStays(ir, fns, k, n - 1, s, m);
    }
  }

  /** After `n` steps of the machine, the items have come to the same place. */
  lemma {:induction false} ItemsFollow(d: Doubles, ir: Runtime<nat>, vm: Runtime<nat>, args: nat -> Value,
      data: map<nat, nat>, fns: seq<Fn>, k: nat, mem: Memory, n: nat, s: State, m: Machine) returns (j: nat)
    requires k < |fns| && Assembled(d, ir, vm, data, fns, k, mem) && At(fns, k, s, m)
    ensures At(fns, k, Run(ir, fns[k].code, j, s), VmRun(d, vm, args, mem, n, m))
    decreases n, if s.pc < |fns[k].code| then |fns[k].code| - s.pc else 0
  {
    hide Assembled, At, Lowering;
    if n == 0 {
      j := 0;
    } else if !s.status.Running? {
      EndedThere(d, vm, args, fns, k, mem, s, m);
      j := ItemsFollow(d, ir, vm, args, data, fns, k, mem, n - 1, s, m);
    } else {
      InCode(d, ir, vm, data, fns, k, mem, s, m);
      var s' := Step(ir, fns[k].code, s);
      if Lowering(data, fns, k, s.pc).Emit? {
        LoudStep(d, ir, vm, args, data, fns, k, mem, s, m);
        var i := ItemsFollow(d, ir, vm, args, data, fns, k, mem, n - 1, s', VmStep(d, vm, args, mem, m));
        j := i + 1;
      } else {
        QuietStep(d, ir, vm, data, fns, k, mem, s, m);
        var i := ItemsFollow(d, ir, vm, args, data, fns, k, mem, n, s', m);
        j := i + 1;
      }
    }
  }

  lemma EndedThere(d: Doubles, vm: Runtime<nat>, args: nat -> Value, fns: seq<Fn>, k: nat, mem: Memory, s: State,
      m: Machine)
    requires At(fns, k, s, m) && !s.status.Running?
    ensures VmStep(d, vm, args, mem, m) == m
  {
  }

  // ----- calling a function -----

  /** The world in which the body runs: every parameter is declared and holds its
      argument. */
  function Bound(rt: Runtime<nat>, data: map<nat, nat>, params: seq<nat>, args: nat -> Value, w: World): World {
    if params == [] then w
    else
      var last := |params| - 1;
      BindArg(rt, DataOffset(data, params[last]), args(last), Bound(rt, data, params[..last], args, w))
  }

  /** A parameter is bound as `var name = value` would be: declared, then stored to. */
  lemma BindIsVar(rt: Runtime<nat>, name: nat, value: Value, w: World, v: nat)
    ensures Run(rt, [Do(DeclVar(name)), Do(Store(name, v))], 2, State(0, map[v := value], w, [], Running)).world ==
      BindArg(rt, name, value, w)
  {
    var f: seq<Item<nat>> := [Do(DeclVar(name)), Do(Store(name, v))];
    var s := State(0, map[v := value], w, [], Running);
    var s1 := Step(rt, f, s);
    assert Fetch(rt, s.temps, []) == [] && s1 == s.(pc := 1, world := rt.exec(DeclVar(name), [], w).1);
    assert Fetch(rt, s1.temps, [v]) == [value];
    assert Run(rt, f, 2, s) == Run(rt, f, 1, s1) == Run(rt, f, 0, Step(rt, f, s1));
  }

  lemma {:induction false} ArgPrefix(data: map<nat, nat>, params: seq<nat>, j: nat)
    requires j <= |params|
    ensures exists rest :: ArgItems(data, params) == ArgItems(data, params[..j]) + rest
    decreases |params|
  {
    if j == |params| {
      assert params[..j] == params;
      assert ArgItems(data, params) == ArgItems(data, params[..j]) + [];
    } else {
      var init := params[..|params|-1];
      ArgPrefix(data, init, j);
      assert init[..j] == params[..j];
      var rest :| ArgItems(data, init) == ArgItems(data, params[..j]) + rest;
      var last := [TextItem(0x19, [Addr(DataOffset(data, params[|params|-1])), Reg((|params| - 1) % TWO_8)])];
      assert ArgItems(data, params[..j]) + rest + last == ArgItems(data, params[..j]) + (rest + last);
    }
  }

  function ArgItem(data: map<nat, nat>, params: seq<nat>, j: nat): TextItem
    requires j < |params|
  {
    TextItem(0x19, [Addr(DataOffset(data, params[j])), Reg(j % TWO_8)])
  }

  lemma ArgStep(data: map<nat, nat>, params: seq<nat>, j: nat)
    requires j < |params|
    ensures ArgItems(data, params[..j+1]) == ArgItems(data, params[..j]) + [ArgItem(data, params, j)]
  {
    assert params[..j+1][..j] == params[..j];
  }

  /** The instructions of the preamble, one after the other. */
  lemma ArgStands(data: map<nat, nat>, fns: seq<Fn>, k: nat, mem: Memory, j: nat)
    requires k < |fns| && AllLowerable(data, fns) && StandsAt(mem.bytes, mem.text, TextBytes(data, fns, |fns|))
    requires j <= |fns[k].params|
    ensures j < |fns[k].params| ==>
        StandsAt(mem.bytes, mem.text + FnStart(fns, k) + 6 * j, InstBytes(ArgItem(data, fns[k].params, j)))
    ensures j == |fns[k].params| ==>
        StandsAt(mem.bytes, mem.text + FnStart(fns, k) + 6 * j, InstBytes(TextItem(0x18, [Reg(fns[k].regs)])))
  {
    hide StandsAt, AllLowerable, ItemsBytes, ArgItems, InstBytes, ArgItem, FnStart, TextBytes;
    var params, at := fns[k].params, mem.text + FnStart(fns, k);
    var last := TextItem(0x18, [Reg(fns[k].regs)]);
    PreambleStands(data, fns, k, mem.bytes, mem.text);
    BytesJoin(ArgItems(data, params), [last]);
    PreambleBytes(data, params);
    OneBytes(last);
    StandsSplit(mem.bytes, at, ItemsBytes(ArgItems(data, params)), InstBytes(last));
    if j < |params| {
      ArgPrefix(data, params, j + 1);
      var rest :| ArgItems(data, params) == ArgItems(data, params[..j+1]) + rest;
      BytesJoin(ArgItems(data, params[..j+1]), rest);
      StandsSplit(mem.bytes, at, ItemsBytes(ArgItems(data, params[..j+1])), ItemsBytes(rest));
      ArgStep(data, params, j);
      BytesJoin(ArgItems(data, params[..j]), [ArgItem(data, params, j)]);
      PreambleBytes(data, params[..j]);
      OneBytes(ArgItem(data, params, j));
      StandsSplit(mem.bytes, at, ItemsBytes(ArgItems(data, params[..j])), InstBytes(ArgItem(data, params, j)));
    }
  }

  lemma ArgWritable(name: nat, idx: nat, regs: nat)
    requires name < TWO_32 && idx < TWO_8 && regs < TWO_8
    ensures Writable(TextItem(0x19, [Addr(name), Reg(idx)])) && Writable(TextItem(0x18, [Reg(regs)]))
  {
    assert Kinds([Addr(name), Reg(idx)]) == [AnAddr, AReg];
    assert Kinds([Reg(regs)]) == [AReg];
  }

  /** What the machine has done after `j` instructions of a function. */
  function Entered(vm: Runtime<nat>, data: map<nat, nat>, fns: seq<Fn>, k: nat, args: nat -> Value, w: World,
      j: nat): Machine
    requires k < |fns| && j <= |fns[k].params|
  {
    Machine(State(FnStart(fns, k) + 6 * j, map[], Bound(vm, data, fns[k].params[..j], args, w), [], Running), 0)
  }

  lemma ArgFetched(d: Doubles, ir: Runtime<nat>, vm: Runtime<nat>, data: map<nat, nat>, fns: seq<Fn>, k: nat,
      mem: Memory, j: nat)
    requires k < |fns| && Assembled(d, ir, vm, data, fns, k, mem) && j <= |fns[k].params|
    ensures j < |fns[k].params| ==>
      Fetched(mem.bytes, mem.text + FnStart(fns, k) + 6 * j) == Some((ArgItem(data, fns[k].params, j), mem.text +
          FnStart(fns, k) + 6 * (j + 1)))
    ensures j == |fns[k].params| ==>
      Fetched(mem.bytes, mem.text + FnStart(fns, k) + 6 * j)
        == Some((TextItem(0x18, [Reg(fns[k].regs)]), mem.text + FnStart(fns, k) + PreambleSize(fns[k].params)))
  {
    hide Fetched, InstBytes, FnStart, StandsAt, AllLowerable, AllFaithful, Writable, TextBytes;
    var params := fns[k].params;
    ArgStands(data, fns, k, mem, j);
    if j < |params| {
      OffsetsNarrow(d, data, fns, k, params[j]);
      ArgWritable(DataOffset(data, params[j]), j, 0);
      FetchesWritten(mem.bytes, mem.text + FnStart(fns, k) + 6 * j, ArgItem(data, params, j));
      ArgBytes(DataOffset(data, params[j]), j);
    } else {
      ArgWritable(0, 0, fns[k].regs);
      FetchesWritten(mem.bytes, mem.text + FnStart(fns, k) + 6 * j, TextItem(0x18, [Reg(fns[k].regs)]));
      ArgBytes(0, fns[k].regs);
    }
  }

  lemma ArgRuns(d: Doubles, ir: Runtime<nat>, vm: Runtime<nat>, args: nat -> Value, data: map<nat, nat>, fns: seq<Fn>,
      k: nat, mem: Memory, w: World, j: nat)
    requires k < |fns| && Assembled(d, ir, vm, data, fns, k, mem) && j < |fns[k].params|
    ensures VmStep(d, vm, args, mem, Entered(vm, data, fns, k, args, w, j)) == Entered(vm, data, fns, k, args, w, j + 1)
  {
    hide Fetched, FnStart, Assembled, Decoded, ArgItem, Bound, BindArg, VmStep;
    var params, m := fns[k].params, Entered(vm, data, fns, k, args, w, j);
    ArgFetched(d, ir, vm, data, fns, k, mem, j);
    FewParams(d, ir, vm, data, fns, k, mem);
    ArgDecodes(d, data, params, j);
    BoundStep(vm, data, params, args, w, j);
    VmArg(d, vm, args, mem, m, ArgItem(data, params, j), FnStart(fns, k) + 6 * (j + 1), DataOffset(data, params[j]), j);
  }

  lemma ArgDecodes(d: Doubles, data: map<nat, nat>, params: seq<nat>, j: nat)
    requires j < |params| && j < TWO_8
    ensures Decoded(d, ArgItem(data, params, j)) == Arg(DataOffset(data, params[j]), j)
  {
  }

  lemma BoundStep(rt: Runtime<nat>, data: map<nat, nat>, params: seq<nat>, args: nat -> Value, w: World, j: nat)
    requires j < |params|
    ensures Bound(rt, data, params[..j+1], args, w) ==
      BindArg(rt, DataOffset(data, params[j]), args(j), Bound(rt, data, params[..j], args, w))
  {
    hide BindArg, DataOffset;
    assert params[..j+1][..j] == params[..j];
  }

  lemma VmArg(d: Doubles, rt: Runtime<nat>, args: nat -> Value, mem: Memory, m: Machine, ti: TextItem, next: nat,
      name: nat, idx: nat)
    requires m.s.status.Running? && Fetched(mem.bytes, mem.text + m.s.pc) == Some((ti, mem.text + next))
    requires Decoded(d, ti) == Arg(name, idx)
    ensures VmStep(d, rt, args, mem, m) ==
      m.(s := m.s.(pc := next, world := BindArg(rt, name, args(idx), m.s.world)))
  {
    hide Fetched, Decoded, BindArg;
  }

  lemma FewParams(d: Doubles, ir: Runtime<nat>, vm: Runtime<nat>, data: map<nat, nat>, fns: seq<Fn>, k: nat,
      mem: Memory)
    requires Assembled(d, ir, vm, data, fns, k, mem)
    ensures k < |fns| && |fns[k].params| <= TWO_8 && fns[k].code != []
  {
  }

  lemma {:induction false} ArgsRun(d: Doubles, ir: Runtime<nat>, vm: Runtime<nat>, args: nat -> Value,
      data: map<nat, nat>, fns: seq<Fn>, k: nat, mem: Memory, w: World, j: nat)
    requires k < |fns| && Assembled(d, ir, vm, data, fns, k, mem) && j <= |fns[k].params|
    ensures VmRun(d, vm, args, mem, j, Called(FnStart(fns, k), w)) == Entered(vm, data, fns, k, args, w, j)
    decreases j
  {
    hide Assembled, VmStep, FnStart;
    if j > 0 {
      ArgsRun(d, ir, vm, args, data, fns, k, mem, w, j - 1);
      ArgRuns(d, ir, vm, args, data, fns, k, mem, w, j - 1);
      VmSplit(d, vm, args, mem, j - 1, 1, Called(FnStart(fns, k), w));
      var m := Entered(vm, data, fns, k, args, w, j - 1);
      assert VmRun(d, vm, args, mem, 1, m) == VmRun(d, vm, args, mem, 0, VmStep(d, vm, args, mem, m));
    }
  }

  lemma AllocRuns(d: Doubles, ir: Runtime<nat>, vm: Runtime<nat>, args: nat -> Value, data: map<nat, nat>, fns: seq<Fn>,
      k: nat, mem: Memory, w: World)
    requires k < |fns| && Assembled(d, ir, vm, data, fns, k, mem)
    ensures var n := |fns[k].params|;
      At(fns, k, Start(Bound(vm, data, fns[k].params, args, w)), VmStep(d, vm, args, mem,
          Entered(vm, data, fns, k, args, w, n)))
  {
    hide Fetched, FnStart, Assembled, CodeSize;
    var n := |fns[k].params|;
    assert fns[k].params[..n] == fns[k].params;
    ArgFetched(d, ir, vm, data, fns, k, mem, n);
    FewParams(d, ir, vm, data, fns, k, mem);
    EmptyCode(fns[k].code);
  }

  /** A call comes to the first item of the function. */
  lemma CallEnters(d: Doubles, ir: Runtime<nat>, vm: Runtime<nat>, args: nat -> Value, data: map<nat, nat>,
      fns: seq<Fn>, k: nat, mem: Memory, w: World)
    requires k < |fns| && Assembled(d, ir, vm, data, fns, k, mem)
    ensures At(fns, k, Start(Bound(vm, data, fns[k].params, args, w)),
        VmRun(d, vm, args, mem, |fns[k].params| + 1, Called(FnStart(fns, k), w)))
  {
    hide Assembled, VmStep, FnStart, At, Entered, Bound;
    var n := |fns[k].params|;
    var m := Entered(vm, data, fns, k, args, w, n);
    ArgsRun(d, ir, vm, args, data, fns, k, mem, w, n);
    AllocRuns(d, ir, vm, args, data, fns, k, mem, w);
    VmSplit(d, vm, args, mem, n, 1, Called(FnStart(fns, k), w));
    assert VmRun(d, vm, args, mem, 1, m) == VmRun(d, vm, args, mem, 0, VmStep(d, vm, args, mem, m));
  }

  /** Before that, the machine is running. */
  lemma RunsBefore(d: Doubles, ir: Runtime<nat>, vm: Runtime<nat>, args: nat -> Value, data: map<nat, nat>,
      fns: seq<Fn>, k: nat, mem: Memory, w: World, j: nat)
    requires k < |fns| && Assembled(d, ir, vm, data, fns, k, mem) && j <= |fns[k].params|
    ensures VmRun(d, vm, args, mem, j, Called(FnStart(fns, k), w)).s.status.Running?
  {
    hide Assembled;
    ArgsRun(d, ir, vm, args, data, fns, k, mem, w, j);
  }

  lemma AtObserves(fns: seq<Fn>, k: nat, s: State, m: Machine)
    requires At(fns, k, s, m)
    ensures Observe(s) == Observe(m.s)
  {
  }

  /** Assembling preserves meaning: a call of the function at its offset in the text
      ends with what its items end with, and with nothing else. */
  lemma AssemblyPreservesMeaning(d: Doubles, ir: Runtime<nat>, vm: Runtime<nat>, args: nat -> Value,
      data: map<nat, nat>, fns: seq<Fn>, k: nat, mem: Memory, w: World, o: Observation)
    requires k < |fns| && Assembled(d, ir, vm, data, fns, k, mem) && !o.status.Running?
    ensures VmShows(d, vm, args, mem, FnStart(fns, k), w, o) <==>
        Shows(ir, fns[k].code, Bound(vm, data, fns[k].params, args, w), o)
  {
    hide Assembled, VmStep, FnStart, At, Bound, VmRun, Run, Step;
    var n, c := |fns[k].params| + 1, Called(FnStart(fns, k), w);
    var s, m := Start(Bound(vm, data, fns[k].params, args, w)), VmRun(d, vm, args, mem, n, c);
    CallEnters(d, ir, vm, args, data, fns, k, mem, w);
    if i: nat :| Observe(After(ir, fns[k].code, Bound(vm, data, fns[k].params, args, w), i)) == o {
      var j := MachineFollows(d, ir, vm, args, data, fns, k, mem, i, s, m);
      VmSplit(d, vm, args, mem, n, j, c);
      AtObserves(fns, k, Run(ir, fns[k].code, i, s), VmRun(d, vm, args, mem, j, m));
    }
    if i: nat :| Observe(VmRun(d, vm, args, mem, i, c).s) == o {
      if i < n { RunsBefore(d, ir, vm, args, data, fns, k, mem, w, i); }
      VmSplit(d, vm, args, mem, n, i - n, c);
      var j := ItemsFollow(d, ir, vm, args, data, fns, k, mem, i - n, s, m);
      AtObserves(fns, k, Run(ir, fns[k].code, j, s), VmRun(d, vm, args, mem, i - n, m));
      assert Observe(After(ir, fns[k].code, Bound(vm, data, fns[k].params, args, w), j)) == o;
    }
  }

  // ----- the one byte that counts registers -----

  /** The frame has as many registers as were asked for exactly when their number fits
      one byte. */
  lemma FrameSize(d: Doubles, rt: Runtime<nat>, args: nat -> Value, mem: Memory, m: Machine, regs: nat)
    requires m.s.status.Running? && StandsAt(mem.bytes, mem.text + m.s.pc, InstBytes(TextItem(0x18, [Reg(regs)])))
    ensures VmStep(d, rt, args, mem, m).regc == regs <==> regs < TWO_8
    ensures VmStep(d, rt, args, mem, m).regc == regs % TWO_8
  {
    hide Fetched;
    var ti := TextItem(0x18, [Reg(regs % TWO_8)]);
    CountBytes(regs);
    ArgWritable(0, 0, regs % TWO_8);
    FetchesWritten(mem.bytes, mem.text + m.s.pc, ti);
  }

  lemma CountBytes(regs: nat)
    ensures InstBytes(TextItem(0x18, [Reg(regs)])) == InstBytes(TextItem(0x18, [Reg(regs % TWO_8)]))
  {
    OneOperand(Reg(regs));
    OneOperand(Reg(regs % TWO_8));
  }

  lemma OneOperand(o: Operand)
    ensures AllBytes([o]) == OperandBytes(o)
  {
    assert [o][..0] == [] && [o][1..] == [];
  }

  /** A frame of 256 registers has none: whatever names a register is stuck. */
  lemma WideFrameIsEmpty(d: Doubles, rt: Runtime<nat>, args: nat -> Value, mem: Memory, m: Machine, item: Item<nat>)
    requires m.s.status.Running? && StandsAt(mem.bytes, mem.text + m.s.pc, InstBytes(TextItem(0x18, [Reg(256)])))
    requires Mentions(item) != []
    ensures VmStep(d, rt, args, mem, m).regc == 0 && !InFrame(item, VmStep(d, rt, args, mem, m).regc)
  {
    hide VmStep;
    FrameSize(d, rt, args, mem, m, 256);
    assert Mentions(item)[0] in Mentions(item);
  }
}
