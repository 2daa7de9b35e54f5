/** The linear intermediate representation and the machine that runs it.

    Every stage of the compiler is stated against this machine.  What an
    instruction does to the named variables, to the heap or to a callee is the
    business of the runtime, which is a parameter: a theorem proved for every
    `Runtime` holds whatever the instructions compute.
  */
module Ir {

  datatype Option<+T> = None | Some(value: T)

  type Value(==, !new, 0)

  /** Everything an instruction can touch besides the temporaries. */
  type World(==, !new, 0)

  type Byte = b: int | 0 <= b < 256

  datatype UnaryOp = UnNot | UnBnot | UnAdd | UnSub

  datatype BinaryOp =
    | BinAdd | BinSub | BinMul | BinDiv | BinMod
    | BinE2 | BinNe2 | BinE3 | BinNe3 | BinL | BinLe | BinG | BinGe
    | BinAnd | BinOr

  /** A number literal: its value and the eight bytes of its double. */
  datatype Num = Num(value: real, bits: seq<Byte>)

  /** An instruction that only computes.  `N` is the way text is referred to:
      the text itself in the control-flow graph, a data id in the linear IR, an
      offset into the data section in the bytecode.  Temporaries are numbers.
    */
  datatype Op<+N> =
    | LoadUndefined(v: nat)
    | LoadNull(v: nat)
    | LoadBool(v: nat, b: bool)
    | LoadNumber(v: nat, num: Num)
    | LoadString(v: nat, text: N)
    | LoadObject(v: nat)
    | LoadArray(v: nat)
    | DeclVar(name: N)
    | Load(v: nat, name: N)
    | Store(name: N, v: nat)
    | ObjectSet(dst: nat, obj: nat, member: nat, src: nat)
    | ObjectGet(dst: nat, obj: nat, member: nat)
    | ArrayPush(arr: nat, elem: nat)
    | MakeFunction(v: nat, func: nat)
    | MakeArrowFunction(v: nat, func: nat)
    | Call(dst: nat, callee: nat, args: seq<nat>, bound: Option<nat>)
    | New(dst: nat, callee: nat, args: seq<nat>)
    | This(dst: nat)
    | Binary(bop: BinaryOp, dst: nat, lhs: nat, rhs: nat)
    | Unary(uop: UnaryOp, dst: nat, src: nat)

  datatype Item<+N> =
    | Nop
    | Halt
    | Inspect(v: nat)
    | PushScope
    | PopScope
    | Label(lbl: nat)
    | Br(dest: nat)
    | BrCond(cond: nat, dest: nat)
    | Merge(test: nat, consequent: nat, alternate: nat, mdst: nat)
    | Alloca(v: nat)
    | Ret(v: nat)
    | Do(op: Op<N>)

  /** The temporaries an instruction reads, in operand order. */
  function Uses<N>(op: Op<N>): seq<nat> {
    match op
    case Store(_, v) => [v]
    case ObjectSet(_, obj, member, src) => [obj, member, src]
    case ObjectGet(_, obj, member) => [obj, member]
    case ArrayPush(arr, elem) => [arr, elem]
    case Call(_, callee, args, bound) =>
      [callee] + args + (if bound.Some? then [bound.value] else [])
    case New(_, callee, args) => [callee] + args
    case Binary(_, _, lhs, rhs) => [lhs, rhs]
    case Unary(_, _, src) => [src]
    case _ => []
  }

  /** The temporary an instruction writes, if it writes one. */
  function Def<N>(op: Op<N>): Option<nat> {
    match op
    case LoadUndefined(v) => Some(v)
    case LoadNull(v) => Some(v)
    case LoadBool(v, _) => Some(v)
    case LoadNumber(v, _) => Some(v)
    case LoadString(v, _) => Some(v)
    case LoadObject(v) => Some(v)
    case LoadArray(v) => Some(v)
    case DeclVar(_) => None
    case Load(v, _) => Some(v)
    case Store(_, _) => None
    case ObjectSet(dst, _, _, _) => Some(dst)
    case ObjectGet(dst, _, _) => Some(dst)
    case ArrayPush(_, _) => None
    case MakeFunction(v, _) => Some(v)
    case MakeArrowFunction(v, _) => Some(v)
    case Call(dst, _, _, _) => Some(dst)
    case New(dst, _, _) => Some(dst)
    case This(dst) => Some(dst)
    case Binary(_, dst, _, _) => Some(dst)
    case Unary(_, dst, _) => Some(dst)
  }

  function MapVars(f: nat -> nat, vs: seq<nat>): (r: seq<nat>)
    ensures |r| == |vs|
    ensures forall i :: 0 <= i < |vs| ==> r[i] == f(vs[i])
  {
    seq(|vs|, i requires 0 <= i < |vs| => f(vs[i]))
  }

  /** The same instruction on other temporaries. */
  function MapOp<N>(f: nat -> nat, op: Op<N>): Op<N> {
    match op
    case LoadUndefined(v) => LoadUndefined(f(v))
    case LoadNull(v) => LoadNull(f(v))
    case LoadBool(v, b) => LoadBool(f(v), b)
    case LoadNumber(v, num) => LoadNumber(f(v), num)
    case LoadString(v, text) => LoadString(f(v), text)
    case LoadObject(v) => LoadObject(f(v))
    case LoadArray(v) => LoadArray(f(v))
    case DeclVar(name) => DeclVar(name)
    case Load(v, name) => Load(f(v), name)
    case Store(name, v) => Store(name, f(v))
    case ObjectSet(dst, obj, member, src) => ObjectSet(f(dst), f(obj), f(member), f(src))
    case ObjectGet(dst, obj, member) => ObjectGet(f(dst), f(obj), f(member))
    case ArrayPush(arr, elem) => ArrayPush(f(arr), f(elem))
    case MakeFunction(v, func) => MakeFunction(f(v), func)
    case MakeArrowFunction(v, func) => MakeArrowFunction(f(v), func)
    case Call(dst, callee, args, bound) =>
      Call(f(dst), f(callee), MapVars(f, args), if bound.Some? then Some(f(bound.value)) else None)
    case New(dst, callee, args) => New(f(dst), f(callee), MapVars(f, args))
    case This(dst) => This(f(dst))
    case Binary(bop, dst, lhs, rhs) => Binary(bop, f(dst), f(lhs), f(rhs))
    case Unary(uop, dst, src) => Unary(uop, f(dst), f(src))
  }

  /** The same instruction with text referred to in another way, names by `sym`
      and strings by `str`. */
  function MapText<N, M>(sym: N -> M, str: N -> M, op: Op<N>): Op<M> {
    match op
    case LoadUndefined(v) => LoadUndefined(v)
    case LoadNull(v) => LoadNull(v)
    case LoadBool(v, b) => LoadBool(v, b)
    case LoadNumber(v, num) => LoadNumber(v, num)
    case LoadString(v, text) => LoadString(v, str(text))
    case LoadObject(v) => LoadObject(v)
    case LoadArray(v) => LoadArray(v)
    case DeclVar(name) => DeclVar(sym(name))
    case Load(v, name) => Load(v, sym(name))
    case Store(name, v) => Store(sym(name), v)
    case ObjectSet(dst, obj, member, src) => ObjectSet(dst, obj, member, src)
    case ObjectGet(dst, obj, member) => ObjectGet(dst, obj, member)
    case ArrayPush(arr, elem) => ArrayPush(arr, elem)
    case MakeFunction(v, func) => MakeFunction(v, func)
    case MakeArrowFunction(v, func) => MakeArrowFunction(v, func)
    case Call(dst, callee, args, bound) => Call(dst, callee, args, bound)
    case New(dst, callee, args) => New(dst, callee, args)
    case This(dst) => This(dst)
    case Binary(bop, dst, lhs, rhs) => Binary(bop, dst, lhs, rhs)
    case Unary(uop, dst, src) => Unary(uop, dst, src)
  }

  /** The name an instruction refers to. */
  function NameOf<N>(op: Op<N>): Option<N> {
    match op
    case DeclVar(name) => Some(name)
    case Load(_, name) => Some(name)
    case Store(name, _) => Some(name)
    case _ => None
  }

  /** The string an instruction loads. */
  function StringOf<N>(op: Op<N>): Option<N> {
    match op
    case LoadString(_, text) => Some(text)
    case _ => None
  }

  function MapTextItem<N, M>(sym: N -> M, str: N -> M, item: Item<N>): Item<M> {
    match item
    case Nop => Nop
    case Halt => Halt
    case Inspect(v) => Inspect(v)
    case PushScope => PushScope
    case PopScope => PopScope
    case Label(l) => Label(l)
    case Br(l) => Br(l)
    case BrCond(c, l) => BrCond(c, l)
    case Merge(test, consequent, alternate, dst) => Merge(test, consequent, alternate, dst)
    case Alloca(v) => Alloca(v)
    case Ret(v) => Ret(v)
    case Do(op) => Do(MapText(sym, str, op))
  }

  function Blank(v: nat): nat { 0 }

  /** What the runtime is told about an instruction: all but its temporaries. */
  function Shape<N>(op: Op<N>): Op<N> { MapOp(Blank, op) }

  /** The runtime executes an instruction on operand values and a world; it
      yields a result (ignored when nothing is written) and a new world. */
  datatype Runtime<!N> = Runtime(
    undefined: Value,
    exec: (Op<N>, seq<Value>, World) -> (Value, World),
    truthy: Value -> bool)

  datatype Status = Running | Returned(value: Value) | Halted | Stuck

  type Temps = map<nat, Value>

  datatype State = State(pc: nat, temps: Temps, world: World, trace: seq<Value>, status: Status)

  /** What can be seen of a run: its trace, its world and how it ended. */
  datatype Observation = Observation(world: World, trace: seq<Value>, status: Status)

  function Observe(s: State): Observation { Observation(s.world, s.trace, s.status) }

  function Get<N>(rt: Runtime<N>, temps: Temps, v: nat): Value {
    if v in temps then temps[v] else rt.undefined
  }

  function Fetch<N>(rt: Runtime<N>, temps: Temps, vs: seq<nat>): (r: seq<Value>)
    ensures |r| == |vs|
    ensures forall i :: 0 <= i < |vs| ==> r[i] == Get(rt, temps, vs[i])
  {
    seq(|vs|, i requires 0 <= i < |vs| => Get(rt, temps, vs[i]))
  }

  /** Where each label stands. */
  function LabelPoints<N>(f: seq<Item<N>>): map<nat, nat> {
    if f == [] then map[]
    else
      var m := LabelPoints(f[..|f|-1]);
      if f[|f|-1].Label? then m[f[|f|-1].lbl := |f|-1] else m
  }

  ghost predicate UniqueLabels<N>(f: seq<Item<N>>) {
    forall i, j :: 0 <= i < |f| && 0 <= j < |f| && f[i].Label? && f[j].Label? && f[i].lbl == f[j].lbl ==> i == j
  }

  lemma {:induction false} LabelPointsSound<N>(f: seq<Item<N>>, l: nat)
    ensures l in LabelPoints(f) ==> LabelPoints(f)[l] < |f| && f[LabelPoints(f)[l]] == Label(l)
    ensures l in LabelPoints(f) <==> exists i :: 0 <= i < |f| && f[i] == Label(l)
  {
    if f != [] {
      var g := f[..|f|-1];
      LabelPointsSound(g, l);
      if l in LabelPoints(g) {
        assert f[LabelPoints(g)[l]] == Label(l);
      }
      if exists i :: 0 <= i < |f| && f[i] == Label(l) {
        var i :| 0 <= i < |f| && f[i] == Label(l);
        if i < |f| - 1 { assert g[i] == Label(l); }
      }
      if f[|f|-1] == Label(l) {
        assert exists i :: 0 <= i < |f| && f[i] == Label(l);
      }
    }
  }

  function Goto<N>(f: seq<Item<N>>, s: State, l: nat): State {
    var points := LabelPoints(f);
    if l in points then s.(pc := points[l]) else s.(status := Stuck)
  }

  function Next(s: State): State { s.(pc := s.pc + 1) }

  function ExecOp<N>(rt: Runtime<N>, op: Op<N>, s: State): State {
    var (value, world) := rt.exec(Shape(op), Fetch(rt, s.temps, Uses(op)), s.world);
    var temps := if Def(op).Some? then s.temps[Def(op).value := value] else s.temps;
    s.(temps := temps, world := world)
  }

  function MergeSource<N>(rt: Runtime<N>, item: Item<N>, temps: Temps): nat
    requires item.Merge?
  {
    if rt.truthy(Get(rt, temps, item.test)) then item.consequent else item.alternate
  }

  predicate IsBranch<N>(item: Item<N>) { item.Br? || item.BrCond? }

  /** An item that is not a branch. */
  function Straight<N>(rt: Runtime<N>, item: Item<N>, s: State): State
    requires !IsBranch(item)
  {
    match item
    case Nop => Next(s)
    case Halt => s.(status := Halted)
    case Inspect(v) => Next(s.(trace := s.trace + [Get(rt, s.temps, v)]))
    case PushScope => s.(status := Stuck)
    case PopScope => s.(status := Stuck)
    case Label(_) => Next(s)
    case Merge(_, _, _, dst) =>
      Next(s.(temps := s.temps[dst := Get(rt, s.temps, MergeSource(rt, item, s.temps))]))
    case Alloca(_) => Next(s)
    case Ret(v) => s.(status := Returned(Get(rt, s.temps, v)))
    case Do(op) => Next(ExecOp(rt, op, s))
  }

  /** One step of the function `f`. */
  function Step<N>(rt: Runtime<N>, f: seq<Item<N>>, s: State): State {
    if s.status != Running then s
    else if s.pc >= |f| then s.(status := Stuck)
    else
      match f[s.pc]
      case Br(l) => Goto(f, s, l)
      case BrCond(c, l) => if rt.truthy(Get(rt, s.temps, c)) then Goto(f, s, l) else Next(s)
      case _ => Straight(rt, f[s.pc], s)
  }

  function Run<N>(rt: Runtime<N>, f: seq<Item<N>>, n: nat, s: State): State {
    if n == 0 then s else Run(rt, f, n - 1, Step(rt, f, s))
  }

  function Start(world: World): State { State(0, map[], world, [], Running) }

  lemma {:induction false} RunSplit<N>(rt: Runtime<N>, f: seq<Item<N>>, n: nat, m: nat, s: State)
    ensures Run(rt, f, n + m, s) == Run(rt, f, m, Run(rt, f, n, s))
  {
    if n > 0 { RunSplit(rt, f, n - 1, m, Step(rt, f, s)); }
  }

  lemma RunStep<N>(rt: Runtime<N>, f: seq<Item<N>>, n: nat, s: State)
    ensures Run(rt, f, n + 1, s) == Step(rt, f, Run(rt, f, n, s))
  {
    RunSplit(rt, f, n, 1, s);
    assert Run(rt, f, 1, Run(rt, f, n, s)) == Run(rt, f, 0, Step(rt, f, Run(rt, f, n, s)));
  }

  /** The temporaries an item names, in the order the allocator visits them. */
  function Mentions<N>(item: Item<N>): seq<nat> {
    match item
    case Inspect(v) => [v]
    case BrCond(c, _) => [c]
    case Merge(test, consequent, alternate, dst) => [test, consequent, alternate, dst]
    case Alloca(v) => [v]
    case Ret(v) => [v]
    case Do(op) => OpMentions(op)
    case _ => []
  }

  function OpMentions<N>(op: Op<N>): seq<nat> {
    match op
    case LoadUndefined(v) => [v]
    case LoadNull(v) => [v]
    case LoadBool(v, _) => [v]
    case LoadNumber(v, _) => [v]
    case LoadString(v, _) => [v]
    case LoadObject(v) => [v]
    case LoadArray(v) => [v]
    case DeclVar(_) => []
    case Load(v, _) => [v]
    case Store(_, v) => [v]
    case ObjectSet(dst, obj, member, src) => [dst, obj, member, src]
    case ObjectGet(dst, obj, member) => [dst, member, obj]
    case ArrayPush(arr, elem) => [arr, elem]
    case MakeFunction(v, _) => [v]
    case MakeArrowFunction(v, _) => [v]
    case Call(dst, callee, args, bound) =>
      [dst, callee] + (if bound.Some? then [bound.value] else []) + args
    case New(dst, callee, args) => [dst, callee] + args
    case This(dst) => [dst]
    case Binary(_, dst, lhs, rhs) => [dst, lhs, rhs]
    case Unary(_, dst, src) => [dst, src]
  }

  /** The temporaries the item at `s` reads in this very step: a merge reads its
      test and the arm the test selects, not the other one. */
  function ReadsNow<N>(rt: Runtime<N>, item: Item<N>, temps: Temps): seq<nat> {
    match item
    case Inspect(v) => [v]
    case BrCond(c, _) => [c]
    case Merge(test, _, _, _) => [test, MergeSource(rt, item, temps)]
    case Ret(v) => [v]
    case Do(op) => Uses(op)
    case _ => []
  }

  /** The temporary an item writes. */
  function Writes<N>(item: Item<N>): Option<nat> {
    match item
    case Merge(_, _, _, dst) => Some(dst)
    case Do(op) => Def(op)
    case _ => None
  }

  function MapItem<N>(f: nat -> nat, item: Item<N>): Item<N> {
    match item
    case Inspect(v) => Inspect(f(v))
    case BrCond(c, l) => BrCond(f(c), l)
    case Merge(test, consequent, alternate, dst) => Merge(f(test), f(consequent), f(alternate), f(dst))
    case Alloca(v) => Alloca(f(v))
    case Ret(v) => Ret(f(v))
    case Do(op) => Do(MapOp(f, op))
    case _ => item
  }

  lemma MapOpUses<N>(f: nat -> nat, op: Op<N>)
    ensures Uses(MapOp(f, op)) == MapVars(f, Uses(op))
    ensures Def(MapOp(f, op)) == (if Def(op).Some? then Some(f(Def(op).value)) else None)
    ensures Shape(MapOp(f, op)) == Shape(op)
  {
    hide *;
    MappedUses(f, op);
    MappedDef(f, op);
    MappedShape(f, op);
  }

  lemma MappedUses<N>(f: nat -> nat, op: Op<N>)
    ensures Uses(MapOp(f, op)) == MapVars(f, Uses(op))
  {
    hide MapVars;
    match op
    case Call(_, _, _, _) => MappedCall(f, op);
    case New(_, _, _) => MappedNew(f, op);
    case Store(_, v) => MapFew(f, v, v, v);
    case ObjectSet(_, obj, member, src) => MapFew(f, obj, member, src);
    case ObjectGet(_, obj, member) => MapFew(f, obj, member, member);
    case ArrayPush(arr, elem) => MapFew(f, arr, elem, elem);
    case Binary(_, _, lhs, rhs) => MapFew(f, lhs, rhs, rhs);
    case Unary(_, _, src) => MapFew(f, src, src, src);
    case _ =>
  }

  lemma MappedCall<N>(f: nat -> nat, op: Op<N>)
    requires op.Call?
    ensures Uses(MapOp(f, op)) == MapVars(f, Uses(op))
  {
    hide MapVars;
    var tail := if op.bound.Some? then [op.bound.value] else [];
    MapJoin(f, [op.callee], op.args);
    MapJoin(f, [op.callee] + op.args, tail);
    MapFew(f, op.callee, 0, 0);
    if op.bound.Some? { MapFew(f, op.bound.value, 0, 0); }
  }

  lemma MappedNew<N>(f: nat -> nat, op: Op<N>)
    requires op.New?
    ensures Uses(MapOp(f, op)) == MapVars(f, Uses(op))
  {
    hide MapVars;
    MapJoin(f, [op.callee], op.args);
    MapFew(f, op.callee, 0, 0);
  }

  lemma MapJoin(f: nat -> nat, a: seq<nat>, b: seq<nat>)
    ensures MapVars(f, a + b) == MapVars(f, a) + MapVars(f, b)
  {
  }

  lemma MapFew(f: nat -> nat, a: nat, b: nat, c: nat)
    ensures MapVars(f, []) == [] && MapVars(f, [a]) == [f(a)]
    ensures MapVars(f, [a, b]) == [f(a), f(b)] && MapVars(f, [a, b, c]) == [f(a), f(b), f(c)]
  {
  }

  lemma MappedDef<N>(f: nat -> nat, op: Op<N>)
    ensures Def(MapOp(f, op)) == (if Def(op).Some? then Some(f(Def(op).value)) else None)
  {
    hide MapVars;
  }

  lemma BlankVars(f: nat -> nat, vs: seq<nat>)
    ensures MapVars(Blank, MapVars(f, vs)) == MapVars(Blank, vs)
  {
  }

  lemma MappedShape<N>(f: nat -> nat, op: Op<N>)
    ensures Shape(MapOp(f, op)) == Shape(op)
  {
    match op
    case Call(_, _, args, _) =>
      hide MapVars;
      BlankVars(f, args);
    case New(_, _, args) =>
      hide MapVars;
      BlankVars(f, args);
    case _ =>
      hide MapVars;
  }

  lemma UsesMentioned<N>(op: Op<N>)
    ensures forall v :: v in Uses(op) ==> v in OpMentions(op)
    ensures Def(op).Some? ==> Def(op).value in OpMentions(op)
  {
  }

  /** An instruction names what it reads and what it writes, and nothing else. */
  lemma MentionedIsUsed<N>(op: Op<N>, v: nat)
    ensures v in OpMentions(op) <==> v in Uses(op) || Def(op) == Some(v)
  {
  }

  /** Referring to text in another way changes names and strings and nothing else. */
  lemma MapTextKeeps<N>(sym: N -> N, str: N -> N, op: Op<N>)
    ensures var m := MapText(sym, str, op);
      && Uses(m) == Uses(op) && Def(m) == Def(op)
      && NameOf(m) == (if NameOf(op).Some? then Some(sym(NameOf(op).value)) else None)
      && StringOf(m) == (if StringOf(op).Some? then Some(str(StringOf(op).value)) else None)
      && (NameOf(op).None? && StringOf(op).None? ==> m == op)
  {
  }

  /** Names stand where a name is declared, loaded or stored, strings where one is loaded. */
  lemma TextsStand<N>(v: nat, text: N)
    ensures NameOf(DeclVar(text)) == NameOf(Load(v, text)) == NameOf(Store(text, v)) == Some(text)
    ensures StringOf(LoadString(v, text)) == Some(text)
  {
  }

  lemma MapOpMentions<N>(f: nat -> nat, op: Op<N>)
    ensures OpMentions(MapOp(f, op)) == MapVars(f, OpMentions(op))
  {
    match op
    case Call(_, _, _, _) =>
    case New(_, _, _) =>
    case _ =>
  }

  lemma MapItemMentions<N>(f: nat -> nat, item: Item<N>)
    ensures Mentions(MapItem(f, item)) == MapVars(f, Mentions(item))
  {
    if item.Do? { MapOpMentions(f, item.op); }
  }
}
