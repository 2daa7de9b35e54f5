/** C4: items become instructions, and what the virtual machine makes of them. */
module Lower {
  import opened Ir
  import opened Bytes
  import opened Inst

  // ----- numbers -----

  /** The bytes of a double, as the platform lays them out. */
  datatype Doubles = Doubles(bits: real -> seq<Byte>, value: seq<Byte> -> real)

  /** The bytes of the literal are those of its value. */
  predicate IsDouble(d: Doubles, num: Num) {
    num.bits == d.bits(num.value) && |num.bits| == 8 && d.value(num.bits) == num.value
  }

  /** The conversion to `int`: truncation. Out of range the C standard (section 6.3.1.4)
      leaves it undefined; the least `int` is assumed. */
  function ToInt(x: real): (n: int)
    ensures -0x8000_0000 <= n < 0x8000_0000
  {
    if -2147483649.0 < x < 2147483648.0 then (if x >= 0.0 then x.Floor else -((-x).Floor)) else -0x8000_0000
  }

  function Distance(x: real, y: real): real { if x >= y then x - y else y - x }

  /** `IS_INTEGER` */
  predicate IsInteger(x: real) { Distance(x, ToInt(x) as real) < 0.000000000000001 }

  /** Seen from zero, `x` lies behind the integer `n` of 32 bits, by less than 1e-15. */
  predicate JustBehind(x: real, n: int) {
    && -0x8000_0000 <= n < 0x8000_0000
    && ((0 <= n && n as real < x < n as real + 0.000000000000001)
        || (n <= 0 && n as real - 0.000000000000001 < x < n as real))
  }

  /** The literals that are written as they are meant: those that lie just behind no integer. */
  ghost predicate Kept(num: Num) { !exists n: int :: JustBehind(num.value, n) }

  function NumberItem(v: nat, num: Num): TextItem {
    if IsInteger(num.value) then
      var n := ToInt(num.value);
      if -128 <= n < 128 then TextItem(0x23, [Reg(v), Small(n)])
      else if -32768 <= n < 32768 then TextItem(0x24, [Reg(v), Short(n)])
      else TextItem(0x25, [Reg(v), Long(n)])
    else TextItem(0x2A, [Reg(v), Double(num.bits)])
  }

  // ----- lowering -----

  datatype Lowered = Nothing | Emit(ti: TextItem) | Unsupported

  function BinaryCode(bop: BinaryOp): nat {
    match bop
    case BinAdd => 0x30
    case BinSub => 0x31
    case BinMul => 0x32
    case BinDiv => 0x33
    case BinMod => 0x34
    case BinE2 => 0x35
    case BinNe2 => 0x36
    case BinE3 => 0x37
    case BinNe3 => 0x38
    case BinL => 0x39
    case BinLe => 0x3A
    case BinG => 0x3B
    case BinGe => 0x3C
    case BinAnd => 0x3D
    case BinOr => 0x3E
  }

  function BinaryOf(code: nat): BinaryOp {
    if code == 0x30 then BinAdd else if code == 0x31 then BinSub else if code == 0x32 then BinMul
    else if code == 0x33 then BinDiv else if code == 0x34 then BinMod else if code == 0x35 then BinE2
    else if code == 0x36 then BinNe2 else if code == 0x37 then BinE3 else if code == 0x38 then BinNe3
    else if code == 0x39 then BinL else if code == 0x3A then BinLe else if code == 0x3B then BinG
    else if code == 0x3C then BinGe else if code == 0x3D then BinAnd else BinOr
  }

  function UnaryCode(uop: UnaryOp): nat {
    match uop
    case UnAdd => 0x40
    case UnSub => 0x41
    case UnNot => 0x42
    case UnBnot => 0x43
  }

  function UnaryOf(code: nat): UnaryOp {
    if code == 0x40 then UnAdd else if code == 0x41 then UnSub else if code == 0x42 then UnNot else UnBnot
  }

  /** Names, strings and functions are offsets by now. */
  function LowerOp(op: Op<nat>): Lowered {
    match op
    case LoadUndefined(v) => Emit(TextItem(0x1D, [Reg(v)]))
    case LoadNull(v) => Emit(TextItem(0x1E, [Reg(v)]))
    case LoadBool(v, b) => Emit(TextItem(if b then 0x20 else 0x1F, [Reg(v)]))
    case LoadNumber(v, num) => Emit(NumberItem(v, num))
    case LoadString(v, text) => Emit(TextItem(0x21, [Reg(v), Addr(text)]))
    case LoadObject(v) => Emit(TextItem(0x2D, [Reg(v)]))
    case LoadArray(v) => Emit(TextItem(0x2E, [Reg(v)]))
    case DeclVar(name) => Emit(TextItem(0x1A, [Addr(name)]))
    case Load(v, name) => Emit(TextItem(0x1B, [Reg(v), Addr(name)]))
    case Store(name, v) => Emit(TextItem(0x1C, [Reg(v), Addr(name)]))
    case ObjectSet(dst, obj, member, src) => Emit(TextItem(0x50, [Reg(dst), Reg(obj), Reg(member), Reg(src)]))
    case ObjectGet(dst, obj, member) => Emit(TextItem(0x51, [Reg(dst), Reg(obj), Reg(member)]))
    case ArrayPush(arr, elem) => Emit(TextItem(0x52, [Reg(arr), Reg(elem)]))
    case MakeFunction(v, func) => Emit(TextItem(0x2B, [Reg(v), Addr(func)]))
    case MakeArrowFunction(_, _) => Unsupported
    case Call(dst, callee, args, bound) =>
      if |args| > ARGC_MAX then Unsupported
      else if bound.None? then Emit(TextItem(0x14, [Reg(dst), Reg(callee), Regs(args)]))
      else Emit(TextItem(0x15, [Reg(dst), Reg(callee), Reg(bound.value), Regs(args)]))
    case New(dst, callee, args) =>
      if |args| > ARGC_MAX then Unsupported else Emit(TextItem(0x16, [Reg(dst), Reg(callee), Regs(args)]))
    case This(dst) => Emit(TextItem(0x17, [Reg(dst)]))
    case Binary(bop, dst, lhs, rhs) => Emit(TextItem(BinaryCode(bop), [Reg(dst), Reg(lhs), Reg(rhs)]))
    case Unary(uop, dst, src) => Emit(TextItem(UnaryCode(uop), [Reg(dst), Reg(src)]))
  }

  /** Labels are offsets by now. */
  function LowerItem(item: Item<nat>): Lowered {
    match item
    case Nop => Emit(TextItem(0x00, []))
    case Halt => Emit(TextItem(0x01, []))
    case Inspect(v) => Emit(TextItem(0x03, [Reg(v)]))
    case PushScope => Unsupported
    case PopScope => Unsupported
    case Label(_) => Nothing
    case Br(dest) => Emit(TextItem(0x10, [Addr(dest)]))
    case BrCond(c, dest) => Emit(TextItem(0x11, [Reg(c), Addr(dest)]))
    case Merge(test, consequent, alternate, dst) => Emit(TextItem(0x12,
        [Reg(dst), Reg(test), Reg(consequent), Reg(alternate)]))
    case Alloca(_) => Nothing
    case Ret(v) => Emit(TextItem(0x13, [Reg(v)]))
    case Do(op) => LowerOp(op)
  }

  // ----- sizes -----

  function NumberSize(num: Num): nat {
    2 + if IsInteger(num.value) then
          var n := ToInt(num.value);
          if n < 0 then (if -128 <= n < 0 then 1 else if -32768 <= n < -128 then 2 else 4)
          else (if 0 <= n < 128 then 1 else if 128 <= n < 32768 then 2 else 4)
        else 8
  }

  function OpSize<N>(op: Op<N>): nat {
    match op
    case LoadNumber(_, num) => NumberSize(num)
    case LoadString(_, _) => 6
    case DeclVar(_) => 5
    case Load(_, _) => 6
    case Store(_, _) => 6
    case ObjectSet(_, _, _, _) => 5
    case ObjectGet(_, _, _) => 4
    case ArrayPush(_, _) => 3
    case MakeFunction(_, _) => 6
    case MakeArrowFunction(_, _) => 6
    case Call(_, _, args, bound) => if bound.None? then 4 + |args| else 5 + |args|
    case New(_, _, args) => 4 + |args|
    case Binary(_, _, _, _) => 4
    case Unary(_, _, _) => 3
    case _ => 2
  }

  /** `xjs_c4_text_item_instrument_size`; none where it is negative. */
  function ItemSize<N>(item: Item<N>): Option<nat> {
    match item
    case Nop => Some(1)
    case Halt => Some(1)
    case Inspect(_) => Some(2)
    case PushScope => None
    case PopScope => None
    case Label(_) => Some(0)
    case Br(_) => Some(5)
    case BrCond(_, _) => Some(6)
    case Merge(_, _, _, _) => Some(5)
    case Alloca(_) => Some(0)
    case Ret(_) => Some(2)
    case Do(op) => Some(OpSize(op))
  }

  lemma OperandsBytes(a: Operand, b: Operand, c: Operand, e: Operand)
    ensures AllBytes([]) == [] && AllBytes([a]) == OperandBytes(a)
    ensures |AllBytes([a, b])| == |OperandBytes(a)| + |OperandBytes(b)|
    ensures |AllBytes([a, b, c])| == |OperandBytes(a)| + |OperandBytes(b)| + |OperandBytes(c)|
    ensures |AllBytes([a, b, c, e])| == |OperandBytes(a)| + |OperandBytes(b)| + |OperandBytes(c)| + |OperandBytes(e)|
  {
    hide OperandBytes;
    assert [a, b, c, e][1..] == [b, c, e] && [a, b, c][1..] == [b, c] && [a, b][1..] == [b] && [a][1..] == [];
    assert [b, c, e][1..] == [c, e] && [b, c][1..] == [c] && [b][1..] == [] && [c, e][1..] == [e] && [c][1..] == [] &&
        [e][1..] == [];
    AllBytesStep([a, b, c, e]);
    AllBytesStep([b, c, e]);
    AllBytesStep([c, e]);
    AllBytesStep([a, b, c]);
    AllBytesStep([b, c]);
    AllBytesStep([a, b]);
    AllBytesStep([a]);
    AllBytesStep([b]);
    AllBytesStep([c]);
    AllBytesStep([e]);
  }

  lemma WrittenLength(ti: TextItem)
    requires |ti.operands| <= 4
    ensures |InstBytes(ti)| == 1 + |OperandsUpTo(ti.operands, 0)| + |OperandsUpTo(ti.operands, 1)| +
        |OperandsUpTo(ti.operands, 2)| + |OperandsUpTo(ti.operands, 3)|
  {
    hide OperandBytes;
    var o := ti.operands;
    if |o| == 1 { assert o == [o[0]]; OperandsBytes(o[0], o[0], o[0], o[0]); }
    if |o| == 2 { assert o == [o[0], o[1]]; OperandsBytes(o[0], o[1], o[0], o[0]); }
    if |o| == 3 { assert o == [o[0], o[1], o[2]]; OperandsBytes(o[0], o[1], o[2], o[0]); }
    if |o| == 4 { assert o == [o[0], o[1], o[2], o[3]]; OperandsBytes(o[0], o[1], o[2], o[3]); }
  }

  function OperandsUpTo(operands: seq<Operand>, i: nat): seq<Byte> {
    if i < |operands| then OperandBytes(operands[i]) else []
  }

  /** A double literal has eight bytes. */
  predicate EightBytes<N>(item: Item<N>) { item.Do? && item.op.LoadNumber? ==> |item.op.num.bits| == 8 }

  /** What the first pass measures is what the second pass writes. */
  lemma SizeIsWritten(item: Item<nat>)
    requires EightBytes(item)
    ensures LowerItem(item).Nothing? ==> ItemSize(item) == Some(0)
    ensures LowerItem(item).Emit? ==> ItemSize(item) == Some(|InstBytes(LowerItem(item).ti)|)
  {
    hide InstBytes, IsInteger, ToInt;
    if LowerItem(item).Emit? { WrittenLength(LowerItem(item).ti); }
  }

  // ----- what the machine makes of an instruction -----

  datatype Command = AllocReg(cnt: nat) | Arg(name: nat, idx: nat) | Code(item: Item<nat>)

  function RegAt(o: seq<Operand>, i: nat): nat { if i < |o| && o[i].Reg? then o[i].r else 0 }

  function AddrAt(o: seq<Operand>, i: nat): nat { if i < |o| && o[i].Addr? then o[i].a else 0 }

  function RegsAt(o: seq<Operand>, i: nat): seq<nat> { if i < |o| && o[i].Regs? then o[i].rs else [] }

  function NumberAt(d: Doubles, o: seq<Operand>, i: nat): Num {
    if i >= |o| then Num(0.0, [])
    else
      match o[i]
      case Small(n) => Num(n as real, d.bits(n as real))
      case Short(n) => Num(n as real, d.bits(n as real))
      case Long(n) => Num(n as real, d.bits(n as real))
      case Double(bits) => Num(d.value(bits), bits)
      case _ => Num(0.0, [])
  }

  /** `xjr_vm_step`, by opcode. */
  function Decoded(d: Doubles, ti: TextItem): Command {
    var o := ti.operands;
    match ti.opcode
    case 0x00 => Code(Nop)
    case 0x03 => Code(Inspect(RegAt(o, 0)))
    case 0x10 => Code(Br(AddrAt(o, 0)))
    case 0x11 => Code(BrCond(RegAt(o, 0), AddrAt(o, 1)))
    case 0x12 => Code(Merge(RegAt(o, 1), RegAt(o, 2), RegAt(o, 3), RegAt(o, 0)))
    case 0x13 => Code(Ret(RegAt(o, 0)))
    case 0x14 => Code(Do(Call(RegAt(o, 0), RegAt(o, 1), RegsAt(o, 2), None)))
    case 0x15 => Code(Do(Call(RegAt(o, 0), RegAt(o, 1), RegsAt(o, 3), Some(RegAt(o, 2)))))
    case 0x16 => Code(Do(New(RegAt(o, 0), RegAt(o, 1), RegsAt(o, 2))))
    case 0x17 => Code(Do(This(RegAt(o, 0))))
    case 0x18 => AllocReg(RegAt(o, 0))
    case 0x19 => Arg(AddrAt(o, 0), RegAt(o, 1))
    case 0x1A => Code(Do(DeclVar(AddrAt(o, 0))))
    case 0x1B => Code(Do(Load(RegAt(o, 0), AddrAt(o, 1))))
    case 0x1C => Code(Do(Store(AddrAt(o, 1), RegAt(o, 0))))
    case 0x1D => Code(Do(LoadUndefined(RegAt(o, 0))))
    case 0x1E => Code(Do(LoadNull(RegAt(o, 0))))
    case 0x1F => Code(Do(LoadBool(RegAt(o, 0), false)))
    case 0x20 => Code(Do(LoadBool(RegAt(o, 0), true)))
    case 0x21 => Code(Do(LoadString(RegAt(o, 0), AddrAt(o, 1))))
    case 0x23 => Code(Do(LoadNumber(RegAt(o, 0), NumberAt(d, o, 1))))
    case 0x24 => Code(Do(LoadNumber(RegAt(o, 0), NumberAt(d, o, 1))))
    case 0x25 => Code(Do(LoadNumber(RegAt(o, 0), NumberAt(d, o, 1))))
    case 0x2A => Code(Do(LoadNumber(RegAt(o, 0), NumberAt(d, o, 1))))
    case 0x2B => Code(Do(MakeFunction(RegAt(o, 0), AddrAt(o, 1))))
    case 0x2D => Code(Do(LoadObject(RegAt(o, 0))))
    case 0x2E => Code(Do(LoadArray(RegAt(o, 0))))
    case 0x50 => Code(Do(ObjectSet(RegAt(o, 0), RegAt(o, 1), RegAt(o, 2), RegAt(o, 3))))
    case 0x51 => Code(Do(ObjectGet(RegAt(o, 0), RegAt(o, 1), RegAt(o, 2))))
    case 0x52 => Code(Do(ArrayPush(RegAt(o, 0), RegAt(o, 1))))
    case _ =>
      if 0x30 <= ti.opcode <= 0x3E then Code(Do(Binary(BinaryOf(ti.opcode), RegAt(o, 0), RegAt(o, 1), RegAt(o, 2))))
      else if 0x40 <= ti.opcode <= 0x43 then Code(Do(Unary(UnaryOf(ti.opcode), RegAt(o, 0), RegAt(o, 1))))
      else Code(Halt)
  }

  ghost predicate NumberKept(d: Doubles, item: Item<nat>) {
    item.Do? && item.op.LoadNumber? ==> IsDouble(d, item.op.num) && Kept(item.op.num)
  }

  /** The test for integers takes a literal for an integer that it is not exactly when the
      literal lies just behind one. */
  lemma KeptIsTested(num: Num)
    ensures Kept(num) <==> (IsInteger(num.value) ==> num.value == ToInt(num.value) as real)
  {
    var x, t := num.value, ToInt(num.value);
    if IsInteger(x) && x != t as real {
      assert JustBehind(x, t);
    }
    forall n: int | JustBehind(x, n) ensures t == n && IsInteger(x) && x != n as real {
      BehindIsTaken(x, n);
    }
  }

  lemma BehindIsTaken(x: real, n: int)
    requires JustBehind(x, n)
    ensures ToInt(x) == n && IsInteger(x) && x != n as real
  {
    if 0.0 < x {
      assert x.Floor == n;
    } else {
      assert (-x).Floor == -n;
    }
  }

  /** Every integer is kept. */
  lemma IntegersAreKept(num: Num, m: int)
    requires num.value == m as real
    ensures Kept(num)
  {
    forall n: int | JustBehind(num.value, n) ensures false {
      BehindIsNoInteger(num.value, n, m);
    }
  }

  lemma BehindIsNoInteger(x: real, n: int, m: int)
    requires JustBehind(x, n)
    ensures x != m as real
  {
    BehindIsTaken(x, n);
    if m == n + 1 || m == n - 1 { assert Distance(m as real, n as real) == 1.0; }
  }

  predicate Far(x: real, n: int) { Distance(x, n as real) >= 0.000000000000001 }

  /** What is far enough from all integers is kept. */
  lemma FarIsKept(num: Num)
    requires forall n: int :: Far(num.value, n)
    ensures Kept(num)
  {
    forall n: int | JustBehind(num.value, n) ensures !Far(num.value, n) {
    }
  }

  /** A literal is loaded as it was meant exactly when it lies just behind no integer. */
  lemma NumberBack(d: Doubles, v: nat, num: Num)
    requires IsDouble(d, num)
    ensures Decoded(d, NumberItem(v, num)) == Code(Do(LoadNumber(v, num))) <==> Kept(num)
  {
    hide Kept;
    KeptIsTested(num);
  }

  /** No instruction that loads the number is shorter than the one chosen. */
  lemma NumberIsShort(d: Doubles, v: nat, num: Num, ti: TextItem)
    requires IsDouble(d, num) && Kept(num) && Writable(ti)
    requires Decoded(d, ti) == Code(Do(LoadNumber(v, num)))
    ensures |InstBytes(NumberItem(v, num))| <= |InstBytes(ti)|
  {
    hide InstBytes, Kept;
    KeptIsTested(num);
    WrittenLength(NumberItem(v, num));
    NumberOperands(d, v, num, ti);
    WrittenLength(ti);
  }

  /** An instruction that loads a number has a register and the number in one of four
      forms. */
  lemma NumberOperands(d: Doubles, v: nat, num: Num, ti: TextItem)
    requires Writable(ti) && Decoded(d, ti) == Code(Do(LoadNumber(v, num)))
    ensures |ti.operands| == 2 && ti.operands[0].Reg? && Fits(ti.operands[1])
    ensures ti.operands[1].Small? || ti.operands[1].Short? || ti.operands[1].Long? || ti.operands[1].Double?
    ensures !ti.operands[1].Double? ==> ti.operands[1].n as real == num.value
  {
    assert ti.opcode in {0x23, 0x24, 0x25, 0x2A};
    var k := Kinds(ti.operands);
    assert k == Format(ti.opcode).value && |k| == 2;
    assert k[0] == KindOf(ti.operands[0]) && k[1] == KindOf(ti.operands[1]);
  }

  /** Every literal closer to zero than the margin is taken for zero: what is loaded
      is another number. */
  lemma TinyLiteralIsLost(d: Doubles, v: nat, num: Num)
    requires IsDouble(d, num) && num.value != 0.0
    requires -0.000000000000001 < num.value < 0.000000000000001
    ensures !Kept(num)
    ensures Decoded(d, NumberItem(v, num)) == Code(Do(LoadNumber(v, Num(0.0, d.bits(0.0)))))
    ensures Decoded(d, NumberItem(v, num)) != Code(Do(LoadNumber(v, num)))
  {
    assert JustBehind(num.value, 0);
    BehindIsTaken(num.value, 0);
  }

  /** The machine understands every instruction as the item it was lowered from. */
  lemma DecodesLowered(d: Doubles, item: Item<nat>)
    requires LowerItem(item).Emit? && NumberKept(d, item)
    ensures Decoded(d, LowerItem(item).ti) == Code(item)
  {
    hide IsInteger, ToInt, Kept, IsDouble, NumberItem;
    if item.Do? {
      match item.op
      case LoadNumber(v, num) => NumberBack(d, v, num);
      case _ =>
    }
  }

  /** Registers and offsets are within the widths of their operands. */
  predicate Narrow(item: Item<nat>) {
    && (forall v :: v in Mentions(item) ==> v < TWO_8)
    && (match item
        case Br(dest) => dest < TWO_32
        case BrCond(_, dest) => dest < TWO_32
        case Do(op) => NarrowOp(op)
        case _ => true)
  }

  predicate NarrowOp(op: Op<nat>) {
    && (NameOf(op).Some? ==> NameOf(op).value < TWO_32)
    && (StringOf(op).Some? ==> StringOf(op).value < TWO_32)
    && (op.MakeFunction? ==> op.func < TWO_32)
  }

  lemma NumberWritable(v: nat, num: Num)
    requires v < TWO_8 && |num.bits| == 8
    ensures Writable(NumberItem(v, num))
  {
    var ti := NumberItem(v, num);
    assert Kinds(ti.operands) == [AReg, KindOf(ti.operands[1])];
  }

  /** What is lowered can be written and fetched again. */
  lemma LoweredWritable(item: Item<nat>)
    requires LowerItem(item).Emit? && Narrow(item) && EightBytes(item)
    ensures Writable(LowerItem(item).ti)
  {
    hide IsInteger, ToInt, NumberItem;
    if item.Do? {
      OpWritable(item.op);
    } else {
      hide Mentions;
      ItemWritable(item);
    }
  }

  lemma ItemWritable(item: Item<nat>)
    requires LowerItem(item).Emit? && Narrow(item) && !item.Do?
    ensures Writable(LowerItem(item).ti)
  {
    var ti := LowerItem(item).ti;
    match item
    case Nop => assert Kinds(ti.operands) == [];
    case Halt => assert Kinds(ti.operands) == [];
    case Br(_) => assert Kinds(ti.operands) == [AnAddr];
    case BrCond(c, _) => assert c in Mentions(item); assert Kinds(ti.operands) == [AReg, AnAddr];
    case Merge(a, b, c, e) =>
      assert a in Mentions(item) && b in Mentions(item) && c in Mentions(item) && e in Mentions(item);
      assert Kinds(ti.operands) == [AReg, AReg, AReg, AReg];
    case Inspect(v) => assert v in Mentions(item); assert Kinds(ti.operands) == [AReg];
    case Ret(v) => assert v in Mentions(item); assert Kinds(ti.operands) == [AReg];
  }

  lemma OpWritable(op: Op<nat>)
    requires LowerOp(op).Emit? && Narrow(Do(op)) && EightBytes(Do(op))
    ensures Writable(LowerOp(op).ti)
  {
    hide IsInteger, ToInt, NumberItem;
    var ti := LowerOp(op).ti;
    var item: Item<nat> := Do(op);
    assert Mentions(item) == OpMentions(op);
    if op.LoadNumber? {
      assert op.v in OpMentions(op);
      NumberWritable(op.v, op.num);
    } else {
      OpFits(op);
      OpFormat(op);
    }
  }

  lemma OpFits(op: Op<nat>)
    requires LowerOp(op).Emit? && NarrowOp(op) && !op.LoadNumber? && forall v :: v in OpMentions(op) ==> v < TWO_8
    ensures forall i :: 0 <= i < |LowerOp(op).ti.operands| ==> Fits(LowerOp(op).ti.operands[i])
  {
    var m := OpMentions(op);
    assert |m| > 0 ==> m[0] in m;
    assert |m| > 1 ==> m[1] in m;
    assert |m| > 2 ==> m[2] in m;
    assert |m| > 3 ==> m[3] in m;
    match op
    case Call(dst, callee, args, bound) =>
      assert dst in OpMentions(op) && callee in OpMentions(op) && (bound.Some? ==> bound.value in OpMentions(op));
      ArgsMentioned(op, args, if bound.Some? then 3 else 2);
    case New(dst, callee, args) =>
      assert dst in OpMentions(op) && callee in OpMentions(op);
      ArgsMentioned(op, args, 2);
    case _ =>
  }

  lemma ArgsMentioned(op: Op<nat>, args: seq<nat>, skip: nat)
    requires forall v :: v in OpMentions(op) ==> v < TWO_8
    requires |OpMentions(op)| == skip + |args| && OpMentions(op)[skip..] == args
    ensures forall i :: 0 <= i < |args| ==> args[i] < TWO_8
  {
    forall i | 0 <= i < |args| ensures args[i] < TWO_8 {
      var v := OpMentions(op)[skip + i];
      assert v in OpMentions(op) && OpMentions(op)[skip..][i] == v;
    }
  }

  lemma OpFormat(op: Op<nat>)
    requires LowerOp(op).Emit? && !op.LoadNumber?
    ensures LowerOp(op).ti.opcode < TWO_8 && Format(LowerOp(op).ti.opcode) == Some(Kinds(LowerOp(op).ti.operands))
  {
    var o := LowerOp(op).ti.operands;
    if |o| == 1 {
      assert Kinds(o) == [KindOf(o[0])];
    } else if |o| == 2 {
      assert Kinds(o) == [KindOf(o[0]), KindOf(o[1])];
    } else if |o| == 3 {
      assert Kinds(o) == [KindOf(o[0]), KindOf(o[1]), KindOf(o[2])];
    } else {
      assert Kinds(o) == [KindOf(o[0]), KindOf(o[1]), KindOf(o[2]), KindOf(o[3])];
    }
  }
}
