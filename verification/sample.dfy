/** The format itself, with nothing of the writer in it: every instruction, and one file
    byte by byte.
  */
module Sample {
  import opened Ir
  import opened Bytes
  import opened Texts
  import opened DataSection
  import opened Inst
  import opened Lower
  import opened Assemble
  import opened XWriter
  import opened Loads
  import opened C4

  // ----- instructions -----

  /** The binary operations from 0x30 on, and the unary ones from 0x40 on, in this order. */
  const BINARY_OPS: seq<BinaryOp> := [BinAdd, BinSub, BinMul, BinDiv, BinMod, BinE2, BinNe2, BinE3, BinNe3, BinL, BinLe,
    BinG, BinGe, BinAnd, BinOr]
  const UNARY_OPS: seq<UnaryOp> := [UnAdd, UnSub, UnNot, UnBnot]

  lemma OperationCodes(bop: BinaryOp, uop: UnaryOp)
    ensures 0x30 <= BinaryCode(bop) <= 0x3E && BINARY_OPS[BinaryCode(bop) - 0x30] == bop
    ensures 0x40 <= UnaryCode(uop) <= 0x43 && UNARY_OPS[UnaryCode(uop) - 0x40] == uop
  {
  }

  /** The bytes of an instruction: its code, then registers of one byte and offsets of four;
      arguments come last, behind their number. */
  function Encoding(item: Item<nat>): seq<Byte> {
    match item
    case Nop => U8(0x00)
    case Halt => U8(0x01)
    case Inspect(v) => U8(0x03) + U8(v)
    case Br(dest) => U8(0x10) + U32(dest)
    case BrCond(c, dest) => U8(0x11) + (U8(c) + U32(dest))
    case Merge(test, consequent, alternate, dst) =>
      U8(0x12) + (U8(dst) + (U8(test) + (U8(consequent) + U8(alternate))))
    case Ret(v) => U8(0x13) + U8(v)
    case Do(op) => OpEncoding(op)
    case _ => []
  }

  function OpEncoding(op: Op<nat>): seq<Byte> {
    match op
    case Call(dst, callee, args, None) => U8(0x14) + (U8(dst) + (U8(callee) + (U8(|args|) + RegBytes(args))))
    case Call(dst, callee, args, Some(bound)) =>
      U8(0x15) + (U8(dst) + (U8(callee) + (U8(bound) + (U8(|args|) + RegBytes(args)))))
    case New(dst, callee, args) => U8(0x16) + (U8(dst) + (U8(callee) + (U8(|args|) + RegBytes(args))))
    case This(dst) => U8(0x17) + U8(dst)
    case DeclVar(name) => U8(0x1A) + U32(name)
    case Load(v, name) => U8(0x1B) + (U8(v) + U32(name))
    case Store(name, v) => U8(0x1C) + (U8(v) + U32(name))
    case LoadUndefined(v) => U8(0x1D) + U8(v)
    case LoadNull(v) => U8(0x1E) + U8(v)
    case LoadBool(v, b) => U8(if b then 0x20 else 0x1F) + U8(v)
    case LoadString(v, text) => U8(0x21) + (U8(v) + U32(text))
    case MakeFunction(v, func) => U8(0x2B) + (U8(v) + U32(func))
    case LoadObject(v) => U8(0x2D) + U8(v)
    case LoadArray(v) => U8(0x2E) + U8(v)
    case Binary(bop, dst, lhs, rhs) => U8(BinaryCode(bop)) + (U8(dst) + (U8(lhs) + U8(rhs)))
    case Unary(uop, dst, src) => U8(UnaryCode(uop)) + (U8(dst) + U8(src))
    case ObjectSet(dst, obj, member, src) => U8(0x50) + (U8(dst) + (U8(obj) + (U8(member) + U8(src))))
    case ObjectGet(dst, obj, member) => U8(0x51) + (U8(dst) + (U8(obj) + U8(member)))
    case ArrayPush(arr, elem) => U8(0x52) + (U8(arr) + U8(elem))
    case _ => []
  }

  /** Refused are scopes, arrow functions, and calls with more than sixteen arguments; labels
      and allocations need no instruction; everything else becomes one. */
  lemma InstructionsAre(item: Item<nat>)
    ensures LowerItem(item).Unsupported? <==>
      || item.PushScope? || item.PopScope? || (item.Do? && item.op.MakeArrowFunction?)
      || (item.Do? && (item.op.Call? || item.op.New?) && |item.op.args| > 16)
    ensures LowerItem(item).Nothing? <==> item.Label? || item.Alloca?
  {
    hide NumberItem, BinaryCode, UnaryCode;
  }

  /** Every instruction is written so, but for those that load a number. */
  lemma InstructionLooks(item: Item<nat>)
    requires LowerItem(item).Emit? && !(item.Do? && item.op.LoadNumber?)
    ensures InstBytes(LowerItem(item).ti) == Encoding(item)
  {
    hide U32, U8, RegBytes, BinaryCode, UnaryCode, OpEncoding;
    if item.Do? {
      OpLooks(item.op);
    } else {
      var o := LowerItem(item).ti.operands;
      SpelledOut(o);
    }
  }

  lemma OpLooks(op: Op<nat>)
    requires LowerOp(op).Emit? && !op.LoadNumber?
    ensures InstBytes(LowerOp(op).ti) == OpEncoding(op)
  {
    hide U32, U8, RegBytes, BinaryCode, UnaryCode;
    SpelledOut(LowerOp(op).ti.operands);
  }

  /** The bytes of up to four operands. */
  lemma SpelledOut(o: seq<Operand>)
    ensures |o| == 0 ==> AllBytes(o) == []
    ensures |o| == 1 ==> AllBytes(o) == OperandBytes(o[0])
    ensures |o| == 2 ==> AllBytes(o) == OperandBytes(o[0]) + OperandBytes(o[1])
    ensures |o| == 3 ==> AllBytes(o) == OperandBytes(o[0]) + (OperandBytes(o[1]) + OperandBytes(o[2]))
    ensures |o| == 4 ==>
      AllBytes(o) == OperandBytes(o[0]) + (OperandBytes(o[1]) + (OperandBytes(o[2]) + OperandBytes(o[3])))
  {
    hide OperandBytes;
    if 0 < |o| <= 4 {
      var rest := o[1..];
      SpelledOut(rest);
      assert forall i :: 0 <= i < |rest| ==> rest[i] == o[i+1];
      assert AllBytes(o) == OperandBytes(o[0]) + AllBytes(rest);
    }
  }

  /** `x` is the integer `m` of 32 bits. */
  predicate IsWord(x: real, m: int) { -0x8000_0000 <= m < 0x8000_0000 && m as real == x }

  /** An integer is written in one, two or four bytes, two's complement; what is no integer as
      the eight bytes of its double. */
  lemma NumberLooks(v: nat, num: Num, n: int)
    requires Kept(num) && v < TWO_8
    ensures num.value == n as real && -0x80 <= n < 0x80 ==>
      InstBytes(NumberItem(v, num)) == U8(0x23) + (U8(v) + U8(n))
    ensures num.value == n as real && -0x8000 <= n < 0x8000 && !(-0x80 <= n < 0x80) ==>
      InstBytes(NumberItem(v, num)) == U8(0x24) + (U8(v) + U16(n))
    ensures num.value == n as real && -0x8000_0000 <= n < 0x8000_0000 && !(-0x8000 <= n < 0x8000) ==>
      InstBytes(NumberItem(v, num)) == U8(0x25) + (U8(v) + U32(n % TWO_32))
    ensures (forall m: int :: !IsWord(num.value, m)) ==>
      InstBytes(NumberItem(v, num)) == U8(0x2A) + (U8(v) + num.bits)
  {
    hide U32, U16, U8, Kept;
    KeptIsTested(num);
    SpelledOut(NumberItem(v, num).operands);
    if IsInteger(num.value) { assert IsWord(num.value, ToInt(num.value)); }
  }

  // ----- a file -----

  /** The text of a program that only halts: no registers are allocated, then it halts. */
  lemma HaltingText(fns: seq<Fn>)
    requires fns == [Fn([], [Halt], 0)]
    ensures TextSectionOf(map[], fns) == [0x74, 0x65, 0x78, 0x74, 0x18, 0x00, 0x01] && FnStart(fns, 0) == 0
  {
    HaltingItems(fns);
    HaltingBytes();
    hide FnItems, ItemsBytes;
    assert TextBytes(map[], fns, 0) == [];
  }

  lemma HaltingItems(fns: seq<Fn>)
    requires fns == [Fn([], [Halt], 0)]
    ensures FnItems(map[], fns, 0) == [TextItem(0x18, [Reg(0)]), TextItem(0x01, [])]
  {
    assert CodeItems(map[], fns, 0, 0) == [];
    assert ArgItems(map[], []) == [];
  }

  lemma HaltingBytes()
    ensures ItemsBytes([TextItem(0x18, [Reg(0)]), TextItem(0x01, [])]) == [0x18, 0x00, 0x01]
  {
    var a, b := TextItem(0x18, [Reg(0)]), TextItem(0x01, []);
    assert AllBytes([Reg(0)]) == [0x00] by { assert [Reg(0)][1..] == []; }
    assert InstBytes(a) == [0x18, 0x00] && InstBytes(b) == [0x01];
    hide InstBytes;
    assert [a, b][..1] == [a] && [a][..0] == [];
    assert ItemsBytes([a]) == [0x18, 0x00];
  }

  /** The whole file of that program: signature, platform and version, three sections with
      offset and size, no data, the text, and the attribute that says where to start. */
  lemma HaltingFile(fns: seq<Fn>)
    requires fns == [Fn([], [Halt], 0)]
    ensures FileOf([], map[], fns, 0, []) ==
      [0x78, 0x6A, 0x73, 0x00, 0x01, 0x00, 0x01, 0x00] + [3, 0, 0, 0]
      + ([0, 0, 0, 0] + [4, 0, 0, 0]) + ([4, 0, 0, 0] + [7, 0, 0, 0]) + ([11, 0, 0, 0] + [18, 0, 0, 0])
      + [0x64, 0x61, 0x74, 0x61] + [0x74, 0x65, 0x78, 0x74, 0x18, 0x00, 0x01]
      + [0x61, 0x74, 0x74, 0x72, 1, 0, 0, 0, 0, 0, 0, 0, 1, 0, 0, 0, 0, 0]
  {
    HaltingText(fns);
    HaltingSections();
    Words();
    var a, b, c := DataSectionOf([]), TextSectionOf(map[], fns), AttrBytes(0);
    ThreeParts(a, b, c);
    hide TextSectionOf, AttrBytes, U32, FnStart, DataSectionOf, NonEmpty, FileBytes;
    assert SectionsOf([], map[], fns, 0, []) == [a, b, c];
  }

  lemma HaltingSections()
    ensures DataSectionOf([]) == [0x64, 0x61, 0x74, 0x61]
    ensures AttrBytes(0) == [0x61, 0x74, 0x74, 0x72, 1, 0, 0, 0, 0, 0, 0, 0, 1, 0, 0, 0, 0, 0]
  {
    NoData([]);
    AttrLooks(0);
    Words();
    hide DataBytes, AttrBytes, U32;
  }

  lemma Words()
    ensures U32(0) == [0, 0, 0, 0] && U32(3) == [3, 0, 0, 0] && U32(4) == [4, 0, 0, 0] && U32(7) == [7, 0, 0, 0]
    ensures U32(11) == [11, 0, 0, 0] && U32(18) == [18, 0, 0, 0]
  {
  }

  lemma ThreeParts(a: seq<Byte>, b: seq<Byte>, c: seq<Byte>)
    requires a != [] && b != [] && c != []
    ensures NonEmpty([a, b, c], 3) == [a, b, c]
    ensures FileBytes([a, b, c]) == HEADER + U32(3) + (U32(0) + U32(|a|)) + (U32(|a|) + U32(|b|)) +
      (U32(|a| + |b|) + U32(|c|)) + a + b + c
  {
    hide U32, NonEmpty, PartsBytes, EntriesBytes, PartStart;
    var parts := [a, b, c];
    KeptStep(parts, 0);
    KeptStep(parts, 1);
    KeptStep(parts, 2);
    NoneKept(parts);
    ThreeEntries(a, b, c);
    Flat(HEADER, U32(3), U32(0) + U32(|a|), U32(|a|) + U32(|b|), U32(|a| + |b|) + U32(|c|), a, b, c);
  }

  lemma ThreeEntries(a: seq<Byte>, b: seq<Byte>, c: seq<Byte>)
    ensures PartsBytes([a, b, c], 3) == a + b + c
    ensures EntriesBytes([a, b, c], 3) ==
      (U32(0) + U32(|a|)) + (U32(|a|) + U32(|b|)) + (U32(|a| + |b|) + U32(|c|))
  {
    hide U32, PartsBytes, EntriesBytes, PartStart;
    var parts := [a, b, c];
    NoParts(parts);
    PartsStep(parts, 0);
    PartsStep(parts, 1);
    PartsStep(parts, 2);
    Pairs(U32(0), U32(|a|), U32(|a|), U32(|b|), U32(|a| + |b|), U32(|c|));
    assert [] + a == a;
  }

  lemma Pairs<T>(a: seq<T>, b: seq<T>, c: seq<T>, d: seq<T>, e: seq<T>, f: seq<T>)
    ensures [] + a + b + c + d + e + f == (a + b) + (c + d) + (e + f)
  {
    assert [] + a == a;
    assert a + b + c + d == (a + b) + (c + d);
    assert (a + b) + (c + d) + e + f == (a + b) + (c + d) + (e + f);
  }

  lemma Flat<T>(h: seq<T>, n: seq<T>, d: seq<T>, e: seq<T>, f: seq<T>, a: seq<T>, b: seq<T>, c: seq<T>)
    ensures h + (n + (d + e + f)) + (a + b + c) == h + n + d + e + f + a + b + c
  {
    assert n + (d + e + f) == n + d + e + f;
    assert h + (n + d + e + f) == h + n + d + e + f;
    var left := h + n + d + e + f;
    assert left + (a + b + c) == left + a + b + c;
  }
}
