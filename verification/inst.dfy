/** Instructions of the bytecode: what C4 lowers items to, how an instruction is
    written, and how the virtual machine fetches it.
  */
module Inst {
  import opened Ir
  import opened Bytes

  const ARGC_MAX := 16

  // ----- operands -----

  datatype Operand =
    | Reg(r: nat)
    | Addr(a: nat)
    | Small(n: int)
    | Short(n: int)
    | Long(n: int)
    | Double(bits: seq<Byte>)
    | Regs(rs: seq<nat>)

  datatype Kind = AReg | AnAddr | ASmall | AShort | ALong | ADouble | ManyRegs

  function KindOf(o: Operand): Kind {
    match o
    case Reg(_) => AReg
    case Addr(_) => AnAddr
    case Small(_) => ASmall
    case Short(_) => AShort
    case Long(_) => ALong
    case Double(_) => ADouble
    case Regs(_) => ManyRegs
  }

  function RegBytes(rs: seq<nat>): (r: seq<Byte>)
    ensures |r| == |rs|
  {
    seq(|rs|, i requires 0 <= i < |rs| => rs[i] % TWO_8)
  }

  function OperandBytes(o: Operand): seq<Byte> {
    match o
    case Reg(r) => U8(r)
    case Addr(a) => U32(a)
    case Small(n) => U8(n)
    case Short(n) => U16(n)
    case Long(n) => U32(n % TWO_32)
    case Double(bits) => bits
    case Regs(rs) => U8(|rs|) + RegBytes(rs)
  }

  /** The operand survives the width it is written in. */
  predicate Fits(o: Operand) {
    match o
    case Reg(r) => r < TWO_8
    case Addr(a) => a < TWO_32
    case Small(n) => -0x80 <= n < 0x80
    case Short(n) => -0x8000 <= n < 0x8000
    case Long(n) => -0x8000_0000 <= n < 0x8000_0000
    case Double(bits) => |bits| == 8
    case Regs(rs) => |rs| <= ARGC_MAX && forall i :: 0 <= i < |rs| ==> rs[i] < TWO_8
  }

  function ReadRegs(mem: seq<Byte>, at: nat, n: nat): (r: seq<nat>)
    requires at + n <= |mem|
    ensures |r| == n
  {
    seq(n, i requires 0 <= i < n => mem[at+i] as nat)
  }

  /** One operand, and where the next begins. */
  function ReadOperand(mem: seq<Byte>, at: nat, kind: Kind): Option<(Operand, nat)> {
    match kind
    case AReg => var r := ReadU8(mem, at); if r.None? then None else Some((Reg(r.value), at + 1))
    case AnAddr => var a := ReadU32(mem, at); if a.None? then None else Some((Addr(a.value), at + 4))
    case ASmall => var n := ReadU8(mem, at); if n.None? then None else Some((Small(Signed(n.value, TWO_8)), at + 1))
    case AShort => var n := ReadU16(mem, at); if n.None? then None else Some((Short(Signed(n.value, TWO_16)), at + 2))
    case ALong => var n := ReadU32(mem, at); if n.None? then None else Some((Long(Signed(n.value, TWO_32)), at + 4))
    case ADouble => if at + 8 > |mem| then None else Some((Double(mem[at..at+8]), at + 8))
    case ManyRegs =>
      var n := ReadU8(mem, at);
      if n.None? || n.value > ARGC_MAX || at + 1 + n.value > |mem| then None
      else Some((Regs(ReadRegs(mem, at + 1, n.value)), at + 1 + n.value))
  }

  /** An operand that fits is read back. */
  lemma OperandBack(mem: seq<Byte>, at: nat, o: Operand)
    requires Fits(o) && StandsAt(mem, at, OperandBytes(o))
    ensures ReadOperand(mem, at, KindOf(o)) == Some((o, at + |OperandBytes(o)|))
  {
    hide ReadU8, ReadU16, ReadU32, StandsAt, Signed, ReadOperand, OperandBytes, Fits;
    match o
    case Reg(r) => RegBack(mem, at, r);
    case Addr(a) => AddrBack(mem, at, a);
    case Small(n) => SmallBack(mem, at, n);
    case Short(n) => ShortBack(mem, at, n);
    case Long(n) => LongBack(mem, at, n);
    case Double(bits) => DoubleBack(mem, at, bits);
    case Regs(rs) => RegsBack(mem, at, rs);
  }

  lemma RegBack(mem: seq<Byte>, at: nat, r: nat)
    requires Fits(Reg(r)) && StandsAt(mem, at, OperandBytes(Reg(r)))
    ensures ReadOperand(mem, at, AReg) == Some((Reg(r), at + |OperandBytes(Reg(r))|))
  {
    hide ReadU8, StandsAt;
    ReadsU8(mem, at, r);
  }

  lemma AddrBack(mem: seq<Byte>, at: nat, a: nat)
    requires Fits(Addr(a)) && StandsAt(mem, at, OperandBytes(Addr(a)))
    ensures ReadOperand(mem, at, AnAddr) == Some((Addr(a), at + |OperandBytes(Addr(a))|))
  {
    hide ReadU32, StandsAt;
    ReadsU32(mem, at, a);
  }

  lemma SmallBack(mem: seq<Byte>, at: nat, n: int)
    requires Fits(Small(n)) && StandsAt(mem, at, OperandBytes(Small(n)))
    ensures ReadOperand(mem, at, ASmall) == Some((Small(n), at + |OperandBytes(Small(n))|))
  {
    hide ReadU8, StandsAt, Signed;
    ReadsU8(mem, at, n);
    SignedBack(n);
  }

  lemma ShortBack(mem: seq<Byte>, at: nat, n: int)
    requires Fits(Short(n)) && StandsAt(mem, at, OperandBytes(Short(n)))
    ensures ReadOperand(mem, at, AShort) == Some((Short(n), at + |OperandBytes(Short(n))|))
  {
    hide ReadU16, StandsAt, Signed;
    ReadsU16(mem, at, n);
    SignedBack(n);
  }

  lemma LongBack(mem: seq<Byte>, at: nat, n: int)
    requires Fits(Long(n)) && StandsAt(mem, at, OperandBytes(Long(n)))
    ensures ReadOperand(mem, at, ALong) == Some((Long(n), at + |OperandBytes(Long(n))|))
  {
    hide ReadU32, StandsAt, Signed;
    ReadsU32(mem, at, n % TWO_32);
    SignedBack(n);
  }

  lemma DoubleBack(mem: seq<Byte>, at: nat, bits: seq<Byte>)
    requires Fits(Double(bits)) && StandsAt(mem, at, OperandBytes(Double(bits)))
    ensures ReadOperand(mem, at, ADouble) == Some((Double(bits), at + |OperandBytes(Double(bits))|))
  {
  }

  lemma RegsBack(mem: seq<Byte>, at: nat, rs: seq<nat>)
    requires Fits(Regs(rs)) && StandsAt(mem, at, OperandBytes(Regs(rs)))
    ensures ReadOperand(mem, at, ManyRegs) == Some((Regs(rs), at + |OperandBytes(Regs(rs))|))
  {
    StandsSplit(mem, at, U8(|rs|), RegBytes(rs));
    ReadsU8(mem, at, |rs|);
    assert ReadRegs(mem, at + 1, |rs|) == rs by {
      forall i | 0 <= i < |rs| ensures mem[at+1+i] == rs[i] { StandsIndex(mem, at + 1, RegBytes(rs), i); }
    }
  }

  // ----- instructions -----

  /** An instruction as C4 annotates it: its opcode, and its operands in the order
      in which they are written. */
  datatype TextItem = TextItem(opcode: nat, operands: seq<Operand>)

  function Kinds(operands: seq<Operand>): (r: seq<Kind>)
    ensures |r| == |operands| && forall i :: 0 <= i < |r| ==> r[i] == KindOf(operands[i])
  {
    seq(|operands|, i requires 0 <= i < |operands| => KindOf(operands[i]))
  }

  function AllBytes(operands: seq<Operand>): seq<Byte> {
    if operands == [] then [] else OperandBytes(operands[0]) + AllBytes(operands[1..])
  }

  function InstBytes(ti: TextItem): seq<Byte> { U8(ti.opcode) + AllBytes(ti.operands) }

  function ReadAll(mem: seq<Byte>, at: nat, kinds: seq<Kind>): Option<(seq<Operand>, nat)>
    decreases |kinds|
  {
    if kinds == [] then Some(([], at))
    else
      var first := ReadOperand(mem, at, kinds[0]);
      if first.None? then None
      else
        var rest := ReadAll(mem, first.value.1, kinds[1..]);
        if rest.None? then None else Some(([first.value.0] + rest.value.0, rest.value.1))
  }

  lemma ReadAllStep(mem: seq<Byte>, at: nat, kinds: seq<Kind>, o: Operand, next: nat, rest: seq<Operand>, end: nat)
    requires kinds != [] && ReadOperand(mem, at, kinds[0]) == Some((o, next)) &&
        ReadAll(mem, next, kinds[1..]) == Some((rest, end))
    ensures ReadAll(mem, at, kinds) == Some(([o] + rest, end))
  {
    hide ReadOperand;
  }

  lemma KindsTail(operands: seq<Operand>)
    requires operands != []
    ensures Kinds(operands) != [] && Kinds(operands)[0] == KindOf(operands[0]) &&
        Kinds(operands)[1..] == Kinds(operands[1..])
    ensures operands == [operands[0]] + operands[1..]
  {
    hide KindOf;
  }

  lemma AllBytesStep(operands: seq<Operand>)
    requires operands != []
    ensures AllBytes(operands) == OperandBytes(operands[0]) + AllBytes(operands[1..])
  {
    hide OperandBytes;
  }

  predicate AllFit(operands: seq<Operand>) { forall i :: 0 <= i < |operands| ==> Fits(operands[i]) }

  lemma AllFitTail(operands: seq<Operand>)
    requires operands != [] && AllFit(operands)
    ensures Fits(operands[0]) && AllFit(operands[1..])
  {
    hide Fits;
  }

  lemma NoneBack(mem: seq<Byte>, at: nat)
    ensures ReadAll(mem, at, Kinds([])) == Some(([], at + |AllBytes([])|))
  {
  }

  lemma {:induction false} AllBack(mem: seq<Byte>, at: nat, operands: seq<Operand>)
    requires StandsAt(mem, at, AllBytes(operands)) && AllFit(operands)
    ensures ReadAll(mem, at, Kinds(operands)) == Some((operands, at + |AllBytes(operands)|))
    decreases |operands|
  {
    hide *;
    if operands == [] {
      NoneBack(mem, at);
    } else {
      var first, rest := OperandBytes(operands[0]), operands[1..];
      AllBytesStep(operands);
      StandsSplit(mem, at, first, AllBytes(rest));
      AllFitTail(operands);
      OperandBack(mem, at, operands[0]);
      AllBack(mem, at + |first|, rest);
      KindsTail(operands);
      ReadAllStep(mem, at, Kinds(operands), operands[0], at + |first|, rest, at + |first| + |AllBytes(rest)|);
    }
  }

  /** What the machine fetches after each opcode it knows. */
  function Format(opcode: nat): Option<seq<Kind>> {
    if opcode in {0x00, 0x01, 0x02} then Some([])
    else if opcode in {0x03, 0x13, 0x17, 0x18, 0x1D, 0x1E, 0x1F, 0x20, 0x2D, 0x2E} then Some([AReg])
    else if opcode in {0x10, 0x1A} then Some([AnAddr])
    else if opcode in {0x11, 0x1B, 0x1C, 0x21, 0x2B} then Some([AReg, AnAddr])
    else if opcode == 0x19 then Some([AnAddr, AReg])
    else if opcode in {0x12, 0x50} then Some([AReg, AReg, AReg, AReg])
    else if opcode in {0x14, 0x16} then Some([AReg, AReg, ManyRegs])
    else if opcode == 0x15 then Some([AReg, AReg, AReg, ManyRegs])
    else if opcode == 0x23 then Some([AReg, ASmall])
    else if opcode == 0x24 then Some([AReg, AShort])
    else if opcode == 0x25 then Some([AReg, ALong])
    else if opcode == 0x2A then Some([AReg, ADouble])
    else if 0x30 <= opcode <= 0x3E || opcode == 0x51 then Some([AReg, AReg, AReg])
    else if 0x40 <= opcode <= 0x43 || opcode == 0x52 then Some([AReg, AReg])
    else None
  }

  /** Fetch the instruction at `at`, and tell where the next one begins. */
  function Fetched(mem: seq<Byte>, at: nat): Option<(TextItem, nat)> {
    var opcode := ReadU8(mem, at);
    if opcode.None? || Format(opcode.value).None? then None
    else
      var operands := ReadAll(mem, at + 1, Format(opcode.value).value);
      if operands.None? then None else Some((TextItem(opcode.value, operands.value.0), operands.value.1))
  }

  predicate Writable(ti: TextItem) {
    ti.opcode < TWO_8 && Format(ti.opcode) == Some(Kinds(ti.operands)) && AllFit(ti.operands)
  }

  /** The machine fetches what was written. */
  lemma FetchesWritten(mem: seq<Byte>, at: nat, ti: TextItem)
    requires Writable(ti) && StandsAt(mem, at, InstBytes(ti))
    ensures Fetched(mem, at) == Some((ti, at + |InstBytes(ti)|))
  {
    hide Format, ReadAll, AllBytes, Kinds, Fits, StandsAt, ReadU8;
    StandsSplit(mem, at, U8(ti.opcode), AllBytes(ti.operands));
    ReadsU8(mem, at, ti.opcode);
    AllBack(mem, at + 1, ti.operands);
  }
}
