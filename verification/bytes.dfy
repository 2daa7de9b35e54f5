/** Little-endian numbers and the buffer they are written to. */
module Bytes {
  import opened Ir

  const TWO_8: int := 0x100
  const TWO_16: int := 0x1_0000
  const TWO_32: int := 0x1_0000_0000

  /** The program's `int`. */
  type Int32 = n: int | -0x8000_0000 <= n < 0x8000_0000

  function U8(n: int): seq<Byte> { [n % TWO_8] }

  function U16(n: int): seq<Byte> { [n % TWO_8, n / TWO_8 % TWO_8] }

  function U32(n: int): seq<Byte> { [n % TWO_8, n / TWO_8 % TWO_8, n / TWO_16 % TWO_8, n / 0x100_0000 % TWO_8] }

  /** The least significant byte comes first. */
  lemma LeastComesFirst()
    ensures U32(0x0403_0201) == [1, 2, 3, 4] && U16(0x0201) == [1, 2]
  {
  }

  /** A number of `bound` values read as two's complement. */
  function Signed(n: nat, bound: nat): int { if 2 * n < bound then n else n - bound }

  function ReadU8(mem: seq<Byte>, at: nat): Option<nat> {
    if at + 1 > |mem| then None else Some(mem[at])
  }

  function ReadU16(mem: seq<Byte>, at: nat): Option<nat> {
    if at + 2 > |mem| then None else Some(mem[at] as int + mem[at+1] as int * TWO_8)
  }

  function ReadU32(mem: seq<Byte>, at: nat): Option<nat> {
    if at + 4 > |mem| then None
    else Some(mem[at] as int + mem[at+1] as int * TWO_8 + mem[at+2] as int * TWO_16 + mem[at+3] as int * 0x100_0000)
  }

  /** `part` stands in `mem` at `at`. */
  predicate StandsAt(mem: seq<Byte>, at: nat, part: seq<Byte>) {
    at + |part| <= |mem| && mem[at..at+|part|] == part
  }

  lemma StandsIndex(mem: seq<Byte>, at: nat, part: seq<Byte>, i: nat)
    requires StandsAt(mem, at, part) && i < |part|
    ensures mem[at+i] == part[i]
  {
    assert mem[at..at+|part|][i] == part[i];
  }

  lemma StandsSplit(mem: seq<Byte>, at: nat, a: seq<Byte>, b: seq<Byte>)
    ensures StandsAt(mem, at, a + b) <==> StandsAt(mem, at, a) && StandsAt(mem, at + |a|, b)
  {
    if at + |a| + |b| <= |mem| {
      var whole, left, right := mem[at..at+|a|+|b|], mem[at..at+|a|], mem[at+|a|..at+|a|+|b|];
      assert whole == left + right;
      if whole == a + b {
        assert left == whole[..|a|] == a;
        assert right == whole[|a|..] == b;
      }
    }
  }

  lemma U32Parts(n: int)
    requires 0 <= n < TWO_32
    ensures n % TWO_8 + n / TWO_8 % TWO_8 * TWO_8 + n / TWO_16 % TWO_8 * TWO_16 +
        n / 0x100_0000 % TWO_8 * 0x100_0000 == n
  {
    assert n / TWO_16 == n / TWO_8 / TWO_8;
    assert n / 0x100_0000 == n / TWO_16 / TWO_8;
  }

  /** Numbers are read back as they were written, modulo their width. */
  lemma ReadsU8(mem: seq<Byte>, at: nat, n: int)
    requires StandsAt(mem, at, U8(n))
    ensures ReadU8(mem, at) == Some(n % TWO_8)
  {
    StandsIndex(mem, at, U8(n), 0);
  }

  lemma ReadsU16(mem: seq<Byte>, at: nat, n: int)
    requires StandsAt(mem, at, U16(n))
    ensures ReadU16(mem, at) == Some(n % TWO_16)
  {
    StandsIndex(mem, at, U16(n), 0);
    StandsIndex(mem, at, U16(n), 1);
    U16Halves(n);
  }

  lemma U16Halves(n: int)
    ensures n % TWO_8 + n / TWO_8 % TWO_8 * TWO_8 == n % TWO_16
  {
    var high, low := n / TWO_8, n % TWO_8;
    assert n == high / TWO_8 * TWO_16 + (high % TWO_8 * TWO_8 + low);
  }

  lemma ReadsU32(mem: seq<Byte>, at: nat, n: int)
    requires StandsAt(mem, at, U32(n)) && 0 <= n < TWO_32
    ensures ReadU32(mem, at) == Some(n)
  {
    StandsIndex(mem, at, U32(n), 0);
    StandsIndex(mem, at, U32(n), 1);
    StandsIndex(mem, at, U32(n), 2);
    StandsIndex(mem, at, U32(n), 3);
    U32Parts(n);
  }

  lemma SignedBack(n: int)
    ensures -0x80 <= n < 0x80 ==> Signed(n % TWO_8, TWO_8) == n
    ensures -0x8000 <= n < 0x8000 ==> Signed(n % TWO_16, TWO_16) == n
    ensures -0x8000_0000 <= n < 0x8000_0000 ==> Signed(n % TWO_32, TWO_32) == n
  {
  }

  /** `xjs_bitwriter`: a buffer that grows. */
  class BitWriter {
    var body: array<Byte>
    var size: nat
    const inc: nat

    ghost predicate Valid()
      reads this
    {
      size < body.Length
    }

    /** What has been written. */
    ghost function Contents(): seq<Byte>
      reads this, body
      requires Valid()
    {
      body[..size]
    }

    constructor ()
      ensures Valid() && Contents() == [] && fresh(body)
    {
      body := new Byte[512](_ => 0);
      size := 0;
      inc := 512;
    }

    method Append(s: seq<Byte>)
      requires Valid()
      modifies this, body
      ensures Valid() && Contents() == old(Contents()) + s
      ensures body == old(body) || fresh(body)
    {
      if size + |s| + 1 >= body.Length {
        var extended := new Byte[size + |s| + 1 + inc](_ => 0);
        forall i | 0 <= i < size { extended[i] := body[i]; }
        forall i | 0 <= i < |s| { extended[size + i] := s[i]; }
        size := size + |s|;
        body := extended;
      } else {
        forall i | 0 <= i < |s| { body[size + i] := s[i]; }
        size := size + |s|;
        body[size] := 0;
      }
    }

    method WriteU8(n: int)
      requires Valid()
      modifies this, body
      ensures Valid() && Contents() == old(Contents()) + U8(n)
      ensures body == old(body) || fresh(body)
    {
      Append([n % TWO_8]);
    }

    method WriteU16(n: int)
      requires Valid()
      modifies this, body
      ensures Valid() && Contents() == old(Contents()) + U16(n)
      ensures body == old(body) || fresh(body)
    {
      Append([n % TWO_8, n / TWO_8 % TWO_8]);
    }

    method WriteU32(n: int)
      requires Valid()
      modifies this, body
      ensures Valid() && Contents() == old(Contents()) + U32(n)
      ensures body == old(body) || fresh(body)
    {
      Append([n % TWO_8, n / TWO_8 % TWO_8, n / TWO_16 % TWO_8, n / 0x100_0000 % TWO_8]);
    }
  }
}
