/** The bytecode file: header, index of sections, sections; and the loader. */
module XWriter {
  import opened Ir
  import opened Bytes

  const HEADER: seq<Byte> := [0x78, 0x6A, 0x73, 0x00, 0x01, 0x00, 0x01, 0x00]

  // ----- the file -----

  /** The sections that are not empty, among the first `n`. */
  function NonEmpty(secs: seq<seq<Byte>>, n: nat): seq<seq<Byte>>
    requires n <= |secs|
  {
    if n == 0 then [] else NonEmpty(secs, n - 1) + (if secs[n-1] == [] then [] else [secs[n-1]])
  }

  function PartStart(parts: seq<seq<Byte>>, n: nat): nat
    requires n <= |parts|
  {
    if n == 0 then 0 else PartStart(parts, n - 1) + |parts[n-1]|
  }

  function PartsBytes(parts: seq<seq<Byte>>, n: nat): seq<Byte>
    requires n <= |parts|
  {
    if n == 0 then [] else PartsBytes(parts, n - 1) + parts[n-1]
  }

  /** Offset and size of every section. */
  function EntriesBytes(parts: seq<seq<Byte>>, n: nat): seq<Byte>
    requires n <= |parts|
  {
    if n == 0 then [] else EntriesBytes(parts, n - 1) + U32(PartStart(parts, n - 1)) + U32(|parts[n-1]|)
  }

  function IndexBytes(parts: seq<seq<Byte>>): seq<Byte> { U32(|parts|) + EntriesBytes(parts, |parts|) }

  function FileBytes(parts: seq<seq<Byte>>): seq<Byte> { HEADER + IndexBytes(parts) + PartsBytes(parts, |parts|) }

  lemma PartsStep(parts: seq<seq<Byte>>, n: nat)
    requires n < |parts|
    ensures PartStart(parts, n + 1) == PartStart(parts, n) + |parts[n]|
    ensures PartsBytes(parts, n + 1) == PartsBytes(parts, n) + parts[n]
    ensures EntriesBytes(parts, n + 1) == EntriesBytes(parts, n) + U32(PartStart(parts, n)) + U32(|parts[n]|)
  {
  }

  lemma NoParts(parts: seq<seq<Byte>>)
    ensures PartStart(parts, 0) == 0 && PartsBytes(parts, 0) == [] && EntriesBytes(parts, 0) == []
  {
  }

  lemma {:induction false} PartsSize(parts: seq<seq<Byte>>, n: nat)
    requires n <= |parts|
    ensures |PartsBytes(parts, n)| == PartStart(parts, n)
    ensures |EntriesBytes(parts, n)| == 8 * n
  {
    hide U32;
    if n > 0 {
      PartsSize(parts, n - 1);
      U32Size(PartStart(parts, n - 1));
      U32Size(|parts[n-1]|);
    }
  }

  lemma U32Size(n: int)
    ensures |U32(n)| == 4
  {
  }

  /** What was kept depends on the kept prefix only. */
  lemma {:induction false} PrefixStart(a: seq<seq<Byte>>, b: seq<seq<Byte>>, n: nat)
    requires n <= |a| <= |b| && a == b[..|a|]
    ensures PartStart(a, n) == PartStart(b, n) && PartsBytes(a, n) == PartsBytes(b, n) &&
        EntriesBytes(a, n) == EntriesBytes(b, n)
  {
    hide U32;
    if n > 0 {
      PrefixStart(a, b, n - 1);
      assert a[n-1] == b[n-1];
    }
  }

  /** Leaving out empty sections changes neither the bytes nor where a section is. */
  lemma {:induction false} KeptSame(secs: seq<seq<Byte>>, n: nat)
    requires n <= |secs|
    ensures PartsBytes(NonEmpty(secs, n), |NonEmpty(secs, n)|) == PartsBytes(secs, n)
    ensures PartStart(NonEmpty(secs, n), |NonEmpty(secs, n)|) == PartStart(secs, n)
    decreases n
  {
    hide EntriesBytes;
    if n > 0 {
      var before, after := NonEmpty(secs, n - 1), NonEmpty(secs, n);
      KeptSame(secs, n - 1);
      PartsStep(secs, n - 1);
      if secs[n-1] == [] {
        assert after == before;
      } else {
        assert after[..|before|] == before && after[|before|] == secs[n-1];
        PrefixStart(before, after, |before|);
        PartsStep(after, |before|);
      }
    }
  }

  // ----- writing -----

  lemma KeptStep(secs: seq<seq<Byte>>, i: nat)
    requires i < |secs|
    ensures NonEmpty(secs, i + 1) == if secs[i] == [] then NonEmpty(secs, i) else NonEmpty(secs, i) + [secs[i]]
  {
  }

  lemma NoneKept(secs: seq<seq<Byte>>)
    ensures NonEmpty(secs, 0) == []
  {
  }

  method CountSections(secs: seq<seq<Byte>>) returns (count: nat)
    ensures count == |NonEmpty(secs, |secs|)|
  {
    hide NonEmpty;
    count := 0;
    var i := 0;
    NoneKept(secs);
    while i < |secs|
      invariant 0 <= i <= |secs| && count == |NonEmpty(secs, i)|
    {
      KeptStep(secs, i);
      if |secs[i]| != 0 { count := count + 1; }
      i := i + 1;
    }
  }

  /** `xjs_c4_write_index` */
  method WriteIndex(bw: BitWriter, secs: seq<seq<Byte>>)
    requires bw.Valid() && bw.Contents() == []
    modifies bw, bw.body
    ensures bw.Valid() && bw.Contents() == IndexBytes(NonEmpty(secs, |secs|))
    ensures bw.body == old(bw.body) || fresh(bw.body)
  {
    hide U32, EntriesBytes, NonEmpty, PartStart;
    var count := CountSections(secs);
    bw.WriteU32(count);
    NoneKept(secs);
    NoParts([]);
    var offset, i := 0, 0;
    while i < |secs|
      invariant 0 <= i <= |secs| && bw.Valid() && (bw.body == old(bw.body) || fresh(bw.body))
      invariant offset == PartStart(NonEmpty(secs, i), |NonEmpty(secs, i)|)
      invariant bw.Contents() == U32(count) + EntriesBytes(NonEmpty(secs, i), |NonEmpty(secs, i)|)
    {
      if |secs[i]| != 0 {
        KeptMore(secs, i);
        bw.WriteU32(offset);
        bw.WriteU32(|secs[i]|);
        offset := offset + |secs[i]|;
      } else {
        KeptStep(secs, i);
      }
      i := i + 1;
    }
  }

  lemma KeptMore(secs: seq<seq<Byte>>, i: nat)
    requires i < |secs| && secs[i] != []
    ensures var a, b := NonEmpty(secs, i), NonEmpty(secs, i + 1);
      && EntriesBytes(b, |b|) == EntriesBytes(a, |a|) + U32(PartStart(a, |a|)) + U32(|secs[i]|)
      && PartStart(b, |b|) == PartStart(a, |a|) + |secs[i]|
  {
    hide U32, EntriesBytes, PartsBytes;
    var a, b := NonEmpty(secs, i), NonEmpty(secs, i + 1);
    assert b[..|a|] == a && b[|a|] == secs[i];
    PrefixStart(a, b, |a|);
    PartsStep(b, |a|);
  }

  /** The final copy of all buffers into one, by a moving pointer. */
  method Concatenate(header: seq<Byte>, index: seq<Byte>, secs: seq<seq<Byte>>) returns (bytecode: array<Byte>)
    ensures fresh(bytecode) && bytecode[..] == header + index + PartsBytes(secs, |secs|)
  {
    hide PartsBytes, PartStart;
    var len, i := |header| + |index|, 0;
    NoParts(secs);
    while i < |secs|
      invariant 0 <= i <= |secs| && len == |header| + |index| + PartStart(secs, i)
    {
      PartsStep(secs, i);
      len := len + |secs[i]|;
      i := i + 1;
    }
    bytecode := new Byte[len](_ => 0);
    PartsSize(secs, |secs|);
    var p := Copy(bytecode, 0, header, []);
    p := Copy(bytecode, p, index, header);
    CopySections(bytecode, p, secs, header + index);
  }

  /** The sections are copied behind what has been copied. */
  method CopySections(a: array<Byte>, at: nat, secs: seq<seq<Byte>>, ghost before: seq<Byte>)
    requires at == |before| && a.Length == at + PartStart(secs, |secs|) && a[..at] == before
    modifies a
    ensures a[..] == before + PartsBytes(secs, |secs|)
  {
    hide PartsBytes, PartStart;
    NoParts(secs);
    var p, i := at, 0;
    PartsFollow(before, [], []);
    while i < |secs|
      invariant 0 <= i <= |secs| && p == at + PartStart(secs, i) <= a.Length
      invariant a[..p] == before + PartsBytes(secs, i)
    {
      PartsStep(secs, i);
      StartsWithin(secs, i + 1);
      ghost var copied := before + PartsBytes(secs, i);
      PartsSize(secs, i);
      PartsFollow(before, PartsBytes(secs, i), secs[i]);
      p := Copy(a, p, secs[i], copied);
      i := i + 1;
    }
    assert a[..p] == a[..];
  }

  lemma PartsFollow(a: seq<Byte>, b: seq<Byte>, c: seq<Byte>)
    ensures a + b + c == a + (b + c) && a + [] == a
  {
  }

  lemma {:induction false} StartsWithin(parts: seq<seq<Byte>>, n: nat)
    requires n <= |parts|
    ensures PartStart(parts, n) <= PartStart(parts, |parts|)
    decreases |parts| - n
  {
    if n < |parts| {
      PartsStep(parts, n);
      StartsWithin(parts, n + 1);
    }
  }

  /** Bytes are copied behind what has been copied; where to go on is returned. */
  method Copy(a: array<Byte>, at: nat, s: seq<Byte>, ghost before: seq<Byte>) returns (next: nat)
    requires at == |before| && at + |s| <= a.Length && a[..at] == before
    modifies a
    ensures next == at + |s| && a[..next] == before + s
  {
    forall i | 0 <= i < |s| { a[at + i] := s[i]; }
    next := at + |s|;
    CopiedBoth(a[..next], before, s);
  }

  lemma CopiedBoth(whole: seq<Byte>, a: seq<Byte>, b: seq<Byte>)
    requires |whole| == |a| + |b| && (forall i :: 0 <= i < |a| ==> whole[i] == a[i])
    requires forall i :: 0 <= i < |b| ==> whole[|a|+i] == b[i]
    ensures whole == a + b
  {
  }
}
