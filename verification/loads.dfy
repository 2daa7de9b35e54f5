/** Loading a written file recovers it. */
module Loads {
  import opened Ir
  import opened Bytes
  import opened XWriter
  import opened Loader

  /** Every section has its signature, and offsets fit their width. */
  ghost predicate Sound(parts: seq<seq<Byte>>) {
    |FileBytes(parts)| < TWO_32 && forall k :: 0 <= k < |parts| ==> |parts[k]| >= 4
  }

  function TypeOf(part: seq<Byte>): nat { if ReadU32(part, 0).Some? then ReadU32(part, 0).value else 0 }

  function Base(parts: seq<seq<Byte>>): nat { 12 + 8 * |parts| }

  lemma ReadWithin(mem: seq<Byte>, at: nat, part: seq<Byte>, j: nat)
    requires StandsAt(mem, at, part)
    ensures j + 4 <= |part| ==> ReadU32(mem, at + j) == ReadU32(part, j)
    ensures j + 2 <= |part| ==> ReadU16(mem, at + j) == ReadU16(part, j)
  {
    forall i | 0 <= i < |part| ensures mem[at+i] == part[i] { StandsIndex(mem, at, part, i); }
  }

  lemma {:induction false} PartStands(parts: seq<seq<Byte>>, n: nat, k: nat, mem: seq<Byte>, at: nat)
    requires k < n <= |parts| && StandsAt(mem, at, PartsBytes(parts, n))
    ensures StandsAt(mem, at + PartStart(parts, k), parts[k])
    decreases n
  {
    hide StandsAt, PartsBytes, PartStart;
    PartsStep(parts, n - 1);
    PartsSize(parts, n - 1);
    StandsSplit(mem, at, PartsBytes(parts, n - 1), parts[n-1]);
    if k < n - 1 { PartStands(parts, n - 1, k, mem, at); }
  }

  lemma {:induction false} EntryStands(parts: seq<seq<Byte>>, n: nat, k: nat, mem: seq<Byte>, at: nat)
    requires k < n <= |parts| && StandsAt(mem, at, EntriesBytes(parts, n))
    ensures StandsAt(mem, at + 8 * k, U32(PartStart(parts, k)))
    ensures StandsAt(mem, at + 8 * k + 4, U32(|parts[k]|))
    decreases n
  {
    hide StandsAt, EntriesBytes, PartStart, U32;
    PartsStep(parts, n - 1);
    PartsSize(parts, n - 1);
    U32Size(PartStart(parts, n - 1));
    StandsSplit(mem, at, EntriesBytes(parts, n - 1) + U32(PartStart(parts, n - 1)), U32(|parts[n-1]|));
    StandsSplit(mem, at, EntriesBytes(parts, n - 1), U32(PartStart(parts, n - 1)));
    if k < n - 1 { EntryStands(parts, n - 1, k, mem, at); }
  }

  lemma StandsWhole(mem: seq<Byte>)
    ensures StandsAt(mem, 0, mem)
  {
  }

  /** Where the parts of a file stand. */
  lemma FileStands(parts: seq<seq<Byte>>)
    ensures var mem := FileBytes(parts);
      && StandsAt(mem, 0, HEADER) && StandsAt(mem, 8, U32(|parts|)) && StandsAt(mem, 12, EntriesBytes(parts, |parts|))
      && StandsAt(mem, Base(parts), PartsBytes(parts, |parts|))
  {
    hide StandsAt, EntriesBytes, PartsBytes, U32;
    var mem := FileBytes(parts);
    StandsWhole(mem);
    U32Size(|parts|);
    PartsSize(parts, |parts|);
    StandsSplit(mem, 0, HEADER + IndexBytes(parts), PartsBytes(parts, |parts|));
    StandsSplit(mem, 0, HEADER, IndexBytes(parts));
    StandsSplit(mem, 8, U32(|parts|), EntriesBytes(parts, |parts|));
  }

  /** What the loader reads of entry `k`. */
  lemma EntryReads(parts: seq<seq<Byte>>, k: nat)
    requires Sound(parts) && k < |parts|
    ensures var mem := FileBytes(parts);
      && ReadU32(mem, 12 + 8 * k) == Some(PartStart(parts, k)) && ReadU32(mem, 12 + 8 * k + 4) == Some(|parts[k]|)
      && ReadU32(mem, Base(parts) + PartStart(parts, k)) == Some(TypeOf(parts[k]))
      && StandsAt(mem, Base(parts) + PartStart(parts, k), parts[k])
  {
    hide StandsAt, EntriesBytes, PartsBytes, PartStart, U32, FileBytes;
    var mem := FileBytes(parts);
    FileStands(parts);
    EntryStands(parts, |parts|, k, mem, 12);
    PartStands(parts, |parts|, k, mem, Base(parts));
    Within(mem, Base(parts) + PartStart(parts, k), parts[k]);
    ReadsU32(mem, 12 + 8 * k, PartStart(parts, k));
    ReadsU32(mem, 12 + 8 * k + 4, |parts[k]|);
    ReadWithin(mem, Base(parts) + PartStart(parts, k), parts[k], 0);
  }

  lemma Within(mem: seq<Byte>, at: nat, part: seq<Byte>)
    requires StandsAt(mem, at, part)
    ensures at + |part| <= |mem|
  {
  }

  /** No section from `k` on is of the type. */
  ghost predicate NoneFrom(parts: seq<seq<Byte>>, k: nat, n: nat, typ: nat) {
    forall j :: k <= j < n && j < |parts| ==> TypeOf(parts[j]) != typ
  }

  /** The loader goes through the whole index. */
  lemma {:induction false} IndexRecovers(parts: seq<seq<Byte>>, n: nat, s: Sections)
    requires Sound(parts) && n <= |parts|
    ensures IndexLoaded(FileBytes(parts), Base(parts), n, s).Some?
    decreases n
  {
    hide FileBytes, ReadU32, PartStart, Recorded, StandsAt, Sound;
    if n > 0 {
      IndexRecovers(parts, n - 1, s);
      EntryReads(parts, n - 1);
    }
  }

  /** The last section of a known type is the one that is found. */
  lemma {:induction false} SectionRecovers(parts: seq<seq<Byte>>, n: nat, s: Sections, k: nat)
    requires Sound(parts) && k < n <= |parts| && Known(TypeOf(parts[k])) && NoneFrom(parts, k + 1, n, TypeOf(parts[k]))
    requires IndexLoaded(FileBytes(parts), Base(parts), n, s).Some?
    ensures SectionOf(IndexLoaded(FileBytes(parts), Base(parts), n, s).value, TypeOf(parts[k])) == Base(parts) +
        PartStart(parts, k)
    decreases n
  {
    hide FileBytes, ReadU32, PartStart, Recorded, SectionOf, StandsAt, Sound, Known, TypeOf;
    EntryReads(parts, n - 1);
    IndexRecovers(parts, n - 1, s);
    var before := IndexLoaded(FileBytes(parts), Base(parts), n - 1, s).value;
    RecordedIn(before, TypeOf(parts[n-1]), Base(parts) + PartStart(parts, n - 1), TypeOf(parts[k]));
    if k < n - 1 {
      assert TypeOf(parts[n-1]) != TypeOf(parts[k]);
      SectionRecovers(parts, n - 1, s, k);
    }
  }

  // ----- the attribute section -----

  const ATTR_SIGNATURE: seq<Byte> := [0x61, 0x74, 0x74, 0x72]

  function AttrBytes(toplevel: nat): seq<Byte> {
    ATTR_SIGNATURE + U32(1) + U32(0) + U16(TOPLEVEL_ATTR) + U32(toplevel)
  }

  /** One attribute, at offset 0, of kind 1. */
  lemma AttrLooks(toplevel: nat)
    ensures AttrBytes(toplevel) == [0x61, 0x74, 0x74, 0x72, 1, 0, 0, 0, 0, 0, 0, 0, 1, 0] + U32(toplevel)
  {
    assert U32(1) == [1, 0, 0, 0] && U32(0) == [0, 0, 0, 0] && U16(1) == [1, 0];
    hide U32;
    assert ATTR_SIGNATURE + U32(1) + U32(0) + U16(1) == [0x61, 0x74, 0x74, 0x72, 1, 0, 0, 0, 0, 0, 0, 0, 1, 0];
  }

  /** `xjs_c4_write_attr` */
  method WriteAttr(bw: BitWriter, toplevel: nat)
    requires bw.Valid() && bw.Contents() == []
    modifies bw, bw.body
    ensures bw.Valid() && bw.Contents() == AttrBytes(toplevel)
    ensures bw.body == old(bw.body) || fresh(bw.body)
  {
    hide U16, U32;
    bw.Append(ATTR_SIGNATURE);
    bw.WriteU32(1);
    bw.WriteU32(0);
    bw.WriteU16(TOPLEVEL_ATTR);
    bw.WriteU32(toplevel);
  }

  lemma AttrReads(mem: seq<Byte>, at: nat, toplevel: nat)
    requires StandsAt(mem, at, AttrBytes(toplevel)) && toplevel < TWO_32
    ensures ReadU32(mem, at + 4) == Some(1) && ReadU32(mem, at + 8) == Some(0)
    ensures ReadU16(mem, at + 12) == Some(TOPLEVEL_ATTR) && ReadU32(mem, at + 14) == Some(toplevel)
  {
    hide StandsAt, ReadU16, ReadU32;
    var a := ATTR_SIGNATURE;
    StandsSplit(mem, at, a + U32(1) + U32(0) + U16(TOPLEVEL_ATTR), U32(toplevel));
    StandsSplit(mem, at, a + U32(1) + U32(0), U16(TOPLEVEL_ATTR));
    StandsSplit(mem, at, a + U32(1), U32(0));
    StandsSplit(mem, at, a, U32(1));
    ReadsU32(mem, at + 4, 1);
    ReadsU32(mem, at + 8, 0);
    ReadsU16(mem, at + 12, TOPLEVEL_ATTR);
    ReadsU32(mem, at + 14, toplevel);
  }

  lemma AttrType(toplevel: nat)
    ensures TypeOf(AttrBytes(toplevel)) == ATTR_TYPE && |AttrBytes(toplevel)| == 18
  {
    var b := AttrBytes(toplevel);
    assert b[0] == 0x61 && b[1] == 0x74 && b[2] == 0x74 && b[3] == 0x72;
  }

  lemma OneAttr(mem: seq<Byte>, attr: nat, toplevel: nat, pc: nat)
    requires ReadU32(mem, attr + 4) == Some(1) && ReadU32(mem, attr + 8) == Some(0)
    requires ReadU16(mem, attr + 12) == Some(TOPLEVEL_ATTR) && ReadU32(mem, attr + 14) == Some(toplevel)
    ensures AttrsLoaded(mem, attr, attr + 12, 1, pc) == Some(toplevel)
  {
    hide ReadU16, ReadU32;
    assert AttrsLoaded(mem, attr, attr + 12, 0, pc) == Some(pc);
  }

  /** Loading a written file succeeds, finds every recognised section where the writer
      placed it, and starts at the top-level function. */
  lemma FileRecovers(parts: seq<seq<Byte>>, a: nat, toplevel: nat, s: Sections, pc: nat)
    requires Sound(parts) && a < |parts| && parts[a] == AttrBytes(toplevel) && toplevel < TWO_32
    requires NoneFrom(parts, a + 1, |parts|, ATTR_TYPE)
    ensures Loaded(FileBytes(parts), s, pc).Some? && Loaded(FileBytes(parts), s, pc).value.1 == toplevel
    ensures forall k ::
      0 <= k < |parts| && Known(TypeOf(parts[k])) && NoneFrom(parts, k + 1, |parts|, TypeOf(parts[k])) ==>
      SectionOf(Loaded(FileBytes(parts), s, pc).value.0, TypeOf(parts[k])) == Base(parts) + PartStart(parts, k)
  {
    var mem := FileBytes(parts);
    hide FileBytes, ReadU32, ReadU16, PartStart, StandsAt, IndexLoaded, AttrsLoaded, NoneFrom, Sound, TypeOf, AttrBytes;
    FileStands(parts);
    HeaderThere(mem);
    CountReads(parts);
    IndexRecovers(parts, |parts|, s);
    var secs := IndexLoaded(mem, Base(parts), |parts|, s).value;
    AttrType(toplevel);
    SectionRecovers(parts, |parts|, s, a);
    EntryReads(parts, a);
    AttrReads(mem, secs.attr, toplevel);
    OneAttr(mem, secs.attr, toplevel, pc);
    forall k | 0 <= k < |parts| && Known(TypeOf(parts[k])) && NoneFrom(parts, k + 1, |parts|, TypeOf(parts[k]))
      ensures SectionOf(secs, TypeOf(parts[k])) == Base(parts) + PartStart(parts, k)
    {
      SectionRecovers(parts, |parts|, s, k);
    }
  }

  lemma HeaderThere(mem: seq<Byte>)
    requires StandsAt(mem, 0, HEADER)
    ensures HeaderOk(mem)
  {
  }

  lemma CountReads(parts: seq<seq<Byte>>)
    requires Sound(parts)
    ensures ReadU32(FileBytes(parts), 8) == Some(|parts|)
  {
    FileStands(parts);
    PartsSize(parts, |parts|);
    hide StandsAt, ReadU32, EntriesBytes, PartsBytes;
    ReadsU32(FileBytes(parts), 8, |parts|);
  }
}
