/** The loader of the debugger, and that it recovers what was written. */
module Loader {
  import opened Ir
  import opened Bytes
  import opened XWriter

  datatype Sections = Sections(data: nat, text: nat, attr: nat, expr: nat, impr: nat, dbg0: nat)

  const DATA_TYPE := 0x61746164
  const TEXT_TYPE := 0x74786574
  const ATTR_TYPE := 0x72747461
  const EXPR_TYPE := 0x74707865
  const IMPR_TYPE := 0x74706D69
  const DBG0_TYPE := 0x30676264
  const TOPLEVEL_ATTR := 1

  function Recorded(s: Sections, typ: nat, at: nat): Sections {
    if typ == DATA_TYPE then s.(data := at)
    else if typ == TEXT_TYPE then s.(text := at)
    else if typ == ATTR_TYPE then s.(attr := at)
    else if typ == EXPR_TYPE then s.(expr := at)
    else if typ == IMPR_TYPE then s.(impr := at)
    else if typ == DBG0_TYPE then s.(dbg0 := at)
    else s
  }

  /** The field of a type of section. */
  function SectionOf(s: Sections, typ: nat): nat {
    if typ == DATA_TYPE then s.data
    else if typ == TEXT_TYPE then s.text
    else if typ == ATTR_TYPE then s.attr
    else if typ == EXPR_TYPE then s.expr
    else if typ == IMPR_TYPE then s.impr
    else s.dbg0
  }

  /** `data`, `text`, `attr`, `expt`, `impt` and `dbg0`, read as numbers, each go to their own
      field; no other type is recorded. */
  lemma TypesAreRecorded(s: Sections, typ: nat, at: nat)
    ensures Recorded(s, 0x61746164, at) == s.(data := at) && Recorded(s, 0x74786574, at) == s.(text := at)
    ensures Recorded(s, 0x72747461, at) == s.(attr := at) && Recorded(s, 0x74707865, at) == s.(expr := at)
    ensures Recorded(s, 0x74706D69, at) == s.(impr := at) && Recorded(s, 0x30676264, at) == s.(dbg0 := at)
    ensures !Known(typ) ==> Recorded(s, typ, at) == s
    ensures Known(typ) ==> SectionOf(Recorded(s, typ, at), typ) == at
  {
  }

  predicate Known(typ: nat) { typ in {DATA_TYPE, TEXT_TYPE, ATTR_TYPE, EXPR_TYPE, IMPR_TYPE, DBG0_TYPE} }

  // ----- what the loader computes -----

  /** The sections after the first `n` entries of the index. */
  function IndexLoaded(bc: seq<Byte>, base: nat, n: nat, s: Sections): Option<Sections> {
    if n == 0 then Some(s)
    else
      var before := IndexLoaded(bc, base, n - 1, s);
      var offset, size := ReadU32(bc, 12 + 8 * (n - 1)), ReadU32(bc, 12 + 8 * (n - 1) + 4);
      if before.None? || offset.None? || size.None? then None
      else
        var typ := ReadU32(bc, base + offset.value);
        if typ.None? then None else Some(Recorded(before.value, typ.value, base + offset.value))
  }

  /** The initial program counter after the first `n` attributes. */
  function AttrsLoaded(bc: seq<Byte>, attr: nat, base: nat, n: nat, pc: nat): Option<nat> {
    if n == 0 then Some(pc)
    else
      var before := AttrsLoaded(bc, attr, base, n - 1, pc);
      var offset := ReadU32(bc, attr + 8 + 4 * (n - 1));
      if before.None? || offset.None? then None
      else
        var typ := ReadU16(bc, base + offset.value);
        if typ.None? then None
        else if typ.value == TOPLEVEL_ATTR then ReadU32(bc, base + offset.value + 2)
        else before
  }

  predicate HeaderOk(bc: seq<Byte>) { HEADER <= bc }

  function Loaded(bc: seq<Byte>, s: Sections, pc: nat): Option<(Sections, nat)> {
    if !HeaderOk(bc) then None
    else
      var count := ReadU32(bc, 8);
      if count.None? then None
      else
        var secs := IndexLoaded(bc, 12 + 8 * count.value, count.value, s);
        if secs.None? then None
        else
          var attrs := ReadU32(bc, secs.value.attr + 4);
          if attrs.None? then None
          else
            var init := AttrsLoaded(bc, secs.value.attr, secs.value.attr + 8 + 4 * attrs.value, attrs.value, pc);
            if init.None? then None else Some((secs.value, init.value))
  }

  // ----- what that comes to -----

  /** Entry `i` of the index and the type of its section can be read. */
  predicate Readable(bc: seq<Byte>, base: nat, i: nat) {
    && ReadU32(bc, 12 + 8 * i).Some? && ReadU32(bc, 12 + 8 * i + 4).Some?
    && ReadU32(bc, base + ReadU32(bc, 12 + 8 * i).value).Some?
  }

  predicate OfType(bc: seq<Byte>, base: nat, i: nat, typ: nat) {
    Readable(bc, base, i) && ReadU32(bc, base + ReadU32(bc, 12 + 8 * i).value) == Some(typ)
  }

  /** The index is loaded exactly when all of it can be read. */
  lemma {:induction false} IndexSucceeds(bc: seq<Byte>, base: nat, n: nat, s: Sections)
    ensures IndexLoaded(bc, base, n, s).Some? <==> forall i: nat :: i < n ==> Readable(bc, base, i)
  {
    hide ReadU32, Recorded;
    if n > 0 {
      var last: nat := n - 1;
      IndexSucceeds(bc, base, last, s);
      assert IndexLoaded(bc, base, n, s).Some? <==> IndexLoaded(bc, base, last, s).Some? && Readable(bc, base, last);
    }
  }

  /** Of a type the last section counts; without one the field stays as it was. */
  lemma {:induction false} LastOfTypeCounts(bc: seq<Byte>, base: nat, n: nat, s: Sections, typ: nat, i: nat)
    requires IndexLoaded(bc, base, n, s).Some? && Known(typ)
    ensures (forall j: nat :: j < n ==> !OfType(bc, base, j, typ)) ==>
      SectionOf(IndexLoaded(bc, base, n, s).value, typ) == SectionOf(s, typ)
    ensures i < n && OfType(bc, base, i, typ) && (forall j: nat :: i < j < n ==> !OfType(bc, base, j, typ)) ==>
      SectionOf(IndexLoaded(bc, base, n, s).value, typ) == base + ReadU32(bc, 12 + 8 * i).value
  {
    hide ReadU32, Recorded, SectionOf, Known;
    if n > 0 {
      LastOfTypeCounts(bc, base, n - 1, s, typ, i);
      var here := ReadU32(bc, base + ReadU32(bc, 12 + 8 * (n - 1)).value).value;
      assert OfType(bc, base, n - 1, here);
      RecordedIn(IndexLoaded(bc, base, n - 1, s).value, here, base + ReadU32(bc, 12 + 8 * (n - 1)).value, typ);
    }
  }

  lemma RecordedIn(s: Sections, typ: nat, at: nat, other: nat)
    requires Known(other)
    ensures SectionOf(Recorded(s, typ, at), other) == if typ == other then at else SectionOf(s, other)
  {
  }

  predicate AttrReadable(bc: seq<Byte>, attr: nat, base: nat, i: nat) {
    && ReadU32(bc, attr + 8 + 4 * i).Some?
    && var typ := ReadU16(bc, base + ReadU32(bc, attr + 8 + 4 * i).value);
       typ.Some? && (typ == Some(1) ==> ReadU32(bc, base + ReadU32(bc, attr + 8 + 4 * i).value + 2).Some?)
  }

  predicate IsStart(bc: seq<Byte>, attr: nat, base: nat, i: nat) {
    AttrReadable(bc, attr, base, i) && ReadU16(bc, base + ReadU32(bc, attr + 8 + 4 * i).value) == Some(1)
  }

  /** The attributes are loaded exactly when all of them can be read. */
  lemma {:induction false} AttrsSucceed(bc: seq<Byte>, attr: nat, base: nat, n: nat, pc: nat)
    ensures AttrsLoaded(bc, attr, base, n, pc).Some? <==> forall i: nat :: i < n ==> AttrReadable(bc, attr, base, i)
  {
    hide ReadU32, ReadU16;
    if n > 0 {
      var last: nat := n - 1;
      AttrsSucceed(bc, attr, base, last, pc);
      assert AttrsLoaded(bc, attr, base, n, pc).Some? <==>
        AttrsLoaded(bc, attr, base, last, pc).Some? && AttrReadable(bc, attr, base, last);
    }
  }

  /** The last attribute that says where to start counts. */
  lemma {:induction false} LastStartCounts(bc: seq<Byte>, attr: nat, base: nat, n: nat, pc: nat, i: nat)
    requires AttrsLoaded(bc, attr, base, n, pc).Some?
    ensures (forall j: nat :: j < n ==> !IsStart(bc, attr, base, j)) ==> AttrsLoaded(bc, attr, base, n, pc).value == pc
    ensures i < n && IsStart(bc, attr, base, i) && (forall j: nat :: i < j < n ==> !IsStart(bc, attr, base, j)) ==>
      AttrsLoaded(bc, attr, base, n, pc) == ReadU32(bc, base + ReadU32(bc, attr + 8 + 4 * i).value + 2)
  {
    hide ReadU32, ReadU16;
    AttrsSucceed(bc, attr, base, n, pc);
    if n > 0 {
      var last: nat := n - 1;
      AttrsSucceed(bc, attr, base, last, pc);
      assert AttrReadable(bc, attr, base, last);
      assert AttrsLoaded(bc, attr, base, n, pc) == if IsStart(bc, attr, base, last)
        then ReadU32(bc, base + ReadU32(bc, attr + 8 + 4 * last).value + 2) else AttrsLoaded(bc, attr, base, last, pc);
      LastStartCounts(bc, attr, base, last, pc, i);
    }
  }

  lemma {:induction false} IndexFails(bc: seq<Byte>, base: nat, n: nat, m: nat, s: Sections)
    requires n <= m && IndexLoaded(bc, base, n, s).None?
    ensures IndexLoaded(bc, base, m, s).None?
    decreases m
  {
    if n < m { IndexFails(bc, base, n, m - 1, s); }
  }

  class XFile {
    var bc: seq<Byte>
    var sections: Sections
    var initPc: nat

    constructor ()
      ensures sections == Sections(0, 0, 0, 0, 0, 0) && initPc == 0
    {
      bc, sections, initPc := [], Sections(0, 0, 0, 0, 0, 0), 0;
    }

    /** The index of sections. */
    method LoadIndex(count: nat, base: nat) returns (ok: bool)
      modifies this`sections
      ensures ok <==> IndexLoaded(bc, base, count, old(sections)).Some?
      ensures ok ==> sections == IndexLoaded(bc, base, count, old(sections)).value
    {
      hide ReadU32, Recorded;
      var i := 0;
      while i < count
        invariant 0 <= i <= count
        invariant IndexLoaded(bc, base, i, old(sections)) == Some(sections)
      {
        var offset, size := ReadU32(bc, 12 + 8 * i), ReadU32(bc, 12 + 8 * i + 4);
        if offset.None? || size.None? {
          IndexFails(bc, base, i + 1, count, old(sections));
          return false;
        }
        var typ := ReadU32(bc, base + offset.value);
        if typ.None? {
          IndexFails(bc, base, i + 1, count, old(sections));
          return false;
        }
        sections := Recorded(sections, typ.value, base + offset.value);
        i := i + 1;
      }
      return true;
    }

    method LoadAttrs(attr: nat, count: nat, base: nat) returns (ok: bool)
      modifies this`initPc
      ensures ok ==> AttrsLoaded(bc, attr, base, count, old(initPc)) == Some(initPc)
      ensures !ok ==> AttrsLoaded(bc, attr, base, count, old(initPc)).None?
    {
      hide ReadU32, ReadU16;
      var i := 0;
      while i < count
        invariant 0 <= i <= count
        invariant AttrsLoaded(bc, attr, base, i, old(initPc)) == Some(initPc)
      {
        var offset := ReadU32(bc, attr + 8 + 4 * i);
        if offset.None? {
          AttrsNone(bc, attr, base, i + 1, count, old(initPc));
          return false;
        }
        var typ := ReadU16(bc, base + offset.value);
        if typ.None? {
          AttrsNone(bc, attr, base, i + 1, count, old(initPc));
          return false;
        }
        if typ.value == TOPLEVEL_ATTR {
          var pc := ReadU32(bc, base + offset.value + 2);
          if pc.None? {
            AttrsNone(bc, attr, base, i + 1, count, old(initPc));
            return false;
          }
          initPc := pc.value;
        }
        i := i + 1;
      }
      return true;
    }

    /** `xjdb_xfile_load` */
    method Load(bytes: seq<Byte>) returns (ok: bool)
      modifies this
      ensures ok ==> bc == bytes && Loaded(bytes, old(sections), old(initPc)) == Some((sections, initPc))
      ensures !ok ==> Loaded(bytes, old(sections), old(initPc)).None?
      ensures ok ==> |bytes| >= 8 && bytes[..8] == [0x78, 0x6A, 0x73, 0x00, 0x01, 0x00, 0x01, 0x00]
    {
      hide ReadU32, IndexLoaded, AttrsLoaded;
      bc := bytes;
      if |bc| < 8 || bc[..8] != HEADER {
        sections, bc := Sections(0, 0, 0, 0, 0, 0), [];
        return false;
      }
      assert HeaderOk(bc);
      var count := ReadU32(bc, 8);
      if count.None? {
        sections, bc := Sections(0, 0, 0, 0, 0, 0), [];
        return false;
      }
      ok := LoadIndex(count.value, 12 + 8 * count.value);
      if !ok { return false; }
      var attrs := ReadU32(bc, sections.attr + 4);
      if attrs.None? { return false; }
      ok := LoadAttrs(sections.attr, attrs.value, sections.attr + 8 + 4 * attrs.value);
    }
  }

  lemma {:induction false} AttrsNone(bc: seq<Byte>, attr: nat, base: nat, n: nat, m: nat, pc: nat)
    requires n <= m && AttrsLoaded(bc, attr, base, n, pc).None?
    ensures AttrsLoaded(bc, attr, base, m, pc).None?
    decreases m
  {
    if n < m { AttrsNone(bc, attr, base, n, m - 1, pc); }
  }
}
