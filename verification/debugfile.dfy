/** The debug sections in a file: from an instruction, through the table, to where it
    comes from.
  */
module DebugFile {
  import opened Ir
  import opened Bytes
  import opened Texts
  import opened Inst
  import opened Lower
  import opened Assemble
  import opened Ant
  import opened DebugSection
  import opened XWriter
  import opened Loader
  import opened Loads
  import C4
  import Vm

  const DBI0_TYPE := 0x30696264

  /** An export or an import section: empty, or with a signature of its own. */
  predicate Other(sec: seq<Byte>) {
    sec == [] || (|sec| >= 4 && TypeOf(sec) !in {DATA_TYPE, TEXT_TYPE, ATTR_TYPE, DBG0_TYPE, DBI0_TYPE})
  }

  /** Sections that begin with `expt` or `impt` are such, and so is none at all. */
  lemma PortsAreOther(sec: seq<Byte>)
    requires sec == [] || (|sec| >= 4 && sec[..4] in {[0x65, 0x78, 0x70, 0x74], [0x69, 0x6D, 0x70, 0x74]})
    ensures Other(sec)
  {
    if sec != [] {
      assert sec[0] == sec[..4][0] && sec[1] == sec[..4][1] && sec[2] == sec[..4][2] && sec[3] == sec[..4][3];
    }
  }

  lemma DebugTypes(es: seq<Entry>)
    ensures TypeOf(Dbg0Of(es)) == DBG0_TYPE && |Dbg0Of(es)| >= 4
    ensures TypeOf(Dbi0Of(es)) == DBI0_TYPE && |Dbi0Of(es)| >= 4
  {
    hide RecordsBytes, TableBytes;
    var g, i := Dbg0Of(es), Dbi0Of(es);
    assert g[0] == 0x64 && g[1] == 0x62 && g[2] == 0x67 && g[3] == 0x30;
    assert i[0] == 0x64 && i[1] == 0x62 && i[2] == 0x69 && i[3] == 0x30;
  }

  /** With or without debugging, the other sections do not pass for the first three. */
  lemma RestIsApart(exports: seq<Byte>, imports: seq<Byte>, debug: bool, data: map<nat, nat>, fns: seq<Fn>,
      spans: seq<seq<Span>>)
    requires SpansFit(fns, spans) && Other(exports) && Other(imports)
    ensures C4.RestApart(C4.RestOf(exports, imports, debug, data, fns, spans))
  {
    hide Dbg0Of, Dbi0Of, TypeOf, EntriesOf, SpansFit;
    DebugTypes(EntriesOf(data, fns, spans, |fns|));
  }

  function Kept(sec: seq<Byte>): seq<seq<Byte>> { if sec == [] then [] else [sec] }

  /** The sections that are kept: both debug sections are, at the end. */
  lemma PartsAre(a: seq<Byte>, b: seq<Byte>, c: seq<Byte>, e: seq<Byte>, i: seq<Byte>, g: seq<Byte>, t: seq<Byte>)
    requires a != [] && b != [] && c != [] && g != [] && t != []
    ensures NonEmpty([a, b, c, e, i, g, t], 7) == [a, b, c] + Kept(e) + Kept(i) + [g, t]
  {
    hide NonEmpty, Kept;
    var secs := [a, b, c, e, i, g, t];
    NoneKept(secs);
    PartAfter(secs, 0, []);
    PartAfter(secs, 1, Kept(a));
    PartAfter(secs, 2, Kept(a) + Kept(b));
    PartAfter(secs, 3, Kept(a) + Kept(b) + Kept(c));
    PartAfter(secs, 4, Kept(a) + Kept(b) + Kept(c) + Kept(e));
    PartAfter(secs, 5, Kept(a) + Kept(b) + Kept(c) + Kept(e) + Kept(i));
    PartAfter(secs, 6, Kept(a) + Kept(b) + Kept(c) + Kept(e) + Kept(i) + Kept(g));
    KeptAll(a, b, c, Kept(e), Kept(i), g, t);
  }

  lemma PartAfter(secs: seq<seq<Byte>>, i: nat, before: seq<seq<Byte>>)
    requires i < |secs| && NonEmpty(secs, i) == before
    ensures NonEmpty(secs, i + 1) == before + Kept(secs[i])
  {
    hide NonEmpty;
    KeptStep(secs, i);
  }

  lemma KeptAll(a: seq<Byte>, b: seq<Byte>, c: seq<Byte>, e: seq<seq<Byte>>, i: seq<seq<Byte>>, g: seq<Byte>,
      t: seq<Byte>)
    requires a != [] && b != [] && c != [] && g != [] && t != []
    ensures Kept(a) + Kept(b) + Kept(c) + e + i + Kept(g) + Kept(t) == [a, b, c] + e + i + [g, t]
  {
    assert Kept(a) + Kept(b) + Kept(c) == [a, b, c];
    assert Kept(g) + Kept(t) == [g, t];
    Associate([a, b, c] + e + i, Kept(g), Kept(t));
  }

  /** A file with its debug sections. */
  function DebugFileOf(items: seq<DataItem>, data: map<nat, nat>, fns: seq<Fn>, top: nat, exports: seq<Byte>,
      imports: seq<Byte>, spans: seq<seq<Span>>): seq<Byte>
    requires top < |fns| && SpansFit(fns, spans)
  {
    C4.FileOf(items, data, fns, top, C4.RestOf(exports, imports, true, data, fns, spans))
  }

  /** The table stands behind an entry of the index that has its type. */
  ghost predicate Listed(file: seq<Byte>, typ: nat, at: nat) {
    exists n: nat, q: nat :: ListedAt(file, typ, at, n, q)
  }

  ghost predicate ListedAt(file: seq<Byte>, typ: nat, at: nat, n: nat, q: nat) {
    ReadU32(file, 8) == Some(n) && q < n && 12 + 8 * n <= at && ReadU32(file, 12 + 8 * q) == Some(at - 12 - 8 * n) &&
        ReadU32(file, at) == Some(typ)
  }

  lemma PartListed(parts: seq<seq<Byte>>, k: nat)
    requires Sound(parts) && k < |parts|
    ensures Listed(FileBytes(parts), TypeOf(parts[k]), Base(parts) + PartStart(parts, k))
    ensures StandsAt(FileBytes(parts), Base(parts) + PartStart(parts, k), parts[k])
  {
    hide FileBytes, ReadU32, StandsAt, TypeOf, PartStart, Sound;
    EntryReads(parts, k);
    CountReads(parts);
    assert ListedAt(FileBytes(parts), TypeOf(parts[k]), Base(parts) + PartStart(parts, k), |parts|, k);
  }

  ghost predicate Apart(sec: seq<Byte>) {
    |sec| >= 4 && TypeOf(sec) !in {DATA_TYPE, TEXT_TYPE, ATTR_TYPE, DBG0_TYPE, DBI0_TYPE}
  }

  /** What is found when such sections are loaded. */
  lemma PartsFound(parts: seq<seq<Byte>>, toplevel: nat, mid: seq<seq<Byte>>, a: seq<Byte>, b: seq<Byte>, g: seq<Byte>,
      t: seq<Byte>)
    requires parts == [a, b, AttrBytes(toplevel)] + mid + [g, t] && (forall j :: 0 <= j < |mid| ==> Apart(mid[j]))
    requires |a| >= 4 && |b| >= 4 && |g| >= 4 && |t| >= 4
    requires TypeOf(a) == DATA_TYPE && TypeOf(b) == TEXT_TYPE && TypeOf(g) == DBG0_TYPE && TypeOf(t) == DBI0_TYPE
    requires |FileBytes(parts)| < TWO_32 && toplevel < TWO_32
    ensures var r := Loaded(FileBytes(parts), Sections(0, 0, 0, 0, 0, 0), 0);
      && r.Some? && r.value.1 == toplevel
      && StandsAt(FileBytes(parts), r.value.0.text, b) && StandsAt(FileBytes(parts), r.value.0.dbg0, g)
    ensures exists at: nat :: Listed(FileBytes(parts), DBI0_TYPE, at) && StandsAt(FileBytes(parts), at, t)
  {
    hide FileBytes, StandsAt, AttrBytes, PartStart, TypeOf, Loaded, Listed;
    var n := |parts|;
    AttrType(toplevel);
    forall j | 3 <= j < n - 2 ensures Apart(parts[j]) { assert parts[j] == mid[j-3]; }
    assert parts[n-2] == g && parts[n-1] == t && parts[1] == b;
    assert Sound(parts);
    FileRecovers(parts, 2, toplevel, Sections(0, 0, 0, 0, 0, 0), 0);
    assert Known(TypeOf(parts[1])) && NoneFrom(parts, 2, n, TypeOf(parts[1]));
    assert Known(TypeOf(parts[n-2])) && NoneFrom(parts, n - 1, n, TypeOf(parts[n-2]));
    PartListed(parts, 1);
    PartListed(parts, n - 2);
    PartListed(parts, n - 1);
  }

  ghost predicate Debuggable(items: seq<DataItem>, data: map<nat, nat>, fns: seq<Fn>, top: nat, exports: seq<Byte>,
      imports: seq<Byte>, spans: seq<seq<Span>>) {
    && top < |fns| && SpansFit(fns, spans) && AllLowerable(data, fns) && Other(exports) && Other(imports)
    && |DebugFileOf(items, data, fns, top, exports, imports, spans)| < TWO_32
  }

  /** The loader finds text and records, and the table is listed. */
  ghost predicate DebugFound(file: seq<Byte>, data: map<nat, nat>, fns: seq<Fn>, es: seq<Entry>, at: nat) {
    var r := Loaded(file, Sections(0, 0, 0, 0, 0, 0), 0);
    && r.Some? && StandsAt(file, r.value.0.text, C4.TextSectionOf(data, fns)) &&
        StandsAt(file, r.value.0.dbg0, Dbg0Of(es))
    && Listed(file, DBI0_TYPE, at) && StandsAt(file, at, Dbi0Of(es))
  }

  lemma DebugLoads(items: seq<DataItem>, data: map<nat, nat>, fns: seq<Fn>, top: nat, exports: seq<Byte>,
      imports: seq<Byte>, spans: seq<seq<Span>>)
    returns (at: nat)
    requires Debuggable(items, data, fns, top, exports, imports, spans)
    ensures DebugFound(DebugFileOf(items, data, fns, top, exports, imports, spans), data, fns,
        EntriesOf(data, fns, spans, |fns|), at)
    ensures |TextBytes(data, fns, |fns|)| == FnStart(fns, |fns|) < TWO_32
  {
    hide NonEmpty, FileBytes, StandsAt, FnStart, AttrBytes, C4.DataSectionOf, C4.TextSectionOf, TypeOf, Loaded, Listed,
        Dbg0Of, Dbi0Of, EntriesOf, AllLowerable, SpansFit, TextBytes;
    var es := EntriesOf(data, fns, spans, |fns|);
    var a, b, c := C4.DataSectionOf(items), C4.TextSectionOf(data, fns), AttrBytes(FnStart(fns, top));
    var g, t := Dbg0Of(es), Dbi0Of(es);
    var secs := C4.SectionsOf(items, data, fns, top, C4.RestOf(exports, imports, true, data, fns, spans));
    assert secs == [a, b, c, exports, imports, g, t];
    C4.SectionTypes(items, data, fns, FnStart(fns, top));
    AttrType(FnStart(fns, top));
    DebugTypes(es);
    PartsAre(a, b, c, exports, imports, g, t);
    var mid := Kept(exports) + Kept(imports);
    var parts := NonEmpty(secs, 7);
    assert parts == [a, b, c] + mid + [g, t];
    TextFits(data, fns, top, parts, b);
    PartsFound(parts, FnStart(fns, top), mid, a, b, g, t);
    at :| Listed(FileBytes(parts), DBI0_TYPE, at) && StandsAt(FileBytes(parts), at, t);
  }

  /** The text is shorter than the file. */
  lemma TextFits(data: map<nat, nat>, fns: seq<Fn>, top: nat, parts: seq<seq<Byte>>, b: seq<Byte>)
    requires top < |fns| && AllLowerable(data, fns) && b == C4.TextSectionOf(data, fns) && |parts| > 1 && parts[1] == b
    requires |FileBytes(parts)| < TWO_32
    ensures |TextBytes(data, fns, |fns|)| == FnStart(fns, |fns|) < TWO_32 && FnStart(fns, top) < TWO_32
  {
    hide PartsBytes, PartStart, TextBytes, FnStart, AllLowerable, IndexBytes;
    TextSize(data, fns, |fns|);
    StartsInOrder(fns, top, |fns|);
    PartsSize(parts, |parts|);
    NoParts(parts);
    PartsStep(parts, 0);
    PartsStep(parts, 1);
    StartsWithin2(parts);
  }

  lemma StartsWithin2(parts: seq<seq<Byte>>)
    requires |parts| > 1
    ensures PartStart(parts, 2) <= PartStart(parts, |parts|)
  {
    XWriter.StartsWithin(parts, 2);
  }

  /** In the file, the entry of instruction `i` of function `k` holds the offset at which
      the instruction stands in the text, and leads to the record of where it comes from. */
  lemma SourceOfInstruction(items: seq<DataItem>, data: map<nat, nat>, fns: seq<Fn>, top: nat, exports: seq<Byte>,
      imports: seq<Byte>, spans: seq<seq<Span>>, k: nat, i: nat)
    requires Debuggable(items, data, fns, top, exports, imports, spans) && k < |fns| && i < |FnItems(data, fns, k)|
    ensures var file := DebugFileOf(items, data, fns, top, exports, imports, spans);
      var at := FnStart(fns, k) + |ItemsBytes(FnItems(data, fns, k)[..i])|;
      FileLeads(file, Count(data, fns, k) + i, at, InstBytes(FnItems(data, fns, k)[i]),
          SpanAt(FnSpans(fns[k], spans[k]), i))
  {
    hide DebugFileOf, DebugFound, FnItems, ItemsBytes, FnStart, FnEntries, EntriesOf, InstBytes, AllLowerable, FnSpans,
        Count, FileLeads, TextBytes, FnSize;
    var es := EntriesOf(data, fns, spans, |fns|);
    var dbi0 := DebugLoads(items, data, fns, top, exports, imports, spans);
    EntryIs(data, fns, spans, |fns|, k, i);
    EntriesCount(data, fns, spans, |fns|);
    FnEntryAt(data, fns, spans, k, i);
    FnEntrySpan(data, fns, spans, k, i);
    EntryWithin(data, fns, spans, k, i);
    StartsInOrder(fns, k, |fns|);
    FoundLeads(DebugFileOf(items, data, fns, top, exports, imports, spans), data, fns, spans, dbi0, k, i);
  }

  /** Entry `j` of a listed table of the file holds the offset `at` and leads to a
      record that tells `span`; the instruction's bytes stand in the text at the offset. */
  ghost predicate FileLeads(file: seq<Byte>, j: nat, at: nat, instruction: seq<Byte>, span: Span) {
    var r := Loaded(file, Sections(0, 0, 0, 0, 0, 0), 0);
    && r.Some? && StandsAt(file, r.value.0.text + 4 + at, instruction)
    && exists dbi0: nat :: Listed(file, DBI0_TYPE, dbi0) && EntryLeads(file, dbi0, r.value.0.dbg0, j, at, span)
  }

  ghost predicate EntryLeads(file: seq<Byte>, dbi0: nat, dbg0: nat, j: nat, at: nat, span: Span) {
    && ReadU32(file, dbi0 + 4 + 8 * j) == Some(at)
    && var r := ReadU32(file, dbi0 + 4 + 8 * j + 4); r.Some? && Tells(file, dbg0 + 4 + r.value, span)
  }

  /** A record in a file tells what was written. */
  lemma RecordIsTold(file: seq<Byte>, at: nat, span: Span)
    requires StandsAt(file, at, RecordBytes(span)) && |file| < TWO_32
    ensures Tells(file, at, span)
  {
    hide Tells, NumbersBytes, U32;
    RecordSize(span);
    RecordTells(file, at, span);
  }

  lemma FoundLeads(file: seq<Byte>, data: map<nat, nat>, fns: seq<Fn>, spans: seq<seq<Span>>, dbi0: nat, k: nat, i: nat)
    requires SpansFit(fns, spans) && AllLowerable(data, fns) && k < |fns| && i < |FnItems(data, fns, k)| &&
        |file| < TWO_32
    requires DebugFound(file, data, fns, EntriesOf(data, fns, spans, |fns|), dbi0)
    requires FnEntries(data, fns, spans, k)[i].at < TWO_32
    ensures FileLeads(file, Count(data, fns, k) + i, FnEntries(data, fns, spans, k)[i].at,
        InstBytes(FnItems(data, fns, k)[i]), FnEntries(data, fns, spans, k)[i].span)
  {
    hide FnItems, ItemsBytes, FnStart, FnEntries, EntriesOf, InstBytes, AllLowerable, Count, Loaded, StandsAt, ReadU32,
        Listed, RecordBytes, Dbg0Of, Dbi0Of, TextBytes, SpansFit, Tells;
    var s, j := Loaded(file, Sections(0, 0, 0, 0, 0, 0), 0).value.0, Count(data, fns, k) + i;
    var es := EntriesOf(data, fns, spans, |fns|);
    EntryIs(data, fns, spans, |fns|, k, i);
    EntriesCount(data, fns, spans, |fns|);
    TableLeadsToRecord(es, j, file, s.dbg0, dbi0);
    RecordIsTold(file, s.dbg0 + 4 + ReadU32(file, dbi0 + 4 + 8 * j + 4).value, es[j].span);
    StandsSplit(file, s.text, TEXT_SIGNATURE, TextBytes(data, fns, |fns|));
    InstructionStands(data, fns, spans, k, i, file, s.text + 4);
    assert EntryLeads(file, dbi0, s.dbg0, j, es[j].at, es[j].span);
  }

  lemma PreambleStarts(data: map<nat, nat>, fns: seq<Fn>, k: nat, i: nat)
    requires k < |fns| && i <= |fns[k].params|
    ensures i < |FnItems(data, fns, k)| && |ItemsBytes(FnItems(data, fns, k)[..i])| == 6 * i
  {
    hide ItemsBytes, CodeItems, ArgItems;
    var params := fns[k].params;
    ArgCount(data, params);
    ArgCount(data, params[..i]);
    Vm.ArgPrefix(data, params, i);
    assert FnItems(data, fns, k)[..i] == ArgItems(data, params[..i]);
    PreambleBytes(data, params[..i]);
  }

  /** The instructions that bind arguments and allocate registers come from nowhere: their
      records have no name and -1 everywhere. */
  lemma PreambleHasNoSource(items: seq<DataItem>, data: map<nat, nat>, fns: seq<Fn>, top: nat, exports: seq<Byte>,
      imports: seq<Byte>, spans: seq<seq<Span>>, k: nat, i: nat)
    requires Debuggable(items, data, fns, top, exports, imports, spans) && k < |fns| && i <= |fns[k].params|
    ensures i < |FnItems(data, fns, k)|
    ensures var file := DebugFileOf(items, data, fns, top, exports, imports, spans);
      FileLeads(file, Count(data, fns, k) + i, FnStart(fns, k) + 6 * i, InstBytes(FnItems(data, fns, k)[i]),
        Span([], -1, -1, -1, -1, -1, -1))
  {
    hide DebugFileOf, ItemsBytes, FnStart, FnEntries, InstBytes, AllLowerable, Count, FileLeads, CodeItems, ItemSpans,
        ArgItems;
    var params := fns[k].params;
    PreambleStarts(data, fns, k, i);
    SourceOfInstruction(items, data, fns, top, exports, imports, spans, k, i);
    assert FnSpans(fns[k], spans[k])[i] == PreambleSpans(params)[i];
  }

  /** In the file, the entry of an item that became an instruction holds the offset that
      the first pass gave the item, and leads to where the item comes from. */
  lemma SourceOfItem(items: seq<DataItem>, data: map<nat, nat>, fns: seq<Fn>, top: nat, exports: seq<Byte>,
      imports: seq<Byte>, spans: seq<seq<Span>>, k: nat, q: nat)
    requires Debuggable(items, data, fns, top, exports, imports, spans) && k < |fns| && q < |fns[k].code| &&
        !Silent(fns[k].code[q])
    ensures Lowering(data, fns, k, q).Emit? && |spans[k]| == |fns[k].code|
    ensures FileLeads(DebugFileOf(items, data, fns, top, exports, imports, spans),
                      Count(data, fns, k) + |fns[k].params| + 1 + |CodeItems(data, fns, k, q)|,
                      ItemStart(fns, k, q), InstBytes(Lowering(data, fns, k, q).ti), spans[k][q])
  {
    hide DebugFileOf, FnItems, ItemsBytes, FnStart, FnEntries, InstBytes, AllLowerable, FnSpans, Count, FileLeads,
        CodeItems, Lowering, Silent, ItemStart;
    var i := |fns[k].params| + 1 + |CodeItems(data, fns, k, q)|;
    ItemHasEntry(data, fns, spans, k, q);
    SourceOfInstruction(items, data, fns, top, exports, imports, spans, k, i);
    FnEntryAt(data, fns, spans, k, i);
    FnEntrySpan(data, fns, spans, k, i);
  }
}
