/** C4 as a whole: from the functions of the IR to the bytes of a file, and from the
    file, loaded, to what the virtual machine shows.
  */
module C4 {
  import opened Ir
  import opened Correspond
  import opened Bytes
  import opened Texts
  import opened Recode
  import opened DataSection
  import opened Lower
  import opened Assemble
  import Ant
  import DebugSection
  import opened XWriter
  import opened Loader
  import opened Loads
  import opened Vm
  import opened C4Fit
  import LifeInterval

  // ----- the runtime on a file -----

  function NameAt(mem: seq<Byte>, section: nat, offset: nat): seq<Byte> {
    var r := ReadItem(mem, section, offset, UTF8_SYMBOL);
    if r.Some? then r.value else []
  }

  function StringAt(mem: seq<Byte>, section: nat, offset: nat): seq<Byte> {
    var r := ReadItem(mem, section, offset, UTF8_STRING);
    if r.Some? then r.value else []
  }

  /** The function that begins at an offset of the text. */
  function FnAt(fns: seq<Fn>, offset: nat, k: nat): nat
    requires k <= |fns|
  {
    if k == 0 then 0 else if FnStart(fns, k - 1) == offset then k - 1 else FnAt(fns, offset, k - 1)
  }

  /** An op with its names and strings read from the data section, and its function
      found by where it begins. */
  function Unlinked(mem: seq<Byte>, section: nat, fns: seq<Fn>, op: Op<nat>): Op<seq<Byte>> {
    match op
    case MakeFunction(v, at) => MakeFunction(v, FnAt(fns, at, |fns|))
    case _ => MapText((o: nat) => NameAt(mem, section, o), (o: nat) => StringAt(mem, section, o), op)
  }

  function FromFile(rt: Runtime<seq<Byte>>, mem: seq<Byte>, section: nat, fns: seq<Fn>): Runtime<nat> {
    Runtime(rt.undefined,
      (op: Op<nat>, args: seq<Value>, w: World) => rt.exec(Unlinked(mem, section, fns, op), args, w),
      rt.truthy)
  }

  lemma {:induction false} FnFound(fns: seq<Fn>, func: nat, k: nat)
    requires func < k <= |fns|
    ensures FnAt(fns, FnStart(fns, func), k) == func
  {
    if FnStart(fns, k - 1) == FnStart(fns, func) {
      StartsDiffer(fns, k - 1, func);
    } else {
      FnFound(fns, func, k - 1);
    }
  }

  ghost predicate FunctionExists(fns: seq<Fn>, op: Op<nat>) { op.MakeFunction? ==> op.func < |fns| }

  /** The data section stands in the file, and the map leads into it. */
  ghost predicate DataThere(items: seq<DataItem>, data: map<nat, nat>, mem: seq<Byte>, section: nat) {
    && DistinctIds(items) && OffsetsOf(items, |items|, data)
    && StandsAt(mem, section, DATA_SIGNATURE + DataBytes(items, |items|))
    && forall i :: 0 <= i < |items| ==> |items[i].text| < TWO_32
  }

  lemma NameBack(items: seq<DataItem>, data: map<nat, nat>, mem: seq<Byte>, section: nat, kind: Kind, id: nat)
    requires DataThere(items, data, mem, section) && InTable(items, kind, id)
    ensures kind.SymbolKind? ==> NameAt(mem, section, DataOffset(data, id)) == TextOf(items, id)
    ensures kind.StringKind? ==> StringAt(mem, section, DataOffset(data, id)) == TextOf(items, id)
  {
    hide StandsAt, ReadItem, DataStart, DataBytes;
    var i :| 0 <= i < |items| && items[i].id == id && items[i].kind == kind;
    DataReadsBack(items, i, mem, section);
    TextOfFinds(items, i);
  }

  /** Resolving a reference through the file is resolving it through the table. */
  lemma FileIsFaithful(rt: Runtime<seq<Byte>>, items: seq<DataItem>, data: map<nat, nat>, fns: seq<Fn>, mem: seq<Byte>,
      section: nat, op: Op<nat>)
    requires DataThere(items, data, mem, section) && OpInTable(items, op) && FunctionExists(fns, op)
    ensures Faithful(WithTable(items, rt), FromFile(rt, mem, section, fns), data, fns, op)
  {
    hide NameAt, StringAt, DataThere, FnAt, InTable, TextOf, FnStart, DataOffset;
    if NameOf(op).Some? { NameBack(items, data, mem, section, SymbolKind, NameOf(op).value); }
    if StringOf(op).Some? { NameBack(items, data, mem, section, StringKind, StringOf(op).value); }
    if op.MakeFunction? { FnFound(fns, op.func, |fns|); }
    UnlinksLinked(items, data, fns, mem, section, op);
  }

  lemma UnlinksLinked(items: seq<DataItem>, data: map<nat, nat>, fns: seq<Fn>, mem: seq<Byte>, section: nat,
      op: Op<nat>)
    requires NameOf(op).Some? ==>
        NameAt(mem, section, DataOffset(data, NameOf(op).value)) == TextOf(items, NameOf(op).value)
    requires StringOf(op).Some? ==>
        StringAt(mem, section, DataOffset(data, StringOf(op).value)) == TextOf(items, StringOf(op).value)
    requires op.MakeFunction? ==> FnAt(fns, FnOffset(fns, op.func), |fns|) == op.func
    ensures Unlinked(mem, section, fns, Shape(LinkOp(data, fns, op))) == MapText(Reader(items), Reader(items),
        Shape(op))
  {
    hide NameAt, StringAt, FnAt, TextOf, FnOffset, DataOffset;
  }

  // ----- the file of a program -----

  function DataSectionOf(items: seq<DataItem>): seq<Byte> { DATA_SIGNATURE + DataBytes(items, |items|) }

  function TextSectionOf(data: map<nat, nat>, fns: seq<Fn>): seq<Byte> {
    Ant.TEXT_SIGNATURE + TextBytes(data, fns, |fns|)
  }

  /** The sections of a program; `rest` are those for exports, imports and debugging. */
  function SectionsOf(items: seq<DataItem>, data: map<nat, nat>, fns: seq<Fn>, top: nat,
      rest: seq<seq<Byte>>): seq<seq<Byte>>
    requires top < |fns|
  {
    [DataSectionOf(items), TextSectionOf(data, fns), AttrBytes(FnStart(fns, top))] + rest
  }

  function FileOf(items: seq<DataItem>, data: map<nat, nat>, fns: seq<Fn>, top: nat, rest: seq<seq<Byte>>): seq<Byte>
    requires top < |fns|
  {
    var secs := SectionsOf(items, data, fns, top, rest);
    FileBytes(NonEmpty(secs, |secs|))
  }

  lemma HeaderBytes()
    ensures U32(0x00736A78) + U16(1) + U16(1) == HEADER
  {
  }

  method WriteHeader(bw: BitWriter)
    requires bw.Valid() && bw.Contents() == []
    modifies bw, bw.body
    ensures bw.Valid() && bw.Contents() == HEADER
    ensures bw.body == old(bw.body) || fresh(bw.body)
  {
    hide U16, U32;
    bw.WriteU32(0x00736A78);
    bw.WriteU16(1);
    bw.WriteU16(1);
    HeaderBytes();
  }

  /** The sections behind the first three: exports, imports, and with debugging the two
      debug sections. */
  function RestOf(exports: seq<Byte>, imports: seq<Byte>, debug: bool, data: map<nat, nat>, fns: seq<Fn>,
      spans: seq<seq<Ant.Span>>): seq<seq<Byte>>
    requires Ant.SpansFit(fns, spans)
  {
    var es := DebugSection.EntriesOf(data, fns, spans, |fns|);
    [exports, imports, if debug then DebugSection.Dbg0Of(es) else [], if debug then DebugSection.Dbi0Of(es) else []]
  }

  /** `xjs_c4_start_ex`: it fails exactly when some item has no handler. */
  method Start(irs: seq<Fn>, items: seq<DataItem>, top: nat, exports: seq<Byte>, imports: seq<Byte>, debug: bool,
      spans: seq<seq<Ant.Span>>)
    returns (bytecode: array<Byte>, data: map<nat, nat>, fns: seq<Fn>, ok: bool)
    requires top < |irs| && DistinctIds(items) && forall k :: 0 <= k < |irs| ==> Ant.FromC2(irs[k].code)
    requires Ant.SpansFit(irs, spans)
    ensures ok <==> Ant.AllHandled(irs, |irs|)
    ensures ok ==> Ant.Scheduled(irs, fns) && OffsetsOf(items, |items|, data) && Ant.SpansFit(fns, spans)
    ensures ok ==>
        top < |fns| && bytecode[..] == FileOf(items, data, fns, top, RestOf(exports, imports, debug, data, fns, spans))
  {
    hide OffsetsOf, DistinctIds, Ant.FromC2, Ant.Annotated, Ant.Scheduled, Ant.AllHandled, FnStart, AttrBytes,
        DataBytes, TextBytes, IndexBytes, PartsBytes, Ant.SpansFit, Ant.Located, RestOf;
    bytecode := new Byte[0];
    var bwHeader := new BitWriter();
    WriteHeader(bwHeader);
    var header := bwHeader.body[..bwHeader.size];
    var bwData := new BitWriter();
    data := WriteData(bwData, items);
    var dataSection := bwData.body[..bwData.size];
    var out;
    fns, out, ok := Ant.Annotate(irs, spans, data);
    if !ok { return; }
    Ant.SameCount(irs, fns);
    var bwText := new BitWriter();
    Ant.WriteText(bwText, data, fns, out);
    var textSection := bwText.body[..bwText.size];
    var starts, measured := Ant.FunctionOffsets(fns);
    ScheduledMeasurable(irs, fns);
    var bwAttr := new BitWriter();
    WriteAttr(bwAttr, starts[top]);
    var rest := WriteRest(exports, imports, debug, data, fns, spans, out);
    var secs := [dataSection, textSection, bwAttr.body[..bwAttr.size]] + rest;
    var bwIndex := new BitWriter();
    WriteIndex(bwIndex, secs);
    var index := bwIndex.body[..bwIndex.size];
    bytecode := Concatenate(header, index, secs);
    KeptSame(secs, |secs|);
  }

  method WriteRest(exports: seq<Byte>, imports: seq<Byte>, debug: bool, ghost data: map<nat, nat>, ghost fns: seq<Fn>,
                   ghost spans: seq<seq<Ant.Span>>, out: seq<seq<Ant.Placed>>)
    returns (rest: seq<seq<Byte>>)
    requires Ant.SpansFit(fns, spans) && Ant.Annotated(data, fns, out) && Ant.Located(fns, spans, out)
    ensures rest == RestOf(exports, imports, debug, data, fns, spans)
  {
    hide Ant.SpansFit, Ant.Annotated, Ant.Located, DebugSection.EntriesOf, DebugSection.Dbg0Of, DebugSection.Dbi0Of;
    var dbg0 := new BitWriter();
    var dbi0 := new BitWriter();
    if debug {
      DebugSection.WriteDebug(dbg0, dbi0, data, fns, spans, out);
      rest := [exports, imports, dbg0.body[..dbg0.size], dbi0.body[..dbi0.size]];
    } else {
      rest := [exports, imports, [], []];
    }
  }

  lemma ScheduledMeasurable(irs: seq<Fn>, fns: seq<Fn>)
    requires Ant.Scheduled(irs, fns) && Ant.AllHandled(irs, |irs|)
    ensures Ant.AllMeasurable(fns)
  {
    hide Ant.Handled, ItemSize;
    Ant.HandledIsMeasurable(irs);
    forall k: nat, i: nat | k < |fns| && i < |fns[k].code| ensures ItemSize(fns[k].code[i]).Some? {
      assert Ant.OnSchedule(irs[k], fns[k]);
      Ant.ScheduledItemSize(irs[k], fns[k], i);
    }
  }

  // ----- loading it -----

  /** The other sections have signatures of their own. */
  ghost predicate RestApart(rest: seq<seq<Byte>>) {
    forall i :: 0 <= i < |rest| && rest[i] != [] ==>
        |rest[i]| >= 4 && TypeOf(rest[i]) !in {DATA_TYPE, TEXT_TYPE, ATTR_TYPE}
  }

  lemma SectionTypes(items: seq<DataItem>, data: map<nat, nat>, fns: seq<Fn>, toplevel: nat)
    ensures TypeOf(DataSectionOf(items)) == DATA_TYPE && |DataSectionOf(items)| >= 4
    ensures TypeOf(TextSectionOf(data, fns)) == TEXT_TYPE && |TextSectionOf(data, fns)| >= 4
  {
    hide DataBytes, TextBytes;
    var d, t := DataSectionOf(items), TextSectionOf(data, fns);
    assert d[0] == 0x64 && d[1] == 0x61 && d[2] == 0x74 && d[3] == 0x61;
    assert t[0] == 0x74 && t[1] == 0x65 && t[2] == 0x78 && t[3] == 0x74;
  }

  lemma {:induction false} FirstThree(a: seq<Byte>, b: seq<Byte>, c: seq<Byte>, rest: seq<seq<Byte>>, n: nat)
    requires a != [] && b != [] && c != [] && 3 <= n <= 3 + |rest|
    ensures var parts := NonEmpty([a, b, c] + rest, n);
      && |parts| >= 3 && parts[0] == a && parts[1] == b && parts[2] == c
      && forall j :: 3 <= j < |parts| ==> parts[j] != [] && parts[j] in rest
    decreases n
  {
    var secs := [a, b, c] + rest;
    if n == 3 {
      NoneKept(secs);
      KeptStep(secs, 0);
      KeptStep(secs, 1);
      KeptStep(secs, 2);
      hide NonEmpty;
    } else {
      hide NonEmpty;
      FirstThree(a, b, c, rest, n - 1);
      KeptStep(secs, n - 1);
      assert secs[n-1] == rest[n-4];
    }
  }

  /** What the loader finds in the file of a program. */
  lemma ProgramLoads(items: seq<DataItem>, data: map<nat, nat>, fns: seq<Fn>, top: nat, rest: seq<seq<Byte>>)
    requires top < |fns| && RestApart(rest) && |FileOf(items, data, fns, top, rest)| < TWO_32 &&
        FnStart(fns, top) < TWO_32
    ensures var r := Loaded(FileOf(items, data, fns, top, rest), Sections(0, 0, 0, 0, 0, 0), 0);
      && r.Some? && r.value.1 == FnStart(fns, top)
      && StandsAt(FileOf(items, data, fns, top, rest), r.value.0.data, DataSectionOf(items))
      && StandsAt(FileOf(items, data, fns, top, rest), r.value.0.text, TextSectionOf(data, fns))
  {
    hide NonEmpty, FileBytes, StandsAt, FnStart, AttrBytes, PartStart, DataSectionOf, TextSectionOf, TypeOf, Loaded;
    var a, b, c := DataSectionOf(items), TextSectionOf(data, fns), AttrBytes(FnStart(fns, top));
    var secs := SectionsOf(items, data, fns, top, rest);
    var parts := NonEmpty(secs, |secs|);
    SectionTypes(items, data, fns, FnStart(fns, top));
    AttrType(FnStart(fns, top));
    FirstThree(a, b, c, rest, |secs|);
    forall j | 3 <= j < |parts| ensures |parts[j]| >= 4 && TypeOf(parts[j]) !in {DATA_TYPE, TEXT_TYPE, ATTR_TYPE} {
      var i :| 0 <= i < |rest| && rest[i] == parts[j];
    }
    assert Sound(parts);
    FileRecovers(parts, 2, FnStart(fns, top), Sections(0, 0, 0, 0, 0, 0), 0);
    assert Known(TypeOf(parts[0])) && NoneFrom(parts, 1, |parts|, TypeOf(parts[0]));
    assert Known(TypeOf(parts[1])) && NoneFrom(parts, 2, |parts|, TypeOf(parts[1]));
    EntryReads(parts, 0);
    EntryReads(parts, 1);
  }

  // ----- running it -----

  /** What the functions and the data have to satisfy besides. */
  ghost predicate Runnable(d: Doubles, items: seq<DataItem>, fns: seq<Fn>, top: nat)
    requires top < |fns|
  {
    var f := fns[top].code;
    && fns[top].regs < TWO_8 && |fns[top].params| <= TWO_8 && Closes(f) && LifeInterval.LabelsDefined(f)
    && AllInTable(items, f)
    && (forall p :: 0 <= p < |f| ==> InFrame(f[p], fns[top].regs) && NumberKept(d, f[p]))
    && (forall p :: 0 <= p < |f| && f[p].Do? ==> FunctionExists(fns, f[p].op))
  }

  lemma {:induction false} DataWithin(items: seq<DataItem>, i: nat, n: nat)
    requires i < n <= |items|
    ensures DataStart(items, i) + |items[i].text| <= DataStart(items, n)
    decreases n
  {
    if i < n - 1 { DataWithin(items, i, n - 1); }
  }

  lemma SizesFit(items: seq<DataItem>, data: map<nat, nat>, fns: seq<Fn>, mem: seq<Byte>, section: nat, text: nat)
    requires |mem| < TWO_32 && OffsetsOf(items, |items|, data) && DistinctIds(items) && AllLowerable(data, fns)
    requires StandsAt(mem, section, DataSectionOf(items)) && StandsAt(mem, text, TextSectionOf(data, fns))
    ensures DataThere(items, data, mem, section) && FnStart(fns, |fns|) < TWO_32 &&
        StandsAt(mem, text + 4, TextBytes(data, fns, |fns|))
    ensures forall id :: id in data ==> data[id] < TWO_32
  {
    hide DataBytes, TextBytes, DataStart, FnStart, Lowerable;
    TextSize(data, fns, |fns|);
    DataSize(items, |items|);
    StandsSplit(mem, text, Ant.TEXT_SIGNATURE, TextBytes(data, fns, |fns|));
    forall i | 0 <= i < |items| ensures DataStart(items, i) + |items[i].text| < TWO_32 {
      DataWithin(items, i, |items|);
    }
  }

  lemma AllFilesFaithful(rt: Runtime<seq<Byte>>, items: seq<DataItem>, data: map<nat, nat>, fns: seq<Fn>,
      mem: seq<Byte>, section: nat, f: seq<Item<nat>>)
    requires DataThere(items, data, mem, section) && AllInTable(items, f)
    requires forall p :: 0 <= p < |f| && f[p].Do? ==> FunctionExists(fns, f[p].op)
    ensures AllFaithful(WithTable(items, rt), FromFile(rt, mem, section, fns), data, fns, f)
  {
    hide DataThere, OpInTable, Faithful;
    forall p | 0 <= p < |f| && f[p].Do?
        ensures Faithful(WithTable(items, rt), FromFile(rt, mem, section, fns), data, fns, f[p].op) {
      FileIsFaithful(rt, items, data, fns, mem, section, f[p].op);
    }
  }

  // a fresh loader has no sections
  const NO_SECTIONS := Sections(0, 0, 0, 0, 0, 0)

  predicate Loadable(file: seq<Byte>) { Loaded(file, NO_SECTIONS, 0).Some? }

  function OnFile(rt: Runtime<seq<Byte>>, file: seq<Byte>, fns: seq<Fn>): Runtime<nat>
    requires Loadable(file)
  {
    FromFile(rt, file, Loaded(file, NO_SECTIONS, 0).value.0.data, fns)
  }

  /** The machine, started where the loaded file says, ends with `o`. */
  ghost predicate FileShows(d: Doubles, rt: Runtime<seq<Byte>>, args: nat -> Value, file: seq<Byte>, fns: seq<Fn>,
      w: World, o: Observation)
    requires Loadable(file)
  {
    var r := Loaded(file, NO_SECTIONS, 0).value;
    VmShows(d, OnFile(rt, file, fns), args, Memory(file, r.0.text + 4), r.1, w, o)
  }

  /** A written file, loaded and run from its initial program counter, ends with what
      the items of the top-level function end with, and with nothing else. */
  lemma FilePreservesMeaning(d: Doubles, rt: Runtime<seq<Byte>>, args: nat -> Value, items: seq<DataItem>,
      data: map<nat, nat>, fns: seq<Fn>, top: nat, rest: seq<seq<Byte>>, w: World, o: Observation)
    requires top < |fns| && RestApart(rest) && |FileOf(items, data, fns, top, rest)| < TWO_32
    requires OffsetsOf(items, |items|, data) && DistinctIds(items) && AllLowerable(data, fns) &&
        Runnable(d, items, fns, top)
    requires FnStart(fns, top) < TWO_32 && !o.status.Running?
    ensures var file := FileOf(items, data, fns, top, rest);
      && Loadable(file)
      && (FileShows(d, rt, args, file, fns, w, o) <==>
            Shows(WithTable(items, rt), fns[top].code, Bound(OnFile(rt, file, fns), data, fns[top].params, args, w), o))
  {
    hide FileOf, Loaded, StandsAt, FnStart, OffsetsOf, DistinctIds, AllLowerable, DataThere, AllInTable, DataSectionOf,
        TextSectionOf, TextBytes, AllFaithful, Closes, LifeInterval.LabelsDefined;
    var file := FileOf(items, data, fns, top, rest);
    ProgramLoads(items, data, fns, top, rest);
    var r := Loaded(file, Sections(0, 0, 0, 0, 0, 0), 0).value;
    var vm := FromFile(rt, file, r.0.data, fns);
    SizesFit(items, data, fns, file, r.0.data, r.0.text);
    AllFilesFaithful(rt, items, data, fns, file, r.0.data, fns[top].code);
    assert Fitting(d, data, fns, top);
    AssemblyPreservesMeaning(d, WithTable(items, rt), vm, args, data, fns, top, Memory(file, r.0.text + 4), w, o);
  }
}
