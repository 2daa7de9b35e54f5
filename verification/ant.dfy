/** C4: the passes of the assembler, step by step. */
module Ant {
  import opened Ir
  import opened Correspond
  import opened Bytes
  import opened Inst
  import opened Lower
  import opened Assemble
  import opened LifeInterval
  import opened RegAlloc
  import opened RegAllocSim

  // ----- the first pass -----

  ghost predicate Measurable<N>(f: seq<Item<N>>) { forall i :: 0 <= i < |f| ==> ItemSize(f[i]).Some? }

  ghost predicate AllMeasurable(fns: seq<Fn>) { forall k :: 0 <= k < |fns| ==> Measurable(fns[k].code) }

  method MeasureCode(f: seq<Item<nat>>, from: nat) returns (offset: nat, ok: bool)
    ensures ok <==> Measurable(f)
    ensures ok ==> offset == from + CodeSize(f)
  {
    offset, ok := from, true;
    var i := 0;
    EmptyCode(f);
    while i < |f|
      invariant 0 <= i <= |f|
      invariant forall j :: 0 <= j < i ==> ItemSize(f[j]).Some?
      invariant offset == from + CodeSize(f[..i])
    {
      var size := ItemSize(f[i]);
      if size.None? { return offset, false; }
      CodeSizeStep(f, i);
      offset := offset + size.value;
      i := i + 1;
    }
    assert f[..|f|] == f;
  }

  lemma NextFunction(fns: seq<Fn>, k: nat)
    requires k < |fns|
    ensures FnStart(fns, k + 1) == FnStart(fns, k) + PreambleSize(fns[k].params) + CodeSize(fns[k].code)
  {
  }

  /** `xjs_c4_functionid_offset_map_extract` */
  method FunctionOffsets(fns: seq<Fn>) returns (starts: seq<nat>, ok: bool)
    ensures ok <==> AllMeasurable(fns)
    ensures ok ==> |starts| == |fns| && forall k :: 0 <= k < |fns| ==> starts[k] == FnStart(fns, k)
  {
    hide Measurable, CodeSize, FnStart, PreambleSize;
    starts, ok := [], true;
    var offset, k := 0, 0;
    NoFunction(fns);
    while k < |fns|
      invariant 0 <= k <= |fns| && |starts| == k
      invariant forall j :: 0 <= j < k ==> Measurable(fns[j].code) && starts[j] == FnStart(fns, j)
      invariant offset == FnStart(fns, k)
    {
      starts := starts + [offset];
      var end, measured := MeasureCode(fns[k].code, offset + PreambleSize(fns[k].params));
      if !measured { return starts, false; }
      NextFunction(fns, k);
      offset := end;
      k := k + 1;
    }
  }

  lemma NoFunction(fns: seq<Fn>)
    ensures FnStart(fns, 0) == 0
  {
  }

  /** The offsets of the labels among the first `i` items. */
  ghost predicate LabelsSoFar(fns: seq<Fn>, k: nat, i: nat, m: map<nat, nat>)
    requires k < |fns| && i <= |fns[k].code|
  {
    && (forall l :: l in m <==> l in LabelPoints(fns[k].code[..i]))
    && (forall j :: 0 <= j < i && fns[k].code[j].Label? ==>
        fns[k].code[j].lbl in m && m[fns[k].code[j].lbl] == ItemStart(fns, k, j))
  }

  /** `xjs_c4_label_offset_map_extract`: a label that stands twice is an error. */
  method LabelOffsets(fns: seq<Fn>, k: nat, start: nat) returns (m: map<nat, nat>, ok: bool)
    requires k < |fns| && Measurable(fns[k].code) && start == FnStart(fns, k)
    ensures ok <==> UniqueLabels(fns[k].code)
    ensures ok ==> forall l :: l in LabelPoints(fns[k].code) ==> l in m && m[l] == LabelStart(fns, k, l)
    ensures ok ==> forall l :: l in m ==> l in LabelPoints(fns[k].code)
  {
    hide ItemStart, SizeOf, FnStart, LabelStart, LabelPoints, UniqueLabels, LabelsSoFar;
    var f := fns[k].code;
    m, ok := map[], true;
    var offset, i := start + PreambleSize(fns[k].params), 0;
    NoLabels(fns, k);
    while i < |f|
      invariant 0 <= i <= |f| && offset == ItemStart(fns, k, i)
      invariant LabelsSoFar(fns, k, i, m) && UniqueLabels(f[..i])
    {
      if f[i].Label? {
        if f[i].lbl in m {
          LabelTwice(fns, k, i, m);
          return m, false;
        }
        LabelFresh(fns, k, i, m);
        m := m[f[i].lbl := offset];
      } else {
        NotLabel(fns, k, i, m);
      }
      NextStart(fns, k, i);
      offset := offset + SizeOf(f[i]);
      i := i + 1;
    }
    assert f[..|f|] == f;
    LabelsFound(fns, k, m);
  }

  lemma NoLabels(fns: seq<Fn>, k: nat)
    requires k < |fns|
    ensures ItemStart(fns, k, 0) == FnStart(fns, k) + PreambleSize(fns[k].params)
    ensures LabelsSoFar(fns, k, 0, map[]) && UniqueLabels(fns[k].code[..0])
  {
  }

  lemma LabelTwice(fns: seq<Fn>, k: nat, i: nat, m: map<nat, nat>)
    requires k < |fns| && i < |fns[k].code| && LabelsSoFar(fns, k, i, m) && fns[k].code[i].Label? &&
        fns[k].code[i].lbl in m
    ensures !UniqueLabels(fns[k].code)
  {
    LabelPointsSound(fns[k].code[..i], fns[k].code[i].lbl);
  }

  lemma NotLabel(fns: seq<Fn>, k: nat, i: nat, m: map<nat, nat>)
    requires k < |fns| && i < |fns[k].code| && LabelsSoFar(fns, k, i, m) && UniqueLabels(fns[k].code[..i]) &&
        !fns[k].code[i].Label?
    ensures LabelsSoFar(fns, k, i + 1, m) && UniqueLabels(fns[k].code[..i+1])
  {
    var f := fns[k].code;
    assert f[..i+1][..i] == f[..i];
    forall a, b | 0 <= a <= i && 0 <= b <= i && f[a].Label? && f[b].Label? && f[a].lbl == f[b].lbl ensures a == b {
      assert f[..i][a].Label? && f[..i][b].Label?;
    }
  }

  lemma LabelsFound(fns: seq<Fn>, k: nat, m: map<nat, nat>)
    requires k < |fns| && LabelsSoFar(fns, k, |fns[k].code|, m)
    ensures forall l :: l in LabelPoints(fns[k].code) ==> l in m && m[l] == LabelStart(fns, k, l)
    ensures forall l :: l in m ==> l in LabelPoints(fns[k].code)
  {
    var f := fns[k].code;
    assert f[..|f|] == f;
    forall l | l in LabelPoints(f) ensures l in m && m[l] == LabelStart(fns, k, l) { LabelPointsSound(f, l); }
  }

  lemma LabelFresh(fns: seq<Fn>, k: nat, i: nat, m: map<nat, nat>)
    requires k < |fns| && i < |fns[k].code| && LabelsSoFar(fns, k, i, m) && UniqueLabels(fns[k].code[..i])
    requires fns[k].code[i].Label? && fns[k].code[i].lbl !in m
    ensures UniqueLabels(fns[k].code[..i+1])
    ensures LabelsSoFar(fns, k, i + 1, m[fns[k].code[i].lbl := ItemStart(fns, k, i)])
  {
    hide ItemStart;
    var f := fns[k].code;
    assert f[..i+1][..i] == f[..i];
    forall a, b | 0 <= a <= i && 0 <= b <= i && f[a].Label? && f[b].Label? && f[a].lbl == f[b].lbl ensures a == b {
      if a < i && b < i { assert f[..i][a].Label? && f[..i][b].Label?; }
    }
  }

  // ----- on registers -----

  /** The functions are those of the IR on the registers of some schedule. */
  ghost predicate Scheduled(irs: seq<Fn>, fns: seq<Fn>) {
    |fns| == |irs| && forall k :: 0 <= k < |irs| ==> OnSchedule(irs[k], fns[k])
  }

  ghost predicate OnSchedule(ir: Fn, fn: Fn) {
    exists table: Table, period: nat :: IsScheduleOf(ir, fn, table, period)
  }

  ghost predicate IsScheduleOf(ir: Fn, fn: Fn, table: Table, period: nat) {
    var lpm := IntervalsUpTo(ir.code, |ir.code|).0;
    && fn.params == ir.params && fn.code == OnRegisters(ir.code, table)
    && IsPeriod(lpm, period) && IsPeak(lpm, period, fn.regs) && Allocation(lpm, table, period, fn.regs)
  }

  lemma MappedSize<N>(reg: nat -> nat, item: Item<N>)
    ensures ItemSize(MapItem(reg, item)) == ItemSize(item)
    ensures EightBytes(MapItem(reg, item)) == EightBytes(item)
  {
    hide NumberSize;
  }

  lemma {:induction false} ScheduledSizes(ir: Fn, fn: Fn, i: nat)
    requires OnSchedule(ir, fn) && i <= |ir.code|
    ensures |fn.code| == |ir.code| && fn.params == ir.params
    ensures CodeSize(fn.code[..i]) == CodeSize(ir.code[..i]) && LabelPoints(fn.code) == LabelPoints(ir.code)
  {
    hide CodeSize, Allocation, IsPeak, IsPeriod, ItemSize, MapItem, IntervalsUpTo;
    var table: Table, period: nat :| IsScheduleOf(ir, fn, table, period);
    forall p | 0 <= p < |ir.code|
        ensures (fn.code[p].Label? <==> ir.code[p].Label?) && (fn.code[p].Label? ==> fn.code[p] == ir.code[p]) {
      MappedLabel((v: nat) => RegisterAt(table, v, p), ir.code[p]);
    }
    SameLabelPoints(fn.code, ir.code);
    if i == 0 {
      EmptyCode(fn.code);
      EmptyCode(ir.code);
    } else {
      ScheduledSizes(ir, fn, i - 1);
      CodeSizeStep(fn.code, i - 1);
      CodeSizeStep(ir.code, i - 1);
      MappedSize((v: nat) => RegisterAt(table, v, i - 1), ir.code[i-1]);
    }
  }

  lemma ScheduledItemSize(ir: Fn, fn: Fn, i: nat)
    requires OnSchedule(ir, fn) && i < |fn.code|
    ensures i < |ir.code| && ItemSize(fn.code[i]) == ItemSize(ir.code[i]) &&
        EightBytes(fn.code[i]) == EightBytes(ir.code[i])
  {
    hide ItemSize, MapItem, EightBytes, Allocation, IsPeak, IsPeriod;
    var table: Table, period: nat :| IsScheduleOf(ir, fn, table, period);
    MappedSize((v: nat) => RegisterAt(table, v, i), ir.code[i]);
  }

  lemma MappedLabel<N>(reg: nat -> nat, item: Item<N>)
    ensures MapItem(reg, item).Label? <==> item.Label?
    ensures item.Label? ==> MapItem(reg, item) == item
  {
  }

  lemma {:induction false} ScheduledStarts(irs: seq<Fn>, fns: seq<Fn>, k: nat)
    requires Scheduled(irs, fns) && k <= |irs|
    ensures FnStart(fns, k) == FnStart(irs, k)
    ensures k < |irs| ==> |fns[k].code| == |irs[k].code| && fns[k].params == irs[k].params
    decreases k
  {
    hide CodeSize, OnSchedule;
    if k < |irs| {
      assert OnSchedule(irs[k], fns[k]);
      ScheduledSizes(irs[k], fns[k], 0);
    }
    if k > 0 {
      ScheduledStarts(irs, fns, k - 1);
      assert OnSchedule(irs[k-1], fns[k-1]);
      ScheduledSizes(irs[k-1], fns[k-1], |irs[k-1].code|);
      assert fns[k-1].code[..|irs[k-1].code|] == fns[k-1].code && irs[k-1].code[..|irs[k-1].code|] == irs[k-1].code;
    }
  }

  lemma ScheduledItemStart(irs: seq<Fn>, fns: seq<Fn>, k: nat, i: nat)
    requires Scheduled(irs, fns) && k < |irs| && i <= |irs[k].code|
    ensures i <= |fns[k].code| && ItemStart(fns, k, i) == ItemStart(irs, k, i)
  {
    hide CodeSize, OnSchedule;
    ScheduledStarts(irs, fns, k);
    assert OnSchedule(irs[k], fns[k]);
    ScheduledSizes(irs[k], fns[k], i);
  }

  lemma ScheduledLabels(irs: seq<Fn>, fns: seq<Fn>, k: nat, l: nat)
    requires Scheduled(irs, fns) && k < |irs|
    ensures LabelStart(fns, k, l) == LabelStart(irs, k, l) && LabelPoints(fns[k].code) == LabelPoints(irs[k].code)
  {
    hide CodeSize, OnSchedule, ItemStart;
    ScheduledStarts(irs, fns, k);
    assert OnSchedule(irs[k], fns[k]);
    ScheduledSizes(irs[k], fns[k], 0);
    LabelPointsSound(irs[k].code, l);
    if l in LabelPoints(irs[k].code) { ScheduledItemStart(irs, fns, k, LabelPoints(irs[k].code)[l]); }
  }

  // ----- the second pass -----

  /** The maps of the first pass. */
  datatype Offsets = Offsets(data: map<nat, nat>, starts: seq<nat>, labels: map<nat, nat>)

  ghost predicate OffsetsOf(fns: seq<Fn>, k: nat, m: Offsets)
    requires k < |fns|
  {
    && |m.starts| == |fns| && (forall j :: 0 <= j < |fns| ==> m.starts[j] == FnStart(fns, j))
    && forall l :: l in LabelPoints(fns[k].code) ==> l in m.labels && m.labels[l] == LabelStart(fns, k, l)
  }

  function LabelOffset(m: Offsets, l: nat): nat { if l in m.labels then m.labels[l] else 0 }

  /** An item with its offsets looked up. */
  function Looked(m: Offsets, item: Item<nat>): Item<nat> {
    match item
    case Br(l) => Br(LabelOffset(m, l))
    case BrCond(c, l) => BrCond(c, LabelOffset(m, l))
    case Do(op) =>
      if op.MakeFunction? then Do(MakeFunction(op.v, if op.func < |m.starts| then m.starts[op.func] else 0))
      else Do(MapText(DataOffsets(m.data), DataOffsets(m.data), op))
    case _ => item
  }

  lemma LookedIsLinked(irs: seq<Fn>, fns: seq<Fn>, k: nat, m: Offsets, item: Item<nat>)
    requires Scheduled(irs, fns) && k < |irs| && OffsetsOf(irs, k, m)
    requires BranchTarget(item).Some? ==> BranchTarget(item).value in LabelPoints(irs[k].code)
    ensures Looked(m, item) == LinkItem(m.data, fns, k, item)
  {
    hide Scheduled, LabelStart, FnStart;
    if BranchTarget(item).Some? { ScheduledLabels(irs, fns, k, BranchTarget(item).value); }
    if item.Do? && item.op.MakeFunction? && item.op.func < |irs| { ScheduledStarts(irs, fns, item.op.func); }
    SameCount(irs, fns);
  }

  lemma SameCount(irs: seq<Fn>, fns: seq<Fn>)
    requires Scheduled(irs, fns)
    ensures |irs| == |fns|
  {
  }

  /** The assembler has a handler for the item. */
  predicate Handled<N>(item: Item<N>) {
    && !item.PushScope? && !item.PopScope?
    && (item.Do? ==>
         && !item.op.MakeArrowFunction?
         && (item.op.Call? ==> |item.op.args| <= ARGC_MAX)
         && (item.op.New? ==> |item.op.args| <= ARGC_MAX))
  }

  /** A call has sixteen arguments at most, and what creates an object too. */
  lemma SixteenArguments<N>(op: Op<N>)
    requires op.Call? || op.New?
    ensures Handled(Item.Do(op)) <==> |op.args| <= 16
  {
  }

  lemma LoweredIfHandled(m: Offsets, item: Item<nat>)
    ensures Handled(item) <==> !LowerItem(Looked(m, item)).Unsupported?
  {
    hide LabelOffset, NumberItem;
  }

  lemma MappedHandled(reg: nat -> nat, item: Item<nat>)
    ensures Handled(MapItem(reg, item)) == Handled(item) && BranchTarget(MapItem(reg, item)) == BranchTarget(item)
  {
  }

  lemma LookedSize(m: Offsets, item: Item<nat>)
    ensures ItemSize(Looked(m, item)) == ItemSize(item) && EightBytes(Looked(m, item)) == EightBytes(item)
  {
    hide NumberSize, LabelOffset;
  }

  lemma HandledIsLowered(reg: nat -> nat, m: Offsets, item: Item<nat>)
    ensures Handled(item) <==> !LowerItem(Looked(m, MapItem(reg, item))).Unsupported?
    ensures Handled(item) ==> ItemSize(item).Some?
    ensures ItemSize(Looked(m, MapItem(reg, item))) == ItemSize(item)
    ensures EightBytes(Looked(m, MapItem(reg, item))) == EightBytes(item)
    ensures BranchTarget(MapItem(reg, item)) == BranchTarget(item)
  {
    hide *;
    MappedHandled(reg, item);
    LoweredIfHandled(m, MapItem(reg, item));
    SizedIfHandled(item);
    LookedSize(m, MapItem(reg, item));
    MappedSize(reg, item);
  }

  ghost predicate AllHandled(irs: seq<Fn>, k: nat) {
    forall j, i :: 0 <= j < k <= |irs| && 0 <= i < |irs[j].code| ==> Handled(irs[j].code[i])
  }

  /** Where an instruction comes from: file, lines and columns, range. */
  datatype Span = Span(file: seq<Byte>, startLine: Int32, startCol: Int32, endLine: Int32, endCol: Int32,
    from: Int32, to: Int32)

  /** A new instruction comes from nowhere. */
  const NO_SPAN := Span([], -1, -1, -1, -1, -1, -1)

  /** An annotated instruction, with its offset into the text and where it comes from. */
  datatype Placed = Placed(at: nat, ti: TextItem, span: Span)

  function Instructions(ps: seq<Placed>): (r: seq<TextItem>)
    ensures |r| == |ps| && forall i :: 0 <= i < |ps| ==> r[i] == ps[i].ti
  {
    seq(|ps|, i requires 0 <= i < |ps| => ps[i].ti)
  }

  function SpansIn(ps: seq<Placed>): (r: seq<Span>)
    ensures |r| == |ps| && forall i :: 0 <= i < |ps| ==> r[i] == ps[i].span
  {
    seq(|ps|, i requires 0 <= i < |ps| => ps[i].span)
  }

  /** The item becomes no instruction. */
  predicate Silent<N>(item: Item<N>) { item.Label? || item.Alloca? }

  /** Where the instructions of the first `i` items come from. */
  function ItemSpans(code: seq<Item<nat>>, spans: seq<Span>, i: nat): seq<Span>
    requires i <= |code| == |spans|
  {
    if i == 0 then [] else ItemSpans(code, spans, i - 1) + (if Silent(code[i-1]) then [] else [spans[i-1]])
  }

  function PreambleSpans(params: seq<nat>): seq<Span> { seq(|params| + 1, _ => NO_SPAN) }

  function FnSpans(fn: Fn, spans: seq<Span>): seq<Span>
    requires |fn.code| == |spans|
  {
    PreambleSpans(fn.params) + ItemSpans(fn.code, spans, |fn.code|)
  }

  /** Every item of every function has a span. */
  ghost predicate SpansFit(fns: seq<Fn>, spans: seq<seq<Span>>) {
    |spans| == |fns| && forall k :: 0 <= k < |fns| ==> |spans[k]| == |fns[k].code|
  }

  /** Every instruction comes from where its item comes from. */
  ghost predicate Located(fns: seq<Fn>, spans: seq<seq<Span>>, out: seq<seq<Placed>>)
    requires SpansFit(fns, spans)
  {
    |out| == |fns| && forall k :: 0 <= k < |fns| ==> SpansIn(out[k]) == FnSpans(fns[k], spans[k])
  }

  lemma {:induction false} SameSpans(a: seq<Item<nat>>, b: seq<Item<nat>>, spans: seq<Span>, i: nat)
    requires i <= |a| == |b| == |spans| && forall j :: 0 <= j < |a| ==> Silent(a[j]) == Silent(b[j])
    ensures ItemSpans(a, spans, i) == ItemSpans(b, spans, i)
  {
    if i > 0 { SameSpans(a, b, spans, i - 1); }
  }

  lemma ScheduledSpans(ir: Fn, fn: Fn, spans: seq<Span>)
    requires OnSchedule(ir, fn) && |spans| == |ir.code|
    ensures |fn.code| == |spans| && fn.params == ir.params
    ensures ItemSpans(fn.code, spans, |spans|) == ItemSpans(ir.code, spans, |spans|)
  {
    hide Allocation, IsPeak, IsPeriod, IntervalsUpTo, ItemSpans;
    var table: Table, period: nat :| IsScheduleOf(ir, fn, table, period);
    SameSpans(fn.code, ir.code, spans, |spans|);
  }

  lemma SilentIsNothing(reg: nat -> nat, m: Offsets, item: Item<nat>)
    ensures Silent(item) <==> LowerItem(Looked(m, MapItem(reg, item))).Nothing?
  {
    hide LabelOffset, NumberItem;
  }

  lemma SpansMore(ps: seq<Placed>, p: Placed)
    ensures SpansIn(ps + [p]) == SpansIn(ps) + [p.span]
  {
  }

  /** Every instruction is annotated with the number of bytes written before it. */
  predicate Consecutive(ps: seq<Placed>, start: nat, end: nat) {
    && end == start + |ItemsBytes(Instructions(ps))|
    && forall i :: 0 <= i < |ps| ==> ps[i].at == start + |ItemsBytes(Instructions(ps[..i]))|
  }

  lemma ConsecutiveMore(ps: seq<Placed>, start: nat, end: nat, ti: TextItem, span: Span)
    requires Consecutive(ps, start, end)
    ensures Consecutive(ps + [Placed(end, ti, span)], start, end + |InstBytes(ti)|)
    ensures Instructions(ps + [Placed(end, ti, span)]) == Instructions(ps) + [ti]
  {
    hide ItemsBytes, InstBytes;
    var qs := ps + [Placed(end, ti, span)];
    BytesJoin(Instructions(ps), [ti]);
    OneBytes(ti);
    assert Instructions(qs) == Instructions(ps) + [ti];
    forall i | 0 <= i < |qs| ensures qs[i].at == start + |ItemsBytes(Instructions(qs[..i]))| {
      if i < |ps| { assert qs[..i] == ps[..i]; } else { assert qs[..i] == ps; }
    }
  }

  /** What the first `i` items became. */
  function LookedItems(m: Offsets, code: seq<Item<nat>>, i: nat): seq<TextItem>
    requires i <= |code|
  {
    if i == 0 then []
    else
      var lowered := LowerItem(Looked(m, code[i-1]));
      LookedItems(m, code, i - 1) + (if lowered.Emit? then [lowered.ti] else [])
  }

  /** The parameters of a function, then its registers. */
  method AnnotatePreamble(params: seq<nat>, regs: nat, data: map<nat, nat>, start: nat)
      returns (ps: seq<Placed>, end: nat)
    ensures Instructions(ps) == Preamble(data, params, regs) && Consecutive(ps, start, end)
    ensures end == start + PreambleSize(params) && SpansIn(ps) == PreambleSpans(params)
  {
    hide Consecutive;
    ps, end := [], start;
    NoneConsecutive(start);
    var idx := 0;
    assert params[..0] == [];
    while idx < |params|
      invariant 0 <= idx <= |params| && end == start + 6 * idx
      invariant Instructions(ps) == ArgItems(data, params[..idx]) && Consecutive(ps, start, end)
      invariant |ps| == idx && forall i :: 0 <= i < idx ==> ps[i].span == NO_SPAN
    {
      var ti := TextItem(0x19, [Addr(DataOffset(data, params[idx])), Reg(idx % TWO_8)]);
      assert params[..idx+1][..idx] == params[..idx];
      ConsecutiveMore(ps, start, end, ti, NO_SPAN);
      ArgBytes(DataOffset(data, params[idx]), idx % TWO_8);
      ps, end, idx := ps + [Placed(end, ti, NO_SPAN)], end + 6, idx + 1;
    }
    assert params[..|params|] == params;
    ConsecutiveMore(ps, start, end, TextItem(0x18, [Reg(regs)]), NO_SPAN);
    ArgBytes(0, regs);
    ps, end := ps + [Placed(end, TextItem(0x18, [Reg(regs)]), NO_SPAN)], end + 2;
  }

  lemma NoneConsecutive(start: nat)
    ensures Consecutive([], start, start)
  {
  }

  lemma HandledSize(table: Table, p: nat, m: Offsets, item: Item<nat>)
    requires EightBytes(item)
    ensures var reg := (v: nat) => RegisterAt(table, v, p); var lowered := LowerItem(Looked(m, MapItem(reg, item)));
      && (Handled(item) <==> !lowered.Unsupported?)
      && (lowered.Emit? ==> SizeOf(item) == |InstBytes(lowered.ti)|) && (lowered.Nothing? ==> SizeOf(item) == 0)
  {
    hide InstBytes, LowerItem, ItemSize, Looked, MapItem, EightBytes, Handled;
    var reg := (v: nat) => RegisterAt(table, v, p);
    HandledIsLowered(reg, m, item);
    SizeIsWritten(Looked(m, MapItem(reg, item)));
  }

  /** The items of a function, each by its handler. */
  method AnnotateItems(code: seq<Item<nat>>, spans: seq<Span>, table: Table, m: Offsets, ps0: seq<Placed>, start: nat,
      offset: nat)
    returns (ps: seq<Placed>, end: nat, ok: bool)
    requires |spans| == |code|
    requires Consecutive(ps0, start, offset) && forall i :: 0 <= i < |code| ==> EightBytes(code[i])
    ensures ok <==> forall i :: 0 <= i < |code| ==> Handled(code[i])
    ensures ok ==> Instructions(ps) == Instructions(ps0) + LookedItems(m, OnRegisters(code, table), |code|)
    ensures ok ==> Consecutive(ps, start, end) && end == offset + CodeSize(code)
    ensures ok ==> SpansIn(ps) == SpansIn(ps0) + ItemSpans(code, spans, |code|)
  {
    hide Consecutive, CodeSize, LowerItem, Looked, MapItem, Handled, SizeOf, InstBytes, EightBytes, Silent;
    ghost var on := OnRegisters(code, table);
    ps, end, ok := ps0, offset, true;
    var point := 0;
    EmptyCode(code);
    while point < |code|
      invariant 0 <= point <= |code| && end == offset + CodeSize(code[..point]) && Consecutive(ps, start, end)
      invariant forall i :: 0 <= i < point ==> Handled(code[i])
      invariant Instructions(ps) == Instructions(ps0) + LookedItems(m, on, point)
      invariant SpansIn(ps) == SpansIn(ps0) + ItemSpans(code, spans, point)
    {
      HandledSize(table, point, m, code[point]);
      SilentIsNothing((v: nat) => RegisterAt(table, v, point), m, code[point]);
      var lowered := LowerItem(Looked(m, MapItem((v: nat) => RegisterAt(table, v, point), code[point])));
      assert on[point] == MapItem((v: nat) => RegisterAt(table, v, point), code[point]);
      CodeSizeStep(code, point);
      match lowered {
        case Unsupported => return ps, end, false;
        case Nothing =>
        case Emit(ti) =>
          ConsecutiveMore(ps, start, end, ti, spans[point]);
          SpansMore(ps, Placed(end, ti, spans[point]));
          ps := ps + [Placed(end, ti, spans[point])];
      }
      end := end + SizeOf(code[point]);
      point := point + 1;
    }
    assert code[..|code|] == code;
  }

  /** What the assembler relies on: C2 numbers temporaries densely, lets every label
      stand once and every branch name one, and a double has eight bytes. */
  ghost predicate FromC2(f: seq<Item<nat>>) {
    && Dense(IntervalsUpTo(f, |f|).0) && UniqueLabels(f) && LabelsDefined(f)
    && forall i :: 0 <= i < |f| ==> EightBytes(f[i])
  }

  /** One function: schedule its registers, then annotate its instructions. */
  method AnnotateFunction(ir: Fn, spans: seq<Span>, m: Offsets, offset: nat)
      returns (fn: Fn, ps: seq<Placed>, end: nat, ok: bool)
    requires FromC2(ir.code) && |spans| == |ir.code|
    ensures OnSchedule(ir, fn) && (ok <==> forall i :: 0 <= i < |ir.code| ==> Handled(ir.code[i]))
    ensures ok ==> Instructions(ps) == Preamble(m.data, fn.params, fn.regs) + LookedItems(m, fn.code, |fn.code|)
    ensures ok ==> Consecutive(ps, offset, end) && end == offset + FnSize(ir)
    ensures ok ==> SpansIn(ps) == PreambleSpans(ir.params) + ItemSpans(ir.code, spans, |ir.code|)
  {
    hide Consecutive, Dense, UniqueLabels, LabelsDefined, Allocation, IsPeak, IsPeriod, Preamble, LookedItems, CodeSize;
    var sched := new RegSched();
    var _ := sched.SetR1(ir.code);
    var table := sched.Rows();
    fn := Fn(ir.params, OnRegisters(ir.code, table), sched.regsCount);
    assert IsScheduleOf(ir, fn, table, sched.table.Length1);
    ps, end := AnnotatePreamble(ir.params, sched.regsCount, m.data, offset);
    ps, end, ok := AnnotateItems(ir.code, spans, table, m, ps, offset, end);
  }

  /** Everything looked up for the code of function `k` is what linking fills in. */
  lemma {:induction false} LookedIsCode(irs: seq<Fn>, fns: seq<Fn>, k: nat, m: Offsets, i: nat)
    requires Scheduled(irs, fns) && k < |irs| && OffsetsOf(irs, k, m) && LabelsDefined(irs[k].code)
    requires k < |fns| && i <= |fns[k].code|
    ensures LookedItems(m, fns[k].code, i) == CodeItems(m.data, fns, k, i)
    decreases i
  {
    hide LowerItem, Looked, LinkItem, OffsetsOf, Scheduled, OnSchedule;
    if i > 0 {
      LookedIsCode(irs, fns, k, m, i - 1);
      TargetsStay(irs, fns, k, i - 1);
      LookedIsLinked(irs, fns, k, m, fns[k].code[i-1]);
    }
  }

  lemma TargetsStay(irs: seq<Fn>, fns: seq<Fn>, k: nat, i: nat)
    requires Scheduled(irs, fns) && k < |irs| && LabelsDefined(irs[k].code) && k < |fns| && i < |fns[k].code|
    ensures BranchTarget(fns[k].code[i]).Some? ==> BranchTarget(fns[k].code[i]).value in LabelPoints(irs[k].code)
  {
    hide Allocation, IsPeak, IsPeriod, IntervalsUpTo, LabelPoints;
    assert OnSchedule(irs[k], fns[k]);
    var table: Table, period: nat :| IsScheduleOf(irs[k], fns[k], table, period);
    assert BranchTarget(fns[k].code[i]) == BranchTarget(irs[k].code[i]);
  }

  ghost predicate AnnotatedSoFar(irs: seq<Fn>, data: map<nat, nat>, starts: seq<nat>, labels: seq<map<nat, nat>>,
      fns: seq<Fn>, out: seq<seq<Placed>>) {
    && |labels| == |fns| == |out| <= |irs|
    && (forall j :: 0 <= j < |fns| ==>
        OnSchedule(irs[j], fns[j]) && OffsetsOf(irs, j, Offsets(data, starts, labels[j])))
    && (forall j :: 0 <= j < |fns| ==>
          Instructions(out[j]) == Preamble(data, fns[j].params, fns[j].regs) +
              LookedItems(Offsets(data, starts, labels[j]), fns[j].code, |fns[j].code|))
    && (forall j :: 0 <= j < |fns| ==> Consecutive(out[j], FnStart(irs, j), FnStart(irs, j + 1)))
  }

  lemma NothingAnnotated(irs: seq<Fn>, spans: seq<seq<Span>>, data: map<nat, nat>, starts: seq<nat>)
    requires SpansFit(irs, spans)
    ensures AnnotatedSoFar(irs, data, starts, [], [], []) && LocatedSoFar(irs, spans, [])
  {
  }

  lemma AnnotatedNext(irs: seq<Fn>, data: map<nat, nat>, starts: seq<nat>, labels: seq<map<nat, nat>>, fns: seq<Fn>,
      out: seq<seq<Placed>>, fn: Fn, ps: seq<Placed>, here: map<nat, nat>)
    requires AnnotatedSoFar(irs, data, starts, labels, fns, out) && |fns| < |irs| && OnSchedule(irs[|fns|], fn)
    requires OffsetsOf(irs, |fns|, Offsets(data, starts, here))
    requires Instructions(ps) ==
      Preamble(data, fn.params, fn.regs) + LookedItems(Offsets(data, starts, here), fn.code, |fn.code|)
    requires var next := |fns| + 1; Consecutive(ps, FnStart(irs, |fns|), FnStart(irs, next))
    ensures AnnotatedSoFar(irs, data, starts, labels + [here], fns + [fn], out + [ps])
  {
    hide OnSchedule, OffsetsOf, Consecutive, Preamble, LookedItems, FnStart, Instructions;
  }

  lemma LocatedNext(irs: seq<Fn>, spans: seq<seq<Span>>, out: seq<seq<Placed>>, ps: seq<Placed>)
    requires SpansFit(irs, spans) && |out| < |irs| && LocatedSoFar(irs, spans, out)
    requires
      var k := |out|;
      SpansIn(ps) == PreambleSpans(irs[k].params) + ItemSpans(irs[k].code, spans[k], |irs[k].code|)
    ensures LocatedSoFar(irs, spans, out + [ps])
  {
    hide SpansIn, ItemSpans, PreambleSpans;
  }

  /** The text is annotated: function by function, every instruction with the offset
      at which it will be written. */
  ghost predicate Annotated(data: map<nat, nat>, fns: seq<Fn>, out: seq<seq<Placed>>) {
    |out| == |fns| && forall k :: 0 <= k < |fns| ==>
      Instructions(out[k]) == FnItems(data, fns, k) && Consecutive(out[k], FnStart(fns, k), FnStart(fns, k + 1))
  }

  lemma AnnotatedAll(irs: seq<Fn>, data: map<nat, nat>, starts: seq<nat>, labels: seq<map<nat, nat>>, fns: seq<Fn>,
      out: seq<seq<Placed>>)
    requires AnnotatedSoFar(irs, data, starts, labels, fns, out) && |fns| == |irs|
    requires forall k :: 0 <= k < |irs| ==> FromC2(irs[k].code)
    ensures Scheduled(irs, fns) && Annotated(data, fns, out)
  {
    hide OnSchedule, OffsetsOf, Consecutive, Preamble, LookedItems, FnStart, Instructions, Dense, UniqueLabels,
        LabelsDefined, CodeItems;
    forall k | 0 <= k < |fns|
      ensures Instructions(out[k]) == FnItems(data, fns, k) && Consecutive(out[k], FnStart(fns, k), FnStart(fns, k + 1))
    {
      ScheduledStarts(irs, fns, k);
      ScheduledStarts(irs, fns, k + 1);
      LookedIsCode(irs, fns, k, Offsets(data, starts, labels[k]), |fns[k].code|);
    }
  }

  /** `xjs_c4_text_section_annotate`: it fails exactly when an item has no handler. */
  method Annotate(irs: seq<Fn>, spans: seq<seq<Span>>, data: map<nat, nat>)
      returns (fns: seq<Fn>, out: seq<seq<Placed>>, ok: bool)
    requires SpansFit(irs, spans) && forall k :: 0 <= k < |irs| ==> FromC2(irs[k].code)
    ensures ok <==> AllHandled(irs, |irs|)
    ensures ok ==> Scheduled(irs, fns) && Annotated(data, fns, out)
    ensures ok ==> SpansFit(fns, spans) && Located(fns, spans, out)
  {
    hide FnStart, OnSchedule, OffsetsOf, Consecutive, Preamble, LookedItems, Instructions, Dense, LabelsDefined,
        Handled, LabelStart, Scheduled, Annotated, ItemSpans, PreambleSpans, AnnotatedSoFar, LocatedSoFar, SpansIn;
    var starts;
    fns, out := [], [];
    HandledIsMeasurable(irs);
    starts, ok := FunctionOffsets(irs);
    if !ok { return; }
    ghost var labels: seq<map<nat, nat>> := [];
    var k, offset := 0, 0;
    NoFunction(irs);
    NothingAnnotated(irs, spans, data, starts);
    while k < |irs|
      invariant 0 <= k <= |irs| && |fns| == |out| == k && offset == FnStart(irs, k)
      invariant AllHandled(irs, k) && AnnotatedSoFar(irs, data, starts, labels, fns, out)
      invariant LocatedSoFar(irs, spans, out)
    {
      var here, unique := LabelOffsets(irs, k, starts[k]);
      var m := Offsets(data, starts, here);
      assert OffsetsOf(irs, k, m) by { OffsetsAre(irs, k, m); }
      var fn, ps, end, handled := AnnotateFunction(irs[k], spans[k], m, offset);
      if !handled { return fns, out, false; }
      NextFunction(irs, k);
      AnnotatedNext(irs, data, starts, labels, fns, out, fn, ps, here);
      LocatedNext(irs, spans, out, ps);
      fns, out, labels := fns + [fn], out + [ps], labels + [here];
      offset := end;
      k := k + 1;
    }
    AnnotatedAll(irs, data, starts, labels, fns, out);
    LocatedAll(irs, spans, fns, out);
  }

  ghost predicate LocatedSoFar(irs: seq<Fn>, spans: seq<seq<Span>>, out: seq<seq<Placed>>)
    requires SpansFit(irs, spans) && |out| <= |irs|
  {
    forall j :: 0 <= j < |out| ==>
        SpansIn(out[j]) == PreambleSpans(irs[j].params) + ItemSpans(irs[j].code, spans[j], |irs[j].code|)
  }

  lemma LocatedAll(irs: seq<Fn>, spans: seq<seq<Span>>, fns: seq<Fn>, out: seq<seq<Placed>>)
    requires SpansFit(irs, spans) && |out| == |irs| && LocatedSoFar(irs, spans, out) && Scheduled(irs, fns)
    ensures SpansFit(fns, spans) && Located(fns, spans, out)
  {
    hide OnSchedule, ItemSpans, PreambleSpans;
    forall k | 0 <= k < |fns| ensures |spans[k]| == |fns[k].code| && SpansIn(out[k]) == FnSpans(fns[k], spans[k]) {
      ScheduledSpans(irs[k], fns[k], spans[k]);
    }
  }

  lemma OffsetsAre(fns: seq<Fn>, k: nat, m: Offsets)
    requires k < |fns| && |m.starts| == |fns| && (forall j :: 0 <= j < |fns| ==> m.starts[j] == FnStart(fns, j))
    requires forall l :: l in LabelPoints(fns[k].code) ==> l in m.labels && m.labels[l] == LabelStart(fns, k, l)
    ensures OffsetsOf(fns, k, m)
  {
  }

  lemma HandledIsMeasurable(irs: seq<Fn>)
    ensures AllHandled(irs, |irs|) ==> AllMeasurable(irs)
  {
    forall k: nat, i: nat | k < |irs| && i < |irs[k].code|
      ensures Handled(irs[k].code[i]) ==> ItemSize(irs[k].code[i]).Some?
    {
      SizedIfHandled(irs[k].code[i]);
    }
  }

  lemma SizedIfHandled(item: Item<nat>)
    ensures Handled(item) ==> ItemSize(item).Some?
  {
  }

  // ----- writing -----

  lemma InstructionsStep(ps: seq<Placed>, i: nat)
    requires i < |ps|
    ensures ItemsBytes(Instructions(ps[..i+1])) == ItemsBytes(Instructions(ps[..i])) + InstBytes(ps[i].ti)
  {
    hide InstBytes;
    assert Instructions(ps[..i+1])[..i] == Instructions(ps[..i]);
  }

  lemma OperandsStep(operands: seq<Operand>, i: nat)
    requires i < |operands|
    ensures AllBytes(operands[..i+1]) == AllBytes(operands[..i]) + OperandBytes(operands[i])
    decreases i
  {
    hide OperandBytes;
    if i == 0 {
      assert operands[..1] == [operands[0]] && operands[..0] == [];
      AllBytesStep([operands[0]]);
      assert [operands[0]][1..] == [];
    } else {
      OperandsStep(operands[1..], i - 1);
      assert operands[..i+1][1..] == operands[1..][..i] && operands[..i][1..] == operands[1..][..i-1];
      AllBytesStep(operands[..i+1]);
      AllBytesStep(operands[..i]);
    }
  }

  /** `text_item_instrument_write` */
  method WriteInstruction(bw: BitWriter, ti: TextItem)
    requires bw.Valid()
    modifies bw, bw.body
    ensures bw.Valid() && bw.Contents() == old(bw.Contents()) + InstBytes(ti)
    ensures bw.body == old(bw.body) || fresh(bw.body)
  {
    hide OperandBytes, AllBytes;
    bw.WriteU8(ti.opcode);
    var i := 0;
    NoOperands();
    assert ti.operands[..0] == [];
    while i < |ti.operands|
      invariant 0 <= i <= |ti.operands| && bw.Valid()
      invariant bw.Contents() == old(bw.Contents()) + U8(ti.opcode) + AllBytes(ti.operands[..i])
      invariant bw.body == old(bw.body) || fresh(bw.body)
    {
      bw.Append(OperandBytes(ti.operands[i]));
      OperandsStep(ti.operands, i);
      i := i + 1;
    }
    assert ti.operands[..|ti.operands|] == ti.operands;
  }

  lemma NoOperands()
    ensures AllBytes([]) == []
  {
  }

  method WriteFunction(bw: BitWriter, ps: seq<Placed>)
    requires bw.Valid()
    modifies bw, bw.body
    ensures bw.Valid() && bw.Contents() == old(bw.Contents()) + ItemsBytes(Instructions(ps))
    ensures bw.body == old(bw.body) || fresh(bw.body)
  {
    hide InstBytes, ItemsBytes, Instructions;
    NoInstructions(ps);
    var i := 0;
    while i < |ps|
      invariant 0 <= i <= |ps| && bw.Valid()
      invariant bw.Contents() == old(bw.Contents()) + ItemsBytes(Instructions(ps[..i]))
      invariant bw.body == old(bw.body) || fresh(bw.body)
    {
      WriteInstruction(bw, ps[i].ti);
      InstructionsStep(ps, i);
      i := i + 1;
    }
    assert ps[..|ps|] == ps;
  }

  lemma NoInstructions(ps: seq<Placed>)
    ensures ItemsBytes(Instructions(ps[..0])) == []
  {
  }

  const TEXT_SIGNATURE: seq<Byte> := [0x74, 0x65, 0x78, 0x74]

  /** `xjs_c4_write_text` */
  method WriteText(bw: BitWriter, data: map<nat, nat>, ghost fns: seq<Fn>, out: seq<seq<Placed>>)
    requires bw.Valid() && bw.Contents() == [] && Annotated(data, fns, out)
    modifies bw, bw.body
    ensures bw.Valid() && bw.Contents() == TEXT_SIGNATURE + TextBytes(data, fns, |fns|)
    ensures bw.body == old(bw.body) || fresh(bw.body)
  {
    hide ItemsBytes, Instructions, FnItems, TextBytes, Consecutive, FnStart;
    AtBeginning(data, fns);
    bw.Append(TEXT_SIGNATURE);
    var k := 0;
    while k < |out|
      invariant 0 <= k <= |out| && bw.Valid()
      invariant bw.Contents() == TEXT_SIGNATURE + TextBytes(data, fns, k)
      invariant bw.body == old(bw.body) || fresh(bw.body)
    {
      WriteFunction(bw, out[k]);
      TextStep(data, fns, k);
      k := k + 1;
    }
  }
}
