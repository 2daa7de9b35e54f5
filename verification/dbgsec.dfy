/** The debugging sections: a table from program counters to records, and the records. */
module DebugSection {
  import opened Ir
  import opened Bytes
  import opened Inst
  import opened Lower
  import opened Assemble
  import opened Ant
  import opened XWriter
  import opened Loads

  datatype Entry = Entry(at: nat, span: Span)

  const DBG0_SIGNATURE: seq<Byte> := [0x64, 0x62, 0x67, 0x30]
  const DBI0_SIGNATURE: seq<Byte> := [0x64, 0x62, 0x69, 0x30]

  function S32(n: int): seq<Byte> { U32(n % TWO_32) }

  function NumbersBytes(p: Span): seq<Byte> {
    S32(p.startLine) + S32(p.startCol) + S32(p.endLine) + S32(p.endCol) + S32(p.from) + S32(p.to)
  }

  function RecordBytes(p: Span): seq<Byte> { U32(|p.file|) + p.file + U8(0) + NumbersBytes(p) }

  /** The record is found at this offset, counted from the end of the signature. */
  function RecordStart(es: seq<Entry>, n: nat): nat
    requires n <= |es|
  {
    if n == 0 then 0 else RecordStart(es, n - 1) + 4 + |es[n-1].span.file| + 1 + 6 * 4
  }

  function RecordsBytes(es: seq<Entry>, n: nat): seq<Byte>
    requires n <= |es|
  {
    if n == 0 then [] else RecordsBytes(es, n - 1) + RecordBytes(es[n-1].span)
  }

  function TableBytes(es: seq<Entry>, n: nat): seq<Byte>
    requires n <= |es|
  {
    if n == 0 then [] else TableBytes(es, n - 1) + (U32(es[n-1].at) + U32(RecordStart(es, n - 1)))
  }

  lemma Step(es: seq<Entry>, n: nat)
    requires n < |es|
    ensures RecordStart(es, n + 1) == RecordStart(es, n) + 29 + |es[n].span.file|
    ensures RecordsBytes(es, n + 1) == RecordsBytes(es, n) + RecordBytes(es[n].span)
    ensures TableBytes(es, n + 1) == TableBytes(es, n) + (U32(es[n].at) + U32(RecordStart(es, n)))
  {
  }

  lemma Nothing(es: seq<Entry>)
    ensures RecordStart(es, 0) == 0 && RecordsBytes(es, 0) == [] && TableBytes(es, 0) == []
  {
  }

  lemma RecordSize(p: Span)
    ensures |RecordBytes(p)| == 29 + |p.file|
  {
    hide U32;
    U32Size(|p.file|);
    U32Size(p.startLine % TWO_32);
    U32Size(p.startCol % TWO_32);
    U32Size(p.endLine % TWO_32);
    U32Size(p.endCol % TWO_32);
    U32Size(p.from % TWO_32);
    U32Size(p.to % TWO_32);
  }

  lemma {:induction false} Sizes(es: seq<Entry>, n: nat)
    requires n <= |es|
    ensures |RecordsBytes(es, n)| == RecordStart(es, n) && |TableBytes(es, n)| == 8 * n
    decreases n
  {
    hide RecordBytes, U32, RecordsBytes, TableBytes, RecordStart;
    Nothing(es);
    if n > 0 {
      Sizes(es, n - 1);
      Step(es, n - 1);
      RecordSize(es[n-1].span);
      U32Size(es[n-1].at);
      U32Size(RecordStart(es, n - 1));
    }
  }

  method WriteRecord(bw: BitWriter, p: Span)
    requires bw.Valid()
    modifies bw, bw.body
    ensures bw.Valid() && bw.Contents() == old(bw.Contents()) + RecordBytes(p)
    ensures bw.body == old(bw.body) || fresh(bw.body)
  {
    hide U32;
    if |p.file| == 0 {
      bw.WriteU32(0);
      bw.WriteU8(0);
    } else {
      bw.WriteU32(|p.file|);
      bw.Append(p.file);
      bw.WriteU8(0);
    }
    assert bw.Contents() == old(bw.Contents()) + (U32(|p.file|) + p.file + U8(0));
    WriteNumbers(bw, p);
    Associate(old(bw.Contents()), U32(|p.file|) + p.file + U8(0), NumbersBytes(p));
  }

  lemma Associate<T>(a: seq<T>, b: seq<T>, c: seq<T>)
    ensures a + b + c == a + (b + c)
  {
  }

  method WriteNumbers(bw: BitWriter, p: Span)
    requires bw.Valid()
    modifies bw, bw.body
    ensures bw.Valid() && bw.Contents() == old(bw.Contents()) + NumbersBytes(p)
    ensures bw.body == old(bw.body) || fresh(bw.body)
  {
    hide U32;
    ghost var c := bw.Contents();
    bw.WriteU32(p.startLine % TWO_32);
    bw.WriteU32(p.startCol % TWO_32);
    Associate(c, S32(p.startLine), S32(p.startCol));
    ghost var two := S32(p.startLine) + S32(p.startCol);
    bw.WriteU32(p.endLine % TWO_32);
    Associate(c, two, S32(p.endLine));
    bw.WriteU32(p.endCol % TWO_32);
    Associate(c, two + S32(p.endLine), S32(p.endCol));
    ghost var four := two + S32(p.endLine) + S32(p.endCol);
    bw.WriteU32(p.from % TWO_32);
    Associate(c, four, S32(p.from));
    bw.WriteU32(p.to % TWO_32);
    Associate(c, four + S32(p.from), S32(p.to));
  }

  method WriteEntry(dbg0: BitWriter, dbi0: BitWriter, e: Entry, offset: nat)
    requires dbg0.Valid() && dbi0.Valid() && dbg0 != dbi0 && dbg0.body != dbi0.body
    modifies dbg0, dbg0.body, dbi0, dbi0.body
    ensures dbg0.Valid() && dbi0.Valid() && dbg0.body != dbi0.body
    ensures (dbg0.body == old(dbg0.body) || fresh(dbg0.body)) && (dbi0.body == old(dbi0.body) || fresh(dbi0.body))
    ensures dbg0.Contents() == old(dbg0.Contents()) + RecordBytes(e.span)
    ensures dbi0.Contents() == old(dbi0.Contents()) + (U32(e.at) + U32(offset))
  {
    hide U32, RecordBytes;
    dbi0.WriteU32(e.at);
    dbi0.WriteU32(offset);
    Associate(old(dbi0.Contents()), U32(e.at), U32(offset));
    WriteRecord(dbg0, e.span);
  }

  // ----- the instructions of all functions -----

  /** The instructions of function `k`, each with its offset into the text and where it
      comes from. */
  function FnEntries(data: map<nat, nat>, fns: seq<Fn>, spans: seq<seq<Span>>, k: nat): (r: seq<Entry>)
    requires SpansFit(fns, spans) && k < |fns|
    ensures |r| == |FnItems(data, fns, k)|
  {
    seq(|FnItems(data, fns, k)|, i requires 0 <= i < |FnItems(data, fns, k)| =>
      Entry(FnStart(fns, k) + |ItemsBytes(FnItems(data, fns, k)[..i])|, SpanAt(FnSpans(fns[k], spans[k]), i)))
  }

  function SpanAt(spans: seq<Span>, i: nat): Span { if i < |spans| then spans[i] else NO_SPAN }

  function EntriesOf(data: map<nat, nat>, fns: seq<Fn>, spans: seq<seq<Span>>, n: nat): seq<Entry>
    requires SpansFit(fns, spans) && n <= |fns|
  {
    if n == 0 then [] else EntriesOf(data, fns, spans, n - 1) + FnEntries(data, fns, spans, n - 1)
  }

  /** How many instructions the first `k` functions have. */
  function Count(data: map<nat, nat>, fns: seq<Fn>, k: nat): nat
    requires k <= |fns|
  {
    if k == 0 then 0 else Count(data, fns, k - 1) + |FnItems(data, fns, k - 1)|
  }

  lemma CountStep(data: map<nat, nat>, fns: seq<Fn>, k: nat)
    requires k < |fns|
    ensures Count(data, fns, 0) == 0 && Count(data, fns, k + 1) == Count(data, fns, k) + |FnItems(data, fns, k)|
  {
    hide FnItems;
  }

  lemma {:induction false} CountGrows(data: map<nat, nat>, fns: seq<Fn>, k: nat, n: nat)
    requires k <= n <= |fns|
    ensures Count(data, fns, k) <= Count(data, fns, n)
    decreases n
  {
    hide FnItems;
    if k < n { CountGrows(data, fns, k, n - 1); }
  }

  /** Entry `Count(k) + i` is that of instruction `i` of function `k`. */
  lemma {:induction false} EntryIs(data: map<nat, nat>, fns: seq<Fn>, spans: seq<seq<Span>>, n: nat, k: nat, i: nat)
    requires SpansFit(fns, spans) && k < n <= |fns| && i < |FnItems(data, fns, k)|
    ensures |EntriesOf(data, fns, spans, n)| == Count(data, fns, n) && Count(data, fns, k) + i < Count(data, fns, n)
    ensures EntriesOf(data, fns, spans, n)[Count(data, fns, k) + i] == FnEntries(data, fns, spans, k)[i]
    decreases n
  {
    hide FnEntries, FnItems, Count;
    CountStep(data, fns, n - 1);
    EntriesCount(data, fns, spans, n - 1);
    if k < n - 1 { EntryIs(data, fns, spans, n - 1, k, i); }
  }

  lemma {:induction false} EntriesCount(data: map<nat, nat>, fns: seq<Fn>, spans: seq<seq<Span>>, n: nat)
    requires SpansFit(fns, spans) && n <= |fns|
    ensures |EntriesOf(data, fns, spans, n)| == Count(data, fns, n)
  {
    hide FnEntries, FnItems;
    if n > 0 { EntriesCount(data, fns, spans, n - 1); }
  }

  /** Every entry is that of an instruction. */
  lemma {:induction false} EntryOwner(data: map<nat, nat>, fns: seq<Fn>, n: nat, j: nat) returns (k: nat, i: nat)
    requires n <= |fns| && j < Count(data, fns, n)
    ensures k < n && i < |FnItems(data, fns, k)| && j == Count(data, fns, k) + i
    decreases n
  {
    hide FnItems, Count;
    if n == 0 {
      CountIsNone(data, fns);
      assert false;
    } else {
      CountStep(data, fns, n - 1);
      if j < Count(data, fns, n - 1) {
        k, i := EntryOwner(data, fns, n - 1, j);
      } else {
        k, i := n - 1, j - Count(data, fns, n - 1);
      }
    }
  }

  lemma CountIsNone(data: map<nat, nat>, fns: seq<Fn>)
    ensures Count(data, fns, 0) == 0
  {
  }

  /** And of only one. */
  lemma OneOwner(data: map<nat, nat>, fns: seq<Fn>, k: nat, i: nat, k': nat, i': nat)
    requires k < |fns| && k' < |fns| && i < |FnItems(data, fns, k)| && i' < |FnItems(data, fns, k')|
    requires Count(data, fns, k) + i == Count(data, fns, k') + i'
    ensures k == k' && i == i'
  {
    hide FnItems, Count;
    CountStep(data, fns, k);
    CountStep(data, fns, k');
    if k < k' { CountGrows(data, fns, k + 1, k'); }
    if k' < k { CountGrows(data, fns, k' + 1, k); }
  }

  lemma FnEntryAt(data: map<nat, nat>, fns: seq<Fn>, spans: seq<seq<Span>>, k: nat, i: nat)
    requires SpansFit(fns, spans) && k < |fns| && i < |FnItems(data, fns, k)|
    ensures FnEntries(data, fns, spans, k)[i].at == FnStart(fns, k) + |ItemsBytes(FnItems(data, fns, k)[..i])|
  {
    hide FnItems, ItemsBytes, FnStart, FnSpans;
  }

  lemma FnEntrySpan(data: map<nat, nat>, fns: seq<Fn>, spans: seq<seq<Span>>, k: nat, i: nat)
    requires SpansFit(fns, spans) && k < |fns| && i < |FnItems(data, fns, k)|
    ensures FnEntries(data, fns, spans, k)[i].span == SpanAt(FnSpans(fns[k], spans[k]), i)
  {
    hide FnItems, ItemsBytes, FnStart, FnSpans;
  }

  // ----- writing -----

  lemma AnnotatedEntry(data: map<nat, nat>, fns: seq<Fn>, spans: seq<seq<Span>>, out: seq<seq<Placed>>, k: nat, i: nat)
    requires SpansFit(fns, spans) && Annotated(data, fns, out) && Located(fns, spans, out) && k < |out| && i < |out[k]|
    ensures k < |fns| && i < |FnItems(data, fns, k)|
    ensures FnEntries(data, fns, spans, k)[i] == Entry(out[k][i].at, out[k][i].span)
  {
    hide FnItems, ItemsBytes, FnSpans, FnStart, FnEntries;
    var items := FnItems(data, fns, k);
    assert Instructions(out[k]) == items && Consecutive(out[k], FnStart(fns, k), FnStart(fns, k + 1));
    assert Instructions(out[k][..i]) == items[..i];
    assert SpansIn(out[k])[i] == out[k][i].span;
    FnEntryAt(data, fns, spans, k, i);
    FnEntrySpan(data, fns, spans, k, i);
  }

  lemma AnnotatedCount(data: map<nat, nat>, fns: seq<Fn>, out: seq<seq<Placed>>, k: nat)
    requires Annotated(data, fns, out) && k < |fns|
    ensures |out| == |fns| && |out[k]| == |FnItems(data, fns, k)|
  {
    hide FnItems;
    assert |Instructions(out[k])| == |out[k]|;
  }

  /** Both buffers hold what belongs to the first `n` instructions. */
  ghost predicate Written(es: seq<Entry>, n: nat, offset: nat, dbg0: seq<Byte>, dbi0: seq<Byte>) {
    n <= |es| && offset == RecordStart(es, n) && dbg0 == DBG0_SIGNATURE + RecordsBytes(es, n) &&
        dbi0 == DBI0_SIGNATURE + TableBytes(es, n)
  }

  lemma WrittenNext(es: seq<Entry>, n: nat, offset: nat, dbg0: seq<Byte>, dbi0: seq<Byte>)
    requires Written(es, n, offset, dbg0, dbi0) && n < |es|
    ensures Written(es, n + 1, offset + 29 + |es[n].span.file|, dbg0 + RecordBytes(es[n].span),
        dbi0 + (U32(es[n].at) + U32(offset)))
  {
    hide U32, RecordBytes, RecordsBytes, TableBytes, RecordStart;
    Step(es, n);
    Associate(DBG0_SIGNATURE, RecordsBytes(es, n), RecordBytes(es[n].span));
    Associate(DBI0_SIGNATURE, TableBytes(es, n), U32(es[n].at) + U32(offset));
  }

  lemma NothingWritten(es: seq<Entry>)
    ensures Written(es, 0, 0, DBG0_SIGNATURE, DBI0_SIGNATURE)
  {
  }

  lemma AllWritten(es: seq<Entry>, offset: nat, dbg0: seq<Byte>, dbi0: seq<Byte>)
    requires Written(es, |es|, offset, dbg0, dbi0)
    ensures dbg0 == Dbg0Of(es) && dbi0 == Dbi0Of(es)
  {
  }

  /** The instructions `ps` of one function; the first of them has entry `n`. */
  method WriteFnDebug(dbg0: BitWriter, dbi0: BitWriter, ps: seq<Placed>, offset: nat, ghost es: seq<Entry>,
      ghost n: nat) returns (end: nat)
    requires dbg0.Valid() && dbi0.Valid() && dbg0 != dbi0 && dbg0.body != dbi0.body
    requires n + |ps| <= |es| && forall i :: 0 <= i < |ps| ==> es[n+i] == Entry(ps[i].at, ps[i].span)
    requires Written(es, n, offset, dbg0.Contents(), dbi0.Contents())
    modifies dbg0, dbg0.body, dbi0, dbi0.body
    ensures dbg0.Valid() && dbi0.Valid() && dbg0.body != dbi0.body
    ensures (dbg0.body == old(dbg0.body) || fresh(dbg0.body)) && (dbi0.body == old(dbi0.body) || fresh(dbi0.body))
    ensures Written(es, n + |ps|, end, dbg0.Contents(), dbi0.Contents())
  {
    hide U32, RecordBytes, Written;
    end := offset;
    var i := 0;
    while i < |ps|
      invariant 0 <= i <= |ps| && dbg0.Valid() && dbi0.Valid() && dbg0.body != dbi0.body
      invariant dbg0.body == old(dbg0.body) || fresh(dbg0.body)
      invariant dbi0.body == old(dbi0.body) || fresh(dbi0.body)
      invariant Written(es, n + i, end, dbg0.Contents(), dbi0.Contents())
    {
      WrittenNext(es, n + i, end, dbg0.Contents(), dbi0.Contents());
      WriteEntry(dbg0, dbi0, Entry(ps[i].at, ps[i].span), end);
      end := end + 4 + |ps[i].span.file| + 1 + 6 * 4;
      i := i + 1;
    }
  }

  lemma AnnotatedEntries(data: map<nat, nat>, fns: seq<Fn>, spans: seq<seq<Span>>, out: seq<seq<Placed>>, k: nat)
    requires SpansFit(fns, spans) && Annotated(data, fns, out) && Located(fns, spans, out) && k < |out|
    ensures var es, n := EntriesOf(data, fns, spans, |fns|), Count(data, fns, k);
      && k < |fns| && Count(data, fns, k + 1) == n + |out[k]| <= |es|
      && forall i :: 0 <= i < |out[k]| ==> es[n+i] == Entry(out[k][i].at, out[k][i].span)
  {
    hide EntriesOf, FnEntries, FnItems, Annotated, Located, Count, SpansFit;
    OutCount(data, fns, out);
    AnnotatedCount(data, fns, out, k);
    CountStep(data, fns, k);
    CountGrows(data, fns, k + 1, |fns|);
    EntriesCount(data, fns, spans, |fns|);
    forall i | 0 <= i < |out[k]|
      ensures EntriesOf(data, fns, spans, |fns|)[Count(data, fns, k) + i] == Entry(out[k][i].at, out[k][i].span)
    {
      EntryIs(data, fns, spans, |fns|, k, i);
      AnnotatedEntry(data, fns, spans, out, k, i);
    }
  }

  /** `xjs_c4_write_dbg0` */
  method WriteDebug(dbg0: BitWriter, dbi0: BitWriter, ghost data: map<nat, nat>, ghost fns: seq<Fn>,
      ghost spans: seq<seq<Span>>, out: seq<seq<Placed>>)
    requires dbg0.Valid() && dbi0.Valid() && dbg0 != dbi0 && dbg0.body != dbi0.body && dbg0.Contents() == [] &&
        dbi0.Contents() == []
    requires SpansFit(fns, spans) && Annotated(data, fns, out) && Located(fns, spans, out)
    modifies dbg0, dbg0.body, dbi0, dbi0.body
    ensures dbg0.Valid() && dbg0.Contents() == Dbg0Of(EntriesOf(data, fns, spans, |fns|))
    ensures dbi0.Valid() && dbi0.Contents() == Dbi0Of(EntriesOf(data, fns, spans, |fns|))
  {
    hide Written, Dbg0Of, Dbi0Of, EntriesOf, FnEntries, FnItems, Annotated, Located, Count, SpansFit;
    ghost var es := EntriesOf(data, fns, spans, |fns|);
    dbg0.Append(DBG0_SIGNATURE);
    dbi0.Append(DBI0_SIGNATURE);
    assert dbg0.Contents() == DBG0_SIGNATURE && dbi0.Contents() == DBI0_SIGNATURE;
    var offset, k := 0, 0;
    NothingWritten(es);
    CountIsNone(data, fns);
    EntriesCount(data, fns, spans, |fns|);
    OutCount(data, fns, out);
    while k < |out|
      invariant 0 <= k <= |out| == |fns|
      invariant dbg0.Valid() && dbi0.Valid() && dbg0.body != dbi0.body
      invariant dbg0.body == old(dbg0.body) || fresh(dbg0.body)
      invariant dbi0.body == old(dbi0.body) || fresh(dbi0.body)
      invariant Written(es, Count(data, fns, k), offset, dbg0.Contents(), dbi0.Contents())
    {
      AnnotatedEntries(data, fns, spans, out, k);
      offset := WriteFnDebug(dbg0, dbi0, out[k], offset, es, Count(data, fns, k));
      k := k + 1;
    }
    AllWritten(es, offset, dbg0.Contents(), dbi0.Contents());
  }

  lemma OutCount(data: map<nat, nat>, fns: seq<Fn>, out: seq<seq<Placed>>)
    requires Annotated(data, fns, out)
    ensures |out| == |fns|
  {
  }

  function Dbg0Of(es: seq<Entry>): seq<Byte> { DBG0_SIGNATURE + RecordsBytes(es, |es|) }

  function Dbi0Of(es: seq<Entry>): seq<Byte> { DBI0_SIGNATURE + TableBytes(es, |es|) }

  // ----- reading -----

  lemma {:induction false} RecordStands(es: seq<Entry>, n: nat, i: nat, mem: seq<Byte>, at: nat)
    requires i < n <= |es| && StandsAt(mem, at, RecordsBytes(es, n))
    ensures StandsAt(mem, at + RecordStart(es, i), RecordBytes(es[i].span))
    decreases n
  {
    hide StandsAt, RecordsBytes, RecordBytes, RecordStart;
    Step(es, n - 1);
    Sizes(es, n - 1);
    StandsSplit(mem, at, RecordsBytes(es, n - 1), RecordBytes(es[n-1].span));
    if i < n - 1 { RecordStands(es, n - 1, i, mem, at); }
  }

  lemma {:induction false} EntryStandsIn(es: seq<Entry>, n: nat, i: nat, mem: seq<Byte>, at: nat)
    requires i < n <= |es| && StandsAt(mem, at, TableBytes(es, n))
    ensures StandsAt(mem, at + 8 * i, U32(es[i].at)) && StandsAt(mem, at + 8 * i + 4, U32(RecordStart(es, i)))
    decreases n
  {
    hide StandsAt, TableBytes, U32, RecordStart;
    Step(es, n - 1);
    Sizes(es, n - 1);
    U32Size(es[n-1].at);
    StandsSplit(mem, at, TableBytes(es, n - 1), U32(es[n-1].at) + U32(RecordStart(es, n - 1)));
    StandsSplit(mem, at + 8 * (n - 1), U32(es[n-1].at), U32(RecordStart(es, n - 1)));
    if i < n - 1 { EntryStandsIn(es, n - 1, i, mem, at); }
  }

  /** The table leads from the offset of every instruction to its own record. */
  lemma TableLeadsToRecord(es: seq<Entry>, i: nat, mem: seq<Byte>, dbg0: nat, dbi0: nat)
    requires i < |es| && |mem| < TWO_32 && es[i].at < TWO_32
    requires StandsAt(mem, dbg0, Dbg0Of(es)) && StandsAt(mem, dbi0, Dbi0Of(es))
    ensures ReadU32(mem, dbi0 + 4 + 8 * i) == Some(es[i].at)
    ensures var r := ReadU32(mem, dbi0 + 4 + 8 * i + 4);
      r.Some? && StandsAt(mem, dbg0 + 4 + r.value, RecordBytes(es[i].span))
  {
    hide StandsAt, ReadU32, U32, RecordBytes, RecordsBytes, TableBytes, RecordStart;
    StandsSplit(mem, dbg0, DBG0_SIGNATURE, RecordsBytes(es, |es|));
    StandsSplit(mem, dbi0, DBI0_SIGNATURE, TableBytes(es, |es|));
    RecordStands(es, |es|, i, mem, dbg0 + 4);
    EntryStandsIn(es, |es|, i, mem, dbi0 + 4);
    Within(mem, dbg0 + 4 + RecordStart(es, i), RecordBytes(es[i].span));
    ReadsU32(mem, dbi0 + 4 + 8 * i, es[i].at);
    ReadsU32(mem, dbi0 + 4 + 8 * i + 4, RecordStart(es, i));
  }

  /** Four bytes that are this number. */
  predicate SaysInt(mem: seq<Byte>, at: nat, n: int) {
    var r := ReadU32(mem, at); r.Some? && Signed(r.value, TWO_32) == n
  }

  /** Read from front to back, the record says where an instruction comes from: the length
      of the file's name, the name, a zero byte, then line and column of the beginning, line
      and column of the end, and the range. */
  predicate Tells(mem: seq<Byte>, at: nat, p: Span) {
    && ReadU32(mem, at) == Some(|p.file|) && StandsAt(mem, at + 4, p.file)
    && ReadU8(mem, at + 4 + |p.file|) == Some(0)
    && var numbers := at + 4 + |p.file| + 1;
       && SaysInt(mem, numbers, p.startLine) && SaysInt(mem, numbers + 4, p.startCol)
       && SaysInt(mem, numbers + 8, p.endLine) && SaysInt(mem, numbers + 12, p.endCol)
       && SaysInt(mem, numbers + 16, p.from) && SaysInt(mem, numbers + 20, p.to)
  }

  /** A written record tells what was written. */
  lemma RecordTells(mem: seq<Byte>, at: nat, p: Span)
    requires StandsAt(mem, at, RecordBytes(p)) && |p.file| < TWO_32
    ensures Tells(mem, at, p)
  {
    hide StandsAt, U32, ReadU32, ReadU8, SaysInt, NumbersBytes;
    var head := U32(|p.file|) + p.file;
    U32Size(|p.file|);
    StandsSplit(mem, at, head + U8(0), NumbersBytes(p));
    StandsSplit(mem, at, head, U8(0));
    StandsSplit(mem, at, U32(|p.file|), p.file);
    ReadsU32(mem, at, |p.file|);
    ReadsU8(mem, at + 4 + |p.file|, 0);
    NumbersTell(mem, at + 4 + |p.file| + 1, p);
  }

  lemma NumbersTell(mem: seq<Byte>, at: nat, p: Span)
    requires StandsAt(mem, at, NumbersBytes(p))
    ensures SaysInt(mem, at, p.startLine) && SaysInt(mem, at + 4, p.startCol)
    ensures SaysInt(mem, at + 8, p.endLine) && SaysInt(mem, at + 12, p.endCol)
    ensures SaysInt(mem, at + 16, p.from) && SaysInt(mem, at + 20, p.to)
  {
    hide StandsAt, S32, SaysInt;
    var a, b, c, d, e := S32(p.startLine), S32(p.startCol), S32(p.endLine), S32(p.endCol), S32(p.from);
    S32Size(p.startLine);
    S32Size(p.startCol);
    S32Size(p.endLine);
    S32Size(p.endCol);
    S32Size(p.from);
    StandsSplit(mem, at, a + b + c + d + e, S32(p.to));
    StandsSplit(mem, at, a + b + c + d, e);
    StandsSplit(mem, at, a + b + c, d);
    StandsSplit(mem, at, a + b, c);
    StandsSplit(mem, at, a, b);
    IntBack(mem, at, p.startLine);
    IntBack(mem, at + 4, p.startCol);
    IntBack(mem, at + 8, p.endLine);
    IntBack(mem, at + 12, p.endCol);
    IntBack(mem, at + 16, p.from);
    IntBack(mem, at + 20, p.to);
  }

  lemma S32Size(n: int)
    ensures |S32(n)| == 4
  {
  }

  lemma IntBack(mem: seq<Byte>, at: nat, n: Int32)
    requires StandsAt(mem, at, S32(n))
    ensures SaysInt(mem, at, n)
  {
    hide StandsAt, U32, ReadU32;
    ReadsU32(mem, at, n % TWO_32);
    SignedBack(n);
  }

  // ----- the table and the text -----

  lemma {:induction false} ItemsGrow(items: seq<TextItem>, i: nat, i': nat)
    requires i < i' <= |items|
    ensures |ItemsBytes(items[..i])| < |ItemsBytes(items[..i'])|
    decreases i'
  {
    var last := items[i'-1];
    assert items[..i'][..i'-1] == items[..i'-1] && items[..i'][i'-1] == last;
    assert |InstBytes(last)| > 0 by { SomeBytes(last); }
    hide InstBytes;
    if i < i' - 1 { ItemsGrow(items, i, i' - 1); }
  }

  lemma SomeBytes(ti: TextItem)
    ensures |InstBytes(ti)| > 0
  {
    assert |U8(ti.opcode)| == 1;
  }

  /** The instruction lies within its function. */
  lemma EntryWithin(data: map<nat, nat>, fns: seq<Fn>, spans: seq<seq<Span>>, k: nat, i: nat)
    requires SpansFit(fns, spans) && AllLowerable(data, fns) && k < |fns| && i < |FnItems(data, fns, k)|
    ensures FnStart(fns, k) <= FnEntries(data, fns, spans, k)[i].at < FnStart(fns, k) + FnSize(fns[k])
  {
    hide FnItems, ItemsBytes, FnStart, FnEntries, FnSize, AllLowerable;
    var items := FnItems(data, fns, k);
    FnEntryAt(data, fns, spans, k, i);
    FnMeasured(data, fns, k);
    ItemsGrow(items, i, |items|);
    assert items[..|items|] == items;
  }

  lemma FnMeasured(data: map<nat, nat>, fns: seq<Fn>, k: nat)
    requires AllLowerable(data, fns) && k < |fns|
    ensures |ItemsBytes(FnItems(data, fns, k))| == FnSize(fns[k])
  {
    hide Lowerable;
    FnBytes(data, fns, k);
  }

  /** The offsets grow from entry to entry over the whole table, from function to function
      too. */
  lemma CountersGrow(data: map<nat, nat>, fns: seq<Fn>, spans: seq<seq<Span>>, j: nat, j': nat)
    requires SpansFit(fns, spans) && AllLowerable(data, fns)
    requires j < j' < |EntriesOf(data, fns, spans, |fns|)|
    ensures EntriesOf(data, fns, spans, |fns|)[j].at < EntriesOf(data, fns, spans, |fns|)[j'].at
  {
    hide FnItems, ItemsBytes, FnStart, FnEntries, FnSize, AllLowerable, EntriesOf, Count, SpansFit;
    EntriesCount(data, fns, spans, |fns|);
    var k, i := EntryOwner(data, fns, |fns|, j);
    var k', i' := EntryOwner(data, fns, |fns|, j');
    EntryIs(data, fns, spans, |fns|, k, i);
    EntryIs(data, fns, spans, |fns|, k', i');
    if k == k' {
      FnEntryAt(data, fns, spans, k, i);
      FnEntryAt(data, fns, spans, k, i');
      ItemsGrow(FnItems(data, fns, k), i, i');
    } else if k < k' {
      EntryWithin(data, fns, spans, k, i);
      EntryWithin(data, fns, spans, k', i');
      StartsInOrder(fns, k, k');
    } else {
      CountStep(data, fns, k');
      CountGrows(data, fns, k' + 1, k);
      assert false;
    }
  }

  /** The bytes of the instruction stand in the text at the offset in its entry. */
  lemma InstructionStands(data: map<nat, nat>, fns: seq<Fn>, spans: seq<seq<Span>>, k: nat, i: nat, mem: seq<Byte>,
      base: nat)
    requires SpansFit(fns, spans) && AllLowerable(data, fns) && k < |fns| && i < |FnItems(data, fns, k)|
    requires StandsAt(mem, base, TextBytes(data, fns, |fns|))
    ensures StandsAt(mem, base + FnEntries(data, fns, spans, k)[i].at, InstBytes(FnItems(data, fns, k)[i]))
  {
    hide FnItems, ItemsBytes, FnStart, FnEntries, InstBytes, AllLowerable, StandsAt, TextBytes;
    var items := FnItems(data, fns, k);
    FnStands(data, fns, k, mem, base);
    FnEntryAt(data, fns, spans, k, i);
    ItemsSplit(items, i);
    StandsSplit(mem, base + FnStart(fns, k), ItemsBytes(items[..i]) + InstBytes(items[i]), ItemsBytes(items[i+1..]));
    StandsSplit(mem, base + FnStart(fns, k), ItemsBytes(items[..i]), InstBytes(items[i]));
  }

  lemma ItemsSplit(items: seq<TextItem>, i: nat)
    requires i < |items|
    ensures ItemsBytes(items) == ItemsBytes(items[..i]) + InstBytes(items[i]) + ItemsBytes(items[i+1..])
  {
    hide *;
    Split(items, i);
    BytesJoin(items[..i] + [items[i]], items[i+1..]);
    BytesJoin(items[..i], [items[i]]);
    OneBytes(items[i]);
  }

  lemma Split<T>(s: seq<T>, i: nat)
    requires i < |s|
    ensures s == s[..i] + [s[i]] + s[i+1..]
  {
  }

  // ----- items -----

  lemma {:induction false} SpansCount(data: map<nat, nat>, fns: seq<Fn>, spans: seq<seq<Span>>, k: nat, q: nat)
    requires SpansFit(fns, spans) && k < |fns| && q <= |fns[k].code| && Lowerable(data, fns, k)
    ensures |ItemSpans(fns[k].code, spans[k], q)| == |CodeItems(data, fns, k, q)|
    decreases q
  {
    hide Lowering, Silent, SpansFit;
    if q > 0 {
      SpansCount(data, fns, spans, k, q - 1);
      SilentLowered(data, fns, k, q - 1);
    }
  }

  lemma SilentLowered(data: map<nat, nat>, fns: seq<Fn>, k: nat, q: nat)
    requires k < |fns| && q < |fns[k].code| && Lowerable(data, fns, k)
    ensures Silent(fns[k].code[q]) <==> !Lowering(data, fns, k, q).Emit?
  {
    hide LabelStart, FnOffset, DataOffset, NumberItem;
    assert !Lowering(data, fns, k, q).Unsupported?;
  }

  lemma {:induction false} CodeItemAt(data: map<nat, nat>, fns: seq<Fn>, spans: seq<seq<Span>>, k: nat, q: nat, n: nat)
    requires SpansFit(fns, spans) && k < |fns| && q < n <= |fns[k].code| && Lowerable(data, fns, k) &&
        !Silent(fns[k].code[q])
    ensures var i := |CodeItems(data, fns, k, q)|;
      && Lowering(data, fns, k, q).Emit? && i < |CodeItems(data, fns, k, n)| == |ItemSpans(fns[k].code, spans[k], n)|
      && CodeItems(data, fns, k, n)[i] == Lowering(data, fns, k, q).ti &&
          ItemSpans(fns[k].code, spans[k], n)[i] == spans[k][q]
    decreases n
  {
    hide Lowering, Silent, SpansFit, Lowerable;
    SpansCount(data, fns, spans, k, n);
    SpansCount(data, fns, spans, k, n - 1);
    SilentLowered(data, fns, k, n - 1);
    if q < n - 1 { CodeItemAt(data, fns, spans, k, q, n - 1); }
  }

  lemma {:induction false} ArgCount(data: map<nat, nat>, params: seq<nat>)
    ensures |ArgItems(data, params)| == |params|
  {
    if params != [] { ArgCount(data, params[..|params|-1]); }
  }

  /** An item that becomes an instruction has its entry: the offset is the one the first
      pass gave the item, and it comes from where the item comes from. */
  lemma ItemHasEntry(data: map<nat, nat>, fns: seq<Fn>, spans: seq<seq<Span>>, k: nat, q: nat)
    requires SpansFit(fns, spans) && AllLowerable(data, fns) && k < |fns| && q < |fns[k].code| &&
        !Silent(fns[k].code[q])
    ensures var i := |fns[k].params| + 1 + |CodeItems(data, fns, k, q)|;
      && i < |FnItems(data, fns, k)| && Lowering(data, fns, k, q).Emit? &&
          FnItems(data, fns, k)[i] == Lowering(data, fns, k, q).ti
      && FnEntries(data, fns, spans, k)[i] == Entry(ItemStart(fns, k, q), spans[k][q])
  {
    hide Lowering, Silent, ItemsBytes, CodeItems, ItemSpans, FnStart, Lowerable, CodeSize, FnEntries;
    var params, items := fns[k].params, FnItems(data, fns, k);
    var p, c := Preamble(data, params, fns[k].regs), CodeItems(data, fns, k, |fns[k].code|);
    var i := |CodeItems(data, fns, k, q)|;
    ArgCount(data, params);
    assert |p| == |params| + 1;
    CodeItemAt(data, fns, spans, k, q, |fns[k].code|);
    CodePrefixOf(data, fns, k, q);
    assert items[..|p| + i] == p + c[..i];
    BytesJoin(p, c[..i]);
    PreambleWhole(data, params, fns[k].regs);
    CodeBytes(data, fns, k, q);
    assert c[..i] == CodeItems(data, fns, k, q);
    FnEntryAt(data, fns, spans, k, |p| + i);
    FnEntrySpan(data, fns, spans, k, |p| + i);
    assert FnSpans(fns[k], spans[k])[|p|+i] == ItemSpans(fns[k].code, spans[k], |fns[k].code|)[i];
  }

  lemma CodePrefixOf(data: map<nat, nat>, fns: seq<Fn>, k: nat, q: nat)
    requires k < |fns| && q <= |fns[k].code|
    ensures CodeItems(data, fns, k, q) <= CodeItems(data, fns, k, |fns[k].code|)
  {
    hide CodeItems;
    CodePrefix(data, fns, k, q, |fns[k].code|);
  }
}
