/** The data section: names and strings, each with its kind and its length. */
module DataSection {
  import opened Ir
  import opened Cfg
  import opened Texts
  import opened Bytes

  const DATA_SIGNATURE: seq<Byte> := [0x64, 0x61, 0x74, 0x61]
  const UTF8_STRING := 1
  const UTF8_SYMBOL := 2

  function Tag(kind: Kind): nat { if kind.StringKind? then UTF8_STRING else UTF8_SYMBOL }

  function ItemBytes(item: DataItem): seq<Byte> {
    U16(Tag(item.kind)) + U32(|item.text|) + item.text + U8(0)
  }

  /** A string begins with 1 and a name with 2, in two bytes; the length follows, the text,
      and a zero byte. */
  lemma ItemLooks(item: DataItem)
    ensures ItemBytes(item) ==
      (if item.kind.StringKind? then [1, 0] else [2, 0]) + U32(|item.text|) + item.text + [0]
  {
    hide U32;
    assert U16(1) == [1, 0] && U16(2) == [2, 0] && U8(0) == [0];
  }

  /** The bytes before item `n`, counted from the end of the signature. */
  function DataStart(items: seq<DataItem>, n: nat): nat
    requires n <= |items|
  {
    if n == 0 then 0 else DataStart(items, n - 1) + 2 + 4 + |items[n-1].text| + 1
  }

  function DataBytes(items: seq<DataItem>, n: nat): seq<Byte>
    requires n <= |items|
  {
    if n == 0 then [] else DataBytes(items, n - 1) + ItemBytes(items[n-1])
  }

  lemma {:induction false} DataSize(items: seq<DataItem>, n: nat)
    requires n <= |items|
    ensures |DataBytes(items, n)| == DataStart(items, n)
  {
    if n > 0 { DataSize(items, n - 1); }
  }

  /** The offset of every item, by its id. */
  ghost predicate OffsetsOf(items: seq<DataItem>, n: nat, data: map<nat, nat>)
    requires n <= |items|
  {
    && (forall i :: 0 <= i < n ==> items[i].id in data && data[items[i].id] == DataStart(items, i))
    && (forall id :: id in data ==> exists i :: 0 <= i < n && items[i].id == id)
  }

  ghost predicate DistinctIds(items: seq<DataItem>) {
    forall i, j :: 0 <= i < j < |items| ==> items[i].id != items[j].id
  }

  lemma DataStep(items: seq<DataItem>, i: nat)
    requires i < |items|
    ensures DataStart(items, i + 1) == DataStart(items, i) + 2 + 4 + |items[i].text| + 1
    ensures DataBytes(items, i + 1) == DataBytes(items, i) + ItemBytes(items[i])
  {
  }

  lemma NoData(items: seq<DataItem>)
    ensures DataStart(items, 0) == 0 && DataBytes(items, 0) == [] && OffsetsOf(items, 0, map[])
  {
  }

  lemma OffsetsMore(items: seq<DataItem>, i: nat, data: map<nat, nat>)
    requires i < |items| && OffsetsOf(items, i, data) && DistinctIds(items)
    ensures OffsetsOf(items, i + 1, data[items[i].id := DataStart(items, i)])
  {
    hide DataStart;
    var more := data[items[i].id := DataStart(items, i)];
    forall j | 0 <= j <= i ensures items[j].id in more && more[items[j].id] == DataStart(items, j) {
      if j < i { assert items[j].id != items[i].id; }
    }
    forall id | id in more ensures exists j :: 0 <= j < i + 1 && items[j].id == id {
      if id != items[i].id { var j :| 0 <= j < i && items[j].id == id; }
    }
  }

  /** `xjs_c4_data_section_annotate` */
  method AnnotateData(items: seq<DataItem>) returns (data: map<nat, nat>)
    requires DistinctIds(items)
    ensures OffsetsOf(items, |items|, data)
  {
    hide DataStart, OffsetsOf, DistinctIds;
    data := map[];
    var offset, i := 0, 0;
    NoData(items);
    while i < |items|
      invariant 0 <= i <= |items| && offset == DataStart(items, i) && OffsetsOf(items, i, data)
    {
      OffsetsMore(items, i, data);
      DataStep(items, i);
      data := data[items[i].id := offset];
      offset := offset + 2 + 4 + |items[i].text| + 1;
      i := i + 1;
    }
  }

  method WriteItem(bw: BitWriter, item: DataItem)
    requires bw.Valid()
    modifies bw, bw.body
    ensures bw.Valid() && bw.Contents() == old(bw.Contents()) + ItemBytes(item)
    ensures bw.body == old(bw.body) || fresh(bw.body)
  {
    hide U16, U32, U8;
    bw.WriteU16(Tag(item.kind));
    bw.WriteU32(|item.text|);
    bw.Append(item.text);
    bw.WriteU8(0);
  }

  /** `xjs_c4_write_data` */
  method WriteData(bw: BitWriter, items: seq<DataItem>) returns (data: map<nat, nat>)
    requires bw.Valid() && bw.Contents() == [] && DistinctIds(items)
    modifies bw, bw.body
    ensures bw.Valid() && bw.Contents() == DATA_SIGNATURE + DataBytes(items, |items|)
    ensures bw.body == old(bw.body) || fresh(bw.body)
    ensures OffsetsOf(items, |items|, data)
  {
    hide DataBytes, OffsetsOf, DistinctIds, ItemBytes;
    data := AnnotateData(items);
    NoData(items);
    bw.Append(DATA_SIGNATURE);
    var i := 0;
    while i < |items|
      invariant 0 <= i <= |items| && bw.Valid()
      invariant bw.Contents() == DATA_SIGNATURE + DataBytes(items, i)
      invariant bw.body == old(bw.body) || fresh(bw.body)
    {
      WriteItem(bw, items[i]);
      DataStep(items, i);
      i := i + 1;
    }
  }

  // ----- reading -----

  /** `xjdb_xfile_read_datasec_item`: the item at `offset`, when it is of kind `tag`. */
  function ReadItem(mem: seq<Byte>, section: nat, offset: nat, tag: nat): Option<Text> {
    var at := section + 4 + offset;
    var found := ReadU16(mem, at);
    if found != Some(tag) then None
    else
      var len := ReadU32(mem, at + 2);
      if len.None? || at + 6 + len.value > |mem| then None else Some(mem[at+6..at+6+len.value])
  }

  lemma {:induction false} ItemStandsIn(items: seq<DataItem>, n: nat, i: nat, mem: seq<Byte>, at: nat)
    requires i < n <= |items| && StandsAt(mem, at, DataBytes(items, n))
    ensures StandsAt(mem, at + DataStart(items, i), ItemBytes(items[i]))
    decreases n
  {
    hide StandsAt, ItemBytes;
    StandsSplit(mem, at, DataBytes(items, n - 1), ItemBytes(items[n-1]));
    DataSize(items, n - 1);
    if i < n - 1 { ItemStandsIn(items, n - 1, i, mem, at); }
  }

  /** Every text is read back from its offset, under its own kind and no other. */
  lemma DataReadsBack(items: seq<DataItem>, i: nat, mem: seq<Byte>, section: nat)
    requires i < |items| && StandsAt(mem, section, DATA_SIGNATURE + DataBytes(items, |items|))
    requires |items[i].text| < TWO_32
    ensures ReadItem(mem, section, DataStart(items, i), Tag(items[i].kind)) == Some(items[i].text)
    ensures forall tag: nat :: tag != Tag(items[i].kind) ==> ReadItem(mem, section, DataStart(items, i), tag) == None
  {
    hide StandsAt, ReadU16, ReadU32, U16, U32, U8;
    var item, at := items[i], section + 4 + DataStart(items, i);
    StandsSplit(mem, section, DATA_SIGNATURE, DataBytes(items, |items|));
    ItemStandsIn(items, |items|, i, mem, section + 4);
    var head := U16(Tag(item.kind)) + U32(|item.text|);
    StandsSplit(mem, at, head + item.text, U8(0));
    StandsSplit(mem, at, head, item.text);
    StandsSplit(mem, at, U16(Tag(item.kind)), U32(|item.text|));
    Widths(Tag(item.kind), |item.text|);
    ReadsU16(mem, at, Tag(item.kind));
    ReadsU32(mem, at + 2, |item.text|);
    TextThere(mem, at + 6, item.text);
  }

  lemma Widths(a: int, b: int)
    ensures |U16(a)| == 2 && |U32(b)| == 4
  {
  }

  lemma TextThere(mem: seq<Byte>, at: nat, text: Text)
    requires StandsAt(mem, at, text)
    ensures at + |text| <= |mem| && mem[at..at+|text|] == text
  {
  }
}
