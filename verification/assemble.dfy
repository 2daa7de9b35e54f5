/** C4: the two-pass assembler.  The first pass measures, the second emits with the
    offsets of labels, functions and data filled in.
  */
module Assemble {
  import opened Ir
  import opened Correspond
  import opened Bytes
  import opened Inst
  import opened Lower

  /** A function whose temporaries are registers; its names, strings and parameters
      are data ids. */
  datatype Fn = Fn(params: seq<nat>, code: seq<Item<nat>>, regs: nat)

  // ----- what the first pass measures -----

  function SizeOf<N>(item: Item<N>): nat { if ItemSize(item).Some? then ItemSize(item).value else 0 }

  function CodeSize<N>(f: seq<Item<N>>): nat {
    if f == [] then 0 else CodeSize(f[..|f|-1]) + SizeOf(f[|f|-1])
  }

  /** The instructions in front of the items. */
  function PreambleSize(params: seq<nat>): nat { 6 * |params| + 2 }

  function FnSize(fn: Fn): nat { PreambleSize(fn.params) + CodeSize(fn.code) }

  function FnStart(fns: seq<Fn>, k: nat): nat
    requires k <= |fns|
  {
    if k == 0 then 0 else FnStart(fns, k - 1) + FnSize(fns[k-1])
  }

  function ItemStart(fns: seq<Fn>, k: nat, i: nat): nat
    requires k < |fns| && i <= |fns[k].code|
  {
    FnStart(fns, k) + PreambleSize(fns[k].params) + CodeSize(fns[k].code[..i])
  }

  function LabelStart(fns: seq<Fn>, k: nat, l: nat): nat
    requires k < |fns|
  {
    LabelPointsSound(fns[k].code, l);
    if l in LabelPoints(fns[k].code) then ItemStart(fns, k, LabelPoints(fns[k].code)[l]) else 0
  }

  // ----- what the second pass fills in -----

  function DataOffset(data: map<nat, nat>, id: nat): nat { if id in data then data[id] else 0 }

  function DataOffsets(data: map<nat, nat>): nat -> nat { (id: nat) => DataOffset(data, id) }

  function FnOffset(fns: seq<Fn>, func: nat): nat { if func < |fns| then FnStart(fns, func) else 0 }

  function LinkOp(data: map<nat, nat>, fns: seq<Fn>, op: Op<nat>): Op<nat> {
    match op
    case MakeFunction(v, func) => MakeFunction(v, FnOffset(fns, func))
    case _ => MapText(DataOffsets(data), DataOffsets(data), op)
  }

  function LinkItem(data: map<nat, nat>, fns: seq<Fn>, k: nat, item: Item<nat>): Item<nat>
    requires k < |fns|
  {
    match item
    case Br(l) => Br(LabelStart(fns, k, l))
    case BrCond(c, l) => BrCond(c, LabelStart(fns, k, l))
    case Do(op) => Do(LinkOp(data, fns, op))
    case _ => item
  }

  /** An item as an instruction, if it becomes one. */
  function Lowering(data: map<nat, nat>, fns: seq<Fn>, k: nat, i: nat): Lowered
    requires k < |fns| && i < |fns[k].code|
  {
    LowerItem(LinkItem(data, fns, k, fns[k].code[i]))
  }

  function Preamble(data: map<nat, nat>, params: seq<nat>, regs: nat): seq<TextItem> {
    ArgItems(data, params) + [TextItem(0x18, [Reg(regs)])]
  }

  function ArgItems(data: map<nat, nat>, params: seq<nat>): seq<TextItem> {
    if params == [] then []
    else
      var last := |params| - 1;
      ArgItems(data, params[..last]) + [TextItem(0x19, [Addr(DataOffset(data, params[last])), Reg(last % TWO_8)])]
  }

  function CodeItems(data: map<nat, nat>, fns: seq<Fn>, k: nat, i: nat): seq<TextItem>
    requires k < |fns| && i <= |fns[k].code|
  {
    if i == 0 then []
    else
      CodeItems(data, fns, k, i - 1) + (if Lowering(data, fns, k, i - 1).Emit? then [Lowering(data, fns, k, i - 1).ti]
          else [])
  }

  /** The annotated instructions of a function. */
  function FnItems(data: map<nat, nat>, fns: seq<Fn>, k: nat): seq<TextItem>
    requires k < |fns|
  {
    Preamble(data, fns[k].params, fns[k].regs) + CodeItems(data, fns, k, |fns[k].code|)
  }

  function ItemsBytes(items: seq<TextItem>): seq<Byte> {
    if items == [] then [] else ItemsBytes(items[..|items|-1]) + InstBytes(items[|items|-1])
  }

  /** The instructions of the first `k` functions. */
  function TextBytes(data: map<nat, nat>, fns: seq<Fn>, k: nat): seq<Byte>
    requires k <= |fns|
  {
    if k == 0 then [] else TextBytes(data, fns, k - 1) + ItemsBytes(FnItems(data, fns, k - 1))
  }

  // ----- the passes agree -----

  /** What the assembler can take: no scopes, no arrow functions, no long argument
      lists, literals of eight bytes. */
  ghost predicate Lowerable(data: map<nat, nat>, fns: seq<Fn>, k: nat)
    requires k < |fns|
  {
    forall i :: 0 <= i < |fns[k].code| ==> !Lowering(data, fns, k, i).Unsupported? && EightBytes(fns[k].code[i])
  }

  lemma {:induction false} BytesJoin(a: seq<TextItem>, b: seq<TextItem>)
    ensures ItemsBytes(a + b) == ItemsBytes(a) + ItemsBytes(b)
    decreases |b|
  {
    if b == [] {
      assert a + b == a;
    } else {
      var init := b[..|b|-1];
      BytesJoin(a, init);
      assert (a + b)[..|a+b|-1] == a + init;
      assert ItemsBytes(a) + (ItemsBytes(init) + InstBytes(b[|b|-1])) == ItemsBytes(a) + ItemsBytes(init) +
          InstBytes(b[|b|-1]);
    }
  }

  lemma OneBytes(ti: TextItem)
    ensures ItemsBytes([ti]) == InstBytes(ti)
  {
    assert [ti][..0] == [];
  }

  lemma LinkSize(data: map<nat, nat>, fns: seq<Fn>, k: nat, item: Item<nat>)
    requires k < |fns|
    ensures ItemSize(LinkItem(data, fns, k, item)) == ItemSize(item)
    ensures EightBytes(LinkItem(data, fns, k, item)) == EightBytes(item)
  {
    hide NumberSize, LabelStart, FnOffset;
  }

  lemma ArgBytes(name: nat, idx: nat)
    ensures |InstBytes(TextItem(0x19, [Addr(name), Reg(idx)]))| == 6
    ensures |InstBytes(TextItem(0x18, [Reg(idx)]))| == 2
  {
    OperandsBytes(Addr(name), Reg(idx), Reg(idx), Reg(idx));
    OperandsBytes(Reg(idx), Reg(idx), Reg(idx), Reg(idx));
  }

  lemma NoItems()
    ensures ItemsBytes([]) == []
  {
  }

  lemma {:induction false} PreambleBytes(data: map<nat, nat>, params: seq<nat>)
    ensures |ItemsBytes(ArgItems(data, params))| == 6 * |params|
  {
    hide InstBytes, ItemsBytes;
    NoItems();
    if params != [] {
      var last := |params| - 1;
      var ti := TextItem(0x19, [Addr(DataOffset(data, params[last])), Reg(last % TWO_8)]);
      PreambleBytes(data, params[..last]);
      BytesJoin(ArgItems(data, params[..last]), [ti]);
      OneBytes(ti);
      ArgBytes(DataOffset(data, params[last]), last % TWO_8);
    }
  }

  lemma PreambleWhole(data: map<nat, nat>, params: seq<nat>, regs: nat)
    ensures |ItemsBytes(Preamble(data, params, regs))| == PreambleSize(params)
  {
    var ti := TextItem(0x18, [Reg(regs)]);
    PreambleBytes(data, params);
    BytesJoin(ArgItems(data, params), [ti]);
    OneBytes(ti);
    ArgBytes(0, regs);
  }

  lemma CodeSizeStep(f: seq<Item<nat>>, i: nat)
    requires i < |f|
    ensures CodeSize(f[..i+1]) == CodeSize(f[..i]) + SizeOf(f[i])
  {
    hide SizeOf;
    assert f[..i+1][..i] == f[..i];
  }

  /** The item is measured as it is written. */
  lemma ItemMeasured(data: map<nat, nat>, fns: seq<Fn>, k: nat, i: nat)
    requires k < |fns| && i < |fns[k].code| && Lowerable(data, fns, k)
    ensures Lowering(data, fns, k, i).Emit? ==> SizeOf(fns[k].code[i]) == |InstBytes(Lowering(data, fns, k, i).ti)|
    ensures Lowering(data, fns, k, i).Nothing? ==> SizeOf(fns[k].code[i]) == 0
    ensures !Lowering(data, fns, k, i).Unsupported?
  {
    hide LowerItem, InstBytes, ItemSize, LinkItem, EightBytes;
    LinkSize(data, fns, k, fns[k].code[i]);
    SizeIsWritten(LinkItem(data, fns, k, fns[k].code[i]));
  }

  /** What has been written before item `i` is as long as was measured. */
  lemma {:induction false} CodeBytes(data: map<nat, nat>, fns: seq<Fn>, k: nat, i: nat)
    requires k < |fns| && i <= |fns[k].code| && Lowerable(data, fns, k)
    ensures |ItemsBytes(CodeItems(data, fns, k, i))| == CodeSize(fns[k].code[..i])
    decreases i
  {
    hide Lowering, InstBytes, SizeOf, Lowerable, CodeSize;
    if i == 0 {
      EmptyCode(fns[k].code);
    } else {
      CodeBytes(data, fns, k, i - 1);
      CodeSizeStep(fns[k].code, i - 1);
      ItemMeasured(data, fns, k, i - 1);
      if Lowering(data, fns, k, i - 1).Emit? {
        var ti := Lowering(data, fns, k, i - 1).ti;
        BytesJoin(CodeItems(data, fns, k, i - 1), [ti]);
        OneBytes(ti);
      } else {
        assert CodeItems(data, fns, k, i - 1) + [] == CodeItems(data, fns, k, i - 1);
      }
    }
  }

  lemma EmptyCode(f: seq<Item<nat>>)
    ensures CodeSize(f[..0]) == 0
  {
  }

  lemma FnBytes(data: map<nat, nat>, fns: seq<Fn>, k: nat)
    requires k < |fns| && Lowerable(data, fns, k)
    ensures |ItemsBytes(FnItems(data, fns, k))| == FnSize(fns[k])
  {
    hide Lowerable, CodeItems, Preamble, ItemsBytes;
    PreambleWhole(data, fns[k].params, fns[k].regs);
    CodeBytes(data, fns, k, |fns[k].code|);
    assert fns[k].code[..|fns[k].code|] == fns[k].code;
    BytesJoin(Preamble(data, fns[k].params, fns[k].regs), CodeItems(data, fns, k, |fns[k].code|));
  }

  ghost predicate AllLowerable(data: map<nat, nat>, fns: seq<Fn>) {
    forall k :: 0 <= k < |fns| ==> Lowerable(data, fns, k)
  }

  lemma TextStep(data: map<nat, nat>, fns: seq<Fn>, k: nat)
    requires k < |fns|
    ensures TextBytes(data, fns, k + 1) == TextBytes(data, fns, k) + ItemsBytes(FnItems(data, fns, k))
    ensures FnStart(fns, k + 1) == FnStart(fns, k) + FnSize(fns[k])
  {
  }

  lemma AtBeginning(data: map<nat, nat>, fns: seq<Fn>)
    ensures TextBytes(data, fns, 0) == [] && FnStart(fns, 0) == 0
  {
  }

  /** Every function begins where the first pass says. */
  lemma {:induction false} TextSize(data: map<nat, nat>, fns: seq<Fn>, k: nat)
    requires k <= |fns| && AllLowerable(data, fns)
    ensures |TextBytes(data, fns, k)| == FnStart(fns, k)
    decreases k
  {
    hide Lowerable, TextBytes, FnStart, FnItems, ItemsBytes, FnSize;
    AtBeginning(data, fns);
    if k > 0 {
      TextSize(data, fns, k - 1);
      FnBytes(data, fns, k - 1);
      TextStep(data, fns, k - 1);
    }
  }

  // ----- where things stand in the text -----

  lemma {:induction false} TextPrefix(data: map<nat, nat>, fns: seq<Fn>, k: nat, n: nat)
    requires k <= n <= |fns|
    ensures exists rest :: TextBytes(data, fns, n) == TextBytes(data, fns, k) + rest
    decreases n
  {
    hide TextBytes, FnStart, FnItems, ItemsBytes, FnSize;
    if k == n {
      assert TextBytes(data, fns, n) == TextBytes(data, fns, k) + [];
    } else {
      TextPrefix(data, fns, k, n - 1);
      TextStep(data, fns, n - 1);
      var rest :| TextBytes(data, fns, n - 1) == TextBytes(data, fns, k) + rest;
      var last := ItemsBytes(FnItems(data, fns, n - 1));
      assert TextBytes(data, fns, k) + rest + last == TextBytes(data, fns, k) + (rest + last);
    }
  }

  /** The instructions of a function stand where the function begins. */
  lemma FnStands(data: map<nat, nat>, fns: seq<Fn>, k: nat, mem: seq<Byte>, base: nat)
    requires k < |fns| && AllLowerable(data, fns) && StandsAt(mem, base, TextBytes(data, fns, |fns|))
    ensures StandsAt(mem, base + FnStart(fns, k), ItemsBytes(FnItems(data, fns, k)))
  {
    hide StandsAt, AllLowerable, FnItems, ItemsBytes;
    TextSize(data, fns, k);
    TextPrefix(data, fns, k + 1, |fns|);
    var rest :| TextBytes(data, fns, |fns|) == TextBytes(data, fns, k + 1) + rest;
    StandsSplit(mem, base, TextBytes(data, fns, k + 1), rest);
    StandsSplit(mem, base, TextBytes(data, fns, k), ItemsBytes(FnItems(data, fns, k)));
  }

  lemma {:induction false} CodePrefix(data: map<nat, nat>, fns: seq<Fn>, k: nat, i: nat, n: nat)
    requires k < |fns| && i <= n <= |fns[k].code|
    ensures exists rest :: CodeItems(data, fns, k, n) == CodeItems(data, fns, k, i) + rest
    decreases n
  {
    if i == n {
      assert CodeItems(data, fns, k, n) == CodeItems(data, fns, k, i) + [];
    } else {
      hide Lowering;
      CodePrefix(data, fns, k, i, n - 1);
      var rest :| CodeItems(data, fns, k, n - 1) == CodeItems(data, fns, k, i) + rest;
      var last := if Lowering(data, fns, k, n - 1).Emit? then [Lowering(data, fns, k, n - 1).ti] else [];
      assert CodeItems(data, fns, k, i) + rest + last == CodeItems(data, fns, k, i) + (rest + last);
    }
  }

  lemma PreambleStands(data: map<nat, nat>, fns: seq<Fn>, k: nat, mem: seq<Byte>, base: nat)
    requires k < |fns| && AllLowerable(data, fns) && StandsAt(mem, base, TextBytes(data, fns, |fns|))
    ensures StandsAt(mem, base + FnStart(fns, k), ItemsBytes(Preamble(data, fns[k].params, fns[k].regs)))
    ensures StandsAt(mem, base + FnStart(fns, k) + PreambleSize(fns[k].params),
        ItemsBytes(CodeItems(data, fns, k, |fns[k].code|)))
  {
    hide StandsAt, AllLowerable, ItemsBytes, CodeItems, Preamble;
    FnStands(data, fns, k, mem, base);
    var p, c := Preamble(data, fns[k].params, fns[k].regs), CodeItems(data, fns, k, |fns[k].code|);
    BytesJoin(p, c);
    PreambleWhole(data, fns[k].params, fns[k].regs);
    StandsSplit(mem, base + FnStart(fns, k), ItemsBytes(p), ItemsBytes(c));
  }

  /** An instruction stands where the first pass put its item. */
  lemma ItemStands(data: map<nat, nat>, fns: seq<Fn>, k: nat, i: nat, mem: seq<Byte>, base: nat)
    requires k < |fns| && i < |fns[k].code| && AllLowerable(data, fns) &&
        StandsAt(mem, base, TextBytes(data, fns, |fns|))
    requires Lowering(data, fns, k, i).Emit?
    ensures StandsAt(mem, base + ItemStart(fns, k, i), InstBytes(Lowering(data, fns, k, i).ti))
  {
    hide StandsAt, Lowerable, ItemsBytes, Preamble, Lowering, InstBytes;
    PreambleStands(data, fns, k, mem, base);
    var at := base + FnStart(fns, k) + PreambleSize(fns[k].params);
    var ti := Lowering(data, fns, k, i).ti;
    CodePrefix(data, fns, k, i + 1, |fns[k].code|);
    var rest :| CodeItems(data, fns, k, |fns[k].code|) == CodeItems(data, fns, k, i + 1) + rest;
    BytesJoin(CodeItems(data, fns, k, i + 1), rest);
    StandsSplit(mem, at, ItemsBytes(CodeItems(data, fns, k, i + 1)), ItemsBytes(rest));
    BytesJoin(CodeItems(data, fns, k, i), [ti]);
    OneBytes(ti);
    CodeBytes(data, fns, k, i);
    StandsSplit(mem, at, ItemsBytes(CodeItems(data, fns, k, i)), InstBytes(ti));
  }

  /** The next item begins where this one ends. */
  lemma NextStart(fns: seq<Fn>, k: nat, i: nat)
    requires k < |fns| && i < |fns[k].code|
    ensures ItemStart(fns, k, i + 1) == ItemStart(fns, k, i) + SizeOf(fns[k].code[i])
  {
    hide SizeOf;
    CodeSizeStep(fns[k].code, i);
  }

  lemma {:induction false} StartsInOrder(fns: seq<Fn>, k: nat, n: nat)
    requires k < n <= |fns|
    ensures FnStart(fns, k) + FnSize(fns[k]) <= FnStart(fns, n)
    decreases n
  {
    if k < n - 1 { StartsInOrder(fns, k, n - 1); }
  }

  lemma {:induction false} CodeSizeGrows(f: seq<Item<nat>>, i: nat)
    requires i <= |f|
    ensures CodeSize(f[..i]) <= CodeSize(f)
    decreases |f|
  {
    if i < |f| {
      CodeSizeGrows(f[..|f|-1], i);
      assert f[..|f|-1][..i] == f[..i];
    } else {
      assert f[..i] == f;
    }
  }

  /** All offsets are within the text. */
  lemma StartsWithin(fns: seq<Fn>, k: nat, i: nat)
    requires k < |fns| && i <= |fns[k].code|
    ensures FnStart(fns, k) < ItemStart(fns, k, i) <= FnStart(fns, |fns|)
  {
    CodeSizeGrows(fns[k].code, i);
    StartsInOrder(fns, k, |fns|);
  }

  /** Different functions begin at different offsets. */
  lemma StartsDiffer(fns: seq<Fn>, k: nat, n: nat)
    requires k < |fns| && n < |fns| && FnStart(fns, k) == FnStart(fns, n)
    ensures k == n
  {
    if k < n { StartsInOrder(fns, k, n); } else if n < k { StartsInOrder(fns, n, k); }
  }
}
