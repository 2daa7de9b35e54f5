/** Instructions that refer to text in another way: the runtime that resolves the
    references does the same.
  */
module Recode {
  import opened Ir
  import opened Correspond

  function Recoded<N, M>(sym: N -> M, str: N -> M, f: seq<Item<N>>): (r: seq<Item<M>>)
    ensures |r| == |f|
    ensures forall p :: 0 <= p < |f| ==> r[p] == MapTextItem(sym, str, f[p])
  {
    seq(|f|, p requires 0 <= p < |f| => MapTextItem(sym, str, f[p]))
  }

  /** A runtime that resolves a reference to text before it executes. */
  function Resolving<N, M(!new)>(read: M -> N, rt: Runtime<N>): Runtime<M> {
    Runtime(rt.undefined,
      (op: Op<M>, args: seq<Value>, world: World) => rt.exec(MapText(read, read, op), args, world),
      rt.truthy)
  }

  /** Reading finds again what the op refers to. */
  ghost predicate OpReadsBack<N, M>(sym: N -> M, str: N -> M, read: M -> N, op: Op<N>) {
    && (NameOf(op).Some? ==> read(sym(NameOf(op).value)) == NameOf(op).value)
    && (StringOf(op).Some? ==> read(str(StringOf(op).value)) == StringOf(op).value)
  }

  ghost predicate ReadsBack<N, M>(sym: N -> M, str: N -> M, read: M -> N, f: seq<Item<N>>) {
    forall p :: 0 <= p < |f| && f[p].Do? ==> OpReadsBack(sym, str, read, f[p].op)
  }

  lemma RecodedOp<N, M(!new)>(sym: N -> M, str: N -> M, read: M -> N, op: Op<N>)
    requires OpReadsBack(sym, str, read, op)
    ensures MapText(read, read, Shape(MapText(sym, str, op))) == Shape(op)
    ensures Uses(MapText(sym, str, op)) == Uses(op) && Def(MapText(sym, str, op)) == Def(op)
  {
  }

  lemma {:induction false} RecodedLabelPoints<N, M(!new)>(sym: N -> M, str: N -> M, f: seq<Item<N>>)
    ensures LabelPoints(Recoded(sym, str, f)) == LabelPoints(f)
  {
    if f != [] {
      RecodedLabelPoints(sym, str, f[..|f|-1]);
      assert Recoded(sym, str, f)[..|f|-1] == Recoded(sym, str, f[..|f|-1]);
    }
  }

  lemma RecodedStraight<N, M(!new)>(sym: N -> M, str: N -> M, read: M -> N, rt: Runtime<N>, item: Item<N>, s: State)
    requires !IsBranch(item) && (item.Do? ==> OpReadsBack(sym, str, read, item.op))
    ensures !IsBranch(MapTextItem(sym, str, item))
    ensures Straight(Resolving(read, rt), MapTextItem(sym, str, item), s) == Straight(rt, item, s)
  {
    var rt' := Resolving(read, rt);
    match item
    case Do(op) =>
      RecodedOp(sym, str, read, op);
      assert Fetch(rt', s.temps, Uses(op)) == Fetch(rt, s.temps, Uses(op));
    case _ =>
  }

  lemma RecodedStep<N, M(!new)>(sym: N -> M, str: N -> M, read: M -> N, rt: Runtime<N>, f: seq<Item<N>>, s: State)
    requires ReadsBack(sym, str, read, f)
    ensures Step(Resolving(read, rt), Recoded(sym, str, f), s) == Step(rt, f, s)
  {
    RecodedLabelPoints(sym, str, f);
    if Executes(f, s) && !IsBranch(f[s.pc]) {
      RecodedStraight(sym, str, read, rt, f[s.pc], s);
    }
  }

  /** Referring to text in another way changes nothing, step by step. */
  lemma {:induction false} RecodingPreservesMeaning<N, M(!new)>(sym: N -> M, str: N -> M, read: M -> N, rt: Runtime<N>,
                                                              f: seq<Item<N>>, world: World, n: nat)
    requires ReadsBack(sym, str, read, f)
    ensures After(Resolving(read, rt), Recoded(sym, str, f), world, n) == After(rt, f, world, n)
  {
    if n > 0 {
      RecodingPreservesMeaning(sym, str, read, rt, f, world, n - 1);
      RecodedStep(sym, str, read, rt, f, After(rt, f, world, n - 1));
      AfterStep(rt, f, world, n - 1);
      AfterStep(Resolving(read, rt), Recoded(sym, str, f), world, n - 1);
    }
  }
}
