/** Runs of two item lists that correspond item by item. */
module Correspond {
  import opened Ir

  function BranchTarget<N>(item: Item<N>): Option<nat> {
    match item
    case Br(l) => Some(l)
    case BrCond(_, l) => Some(l)
    case _ => None
  }

  function After<N>(rt: Runtime<N>, f: seq<Item<N>>, world: World, n: nat): State {
    Run(rt, f, n, Start(world))
  }

  /** `o` can be observed of some run of the items. */
  ghost predicate Shows<N>(rt: Runtime<N>, f: seq<Item<N>>, world: World, o: Observation) {
    exists n: nat :: Observe(After(rt, f, world, n)) == o
  }

  predicate Executes<N>(f: seq<Item<N>>, s: State) { s.status == Running && s.pc < |f| }

  /** The step from `s` reads `v`. */
  predicate Reads<N>(rt: Runtime<N>, f: seq<Item<N>>, s: State, v: nat) {
    Executes(f, s) && v in ReadsNow(rt, f[s.pc], s.temps)
  }

  /** The temporary the step from `s` writes. */
  function WritesAt<N>(f: seq<Item<N>>, s: State): Option<nat> {
    if Executes(f, s) then Writes(f[s.pc]) else None
  }

  lemma AfterStep<N>(rt: Runtime<N>, f: seq<Item<N>>, world: World, n: nat)
    ensures After(rt, f, world, n + 1) == Step(rt, f, After(rt, f, world, n))
  {
    RunStep(rt, f, n, Start(world));
  }

  lemma {:induction false} SameLabelPoints<N>(f: seq<Item<N>>, g: seq<Item<N>>)
    requires |f| == |g|
    requires forall p :: 0 <= p < |f| ==> (f[p].Label? <==> g[p].Label?)
    requires forall p :: 0 <= p < |f| && f[p].Label? ==> f[p] == g[p]
    ensures LabelPoints(f) == LabelPoints(g)
  {
    if f != [] { SameLabelPoints(f[..|f|-1], g[..|g|-1]); }
  }

  /** Everything the step reads is the same on both sides. */
  ghost predicate ReadsAgree<N>(rt: Runtime<N>, f: seq<Item<N>>, reg: nat -> nat, s: State, t: State) {
    forall v :: Reads(rt, f, s, v) ==> Get(rt, s.temps, v) == Get(rt, t.temps, reg(v))
  }

  /** What a writing step stores, and the world it leaves. */
  function Written<N>(rt: Runtime<N>, item: Item<N>, s: State): (Value, World)
    requires Writes(item).Some?
  {
    match item
    case Merge(_, _, _, _) => (Get(rt, s.temps, MergeSource(rt, item, s.temps)), s.world)
    case Do(op) => rt.exec(Shape(op), Fetch(rt, s.temps, Uses(op)), s.world)
  }

  function Relabel<N>(lab: nat -> nat, item: Item<N>): Item<N> {
    match item
    case Label(l) => Label(lab(l))
    case Br(l) => Br(lab(l))
    case BrCond(c, l) => BrCond(c, lab(l))
    case _ => item
  }

  /** At the point of `s`, `g` holds the item of `f` on other temporaries and
      other labels, and a branch there leads to the same point. */
  ghost predicate SameItem<N>(f: seq<Item<N>>, g: seq<Item<N>>, reg: nat -> nat, lab: nat -> nat, p: nat)
    requires p < |f| == |g|
  {
    && g[p] == Relabel(lab, MapItem(reg, f[p]))
    && (BranchTarget(f[p]).Some? ==>
         var l := BranchTarget(f[p]).value;
         && (l in LabelPoints(f) <==> lab(l) in LabelPoints(g))
         && (l in LabelPoints(f) ==> LabelPoints(f)[l] == LabelPoints(g)[lab(l)]))
  }

  /** The two states differ only in where their temporaries are and in the point
      they have reached. */
  predicate Beside(s: State, t: State) { s == t.(temps := s.temps, pc := s.pc) }

  lemma OpTogether<N>(rt: Runtime<N>, op: Op<N>, reg: nat -> nat, s: State, t: State)
    requires Beside(s, t)
    requires forall v :: v in Uses(op) ==> Get(rt, s.temps, v) == Get(rt, t.temps, reg(v))
    ensures rt.exec(Shape(MapOp(reg, op)), Fetch(rt, t.temps, Uses(MapOp(reg, op))), t.world)
      == rt.exec(Shape(op), Fetch(rt, s.temps, Uses(op)), s.world)
  {
    MapOpUses(reg, op);
    assert forall i :: 0 <= i < |Uses(op)| ==> Uses(op)[i] in Uses(op);
    assert Fetch(rt, t.temps, Uses(MapOp(reg, op))) == Fetch(rt, s.temps, Uses(op));
  }

  /** What a step writes, on both sides. */
  ghost predicate SameWrite(w: Option<nat>, value: Value, reg: nat -> nat, s: Temps, t: Temps, s': Temps, t': Temps) {
    if w.None? then s' == s && t' == t
    else s' == s[w.value := value] && t' == t[reg(w.value) := value]
  }

  /** A straight item and its image on other temporaries do the same, and the
      image writes the image of the temporary that the item writes. */
  lemma StraightTogether<N>(rt: Runtime<N>, item: Item<N>, reg: nat -> nat, lab: nat -> nat, s: State, t: State)
    requires !IsBranch(item) && s.status == Running
    requires Beside(s, t)
    requires forall v :: v in ReadsNow(rt, item, s.temps) ==> Get(rt, s.temps, v) == Get(rt, t.temps, reg(v))
    ensures var s', t' := Straight(rt, item, s), Straight(rt, Relabel(lab, MapItem(reg, item)), t);
      && Beside(s', t')
      && (if s'.status == Running then s'.pc == s.pc + 1 && t'.pc == t.pc + 1 else s'.pc == s.pc && t'.pc == t.pc)
      && SameWrite(Writes(item), if Writes(item).Some? then Written(rt, item, s).0
          else rt.undefined, reg, s.temps, t.temps, s'.temps, t'.temps)
  {
    match item
    case Inspect(v) => assert v in ReadsNow(rt, item, s.temps);
    case Ret(v) => assert v in ReadsNow(rt, item, s.temps);
    case Merge(test, _, _, _) =>
      assert test in ReadsNow(rt, item, s.temps);
      assert MergeSource(rt, item, s.temps) in ReadsNow(rt, item, s.temps);
    case Do(op) =>
      OpTogether(rt, op, reg, s, t);
      MapOpUses(reg, op);
    case _ =>
  }

  /** Two steps of one kind: the step of `g` does what the step of `f` does, and
      writes the image of the temporary that one writes. */
  lemma StepTogether<N>(rt: Runtime<N>, f: seq<Item<N>>, g: seq<Item<N>>, reg: nat -> nat, lab: nat -> nat, s: State,
      t: State)
    requires |f| == |g|
    requires s.pc < |f| ==> SameItem(f, g, reg, lab, s.pc)
    requires s == t.(temps := s.temps) && ReadsAgree(rt, f, reg, s, t)
    ensures var s', t' := Step(rt, f, s), Step(rt, g, t);
      && s' == t'.(temps := s'.temps)
      && SameWrite(WritesAt(f, s), if WritesAt(f, s).Some? then Written(rt, f[s.pc], s).0
          else rt.undefined, reg, s.temps, t.temps, s'.temps, t'.temps)
  {
    if Executes(f, s) {
      assert forall v :: v in ReadsNow(rt, f[s.pc], s.temps) ==> Reads(rt, f, s, v);
      if IsBranch(f[s.pc]) {
        if f[s.pc].BrCond? { assert Reads(rt, f, s, f[s.pc].cond); }
      } else {
        StraightTogether(rt, f[s.pc], reg, lab, s, t);
      }
    }
  }

  lemma ReadsMentioned<N>(rt: Runtime<N>, f: seq<Item<N>>, s: State)
    ensures forall v :: Reads(rt, f, s, v) ==> v in Mentions(f[s.pc])
    ensures WritesAt(f, s).Some? ==> WritesAt(f, s).value in Mentions(f[s.pc])
  {
    if Executes(f, s) && f[s.pc].Do? { UsesMentioned(f[s.pc].op); }
  }
}
