/** The renaming pass at the end of C2: temporaries and labels are renumbered
    densely, in the order in which the items name them.
  */
module Rename {
  import opened Ir
  import opened Correspond
  import opened LifeInterval
  import opened RegAlloc

  /** The temporaries an item hands to the renumbering, in its order.  The bound
      `this` of a call is not among them. */
  function Renumbered<N>(item: Item<N>): seq<nat> {
    match item
    case Do(Call(dst, callee, args, _)) => [dst, callee] + args
    case Do(ObjectGet(dst, obj, member)) => [dst, obj, member]
    case Do(Binary(_, dst, lhs, rhs)) => [lhs, rhs, dst]
    case Do(Unary(_, dst, src)) => [src, dst]
    case _ => Mentions(item)
  }

  function RelabelledLabels<N>(item: Item<N>): seq<nat> {
    match item
    case Label(l) => [l]
    case Br(l) => [l]
    case BrCond(_, l) => [l]
    case _ => []
  }

  /** Number `v` unless it has a number. */
  function Number(m: map<nat, nat>, v: nat): map<nat, nat> {
    if v in m then m else m[v := |m|]
  }

  function NumberAll(m: map<nat, nat>, vs: seq<nat>): map<nat, nat>
    decreases |vs|
  {
    if vs == [] then m else NumberAll(Number(m, vs[0]), vs[1..])
  }

  function VarNumbers<N>(f: seq<Item<N>>): map<nat, nat> {
    if f == [] then map[] else NumberAll(VarNumbers(f[..|f|-1]), Renumbered(f[|f|-1]))
  }

  function LabelNumbers<N>(f: seq<Item<N>>): map<nat, nat> {
    if f == [] then map[] else NumberAll(LabelNumbers(f[..|f|-1]), RelabelledLabels(f[|f|-1]))
  }

  function Look(m: map<nat, nat>, v: nat): nat { if v in m then m[v] else 0 }

  function RenameItem<N>(vars: map<nat, nat>, labels: map<nat, nat>, item: Item<N>): Item<N> {
    Relabel((l: nat) => Look(labels, l), MapItem((v: nat) => Look(vars, v), item))
  }

  function Renamed<N>(f: seq<Item<N>>): (g: seq<Item<N>>)
    ensures |g| == |f|
    ensures forall p :: 0 <= p < |f| ==> g[p] == RenameItem(VarNumbers(f), LabelNumbers(f), f[p])
  {
    seq(|f|, p requires 0 <= p < |f| => RenameItem(VarNumbers(f), LabelNumbers(f), f[p]))
  }

  // ----- the numbering is a bijection onto 0 .. n-1 -----

  ghost predicate Numbering(m: map<nat, nat>) {
    && (forall v :: v in m ==> m[v] < |m|)
    && (forall v, w :: v in m && w in m && v != w ==> m[v] != m[w])
  }

  lemma NumberOne(m: map<nat, nat>, v: nat)
    requires Numbering(m)
    ensures Numbering(Number(m, v))
  {
  }

  lemma {:induction false} NumberAllNumbers(m: map<nat, nat>, vs: seq<nat>)
    requires Numbering(m)
    ensures Numbering(NumberAll(m, vs))
    ensures forall v :: v in NumberAll(m, vs) <==> v in m || v in vs
    ensures forall v :: v in m ==> NumberAll(m, vs)[v] == m[v]
    decreases |vs|
  {
    hide Numbering;
    if vs != [] {
      NumberOne(m, vs[0]);
      NumberAllNumbers(Number(m, vs[0]), vs[1..]);
      assert vs == [vs[0]] + vs[1..];
    }
  }

  /** Every temporary renumbered by some item, and no other, has a number. */
  lemma {:induction false} VarNumbersBijective<N>(f: seq<Item<N>>)
    ensures Numbering(VarNumbers(f))
    ensures forall v :: v in VarNumbers(f) <==> exists p :: 0 <= p < |f| && v in Renumbered(f[p])
  {
    if f != [] {
      var g := f[..|f|-1];
      VarNumbersBijective(g);
      NumberAllNumbers(VarNumbers(g), Renumbered(f[|f|-1]));
      forall v
        ensures v in VarNumbers(f) <==> exists p :: 0 <= p < |f| && v in Renumbered(f[p])
      {
        if v in VarNumbers(g) {
          var p :| 0 <= p < |g| && v in Renumbered(g[p]);
          assert v in Renumbered(f[p]);
        }
        if p :| 0 <= p < |f| && v in Renumbered(f[p]) && p < |f| - 1 {
          assert v in Renumbered(g[p]);
        }
      }
    }
  }

  lemma {:induction false} LabelNumbersBijective<N>(f: seq<Item<N>>)
    ensures Numbering(LabelNumbers(f))
    ensures forall p, l :: 0 <= p < |f| && l in RelabelledLabels(f[p]) ==> l in LabelNumbers(f)
  {
    if f != [] {
      var g := f[..|f|-1];
      LabelNumbersBijective(g);
      NumberAllNumbers(LabelNumbers(g), RelabelledLabels(f[|f|-1]));
      forall p, l | 0 <= p < |f| && l in RelabelledLabels(f[p]) ensures l in LabelNumbers(f) {
        if p < |f| - 1 { assert l in RelabelledLabels(g[p]); }
      }
    }
  }

  /** Only labels that stand in the code have numbers. */
  lemma {:induction false} NumberedLabelStands<N>(f: seq<Item<N>>, l: nat)
    requires l in LabelNumbers(f)
    ensures exists p :: 0 <= p < |f| && l in RelabelledLabels(f[p])
  {
    if f != [] {
      var g := f[..|f|-1];
      LabelNumbersBijective(g);
      NumberAllNumbers(LabelNumbers(g), RelabelledLabels(f[|f|-1]));
      if l in LabelNumbers(g) {
        NumberedLabelStands(g, l);
        var p :| 0 <= p < |g| && l in RelabelledLabels(g[p]);
        assert l in RelabelledLabels(f[p]);
      }
    }
  }

  /** Numbers are given in the order in which temporaries are first named: what the first
      `k` items name keeps its number, and what comes later has a greater one. */
  lemma {:induction false} EarlierIsSmaller<N>(f: seq<Item<N>>, k: nat, v: nat, w: nat)
    requires k <= |f| && v in VarNumbers(f[..k]) && w in VarNumbers(f) && w !in VarNumbers(f[..k])
    ensures v in VarNumbers(f) && VarNumbers(f)[v] < VarNumbers(f)[w]
  {
    NumbersStay(f, k, v);
    VarNumbersBijective(f[..k]);
    NumbersAbove(f, k, w);
  }

  lemma {:induction false} NumbersStay<N>(f: seq<Item<N>>, k: nat, v: nat)
    requires k <= |f| && v in VarNumbers(f[..k])
    ensures v in VarNumbers(f) && VarNumbers(f)[v] == VarNumbers(f[..k])[v]
    decreases |f|
  {
    if k == |f| {
      assert f[..k] == f;
    } else {
      var g := f[..|f|-1];
      assert g[..k] == f[..k];
      NumbersStay(g, k, v);
      VarNumbersBijective(g);
      NumberAllNumbers(VarNumbers(g), Renumbered(f[|f|-1]));
    }
  }

  lemma {:induction false} NumbersAbove<N>(f: seq<Item<N>>, k: nat, w: nat)
    requires k <= |f| && w in VarNumbers(f) && w !in VarNumbers(f[..k])
    ensures |VarNumbers(f[..k])| <= VarNumbers(f)[w]
    decreases |f|
  {
    assert f[..|f|] == f;
    if k == |f| {
      assert false;
    } else {
      var g := f[..|f|-1];
      assert g[..k] == f[..k];
      VarNumbersBijective(g);
      NumberAllNumbers(VarNumbers(g), Renumbered(f[|f|-1]));
      if w in VarNumbers(g) {
        NumbersAbove(g, k, w);
      } else {
        NumberAllAbove(VarNumbers(g), Renumbered(f[|f|-1]), w);
        NumbersGrow(g, k);
      }
    }
  }

  lemma {:induction false} NumberAllAbove(m: map<nat, nat>, vs: seq<nat>, w: nat)
    requires w !in m && w in NumberAll(m, vs)
    ensures |m| <= NumberAll(m, vs)[w]
    decreases |vs|
  {
    if vs != [] {
      var m' := Number(m, vs[0]);
      if w == vs[0] {
        NumberAllKeeps(m', vs[1..], w);
      } else {
        NumberAllAbove(m', vs[1..], w);
      }
    }
  }

  lemma {:induction false} NumberAllKeeps(m: map<nat, nat>, vs: seq<nat>, v: nat)
    requires v in m
    ensures v in NumberAll(m, vs) && NumberAll(m, vs)[v] == m[v] && |m| <= |NumberAll(m, vs)|
    decreases |vs|
  {
    if vs != [] { NumberAllKeeps(Number(m, vs[0]), vs[1..], v); }
  }

  lemma {:induction false} NumbersGrow<N>(f: seq<Item<N>>, k: nat)
    requires k <= |f|
    ensures |VarNumbers(f[..k])| <= |VarNumbers(f)|
    decreases |f|
  {
    if k == |f| {
      assert f[..k] == f;
    } else {
      var g := f[..|f|-1];
      assert g[..k] == f[..k];
      NumbersGrow(g, k);
      NumberAllGrows(VarNumbers(g), Renumbered(f[|f|-1]));
    }
  }

  lemma {:induction false} NumberAllGrows(m: map<nat, nat>, vs: seq<nat>)
    ensures |m| <= |NumberAll(m, vs)|
    decreases |vs|
  {
    if vs != [] { NumberAllGrows(Number(m, vs[0]), vs[1..]); }
  }

  /** The numbers 0 .. n-1 are all used. */
  lemma NumbersFill(m: map<nat, nat>, k: nat)
    requires Numbering(m) && k < |m|
    ensures exists v :: v in m && m[v] == k
  {
    var im: map<nat, int> := map v | v in m :: m[v] as int;
    assert im.Keys == m.Keys;
    InjectiveMapSize(im);
    if forall v :: v in m ==> m[v] != k {
      forall r | r in im.Values ensures 0 <= r < |m| && r != k {
        var v :| v in im && im[v] == r;
        assert m[v] != k;
      }
      var more := im.Values + {k as int};
      Below(more, |m|);
      assert false;
    }
  }

  // ----- meaning -----

  /** What the renaming asks of its input: the bound `this` of a call is named by
      some item that renumbers it. */
  ghost predicate ThisIsNamed<N>(f: seq<Item<N>>) {
    forall p :: 0 <= p < |f| && f[p].Do? && f[p].op.Call? && f[p].op.bound.Some? ==>
      f[p].op.bound.value in VarNumbers(f)
  }

  lemma MentionsNumbered<N>(f: seq<Item<N>>, p: nat, v: nat)
    requires ThisIsNamed(f) && p < |f| && v in Mentions(f[p])
    ensures v in VarNumbers(f)
  {
    VarNumbersBijective(f);
    if v !in Renumbered(f[p]) {
      assert f[p].Do? && f[p].op.Call?;
    }
  }

  ghost predicate SameTemps<N>(rt: Runtime<N>, vars: map<nat, nat>, s: State, t: State) {
    && s == t.(temps := s.temps)
    && forall v :: v in vars ==> Get(rt, s.temps, v) == Get(rt, t.temps, vars[v])
  }

  /** `g` has the labels of `f` under their new numbers. */
  ghost predicate LabelsMoved<N>(f: seq<Item<N>>, g: seq<Item<N>>, labels: map<nat, nat>) {
    && |f| == |g|
    && forall p :: 0 <= p < |f| ==>
         if f[p].Label? then f[p].lbl in labels && g[p] == Label(labels[f[p].lbl]) else !g[p].Label?
  }

  lemma {:induction false} LabelPointsMoved<N>(f: seq<Item<N>>, g: seq<Item<N>>, labels: map<nat, nat>, l: nat)
    requires Numbering(labels) && l in labels && LabelsMoved(f, g, labels)
    ensures l in LabelPoints(f) <==> labels[l] in LabelPoints(g)
    ensures l in LabelPoints(f) ==> LabelPoints(f)[l] == LabelPoints(g)[labels[l]]
  {
    if f != [] {
      LabelPointsMoved(f[..|f|-1], g[..|f|-1], labels, l);
    }
  }

  lemma RenamedLabelsMoved<N>(f: seq<Item<N>>)
    ensures LabelsMoved(f, Renamed(f), LabelNumbers(f))
  {
    LabelNumbersBijective(f);
    forall p | 0 <= p < |f| && f[p].Label?
      ensures f[p].lbl in LabelNumbers(f)
    {
      assert f[p].lbl in RelabelledLabels(f[p]);
    }
  }

  lemma ItemRenamed<N>(f: seq<Item<N>>, p: nat)
    requires p < |f|
    ensures SameItem(f, Renamed(f), (v: nat) => Look(VarNumbers(f), v), (l: nat) => Look(LabelNumbers(f), l), p)
  {
    LabelNumbersBijective(f);
    if BranchTarget(f[p]).Some? {
      var l := BranchTarget(f[p]).value;
      assert l in RelabelledLabels(f[p]);
      RenamedLabelsMoved(f);
      LabelPointsMoved(f, Renamed(f), LabelNumbers(f), l);
    }
  }

  lemma RenamedReads<N>(rt: Runtime<N>, f: seq<Item<N>>, s: State, t: State)
    requires ThisIsNamed(f)
    requires SameTemps(rt, VarNumbers(f), s, t)
    ensures ReadsAgree(rt, f, (v: nat) => Look(VarNumbers(f), v), s, t)
    ensures WritesAt(f, s).Some? ==> WritesAt(f, s).value in VarNumbers(f)
  {
    ReadsMentioned(rt, f, s);
    forall v: nat | Reads(rt, f, s, v) ensures v in VarNumbers(f) {
      MentionsNumbered(f, s.pc, v);
    }
    var w := WritesAt(f, s);
    if w.Some? { MentionsNumbered(f, s.pc, w.value); }
  }

  lemma WriteKeepsSame<N>(rt: Runtime<N>, vars: map<nat, nat>, s: Temps, t: Temps, w: nat, value: Value)
    requires Numbering(vars) && w in vars
    requires forall v :: v in vars ==> Get(rt, s, v) == Get(rt, t, vars[v])
    ensures forall v :: v in vars ==> Get(rt, s[w := value], v) == Get(rt, t[vars[w] := value], vars[v])
  {
  }

  lemma RenamedStep<N>(rt: Runtime<N>, f: seq<Item<N>>, s: State, t: State)
    requires ThisIsNamed(f) && Numbering(VarNumbers(f))
    requires SameTemps(rt, VarNumbers(f), s, t)
    ensures SameTemps(rt, VarNumbers(f), Step(rt, f, s), Step(rt, Renamed(f), t))
  {
    var vars := VarNumbers(f);
    var s', t' := Step(rt, f, s), Step(rt, Renamed(f), t);
    var w := WritesAt(f, s);
    assert s' == t'.(temps := s'.temps) &&
      if w.None? then s'.temps == s.temps && t'.temps == t.temps
      else w.value in vars && var value := Written(rt, f[s.pc], s).0;
           s'.temps == s.temps[w.value := value] && t'.temps == t.temps[vars[w.value] := value]
    by {
      RenamedReads(rt, f, s, t);
      if s.pc < |f| { ItemRenamed(f, s.pc); }
      StepTogether(rt, f, Renamed(f), (v: nat) => Look(vars, v), (l: nat) => Look(LabelNumbers(f), l), s, t);
    }
    if w.Some? { WriteKeepsSame(rt, vars, s.temps, t.temps, w.value, Written(rt, f[s.pc], s).0); }
  }

  /** The renamed function does what the function does, step by step. */
  lemma {:induction false} RenamingPreservesMeaning<N>(rt: Runtime<N>, f: seq<Item<N>>, world: World, n: nat)
    requires ThisIsNamed(f)
    ensures SameTemps(rt, VarNumbers(f), After(rt, f, world, n), After(rt, Renamed(f), world, n))
  {
    if n > 0 {
      RenamingPreservesMeaning(rt, f, world, n - 1);
      VarNumbersBijective(f);
      RenamedStep(rt, f, After(rt, f, world, n - 1), After(rt, Renamed(f), world, n - 1));
      AfterStep(rt, f, world, n - 1);
      AfterStep(rt, Renamed(f), world, n - 1);
    }
  }

  // ----- what the register scheduler needs -----

  lemma RenamedLabelsDefined<N>(f: seq<Item<N>>)
    requires LabelsDefined(f)
    ensures LabelsDefined(Renamed(f))
  {
    var g := Renamed(f);
    forall p | 0 <= p < |g| && BranchTarget(g[p]).Some? ensures BranchTarget(g[p]).value in LabelPoints(g) {
      ItemRenamed(f, p);
      assert BranchTarget(f[p]).Some?;
    }
  }

  lemma RelabelMentions<N>(lab: nat -> nat, item: Item<N>)
    ensures Mentions(Relabel(lab, item)) == Mentions(item)
  {
  }

  lemma RenamedMentions<N>(f: seq<Item<N>>, p: nat, i: nat)
    requires p < |f|
    ensures |Mentions(Renamed(f)[p])| == |Mentions(f[p])|
    ensures i < |Mentions(f[p])| ==> Mentions(Renamed(f)[p])[i] == Look(VarNumbers(f), Mentions(f[p])[i])
  {
    var reg := (v: nat) => Look(VarNumbers(f), v);
    RelabelMentions((l: nat) => Look(LabelNumbers(f), l), MapItem(reg, f[p]));
    MapItemMentions(reg, f[p]);
  }

  lemma {:induction false} SizeOfInitialSegment(s: set<nat>, n: nat)
    requires AllBelow(s, n)
    ensures |s| == n
    decreases n
  {
    if n == 0 {
      assert s == {};
    } else {
      SizeOfInitialSegment(s - {n - 1}, n - 1);
    }
  }

  lemma RenamedKeyBelow<N>(f: seq<Item<N>>, p: nat, k: nat)
    requires ThisIsNamed(f) && p < |f| && k in Mentions(Renamed(f)[p])
    ensures k < |VarNumbers(f)|
  {
    var g := Renamed(f);
    var i :| 0 <= i < |Mentions(g[p])| && Mentions(g[p])[i] == k;
    RenamedMentions(f, p, i);
    MentionsNumbered(f, p, Mentions(f[p])[i]);
    VarNumbersBijective(f);
  }

  lemma RenamedKeyMentioned<N>(f: seq<Item<N>>, k: nat) returns (p: nat)
    requires k < |VarNumbers(f)|
    ensures p < |f| && k in Mentions(Renamed(f)[p])
  {
    VarNumbersBijective(f);
    NumbersFill(VarNumbers(f), k);
    var v :| v in VarNumbers(f) && VarNumbers(f)[v] == k;
    p :| 0 <= p < |f| && v in Renumbered(f[p]);
    RenumberedMentioned(f[p], v);
    var i :| 0 <= i < |Mentions(f[p])| && Mentions(f[p])[i] == v;
    RenamedMentions(f, p, i);
  }

  lemma RenumberedMentioned<N>(item: Item<N>, v: nat)
    ensures v in Renumbered(item) ==> v in Mentions(item)
  {
  }

  ghost predicate Named(mentions: seq<seq<nat>>, v: nat) { exists p: nat :: Names(mentions, p, v) }

  /** The temporaries named are exactly the numbers below `n`. */
  ghost predicate NamesExactly(mentions: seq<seq<nat>>, n: nat) {
    && (forall p: nat, v: nat :: Names(mentions, p, v) ==> v < n)
    && (forall v: nat :: v < n ==> Named(mentions, v))
  }

  lemma RenamedNamesExactly<N>(f: seq<Item<N>>)
    requires ThisIsNamed(f)
    ensures NamesExactly(MentionTable(Renamed(f)), |VarNumbers(f)|)
  {
    var mentions := MentionTable(Renamed(f));
    forall p: nat, v: nat | Names(mentions, p, v) ensures v < |VarNumbers(f)| {
      RenamedKeyBelow(f, p, v);
    }
    forall v: nat | v < |VarNumbers(f)| ensures Named(mentions, v) {
      var p := RenamedKeyMentioned(f, v);
      assert Names(mentions, p, v);
    }
  }

  lemma KeysAreNames(mentions: seq<seq<nat>>, lpm: Intervals, n: nat)
    requires Opens(mentions, |mentions|, lpm) && Covers(mentions, |mentions|, lpm)
    requires NamesExactly(mentions, n)
    ensures Dense(lpm) && |lpm| == n
  {
    var keys := lpm.Keys;
    forall k: nat ensures k in keys <==> k < n {
      if k in lpm { assert Names(mentions, lpm[k].start, k); }
      if k < n { assert Named(mentions, k); }
    }
    SizeOfInitialSegment(keys, n);
  }

  ghost predicate AllBelow(s: set<nat>, n: nat) { forall k: nat :: k in s <==> k < n }

  /** Renamed functions meet the scheduler's demand: the temporaries are exactly
      0 .. n-1, so every index is below their number. */
  lemma RenamedIsDense<N>(f: seq<Item<N>>)
    requires ThisIsNamed(f) && LabelsDefined(f)
    ensures Dense(IntervalsUpTo(Renamed(f), |f|).0)
    ensures |IntervalsUpTo(Renamed(f), |f|).0| == |VarNumbers(f)|
  {
    var g := Renamed(f);
    RenamedLabelsDefined(f);
    ScanCompletes(g, |g|);
    IntervalsClosed(g, |g|);
    RenamedNamesExactly(f);
    KeysAreNames(MentionTable(g), IntervalsUpTo(g, |g|).0, |VarNumbers(f)|);
  }

  // ----- the pass itself -----

  class IrFunction<N> {
    var items: seq<Item<N>>

    constructor (f: seq<Item<N>>)
      ensures items == f
    {
      items := f;
    }

    /** First pass: collect the numbers. */
    method Remap() returns (vars: map<nat, nat>, labels: map<nat, nat>)
      ensures vars == VarNumbers(items) && labels == LabelNumbers(items)
    {
      vars, labels := map[], map[];
      var i := 0;
      while i < |items|
        invariant 0 <= i <= |items|
        invariant vars == VarNumbers(items[..i]) && labels == LabelNumbers(items[..i])
      {
        assert items[..i + 1][..i] == items[..i];
        vars := NumberEach(vars, Renumbered(items[i]));
        labels := NumberEach(labels, RelabelledLabels(items[i]));
        i := i + 1;
      }
      assert items[..|items|] == items;
    }

    /** Second pass: overwrite every item. */
    method Apply(vars: map<nat, nat>, labels: map<nat, nat>)
      modifies this
      ensures |items| == |old(items)|
      ensures forall p :: 0 <= p < |items| ==> items[p] == RenameItem(vars, labels, old(items)[p])
    {
      var i := 0;
      while i < |items|
        invariant 0 <= i <= |items| == |old(items)|
        invariant forall p :: 0 <= p < |items| ==>
          items[p] == if p < i then RenameItem(vars, labels, old(items)[p]) else old(items)[p]
      {
        items := items[i := RenameItem(vars, labels, items[i])];
        i := i + 1;
      }
    }

    /** `xjs_c2_rename` */
    method Rename()
      modifies this
      ensures items == Renamed(old(items))
    {
      var vars, labels := Remap();
      Apply(vars, labels);
    }
  }

  method NumberEach(m: map<nat, nat>, vs: seq<nat>) returns (r: map<nat, nat>)
    ensures r == NumberAll(m, vs)
  {
    r := m;
    var i := 0;
    while i < |vs|
      invariant 0 <= i <= |vs|
      invariant NumberAll(r, vs[i..]) == NumberAll(m, vs)
    {
      if vs[i] !in r { r := r[vs[i] := |r|]; }
      i := i + 1;
    }
  }
}
