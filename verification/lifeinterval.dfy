/** Life intervals of temporaries: one pass over the items of a function records
    the first and the latest mention of every temporary, and every backward
    branch stretches the intervals that reach its destination.
  */
module LifeInterval {
  import opened Ir
  import opened Correspond

  datatype Interval = Interval(start: nat, end: nat)

  type Intervals = map<nat, Interval>

  /** `update_point`: a first mention opens an interval, a later one moves its end. */
  function Update(lpm: Intervals, point: nat, v: nat): Intervals {
    if v in lpm then lpm[v := lpm[v].(end := point)] else lpm[v := Interval(point, point)]
  }

  function UpdateAll(lpm: Intervals, point: nat, vs: seq<nat>): Intervals
    decreases |vs|
  {
    if vs == [] then lpm else UpdateAll(Update(lpm, point, vs[0]), point, vs[1..])
  }

  /** `extend_point`: every interval that reaches `dest` now reaches `point`. */
  function Extend(lpm: Intervals, point: nat, dest: nat): Intervals {
    map v | v in lpm :: if lpm[v].end < dest then lpm[v] else lpm[v].(end := point)
  }

  /** Every branch of `f` names a label of `f`. */
  ghost predicate LabelsDefined<N>(f: seq<Item<N>>) {
    forall p :: 0 <= p < |f| && BranchTarget(f[p]).Some? ==> BranchTarget(f[p]).value in LabelPoints(f)
  }

  /** The intervals after the first `k` items of `f`; a branch to a label that
      does not exist ends the pass where it stands. */
  function IntervalsUpTo<N>(f: seq<Item<N>>, k: nat): (r: (Intervals, bool))
    requires k <= |f|
  {
    if k == 0 then (map[], true)
    else
      var (lpm, ok) := IntervalsUpTo(f, k - 1);
      if !ok then (lpm, false)
      else
        var here := UpdateAll(lpm, k - 1, Mentions(f[k-1]));
        var target := BranchTarget(f[k-1]);
        if target.None? then (here, true)
        else if target.value in LabelPoints(f) then (Extend(here, k - 1, LabelPoints(f)[target.value]), true)
        else (here, false)
  }

  /** The temporaries named at each point. */
  function MentionTable<N>(f: seq<Item<N>>): (r: seq<seq<nat>>)
    ensures |r| == |f|
    ensures forall p :: 0 <= p < |f| ==> r[p] == Mentions(f[p])
  {
    seq(|f|, p requires 0 <= p < |f| => Mentions(f[p]))
  }

  /** The item at point `p` names `v`. */
  predicate Names(mentions: seq<seq<nat>>, p: nat, v: nat) { p < |mentions| && v in mentions[p] }

  /** An interval opens at a mention and lies in the part scanned so far. */
  ghost predicate Opens(mentions: seq<seq<nat>>, k: nat, lpm: Intervals)
    requires k <= |mentions|
  {
    forall v :: v in lpm ==> lpm[v].start <= lpm[v].end < k && Names(mentions, lpm[v].start, v)
  }

  /** Every mention lies in its temporary's interval. */
  ghost predicate Covers(mentions: seq<seq<nat>>, k: nat, lpm: Intervals)
    requires k <= |mentions|
  {
    forall p, v :: 0 <= p < k && Names(mentions, p, v) ==> v in lpm && lpm[v].start <= p <= lpm[v].end
  }

  /** No branch jumps back into an interval from above its end: the interval
      starts after the branch, ends before the destination or reaches the branch. */
  ghost predicate Guards<N>(f: seq<Item<N>>, k: nat, lpm: Intervals)
    requires k <= |f|
  {
    forall p, v :: 0 <= p < k && v in lpm && Jumps(f, p) ==> Guarded(p, Dest(f, p), lpm[v])
  }

  predicate Guarded(p: nat, dest: nat, i: Interval) {
    p < i.start || i.end < dest || p <= i.end
  }

  /** `p` is a branch to an existing label. */
  predicate Jumps<N>(f: seq<Item<N>>, p: nat)
    requires p < |f|
  {
    BranchTarget(f[p]).Some? && BranchTarget(f[p]).value in LabelPoints(f)
  }

  function Dest<N>(f: seq<Item<N>>, p: nat): nat
    requires p < |f| && Jumps(f, p)
  {
    LabelPoints(f)[BranchTarget(f[p]).value]
  }

  /** How one scanned item moves the intervals: none disappears, starts stay, an
      end stays or moves to the point. */
  ghost predicate Moved(lpm: Intervals, point: nat, r: Intervals, vs: seq<nat>) {
    && (forall v :: v in r <==> v in lpm || v in vs)
    && (forall v :: v in lpm ==> r[v].start == lpm[v].start)
    && (forall v :: v in lpm ==> r[v].end == lpm[v].end || r[v].end == point)
    && (forall v :: v in vs ==> r[v].end == point)
    && (forall v :: v in vs && v !in lpm ==> r[v].start == point)
  }

  lemma {:induction false} UpdateAllMoves(lpm: Intervals, point: nat, vs: seq<nat>)
    ensures Moved(lpm, point, UpdateAll(lpm, point, vs), vs)
    decreases |vs|
  {
    if vs != [] {
      UpdateAllMoves(Update(lpm, point, vs[0]), point, vs[1..]);
      assert vs == [vs[0]] + vs[1..];
    }
  }

  ghost predicate Proper(lpm: Intervals) {
    forall v :: v in lpm ==> lpm[v].start <= lpm[v].end
  }

  lemma {:induction false} IntervalsProper<N>(f: seq<Item<N>>, k: nat)
    requires k <= |f|
    ensures Proper(IntervalsUpTo(f, k).0)
    ensures forall v :: v in IntervalsUpTo(f, k).0 ==> IntervalsUpTo(f, k).0[v].end < k
  {
    if k > 0 {
      IntervalsProper(f, k - 1);
      UpdateAllMoves(IntervalsUpTo(f, k - 1).0, k - 1, Mentions(f[k-1]));
    }
  }

  lemma ScanMoves<N>(f: seq<Item<N>>, k: nat)
    requires k < |f|
    requires IntervalsUpTo(f, k + 1).1
    ensures IntervalsUpTo(f, k).1
    ensures Moved(IntervalsUpTo(f, k).0, k, IntervalsUpTo(f, k + 1).0, Mentions(f[k]))
    ensures Jumps(f, k) ==> Stretched(k, Dest(f, k), IntervalsUpTo(f, k + 1).0)
  {
    UpdateAllMoves(IntervalsUpTo(f, k).0, k, Mentions(f[k]));
  }

  ghost predicate Stretched(point: nat, dest: nat, r: Intervals) {
    forall v :: v in r ==> r[v].end < dest || r[v].end == point
  }

  /** The intervals are closed under control flow. */
  lemma {:induction false} IntervalsClosed<N>(f: seq<Item<N>>, k: nat)
    requires k <= |f|
    requires IntervalsUpTo(f, k).1
    ensures Opens(MentionTable(f), k, IntervalsUpTo(f, k).0)
    ensures Covers(MentionTable(f), k, IntervalsUpTo(f, k).0)
    ensures Guards(f, k, IntervalsUpTo(f, k).0)
  {
    if k > 0 {
      var lpm, r := IntervalsUpTo(f, k - 1).0, IntervalsUpTo(f, k).0;
      ScanMoves(f, k - 1);
      IntervalsClosed(f, k - 1);
      CoversStep(MentionTable(f), k - 1, lpm, r);
      GuardsStep(f, MentionTable(f), k - 1, lpm, r);
    }
  }

  // ----- and no longer than that -----

  lemma {:induction false} UpdateAllSpares(lpm: Intervals, point: nat, vs: seq<nat>, v: nat)
    requires v in lpm && v !in vs
    ensures v in UpdateAll(lpm, point, vs) && UpdateAll(lpm, point, vs)[v] == lpm[v]
    decreases |vs|
  {
    if vs != [] {
      UpdateAllSpares(Update(lpm, point, vs[0]), point, vs[1..], v);
    }
  }

  /** The intervals are the least that cover every mention and are closed under control
      flow: whatever else does so has each of them inside its own. */
  lemma {:induction false} IntervalsLeast<N>(f: seq<Item<N>>, k: nat, other: Intervals)
    requires k <= |f| && IntervalsUpTo(f, k).1
    requires Covers(MentionTable(f), k, other) && Guards(f, k, other)
    ensures Inside(IntervalsUpTo(f, k).0, other)
    decreases k
  {
    if k > 0 {
      var lpm, here := IntervalsUpTo(f, k - 1).0, UpdateAll(IntervalsUpTo(f, k - 1).0, k - 1, Mentions(f[k-1]));
      IntervalsLeast(f, k - 1, other);
      IntervalsProper(f, k - 1);
      MentionsInside(f, k - 1, lpm, here, other);
      if Jumps(f, k - 1) {
        StretchInside(k - 1, Dest(f, k - 1), here, other);
      }
    }
  }

  /** Each interval lies within the one that `other` has. */
  ghost predicate Inside(lpm: Intervals, other: Intervals) {
    forall v :: v in lpm ==> v in other && other[v].start <= lpm[v].start && lpm[v].end <= other[v].end
  }

  lemma MentionsInside<N>(f: seq<Item<N>>, k: nat, lpm: Intervals, here: Intervals, other: Intervals)
    requires k < |f| && here == UpdateAll(lpm, k, Mentions(f[k])) && Inside(lpm, other)
    requires Covers(MentionTable(f), k + 1, other)
    requires forall v :: v in lpm ==> lpm[v].start <= lpm[v].end < k
    ensures Inside(here, other) && forall v :: v in here ==> here[v].start <= here[v].end <= k
  {
    var vs := Mentions(f[k]);
    UpdateAllMoves(lpm, k, vs);
    forall v | v in here
      ensures v in other && other[v].start <= here[v].start <= here[v].end <= other[v].end && here[v].end <= k
    {
      if v in vs {
        assert Names(MentionTable(f), k, v);
      } else {
        UpdateAllSpares(lpm, k, vs, v);
      }
    }
  }

  lemma StretchInside(point: nat, dest: nat, here: Intervals, other: Intervals)
    requires Inside(here, other) && forall v :: v in here ==> here[v].start <= here[v].end <= point
    requires forall v :: v in other ==> Guarded(point, dest, other[v])
    ensures Inside(Extend(here, point, dest), other)
  {
  }

  lemma CoversStep(mentions: seq<seq<nat>>, k: nat, lpm: Intervals, r: Intervals)
    requires k < |mentions|
    requires Opens(mentions, k, lpm) && Covers(mentions, k, lpm)
    requires Moved(lpm, k, r, mentions[k])
    ensures Opens(mentions, k + 1, r) && Covers(mentions, k + 1, r)
  {
    forall v | v in r
      ensures r[v].start <= r[v].end < k + 1 && Names(mentions, r[v].start, v)
    {
      if v in lpm { assert lpm[v].start <= lpm[v].end < k; }
    }
    forall p, v | 0 <= p < k + 1 && Names(mentions, p, v)
      ensures v in r && r[v].start <= p <= r[v].end
    {
      if p < k { assert v in lpm && lpm[v].start <= p <= lpm[v].end; }
    }
  }

  lemma GuardsStep<N>(f: seq<Item<N>>, mentions: seq<seq<nat>>, k: nat, lpm: Intervals, r: Intervals)
    requires k < |f| == |mentions|
    requires Opens(mentions, k, lpm) && Guards(f, k, lpm)
    requires Moved(lpm, k, r, mentions[k])
    requires Jumps(f, k) ==> Stretched(k, Dest(f, k), r)
    ensures Guards(f, k + 1, r)
  {
    forall p, v | 0 <= p < k + 1 && v in r && Jumps(f, p)
      ensures Guarded(p, Dest(f, p), r[v])
    {
      if p < k && v in lpm {
        assert Guarded(p, Dest(f, p), lpm[v]);
      }
    }
  }

  lemma {:induction false} AbortedScanStands<N>(f: seq<Item<N>>, k: nat, n: nat)
    requires k <= n <= |f| && !IntervalsUpTo(f, k).1
    ensures IntervalsUpTo(f, n) == IntervalsUpTo(f, k)
    decreases n
  {
    if k < n { AbortedScanStands(f, k, n - 1); }
  }

  lemma {:induction false} ScanCompletes<N>(f: seq<Item<N>>, k: nat)
    requires k <= |f| && LabelsDefined(f)
    ensures IntervalsUpTo(f, k).1
  {
    if k > 0 { ScanCompletes(f, k - 1); }
  }

  // ----- the scan itself -----

  /** `xjs_c4_label_point_map_extract` */
  method ExtractLabelPoints<N>(f: seq<Item<N>>) returns (points: map<nat, nat>)
    ensures points == LabelPoints(f)
  {
    points := map[];
    var point := 0;
    assert f[..0] == [];
    while point < |f|
      invariant 0 <= point <= |f|
      invariant points == LabelPoints(f[..point])
    {
      if f[point].Label? {
        points := points[f[point].lbl := point];
      }
      assert f[..point + 1][..point] == f[..point];
      point := point + 1;
    }
    assert f[..|f|] == f;
  }

  class LifePointMap {
    var lpm: Intervals

    constructor ()
      ensures lpm == map[]
    {
      lpm := map[];
    }

    method UpdatePoint(point: nat, v: nat)
      modifies this
      ensures lpm == Update(old(lpm), point, v)
    {
      if v !in lpm {
        lpm := lpm[v := Interval(point, point)];
      } else {
        lpm := lpm[v := lpm[v].(end := point)];
      }
    }

    method ExtendPoint(point: nat, points: map<nat, nat>, dest: nat) returns (ok: bool)
      modifies this
      ensures ok <==> dest in points
      ensures lpm == if ok then Extend(old(lpm), point, points[dest]) else old(lpm)
      ensures ok ==> lpm.Keys == old(lpm).Keys && forall v :: v in lpm ==>
        lpm[v].start == old(lpm)[v].start &&
        lpm[v].end == (if points[dest] <= old(lpm)[v].end then point else old(lpm)[v].end)
    {
      if dest !in points { return false; }
      var destPoint := points[dest];
      var todo := lpm.Keys;
      while todo != {}
        invariant todo <= lpm.Keys == old(lpm).Keys
        invariant forall v :: v in lpm ==>
          lpm[v] == if v in todo then old(lpm)[v] else Extend(old(lpm), point, destPoint)[v]
      {
        var v :| v in todo;
        todo := todo - {v};
        if destPoint <= lpm[v].end {
          lpm := lpm[v := lpm[v].(end := point)];
        }
      }
      return true;
    }

    /** `xjs_c4_function_var_life_interval_extract`; `ok` is false when a branch
        names no label and the scan was abandoned. */
    method Extract<N>(f: seq<Item<N>>, points: map<nat, nat>) returns (ok: bool)
      requires lpm == map[] && points == LabelPoints(f)
      modifies this
      ensures (lpm, ok) == IntervalsUpTo(f, |f|)
    {
      var point := 0;
      while point < |f|
        invariant 0 <= point <= |f|
        invariant IntervalsUpTo(f, point) == (lpm, true)
      {
        var mentions := Mentions(f[point]);
        ghost var before := lpm;
        var i := 0;
        while i < |mentions|
          invariant 0 <= i <= |mentions|
          invariant UpdateAll(lpm, point, mentions[i..]) == UpdateAll(before, point, mentions)
        {
          UpdatePoint(point, mentions[i]);
          i := i + 1;
        }
        var target := BranchTarget(f[point]);
        if target.Some? {
          ok := ExtendPoint(point, points, target.value);
          if !ok {
            AbortedScanStands(f, point + 1, |f|);
            return false;
          }
        }
        point := point + 1;
      }
      return true;
    }
  }
}
