/** The R1 register scheduler: life intervals, peak pressure and a greedy pass
    over the points that fills a (temporary x point) matrix of registers.
  */
module RegAlloc {
  import opened Ir
  import opened LifeInterval

  // ----- specification -----

  /** The temporaries whose interval contains the point. */
  function LiveAt(lpm: Intervals, point: nat): set<nat> {
    set v | v in lpm && lpm[v].start <= point <= lpm[v].end
  }

  /** `c` is the peak number of temporaries alive at one point. */
  ghost predicate IsPeak(lpm: Intervals, period: nat, c: nat) {
    && (forall p :: 0 <= p < period ==> |LiveAt(lpm, p)| <= c)
    && (c == 0 || exists p :: 0 <= p < period && |LiveAt(lpm, p)| == c)
  }

  ghost predicate IsPeriod(lpm: Intervals, period: nat) {
    && period > 0
    && (forall v :: v in lpm ==> lpm[v].end < period)
    && (period == 1 || exists v :: v in lpm && lpm[v].end == period - 1)
  }

  /** Temporaries are numbered densely, as the renaming pass leaves them. */
  ghost predicate Dense(lpm: Intervals) {
    forall v :: v in lpm ==> v < |lpm|
  }

  /** An assignment of registers to temporaries at points: `table[v][p]`. */
  type Table = seq<seq<int>>

  ghost predicate Shaped(table: Table, n: nat, period: nat) {
    |table| == n && forall v :: 0 <= v < n ==> |table[v]| == period
  }

  /** A temporary has a register below `regs` exactly where it is alive. */
  ghost predicate Placed(lpm: Intervals, table: Table, period: nat, regs: nat)
    requires Shaped(table, |lpm|, period)
  {
    forall v, p :: 0 <= v < |lpm| && 0 <= p < period ==>
      if v in LiveAt(lpm, p) then 0 <= table[v][p] < regs else table[v][p] == -1
  }

  /** Temporaries alive at the same point have different registers. */
  ghost predicate Apart(lpm: Intervals, table: Table, period: nat)
    requires Shaped(table, |lpm|, period)
  {
    forall v, w, p | 0 <= v < |lpm| && 0 <= w < |lpm| && v != w && 0 <= p < period ::
      v in LiveAt(lpm, p) && w in LiveAt(lpm, p) ==> table[v][p] != table[w][p]
  }

  /** A temporary keeps one register over its whole interval. */
  ghost predicate Steady(lpm: Intervals, table: Table, period: nat)
    requires Shaped(table, |lpm|, period)
  {
    forall v, p, q | 0 <= v < |lpm| && 0 <= p < period && 0 <= q < period ::
      v in LiveAt(lpm, p) && v in LiveAt(lpm, q) ==> table[v][p] == table[v][q]
  }

  ghost predicate Allocation(lpm: Intervals, table: Table, period: nat, regs: nat) {
    && Shaped(table, |lpm|, period)
    && Placed(lpm, table, period, regs)
    && Apart(lpm, table, period)
    && Steady(lpm, table, period)
  }

  // ----- consequences of the specification -----

  /** No assignment that keeps temporaries alive together apart uses fewer
      registers than the peak. */
  lemma NoFewerRegisters(lpm: Intervals, table: Table, period: nat, peak: nat, regs: nat)
    requires Dense(lpm) && IsPeak(lpm, period, peak)
    requires Shaped(table, |lpm|, period)
    requires Placed(lpm, table, period, regs) && Apart(lpm, table, period)
    ensures peak <= regs
  {
    if peak > 0 {
      var p :| 0 <= p < period && |LiveAt(lpm, p)| == peak;
      var live := LiveAt(lpm, p);
      var column := map v | v in live :: table[v][p];
      assert column.Keys == live;
      InjectiveMapSize(column);
      forall r | r in column.Values ensures 0 <= r < regs {
        var v :| v in live && column[v] == r;
        assert v in LiveAt(lpm, p);
      }
      Below(column.Values, regs);
    }
  }

  /** No choice of intervals that covers every mention and is closed under control flow
      has a lower peak. */
  lemma NoLowerPeak<N>(f: seq<Item<N>>, period: nat, peak: nat, other: Intervals, period': nat, peak': nat)
    requires IntervalsUpTo(f, |f|).1 && IsPeak(IntervalsUpTo(f, |f|).0, period, peak) && period <= period'
    requires Covers(MentionTable(f), |f|, other) && Guards(f, |f|, other) && IsPeak(other, period', peak')
    ensures peak <= peak'
  {
    hide IntervalsUpTo, Covers, Guards;
    var lpm := IntervalsUpTo(f, |f|).0;
    IntervalsLeast(f, |f|, other);
    if peak > 0 {
      var p :| 0 <= p < period && |LiveAt(lpm, p)| == peak;
      SubsetSize(LiveAt(lpm, p), LiveAt(other, p));
    }
  }

  /** An injective map has as many values as keys. */
  lemma {:induction false} InjectiveMapSize(m: map<nat, int>)
    requires forall v, w :: v in m && w in m && v != w ==> m[v] != m[w]
    ensures |m.Values| == |m.Keys|
    decreases |m.Keys|
  {
    if m.Keys != {} {
      var x :| x in m.Keys;
      var rest := m - {x};
      assert rest.Keys == m.Keys - {x};
      InjectiveMapSize(rest);
      forall y | y in m.Values ensures y in rest.Values + {m[x]} {
        var k :| k in m && m[k] == y;
        if k != x { assert rest[k] == y; }
      }
      assert m.Values == rest.Values + {m[x]};
      assert m[x] !in rest.Values;
    }
  }

  /** A set of naturals below `n` has at most `n` elements. */
  lemma {:induction false} Below(s: set<int>, n: nat)
    requires forall r :: r in s ==> 0 <= r < n
    ensures |s| <= n
    decreases n
  {
    if n == 0 {
      assert forall r :: r !in s;
    } else {
      Below(s - {n - 1}, n - 1);
      if n - 1 in s {
        assert s == (s - {n - 1}) + {n - 1};
      }
    }
  }

  // ----- the pool of registers -----

  /** `holders` are the temporaries that hold a register; `vec` says which; a
      register is marked in use exactly when it is held. */
  ghost predicate Held(holders: set<nat>, vec: seq<int>, using: seq<bool>) {
    && (forall v :: v in holders ==> v < |vec|)
    && (forall v :: 0 <= v < |vec| ==> if v in holders then 0 <= vec[v] < |using| && using[vec[v]] else vec[v] == -1)
    && (forall v, w :: v in holders && w in holders && v != w ==> vec[v] != vec[w])
    && (forall r :: 0 <= r < |using| && using[r] ==> exists v :: v in holders && vec[v] == r)
  }

  /** A pool larger than the set of holders has a free register. */
  lemma SomeRegisterFree(holders: set<nat>, vec: seq<int>, using: seq<bool>)
    requires Held(holders, vec, using)
    requires |holders| < |using|
    ensures exists r :: 0 <= r < |using| && !using[r]
  {
    if forall r :: 0 <= r < |using| ==> using[r] {
      var held := map v | v in holders :: vec[v];
      assert held.Keys == holders;
      InjectiveMapSize(held);
      forall r | 0 <= r < |using| ensures r in held.Values {
        assert using[r];
        var v :| v in holders && vec[v] == r;
        assert held[v] == r;
      }
      AllBelow(held.Values, |using|);
      assert false;
    }
  }

  lemma TakeRegister(holders: set<nat>, vec: seq<int>, using: seq<bool>, v: nat, r: nat)
    requires Held(holders, vec, using)
    requires v < |vec| && v !in holders && r < |using| && !using[r]
    ensures Held(holders + {v}, vec[v := r], using[r := true])
  {
    var vec', using' := vec[v := r], using[r := true];
    forall q | 0 <= q < |using'| && using'[q]
      ensures exists w :: w in holders + {v} && vec'[w] == q
    {
      if q == r {
        assert vec'[v] == q;
      } else {
        assert using[q];
        var w :| w in holders && vec[w] == q;
        assert vec'[w] == q;
      }
    }
  }

  lemma ReturnRegister(holders: set<nat>, vec: seq<int>, using: seq<bool>, v: nat)
    requires Held(holders, vec, using)
    requires v in holders
    ensures Held(holders - {v}, vec[v := -1], using[vec[v] := false])
  {
    var vec', using' := vec[v := -1], using[vec[v] := false];
    forall q | 0 <= q < |using'| && using'[q]
      ensures exists w :: w in holders - {v} && vec'[w] == q
    {
      assert using[q];
      var w :| w in holders && vec[w] == q;
      assert vec'[w] == q;
    }
  }

  /** A set that contains every natural below `n` has at least `n` elements. */
  lemma {:induction false} AllBelow(s: set<int>, n: nat)
    requires forall r :: 0 <= r < n ==> r in s
    ensures n <= |s|
    decreases n
  {
    if n > 0 {
      AllBelow(s - {n - 1}, n - 1);
    }
  }

  /** `allocate_vreg`: take the lowest free register, or answer -1. */
  method AllocateVreg(using: array<bool>) returns (vreg: int)
    modifies using
    ensures vreg == -1 <==> forall r :: 0 <= r < using.Length ==> old(using[r])
    ensures vreg != -1 ==> 0 <= vreg < using.Length && !old(using[vreg])
    ensures forall r :: 0 <= r < vreg ==> old(using[r])
    ensures vreg != -1 ==> using[..] == old(using[..])[vreg := true]
    ensures vreg == -1 ==> using[..] == old(using[..])
  {
    var idx := 0;
    while idx != using.Length
      invariant 0 <= idx <= using.Length
      invariant forall r :: 0 <= r < idx ==> using[r]
      invariant using[..] == old(using[..])
    {
      if !using[idx] {
        using[idx] := true;
        return idx;
      }
      idx := idx + 1;
    }
    return -1;
  }

  // ----- the scheduler -----

  /** The end of the last interval, plus one. */
  method Period(lpm: Intervals) returns (period: nat)
    ensures IsPeriod(lpm, period)
  {
    var last := 0;
    var todo := lpm.Keys;
    while todo != {}
      invariant todo <= lpm.Keys
      invariant forall v :: v in lpm && v !in todo ==> lpm[v].end <= last
      invariant last == 0 || exists v :: v in lpm && lpm[v].end == last
    {
      var v :| v in todo;
      todo := todo - {v};
      if last < lpm[v].end { last := lpm[v].end; }
    }
    period := last + 1;
  }

  /** The life matrix: which temporaries are alive at which points. */
  method FillLife(lpm: Intervals, n: nat, period: nat) returns (life: array2<bool>)
    requires Dense(lpm) && n == |lpm| && IsPeriod(lpm, period)
    ensures fresh(life) && life.Length0 == n && life.Length1 == period
    ensures forall v, p :: 0 <= v < n && 0 <= p < period ==> life[v, p] == (v in LiveAt(lpm, p))
  {
    life := new bool[n, period]((_, _) => false);
    var todo := lpm.Keys;
    while todo != {}
      invariant todo <= lpm.Keys
      invariant forall v, p :: 0 <= v < n && 0 <= p < period ==>
        life[v, p] == (v in LiveAt(lpm, p) && v !in todo)
    {
      var v :| v in todo;
      ghost var before := todo;
      todo := todo - {v};
      var point := lpm[v].start;
      while point <= lpm[v].end
        invariant lpm[v].start <= point
        invariant forall w, p :: 0 <= w < n && 0 <= p < period ==>
          life[w, p] == (
            if w == v then lpm[v].start <= p <= lpm[v].end && p < point else w in LiveAt(lpm, p) && w !in before)
      {
        life[v, point] := true;
        point := point + 1;
      }
    }
  }

  /** The largest number of marks in one column of the life matrix. */
  method PeakPressure(lpm: Intervals, life: array2<bool>) returns (peak: nat)
    requires Dense(lpm) && life.Length0 == |lpm|
    requires forall v, p :: 0 <= v < life.Length0 && 0 <= p < life.Length1 ==> life[v, p] == (v in LiveAt(lpm, p))
    ensures IsPeak(lpm, life.Length1, peak)
  {
    peak := 0;
    var point := 0;
    while point != life.Length1
      invariant 0 <= point <= life.Length1
      invariant forall p :: 0 <= p < point ==> |LiveAt(lpm, p)| <= peak
      invariant peak == 0 || exists p :: 0 <= p < point && |LiveAt(lpm, p)| == peak
    {
      var living := 0;
      var v := 0;
      while v != life.Length0
        invariant 0 <= v <= life.Length0
        invariant living == |LiveBelow(lpm, point, v)|
      {
        LiveBelowStep(lpm, point, v);
        living := living + (if life[v, point] then 1 else 0);
        v := v + 1;
      }
      assert LiveBelow(lpm, point, |lpm|) == LiveAt(lpm, point);
      if peak < living { peak := living; }
      point := point + 1;
    }
  }

  ghost function LiveBelow(lpm: Intervals, point: nat, n: nat): set<nat> {
    set v | v in LiveAt(lpm, point) && v < n
  }

  lemma LiveBelowStep(lpm: Intervals, point: nat, v: nat)
    ensures LiveBelow(lpm, point, 0) == {}
    ensures |LiveBelow(lpm, point, v + 1)| == |LiveBelow(lpm, point, v)| + if v in LiveAt(lpm, point) then 1 else 0
  {
    if v in LiveAt(lpm, point) {
      assert LiveBelow(lpm, point, v + 1) == LiveBelow(lpm, point, v) + {v};
    } else {
      assert LiveBelow(lpm, point, v + 1) == LiveBelow(lpm, point, v);
    }
  }

  /** Give a free register to `v`. */
  method Assign(v: nat, vec: array<int>, using: array<bool>, ghost holders: set<nat>) returns (ok: bool)
    requires vec != using as object
    requires Held(holders, vec[..], using[..])
    requires v < vec.Length && v !in holders && |holders| < using.Length
    modifies vec, using
    ensures ok
    ensures Held(holders + {v}, vec[..], using[..])
    ensures forall w :: 0 <= w < vec.Length && w != v ==> vec[w] == old(vec[w])
  {
    ghost var vec0, using0 := vec[..], using[..];
    SomeRegisterFree(holders, vec0, using0);
    var vreg := AllocateVreg(using);
    if vreg < 0 { return false; }
    vec[v] := vreg;
    TakeRegister(holders, vec0, using0, v, vreg);
    assert vec[..] == vec0[v := vreg];
    return true;
  }

  /** Take the register of `v` back. */
  method Release(v: nat, vec: array<int>, using: array<bool>, ghost holders: set<nat>) returns (ok: bool)
    requires vec != using as object
    requires Held(holders, vec[..], using[..])
    requires v in holders
    modifies vec, using
    ensures ok
    ensures Held(holders - {v}, vec[..], using[..])
    ensures forall w :: 0 <= w < vec.Length && w != v ==> vec[w] == old(vec[w])
  {
    ghost var vec0, using0 := vec[..], using[..];
    var vreg := vec[v];
    vec[v] := -1;
    if vreg == -1 { return false; }
    using[vreg] := false;
    ReturnRegister(holders, vec0, using0, v);
    assert vec[..] == vec0[v := -1];
    assert using[..] == using0[vreg := false];
    return true;
  }

  /** Give a register to every temporary whose interval opens at `point`. */
  method OpenIntervals(lpm: Intervals, point: nat, vec: array<int>, using: array<bool>) returns (ok: bool)
    requires Dense(lpm) && Proper(lpm) && vec.Length == |lpm| && vec != using as object
    requires |LiveAt(lpm, point)| <= using.Length
    requires Held(LiveBefore(lpm, point), vec[..], using[..])
    modifies vec, using
    ensures ok
    ensures Held(LiveAt(lpm, point), vec[..], using[..])
    ensures forall v :: v in LiveBefore(lpm, point) ==> vec[v] == old(vec[v])
  {
    ghost var before, live := LiveBefore(lpm, point), LiveAt(lpm, point);
    ghost var holders := before;
    var todo := lpm.Keys;
    while todo != {}
      invariant todo <= lpm.Keys
      invariant before <= holders <= live
      invariant forall v :: v in lpm && lpm[v].start == point ==> (v in holders <==> v !in todo)
      invariant Held(holders, vec[..], using[..])
      invariant forall v :: v in before ==> vec[v] == old(vec[v])
    {
      var v :| v in todo;
      todo := todo - {v};
      if point == lpm[v].start {
        RoomFor(holders, live, v);
        ok := Assign(v, vec, using, holders);
        if !ok { return; }
        holders := holders + {v};
      }
    }
    assert holders == live;
    return true;
  }

  lemma RoomFor(holders: set<nat>, live: set<nat>, v: nat)
    requires holders <= live && v in live && v !in holders
    ensures |holders| < |live|
  {
    SubsetSize(holders, live - {v});
  }

  /** Take back the register of every temporary whose interval ends at `point`. */
  method CloseIntervals(lpm: Intervals, point: nat, vec: array<int>, using: array<bool>) returns (ok: bool)
    requires Dense(lpm) && Proper(lpm) && vec.Length == |lpm| && vec != using as object
    requires Held(LiveAt(lpm, point), vec[..], using[..])
    modifies vec, using
    ensures ok
    ensures Held(LiveBefore(lpm, point + 1), vec[..], using[..])
    ensures forall v :: v in LiveBefore(lpm, point + 1) ==> vec[v] == old(vec[v])
  {
    var todo := lpm.Keys;
    ghost var holders := LiveAt(lpm, point);
    while todo != {}
      invariant todo <= lpm.Keys
      invariant holders == LiveBefore(lpm, point + 1) + Ending(lpm, point, todo)
      invariant Held(holders, vec[..], using[..])
      invariant forall v :: v in LiveBefore(lpm, point + 1) ==> vec[v] == old(vec[v])
    {
      var v :| v in todo;
      todo := todo - {v};
      if point == lpm[v].end {
        ok := Release(v, vec, using, holders);
        if !ok { return; }
        holders := holders - {v};
      }
    }
    assert holders == LiveBefore(lpm, point + 1);
    return true;
  }

  /** The temporaries alive just before `point` and still alive at it. */
  ghost function LiveBefore(lpm: Intervals, point: nat): set<nat> {
    set v | v in lpm && lpm[v].start < point <= lpm[v].end
  }

  ghost function Ending(lpm: Intervals, point: nat, todo: set<nat>): set<nat> {
    set v | v in lpm && lpm[v].end == point && v in todo
  }

  lemma {:induction false} SubsetSize(a: set<nat>, b: set<nat>)
    requires a <= b
    ensures |a| <= |b|
    decreases |a|
  {
    if a != {} {
      var x :| x in a;
      SubsetSize(a - {x}, b - {x});
    }
  }

  datatype Kind = Unknown | R1

  class RegSched {
    var kind: Kind
    var regsCount: nat
    var table: array2<int>

    constructor ()
      ensures kind == Unknown
    {
      kind, regsCount := Unknown, 0;
      table := new int[0, 0];
    }

    /** The allocation matrix as rows of points, one row a temporary. */
    function Rows(): Table
      reads this, table
    {
      var t := table;
      seq(t.Length0, v requires 0 <= v < t.Length0 reads t =>
        seq(t.Length1, p requires 0 <= p < t.Length1 reads t => t[v, p]))
    }

    /** `xjs_regsched_set_r1`.  A branch that names no label leaves the intervals
        of the items before it; everything here holds of those. */
    method SetR1<N>(f: seq<Item<N>>) returns (ok: bool)
      requires Dense(IntervalsUpTo(f, |f|).0)
      modifies this
      ensures ok == (old(kind) == Unknown)
      ensures !ok ==> unchanged(this)
      ensures ok ==> kind == R1 && IsPeriod(IntervalsUpTo(f, |f|).0, table.Length1)
      ensures ok ==> IsPeak(IntervalsUpTo(f, |f|).0, table.Length1, regsCount)
      ensures ok ==> Allocation(IntervalsUpTo(f, |f|).0, Rows(), table.Length1, regsCount)
    {
      hide Dense, Proper, IsPeak, IsPeriod, Filled, Allocation, IntervalsUpTo;
      if kind != Unknown { return false; }
      kind := R1;

      var points := ExtractLabelPoints(f);
      var scan := new LifePointMap();
      var _ := scan.Extract(f, points);
      var lpm := scan.lpm;
      IntervalsProper(f, |f|);

      var n := |lpm|;
      var period := Period(lpm);
      var life := FillLife(lpm, n, period);
      var peak := PeakPressure(lpm, life);
      regsCount := peak;

      table := Schedule(lpm, period, peak);
      FilledIsAllocation(lpm, table, Rows(), peak);
      return true;
    }
  }

  /** Walk the points in order: open intervals, record the column, close intervals. */
  method Schedule(lpm: Intervals, period: nat, regs: nat) returns (table: array2<int>)
    requires Dense(lpm) && Proper(lpm) && IsPeriod(lpm, period) && IsPeak(lpm, period, regs)
    ensures fresh(table) && table.Length0 == |lpm| && table.Length1 == period
    ensures Filled(lpm, table, period, regs)
  {
    hide Ready, Filled, Dense, Proper, IsPeriod;
    var n := |lpm|;
    var using := new bool[if regs < 1 then 1 else regs](_ => false);
    var vec := new int[n](_ => -1);
    table := new int[n, period];
    var point := 0;
    ReadyAtStart(lpm, table, vec, using, regs);
    while point != period
      invariant 0 <= point <= period
      invariant Ready(lpm, table, point, vec, using, regs)
    {
      SchedulePoint(lpm, table, point, vec, using, regs);
      point := point + 1;
    }
    PoolIsWhole(lpm, table, vec, using, regs);
  }

  lemma ReadyAtStart(lpm: Intervals, table: array2<int>, vec: array<int>, using: array<bool>, regs: nat)
    requires table.Length0 == |lpm| == vec.Length
    requires (forall v :: 0 <= v < vec.Length ==> vec[v] == -1) && forall r :: 0 <= r < using.Length ==> !using[r]
    ensures Ready(lpm, table, 0, vec, using, regs)
  {
  }

  /** At the end the table is filled, and every register is back in the pool. */
  lemma PoolIsWhole(lpm: Intervals, table: array2<int>, vec: array<int>, using: array<bool>, regs: nat)
    requires table.Length0 == |lpm| == vec.Length && IsPeriod(lpm, table.Length1)
    requires Ready(lpm, table, table.Length1, vec, using, regs)
    ensures Filled(lpm, table, table.Length1, regs) && forall r :: 0 <= r < using.Length ==> !using[r]
  {
    hide Filled, Continued;
    assert LiveBefore(lpm, table.Length1) == {};
    assert using[..] == using[..using.Length];
  }

  /** The state between two points of the walk. */
  ghost predicate Ready(lpm: Intervals, table: array2<int>, point: nat, vec: array<int>, using: array<bool>, regs: nat)
    requires point <= table.Length1 && table.Length0 == |lpm| == vec.Length
    reads table, vec, using
  {
    && Held(LiveBefore(lpm, point), vec[..], using[..])
    && Filled(lpm, table, point, regs)
    && Continued(lpm, table, point, LiveBefore(lpm, point), vec)
  }

  method SchedulePoint(lpm: Intervals, table: array2<int>, point: nat, vec: array<int>, using: array<bool>, regs: nat)
    requires Dense(lpm) && Proper(lpm) && |LiveAt(lpm, point)| <= regs
    requires table.Length0 == |lpm| == vec.Length && point < table.Length1
    requires using.Length == (if regs < 1 then 1 else regs) && vec != using as object
    requires Ready(lpm, table, point, vec, using, regs)
    modifies table, vec, using
    ensures Ready(lpm, table, point + 1, vec, using, regs)
  {
    var ok := OpenIntervals(lpm, point, vec, using);
    assert ok;
    RecordColumn(lpm, table, point, vec, using, regs);
    ok := CloseIntervals(lpm, point, vec, using);
    assert ok;
  }

  /** The holders hold what the columns so far say they hold. */
  ghost predicate Continued(lpm: Intervals, table: array2<int>, points: nat, holders: set<nat>, vec: array<int>)
    requires points <= table.Length1 && table.Length0 == |lpm| == vec.Length
    reads table, vec
  {
    forall v, p | 0 <= v < |lpm| && 0 <= p < points ::
      v in holders && v in LiveAt(lpm, p) ==> vec[v] == table[v, p]
  }

  /** Copy the vector into the column of `point`. */
  method RecordColumn(lpm: Intervals, table: array2<int>, point: nat, vec: array<int>, using: array<bool>, regs: nat)
    requires table.Length0 == |lpm| == vec.Length && point < table.Length1
    requires Held(LiveAt(lpm, point), vec[..], using[..]) && using.Length == (if regs < 1 then 1 else regs)
    requires |LiveAt(lpm, point)| <= regs
    requires Filled(lpm, table, point, regs)
    requires Continued(lpm, table, point, LiveBefore(lpm, point), vec)
    modifies table
    ensures Filled(lpm, table, point + 1, regs)
    ensures Continued(lpm, table, point + 1, LiveBefore(lpm, point + 1), vec)
  {
    var i := 0;
    while i != vec.Length
      invariant 0 <= i <= vec.Length
      invariant forall v, p :: 0 <= v < table.Length0 && 0 <= p < table.Length1 && (p != point || i <= v) ==>
        table[v, p] == old(table[v, p])
      invariant forall v :: 0 <= v < i ==> table[v, point] == vec[v]
    {
      table[i, point] := vec[i];
      i := i + 1;
    }
    HeldInRange(LiveAt(lpm, point), vec[..], using[..], regs);
  }

  lemma HeldInRange(holders: set<nat>, vec: seq<int>, using: seq<bool>, regs: nat)
    requires Held(holders, vec, using)
    requires |using| == (if regs < 1 then 1 else regs) && |holders| <= regs
    ensures forall v :: v in holders ==> 0 <= vec[v] < regs
  {
    if regs == 0 { assert holders == {}; }
  }

  lemma FilledIsAllocation(lpm: Intervals, table: array2<int>, rows: Table, regs: nat)
    requires table.Length0 == |lpm| && Filled(lpm, table, table.Length1, regs)
    requires Shaped(rows, table.Length0, table.Length1)
    requires forall v, p :: 0 <= v < table.Length0 && 0 <= p < table.Length1 ==> rows[v][p] == table[v, p]
    ensures Allocation(lpm, rows, table.Length1, regs)
  {
  }

  /** The first `points` columns of the matrix are an allocation. */
  ghost predicate Filled(lpm: Intervals, table: array2<int>, points: nat, regs: nat)
    requires points <= table.Length1 && table.Length0 == |lpm|
    reads table
  {
    && (forall v, p :: 0 <= v < |lpm| && 0 <= p < points ==>
         if v in LiveAt(lpm, p) then 0 <= table[v, p] < regs else table[v, p] == -1)
    && (forall v, w, p | 0 <= v < |lpm| && 0 <= w < |lpm| && v != w && 0 <= p < points ::
          v in LiveAt(lpm, p) && w in LiveAt(lpm, p) ==> table[v, p] != table[w, p])
    && (forall v, p, q | 0 <= v < |lpm| && 0 <= p < points && 0 <= q < points ::
          v in LiveAt(lpm, p) && v in LiveAt(lpm, q) ==> table[v, p] == table[v, q])
  }
}
