/** Register allocation preserves meaning: a run on temporaries and the run of
    the same items on the registers found at (temporary, point) stay in step.
  */
module RegAllocSim {
  import opened Ir
  import opened Correspond
  import opened LifeInterval
  import opened RegAlloc

  /** `xjs_regsched_alloc` followed by the cast to an eight-bit register. */
  function RegisterAt(table: Table, v: nat, point: nat): nat {
    if v < |table| && point < |table[v]| then table[v][point] % 256 else 255
  }

  /** The items of `f` on registers. */
  function OnRegisters<N>(f: seq<Item<N>>, table: Table): (g: seq<Item<N>>)
    ensures |g| == |f|
    ensures forall p :: 0 <= p < |f| ==> g[p] == MapItem((v: nat) => RegisterAt(table, v, p), f[p])
  {
    seq(|f|, p requires 0 <= p < |f| => MapItem((v: nat) => RegisterAt(table, v, p), f[p]))
  }

  // ----- the hypothesis -----

  /** After `i` steps, `v` waits to be read by step `j`. */
  ghost predicate Awaited<N>(rt: Runtime<N>, f: seq<Item<N>>, world: World, i: nat, j: nat, v: nat) {
    && Reads(rt, f, After(rt, f, world, j), v)
    && forall k :: i <= k < j ==> WritesAt(f, After(rt, f, world, k)) != Some(v)
  }

  /** While a temporary waits to be read, nothing is written at a point before its
      first mention. */
  ghost predicate MentionedInTime<N>(rt: Runtime<N>, f: seq<Item<N>>, lpm: Intervals, world: World) {
    forall i, j, v | 0 <= i < j && v in lpm && Awaited(rt, f, world, i, j, v) ::
      WritesAt(f, After(rt, f, world, i)).Some? ==> lpm[v].start <= After(rt, f, world, i).pc
  }

  // ----- the simulation -----

  /** The temporaries a write before their first mention has made unreliable. */
  ghost function Stale<N>(rt: Runtime<N>, f: seq<Item<N>>, lpm: Intervals, world: World, n: nat): set<nat> {
    if n == 0 then {} else StaleStep(f, lpm, After(rt, f, world, n - 1), Stale(rt, f, lpm, world, n - 1))
  }

  function StaleStep<N>(f: seq<Item<N>>, lpm: Intervals, s: State, stale: set<nat>): set<nat> {
    var w := WritesAt(f, s);
    if w.None? then stale else stale + (set v | v in lpm && s.pc < lpm[v].start) - {w.value}
  }

  lemma {:induction false} StaleSince<N>(rt: Runtime<N>, f: seq<Item<N>>, lpm: Intervals, world: World, n: nat, v: nat)
    returns (i: nat)
    requires v in Stale(rt, f, lpm, world, n)
    ensures i < n && v in lpm
    ensures WritesAt(f, After(rt, f, world, i)).Some? && After(rt, f, world, i).pc < lpm[v].start
    ensures forall k :: i <= k < n ==> WritesAt(f, After(rt, f, world, k)) != Some(v)
  {
    if v in Stale(rt, f, lpm, world, n - 1) {
      i := StaleSince(rt, f, lpm, world, n - 1, v);
    } else {
      i := n - 1;
    }
  }

  lemma NeverReadsStale<N>(rt: Runtime<N>, f: seq<Item<N>>, lpm: Intervals, world: World, n: nat, v: nat)
    requires MentionedInTime(rt, f, lpm, world)
    requires Reads(rt, f, After(rt, f, world, n), v)
    ensures v !in Stale(rt, f, lpm, world, n)
  {
    if v in Stale(rt, f, lpm, world, n) {
      var i := StaleSince(rt, f, lpm, world, n, v);
      assert Awaited(rt, f, world, i, n, v);
      assert false;
    }
  }

  lemma ReadsFresh<N>(rt: Runtime<N>, f: seq<Item<N>>, lpm: Intervals, world: World, n: nat)
    requires MentionedInTime(rt, f, lpm, world)
    ensures forall v :: Reads(rt, f, After(rt, f, world, n), v) ==> v !in Stale(rt, f, lpm, world, n)
  {
    forall v | Reads(rt, f, After(rt, f, world, n), v) ensures v !in Stale(rt, f, lpm, world, n) {
      NeverReadsStale(rt, f, lpm, world, n, v);
    }
  }

  /** A function together with its intervals and its allocation. */
  ghost predicate Scheduled<N>(f: seq<Item<N>>, lpm: Intervals, table: Table, period: nat, regs: nat) {
    && Scanned(f, lpm)
    && Allocated(lpm, table, period, regs)
  }

  ghost predicate Scanned<N>(f: seq<Item<N>>, lpm: Intervals) {
    && Opens(MentionTable(f), |f|, lpm)
    && Covers(MentionTable(f), |f|, lpm)
    && Guards(f, |f|, lpm)
  }

  ghost predicate Allocated(lpm: Intervals, table: Table, period: nat, regs: nat) {
    && Dense(lpm) && IsPeriod(lpm, period)
    && Allocation(lpm, table, period, regs)
    && regs <= 256
  }

  function Home(lpm: Intervals, table: Table, v: nat): nat
    requires v in lpm
  {
    RegisterAt(table, v, lpm[v].start)
  }

  /** Registers agree with temporaries on everything reliable that can still be
      reached. */
  ghost predicate Agree<N>(rt: Runtime<N>, lpm: Intervals, table: Table, stale: set<nat>, s: State, t: State) {
    && s == t.(temps := s.temps)
    && forall v :: v in lpm && v !in stale && s.pc <= lpm[v].end ==>
         Get(rt, s.temps, v) == Get(rt, t.temps, Home(lpm, table, v))
  }

  lemma HomeAt(lpm: Intervals, table: Table, period: nat, regs: nat, v: nat, p: nat)
    requires Allocated(lpm, table, period, regs)
    requires v in LiveAt(lpm, p)
    ensures RegisterAt(table, v, p) == Home(lpm, table, v) == table[v][p]
  {
    assert v in LiveAt(lpm, lpm[v].start);
  }

  lemma HomesApart(lpm: Intervals, table: Table, period: nat, regs: nat, v: nat, w: nat, p: nat)
    requires Allocated(lpm, table, period, regs)
    requires v in LiveAt(lpm, p) && w in LiveAt(lpm, p) && v != w
    ensures Home(lpm, table, v) != Home(lpm, table, w)
  {
    HomeAt(lpm, table, period, regs, v, p);
    HomeAt(lpm, table, period, regs, w, p);
  }

  lemma MentionedAlive<N>(f: seq<Item<N>>, lpm: Intervals, p: nat, v: nat)
    requires p < |f| && v in Mentions(f[p])
    requires Scanned(f, lpm)
    ensures v in LiveAt(lpm, p)
  {
    assert Names(MentionTable(f), p, v);
  }

  /** Control that is above the end of an interval does not come back to it. */
  lemma NoReturn<N>(rt: Runtime<N>, f: seq<Item<N>>, lpm: Intervals, s: State, v: nat)
    requires Scanned(f, lpm)
    requires v in lpm && Step(rt, f, s).pc <= lpm[v].end
    ensures s.pc <= lpm[v].end
  {
    var q := Step(rt, f, s).pc;
    if Executes(f, s) && Jumps(f, s.pc) {
      assert Guarded(s.pc, Dest(f, s.pc), lpm[v]);
      LabelPointsSound(f, BranchTarget(f[s.pc]).value);
    }
  }

  /** One step on registers beside one step on temporaries. */
  lemma StepOnRegisters<N>(rt: Runtime<N>, f: seq<Item<N>>, lpm: Intervals, table: Table, period: nat, regs: nat,
                           stale: set<nat>, s: State, t: State)
    requires Scheduled(f, lpm, table, period, regs)
    requires Agree(rt, lpm, table, stale, s, t)
    requires forall v :: Reads(rt, f, s, v) ==> v !in stale
    ensures var s', t' := Step(rt, f, s), Step(rt, OnRegisters(f, table), t);
      && s' == t'.(temps := s'.temps)
      && var w := WritesAt(f, s);
         if w.None? then s'.temps == s.temps && t'.temps == t.temps
         else
           && w.value in LiveAt(lpm, s.pc)
           && var value := Written(rt, f[s.pc], s).0;
              s'.temps == s.temps[w.value := value] && t'.temps == t.temps[Home(lpm, table, w.value) := value]
  {
    var g := OnRegisters(f, table);
    ReadsMentioned(rt, f, s);
    forall v | Reads(rt, f, s, v)
      ensures Get(rt, s.temps, v) == Get(rt, t.temps, RegisterAt(table, v, s.pc))
    {
      MentionedAlive(f, lpm, s.pc, v);
      HomeAt(lpm, table, period, regs, v, s.pc);
    }
    SameLabelPoints(f, g);
    StepTogether(rt, f, g, (v: nat) => RegisterAt(table, v, s.pc), (l: nat) => l, s, t);
    var w := WritesAt(f, s);
    if w.Some? {
      MentionedAlive(f, lpm, s.pc, w.value);
      HomeAt(lpm, table, period, regs, w.value, s.pc);
    }
  }

  /** Control does not enter an interval from above its end. */
  ghost predicate StaysBelow(lpm: Intervals, from: nat, to: nat) {
    forall v :: v in lpm && to <= lpm[v].end ==> from <= lpm[v].end
  }

  lemma NoReturns<N>(rt: Runtime<N>, f: seq<Item<N>>, lpm: Intervals, s: State)
    requires Scanned(f, lpm)
    ensures StaysBelow(lpm, s.pc, Step(rt, f, s).pc)
  {
    var q := Step(rt, f, s).pc;
    forall v | v in lpm && q <= lpm[v].end ensures s.pc <= lpm[v].end {
      NoReturn(rt, f, lpm, s, v);
    }
  }

  lemma AgreeWithoutWrite<N>(rt: Runtime<N>, lpm: Intervals, table: Table, stale: set<nat>, s: State, t: State,
      s': State, t': State)
    requires Agree(rt, lpm, table, stale, s, t) && StaysBelow(lpm, s.pc, s'.pc)
    requires s' == t'.(temps := s'.temps) && s'.temps == s.temps && t'.temps == t.temps
    ensures Agree(rt, lpm, table, stale, s', t')
  {
  }

  lemma AgreeAfterWrite<N>(rt: Runtime<N>, lpm: Intervals, table: Table, period: nat, regs: nat, stale: set<nat>,
                           s: State, t: State, s': State, t': State, w: nat, value: Value)
    requires Allocated(lpm, table, period, regs)
    requires Agree(rt, lpm, table, stale, s, t) && StaysBelow(lpm, s.pc, s'.pc)
    requires w in LiveAt(lpm, s.pc)
    requires s' == t'.(temps := s'.temps)
    requires s'.temps == s.temps[w := value] && t'.temps == t.temps[Home(lpm, table, w) := value]
    ensures Agree(rt, lpm, table, stale + (set v | v in lpm && s.pc < lpm[v].start) - {w}, s', t')
  {
    var stale' := stale + (set v | v in lpm && s.pc < lpm[v].start) - {w};
    forall v | v in lpm && v !in stale' && s'.pc <= lpm[v].end
      ensures Get(rt, s'.temps, v) == Get(rt, t'.temps, Home(lpm, table, v))
    {
      if v != w {
        assert v in LiveAt(lpm, s.pc);
        HomesApart(lpm, table, period, regs, v, w, s.pc);
      }
    }
  }

  lemma AgreeStep<N>(rt: Runtime<N>, f: seq<Item<N>>, lpm: Intervals, table: Table, period: nat, regs: nat,
                     stale: set<nat>, s: State, t: State)
    requires Scheduled(f, lpm, table, period, regs)
    requires Agree(rt, lpm, table, stale, s, t)
    requires forall v :: Reads(rt, f, s, v) ==> v !in stale
    ensures Agree(rt, lpm, table, StaleStep(f, lpm, s, stale), Step(rt, f, s), Step(rt, OnRegisters(f, table), t))
  {
    var s', t' := Step(rt, f, s), Step(rt, OnRegisters(f, table), t);
    StepOnRegisters(rt, f, lpm, table, period, regs, stale, s, t);
    NoReturns(rt, f, lpm, s);
    var w := WritesAt(f, s);
    if w.None? {
      AgreeWithoutWrite(rt, lpm, table, stale, s, t, s', t');
    } else {
      AgreeAfterWrite(rt, lpm, table, period, regs, stale, s, t, s', t', w.value, Written(rt, f[s.pc], s).0);
    }
  }

  ghost predicate AgreeAfter<N>(rt: Runtime<N>, f: seq<Item<N>>, lpm: Intervals, table: Table, world: World, n: nat) {
    Agree(rt, lpm, table, Stale(rt, f, lpm, world, n), After(rt, f, world, n),
        After(rt, OnRegisters(f, table), world, n))
  }

  lemma AgreeNext<N>(rt: Runtime<N>, f: seq<Item<N>>, lpm: Intervals, table: Table, period: nat, regs: nat,
      world: World, n: nat)
    requires Scheduled(f, lpm, table, period, regs)
    requires MentionedInTime(rt, f, lpm, world)
    requires AgreeAfter(rt, f, lpm, table, world, n)
    ensures AgreeAfter(rt, f, lpm, table, world, n + 1)
  {
    ReadsFresh(rt, f, lpm, world, n);
    AgreeStep(rt, f, lpm, table, period, regs, Stale(rt, f, lpm, world, n),
      After(rt, f, world, n), After(rt, OnRegisters(f, table), world, n));
    AfterStep(rt, f, world, n);
    AfterStep(rt, OnRegisters(f, table), world, n);
  }

  lemma {:induction false} RunsAgree<N>(rt: Runtime<N>, f: seq<Item<N>>, lpm: Intervals, table: Table, period: nat,
                                        regs: nat, world: World, n: nat)
    requires Scheduled(f, lpm, table, period, regs)
    requires MentionedInTime(rt, f, lpm, world)
    ensures AgreeAfter(rt, f, lpm, table, world, n)
  {
    hide Scheduled, MentionedInTime;
    if n > 0 {
      RunsAgree(rt, f, lpm, table, period, regs, world, n - 1);
      AgreeNext(rt, f, lpm, table, period, regs, world, n - 1);
    }
  }

  /** What `SetR1` leaves is a schedule of the whole function. */
  lemma AllocationIsSchedule<N>(f: seq<Item<N>>, table: Table, period: nat, regs: nat)
    requires LabelsDefined(f)
    requires Dense(IntervalsUpTo(f, |f|).0) && IsPeriod(IntervalsUpTo(f, |f|).0, period)
    requires Allocation(IntervalsUpTo(f, |f|).0, table, period, regs) && regs <= 256
    ensures Scheduled(f, IntervalsUpTo(f, |f|).0, table, period, regs)
  {
    ScanCompletes(f, |f|);
    IntervalsClosed(f, |f|);
  }

  /** Register allocation preserves meaning. */
  lemma AllocationPreservesMeaning<N>(rt: Runtime<N>, f: seq<Item<N>>, table: Table, period: nat, regs: nat,
                                      world: World, n: nat)
    requires LabelsDefined(f)
    requires Dense(IntervalsUpTo(f, |f|).0) && IsPeriod(IntervalsUpTo(f, |f|).0, period)
    requires Allocation(IntervalsUpTo(f, |f|).0, table, period, regs) && regs <= 256
    requires MentionedInTime(rt, f, IntervalsUpTo(f, |f|).0, world)
    ensures var s, t := After(rt, f, world, n), After(rt, OnRegisters(f, table), world, n);
      s.pc == t.pc && Observe(s) == Observe(t)
  {
    AllocationIsSchedule(f, table, period, regs);
    RunsAgree(rt, f, IntervalsUpTo(f, |f|).0, table, period, regs, world, n);
  }

  // ----- why the hypothesis is there -----

  /** Temporary 1 is read and never written. */
  function ReadsUnwritten<N>(name: N): seq<Item<N>> { [Do(Load(0, name)), Inspect(0), Inspect(1), Halt] }

  function Loads<N>(loaded: Value, undefined: Value): Runtime<N> {
    Runtime(undefined, (op: Op<N>, args: seq<Value>, w: World) => (loaded, w), (v: Value) => true)
  }

  lemma OneMention<N>(f: seq<Item<N>>, k: nat, v: nat)
    requires k < |f| && Mentions(f[k]) == [v] && BranchTarget(f[k]).None? && IntervalsUpTo(f, k).1
    ensures IntervalsUpTo(f, k + 1) == (Update(IntervalsUpTo(f, k).0, k, v), true)
  {
    var here := IntervalsUpTo(f, k).0;
    assert [v][1..] == [] && UpdateAll(Update(here, k, v), k, []) == Update(here, k, v);
    assert UpdateAll(here, k, [v]) == Update(here, k, v);
  }

  lemma UnwrittenIntervals<N>(name: N)
    ensures IntervalsUpTo(ReadsUnwritten(name), 4).0 == map[0 := Interval(0, 1), 1 := Interval(2, 2)]
  {
    var f := ReadsUnwritten(name);
    OneMention(f, 0, 0);
    OneMention(f, 1, 0);
    OneMention(f, 2, 1);
    assert IntervalsUpTo(f, 3).0 == map[0 := Interval(0, 1), 1 := Interval(2, 2)];
    assert Mentions(f[3]) == [] && UpdateAll(IntervalsUpTo(f, 3).0, 3, []) == IntervalsUpTo(f, 3).0;
  }

  lemma UnwrittenRegisters(lpm: Intervals, table: Table)
    requires lpm == map[0 := Interval(0, 1), 1 := Interval(2, 2)] && Allocation(lpm, table, 3, 1)
    ensures RegisterAt(table, 0, 0) == RegisterAt(table, 0, 1) == RegisterAt(table, 1, 2) == 0
    ensures IsPeak(lpm, 3, 1)
  {
    assert LiveAt(lpm, 0) == {0} && LiveAt(lpm, 1) == {0} && LiveAt(lpm, 2) == {1};
    assert |lpm| == 2 by { assert lpm.Keys == {0, 1}; }
    assert table[0][0] == 0 && table[0][1] == 0 && table[1][2] == 0;
  }

  lemma TracesOf<N>(name: N, loaded: Value, undefined: Value, world: World)
    ensures var rt := Loads(loaded, undefined);
      && After(rt, ReadsUnwritten(name), world, 4).trace == [loaded, undefined]
      && After(rt, [Do(Load(0, name)), Inspect(0), Inspect(0), Halt], world, 4).trace == [loaded, loaded]
  {
    FourSteps(Loads(loaded, undefined), ReadsUnwritten(name), Start(world));
    FourSteps(Loads(loaded, undefined), [Do(Load(0, name)), Inspect(0), Inspect(0), Halt], Start(world));
  }

  /** Without the hypothesis meaning is lost: the two temporaries share the one register,
      and what is inspected second is what was loaded, not the undefined value. */
  lemma UnwrittenIsLost<N>(name: N, loaded: Value, undefined: Value, world: World, table: Table)
    requires Allocation(IntervalsUpTo(ReadsUnwritten(name), 4).0, table, 3, 1)
    ensures IsPeak(IntervalsUpTo(ReadsUnwritten(name), 4).0, 3, 1)
    ensures After(Loads(loaded, undefined), ReadsUnwritten(name), world, 4).trace == [loaded, undefined]
    ensures After(Loads(loaded, undefined), OnRegisters(ReadsUnwritten(name), table), world, 4).trace == [loaded,
        loaded]
  {
    hide Allocation, IsPeak, IntervalsUpTo, After, RegisterAt;
    UnwrittenIntervals(name);
    UnwrittenRegisters(IntervalsUpTo(ReadsUnwritten(name), 4).0, table);
    assert OnRegisters(ReadsUnwritten(name), table) == [Do(Load(0, name)), Inspect(0), Inspect(0), Halt];
    TracesOf(name, loaded, undefined, world);
  }

  lemma FourSteps<N>(rt: Runtime<N>, f: seq<Item<N>>, s: State)
    ensures Run(rt, f, 4, s) == Step(rt, f, Step(rt, f, Step(rt, f, Step(rt, f, s))))
  {
    RunStep(rt, f, 3, s);
    RunStep(rt, f, 2, s);
    RunStep(rt, f, 1, s);
    RunStep(rt, f, 0, s);
  }
}
