/** From scoped graphs to what the register allocator asks of a list of items: while
    a temporary waits to be read, nothing is written before its first mention.
  */
module InTime {
  import opened Ir
  import opened Correspond
  import Cfg
  import opened LifeInterval
  import opened RegAllocSim
  import Rename
  import opened Layout
  import opened Linear
  import opened Recode
  import opened Texts
  import opened Generate
  import opened C2
  import opened Scope

  /** Some item up to `q` mentions `v`. */
  ghost predicate MentionedBy<N>(f: seq<Item<N>>, v: nat, q: nat) {
    exists a: nat :: a <= q && a < |f| && v in Mentions(f[a])
  }

  /** While `v` waits to be read, whatever is written is written after a mention of `v`. */
  ghost predicate WritesInTime<N>(rt: Runtime<N>, f: seq<Item<N>>, world: World) {
    forall i: nat, j: nat, v: nat ::
      i < j && Awaited(rt, f, world, i, j, v) && WritesAt(f, After(rt, f, world, i)).Some?
      ==> MentionedBy(f, v, After(rt, f, world, i).pc)
  }

  /** That is what the allocator asks. */
  lemma InTimeForAllocator<N>(rt: Runtime<N>, f: seq<Item<N>>, world: World)
    requires WritesInTime(rt, f, world) && LabelsDefined(f)
    ensures MentionedInTime(rt, f, IntervalsUpTo(f, |f|).0, world)
  {
    var lpm := IntervalsUpTo(f, |f|).0;
    ScanCompletes(f, |f|);
    IntervalsClosed(f, |f|);
    forall i, j, v | 0 <= i < j && v in lpm && Awaited(rt, f, world, i, j, v) &&
        WritesAt(f, After(rt, f, world, i)).Some?
      ensures lpm[v].start <= After(rt, f, world, i).pc
    {
      assert MentionedBy(f, v, After(rt, f, world, i).pc);
      var a: nat :| a <= After(rt, f, world, i).pc && a < |f| && v in Mentions(f[a]);
      assert Names(MentionTable(f), a, v);
    }
  }

  // ----- the item that executes a node -----

  /** The item at `t.pc` executes the node of `c`, or is a label or the second branch
      of a pair. */
  ghost predicate Settled(rt: Runtime<Cfg.Text>, p: Plan, c: Cfg.Place, t: State)
    requires Planned(p) && Sim(rt, p, c, t) && c.s.status.Running?
  {
    var k := PlaceOf(p, c);
    || AtLabel(p, c, t, k) || BetweenBranches(rt, p, c, t, k)
    || (t.pc == At(p, k, c.s.pc) && !(BlockAt(p, k)[c.s.pc].Jump? && p.row.cancelled[k]))
  }

  /** Go past cancelled jumps. */
  lemma {:induction false} Settle(rt: Runtime<Cfg.Text>, p: Plan, c: Cfg.Place, t: State) returns (n: nat)
    requires Planned(p) && Sim(rt, p, c, t) && c.s.status.Running?
    ensures var c' := Cfg.Run(rt, p.g, n, c);
      Sim(rt, p, c', t) && c'.s.status.Running? && Settled(rt, p, c', t)
    ensures forall k: nat :: k < n ==> Cfg.StepWrites(p.g, Cfg.Run(rt, p.g, k, c)).None?
    decreases if c.block in p.row.order then |p.row.order| - PlaceOf(p, c) else 0
  {
    hide Sim, Items, Planned, EmitRow;
    PlannedIsShaped(p);
    var k := SimFacts(rt, p, c, t);
    CfgRunStep(rt, p.g, c, 0);
    if t.pc == At(p, k, c.s.pc) && BlockAt(p, k)[c.s.pc].Jump? && p.row.cancelled[k] && !AtLabel(p, c, t, k) {
      ControlWritesNothing(p.g, c);
      InPlaceStep(rt, p, c, t, k);
      var m := Settle(rt, p, Cfg.Step(rt, p.g, c), t);
      CfgRunStep(rt, p.g, c, m);
      n := m + 1;
      forall i: nat | i < n ensures Cfg.StepWrites(p.g, Cfg.Run(rt, p.g, i, c)).None? {
        if i > 0 { CfgRunStep(rt, p.g, c, i - 1); }
      }
    } else {
      n := 0;
    }
  }

  /** A label writes nothing, nor does the second branch of a pair. */
  lemma ControlItemsWriteNothing(rt: Runtime<Cfg.Text>, p: Plan, c: Cfg.Place, t: State, k: nat)
    requires WellShaped(p) && k < |p.row.order| && c.s.pc < |BlockAt(p, k)|
    requires AtLabel(p, c, t, k) || BetweenBranches(rt, p, c, t, k)
    ensures WritesAt(Items(p), t).None?
  {
    hide Items, EmitRow, EmitBlock, EmitNodes, At, Offset, WellShaped, BlockAt;
    if AtLabel(p, c, t, k) {
      LabelPlace(p, k);
    } else {
      NodeItem(p, k, c.s.pc, 1);
    }
  }

  /** An item that writes is emitted for a plain node. */
  lemma WritersArePlain(p: Plan, t: State, k: nat, i: nat)
    requires WellShaped(p) && k < |p.row.order| && i < |BlockAt(p, k)|
    requires t.pc == At(p, k, i) && !(BlockAt(p, k)[i].Jump? && p.row.cancelled[k])
    requires WritesAt(Items(p), t).Some?
    ensures BlockAt(p, k)[i].Plain?
  {
    hide Items, EmitRow, EmitBlock, EmitNodes, At, Offset, WellShaped, BlockAt, MapItem;
    NodeItem(p, k, i, 0);
  }

  /** What the list writes at a settled place, the graph writes. */
  lemma SettledWrites(rt: Runtime<Cfg.Text>, p: Plan, c: Cfg.Place, t: State)
    requires Planned(p) && Sim(rt, p, c, t) && c.s.status.Running? && Settled(rt, p, c, t)
    requires WellShaped(p) && WritesAt(Items(p), t).Some?
    ensures var k := PlaceOf(p, c);
      && t.pc == At(p, k, c.s.pc) && BlockAt(p, k)[c.s.pc].Plain?
      && Cfg.StepWrites(p.g, c).Some? && WritesAt(Items(p), t) == Some(Var(p, Cfg.StepWrites(p.g, c).value))
  {
    hide Items, At, Offset, Sim, Planned, WellShaped, Cfg.StepWrites, WritesAt, AtLabel, BetweenBranches, BlockAt;
    var k := SimFacts(rt, p, c, t);
    if AtLabel(p, c, t, k) || BetweenBranches(rt, p, c, t, k) {
      ControlItemsWriteNothing(rt, p, c, t, k);
      assert false;
    } else {
      WritersArePlain(p, t, k, c.s.pc);
      PlainWrites(rt, p, c, t, k);
    }
  }

  /** A label reads nothing, nor does the second branch of a pair. */
  lemma ControlItemsReadNothing(rt: Runtime<Cfg.Text>, p: Plan, c: Cfg.Place, t: State, k: nat, v: nat)
    requires WellShaped(p) && k < |p.row.order| && c.s.pc < |BlockAt(p, k)|
    requires AtLabel(p, c, t, k) || BetweenBranches(rt, p, c, t, k)
    ensures !Reads(rt, Items(p), t, v)
  {
    hide Items, EmitRow, EmitBlock, EmitNodes, At, Offset, WellShaped, BlockAt;
    if AtLabel(p, c, t, k) {
      LabelPlace(p, k);
    } else {
      NodeItem(p, k, c.s.pc, 1);
    }
  }

  /** What the list reads at a node that is not cancelled, the node reads. */
  lemma NodeReadsBack(rt: Runtime<Cfg.Text>, p: Plan, t: State, k: nat, i: nat, s: Temps, v: nat) returns (w: nat)
    requires WellShaped(p) && k < |p.row.order| && i < |BlockAt(p, k)|
    requires t.pc == At(p, k, i) && !(BlockAt(p, k)[i].Jump? && p.row.cancelled[k])
    requires TempsAgree(rt, p.vars, s, t.temps) && NamesAll(p.vars, BlockAt(p, k)[i]) && Cfg.Finished(BlockAt(p, k))
    requires Reads(rt, Items(p), t, v)
    ensures w in p.vars && v == Var(p, w)
    ensures match BlockAt(p, k)[i]
            case Plain(item) => w in ReadsNow(rt, item, s)
            case Jump(_) => false
            case Branch(x, _, _) => w == x
  {
    hide Items, EmitRow, EmitBlock, EmitNodes, At, Offset, WellShaped, BlockAt, MapItem, TempsAgree, ReadsNow, OneToOne;
    NodeItem(p, k, i, 0);
    match BlockAt(p, k)[i] {
      case Plain(item) =>
        MentionedAreNamed(p, item);
        w := MappedReads(rt, p, item, s, t.temps, v);
      case Branch(x, l, _) =>
        BranchReads(rt, Var(p, x), LabelOf(p, l), t.temps, v);
        w := x;
        assert x in Cfg.NodeMentions(BlockAt(p, k)[i]);
      case Jump(d) =>
        BranchReads(rt, 0, LabelOf(p, d), t.temps, v);
        assert false;
    }
  }

  lemma BranchReads(rt: Runtime<Cfg.Text>, x: nat, l: nat, temps: Temps, v: nat)
    ensures v in ReadsNow(rt, BrCond(x, l), temps) ==> v == x
    ensures v !in ReadsNow(rt, Br(l), temps)
  {
  }

  lemma MentionedAreNamed(p: Plan, item: Item<Cfg.Text>)
    requires NamesAll(p.vars, Cfg.Plain(item))
    ensures forall x :: x in Mentions(item) ==> x in p.vars
  {
  }

  lemma SettledReads(rt: Runtime<Cfg.Text>, p: Plan, c: Cfg.Place, t: State, v: nat) returns (w: nat)
    requires Planned(p) && Sim(rt, p, c, t) && c.s.status.Running? && Settled(rt, p, c, t)
    requires WellShaped(p) && Reads(rt, Items(p), t, v)
    ensures StepReads(rt, p.g, c, w) && w in p.vars && v == Var(p, w)
  {
    hide Items, At, Offset, Sim, Planned, WellShaped, AtLabel, BetweenBranches, BlockAt, Reads, TempsAgree, ReadsNow,
        NamesAll, Cfg.Finished, OneToOne;
    var k := SimFacts(rt, p, c, t);
    if AtLabel(p, c, t, k) || BetweenBranches(rt, p, c, t, k) {
      ControlItemsReadNothing(rt, p, c, t, k, v);
      assert false;
    } else {
      w := NodeReadsBack(rt, p, t, k, c.s.pc, c.s.temps, v);
    }
  }

  lemma MappedReads(rt: Runtime<Cfg.Text>, p: Plan, item: Item<Cfg.Text>, s: Temps, t: Temps, v: nat) returns (w: nat)
    requires TempsAgree(rt, p.vars, s, t) && forall x :: x in Mentions(item) ==> x in p.vars
    requires v in ReadsNow(rt, MapItem((x: nat) => Var(p, x), item), t)
    ensures w in ReadsNow(rt, item, s) && w in p.vars && v == Var(p, w)
  {
    ReadsAreMentioned(rt, item, s);
    match item
    case Inspect(x) => w := x;
    case Ret(x) => w := x;
    case BrCond(x, _) => w := x;
    case Merge(test, _, _, _) =>
      assert test in Mentions(item);
      w := if v == Var(p, test) then test else MergeSource(rt, item, s);
    case Do(op) =>
      MapOpUses((x: nat) => Var(p, x), op);
      var r := Ir.MapVars((x: nat) => Var(p, x), Uses(op));
      var i :| 0 <= i < |r| && r[i] == v;
      w := Uses(op)[i];
    case _ => assert false;
  }

  // ----- matching stretches of the two runs -----

  ghost predicate StretchWrites(rt: Runtime<Cfg.Text>, p: Plan, world: World, n: nat, n': nat, i: nat, j: nat)
    requires WellShaped(p)
  {
    forall k: nat :: n <= k < n' && Cfg.StepWrites(p.g, Cfg.After(rt, p.g, p.entry, world, k)).Some? ==>
      ListWrites(rt, p, world, i, j, Var(p, Cfg.StepWrites(p.g, Cfg.After(rt, p.g, p.entry, world, k)).value))
  }

  /** A step from `i` up to `j` of the list writes `v`. */
  ghost predicate ListWrites(rt: Runtime<Cfg.Text>, p: Plan, world: World, i: nat, j: nat, v: nat)
    requires WellShaped(p)
  {
    exists m: nat :: i <= m < j && WritesAt(Items(p), After(rt, Items(p), world, m)) == Some(v)
  }

  lemma StretchGrows(rt: Runtime<Cfg.Text>, p: Plan, world: World, n: nat, n1: nat, more: nat, i: nat, j: nat)
    requires WellShaped(p) && n <= n1 && i <= j && StretchWrites(rt, p, world, n, n1, i, j)
    requires WritesMatch(rt, p, Cfg.After(rt, p.g, p.entry, world, n1), more, After(rt, Items(p), world, j))
    ensures StretchWrites(rt, p, world, n, n1 + more, i, j + 1)
  {
    hide Items;
    forall k: nat | n <= k < n1 + more && Cfg.StepWrites(p.g, Cfg.After(rt, p.g, p.entry, world, k)).Some?
      ensures ListWrites(rt, p, world, i, j + 1, Var(p,
          Cfg.StepWrites(p.g, Cfg.After(rt, p.g, p.entry, world, k)).value))
    {
      var v := Var(p, Cfg.StepWrites(p.g, Cfg.After(rt, p.g, p.entry, world, k)).value);
      if k < n1 {
        assert ListWrites(rt, p, world, i, j, v);
      } else {
        GraphRuns(rt, p.g, p.entry, world, n1, k - n1);
        assert WritesAt(Items(p), After(rt, Items(p), world, j)) == Some(v);
      }
    }
  }

  lemma StretchBegins(rt: Runtime<Cfg.Text>, p: Plan, world: World, n: nat, i: nat)
    requires WellShaped(p)
    ensures StretchWrites(rt, p, world, n, n, i, i)
  {
  }

  lemma {:induction false} MatchFrom(rt: Runtime<Cfg.Text>, p: Plan, world: World, i: nat, n: nat, j: nat)
      returns (n': nat)
    requires Planned(p) && WellShaped(p) && Matched(rt, p, world, n, i) && i <= j
    ensures n <= n' && Matched(rt, p, world, n', j) && StretchWrites(rt, p, world, n, n', i, j)
    decreases j
  {
    hide *;
    if i == j {
      n' := n;
      StretchBegins(rt, p, world, n, i);
    } else {
      var k := MatchFrom(rt, p, world, i, n, j - 1);
      MatchedIsSim(rt, p, world, k, j - 1);
      var c, t := Cfg.After(rt, p.g, p.entry, world, k), After(rt, Items(p), world, j - 1);
      var more := ListStep(rt, p, c, t);
      GraphRuns(rt, p.g, p.entry, world, k, more);
      AfterStep(rt, Items(p), world, j - 1);
      n' := k + more;
      MatchedIsSim(rt, p, world, n', j);
      StretchGrows(rt, p, world, n, k, more, i, j - 1);
    }
  }

  lemma SimRuns(rt: Runtime<Cfg.Text>, p: Plan, c: Cfg.Place, t: State)
    requires WellShaped(p) && Sim(rt, p, c, t)
    ensures c.s.status == t.status
  {
  }

  /** The graph at a settled place that matches the list. */
  lemma SettledAt(rt: Runtime<Cfg.Text>, p: Plan, world: World, n: nat, i: nat) returns (n': nat)
    requires Planned(p) && WellShaped(p) && Matched(rt, p, world, n, i) && After(rt, Items(p), world, i).status.Running?
    ensures n <= n' && Matched(rt, p, world, n', i)
    ensures var c := Cfg.After(rt, p.g, p.entry, world, n');
      c.s.status.Running? && Sim(rt, p, c, After(rt, Items(p), world, i)) &&
          Settled(rt, p, c, After(rt, Items(p), world, i))
    ensures forall k: nat :: n <= k < n' ==> Cfg.StepWrites(p.g, Cfg.After(rt, p.g, p.entry, world, k)).None?
  {
    hide *;
    var c, t := Cfg.After(rt, p.g, p.entry, world, n), After(rt, Items(p), world, i);
    MatchedIsSim(rt, p, world, n, i);
    SimRuns(rt, p, c, t);
    var m := Settle(rt, p, c, t);
    GraphRuns(rt, p.g, p.entry, world, n, m);
    n' := n + m;
    MatchedIsSim(rt, p, world, n', i);
    forall k: nat | n <= k < n' ensures Cfg.StepWrites(p.g, Cfg.After(rt, p.g, p.entry, world, k)).None? {
      GraphRuns(rt, p.g, p.entry, world, n, k - n);
    }
  }

  // ----- where things are held -----

  lemma OffsetsGrow(p: Plan, h: nat, k: nat)
    requires WellShaped(p) && h <= k <= |p.row.order|
    ensures Offset(p, h) <= Offset(p, k)
  {
    RowIsPrefix(p, h, k);
  }

  lemma AtGrows(p: Plan, k: nat, i: nat, j: nat)
    requires WellShaped(p) && k < |p.row.order| && i <= j <= |BlockAt(p, k)|
    ensures Offset(p, k) <= At(p, k, i) <= At(p, k, j) <= Offset(p, k + 1)
  {
    hide EmitRow;
    var nodes := BlockAt(p, k);
    assert nodes[..j][..i] == nodes[..i];
    NodesArePrefix(p, p.row.cancelled[k], nodes[..j], i);
    NodesArePrefix(p, p.row.cancelled[k], nodes, j);
    BlockEnd(p, k);
    assert nodes[..|nodes|] == nodes;
  }

  /** The allocation of a temporary comes before every place where it is held. */
  lemma HeldIsMentioned(p: Plan, v: nat, l: Life, k: nat, i: nat)
    requires Planned(p) && WellShaped(p) && Lives(p.g, p.entry, v, l)
    requires k < |p.row.order| && i < |BlockAt(p, k)| && Held(l, p.row.order[k], i)
    ensures MentionedBy(Items(p), Var(p, v), At(p, k, i))
  {
    hide *;
    var h := HomePlaced(p, v, l, k, i);
    if h < k {
      AtGrows(p, h, l.at, l.at + 1);
      OffsetsGrow(p, h + 1, k);
      AtGrows(p, k, 0, i);
      AllocaBefore(p, v, h, l.at, At(p, k, i));
    } else {
      AtGrows(p, k, l.at, i);
      AllocaBefore(p, v, h, l.at, At(p, k, i));
    }
  }

  lemma HomePlaced(p: Plan, v: nat, l: Life, k: nat, i: nat) returns (h: nat)
    requires Planned(p) && WellShaped(p) && Lives(p.g, p.entry, v, l)
    requires k < |p.row.order| && i < |BlockAt(p, k)| && Held(l, p.row.order[k], i)
    ensures h <= k && (h == k ==> l.at <= i)
    ensures l.at < |BlockAt(p, h)| && BlockAt(p, h)[l.at] == Cfg.Plain(Alloca(v))
  {
    hide Named, Labelled, Cfg.Finished;
    h := k;
    if p.row.order[k] in l.zone {
      HomeFirst(p.g, p.entry, p.row.order, l, k);
      h :| 0 <= h < k && p.row.order[h] == l.home;
    }
  }

  /** An allocation stands in the list. */
  lemma AllocaBefore(p: Plan, v: nat, h: nat, i: nat, q: nat)
    requires WellShaped(p) && h < |p.row.order| && i < |BlockAt(p, h)| && BlockAt(p, h)[i] == Cfg.Plain(Alloca(v))
    requires At(p, h, i) <= q
    ensures MentionedBy(Items(p), Var(p, v), q)
  {
    hide Items, At;
    NodeItem(p, h, i, 0);
    assert Items(p)[At(p, h, i)] == Alloca(Var(p, v));
    assert Var(p, v) in Mentions(Items(p)[At(p, h, i)]);
  }

  // ----- the items of a scoped graph -----

  lemma ItemsInTime(rt: Runtime<Cfg.Text>, p: Plan, lives: map<nat, Life>, forks: map<nat, Fork>, world: World, i: nat,
      j: nat, v: nat)
    requires Planned(p) && WellShaped(p) && AllFinished(p.g) && Scoped(p.g, p.entry, lives, forks)
    requires i < j && Awaited(rt, Items(p), world, i, j, v) && WritesAt(Items(p), After(rt, Items(p), world, i)).Some?
    ensures MentionedBy(Items(p), v, After(rt, Items(p), world, i).pc)
  {
    hide *;
    var f := Items(p);
    AwaitedRuns(rt, f, world, i, j, v);
    var n0 := ListFollowsGraph(rt, p, world, i);
    var n := SettledAt(rt, p, world, n0, i);
    var c, t := Cfg.After(rt, p.g, p.entry, world, n), After(rt, f, world, i);
    SettledWrites(rt, p, c, t);
    var k := SimFacts(rt, p, c, t);
    PlainStep(rt, p, c, t, k);
    Cfg.AfterStep(rt, p.g, p.entry, world, n);
    AfterStep(rt, f, world, i);
    MatchedIsSim(rt, p, world, n + 1, i + 1);
    var m0 := MatchFrom(rt, p, world, i + 1, n + 1, j);
    var m := SettledAt(rt, p, world, m0, j);
    var w := SettledReads(rt, p, Cfg.After(rt, p.g, p.entry, world, m), After(rt, f, world, j), v);
    NotWrittenBetween(rt, p, world, i, j, n, m0, m, v, w);
    WrittenWhereHeld(rt, p.g, p.entry, lives, forks, world, n, m, w);
    HeldHereIsMentioned(rt, p, lives, forks, c, t, k, w);
  }

  lemma AwaitedRuns(rt: Runtime<Cfg.Text>, f: seq<Item<Cfg.Text>>, world: World, i: nat, j: nat, v: nat)
    requires Awaited(rt, f, world, i, j, v) && WritesAt(f, After(rt, f, world, i)).Some?
    ensures After(rt, f, world, i).status.Running? && After(rt, f, world, j).status.Running? &&
        Reads(rt, f, After(rt, f, world, j), v)
  {
  }

  lemma HeldHereIsMentioned(rt: Runtime<Cfg.Text>, p: Plan, lives: map<nat, Life>, forks: map<nat, Fork>, c: Cfg.Place,
      t: State, k: nat, w: nat)
    requires Planned(p) && WellShaped(p) && Scoped(p.g, p.entry, lives, forks) && w in lives && HeldHere(lives[w], c)
    requires k < |p.row.order| && p.row.order[k] == c.block && c.s.pc < |BlockAt(p, k)| && t.pc == At(p, k, c.s.pc)
    ensures MentionedBy(Items(p), Var(p, w), t.pc)
  {
    hide Items, Planned, At, MentionedBy, MergesAll, Lives;
    HeldIsMentioned(p, w, lives[w], k, c.s.pc);
  }

  /** A temporary the list does not write from `i` to `j`, the graph does not write. */
  lemma NotWrittenBetween(rt: Runtime<Cfg.Text>, p: Plan, world: World, i: nat, j: nat, n: nat, m0: nat, m: nat, v: nat,
      w: nat)
    requires WellShaped(p) && i < j && n < m0 <= m && v == Var(p, w)
    requires Awaited(rt, Items(p), world, i, j, v)
    requires StretchWrites(rt, p, world, n + 1, m0, i + 1, j)
    requires Cfg.StepWrites(p.g, Cfg.After(rt, p.g, p.entry, world, n)).Some?
    requires WritesAt(Items(p), After(rt, Items(p), world, i)) == Some(Var(p,
        Cfg.StepWrites(p.g, Cfg.After(rt, p.g, p.entry, world, n)).value))
    requires forall k: nat :: m0 <= k < m ==> Cfg.StepWrites(p.g, Cfg.After(rt, p.g, p.entry, world, k)).None?
    ensures Unwritten(rt, p.g, p.entry, world, n, m, w)
  {
    hide Items, Cfg.StepWrites, WritesAt;
    forall k | n <= k < m ensures Cfg.StepWrites(p.g, Cfg.After(rt, p.g, p.entry, world, k)) != Some(w) {
      if Cfg.StepWrites(p.g, Cfg.After(rt, p.g, p.entry, world, k)) == Some(w) {
        assert false;
      }
    }
  }

  lemma ScopedItemsInTime(rt: Runtime<Cfg.Text>, p: Plan, lives: map<nat, Life>, forks: map<nat, Fork>, world: World)
    requires Planned(p) && WellShaped(p) && AllFinished(p.g) && Scoped(p.g, p.entry, lives, forks)
    ensures WritesInTime(rt, Items(p), world)
  {
    hide Planned, Scoped, Items, Awaited, AllFinished, WritesAt;
    forall i: nat, j: nat, v: nat | i < j && Awaited(rt, Items(p), world, i, j, v) &&
        WritesAt(Items(p), After(rt, Items(p), world, i)).Some?
      ensures MentionedBy(Items(p), v, After(rt, Items(p), world, i).pc)
    {
      ItemsInTime(rt, p, lives, forks, world, i, j, v);
    }
  }

  // ----- the same of interned and of renamed items -----

  lemma InternedReads(ids: Ids, table: seq<DataItem>, rt: Runtime<Cfg.Text>, item: Item<Cfg.Text>, temps: Temps)
    ensures ReadsNow(WithTable(table, rt), InternedItem(ids, item), temps) == ReadsNow(rt, item, temps)
    ensures Writes(InternedItem(ids, item)) == Writes(item)
    ensures Mentions(InternedItem(ids, item)) == Mentions(item)
  {
  }

  lemma InternedInTime(ids: Ids, table: seq<DataItem>, rt: Runtime<Cfg.Text>, f: seq<Item<Cfg.Text>>, world: World)
    requires TableOf(ids, table) && Collected(ids, f) && WritesInTime(rt, f, world)
    ensures WritesInTime(WithTable(table, rt), Interned(ids, f), world)
  {
    hide Mentions, ReadsNow, Writes, InternedItem, TableOf, Collected, WithTable;
    var rt', f' := WithTable(table, rt), Interned(ids, f);
    InternedAt(ids, f);
    forall n: nat ensures After(rt', f', world, n) == After(rt, f, world, n) {
      InterningPreservesMeaning(ids, table, rt, f, world, n);
    }
    forall i: nat, j: nat, v: nat | i < j && Awaited(rt', f', world, i, j, v) &&
        WritesAt(f', After(rt', f', world, i)).Some?
      ensures MentionedBy(f', v, After(rt', f', world, i).pc)
    {
      InternedAwaited(ids, table, rt, f, world, i, j, v);
      assert MentionedBy(f, v, After(rt, f, world, i).pc);
      var a: nat :| a <= After(rt, f, world, i).pc && a < |f| && v in Mentions(f[a]);
      InternedReads(ids, table, rt, f[a], map[]);
    }
  }

  lemma InternedAt(ids: Ids, f: seq<Item<Cfg.Text>>)
    ensures |Interned(ids, f)| == |f| && forall p :: 0 <= p < |f| ==> Interned(ids, f)[p] == InternedItem(ids, f[p])
  {
  }

  lemma InternedAwaited(ids: Ids, table: seq<DataItem>, rt: Runtime<Cfg.Text>, f: seq<Item<Cfg.Text>>, world: World,
      i: nat, j: nat, v: nat)
    requires var rt', f' := WithTable(table, rt), Interned(ids, f);
      && (forall n: nat :: After(rt', f', world, n) == After(rt, f, world, n))
      && Awaited(rt', f', world, i, j, v) && WritesAt(f', After(rt', f', world, i)).Some?
    ensures Awaited(rt, f, world, i, j, v) && WritesAt(f, After(rt, f, world, i)).Some?
  {
    hide ReadsNow, Writes, InternedItem, WithTable, After;
    InternedAt(ids, f);
    forall n: nat ensures WritesAt(Interned(ids, f), After(rt, f, world, n)) == WritesAt(f, After(rt, f, world, n)) {
      var s := After(rt, f, world, n);
      if Executes(f, s) { InternedReads(ids, table, rt, f[s.pc], s.temps); }
    }
    var s := After(rt, f, world, j);
    if Executes(f, s) { InternedReads(ids, table, rt, f[s.pc], s.temps); }
  }

  lemma RelabelKeeps<N>(rt: Runtime<N>, lab: nat -> nat, item: Item<N>, temps: Temps)
    ensures ReadsNow(rt, Relabel(lab, item), temps) == ReadsNow(rt, item, temps)
    ensures Writes(Relabel(lab, item)) == Writes(item)
  {
  }

  /** What a renamed item reads and writes. */
  lemma RenamedItemReads<N>(rt: Runtime<N>, vars: map<nat, nat>, labels: map<nat, nat>, item: Item<N>, s: Temps,
      t: Temps, v: nat)
    requires forall x :: x in Mentions(item) ==> x in vars && Get(rt, s, x) == Get(rt, t, vars[x])
    ensures v in ReadsNow(rt, Rename.RenameItem(vars, labels, item), t) ==>
      exists w :: w in ReadsNow(rt, item, s) && v == Rename.Look(vars, w)
    ensures Writes(Rename.RenameItem(vars, labels, item)) ==
      if Writes(item).Some? then Some(Rename.Look(vars, Writes(item).value)) else None
  {
    var reg := (x: nat) => Rename.Look(vars, x);
    RelabelKeeps(rt, (l: nat) => Rename.Look(labels, l), MapItem(reg, item), t);
    if v in ReadsNow(rt, MapItem(reg, item), t) {
      var w := OneMappedRead(rt, vars, item, s, t, v);
    }
    if item.Do? { MapOpUses(reg, item.op); }
  }

  lemma OneMappedRead<N>(rt: Runtime<N>, vars: map<nat, nat>, item: Item<N>, s: Temps, t: Temps, v: nat)
      returns (w: nat)
    requires forall x :: x in Mentions(item) ==> x in vars && Get(rt, s, x) == Get(rt, t, vars[x])
    requires v in ReadsNow(rt, MapItem((x: nat) => Rename.Look(vars, x), item), t)
    ensures w in ReadsNow(rt, item, s) && v == Rename.Look(vars, w)
  {
    match item
    case Inspect(x) => w := x;
    case Ret(x) => w := x;
    case BrCond(x, _) => w := x;
    case Merge(test, _, _, _) =>
      assert test in Mentions(item);
      w := if v == Rename.Look(vars, test) then test else MergeSource(rt, item, s);
    case Do(op) =>
      MapOpUses((x: nat) => Rename.Look(vars, x), op);
      var r := Ir.MapVars((x: nat) => Rename.Look(vars, x), Uses(op));
      var i :| 0 <= i < |r| && r[i] == v;
      w := Uses(op)[i];
    case _ => assert false;
  }

  /** Reads and writes of the renamed run, seen from the run it renames. */
  lemma RenamedSees<N>(rt: Runtime<N>, f: seq<Item<N>>, s: State, t: State, v: nat)
    requires Rename.ThisIsNamed(f) && Rename.SameTemps(rt, Rename.VarNumbers(f), s, t)
    ensures Reads(rt, Rename.Renamed(f), t, v) ==>
        exists w :: Reads(rt, f, s, w) && v == Rename.Look(Rename.VarNumbers(f), w)
    ensures WritesAt(Rename.Renamed(f), t) ==
      if WritesAt(f, s).Some? then Some(Rename.Look(Rename.VarNumbers(f), WritesAt(f, s).value)) else None
  {
    hide ReadsNow, Writes, Mentions, Rename.RenameItem, Rename.VarNumbers, Rename.LabelNumbers;
    if Executes(f, s) {
      forall x: nat | x in Mentions(f[s.pc]) ensures x in Rename.VarNumbers(f) { Rename.MentionsNumbered(f, s.pc, x); }
      RenamedItemReads(rt, Rename.VarNumbers(f), Rename.LabelNumbers(f), f[s.pc], s.temps, t.temps, v);
    }
  }

  lemma RenamedAwaited<N>(rt: Runtime<N>, f: seq<Item<N>>, world: World, i: nat, j: nat, v: nat) returns (w: nat)
    requires Rename.ThisIsNamed(f)
    requires Awaited(rt, Rename.Renamed(f), world, i, j, v)
    ensures Awaited(rt, f, world, i, j, w) && v == Rename.Look(Rename.VarNumbers(f), w)
  {
    hide Rename.Renamed, Rename.VarNumbers, Reads, WritesAt, After, Rename.SameTemps, Rename.ThisIsNamed;
    var g := Rename.Renamed(f);
    Rename.RenamingPreservesMeaning(rt, f, world, j);
    RenamedSees(rt, f, After(rt, f, world, j), After(rt, g, world, j), v);
    w :| Reads(rt, f, After(rt, f, world, j), w) && v == Rename.Look(Rename.VarNumbers(f), w);
    forall k | i <= k < j ensures WritesAt(f, After(rt, f, world, k)) != Some(w) {
      Rename.RenamingPreservesMeaning(rt, f, world, k);
      RenamedSees(rt, f, After(rt, f, world, k), After(rt, g, world, k), v);
    }
  }

  lemma RenamedInTime<N>(rt: Runtime<N>, f: seq<Item<N>>, world: World)
    requires Rename.ThisIsNamed(f) && WritesInTime(rt, f, world)
    ensures WritesInTime(rt, Rename.Renamed(f), world)
  {
    hide Rename.Renamed, Rename.VarNumbers, Awaited, WritesAt, After, Rename.ThisIsNamed;
    var g := Rename.Renamed(f);
    forall i: nat, j: nat, v: nat | i < j && Awaited(rt, g, world, i, j, v) && WritesAt(g, After(rt, g, world, i)).Some?
      ensures MentionedBy(g, v, After(rt, g, world, i).pc)
    {
      var w := RenamedAwaited(rt, f, world, i, j, v);
      Rename.RenamingPreservesMeaning(rt, f, world, i);
      RenamedSees(rt, f, After(rt, f, world, i), After(rt, g, world, i), v);
      assert MentionedBy(f, w, After(rt, f, world, i).pc);
      RenamedMentionedBy(f, w, After(rt, f, world, i).pc);
    }
  }

  lemma RenamedMentionedBy<N>(f: seq<Item<N>>, w: nat, q: nat)
    requires MentionedBy(f, w, q)
    ensures MentionedBy(Rename.Renamed(f), Rename.Look(Rename.VarNumbers(f), w), q)
  {
    var a: nat :| a <= q && a < |f| && w in Mentions(f[a]);
    var i :| 0 <= i < |Mentions(f[a])| && Mentions(f[a])[i] == w;
    Rename.RenamedMentions(f, a, i);
  }

  /** What C2 makes of a scoped graph meets the demand of the register allocator. */
  lemma CodeInTime(ids: Ids, table: seq<DataItem>, rt: Runtime<Cfg.Text>, g: Cfg.Graph, entry: nat, p: Plan,
      code: seq<Item<nat>>, lives: map<nat, Life>, forks: map<nat, Fork>, world: World)
    requires CodeOf(ids, g, entry, p, code) && Declared(g, entry) && TableOf(ids, table) && CollectedIn(ids, g, entry)
    requires AllFinished(g) && Scoped(g, entry, lives, forks)
    ensures MentionedInTime(WithTable(table, rt), code, IntervalsUpTo(code, |code|).0, world)
  {
    hide *;
    CodeFacts(ids, g, entry, p, code);
    ScopedItemsInTime(rt, p, lives, forks, world);
    EmittedCollected(p, ids);
    InternedInTime(ids, table, rt, Items(p), world);
    BoundIsNamed(p, ids);
    RenamedInTime(WithTable(table, rt), Interned(ids, Items(p)), world);
    C2FitsScheduler(ids, g, entry, p, code);
    InTimeForAllocator(WithTable(table, rt), code, world);
  }
}
