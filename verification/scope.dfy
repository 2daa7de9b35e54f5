/** Where temporaries are awaited.  Every temporary has one block that allocates
    and defines it, and a zone of blocks in which its value may still be read; the
    zone is entered only from within or from the home block.  A merge is reached
    from two regions that a branch on its test keeps apart.
  */
module Scope {
  import opened Ir
  import opened Cfg

  datatype Life = Life(home: nat, at: nat, def: nat, zone: set<nat>)

  /** What leads to a merge: the block that branches, the regions of the two arms,
      where each is entered and left. */
  datatype Fork = Fork(block: nat, yes: set<nat>, no: set<nat>, yesEnter: nat, noEnter: nat, yesExit: nat, noExit: nat)

  /** The temporaries an item reads for sure: of a merge, only its test. */
  function ItemReads<N>(item: Item<N>): seq<nat> {
    match item
    case Inspect(v) => [v]
    case Ret(v) => [v]
    case Merge(test, _, _, _) => [test]
    case Do(op) => Uses(op)
    case _ => []
  }

  function NodeReads(node: Node): seq<nat> {
    match node
    case Plain(item) => ItemReads(item)
    case Jump(_) => []
    case Branch(c, _, _) => [c]
  }

  function NodeWrites(node: Node): Option<nat> {
    if node.Plain? then Writes(node.item) else None
  }

  predicate NodeAt(g: Graph, x: nat, i: nat, node: Node) { x < |g| && i < |g[x]| && g[x][i] == node }

  predicate WritesThere(g: Graph, x: nat, i: nat, v: nat) { x < |g| && i < |g[x]| && NodeWrites(g[x][i]) == Some(v) }

  predicate ReadsThere(g: Graph, x: nat, i: nat, v: nat) { x < |g| && i < |g[x]| && v in NodeReads(g[x][i]) }

  lemma ReadsMentioned(node: Node, v: nat)
    requires v in NodeReads(node)
    ensures v in NodeMentions(node)
  {
    if node.Plain? && node.item.Do? { UsesMentioned(node.item.op); }
  }

  lemma WritesMentioned(node: Node, v: nat)
    requires NodeWrites(node) == Some(v)
    ensures v in NodeMentions(node)
  {
    if node.item.Do? { UsesMentioned(node.item.op); }
  }

  predicate MentionsThere(g: Graph, x: nat, i: nat, v: nat) { x < |g| && i < |g[x]| && v in NodeMentions(g[x][i]) }

  /** The value of `v` may be awaited at node `i` of block `x`. */
  predicate Held(l: Life, x: nat, i: nat) { x in l.zone || (x == l.home && l.def < i) }

  ghost predicate DefinedOnce(g: Graph, v: nat, l: Life) {
    && NodeAt(g, l.home, l.at, Plain(Alloca(v))) && l.at < l.def && WritesThere(g, l.home, l.def, v)
    && (forall x: nat, i: nat :: WritesThere(g, x, i, v) ==> x == l.home && i == l.def)
  }

  ghost predicate ReadWhereHeld(g: Graph, v: nat, l: Life) {
    forall x: nat, i: nat :: ReadsThere(g, x, i, v) ==> Held(l, x, i)
  }

  ghost predicate ZoneClosed(g: Graph, entry: nat, l: Life) {
    && l.home !in l.zone && entry !in l.zone
    && (forall p: nat, x: nat :: x in l.zone && Edge(g, p, x) ==> p in l.zone || p == l.home)
  }

  ghost predicate Lives(g: Graph, entry: nat, v: nat, l: Life) {
    DefinedOnce(g, v, l) && ReadWhereHeld(g, v, l) && ZoneClosed(g, entry, l)
  }

  /** A region is entered only from the branching block, at one place. */
  ghost predicate EnteredFrom(g: Graph, region: set<nat>, block: nat, enter: nat) {
    forall p: nat, x: nat :: x in region && Edge(g, p, x) ==> p in region || (p == block && x == enter)
  }

  ghost predicate NotWrittenIn(g: Graph, region: set<nat>, v: nat) {
    forall x: nat, i: nat :: x in region ==> !WritesThere(g, x, i, v)
  }

  ghost predicate Forks(g: Graph, entry: nat, x: nat, t: nat, k: Fork) {
    && k.block < |g| && g[k.block] != [] && g[k.block][|g[k.block]|-1] == Branch(t, k.yesEnter, k.noEnter)
    && k.yesEnter != k.noEnter && x != entry && entry !in k.yes && entry !in k.no
    && k.block !in k.yes && k.block !in k.no
    && EnteredFrom(g, k.yes, k.block, k.yesEnter) && EnteredFrom(g, k.no, k.block, k.noEnter)
    && NotWrittenIn(g, k.yes, t) && NotWrittenIn(g, k.no, t)
    && k.yesExit in k.yes && k.noExit in k.no && Reaches(g, k.yesEnter, k.yesExit) && Reaches(g, k.noEnter, k.noExit)
    && (forall p: nat :: Edge(g, p, x) ==> p == k.yesExit || p == k.noExit)
  }

  /** A merge stands second in its block, and its arms are held where they end. */
  ghost predicate Merges(g: Graph, entry: nat, x: nat, i: nat, item: Item<Text>, k: Fork, lives: map<nat, Life>)
    requires item.Merge?
  {
    && i == 1 && NodeAt(g, x, 0, Plain(Alloca(item.mdst)))
    && Forks(g, entry, x, item.test, k)
    && item.consequent in lives && (k.yesExit in lives[item.consequent].zone ||
        k.yesExit == lives[item.consequent].home)
    && item.alternate in lives && (k.noExit in lives[item.alternate].zone || k.noExit == lives[item.alternate].home)
  }

  ghost predicate MergesAll(g: Graph, entry: nat, lives: map<nat, Life>, forks: map<nat, Fork>) {
    forall x: nat, i: nat, item: Item<Text> :: item.Merge? && NodeAt(g, x, i, Plain(item)) ==>
      x in forks && Merges(g, entry, x, i, item, forks[x], lives)
  }

  ghost predicate LivesAll(g: Graph, entry: nat, lives: map<nat, Life>) {
    && (forall v :: v in lives ==> Lives(g, entry, v, lives[v]))
    && (forall x: nat, i: nat, v: nat :: MentionsThere(g, x, i, v) ==> v in lives)
  }

  /** The graph is scoped. */
  ghost predicate Scoped(g: Graph, entry: nat, lives: map<nat, Life>, forks: map<nat, Fork>) {
    LivesAll(g, entry, lives) && MergesAll(g, entry, lives, forks)
  }

  // ----- placing -----

  /** Every block of a zone is placed after the home of the zone. */
  lemma {:induction false} HomeFirst(g: Graph, entry: nat, order: seq<nat>, l: Life, k: nat)
    requires SearchOrder(g, entry, order) && ZoneClosed(g, entry, l)
    requires k < |order| && order[k] in l.zone
    ensures exists h :: 0 <= h < k && order[h] == l.home
    decreases k
  {
    assert k > 0;
    assert LedTo(g, order[..k], order[k]);
    var i :| 0 <= i < k && Edge(g, order[..k][i], order[k]);
    if order[i] in l.zone { HomeFirst(g, entry, order, l, i); }
  }

  // ----- the two sides of a branch -----

  /** In the region of an arm, the test still has the value the branch saw. */
  ghost predicate ForkHolds(rt: Runtime<Text>, k: Fork, t: nat, c: Place) {
    && (c.block in k.yes ==> rt.truthy(Get(rt, c.s.temps, t)))
    && (c.block in k.no ==> !rt.truthy(Get(rt, c.s.temps, t)))
  }

  lemma StraightWrites(rt: Runtime<Text>, item: Item<Text>, s: State, t: nat)
    requires !IsBranch(item) && s.status.Running? && Writes(item) != Some(t)
    ensures Get(rt, Straight(rt, item, s).temps, t) == Get(rt, s.temps, t)
  {
  }

  lemma ForkStep(rt: Runtime<Text>, g: Graph, entry: nat, x: nat, t: nat, k: Fork, c: Place)
    requires (forall b: nat :: b < |g| ==> Finished(g[b])) && Forks(g, entry, x, t, k) && ForkHolds(rt, k, t, c)
    ensures ForkHolds(rt, k, t, Cfg.Step(rt, g, c))
  {
    if c.s.status.Running? && c.block < |g| && c.s.pc < |g[c.block]| {
      var node := g[c.block][c.s.pc];
      match node
      case Plain(item) =>
        if !IsBranch(item) {
          if c.block in k.yes || c.block in k.no {
            assert !WritesThere(g, c.block, c.s.pc, t);
            StraightWrites(rt, item, c.s, t);
          }
        }
      case Jump(d) => ForkJump(rt, g, entry, x, t, k, c, d);
      case Branch(v, y, n) =>
        var d := if rt.truthy(Get(rt, c.s.temps, v)) then y else n;
        ForkJump(rt, g, entry, x, t, k, c, d);
    }
  }

  lemma ForkJump(rt: Runtime<Text>, g: Graph, entry: nat, x: nat, t: nat, k: Fork, c: Place, d: nat)
    requires Forks(g, entry, x, t, k) && ForkHolds(rt, k, t, c)
    requires c.block < |g| && c.s.pc < |g[c.block]| && Finished(g[c.block]) && d in Targets(g[c.block][c.s.pc])
    requires match g[c.block][c.s.pc]
      case Branch(v, y, n) => d == if rt.truthy(Get(rt, c.s.temps, v)) then y else n
      case _ => true
    ensures ForkHolds(rt, k, t, Enter(d, c.s))
  {
    assert Edge(g, c.block, d);
  }

  lemma {:induction false} ForkAlways(rt: Runtime<Text>, g: Graph, entry: nat, x: nat, t: nat, k: Fork, world: World,
      n: nat)
    requires (forall b: nat :: b < |g| ==> Finished(g[b])) && Forks(g, entry, x, t, k)
    ensures ForkHolds(rt, k, t, Cfg.After(rt, g, entry, world, n))
  {
    if n > 0 {
      ForkAlways(rt, g, entry, x, t, k, world, n - 1);
      ForkStep(rt, g, entry, x, t, k, Cfg.After(rt, g, entry, world, n - 1));
      Cfg.AfterStep(rt, g, entry, world, n - 1);
    }
  }

  // ----- awaited temporaries along a run -----

  ghost predicate AllFinished(g: Graph) { forall b: nat :: b < |g| ==> Finished(g[b]) }

  predicate InGraph(g: Graph, c: Place) { c.block < |g| && c.s.pc < |g[c.block]| }

  predicate HeldHere(l: Life, c: Place) { Held(l, c.block, c.s.pc) }

  /** The next step of the graph reads `v`. */
  predicate StepReads(rt: Runtime<Text>, g: Graph, c: Place, v: nat) {
    c.s.status.Running? && InGraph(g, c) &&
    match g[c.block][c.s.pc]
    case Plain(item) => v in ReadsNow(rt, item, c.s.temps)
    case Jump(_) => false
    case Branch(w, _, _) => v == w
  }

  /** The control node of a block comes after every definition in it. */
  lemma ControlAfterDef(g: Graph, v: nat, l: Life, x: nat, i: nat)
    requires AllFinished(g) && DefinedOnce(g, v, l) && x == l.home && i < |g[x]| && !g[x][i].Plain?
    ensures l.def < i
  {
    assert Finished(g[x]);
  }

  /** Control comes to where `v` is held from where it is held, or by defining it. */
  lemma HeldBefore(rt: Runtime<Text>, g: Graph, entry: nat, v: nat, l: Life, c: Place)
    requires AllFinished(g) && Lives(g, entry, v, l)
    requires c.s.status.Running? && InGraph(g, c)
    requires Cfg.Step(rt, g, c).s.status.Running? && HeldHere(l, Cfg.Step(rt, g, c))
    ensures HeldHere(l, c) || Cfg.StepWrites(g, c) == Some(v)
  {
    var c' := Cfg.Step(rt, g, c);
    var node := g[c.block][c.s.pc];
    if node.Plain? {
      assert c'.block == c.block && c'.s.pc == c.s.pc + 1;
      if c.block == l.home && l.def == c.s.pc { assert WritesThere(g, l.home, l.def, v); }
    } else {
      assert c'.s.pc == 0 && c'.block in Targets(node);
      assert Edge(g, c.block, c'.block);
      if c.block == l.home { ControlAfterDef(g, v, l, c.block, c.s.pc); }
    }
  }

  lemma RanInGraph(rt: Runtime<Text>, g: Graph, entry: nat, world: World, i: nat, j: nat)
    requires i <= j && Cfg.After(rt, g, entry, world, j).s.status.Running?
    ensures Cfg.After(rt, g, entry, world, i).s.status.Running?
    ensures i < j ==> InGraph(g, Cfg.After(rt, g, entry, world, i))
    decreases j - i
  {
    if i < j {
      Cfg.AfterStep(rt, g, entry, world, i);
      RanInGraph(rt, g, entry, world, i + 1, j);
    }
  }

  ghost predicate Unwritten(rt: Runtime<Text>, g: Graph, entry: nat, world: World, i: nat, j: nat, v: nat) {
    forall k :: i <= k < j ==> Cfg.StepWrites(g, Cfg.After(rt, g, entry, world, k)) != Some(v)
  }

  lemma {:induction false} HeldSince(rt: Runtime<Text>, g: Graph, entry: nat, world: World, v: nat, l: Life, i: nat,
      j: nat)
    requires AllFinished(g) && Lives(g, entry, v, l)
    requires i <= j && Cfg.After(rt, g, entry, world, j).s.status.Running? &&
        HeldHere(l, Cfg.After(rt, g, entry, world, j))
    requires Unwritten(rt, g, entry, world, i, j, v)
    ensures HeldHere(l, Cfg.After(rt, g, entry, world, i))
    decreases j
  {
    if i < j {
      RanInGraph(rt, g, entry, world, j - 1, j);
      Cfg.AfterStep(rt, g, entry, world, j - 1);
      HeldBefore(rt, g, entry, v, l, Cfg.After(rt, g, entry, world, j - 1));
      assert Cfg.StepWrites(g, Cfg.After(rt, g, entry, world, j - 1)) != Some(v);
      HeldSince(rt, g, entry, world, v, l, i, j - 1);
    }
  }

  /** A step to the second node of a block comes from its first. */
  lemma FromFirst(rt: Runtime<Text>, g: Graph, c: Place)
    requires c.s.status.Running? && InGraph(g, c)
    requires Cfg.Step(rt, g, c).s.status.Running? && Cfg.Step(rt, g, c).s.pc == 1
    ensures c.block == Cfg.Step(rt, g, c).block && c.s.pc == 0
  {
  }

  /** A step to the first node of a block is a jump or a branch to it. */
  lemma FromEdge(rt: Runtime<Text>, g: Graph, c: Place)
    requires c.s.status.Running? && InGraph(g, c)
    requires Cfg.Step(rt, g, c).s.status.Running? && Cfg.Step(rt, g, c).s.pc == 0
    ensures Edge(g, c.block, Cfg.Step(rt, g, c).block) && !g[c.block][c.s.pc].Plain?
    ensures Cfg.Step(rt, g, c).s.temps == c.s.temps && Cfg.StepWrites(g, c).None?
  {
  }

  lemma AllocaWritesNothing(rt: Runtime<Text>, g: Graph, c: Place, v: nat)
    requires c.s.status.Running? && NodeAt(g, c.block, c.s.pc, Plain(Alloca(v)))
    ensures Cfg.StepWrites(g, c).None? && Cfg.Step(rt, g, c).s.temps == c.s.temps
  {
  }

  lemma AfterNone(rt: Runtime<Text>, g: Graph, entry: nat, world: World)
    ensures Cfg.After(rt, g, entry, world, 0) == Begin(entry, world)
  {
  }

  /** Two steps before a merge reads an arm, control was at the end of that arm. */
  lemma MergeCame(rt: Runtime<Text>, g: Graph, entry: nat, world: World, j: nat, item: Item<Text>, k: Fork,
      lives: map<nat, Life>)
    requires AllFinished(g) && item.Merge?
    requires var c := Cfg.After(rt, g, entry, world, j);
      c.s.status.Running? && Merges(g, entry, c.block, c.s.pc, item, k, lives) && LivesAll(g, entry, lives)
    ensures var v := MergeSource(rt, item, Cfg.After(rt, g, entry, world, j).s.temps);
      && j >= 2 && v in lives && HeldHere(lives[v], Cfg.After(rt, g, entry, world, j - 2))
      && Cfg.StepWrites(g, Cfg.After(rt, g, entry, world, j - 1)).None?
      && Cfg.StepWrites(g, Cfg.After(rt, g, entry, world, j - 2)).None?
  {
    hide Cfg.After, Straight, Reaches, EnteredFrom, NotWrittenIn, Edge;
    var c := Cfg.After(rt, g, entry, world, j);
    AfterNone(rt, g, entry, world);
    assert j >= 1;
    RanInGraph(rt, g, entry, world, j - 1, j);
    Cfg.AfterStep(rt, g, entry, world, j - 1);
    var c1 := Cfg.After(rt, g, entry, world, j - 1);
    FromFirst(rt, g, c1);
    AllocaWritesNothing(rt, g, c1, item.mdst);
    assert j >= 2;
    RanInGraph(rt, g, entry, world, j - 2, j);
    Cfg.AfterStep(rt, g, entry, world, j - 2);
    var c2 := Cfg.After(rt, g, entry, world, j - 2);
    FromEdge(rt, g, c2);
    ForkAlways(rt, g, entry, c.block, item.test, k, world, j - 2);
    var v := MergeSource(rt, item, c.s.temps);
    assert v in lives && Lives(g, entry, v, lives[v]);
    if c2.block == lives[v].home { ControlAfterDef(g, v, lives[v], c2.block, c2.s.pc); }
  }

  /** A step reads what its node reads, or the arm that its merge selects. */
  lemma ReadsOrMerges(rt: Runtime<Text>, g: Graph, c: Place, v: nat)
    requires AllFinished(g) && StepReads(rt, g, c, v)
    ensures c.s.status.Running? && c.block < |g| && c.s.pc < |g[c.block]|
    ensures ReadsThere(g, c.block, c.s.pc, v)
      || (g[c.block][c.s.pc].Plain? && g[c.block][c.s.pc].item.Merge? &&
          v == MergeSource(rt, g[c.block][c.s.pc].item, c.s.temps))
  {
  }

  /** What is read somewhere has a life, and is held there. */
  lemma LifeOf(g: Graph, entry: nat, lives: map<nat, Life>, forks: map<nat, Fork>, c: Place, v: nat)
    requires Scoped(g, entry, lives, forks) && ReadsThere(g, c.block, c.s.pc, v)
    ensures v in lives && Lives(g, entry, v, lives[v]) && HeldHere(lives[v], c)
  {
    ReadsMentioned(g[c.block][c.s.pc], v);
    assert MentionsThere(g, c.block, c.s.pc, v);
  }

  lemma LivesOf(g: Graph, entry: nat, lives: map<nat, Life>, forks: map<nat, Fork>, v: nat)
    requires Scoped(g, entry, lives, forks) && v in lives
    ensures Lives(g, entry, v, lives[v])
  {
  }

  lemma ForkOf(g: Graph, entry: nat, lives: map<nat, Life>, forks: map<nat, Fork>, x: nat, i: nat, item: Item<Text>)
    requires Scoped(g, entry, lives, forks) && item.Merge? && x < |g| && i < |g[x]| && g[x][i] == Plain(item)
    ensures x in forks && Merges(g, entry, x, i, item, forks[x], lives) && LivesAll(g, entry, lives)
  {
    hide Merges, LivesAll;
    assert NodeAt(g, x, i, Plain(item));
  }

  lemma UnwrittenPart(rt: Runtime<Text>, g: Graph, entry: nat, world: World, i: nat, k: nat, j: nat, v: nat)
    requires Unwritten(rt, g, entry, world, i, j, v) && i <= k <= j
    ensures Unwritten(rt, g, entry, world, i, k, v)
  {
  }

  /** While a temporary is awaited, whatever is written is written where it is held. */
  lemma WrittenWhereHeld(rt: Runtime<Text>, g: Graph, entry: nat, lives: map<nat, Life>, forks: map<nat, Fork>,
      world: World, i: nat, j: nat, v: nat)
    requires AllFinished(g) && Scoped(g, entry, lives, forks)
    requires i < j && StepReads(rt, g, Cfg.After(rt, g, entry, world, j), v) && Unwritten(rt, g, entry, world, i, j, v)
    requires Cfg.StepWrites(g, Cfg.After(rt, g, entry, world, i)).Some?
    ensures v in lives && HeldHere(lives[v], Cfg.After(rt, g, entry, world, i))
  {
    hide *;
    var c := Cfg.After(rt, g, entry, world, j);
    ReadsOrMerges(rt, g, c, v);
    if ReadsThere(g, c.block, c.s.pc, v) {
      LifeOf(g, entry, lives, forks, c, v);
      HeldSince(rt, g, entry, world, v, lives[v], i, j);
    } else {
      var item := g[c.block][c.s.pc].item;
      ForkOf(g, entry, lives, forks, c.block, c.s.pc, item);
      MergeCame(rt, g, entry, world, j, item, forks[c.block], lives);
      LivesOf(g, entry, lives, forks, v);
      RanInGraph(rt, g, entry, world, j - 2, j);
      UnwrittenPart(rt, g, entry, world, i, j - 2, j, v);
      HeldSince(rt, g, entry, world, v, lives[v], i, j - 2);
    }
  }
}
