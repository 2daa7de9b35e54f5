/** What C0 makes of a whole function is scoped, and so has everything C2 and the
    register allocator ask for.
  */
module C0Whole {
  import opened Ir
  import opened Cfg
  import opened Ast
  import opened C0
  import opened C0Run
  import opened C0Stmt
  import opened C0Func
  import opened C0Shape
  import opened Scope
  import opened Assembly
  import opened C0Scope
  import opened C0ScopeStmt
  import opened C0ScopeFunc
  import opened Generate
  import Layout

  // ----- scoped graphs declare what they name -----

  lemma {:induction false} ReachedThrough(g: Graph, entry: nat, l: Life, p: seq<nat>, k: nat) returns (h: nat)
    requires ZoneClosed(g, entry, l) && Path(g, p) && p[0] == entry && k < |p| && p[k] in l.zone
    ensures h < k && p[h] == l.home
    decreases k
  {
    assert k > 0;
    assert Edge(g, p[k-1], p[k]);
    if p[k-1] == l.home { h := k - 1; } else { h := ReachedThrough(g, entry, l, p, k - 1); }
  }

  /** Where a temporary is held, its home has been passed. */
  lemma HomeReached(g: Graph, entry: nat, l: Life, x: nat)
    requires ZoneClosed(g, entry, l) && Reaches(g, entry, x) && (x in l.zone || x == l.home)
    ensures Reaches(g, entry, l.home)
  {
    if x != l.home {
      var p :| Path(g, p) && p[0] == entry && p[|p|-1] == x;
      var h := ReachedThrough(g, entry, l, p, |p| - 1);
      assert Path(g, p[..h+1]) by {
        forall i | 0 <= i < h ensures Edge(g, p[i], p[i+1]) {}
      }
      assert p[..h+1][h] == l.home;
    }
  }

  lemma ReachesOn(g: Graph, a: nat, b: nat, c: nat)
    requires Reaches(g, a, b) && Reaches(g, b, c)
    ensures Reaches(g, a, c)
  {
    var p :| Path(g, p) && p[0] == a && p[|p|-1] == b;
    var q :| Path(g, q) && q[0] == b && q[|q|-1] == c;
    var r := p + q[1..];
    forall i | 0 <= i < |r| - 1 ensures Edge(g, r[i], r[i+1]) {
      if i < |p| - 1 { assert Edge(g, p[i], p[i+1]); } else { assert Edge(g, q[i-|p|+1], q[i-|p|+2]); }
    }
    assert Path(g, r) && r[0] == a && r[|r|-1] == c;
  }

  lemma EdgeReaches(g: Graph, a: nat, b: nat)
    requires Edge(g, a, b)
    ensures Reaches(g, a, b)
  {
    var p := [a, b];
    assert Path(g, p) && p[0] == a && p[|p|-1] == b;
  }

  /** A region entered from a block alone is reached through that block. */
  lemma {:induction false} BlockReached(g: Graph, entry: nat, region: set<nat>, block: nat, enter: nat, p: seq<nat>,
      k: nat)
    requires EnteredFrom(g, region, block, enter) && entry !in region && Path(g, p) && p[0] == entry && k < |p| &&
        p[k] in region
    ensures Reaches(g, entry, block)
    decreases k
  {
    assert k > 0;
    assert Edge(g, p[k-1], p[k]);
    if p[k-1] in region {
      BlockReached(g, entry, region, block, enter, p, k - 1);
    } else {
      assert Path(g, p[..k]) by {
        forall i | 0 <= i < k - 1 ensures Edge(g, p[i], p[i+1]) {}
      }
      assert p[..k][k-1] == block;
    }
  }

  /** A merge that can be reached can be reached from both arms. */
  lemma ArmsReached(g: Graph, entry: nat, x: nat, t: nat, k: Fork)
    requires Forks(g, entry, x, t, k) && Reaches(g, entry, x)
    ensures Reaches(g, entry, k.yesExit) && Reaches(g, entry, k.noExit)
  {
    hide Reaches;
    ForkReached(g, entry, x, t, k);
    assert Edge(g, k.block, k.yesEnter) && Edge(g, k.block, k.noEnter);
    EdgeReaches(g, k.block, k.yesEnter);
    EdgeReaches(g, k.block, k.noEnter);
    ReachesOn(g, entry, k.block, k.yesEnter);
    ReachesOn(g, entry, k.yesEnter, k.yesExit);
    ReachesOn(g, entry, k.block, k.noEnter);
    ReachesOn(g, entry, k.noEnter, k.noExit);
  }

  lemma ForkReached(g: Graph, entry: nat, x: nat, t: nat, k: Fork)
    requires Forks(g, entry, x, t, k) && Reaches(g, entry, x)
    ensures Reaches(g, entry, k.block)
  {
    var p :| Path(g, p) && p[0] == entry && p[|p|-1] == x;
    assert |p| > 1;
    var i := |p| - 2;
    assert Edge(g, p[i], p[i+1]);
    if p[i] == k.yesExit {
      BlockReached(g, entry, k.yes, k.block, k.yesEnter, p, i);
    } else {
      BlockReached(g, entry, k.no, k.block, k.noEnter, p, i);
    }
  }

  lemma HomeDeclares(g: Graph, entry: nat, v: nat, l: Life, x: nat)
    requires Lives(g, entry, v, l) && Reaches(g, entry, x) && (x in l.zone || x == l.home)
    ensures Allocated(g, entry, v)
  {
    HomeReached(g, entry, l, x);
    assert g[l.home][l.at] == Plain(Alloca(v));
  }

  /** A node names what it allocates, writes, reads, or merges. */
  lemma MentionsAre(node: Node, v: nat)
    requires v in NodeMentions(node)
    ensures node == Plain(Alloca(v)) || NodeWrites(node) == Some(v) || v in NodeReads(node)
      || (node.Plain? && node.item.Merge? && (v == node.item.consequent || v == node.item.alternate))
      || (node.Plain? && !PlainItem(node.item))
  {
    if node.Plain? && node.item.Do? { OpMentionsAre(node.item.op, v); }
  }

  lemma OpMentionsAre(op: Op<Text>, v: nat)
    requires v in OpMentions(op)
    ensures Def(op) == Some(v) || v in Uses(op)
  {
  }

  /** A scoped graph declares what it names. */
  lemma ScopedDeclares(g: Graph, entry: nat, lives: map<nat, Life>, forks: map<nat, Fork>)
    requires AllFinished(g) && Scoped(g, entry, lives, forks)
    ensures Generate.Declared(g, entry)
  {
    hide Forks, Reaches, Lives, PlainItem;
    forall b: nat, i: nat, v: nat | Reaches(g, entry, b) && b < |g| && i < |g[b]| && v in NodeMentions(g[b][i])
      ensures Allocated(g, entry, v)
    {
      assert MentionsThere(g, b, i, v);
      OneDeclared(g, entry, lives, forks, b, i, v);
    }
  }

  lemma OneDeclared(g: Graph, entry: nat, lives: map<nat, Life>, forks: map<nat, Fork>, b: nat, i: nat, v: nat)
    requires AllFinished(g) && Scoped(g, entry, lives, forks)
    requires Reaches(g, entry, b) && MentionsThere(g, b, i, v)
    ensures Allocated(g, entry, v)
  {
    hide Forks, Reaches, ZoneClosed;
    var node := g[b][i];
    MentionsAre(node, v);
    var l := lives[v];
    assert Lives(g, entry, v, l);
    if node.Plain? {
      assert Finished(g[b]);
      if node.item.Merge? && (v == node.item.consequent || v == node.item.alternate) {
        assert NodeAt(g, b, i, Plain(node.item));
        var k := forks[b];
        ArmsReached(g, entry, b, node.item.test, k);
        HomeDeclares(g, entry, v, l, if v == node.item.consequent then k.yesExit else k.noExit);
        return;
      }
    }
    if NodeWrites(node) == Some(v) {
      assert WritesThere(g, b, i, v);
      HomeDeclares(g, entry, v, l, b);
    } else if v in NodeReads(node) {
      assert ReadsThere(g, b, i, v);
      HomeDeclares(g, entry, v, l, b);
    }
  }

  // ----- functions -----

  /** `undefined` is loaded and returned by the last three nodes of block `x`. */
  ghost predicate Undefined(g: Graph, x: nat, n: nat, v: nat) {
    && x < |g| && |g[x]| == n + 3 && g[x][n] == Plain(Alloca(v))
    && g[x][n+1] == Plain(Do(LoadUndefined(v))) && g[x][n+2] == Plain(Ret(v))
  }

  /** Around a region: nodes that name no temporary, and the end of the function. */
  ghost predicate Around(b: Build, a: Build, g: Graph, x: nat, n: nat, falls: bool) {
    && (falls ==> Undefined(g, x, n, a.vars) && Outside(b, a, x, n))
    && forall y: nat, i: nat :: y < |g| && i < |g[y]| ==>
         if Outside(b, a, y, i) then NodeMentions(g[y][i]) == [] || (falls && y == x && n <= i)
         else forall v :: v in NodeMentions(g[y][i]) ==> NewTempOf(b, a, v)
  }

  /** Where the temporary of the end is named. */
  lemma AroundNames(b: Build, a: Build, g: Graph, x: nat, n: nat, falls: bool, y: nat, i: nat, v: nat)
    requires Around(b, a, g, x, n, falls) && MentionsThere(g, y, i, v)
    ensures (NewTempOf(b, a, v) && !Outside(b, a, y, i)) || (falls && v == a.vars && y == x && n <= i < n + 3)
  {
  }

  lemma EndLives(b: Build, a: Build, g: Graph, x: nat, n: nat)
    requires Around(b, a, g, x, n, true)
    ensures Lives(g, 0, a.vars, Life(x, n, n + 1, {}))
  {
    hide Around;
    var v, l := a.vars, Life(x, n, n + 1, {});
    assert Undefined(g, x, n, v) by { UndefinedThere(b, a, g, x, n); }
    forall y: nat, i: nat | WritesThere(g, y, i, v) ensures y == x && i == n + 1 {
      WritesMentioned(g[y][i], v);
      AroundNames(b, a, g, x, n, true, y, i, v);
    }
    forall y: nat, i: nat | ReadsThere(g, y, i, v) ensures Held(l, y, i) {
      ReadsMentioned(g[y][i], v);
      AroundNames(b, a, g, x, n, true, y, i, v);
    }
  }

  lemma UndefinedThere(b: Build, a: Build, g: Graph, x: nat, n: nat)
    requires Around(b, a, g, x, n, true)
    ensures Undefined(g, x, n, a.vars)
  {
  }

  /** With the end of the function, the whole graph is scoped. */
  lemma EndScoped(b: Build, a: Build, exit: nat, g: Graph, x: nat, n: nat, falls: bool, lives: map<nat, Life>,
      forks: map<nat, Fork>)
    returns (all: map<nat, Life>)
    requires ScopedPart(g, 0, b, a, exit, None, lives, forks) && Around(b, a, g, x, n, falls)
    ensures Scoped(g, 0, all, forks)
  {
    hide Lives, Merges, Around, LifeIn;
    all := if falls then lives[a.vars := Life(x, n, n + 1, {})] else lives;
    if falls { EndLives(b, a, g, x, n); }
    forall y: nat, i: nat, v: nat | MentionsThere(g, y, i, v) ensures v in all {
      AroundNames(b, a, g, x, n, falls, y, i, v);
    }
    forall y: nat, i: nat, item: Item<Text> | item.Merge? && NodeAt(g, y, i, Plain(item))
      ensures y in forks && Merges(g, 0, y, i, item, forks[y], all)
    {
      assert item.test in Mentions(item);
      assert MentionsThere(g, y, i, item.test);
      AroundNames(b, a, g, x, n, falls, y, i, item.test);
      if Outside(b, a, y, i) { UndefinedMergesNot(b, a, g, x, n, y, i, item); }
      MergesGrow(g, 0, y, i, item, forks[y], lives, all);
    }
  }

  lemma UndefinedMergesNot(b: Build, a: Build, g: Graph, x: nat, n: nat, y: nat, i: nat, item: Item<Text>)
    requires Around(b, a, g, x, n, true) && y == x && n <= i < n + 3 && NodeAt(g, y, i, Plain(item))
    ensures !item.Merge?
  {
  }

  function BodyBase(vars: nat, f: Body): Build { Build(if f.names == [] then [] else [DeclNodes(f.names)], vars) }

  function GraphOf(vars: nat, f: Body): Graph requires Compiles(f) { GenFunction(vars, f).0.blocks }

  predicate Falls(f: Body, block: Block) { !f.toplevel && !HasReturn(block) }

  /** The nodes of the function that are not in the code of its statements. */
  lemma FunctionOutside(vars: nat, f: Body, p: Part, linked: Build, y: nat, i: nat)
    requires Compiles(f) && f.stmts != [] && Stages(vars, f, p, linked)
    requires y < |GraphOf(vars, f)| && i < |GraphOf(vars, f)[y]| && Outside(NewBlock(BodyBase(vars, f)), p.b, y, i)
    ensures var g, b := GraphOf(vars, f), BodyBase(vars, f);
      || (y == 0 && f.names != [] && (NodeMentions(g[y][i]) == [] && Targets(g[y][i]) <= {|b.blocks|}))
      || (y == |b.blocks| && g[y][i] == Jump(ListEnter(b, f.stmts, [])))
      || (y == p.exit && |p.b.blocks[y]| <= i && Targets(g[y][i]) == {} &&
          (NodeMentions(g[y][i]) == [] || Falls(f, p.b.blocks[y])))
  {
    hide GenAll, GenFunction, ListEnter, HasReturn;
    var b := BodyBase(vars, f);
    ListBase(b, f.stmts, []);
    if f.names != [] {
      AllAbove(b, f.stmts);
      BelowBlock(b, p.b, 0);
    }
  }

  lemma AllAbove(b: Build, body: seq<Stmt>)
    requires forall i :: 0 <= i < |body| ==> Looped(body[i], false)
    ensures PartAbove(b, GenAll(b, body, []))
  {
  }

  /** The code of the statements stands in the graph, and its last block goes on. */
  lemma FunctionKept(vars: nat, f: Body, p: Part, linked: Build)
    requires Compiles(f) && f.stmts != [] && Stages(vars, f, p, linked)
    ensures var g, b := GraphOf(vars, f), NewBlock(BodyBase(vars, f));
      && |p.b.blocks| == |g| && 0 < |b.blocks| <= |g| && p.exit < |g|
      && (forall x: nat :: NewBlockOf(b, p.b, x) ==>
          if x == p.exit then p.b.blocks[x] <= g[x] else g[x] == p.b.blocks[x])
      && (Falls(f, p.b.blocks[p.exit]) ==> Undefined(g, p.exit, |p.b.blocks[p.exit]|, p.b.vars))
  {
    hide GenAll, GenFunction, HasReturn;
    ListBase(BodyBase(vars, f), f.stmts, []);
  }

  lemma FunctionInside(vars: nat, f: Body, p: Part, linked: Build, y: nat, i: nat)
    requires Compiles(f) && f.stmts != [] && Stages(vars, f, p, linked)
    requires y < |GraphOf(vars, f)| && i < |GraphOf(vars, f)[y]| && !Outside(NewBlock(BodyBase(vars, f)), p.b, y, i)
    ensures NodeIn(NewBlock(BodyBase(vars, f)), p.b, {}, GraphOf(vars, f)[y][i])
    ensures y == p.exit ==> Targets(GraphOf(vars, f)[y][i]) == {}
  {
    hide GenAll, GenFunction, Terminate, ListEnter, Falls;
    var b, g := NewBlock(BodyBase(vars, f)), GraphOf(vars, f);
    ListIsShaped(BodyBase(vars, f), f.stmts, []);
    FunctionKept(vars, f, p, linked);
    assert NewBlockOf(b, p.b, y);
    assert g[y][i] == p.b.blocks[y][i];
    assert BlockIn(b, p.b, {}, p.b.blocks[y]) && Shaped({p.exit}, y, p.b.blocks[y]);
  }

  lemma FunctionHosts(vars: nat, f: Body, p: Part, linked: Build)
    requires Compiles(f) && f.stmts != [] && Stages(vars, f, p, linked)
    ensures var g, b := GraphOf(vars, f), BodyBase(vars, f);
      && GenFunction(vars, f).1 == 0
      && Hosts(NewBlock(b), p.b, ListEnter(b, f.stmts, []), p.exit, None, g, 0)
      && Around(NewBlock(b), p.b, g, p.exit, |p.b.blocks[p.exit]|, Falls(f, p.b.blocks[p.exit]))
  {
    hide GenAll, GenFunction, ListEnter, Region, Falls, HasReturn;
    var g, b := GraphOf(vars, f), BodyBase(vars, f);
    var b1 := NewBlock(b);
    ListBase(b, f.stmts, []);
    ListIsShaped(b, f.stmts, []);
    AllAbove(b, f.stmts);
    FunctionKept(vars, f, p, linked);
    forall y: nat, i: nat | y < |g| && i < |g[y]|
      ensures if Outside(b1, p.b, y, i) then NodeMentions(g[y][i]) == [] ||
          (Falls(f, p.b.blocks[p.exit]) && y == p.exit && |p.b.blocks[y]| <= i)
        else NodeIn(b1, p.b, {}, g[y][i]) && (y == p.exit ==> Targets(g[y][i]) == {})
    {
      if Outside(b1, p.b, y, i) {
        FunctionOutside(vars, f, p, linked, y, i);
      } else {
        FunctionInside(vars, f, p, linked, y, i);
      }
    }
    forall q: nat, x: nat | Edge(g, q, x) && NewBlockOf(b1, p.b, x) && x != ListEnter(b, f.stmts, [])
      ensures NewBlockOf(b1, p.b, q) && q != p.exit
    {
      var i :| 0 <= i < |g[q]| && x in Targets(g[q][i]);
      if Outside(b1, p.b, q, i) { FunctionOutside(vars, f, p, linked, q, i); }
    }
  }

  lemma EmptyFunctionScoped(vars: nat, f: Body) returns (lives: map<nat, Life>, forks: map<nat, Fork>)
    requires Compiles(f) && f.stmts == []
    ensures Scoped(GraphOf(vars, f), 0, lives, forks) && GenFunction(vars, f).1 == 0
  {
    hide Scoped, ScopedPart;
    var g, b := GraphOf(vars, f), Build([], vars);
    var block: Block := DeclNodes(f.names);
    assert !HasReturn(block);
    assert Around(b, b, g, 0, |block|, !f.toplevel);
    NoPieceScoped(g, 0, b);
    forks := map[];
    lives := EndScoped(b, b, 0, g, 0, |block|, !f.toplevel, map[], map[]);
  }

  /** What C0 makes of a function is scoped. */
  lemma FunctionScoped(vars: nat, f: Body) returns (lives: map<nat, Life>, forks: map<nat, Fork>)
    requires Compiles(f)
    ensures Scoped(GraphOf(vars, f), 0, lives, forks) && GenFunction(vars, f).1 == 0
  {
    if f.stmts == [] {
      lives, forks := EmptyFunctionScoped(vars, f);
    } else {
      hide Scoped, ScopedPart, GenAll, GenFunction, Hosts, Around, Stages, ListEnter;
      var g, b := GraphOf(vars, f), BodyBase(vars, f);
      var p, linked := FunctionStages(vars, f);
      StagesAre(vars, f, p, linked);
      FunctionHosts(vars, f, p, linked);
      var L, F := ListScoped(b, f.stmts, [], g, 0);
      forks := F;
      lives := EndScoped(NewBlock(b), p.b, p.exit, g, p.exit, |p.b.blocks[p.exit]|, Falls(f, p.b.blocks[p.exit]), L, F);
    }
  }

  lemma StagesAre(vars: nat, f: Body, p: Part, linked: Build)
    requires Compiles(f) && f.stmts != [] && Stages(vars, f, p, linked)
    ensures p == GenAll(BodyBase(vars, f), f.stmts, [])
  {
  }

  lemma WellFormedFinished(g: Graph, entry: nat)
    requires WellFormed(g) && entry < |g|
    ensures Layout.GraphFinished(g, entry)
  {
    forall b: nat | Reaches(g, entry, b) ensures b < |g| {
      var p :| Path(g, p) && p[0] == entry && p[|p|-1] == b;
      if |p| > 1 {
        var i := |p| - 2;
        assert Edge(g, p[i], p[i+1]);
      }
    }
  }

  /** What C0 makes of a function is what C2 asks for. */
  lemma FunctionCompilable(vars: nat, f: Body)
    requires Compiles(f)
    ensures AllFinished(GraphOf(vars, f)) && Compilable(GraphOf(vars, f), GenFunction(vars, f).1)
  {
    hide GenFunction, Finished, Scoped, Generate.Declared;
    FunctionWellFormed(vars, f);
    WellFormedFinished(GraphOf(vars, f), GenFunction(vars, f).1);
    var lives, forks := FunctionScoped(vars, f);
    ScopedDeclares(GraphOf(vars, f), 0, lives, forks);
  }
}
