/** Running what C0 builds: statements. */
module C0Stmt {
  import opened Ir
  import opened Cfg
  import opened Ast
  import opened C0
  import opened C0Run

  /** Control has got to where the outcome of a statement leads. */
  ghost predicate Arrives(b: Build, exit: nat, bps: seq<Points>, o: Outcome, fuel: nat, n: nat, c: Place) {
    && c.s.world == o.world && c.s.trace == o.trace
    && match o.how
       case Normal => c.block == exit && AtEnd(b, exit, c.s)
       case Broke => bps != [] && c == Enter(bps[|bps|-1].brk, c.s) && c.s.status.Running?
       case Continued => bps != [] && c == Enter(bps[|bps|-1].cont, c.s) && c.s.status.Running?
       case Gave(v) => c.s.status == Returned(v)
       case OutOfFuel => c.s.status.Running? && fuel <= n
  }

  lemma EntersEmpty(b: Build, x: nat, s: State)
    requires x < |b.blocks| && b.blocks[x] == [] && s.status.Running?
    ensures AtEnd(b, x, Enter(x, s).s)
  {
  }

  /** The first node of block `x`. */
  ghost predicate Opens(g: Graph, x: nat, node: Node) { x < |g| && |g[x]| > 0 && g[x][0] == node }

  lemma OpensJump(rt: Runtime<Text>, g: Graph, c: Place, n: nat, x: nat, y: nat, s: State)
    requires Leads(rt, g, c, n, Enter(x, s)) && Opens(g, x, Jump(y)) && s.status.Running?
    ensures Leads(rt, g, c, n + 1, Enter(y, s))
  {
    ThenStep(rt, g, c, n, Enter(x, s));
  }

  lemma OpensBranch(rt: Runtime<Text>, g: Graph, c: Place, n: nat, x: nat, v: nat, y: nat, z: nat, s: State)
    requires Leads(rt, g, c, n, Enter(x, s)) && Opens(g, x, Branch(v, y, z)) && s.status.Running?
    ensures Leads(rt, g, c, n + 1, Enter(if rt.truthy(Get(rt, s.temps, v)) then y else z, s))
  {
    ThenStep(rt, g, c, n, Enter(x, s));
  }

  /** An expression, and the jump that follows it. */
  lemma ExprThenJump(rt: Runtime<Text>, b: Build, e: Expr, g: Graph, start: Place, n: nat, s: State, y: nat)
      returns (n': nat, s': State)
    requires Holds(GenExpr(b, e).b, g) && s.status.Running?
    requires Leads(rt, g, start, n, Enter(GenExpr(b, e).enter, s))
    requires Follows(GenExpr(b, e).b, g, GenExpr(b, e).exit, Jump(y))
    ensures Leads(rt, g, start, n', Enter(y, s')) && s'.status.Running? && n' > n
    ensures s'.world == Evaluate(rt, e, s.world).1 && s'.trace == s.trace
    ensures Get(rt, s'.temps, GenExpr(b, e).v) == Evaluate(rt, e, s.world).0
  {
    hide *;
    var c := GenExpr(b, e);
    var m;
    m, s' := ExprRuns(rt, b, e, g, s);
    EvaluatedTrace(rt, Evaluate(rt, e, s.world), b.vars, c, s, s');
    LeadsOn(rt, g, start, n, Enter(c.enter, s), m, Place(c.exit, s'));
    ThenJump(rt, c.b, g, start, n + m, c.exit, y, s');
    n' := n + m + 1;
  }

  lemma EvaluatedTrace(rt: Runtime<Text>, r: (Value, World), vars: nat, c: Code, s: State, s': State)
    requires Evaluated(rt, r, vars, c, s, s')
    ensures AtEnd(c.b, c.exit, s') && s'.status.Running? && s'.world == r.1 && s'.trace == s.trace &&
        Get(rt, s'.temps, c.v) == r.0
  {
  }

  // ----- how statements are linked -----

  lemma UseLinks(b: Build, e: Expr, use: nat -> Item<Text>, g: Graph)
    requires Holds(GenUse(b, e, use).b, g)
    ensures var c := GenExpr(NewBlock(b), e);
      && Holds(c.b, g) && Follows(c.b, g, c.exit, Jump(|b.blocks|)) && Opens(g, |b.blocks|, Plain(use(c.v)))
      && GenUse(b, e, use).enter == c.enter && GenUse(b, e, use).exit == |b.blocks|
      && |b.blocks| < |GenUse(b, e, use).b.blocks| && |GenUse(b, e, use).b.blocks[|b.blocks|]| == 1
  {
    var x := |b.blocks|;
    var c := GenExpr(NewBlock(b), e);
    BelowBlock(NewBlock(b), c.b, x);
    HoldsPush(Link(c.b, c.exit, x), x, Plain(use(c.v)), g);
    HoldsPush(c.b, c.exit, Jump(x), g);
  }

  lemma LeapLinks(b: Build, dest: nat, g: Graph)
    requires Holds(GenLeap(b, dest).b, g)
    ensures Opens(g, |b.blocks|, Jump(dest)) && GenLeap(b, dest).enter == |b.blocks|
  {
    var more: seq<Block> := [[Jump(dest)], []];
    HoldsAppend(b, more, b.vars, g);
    assert more[0] <= g[|b.blocks|];
  }

  lemma AllLinks(b: Build, body: seq<Stmt>, bps: seq<Points>, g: Graph)
    requires (forall i :: 0 <= i < |body| ==> Looped(body[i], bps != [])) && body != []
    requires Holds(GenAll(b, body, bps).b, g)
    ensures var last := |body| - 1;
      var before := GenAll(b, body[..last], bps);
      var p := GenStmt(before.b, body[last], bps);
      && Holds(before.b, g) && Holds(p.b, g) && Follows(before.b, g, before.exit, Jump(p.enter))
      && GenAll(b, body, bps).enter == before.enter && GenAll(b, body, bps).exit == p.exit
      && p.exit < |p.b.blocks| == |GenAll(b, body, bps).b.blocks| &&
          GenAll(b, body, bps).b.blocks[p.exit] == p.b.blocks[p.exit]
  {
    var last := |body| - 1;
    var before := GenAll(b, body[..last], bps);
    var p := GenStmt(before.b, body[last], bps);
    HoldsPush(p.b, before.exit, Jump(p.enter), g);
    HoldsBelow(before.b, p.b, g);
    BelowBlock(before.b, p.b, before.exit);
  }

  lemma EmptyBlocks(b: Build, n: nat, a: Build, x: nat)
    requires Above(Blocks(b, n), a) && |b.blocks| <= x < |b.blocks| + n
    ensures x < |a.blocks| && a.blocks[x] == []
  {
    BlocksAbove(b, n);
    BelowBlock(Blocks(b, n), a, x);
  }

  ghost predicate ThenIs(b: Build, st: Stmt, bps: seq<Points>, t: Code, y: Part)
    requires st.If? && Looped(st, bps != [])
  {
    && Above(b, t.b) && t == GenExpr(Blocks(b, 2), st.test) && |b.blocks| + 2 <= t.exit < |t.b.blocks|
    && y == GenStmt(Link(t.b, t.exit, |b.blocks|), st.consequent, bps)
  }

  /** What is in the graph of an `if`, when `last` is the arm built last. */
  lemma IfLinks(b: Build, st: Stmt, bps: seq<Points>, t: Code, y: Part, last: Part, onFalse: nat, g: Graph)
    requires st.If? && Looped(st, bps != []) && ThenIs(b, st, bps, t, y)
    requires Above(y.b, last.b) || Above(Link(y.b, y.exit, |b.blocks| + 1), last.b)
    requires |b.blocks| + 2 <= last.exit < |last.b.blocks| && Above(b, last.b)
    requires Holds(Push(Link(last.b, last.exit, |b.blocks| + 1), |b.blocks|, Branch(t.v, y.enter, onFalse)), g)
    ensures Holds(t.b, g) && Follows(t.b, g, t.exit, Jump(|b.blocks|)) && Holds(y.b, g) && Holds(last.b, g)
    ensures Opens(g, |b.blocks|, Branch(t.v, y.enter, onFalse)) && Follows(last.b, g, last.exit, Jump(|b.blocks| + 1))
    ensures Above(Link(y.b, y.exit, |b.blocks| + 1), last.b) ==> Follows(y.b, g, y.exit, Jump(|b.blocks| + 1))
    ensures |b.blocks| + 1 < |last.b.blocks| && last.b.blocks[|b.blocks| + 1] == []
  {
    var fork, merge := |b.blocks|, |b.blocks| + 1;
    BlocksAbove(b, 2);
    EmptyBlocks(b, 2, t.b, fork);
    EmptyBlocks(b, 2, t.b, merge);
    BelowBlock(Link(t.b, t.exit, fork), y.b, fork);
    BelowBlock(Link(t.b, t.exit, fork), y.b, merge);
    var y' := if Above(y.b, last.b) then y.b else Link(y.b, y.exit, merge);
    BelowBlock(y', last.b, fork);
    BelowBlock(y', last.b, merge);
    HoldsPush(Link(last.b, last.exit, merge), fork, Branch(t.v, y.enter, onFalse), g);
    HoldsPush(last.b, last.exit, Jump(merge), g);
    HoldsBelow(y', last.b, g);
    if Above(Link(y.b, y.exit, merge), last.b) {
      HoldsBelow(Link(y.b, y.exit, merge), last.b, g);
      HoldsPush(y.b, y.exit, Jump(merge), g);
    }
    HoldsBelow(Link(t.b, t.exit, fork), y.b, g);
    HoldsPush(t.b, t.exit, Jump(fork), g);
  }

  ghost predicate TurnIs(b: Build, test: Expr, loop: Stmt, bps: seq<Points>, t: Code, y: Part)
    requires Looped(loop, true)
  {
    && Above(b, t.b) && t == GenExpr(Blocks(b, 4), test) && |b.blocks| + 4 <= t.exit < |t.b.blocks|
    && y == GenStmt(Link(Link(t.b, |b.blocks|, t.enter), t.exit, |b.blocks| + 1), loop,
        bps + [Points(|b.blocks| + 3, |b.blocks|)])
    && |t.b.blocks| <= y.exit < |y.b.blocks|
  }

  lemma WhileParts(b: Build, test: Expr, loop: Stmt, bps: seq<Points>) returns (t: Code, y: Part)
    requires Looped(loop, true)
    ensures TurnIs(b, test, loop, bps, t, y) && Above(b, y.b) && GenWhile(b, test, loop, bps) == JoinWhile(b, t, y)
  {
    hide GenStmt, GenExpr, Blocks;
    BlocksAbove(b, 4);
    t := GenExpr(Blocks(b, 4), test);
    y := GenTurn(b, t, loop, bps + [Points(|b.blocks| + 3, |b.blocks|)]);
  }

  lemma WhileEmpties(b: Build, test: Expr, loop: Stmt, bps: seq<Points>, t: Code, y: Part)
    requires Looped(loop, true) && TurnIs(b, test, loop, bps, t, y)
    ensures var prelude, entry, again, merge := |b.blocks|, |b.blocks| + 1, |b.blocks| + 2, |b.blocks| + 3;
      && merge < t.exit < |t.b.blocks| <= y.exit < |y.b.blocks|
      && (forall x :: prelude <= x <= merge ==> t.b.blocks[x] == [])
      && y.b.blocks[entry] == y.b.blocks[again] == y.b.blocks[merge] == []
      && Above(Link(Link(t.b, prelude, t.enter), t.exit, entry), y.b)
  {
    hide GenStmt, GenExpr;
    var prelude, entry, again, merge := |b.blocks|, |b.blocks| + 1, |b.blocks| + 2, |b.blocks| + 3;
    BlocksAbove(b, 4);
    forall x | prelude <= x <= merge ensures t.b.blocks[x] == [] { EmptyBlocks(b, 4, t.b, x); }
    var in2 := Link(Link(t.b, prelude, t.enter), t.exit, entry);
    BelowBlock(in2, y.b, entry);
    BelowBlock(in2, y.b, again);
    BelowBlock(in2, y.b, merge);
  }

  lemma WhileLinks(b: Build, test: Expr, loop: Stmt, bps: seq<Points>, t: Code, y: Part, g: Graph)
    requires Looped(loop, true) && TurnIs(b, test, loop, bps, t, y) && Above(b, y.b) && Holds(JoinWhile(b, t, y).b, g)
    ensures var prelude, entry, again, merge := |b.blocks|, |b.blocks| + 1, |b.blocks| + 2, |b.blocks| + 3;
      && Holds(t.b, g) && Holds(y.b, g)
      && Opens(g, prelude, Jump(t.enter)) && Follows(t.b, g, t.exit, Jump(entry))
      && Opens(g, entry, Branch(t.v, y.enter, merge))
      && Follows(y.b, g, y.exit, Jump(again)) && Opens(g, again, Jump(prelude))
      && merge < |JoinWhile(b, t, y).b.blocks| && JoinWhile(b, t, y).b.blocks[merge] == []
  {
    hide GenStmt, GenExpr, Holds, TurnIs, Above;
    var prelude, entry, again, merge := |b.blocks|, |b.blocks| + 1, |b.blocks| + 2, |b.blocks| + 3;
    WhileEmpties(b, test, loop, bps, t, y);
    var in1 := Link(t.b, prelude, t.enter);
    var in2 := Link(in1, t.exit, entry);
    var out1 := Link(y.b, y.exit, again);
    var out2 := Link(out1, again, prelude);
    HoldsPush(out2, entry, Branch(t.v, y.enter, merge), g);
    HoldsPush(out1, again, Jump(prelude), g);
    HoldsPush(y.b, y.exit, Jump(again), g);
    HoldsBelow(in2, y.b, g);
    HoldsPush(in1, t.exit, Jump(entry), g);
    HoldsPush(t.b, prelude, Jump(t.enter), g);
  }

  ghost predicate DoIs(b: Build, loop: Stmt, test: Expr, bps: seq<Points>, y: Part, t: Code)
    requires Looped(loop, true)
  {
    && y == GenStmt(Blocks(b, 3), loop, bps + [Points(|b.blocks| + 2, |b.blocks| + 2)])
    && |b.blocks| + 3 <= y.exit < |y.b.blocks| && Above(b, y.b)
    && |b.blocks| < |y.b.blocks| && t == GenExpr(Link(y.b, |b.blocks|, y.enter), test)
    && |y.b.blocks| <= t.exit < |t.b.blocks| && Above(b, t.b)
  }

  lemma DoParts(b: Build, loop: Stmt, test: Expr, bps: seq<Points>) returns (y: Part, t: Code)
    requires Looped(loop, true)
    ensures DoIs(b, loop, test, bps, y, t) && GenDo(b, loop, test, bps) == JoinDo(b, y, t)
  {
    hide GenStmt, GenExpr, Blocks;
    BlocksAbove(b, 3);
    y := GenStmt(Blocks(b, 3), loop, bps + [Points(|b.blocks| + 2, |b.blocks| + 2)]);
    t := GenRetest(b, y, test);
  }

  lemma DoLinks(b: Build, loop: Stmt, test: Expr, bps: seq<Points>, y: Part, t: Code, g: Graph)
    requires Looped(loop, true) && DoIs(b, loop, test, bps, y, t) && Above(b, t.b) && Holds(JoinDo(b, y, t).b, g)
    ensures var prelude, entry, merge := |b.blocks|, |b.blocks| + 1, |b.blocks| + 2;
      && Holds(t.b, g) && Holds(y.b, g)
      && Opens(g, prelude, Jump(y.enter)) && Follows(y.b, g, y.exit, Jump(t.enter))
      && Follows(t.b, g, t.exit, Jump(entry)) && Opens(g, entry, Branch(t.v, prelude, merge))
      && merge < |JoinDo(b, y, t).b.blocks| && JoinDo(b, y, t).b.blocks[merge] == []
  {
    hide GenStmt, GenExpr, Blocks, Looped;
    var prelude, entry, merge := |b.blocks|, |b.blocks| + 1, |b.blocks| + 2;
    BlocksAbove(b, 3);
    forall x | prelude <= x <= merge ensures y.b.blocks[x] == [] { EmptyBlocks(b, 3, y.b, x); }
    var in1 := Link(y.b, prelude, y.enter);
    forall x | x in [entry, merge] ensures t.b.blocks[x] == [] { BelowBlock(in1, t.b, x); }
    BelowBlock(in1, t.b, y.exit);
    var out1 := Link(t.b, y.exit, t.enter);
    var out2 := Link(out1, t.exit, entry);
    HoldsPush(out2, entry, Branch(t.v, prelude, merge), g);
    HoldsPush(out1, t.exit, Jump(entry), g);
    HoldsPush(t.b, y.exit, Jump(t.enter), g);
    HoldsBelow(in1, t.b, g);
    HoldsPush(y.b, prelude, Jump(y.enter), g);
  }

  lemma StepLinks(b: Build, e: Option<Expr>, from: nat, to: nat, g: Graph)
    requires from < |b.blocks| && b.blocks[from] == [] && Holds(GenStep(b, e, from, to), g)
    ensures Holds(b, g)
    ensures e.None? ==> Opens(g, from, Jump(to))
    ensures e.Some? ==> var c := GenExpr(b, e.value);
      Opens(g, from, Jump(c.enter)) && Holds(c.b, g) && Follows(c.b, g, c.exit, Jump(to))
  {
    hide GenExpr;
    if e.None? {
      HoldsPush(b, from, Jump(to), g);
    } else {
      var c := GenExpr(b, e.value);
      BelowBlock(b, c.b, from);
      HoldsPush(Link(c.b, c.exit, to), from, Jump(c.enter), g);
      HoldsPush(c.b, c.exit, Jump(to), g);
      HoldsBelow(b, c.b, g);
    }
  }

  lemma CheckLinks(b: Build, check: Option<Expr>, test: nat, body: nat, merge: nat, g: Graph)
    requires test < |b.blocks| && b.blocks[test] == [] && Holds(GenCheck(b, check, test, body, merge), g)
    ensures Holds(b, g)
    ensures check.None? ==> Opens(g, test, Jump(body))
    ensures check.Some? ==> var c := GenExpr(NewBlock(b), check.value);
      && Opens(g, test, Jump(c.enter)) && Holds(c.b, g) && Follows(c.b, g, c.exit, Jump(|b.blocks|))
      && Opens(g, |b.blocks|, Branch(c.v, body, merge))
  {
    if check.None? {
      HoldsPush(b, test, Jump(body), g);
    } else {
      var fork := |b.blocks|;
      var c := GenExpr(NewBlock(b), check.value);
      BelowBlock(NewBlock(b), c.b, test);
      BelowBlock(NewBlock(b), c.b, fork);
      var once := Link(c.b, test, c.enter);
      HoldsPush(Link(once, c.exit, fork), fork, Branch(c.v, body, merge), g);
      HoldsPush(once, c.exit, Jump(fork), g);
      HoldsPush(c.b, test, Jump(c.enter), g);
      HoldsBelow(NewBlock(b), c.b, g);
      HoldsBelow(b, NewBlock(b), g);
    }
  }

  /** The stages of a `for` loop. */
  ghost predicate ForIs(b: Build, init: Option<Expr>, check: Option<Expr>, update: Option<Expr>, loop: Stmt,
      bps: seq<Points>, i: Build, y: Part, c: Build)
    requires Looped(loop, true)
  {
    var start, test, step, merge := |b.blocks|, |b.blocks| + 1, |b.blocks| + 2, |b.blocks| + 3;
    && |Blocks(b, 4).blocks| == |b.blocks| + 4
    && i == GenStep(Blocks(b, 4), init, start, test)
    && y == GenStmt(i, loop, bps + [Points(merge, test)])
    && c == GenCheck(Link(y.b, y.exit, step), check, test, y.enter, merge)
  }

  lemma ForParts(b: Build, init: Option<Expr>, check: Option<Expr>, update: Option<Expr>, loop: Stmt, bps: seq<Points>)
    returns (i: Build, y: Part, c: Build)
    requires Looped(loop, true)
    ensures ForIs(b, init, check, update, loop, bps, i, y, c) && |b.blocks| + 4 <= |c.blocks|
    ensures GenFor(b, init, check, update, loop, bps)
      == Part(GenStep(c, update, |b.blocks| + 2, |b.blocks| + 1), |b.blocks|, |b.blocks| + 3)
  {
    hide GenStmt, GenExpr, GenCheck, GenStep, Blocks, Looped;
    var start, test, step, merge := |b.blocks|, |b.blocks| + 1, |b.blocks| + 2, |b.blocks| + 3;
    BlocksAbove(b, 4);
    i := GenStep(Blocks(b, 4), init, start, test);
    y := GenStmt(i, loop, bps + [Points(merge, test)]);
    c := GenCheck(Link(y.b, y.exit, step), check, test, y.enter, merge);
  }

  /** The blocks of a `for` loop that are still empty at each stage. */
  lemma ForEmpty(b: Build, init: Option<Expr>, check: Option<Expr>, update: Option<Expr>, loop: Stmt, bps: seq<Points>,
      i: Build, y: Part, c: Build)
    requires Looped(loop, true) && ForIs(b, init, check, update, loop, bps, i, y, c)
    ensures var start, test, step, merge := |b.blocks|, |b.blocks| + 1, |b.blocks| + 2, |b.blocks| + 3;
      && merge < |Blocks(b, 4).blocks| <= |i.blocks| <= |y.b.blocks| <= |c.blocks|
      && |i.blocks| <= y.exit < |y.b.blocks|
      && Blocks(b, 4).blocks[start] == []
      && y.b.blocks[test] == [] && Link(y.b, y.exit, step).blocks[test] == []
      && c.blocks[step] == [] && c.blocks[merge] == []
      && GenStep(c, update, step, test).blocks[merge] == []
  {
    BlocksAbove(b, 4);
    var test, step, merge := |b.blocks| + 1, |b.blocks| + 2, |b.blocks| + 3;
    forall x | x in [test, step, merge] ensures y.b.blocks[x] == [] {
      assert i.blocks[x] == Blocks(b, 4).blocks[x];
      BelowBlock(i, y.b, x);
    }
  }

  lemma ForLinks(b: Build, init: Option<Expr>, check: Option<Expr>, update: Option<Expr>, loop: Stmt, bps: seq<Points>,
      i: Build, y: Part, c: Build, g: Graph)
    requires Looped(loop, true) && ForIs(b, init, check, update, loop, bps, i, y, c)
    requires |b.blocks| + 4 <= |c.blocks| && Holds(GenStep(c, update, |b.blocks| + 2, |b.blocks| + 1), g)
    ensures Holds(c, g) && Holds(y.b, g) && Holds(i, g) && |b.blocks| + 4 <= |y.b.blocks|
    ensures y.exit < |y.b.blocks| && Follows(y.b, g, y.exit, Jump(|b.blocks| + 2))
  {
    hide GenStmt, GenExpr, GenCheck, GenStep;
    ForEmpty(b, init, check, update, loop, bps, i, y, c);
    var start, test, step, merge := |b.blocks|, |b.blocks| + 1, |b.blocks| + 2, |b.blocks| + 3;
    StepLinks(c, update, step, test, g);
    CheckLinks(Link(y.b, y.exit, step), check, test, y.enter, merge, g);
    HoldsPush(y.b, y.exit, Jump(step), g);
    HoldsBelow(i, y.b, g);
  }

  lemma StepRuns(rt: Runtime<Text>, b: Build, e: Option<Expr>, from: nat, to: nat, g: Graph, start: Place, n: nat,
      s: State)
    returns (n': nat, s': State)
    requires from < |b.blocks| && b.blocks[from] == [] && Holds(GenStep(b, e, from, to), g)
    requires Leads(rt, g, start, n, Enter(from, s)) && s.status.Running?
    ensures Leads(rt, g, start, n', Enter(to, s')) && s'.status.Running? && n < n'
    ensures s'.trace == s.trace && s'.world == if e.Some? then Evaluate(rt, e.value, s.world).1 else s.world
  {
    hide *;
    StepLinks(b, e, from, to, g);
    if e.None? {
      OpensJump(rt, g, start, n, from, to, s);
      n', s' := n + 1, s;
    } else {
      OpensJump(rt, g, start, n, from, GenExpr(b, e.value).enter, s);
      n', s' := ExprThenJump(rt, b, e.value, g, start, n + 1, s, to);
    }
  }

  lemma CheckRuns(rt: Runtime<Text>, b: Build, check: Option<Expr>, test: nat, body: nat, merge: nat, g: Graph,
      start: Place, n: nat, s: State)
    returns (n': nat, s': State)
    requires test < |b.blocks| && b.blocks[test] == [] && Holds(GenCheck(b, check, test, body, merge), g)
    requires Leads(rt, g, start, n, Enter(test, s)) && s.status.Running?
    ensures var r := Checked(rt, check, s.world);
      s'.status.Running? && n < n' && s'.trace == s.trace && s'.world == r.1
      && Leads(rt, g, start, n', Enter(if r.0 then body else merge, s'))
  {
    hide Leads, Holds, Opens, GenCheck, GenExpr, Evaluate, Follows, Enter;
    CheckLinks(b, check, test, body, merge, g);
    if check.None? {
      OpensJump(rt, g, start, n, test, body, s);
      n', s' := n + 1, s;
    } else {
      var c := GenExpr(NewBlock(b), check.value);
      OpensJump(rt, g, start, n, test, c.enter, s);
      n', s' := ExprThenJump(rt, NewBlock(b), check.value, g, start, n + 1, s, |b.blocks|);
      OpensBranch(rt, g, start, n', |b.blocks|, c.v, body, merge, s');
      n' := n' + 1;
    }
  }

  lemma DeclaratorsLinks(b: Build, ds: seq<Declarator>, g: Graph)
    requires ds != [] && GenDeclarators(b, ds).Some? && Holds(GenDeclarators(b, ds).value.b, g)
    ensures var dcl, before := ds[|ds|-1], GenDeclarators(b, ds[..|ds|-1]);
      var p := GenDeclarators(b, ds).value;
      && (dcl.init.None? ==> before.Some? && before.value == p)
      && (dcl.init.Some? ==>
            var c := GenExpr(if before.Some? then before.value.b else b, dcl.init.value);
            && Holds(c.b, g) && Follows(c.b, g, c.exit, Plain(Do(Store(dcl.name, c.v))))
            && p.exit == c.exit && p.enter == (if before.Some? then before.value.enter else c.enter)
            && c.exit < |p.b.blocks| && c.exit < |c.b.blocks| && |p.b.blocks[c.exit]| == |c.b.blocks[c.exit]| + 1
            && (before.Some? ==>
                Holds(before.value.b, g) && Follows(before.value.b, g, before.value.exit, Jump(c.enter))))
  {
    var dcl, before := ds[|ds|-1], GenDeclarators(b, ds[..|ds|-1]);
    if dcl.init.Some? {
      var c := GenExpr(if before.Some? then before.value.b else b, dcl.init.value);
      var c' := if before.Some? then Link(c.b, before.value.exit, c.enter) else c.b;
      HoldsPush(c', c.exit, Plain(Do(Store(dcl.name, c.v))), g);
      if before.Some? {
        HoldsPush(c.b, before.value.exit, Jump(c.enter), g);
        HoldsBelow(before.value.b, c.b, g);
        BelowBlock(before.value.b, c.b, before.value.exit);
      }
    }
  }

  // ----- statements run -----

  /** An outcome that is not normal passes on to the statement around. */
  lemma PassesOn(b: Build, exit: nat, b': Build, exit': nat, bps: seq<Points>, o: Outcome, fuel: nat, n: nat, n': nat,
      c: Place)
    requires Arrives(b, exit, bps, o, fuel, n, c) && !o.how.Normal? && n <= n'
    ensures Arrives(b', exit', bps, o, fuel, n', c)
  {
  }

  lemma ArrivesAtEnd(b: Build, exit: nat, bps: seq<Points>, o: Outcome, fuel: nat, n: nat, s: State)
    requires o.how.Normal? && AtEnd(b, exit, s) && s.world == o.world && s.trace == o.trace
    ensures Arrives(b, exit, bps, o, fuel, n, Place(exit, s))
  {
  }

  lemma ArrivesMerge(b: Build, x: nat, bps: seq<Points>, o: Outcome, fuel: nat, n: nat, s: State)
    requires o.how.Normal? && x < |b.blocks| && b.blocks[x] == [] && s.status.Running? && s.world == o.world &&
        s.trace == o.trace
    ensures Arrives(b, x, bps, o, fuel, n, Enter(x, s))
  {
  }

  /** From a block's end through a jump. */
  lemma NormalJumps(rt: Runtime<Text>, b: Build, exit: nat, bps: seq<Points>, o: Outcome, fuel: nat, k: nat, g: Graph,
      start: Place, n: nat, c: Place, y: nat)
    requires Arrives(b, exit, bps, o, fuel, k, c) && o.how.Normal?
    requires Leads(rt, g, start, n, c) && Follows(b, g, exit, Jump(y))
    ensures Leads(rt, g, start, n + 1, Enter(y, c.s)) && c.s.status.Running? && c.s.world == o.world &&
        c.s.trace == o.trace
  {
    ThenJump(rt, b, g, start, n, exit, y, c.s);
  }

  /** Running the code of a statement ends where its outcome leads. */
  lemma {:induction false} StmtRuns(rt: Runtime<Text>, b: Build, st: Stmt, bps: seq<Points>, g: Graph, fuel: nat,
      start: Place, n0: nat, s: State)
    returns (n: nat, c: Place)
    requires Looped(st, bps != []) && Holds(GenStmt(b, st, bps).b, g) && s.status.Running?
    requires Leads(rt, g, start, n0, Enter(GenStmt(b, st, bps).enter, s))
    ensures Leads(rt, g, start, n, c) && n0 <= n
    ensures Arrives(GenStmt(b, st, bps).b, GenStmt(b, st, bps).exit, bps,
        Exec(rt, Compiled, st, fuel, s.world, s.trace), fuel, n - n0, c)
    decreases fuel, st, 2
  {
    hide GenIf, GenWhile, GenDo, GenFor, GenAll, GenVar, GenUse, GenLeap, GenExpr, Holds, Leads, Follows, Evaluate,
        ExecAll, ExecFor, Declared, Arrives;
    match st
    case Empty =>
      n, c := n0, Enter(|b.blocks|, s);
      ArrivesMerge(NewBlock(b), |b.blocks|, bps, Outcome(Normal, s.world, s.trace), fuel, 0, s);
    case Block(body) =>
      n, c := AllRun(rt, b, body, bps, g, fuel, start, n0, s);
    case Eval(e) =>
      n, c := EvalRuns(rt, b, e, bps, g, fuel, start, n0, s);
    case Inspect(e) =>
      n, c := UseRuns(rt, b, st, bps, g, fuel, start, n0, s);
    case Return(e) =>
      n, c := UseRuns(rt, b, st, bps, g, fuel, start, n0, s);
    case Break =>
      n, c := LeapRuns(rt, b, st, bps, g, fuel, start, n0, s);
    case Continue =>
      n, c := LeapRuns(rt, b, st, bps, g, fuel, start, n0, s);
    case If(_, _, _) =>
      n, c := IfRuns(rt, b, st, bps, g, fuel, start, n0, s);
    case While(test, loop) =>
      var t, y := WhileParts(b, test, loop, bps);
      WhileEnters(b, t, y);
      n, c := WhileRuns(rt, b, test, loop, bps, g, fuel, start, n0, s, t, y);
    case DoWhile(loop, test) =>
      var y, t := DoParts(b, loop, test, bps);
      DoEnters(b, y, t);
      n, c := DoRuns(rt, b, loop, test, bps, g, fuel, start, n0, s, y, t);
    case For(init, check, update, loop) =>
      n, c := ForRuns(rt, b, st, bps, g, fuel, start, n0, s);
    case Var(declarators) =>
      n, c := VarRuns(rt, b, declarators, bps, g, fuel, start, n0, s);
  }

  /** A `break` or a `continue`. */
  lemma LeapRuns(rt: Runtime<Text>, b: Build, st: Stmt, bps: seq<Points>, g: Graph, fuel: nat, start: Place, n0: nat,
      s: State)
    returns (n: nat, c: Place)
    requires (st.Break? || st.Continue?) && bps != [] && Holds(GenStmt(b, st, bps).b, g) && s.status.Running?
    requires Leads(rt, g, start, n0, Enter(GenStmt(b, st, bps).enter, s))
    ensures Leads(rt, g, start, n, c) && n0 <= n
    ensures Arrives(GenStmt(b, st, bps).b, GenStmt(b, st, bps).exit, bps,
        Exec(rt, Compiled, st, fuel, s.world, s.trace), fuel, n - n0, c)
  {
    hide Holds, Leads, Follows;
    var dest := if st.Break? then bps[|bps|-1].brk else bps[|bps|-1].cont;
    LeapLinks(b, dest, g);
    OpensJump(rt, g, start, n0, |b.blocks|, dest, s);
    n, c := n0 + 1, Enter(dest, s);
  }

  lemma WhileEnters(b: Build, t: Code, y: Part)
    requires Above(b, y.b) && |b.blocks| + 4 <= |y.b.blocks| && |b.blocks| <= y.exit < |y.b.blocks|
    ensures JoinWhile(b, t, y).enter == |b.blocks| && JoinWhile(b, t, y).exit == |b.blocks| + 3
  {
  }

  lemma DoEnters(b: Build, y: Part, t: Code)
    requires Above(b, t.b) && |b.blocks| + 3 <= |t.b.blocks| && |b.blocks| <= y.exit < |t.b.blocks| &&
        |b.blocks| <= t.exit < |t.b.blocks|
    ensures JoinDo(b, y, t).enter == |b.blocks| && JoinDo(b, y, t).exit == |b.blocks| + 2
  {
  }

  lemma EvalRuns(rt: Runtime<Text>, b: Build, e: Expr, bps: seq<Points>, g: Graph, fuel: nat, start: Place, n0: nat,
      s: State)
    returns (n: nat, c: Place)
    requires Holds(GenExpr(b, e).b, g) && s.status.Running?
    requires Leads(rt, g, start, n0, Enter(GenExpr(b, e).enter, s))
    ensures Leads(rt, g, start, n, c) && n0 <= n
    ensures Arrives(GenExpr(b, e).b, GenExpr(b, e).exit, bps, Outcome(Normal, Evaluate(rt, e, s.world).1, s.trace),
        fuel, n - n0, c)
  {
    hide *;
    var m, s' := ExprRuns(rt, b, e, g, s);
    var code := GenExpr(b, e);
    EvaluatedTrace(rt, Evaluate(rt, e, s.world), b.vars, code, s, s');
    LeadsOn(rt, g, start, n0, Enter(code.enter, s), m, Place(code.exit, s'));
    n, c := n0 + m, Place(code.exit, s');
    ArrivesAtEnd(code.b, code.exit, bps, Outcome(Normal, Evaluate(rt, e, s.world).1, s.trace), fuel, n - n0, s');
  }

  lemma UseRuns(rt: Runtime<Text>, b: Build, st: Stmt, bps: seq<Points>, g: Graph, fuel: nat, start: Place, n0: nat,
      s: State)
    returns (n: nat, c: Place)
    requires (st.Inspect? || st.Return?) && Holds(GenStmt(b, st, bps).b, g) && s.status.Running?
    requires Leads(rt, g, start, n0, Enter(GenStmt(b, st, bps).enter, s))
    ensures Leads(rt, g, start, n, c) && n0 <= n
    ensures Arrives(GenStmt(b, st, bps).b, GenStmt(b, st, bps).exit, bps,
        Exec(rt, Compiled, st, fuel, s.world, s.trace), fuel, n - n0, c)
  {
    hide GenUse, GenExpr, Holds, Leads, Follows, Evaluate;
    var use := if st.Inspect? then InspectIt else ReturnIt;
    UseLinks(b, st.expr, use, g);
    var code := GenExpr(NewBlock(b), st.expr);
    var m, s1 := ExprThenJump(rt, NewBlock(b), st.expr, g, start, n0, s, |b.blocks|);
    ThenStep(rt, g, start, m, Enter(|b.blocks|, s1));
    n, c := m + 1, Cfg.Step(rt, g, Enter(|b.blocks|, s1));
  }

  lemma {:induction false} AllRun(rt: Runtime<Text>, b: Build, body: seq<Stmt>, bps: seq<Points>, g: Graph, fuel: nat,
      start: Place, n0: nat, s: State)
    returns (n: nat, c: Place)
    requires (forall i :: 0 <= i < |body| ==> Looped(body[i], bps != [])) && Holds(GenAll(b, body, bps).b, g) &&
        s.status.Running?
    requires Leads(rt, g, start, n0, Enter(GenAll(b, body, bps).enter, s))
    ensures Leads(rt, g, start, n, c) && n0 <= n
    ensures Arrives(GenAll(b, body, bps).b, GenAll(b, body, bps).exit, bps,
        ExecAll(rt, Compiled, body, fuel, s.world, s.trace), fuel, n - n0, c)
    decreases fuel, body, 2
  {
    hide GenStmt, GenExpr, Holds, Leads, Follows, Exec, Arrives;
    var w, tr := s.world, s.trace;
    if body == [] {
      n, c := n0, Enter(|b.blocks|, s);
      ArrivesMerge(NewBlock(b), |b.blocks|, bps, Outcome(Normal, w, tr), fuel, 0, s);
      return;
    }
    var last := |body| - 1;
    AllLinks(b, body, bps, g);
    var before := GenAll(b, body[..last], bps);
    var p := GenStmt(before.b, body[last], bps);
    var whole := GenAll(b, body, bps);
    var o := ExecAll(rt, Compiled, body[..last], fuel, w, tr);
    n, c := AllRun(rt, b, body[..last], bps, g, fuel, start, n0, s);
    if !o.how.Normal? {
      PassesOn(before.b, before.exit, whole.b, whole.exit, bps, o, fuel, n - n0, n - n0, c);
    } else {
      NormalJumps(rt, before.b, before.exit, bps, o, fuel, n - n0, g, start, n, c, p.enter);
      var m := n + 1;
      n, c := StmtRuns(rt, before.b, body[last], bps, g, fuel, start, m, c.s);
      SameExit(p.b, p.exit, whole.b, bps, Exec(rt, Compiled, body[last], fuel, o.world, o.trace), fuel, n - m, n - n0,
          c);
    }
  }

  /** Later building left the exit alone. */
  lemma SameExit(b: Build, exit: nat, b': Build, bps: seq<Points>, o: Outcome, fuel: nat, n: nat, n': nat, c: Place)
    requires Arrives(b, exit, bps, o, fuel, n, c) && n <= n'
    requires exit < |b.blocks| && exit < |b'.blocks| && b'.blocks[exit] == b.blocks[exit]
    ensures Arrives(b', exit, bps, o, fuel, n', c)
  {
  }

  // ----- if -----

  lemma ArmToMerge(rt: Runtime<Text>, b: Build, exit: nat, b': Build, merge: nat, bps: seq<Points>, o: Outcome,
      fuel: nat, k: nat, g: Graph, start: Place, n: nat, c: Place) returns (n': nat, c': Place)
    requires Arrives(b, exit, bps, o, fuel, k, c) && Leads(rt, g, start, n, c) && Follows(b, g, exit, Jump(merge))
    requires merge < |b'.blocks| && b'.blocks[merge] == []
    ensures Leads(rt, g, start, n', c') && n <= n' && Arrives(b', merge, bps, o, fuel, k + (n' - n), c')
  {
    hide *;
    if o.how.Normal? {
      NormalJumps(rt, b, exit, bps, o, fuel, k, g, start, n, c, merge);
      n', c' := n + 1, Enter(merge, c.s);
      ArrivesMerge(b', merge, bps, o, fuel, k + 1, c.s);
    } else {
      n', c' := n, c;
      PassesOn(b, exit, b', merge, bps, o, fuel, k, k, c);
    }
  }

  ghost predicate IfIs(b: Build, st: Stmt, bps: seq<Points>, t: Code, y: Part, last: Part, onFalse: nat)
    requires st.If? && Looped(st, bps != [])
  {
    && ThenIs(b, st, bps, t, y)
    && |b.blocks| + 2 <= y.exit < |y.b.blocks|
    && |b.blocks| + 2 <= last.exit < |last.b.blocks| && Above(b, last.b)
    && (if st.alternate.None? then last == y && onFalse == |b.blocks| + 1 && Above(y.b, last.b)
        else last == GenStmt(Link(y.b, y.exit, |b.blocks| + 1), st.alternate.value, bps) && onFalse == last.enter
             && Above(Link(y.b, y.exit, |b.blocks| + 1), last.b))
  }

  lemma IfParts(b: Build, st: Stmt, bps: seq<Points>) returns (t: Code, y: Part, last: Part, onFalse: nat)
    requires st.If? && Looped(st, bps != [])
    ensures IfIs(b, st, bps, t, y, last, onFalse)
    ensures GenIf(b, st, bps) == Part(Push(Link(last.b, last.exit, |b.blocks| + 1), |b.blocks|,
        Branch(t.v, y.enter, onFalse)), t.enter, |b.blocks| + 1)
  {
    hide GenStmt, GenExpr, Blocks;
    BlocksAbove(b, 2);
    t := GenExpr(Blocks(b, 2), st.test);
    y := GenThen(b, t, st.consequent, bps);
    if st.alternate.None? {
      last, onFalse := y, |b.blocks| + 1;
    } else {
      last := GenElse(b, y, |b.blocks| + 1, st.alternate.value, bps);
      onFalse := last.enter;
    }
  }

  lemma IfExec(rt: Runtime<Text>, st: Stmt, fuel: nat, w: World, tr: seq<Value>)
    requires st.If?
    ensures var t := Evaluate(rt, st.test, w);
      Exec(rt, Compiled, st, fuel, w, tr) ==
        if rt.truthy(t.0) then Exec(rt, Compiled, st.consequent, fuel, t.1, tr)
        else if st.alternate.Some? then Exec(rt, Compiled, st.alternate.value, fuel, t.1, tr)
        else Outcome(Normal, t.1, tr)
  {
  }

  lemma IfFacts(b: Build, st: Stmt, bps: seq<Points>, t: Code, y: Part, last: Part, onFalse: nat)
    requires st.If? && Looped(st, bps != []) && IfIs(b, st, bps, t, y, last, onFalse)
    ensures Looped(st.consequent, bps != []) && (st.alternate.Some? ==> Looped(st.alternate.value, bps != []))
    ensures t == GenExpr(Blocks(b, 2), st.test) && |b.blocks| + 2 <= t.exit < |t.b.blocks|
    ensures y == GenStmt(Link(t.b, t.exit, |b.blocks|), st.consequent, bps) && |b.blocks| + 2 <= y.exit < |y.b.blocks|
    ensures |b.blocks| + 2 <= last.exit < |last.b.blocks|
    ensures st.alternate.None? ==> last == y && onFalse == |b.blocks| + 1
    ensures st.alternate.Some? ==>
      && last == GenStmt(Link(y.b, y.exit, |b.blocks| + 1), st.alternate.value, bps) && onFalse == last.enter
      && Above(Link(y.b, y.exit, |b.blocks| + 1), last.b)
    ensures ThenIs(b, st, bps, t, y) && (Above(y.b, last.b) || Above(Link(y.b, y.exit, |b.blocks| + 1), last.b)) &&
        Above(b, last.b)
  {
  }

  lemma IfMerge(b: Build, last: Part, node: Node)
    requires |b.blocks| + 2 <= last.exit < |last.b.blocks| && last.b.blocks[|b.blocks| + 1] == []
    ensures var a := Push(Link(last.b, last.exit, |b.blocks| + 1), |b.blocks|, node);
      |b.blocks| + 1 < |a.blocks| && a.blocks[|b.blocks| + 1] == []
  {
  }

  lemma {:induction false} IfRuns(rt: Runtime<Text>, b: Build, st: Stmt, bps: seq<Points>, g: Graph, fuel: nat,
      start: Place, n0: nat, s: State)
    returns (n: nat, c: Place)
    requires st.If? && Looped(st, bps != []) && Holds(GenIf(b, st, bps).b, g) && s.status.Running?
    requires Leads(rt, g, start, n0, Enter(GenIf(b, st, bps).enter, s))
    ensures Leads(rt, g, start, n, c) && n0 <= n
    ensures Arrives(GenIf(b, st, bps).b, GenIf(b, st, bps).exit, bps, Exec(rt, Compiled, st, fuel, s.world, s.trace),
        fuel, n - n0, c)
    decreases fuel, st, 1
  {
    hide *;
    var fork, merge := |b.blocks|, |b.blocks| + 1;
    var whole := GenIf(b, st, bps);
    var t, y, last, onFalse := IfParts(b, st, bps);
    IfFacts(b, st, bps, t, y, last, onFalse);
    IfLinks(b, st, bps, t, y, last, onFalse, g);
    IfMerge(b, last, Branch(t.v, y.enter, onFalse));
    IfExec(rt, st, fuel, s.world, s.trace);
    var n1, s1 := ExprThenJump(rt, Blocks(b, 2), st.test, g, start, n0, s, fork);
    OpensBranch(rt, g, start, n1, fork, t.v, y.enter, onFalse, s1);
    var o := Exec(rt, Compiled, st, fuel, s.world, s.trace);
    var n2, c2;
    if rt.truthy(Evaluate(rt, st.test, s.world).0) {
      n2, c2 := StmtRuns(rt, Link(t.b, t.exit, fork), st.consequent, bps, g, fuel, start, n1 + 1, s1);
      n, c := ArmToMerge(rt, y.b, y.exit, whole.b, merge, bps, o, fuel, n2 - (n1 + 1), g, start, n2, c2);
      MoreSteps(whole.b, merge, bps, o, fuel, n - (n1 + 1), n - n0, c);
    } else if st.alternate.Some? {
      n2, c2 := StmtRuns(rt, Link(y.b, y.exit, merge), st.alternate.value, bps, g, fuel, start, n1 + 1, s1);
      n, c := ArmToMerge(rt, last.b, last.exit, whole.b, merge, bps, o, fuel, n2 - (n1 + 1), g, start, n2, c2);
      MoreSteps(whole.b, merge, bps, o, fuel, n - (n1 + 1), n - n0, c);
    } else {
      n, c := n1 + 1, Enter(merge, s1);
      ArrivesMerge(whole.b, merge, bps, o, fuel, n - n0, s1);
    }
  }

  lemma MoreSteps(b: Build, exit: nat, bps: seq<Points>, o: Outcome, fuel: nat, n: nat, n': nat, c: Place)
    requires Arrives(b, exit, bps, o, fuel, n, c) && n <= n'
    ensures Arrives(b, exit, bps, o, fuel, n', c)
  {
  }

  // ----- loops -----

  /** What the body of a loop came to, for the loop: it leaves by `break` to `merge`,
      goes on at `cont` after a `continue`, or passes something on. */
  lemma TurnEnds(b: Build, exit: nat, b': Build, merge: nat, cont: nat, bps: seq<Points>, o: Outcome, fuel: nat, n: nat,
      n': nat, c: Place)
    requires Arrives(b, exit, bps + [Points(merge, cont)], o, fuel, n, c)
    requires merge < |b'.blocks| && b'.blocks[merge] == [] && n < n'
    ensures o.how.Broke? ==> c == Enter(merge, c.s) && Arrives(b', merge, bps, o.(how := Normal), fuel + 1, n', c)
    ensures o.how.Continued? ==>
        c == Enter(cont, c.s) && c.s.status.Running? && c.s.world == o.world && c.s.trace == o.trace
    ensures o.how.Gave? || o.how.OutOfFuel? ==> Arrives(b', merge, bps, o, fuel + 1, n', c)
  {
    assert (bps + [Points(merge, cont)])[|bps + [Points(merge, cont)]| - 1] == Points(merge, cont);
  }

  lemma OutOfFuelNow(b: Build, exit: nat, bps: seq<Points>, n: nat, s: State, x: nat)
    requires s.status.Running?
    ensures Arrives(b, exit, bps, Outcome(OutOfFuel, s.world, s.trace), 0, n, Enter(x, s))
  {
  }

  lemma WhileExec(rt: Runtime<Text>, test: Expr, loop: Stmt, fuel: nat, w: World, tr: seq<Value>)
    ensures fuel == 0 ==> Exec(rt, Compiled, While(test, loop), fuel, w, tr) == Outcome(OutOfFuel, w, tr)
    ensures fuel > 0 ==>
      var t := Evaluate(rt, test, w);
      var o := Exec(rt, Compiled, loop, fuel - 1, t.1, tr);
      Exec(rt, Compiled, While(test, loop), fuel, w, tr) ==
        if !rt.truthy(t.0) then Outcome(Normal, t.1, tr)
        else if o.how.Broke? then o.(how := Normal)
        else if o.how.Gave? || o.how.OutOfFuel? then o
        else Exec(rt, Compiled, While(test, loop), fuel - 1, o.world, o.trace)
  {
  }

  lemma TurnFacts(b: Build, test: Expr, loop: Stmt, bps: seq<Points>, t: Code, y: Part)
    requires Looped(loop, true) && TurnIs(b, test, loop, bps, t, y)
    ensures t == GenExpr(Blocks(b, 4), test) && |b.blocks| + 4 <= t.exit < |t.b.blocks| &&
        |b.blocks| < |Link(t.b, |b.blocks|, t.enter).blocks|
    ensures t.exit < |Link(t.b, |b.blocks|, t.enter).blocks|
    ensures y == GenStmt(Link(Link(t.b, |b.blocks|, t.enter), t.exit, |b.blocks| + 1), loop,
        bps + [Points(|b.blocks| + 3, |b.blocks|)])
    ensures bps + [Points(|b.blocks| + 3, |b.blocks|)] != []
    ensures |t.b.blocks| <= y.exit < |y.b.blocks| && |b.blocks| + 4 <= |y.b.blocks|
  {
  }

  lemma {:induction false} WhileRuns(rt: Runtime<Text>, b: Build, test: Expr, loop: Stmt, bps: seq<Points>, g: Graph,
      fuel: nat, start: Place, n0: nat, s: State, t: Code, y: Part)
    returns (n: nat, c: Place)
    requires Looped(loop, true) && TurnIs(b, test, loop, bps, t, y) && Above(b, y.b) && s.status.Running?
    requires Holds(JoinWhile(b, t, y).b, g)
    requires Leads(rt, g, start, n0, Enter(|b.blocks|, s))
    ensures Leads(rt, g, start, n, c) && n0 <= n
    ensures Arrives(JoinWhile(b, t, y).b, |b.blocks| + 3, bps, Exec(rt, Compiled, While(test, loop), fuel, s.world,
        s.trace), fuel, n - n0, c)
    decreases fuel, loop, 3
  {
    hide *;
    var prelude, entry, again, merge := |b.blocks|, |b.blocks| + 1, |b.blocks| + 2, |b.blocks| + 3;
    WhileExec(rt, test, loop, fuel, s.world, s.trace);
    TurnFacts(b, test, loop, bps, t, y);
    var whole := JoinWhile(b, t, y).b;
    if fuel == 0 {
      n, c := n0, Enter(prelude, s);
      OutOfFuelNow(whole, merge, bps, 0, s, prelude);
      return;
    }
    WhileLinks(b, test, loop, bps, t, y, g);
    OpensJump(rt, g, start, n0, prelude, t.enter, s);
    var n1, s1 := ExprThenJump(rt, Blocks(b, 4), test, g, start, n0 + 1, s, entry);
    OpensBranch(rt, g, start, n1, entry, t.v, y.enter, merge, s1);
    var w1 := Evaluate(rt, test, s.world);
    if !rt.truthy(w1.0) {
      n, c := n1 + 1, Enter(merge, s1);
      ArrivesMerge(whole, merge, bps, Outcome(Normal, w1.1, s.trace), fuel, n - n0, s1);
      return;
    }
    var o := Exec(rt, Compiled, loop, fuel - 1, w1.1, s.trace);
    var inner := bps + [Points(merge, prelude)];
    n, c := StmtRuns(rt, Link(Link(t.b, prelude, t.enter), t.exit, entry), loop, inner, g, fuel - 1, start, n1 + 1, s1);
    var k := n - (n1 + 1);
    TurnEnds(y.b, y.exit, whole, merge, prelude, bps, o, fuel - 1, k, n - n0, c);
    if o.how.Normal? || o.how.Continued? {
      var n2 := n;
      if o.how.Normal? {
        NormalJumps(rt, y.b, y.exit, inner, o, fuel - 1, k, g, start, n, c, again);
        OpensJump(rt, g, start, n + 1, again, prelude, c.s);
        n2 := n + 2;
      }
      n, c := WhileRuns(rt, b, test, loop, bps, g, fuel - 1, start, n2, c.s, t, y);
      OneMoreTurn(whole, merge, bps, Exec(rt, Compiled, While(test, loop), fuel - 1, o.world, o.trace), fuel, n - n2,
          n - n0, c);
    }
  }

  lemma OneMoreTurn(b: Build, exit: nat, bps: seq<Points>, o: Outcome, fuel: nat, n: nat, n': nat, c: Place)
    requires fuel > 0 && Arrives(b, exit, bps, o, fuel - 1, n, c) && n < n'
    ensures Arrives(b, exit, bps, o, fuel, n', c)
  {
  }

  lemma DoExec(rt: Runtime<Text>, loop: Stmt, test: Expr, fuel: nat, w: World, tr: seq<Value>)
    ensures fuel == 0 ==> Exec(rt, Compiled, DoWhile(loop, test), fuel, w, tr) == Outcome(OutOfFuel, w, tr)
    ensures fuel > 0 ==>
      var o := Exec(rt, Compiled, loop, fuel - 1, w, tr);
      Exec(rt, Compiled, DoWhile(loop, test), fuel, w, tr) ==
        if o.how.Broke? || o.how.Continued? then o.(how := Normal)
        else if o.how.Gave? || o.how.OutOfFuel? then o
        else var t := Evaluate(rt, test, o.world);
             if rt.truthy(t.0) then Exec(rt, Compiled, DoWhile(loop, test), fuel - 1, t.1, o.trace)
                 else Outcome(Normal, t.1, o.trace)
  {
  }

  lemma DoFacts(b: Build, loop: Stmt, test: Expr, bps: seq<Points>, y: Part, t: Code)
    requires Looped(loop, true) && DoIs(b, loop, test, bps, y, t)
    ensures y == GenStmt(Blocks(b, 3), loop, bps + [Points(|b.blocks| + 2, |b.blocks| + 2)])
    ensures bps + [Points(|b.blocks| + 2, |b.blocks| + 2)] != []
    ensures |b.blocks| < |y.b.blocks| && t == GenExpr(Link(y.b, |b.blocks|, y.enter), test)
    ensures |b.blocks| + 3 <= y.exit < |y.b.blocks| <= t.exit < |t.b.blocks| && Above(b, t.b)
  {
  }

  lemma {:induction false} DoRuns(rt: Runtime<Text>, b: Build, loop: Stmt, test: Expr, bps: seq<Points>, g: Graph,
      fuel: nat, start: Place, n0: nat, s: State, y: Part, t: Code)
    returns (n: nat, c: Place)
    requires Looped(loop, true) && DoIs(b, loop, test, bps, y, t) && Above(b, t.b) && s.status.Running?
    requires Holds(JoinDo(b, y, t).b, g)
    requires Leads(rt, g, start, n0, Enter(|b.blocks|, s))
    ensures Leads(rt, g, start, n, c) && n0 <= n
    ensures Arrives(JoinDo(b, y, t).b, |b.blocks| + 2, bps, Exec(rt, Compiled, DoWhile(loop, test), fuel, s.world,
        s.trace), fuel, n - n0, c)
    decreases fuel, loop, 3
  {
    hide *;
    var prelude, entry, merge := |b.blocks|, |b.blocks| + 1, |b.blocks| + 2;
    DoExec(rt, loop, test, fuel, s.world, s.trace);
    DoFacts(b, loop, test, bps, y, t);
    var whole := JoinDo(b, y, t).b;
    if fuel == 0 {
      n, c := n0, Enter(prelude, s);
      OutOfFuelNow(whole, merge, bps, 0, s, prelude);
      return;
    }
    DoLinks(b, loop, test, bps, y, t, g);
    OpensJump(rt, g, start, n0, prelude, y.enter, s);
    var o := Exec(rt, Compiled, loop, fuel - 1, s.world, s.trace);
    var inner := bps + [Points(merge, merge)];
    n, c := StmtRuns(rt, Blocks(b, 3), loop, inner, g, fuel - 1, start, n0 + 1, s);
    var k := n - (n0 + 1);
    TurnEnds(y.b, y.exit, whole, merge, merge, bps, o, fuel - 1, k, n - n0, c);
    if o.how.Continued? {
      ArrivesMerge(whole, merge, bps, o.(how := Normal), fuel, n - n0, c.s);
    } else if o.how.Normal? {
      NormalJumps(rt, y.b, y.exit, inner, o, fuel - 1, k, g, start, n, c, t.enter);
      var n2, s2 := ExprThenJump(rt, Link(y.b, prelude, y.enter), test, g, start, n + 1, c.s, entry);
      OpensBranch(rt, g, start, n2, entry, t.v, prelude, merge, s2);
      var w2 := Evaluate(rt, test, o.world);
      if rt.truthy(w2.0) {
        n, c := DoRuns(rt, b, loop, test, bps, g, fuel - 1, start, n2 + 1, s2, y, t);
        OneMoreTurn(whole, merge, bps, Exec(rt, Compiled, DoWhile(loop, test), fuel - 1, w2.1, o.trace), fuel,
            n - (n2 + 1), n - n0, c);
      } else {
        n, c := n2 + 1, Enter(merge, s2);
        ArrivesMerge(whole, merge, bps, Outcome(Normal, w2.1, o.trace), fuel, n - n0, s2);
      }
    }
  }

  lemma ForExec(rt: Runtime<Text>, check: Option<Expr>, update: Option<Expr>, loop: Stmt, fuel: nat, w: World,
      tr: seq<Value>)
    ensures fuel == 0 ==> ExecFor(rt, Compiled, check, update, loop, fuel, w, tr) == Outcome(OutOfFuel, w, tr)
    ensures fuel > 0 ==>
      var t := Checked(rt, check, w);
      var o := Exec(rt, Compiled, loop, fuel - 1, t.1, tr);
      ExecFor(rt, Compiled, check, update, loop, fuel, w, tr) ==
        if !t.0 then Outcome(Normal, t.1, tr)
        else if o.how.Broke? then o.(how := Normal)
        else if o.how.Gave? || o.how.OutOfFuel? then o
        else
          var w' := if update.Some? && !o.how.Continued? then Evaluate(rt, update.value, o.world).1 else o.world;
          ExecFor(rt, Compiled, check, update, loop, fuel - 1, w', o.trace)
  {
  }

  lemma ForFacts(b: Build, init: Option<Expr>, check: Option<Expr>, update: Option<Expr>, loop: Stmt, bps: seq<Points>,
      i: Build, y: Part, c: Build)
    requires Looped(loop, true) && ForIs(b, init, check, update, loop, bps, i, y, c)
    ensures |Blocks(b, 4).blocks| == |b.blocks| + 4 && i == GenStep(Blocks(b, 4), init, |b.blocks|, |b.blocks| + 1)
    ensures bps + [Points(|b.blocks| + 3, |b.blocks| + 1)] != []
    ensures y == GenStmt(i, loop, bps + [Points(|b.blocks| + 3, |b.blocks| + 1)]) && y.exit < |y.b.blocks|
    ensures |b.blocks| + 1 < |Link(y.b, y.exit, |b.blocks| + 2).blocks|
    ensures c == GenCheck(Link(y.b, y.exit, |b.blocks| + 2), check, |b.blocks| + 1, y.enter, |b.blocks| + 3)
    ensures |b.blocks| + 2 < |c.blocks|
  {
  }

  lemma {:induction false} ForRuns(rt: Runtime<Text>, b: Build, st: Stmt, bps: seq<Points>, g: Graph, fuel: nat,
      start: Place, n0: nat, s: State)
    returns (n: nat, c: Place)
    requires st.For? && Looped(st.loop, true) && Holds(GenFor(b, st.init, st.check, st.update, st.loop, bps).b, g) &&
        s.status.Running?
    requires Leads(rt, g, start, n0, Enter(GenFor(b, st.init, st.check, st.update, st.loop, bps).enter, s))
    ensures Leads(rt, g, start, n, c) && n0 <= n
    ensures var p := GenFor(b, st.init, st.check, st.update, st.loop, bps);
      Arrives(p.b, p.exit, bps, Exec(rt, Compiled, st, fuel, s.world, s.trace), fuel, n - n0, c)
    decreases fuel, st, 1
  {
    var w' := if st.init.Some? then Evaluate(rt, st.init.value, s.world).1 else s.world;
    assert Exec(rt, Compiled, st, fuel, s.world, s.trace) == ExecFor(rt, Compiled, st.check, st.update, st.loop, fuel,
        w', s.trace);
    hide *;
    var i, y, k := ForParts(b, st.init, st.check, st.update, st.loop, bps);
    ForFacts(b, st.init, st.check, st.update, st.loop, bps, i, y, k);
    ForLinks(b, st.init, st.check, st.update, st.loop, bps, i, y, k, g);
    ForEmpty(b, st.init, st.check, st.update, st.loop, bps, i, y, k);
    var n1, s1 := StepRuns(rt, Blocks(b, 4), st.init, |b.blocks|, |b.blocks| + 1, g, start, n0, s);
    n, c := ForTurns(rt, b, st, bps, g, fuel, start, n1, s1, i, y, k);
    MoreSteps(GenStep(k, st.update, |b.blocks| + 2, |b.blocks| + 1), |b.blocks| + 3, bps,
      ExecFor(rt, Compiled, st.check, st.update, st.loop, fuel, w', s.trace), fuel, n - n1, n - n0, c);
  }

  lemma {:induction false} ForTurns(rt: Runtime<Text>, b: Build, st: Stmt, bps: seq<Points>, g: Graph, fuel: nat,
      start: Place, n0: nat, s: State, i: Build, y: Part, k: Build)
    returns (n: nat, c: Place)
    requires st.For? && Looped(st.loop, true) && ForIs(b, st.init, st.check, st.update, st.loop, bps, i, y, k) &&
        s.status.Running?
    requires |b.blocks| + 4 <= |k.blocks| && Holds(GenStep(k, st.update, |b.blocks| + 2, |b.blocks| + 1), g)
    requires Leads(rt, g, start, n0, Enter(|b.blocks| + 1, s))
    ensures Leads(rt, g, start, n, c) && n0 <= n
    ensures Arrives(GenStep(k, st.update, |b.blocks| + 2, |b.blocks| + 1), |b.blocks| + 3, bps,
      ExecFor(rt, Compiled, st.check, st.update, st.loop, fuel, s.world, s.trace), fuel, n - n0, c)
    decreases fuel, st, 0
  {
    hide *;
    var test, step, merge := |b.blocks| + 1, |b.blocks| + 2, |b.blocks| + 3;
    var loop := st.loop;
    ForExec(rt, st.check, st.update, loop, fuel, s.world, s.trace);
    ForFacts(b, st.init, st.check, st.update, loop, bps, i, y, k);
    ForEmpty(b, st.init, st.check, st.update, loop, bps, i, y, k);
    ForLinks(b, st.init, st.check, st.update, loop, bps, i, y, k, g);
    var whole := GenStep(k, st.update, step, test);
    if fuel == 0 {
      n, c := n0, Enter(test, s);
      OutOfFuelNow(whole, merge, bps, 0, s, test);
      return;
    }
    var n1, s1 := CheckRuns(rt, Link(y.b, y.exit, step), st.check, test, y.enter, merge, g, start, n0, s);
    var r := Checked(rt, st.check, s.world);
    if !r.0 {
      n, c := n1, Enter(merge, s1);
      ArrivesMerge(whole, merge, bps, Outcome(Normal, r.1, s.trace), fuel, n - n0, s1);
      return;
    }
    var o := Exec(rt, Compiled, loop, fuel - 1, r.1, s.trace);
    var inner := bps + [Points(merge, test)];
    n, c := StmtRuns(rt, i, loop, inner, g, fuel - 1, start, n1, s1);
    var m := n - n1;
    TurnEnds(y.b, y.exit, whole, merge, test, bps, o, fuel - 1, m, n - n0, c);
    if o.how.Normal? || o.how.Continued? {
      var n2, s2 := n, c.s;
      if o.how.Normal? {
        NormalJumps(rt, y.b, y.exit, inner, o, fuel - 1, m, g, start, n, c, step);
        n2, s2 := StepRuns(rt, k, st.update, step, test, g, start, n + 1, c.s);
      }
      n, c := ForTurns(rt, b, st, bps, g, fuel - 1, start, n2, s2, i, y, k);
      OneMoreTurn(whole, merge, bps, ExecFor(rt, Compiled, st.check, st.update, loop, fuel - 1, s2.world, s2.trace),
          fuel, n - n2, n - n0, c);
    }
  }

  // ----- var -----

  lemma VarRuns(rt: Runtime<Text>, b: Build, ds: seq<Declarator>, bps: seq<Points>, g: Graph, fuel: nat, start: Place,
      n0: nat, s: State)
    returns (n: nat, c: Place)
    requires Holds(GenVar(b, ds).b, g) && s.status.Running?
    requires Leads(rt, g, start, n0, Enter(GenVar(b, ds).enter, s))
    ensures Leads(rt, g, start, n, c) && n0 <= n
    ensures Arrives(GenVar(b, ds).b, GenVar(b, ds).exit, bps, Outcome(Normal, Declared(rt, ds, s.world), s.trace), fuel,
        n - n0, c)
  {
    hide GenDeclarators, Holds, Leads, Follows, GenExpr, Evaluate, Declared, AtEnd;
    NothingDeclared(rt, b, ds, s.world);
    var p := GenDeclarators(b, ds);
    if p.None? {
      n, c := n0, Enter(|b.blocks|, s);
      EntersEmpty(NewBlock(b), |b.blocks|, s);
    } else {
      var s';
      n, s' := DeclaratorsRun(rt, b, ds, g, start, n0, s);
      c := Place(p.value.exit, s');
    }
  }

  lemma {:induction false} NothingDeclared(rt: Runtime<Text>, b: Build, ds: seq<Declarator>, w: World)
    ensures GenDeclarators(b, ds).None? ==> Declared(rt, ds, w) == w
  {
    if ds != [] { NothingDeclared(rt, b, ds[..|ds|-1], w); }
  }

  lemma DeclaredStep(rt: Runtime<Text>, ds: seq<Declarator>, w: World)
    requires ds != []
    ensures var dcl, w' := ds[|ds|-1], Declared(rt, ds[..|ds|-1], w);
      Declared(rt, ds, w) ==
        if dcl.init.None? then w'
        else var r := Evaluate(rt, dcl.init.value, w'); rt.exec(Store(dcl.name, 0), [r.0], r.1).1
  {
  }

  lemma {:induction false} DeclaratorsRun(rt: Runtime<Text>, b: Build, ds: seq<Declarator>, g: Graph, start: Place,
      n0: nat, s: State)
    returns (n: nat, s': State)
    requires GenDeclarators(b, ds).Some? && Holds(GenDeclarators(b, ds).value.b, g) && s.status.Running?
    requires Leads(rt, g, start, n0, Enter(GenDeclarators(b, ds).value.enter, s))
    ensures Leads(rt, g, start, n, Place(GenDeclarators(b, ds).value.exit, s')) && n0 <= n
    ensures AtEnd(GenDeclarators(b, ds).value.b, GenDeclarators(b, ds).value.exit, s') && s'.status.Running?
    ensures s'.world == Declared(rt, ds, s.world) && s'.trace == s.trace
    decreases |ds|
  {
    hide *;
    SomeDeclared(b, ds);
    DeclaratorsLinks(b, ds, g);
    DeclaredStep(rt, ds, s.world);
    var dcl, before, p := ds[|ds|-1], GenDeclarators(b, ds[..|ds|-1]), GenDeclarators(b, ds).value;
    if dcl.init.None? {
      n, s' := DeclaratorsRun(rt, b, ds[..|ds|-1], g, start, n0, s);
    } else {
      var b1 := if before.Some? then before.value.b else b;
      var code := GenExpr(b1, dcl.init.value);
      var n1, s1 := n0, s;
      if before.Some? {
        n1, s1 := DeclaratorsRun(rt, b, ds[..|ds|-1], g, start, n0, s);
        ThenJump(rt, before.value.b, g, start, n1, before.value.exit, code.enter, s1);
        n1 := n1 + 1;
      } else {
        NothingDeclared(rt, b, ds[..|ds|-1], s.world);
      }
      var m, s2 := ExprRuns(rt, b1, dcl.init.value, g, s1);
      EvaluatedTrace(rt, Evaluate(rt, dcl.init.value, s1.world), b1.vars, code, s1, s2);
      LeadsOn(rt, g, start, n1, Enter(code.enter, s1), m, Place(code.exit, s2));
      s' := StoreRuns(rt, code.b, p.b, g, start, n1 + m, code.exit, dcl.name, code.v, s2);
      n := n1 + m + 1;
    }
  }

  lemma SomeDeclared(b: Build, ds: seq<Declarator>)
    requires GenDeclarators(b, ds).Some?
    ensures ds != []
  {
  }

  lemma StoreRuns(rt: Runtime<Text>, b: Build, b': Build, g: Graph, start: Place, n: nat, x: nat, name: Text, v: nat,
      s: State) returns (s': State)
    requires Leads(rt, g, start, n, Place(x, s)) && AtEnd(b, x, s) && Follows(b, g, x, Plain(Do(Store(name, v))))
    requires x < |b'.blocks| && x < |b.blocks| && |b'.blocks[x]| == |b.blocks[x]| + 1
    ensures Leads(rt, g, start, n + 1, Place(x, s')) && AtEnd(b', x, s') && s'.status.Running?
    ensures s'.trace == s.trace && s'.world == rt.exec(Store(name, 0), [Get(rt, s.temps, v)], s.world).1
  {
    hide Leads;
    ThenStep(rt, g, start, n, Place(x, s));
    StoreDoes(rt, name, v, s);
    s' := Straight(rt, Do(Store(name, v)), s);
  }
}
