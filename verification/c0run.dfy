/** Running what C0 builds: expressions. */
module C0Run {
  import opened Ir
  import opened Cfg
  import opened Ast
  import opened C0

  // ----- graphs that contain what was built -----

  /** Every block of `b` begins the block of that number in `g`. */
  ghost predicate Holds(b: Build, g: Graph) {
    |b.blocks| <= |g| && forall x :: 0 <= x < |b.blocks| ==> b.blocks[x] <= g[x]
  }

  /** In `g`, the node that follows what `b` has of block `x`. */
  ghost predicate Follows(b: Build, g: Graph, x: nat, node: Node) {
    x < |b.blocks| && x < |g| && |b.blocks[x]| < |g[x]| && g[x][|b.blocks[x]|] == node
  }

  lemma HoldsBelow(b: Build, a: Build, g: Graph)
    requires Above(b, a) && Holds(a, g)
    ensures Holds(b, g)
  {
    forall x | 0 <= x < |b.blocks| ensures b.blocks[x] <= g[x] {
      assert a.blocks[..|b.blocks|][x] == b.blocks[x];
      assert a.blocks[x] <= g[x];
    }
  }

  lemma HoldsPush(b: Build, x: nat, node: Node, g: Graph)
    requires x < |b.blocks| && Holds(Push(b, x, node), g)
    ensures Holds(b, g) && Follows(b, g, x, node)
  {
    var b' := Push(b, x, node);
    assert b'.blocks[x] <= g[x];
    assert b'.blocks[x][|b.blocks[x]|] == node;
    forall y | 0 <= y < |b.blocks| ensures b.blocks[y] <= g[y] {
      assert b'.blocks[y] <= g[y];
    }
  }

  lemma HoldsAppend(b: Build, more: seq<Block>, vars: nat, g: Graph)
    requires Holds(Build(b.blocks + more, vars), g)
    ensures Holds(b, g)
    ensures forall i :: 0 <= i < |more| ==> |b.blocks| + i < |g| && more[i] <= g[|b.blocks| + i]
  {
    var a := Build(b.blocks + more, vars);
    forall x | 0 <= x < |b.blocks| ensures b.blocks[x] <= g[x] {
      assert a.blocks[x] <= g[x];
    }
    forall i | 0 <= i < |more| ensures more[i] <= g[|b.blocks| + i] {
      assert a.blocks[|b.blocks| + i] <= g[|b.blocks| + i];
    }
  }

  // ----- steps -----

  /** `n` steps lead from `c` to `c'`. */
  ghost predicate Leads(rt: Runtime<Text>, g: Graph, c: Place, n: nat, c': Place) { Cfg.Run(rt, g, n, c) == c' }

  lemma LeadsOn(rt: Runtime<Text>, g: Graph, c: Place, n: nat, c': Place, m: nat, c'': Place)
    requires Leads(rt, g, c, n, c') && Leads(rt, g, c', m, c'')
    ensures Leads(rt, g, c, n + m, c'')
  {
    Cfg.RunSplit(rt, g, n, m, c);
  }

  lemma OneStep(rt: Runtime<Text>, g: Graph, c: Place)
    ensures Leads(rt, g, c, 1, Cfg.Step(rt, g, c))
  {
    assert Cfg.Run(rt, g, 1, c) == Cfg.Run(rt, g, 0, Cfg.Step(rt, g, c));
  }

  lemma NoStep(rt: Runtime<Text>, g: Graph, c: Place)
    ensures Leads(rt, g, c, 0, c)
  {
  }

  /** At the end of what `b` has of block `x`. */
  ghost predicate AtEnd(b: Build, x: nat, s: State) {
    x < |b.blocks| && s.pc == |b.blocks[x]| && s.status.Running?
  }

  lemma JumpsOn(rt: Runtime<Text>, b: Build, g: Graph, x: nat, y: nat, s: State)
    requires AtEnd(b, x, s) && Follows(b, g, x, Jump(y))
    ensures Leads(rt, g, Place(x, s), 1, Enter(y, s))
  {
    OneStep(rt, g, Place(x, s));
  }

  /** Two straight nodes, the first an allocation. */
  lemma TwoNodes(rt: Runtime<Text>, g: Graph, x: nat, i: nat, v: nat, item: Item<Text>, s: State)
    requires x < |g| && i + 1 < |g[x]| && s.pc == i && s.status.Running?
    requires g[x][i] == Plain(Alloca(v)) && g[x][i+1] == Plain(item) && !IsBranch(item)
    ensures Leads(rt, g, Place(x, s), 2, Place(x, Straight(rt, item, s.(pc := i + 1))))
  {
    var c := Place(x, s);
    OneStep(rt, g, c);
    OneStep(rt, g, Place(x, s.(pc := i + 1)));
    LeadsOn(rt, g, c, 1, Place(x, s.(pc := i + 1)), 1, Cfg.Step(rt, g, Place(x, s.(pc := i + 1))));
  }

  // ----- the value of an expression -----

  ghost predicate TempsKept(rt: Runtime<Text>, n: nat, s: Temps, t: Temps) {
    forall v: nat :: v < n ==> Get(rt, t, v) == Get(rt, s, v)
  }

  /** Control is at the exit of the code, the value of the expression is in its
      temporary, and older temporaries are as they were. */
  ghost predicate Evaluated(rt: Runtime<Text>, r: (Value, World), vars: nat, c: Code, s: State, s': State) {
    && AtEnd(c.b, c.exit, s')
    && s'.world == r.1 && s'.trace == s.trace
    && Get(rt, s'.temps, c.v) == r.0
    && TempsKept(rt, vars, s.temps, s'.temps)
  }

  lemma OneOpRuns(rt: Runtime<Text>, b: Build, op: Op<Text>, g: Graph, s: State) returns (s': State)
    requires Holds(OneOp(b, op).b, g) && s.status.Running?
    requires Def(op) == Some(b.vars)
    ensures Leads(rt, g, Enter(OneOp(b, op).enter, s), 2, Place(OneOp(b, op).exit, s'))
    ensures Evaluated(rt, rt.exec(Shape(op), Fetch(rt, s.temps, Uses(op)), s.world), b.vars, OneOp(b, op), s, s')
  {
    hide Shape, Uses;
    var x := |b.blocks|;
    HoldsAppend(b, [[Plain(Alloca(b.vars)), Plain(Do(op))]], b.vars + 1, g);
    var nodes := [Plain(Alloca(b.vars)), Plain(Do(op))];
    assert nodes <= g[x];
    assert g[x][0] == nodes[0] && g[x][1] == nodes[1];
    TwoNodes(rt, g, x, 0, b.vars, Do(op), s.(pc := 0));
    s' := Straight(rt, Do(op), s.(pc := 1));
  }

  // ----- how the joins are linked -----

  lemma PrefixLinks(b: Build, a: Code, uop: UnaryOp, g: Graph)
    requires CodeAbove(b, a) && Holds(JoinPrefix(b, a, uop).b, g)
    ensures var o := OneOp(a.b, Unary(uop, a.b.vars, a.v));
      && Holds(a.b, g) && Holds(o.b, g) && Follows(a.b, g, a.exit, Jump(o.enter))
      && JoinPrefix(b, a, uop).exit == o.exit && JoinPrefix(b, a, uop).v == o.v
      && o.exit < |o.b.blocks| == |JoinPrefix(b, a, uop).b.blocks| &&
          JoinPrefix(b, a, uop).b.blocks[o.exit] == o.b.blocks[o.exit]
  {
    var o := OneOp(a.b, Unary(uop, a.b.vars, a.v));
    HoldsPush(o.b, a.exit, Jump(o.enter), g);
    HoldsBelow(a.b, o.b, g);
  }

  lemma InfixLinks(b: Build, l: Code, r: Code, bop: BinaryOp, g: Graph)
    requires CodeAbove(b, l) && CodeAbove(l.b, r) && Holds(JoinInfix(b, l, r, bop).b, g)
    ensures var o := OneOp(r.b, Binary(bop, r.b.vars, l.v, r.v));
      && Holds(l.b, g) && Holds(r.b, g) && Holds(o.b, g)
      && Follows(l.b, g, l.exit, Jump(r.enter)) && Follows(r.b, g, r.exit, Jump(o.enter))
      && JoinInfix(b, l, r, bop).exit == o.exit && JoinInfix(b, l, r, bop).v == o.v
      && o.exit < |o.b.blocks| == |JoinInfix(b, l, r, bop).b.blocks| &&
          JoinInfix(b, l, r, bop).b.blocks[o.exit] == o.b.blocks[o.exit]
  {
    var o := OneOp(r.b, Binary(bop, r.b.vars, l.v, r.v));
    var once := Link(o.b, l.exit, r.enter);
    HoldsPush(once, r.exit, Jump(o.enter), g);
    HoldsPush(o.b, l.exit, Jump(r.enter), g);
    HoldsBelow(r.b, o.b, g);
    HoldsBelow(l.b, r.b, g);
    assert o.b.blocks[l.exit] == r.b.blocks[l.exit] == l.b.blocks[l.exit];
  }

  lemma AssignLinks(b: Build, r: Code, target: Text, g: Graph)
    requires CodeAbove(b, r) && Holds(JoinAssign(b, r, target).b, g)
    ensures var x := |r.b.blocks|;
      && Holds(r.b, g) && Follows(r.b, g, r.exit, Jump(x))
      && x + 1 < |g| && |g[x]| >= 2 && g[x][0] == Plain(Do(Store(target, r.v))) && g[x][1] == Jump(x + 1)
      && JoinAssign(b, r, target).b.blocks[x + 1] == []
  {
    var x := |r.b.blocks|;
    var linked := Link(r.b, r.exit, x);
    var nodes := [Plain(Do(Store(target, r.v))), Jump(x + 1)];
    var more: seq<Block> := [nodes, []];
    HoldsAppend(linked, more, r.b.vars, g);
    HoldsPush(r.b, r.exit, Jump(x), g);
    assert more[0] <= g[x] && more[1] <= g[x + 1];
    assert g[x][0] == nodes[0] && g[x][1] == nodes[1];
  }

  lemma ConditionalLinks(b: Build, t: Code, y: Code, n: Code, g: Graph)
    requires CodeAbove(b, t) && CodeAbove(t.b, y) && CodeAbove(y.b, n) && Holds(JoinConditional(b, t, y, n).b, g)
    ensures var fork, tail := |n.b.blocks|, |n.b.blocks| + 1;
      && Holds(t.b, g) && Holds(y.b, g) && Holds(n.b, g)
      && Follows(t.b, g, t.exit, Jump(fork)) && Follows(y.b, g, y.exit, Jump(tail)) &&
          Follows(n.b, g, n.exit, Jump(tail))
      && tail < |g| && |g[fork]| >= 1 && g[fork][0] == Branch(t.v, y.enter, n.enter)
      && |g[tail]| >= 2 && g[tail][0] == Plain(Alloca(n.b.vars)) && g[tail][1] == Plain(Merge(t.v, y.v, n.v, n.b.vars))
  {
    var fork, tail := |n.b.blocks|, |n.b.blocks| + 1;
    var once := Link(n.b, y.exit, tail);
    var twice := Link(once, n.exit, tail);
    var linked := Link(twice, t.exit, fork);
    ConditionalBlocks(linked, t, y, n, g);
    HoldsPush(twice, t.exit, Jump(fork), g);
    HoldsPush(once, n.exit, Jump(tail), g);
    HoldsPush(n.b, y.exit, Jump(tail), g);
    HoldsBelow(y.b, n.b, g);
    HoldsBelow(t.b, y.b, g);
    BelowBlock(y.b, n.b, y.exit);
    BelowBlock(t.b, y.b, t.exit);
    BelowBlock(y.b, n.b, t.exit);
  }

  lemma BelowBlock(b: Build, a: Build, x: nat)
    requires Above(b, a) && x < |b.blocks|
    ensures a.blocks[x] == b.blocks[x]
  {
  }

  lemma ConditionalBlocks(linked: Build, t: Code, y: Code, n: Code, g: Graph)
    requires var m := n.b.vars;
      Holds(Build(linked.blocks + [[Branch(t.v, y.enter, n.enter)], [Plain(Alloca(m)), Plain(Merge(t.v, y.v, n.v, m))]],
          m + 1), g)
    ensures var fork, tail := |linked.blocks|, |linked.blocks| + 1;
      && Holds(linked, g) && tail < |g| && |g[fork]| >= 1 && g[fork][0] == Branch(t.v, y.enter, n.enter)
      && |g[tail]| >= 2 && g[tail][0] == Plain(Alloca(n.b.vars)) && g[tail][1] == Plain(Merge(t.v, y.v, n.v, n.b.vars))
  {
    var fork, tail := |linked.blocks|, |linked.blocks| + 1;
    var more: seq<Block> := [[Branch(t.v, y.enter, n.enter)], [Plain(Alloca(n.b.vars)),
        Plain(Merge(t.v, y.v, n.v, n.b.vars))]];
    HoldsAppend(linked, more, n.b.vars + 1, g);
    assert more[0] <= g[fork] && more[1] <= g[tail];
    assert g[fork][0] == more[0][0] && g[tail][0] == more[1][0] && g[tail][1] == more[1][1];
  }

  // ----- expressions run -----

  /** Running the code of an expression reaches its exit with its value. */
  lemma {:induction false} ExprRuns(rt: Runtime<Text>, b: Build, e: Expr, g: Graph, s: State)
      returns (n: nat, s': State)
    requires Holds(GenExpr(b, e).b, g) && s.status.Running?
    ensures Leads(rt, g, Enter(GenExpr(b, e).enter, s), n, Place(GenExpr(b, e).exit, s'))
    ensures Evaluated(rt, Evaluate(rt, e, s.world), b.vars, GenExpr(b, e), s, s')
    decreases e, 2
  {
    match e
    case Lit(lit) =>
      s' := OneOpRuns(rt, b, LoadLiteral(lit, b.vars), g, s);
      n := 2;
    case Identifier(name) =>
      s' := OneOpRuns(rt, b, Load(b.vars, name), g, s);
      n := 2;
    case This =>
      s' := OneOpRuns(rt, b, Op.This(b.vars), g, s);
      n := 2;
    case Prefix(uop, arg) =>
      n, s' := PrefixRuns(rt, b, e, g, s);
    case Infix(bop, left, right) =>
      n, s' := InfixRuns(rt, b, e, g, s);
    case Assign(target, right) =>
      n, s' := AssignRuns(rt, b, e, g, s);
    case Update(increment, prefix, target) =>
      n, s' := UpdateRuns(rt, b, increment, prefix, target, g, s);
    case Conditional(test, consequent, alternate) =>
      n, s' := ConditionalRuns(rt, b, e, g, s);
  }

  /** Run on through a jump. */
  lemma ThenJump(rt: Runtime<Text>, b: Build, g: Graph, c: Place, n: nat, x: nat, y: nat, s: State)
    requires Leads(rt, g, c, n, Place(x, s)) && AtEnd(b, x, s) && Follows(b, g, x, Jump(y))
    ensures Leads(rt, g, c, n + 1, Enter(y, s))
  {
    JumpsOn(rt, b, g, x, y, s);
    LeadsOn(rt, g, c, n, Place(x, s), 1, Enter(y, s));
  }

  lemma EvaluatedFacts(rt: Runtime<Text>, r: (Value, World), vars: nat, c: Code, s: State, s': State)
    requires Evaluated(rt, r, vars, c, s, s')
    ensures AtEnd(c.b, c.exit, s') && s'.status.Running? && s'.world == r.1 && Get(rt, s'.temps, c.v) == r.0
  {
  }

  lemma PrefixIs(b: Build, e: Expr)
    requires e.Prefix?
    ensures GenExpr(b, e) == JoinPrefix(b, GenExpr(b, e.arg), e.uop)
    ensures JoinPrefix(b, GenExpr(b, e.arg), e.uop).enter == GenExpr(b, e.arg).enter
  {
  }

  lemma PrefixValue(rt: Runtime<Text>, b: Build, e: Expr, s: State, s1: State, s': State)
    requires e.Prefix? && Evaluated(rt, Evaluate(rt, e.arg, s.world), b.vars, GenExpr(b, e.arg), s, s1)
    requires var a := GenExpr(b, e.arg);
      var op := Unary(e.uop, a.b.vars, a.v);
      && Evaluated(rt, rt.exec(Shape(op), Fetch(rt, s1.temps, Uses(op)), s1.world), a.b.vars, OneOp(a.b, op), s1, s')
      && AtEnd(GenExpr(b, e).b, GenExpr(b, e).exit, s') && OneOp(a.b, op).v == GenExpr(b, e).v
    ensures Evaluated(rt, Evaluate(rt, e, s.world), b.vars, GenExpr(b, e), s, s')
  {
    hide JoinPrefix, OneOp, Above, AtEnd;
    var a := GenExpr(b, e.arg);
    assert Fetch(rt, s1.temps, [a.v]) == [Evaluate(rt, e.arg, s.world).0];
  }

  lemma {:induction false} PrefixRuns(rt: Runtime<Text>, b: Build, e: Expr, g: Graph, s: State)
      returns (n: nat, s': State)
    requires e.Prefix? && Holds(GenExpr(b, e).b, g) && s.status.Running?
    ensures Leads(rt, g, Enter(GenExpr(b, e).enter, s), n, Place(GenExpr(b, e).exit, s'))
    ensures Evaluated(rt, Evaluate(rt, e, s.world), b.vars, GenExpr(b, e), s, s')
    decreases e, 0
  {
    hide *;
    PrefixIs(b, e);
    var a := GenExpr(b, e.arg);
    PrefixLinks(b, a, e.uop, g);
    var op := Unary(e.uop, a.b.vars, a.v);
    var o := OneOp(a.b, op);
    var start := Enter(a.enter, s);
    var n1, s1 := ExprRuns(rt, b, e.arg, g, s);
    EvaluatedFacts(rt, Evaluate(rt, e.arg, s.world), b.vars, a, s, s1);
    ThenJump(rt, a.b, g, start, n1, a.exit, o.enter, s1);
    UnaryDef(e.uop, a.b.vars, a.v);
    s' := OneOpRuns(rt, a.b, op, g, s1);
    LeadsOn(rt, g, start, n1 + 1, Enter(o.enter, s1), 2, Place(o.exit, s'));
    n := n1 + 1 + 2;
    SameEnd(rt, rt.exec(Shape(op), Fetch(rt, s1.temps, Uses(op)), s1.world), a.b.vars, o, s1, s', GenExpr(b, e).b);
    PrefixValue(rt, b, e, s, s1, s');
  }

  lemma UnaryDef(uop: UnaryOp, dst: nat, src: nat)
    ensures Def<Text>(Unary(uop, dst, src)) == Some(dst)
  {
  }

  lemma BinaryDef(bop: BinaryOp, dst: nat, lhs: nat, rhs: nat)
    ensures Def<Text>(Binary(bop, dst, lhs, rhs)) == Some(dst)
  {
  }

  /** The end of a block that later building left alone. */
  lemma SameEnd(rt: Runtime<Text>, r: (Value, World), vars: nat, c: Code, s: State, s': State, b: Build)
    requires Evaluated(rt, r, vars, c, s, s')
    requires c.exit < |c.b.blocks| && c.exit < |b.blocks| && b.blocks[c.exit] == c.b.blocks[c.exit]
    ensures AtEnd(b, c.exit, s')
  {
  }

  lemma InfixIs(b: Build, e: Expr)
    requires e.Infix?
    ensures var l := GenExpr(b, e.left);
      var r := GenExpr(l.b, e.right);
      CodeAbove(b, l) && CodeAbove(l.b, r) && GenExpr(b, e) == JoinInfix(b, l, r, e.bop) &&
          GenExpr(b, e).enter == l.enter
  {
  }

  lemma InfixValue(rt: Runtime<Text>, b: Build, e: Expr, s: State, s1: State, s2: State, s': State)
    requires e.Infix? && Evaluated(rt, Evaluate(rt, e.left, s.world), b.vars, GenExpr(b, e.left), s, s1)
    requires var l := GenExpr(b, e.left);
      var r := GenExpr(l.b, e.right);
      var op := Binary(e.bop, r.b.vars, l.v, r.v);
      && Evaluated(rt, Evaluate(rt, e.right, s1.world), l.b.vars, r, s1, s2)
      && Evaluated(rt, rt.exec(Shape(op), Fetch(rt, s2.temps, Uses(op)), s2.world), r.b.vars, OneOp(r.b, op), s2, s')
      && AtEnd(GenExpr(b, e).b, GenExpr(b, e).exit, s') && OneOp(r.b, op).v == GenExpr(b, e).v
    ensures Evaluated(rt, Evaluate(rt, e, s.world), b.vars, GenExpr(b, e), s, s')
  {
    hide JoinInfix, OneOp, AtEnd;
    var l := GenExpr(b, e.left);
    var r := GenExpr(l.b, e.right);
    assert Get(rt, s2.temps, l.v) == Get(rt, s1.temps, l.v);
    assert Fetch(rt, s2.temps, [l.v, r.v]) == [Evaluate(rt, e.left, s.world).0, Evaluate(rt, e.right, s1.world).0];
  }

  lemma {:induction false} InfixRuns(rt: Runtime<Text>, b: Build, e: Expr, g: Graph, s: State)
      returns (n: nat, s': State)
    requires e.Infix? && Holds(GenExpr(b, e).b, g) && s.status.Running?
    ensures Leads(rt, g, Enter(GenExpr(b, e).enter, s), n, Place(GenExpr(b, e).exit, s'))
    ensures Evaluated(rt, Evaluate(rt, e, s.world), b.vars, GenExpr(b, e), s, s')
    decreases e, 0
  {
    hide *;
    InfixIs(b, e);
    var l := GenExpr(b, e.left);
    var r := GenExpr(l.b, e.right);
    InfixLinks(b, l, r, e.bop, g);
    var op := Binary(e.bop, r.b.vars, l.v, r.v);
    var o := OneOp(r.b, op);
    var start := Enter(l.enter, s);
    var n1, s1 := ExprRuns(rt, b, e.left, g, s);
    EvaluatedFacts(rt, Evaluate(rt, e.left, s.world), b.vars, l, s, s1);
    ThenJump(rt, l.b, g, start, n1, l.exit, r.enter, s1);
    var n2, s2 := ExprRuns(rt, l.b, e.right, g, s1);
    EvaluatedFacts(rt, Evaluate(rt, e.right, s1.world), l.b.vars, r, s1, s2);
    LeadsOn(rt, g, start, n1 + 1, Enter(r.enter, s1), n2, Place(r.exit, s2));
    ThenJump(rt, r.b, g, start, n1 + 1 + n2, r.exit, o.enter, s2);
    BinaryDef(e.bop, r.b.vars, l.v, r.v);
    s' := OneOpRuns(rt, r.b, op, g, s2);
    LeadsOn(rt, g, start, n1 + 1 + n2 + 1, Enter(o.enter, s2), 2, Place(o.exit, s'));
    n := n1 + 1 + n2 + 1 + 2;
    SameEnd(rt, rt.exec(Shape(op), Fetch(rt, s2.temps, Uses(op)), s2.world), r.b.vars, o, s2, s', GenExpr(b, e).b);
    InfixValue(rt, b, e, s, s1, s2, s');
  }

  lemma AssignIs(b: Build, e: Expr)
    requires e.Assign?
    ensures var r := GenExpr(b, e.right);
      CodeAbove(b, r) && GenExpr(b, e) == JoinAssign(b, r, e.target) && GenExpr(b, e).enter == r.enter &&
          GenExpr(b, e).exit == |r.b.blocks| + 1
        && GenExpr(b, e).v == r.v && |r.b.blocks| + 1 < |GenExpr(b, e).b.blocks|
  {
  }

  lemma AssignMeans(rt: Runtime<Text>, e: Expr, w: World)
    requires e.Assign?
    ensures var r := Evaluate(rt, e.right, w); Evaluate(rt, e, w) == (r.0, rt.exec(Store(e.target, 0), [r.0], r.1).1)
  {
  }

  /** The store, and the jump after it. */
  lemma StoreSteps(rt: Runtime<Text>, g: Graph, x: nat, target: Text, v: nat, s: State) returns (s': State)
    requires x + 1 < |g| && |g[x]| >= 2 && g[x][0] == Plain(Do(Store(target, v))) && g[x][1] == Jump(x + 1) &&
        s.status.Running?
    ensures Leads(rt, g, Enter(x, s), 2, Enter(x + 1, s'))
    ensures s' == s.(pc := 0, world := rt.exec(Store(target, 0), [Get(rt, s.temps, v)], s.world).1)
  {
    hide Leads;
    var c := Cfg.Step(rt, g, Enter(x, s));
    assert Fetch(rt, s.temps, [v]) == [Get(rt, s.temps, v)];
    OneStep(rt, g, Enter(x, s));
    OneStep(rt, g, c);
    LeadsOn(rt, g, Enter(x, s), 1, c, 1, Enter(x + 1, c.s));
    s' := c.s.(pc := 0);
  }

  /** The value stays while the world changes and control comes to an empty block. */
  lemma StoredValue(rt: Runtime<Text>, r: (Value, World), w: World, vars: nat, c: Code, c': Code, s: State, s1: State)
    requires Evaluated(rt, r, vars, c, s, s1) && c'.v == c.v && c'.exit < |c'.b.blocks| && c'.b.blocks[c'.exit] == []
    ensures Evaluated(rt, (r.0, w), vars, c', s, s1.(pc := 0, world := w))
  {
  }

  lemma AtBlockStart(x: nat, s: State)
    ensures s.pc == 0 ==> Enter(x, s) == Place(x, s)
  {
  }

  lemma {:induction false} AssignRuns(rt: Runtime<Text>, b: Build, e: Expr, g: Graph, s: State)
      returns (n: nat, s': State)
    requires e.Assign? && Holds(GenExpr(b, e).b, g) && s.status.Running?
    ensures Leads(rt, g, Enter(GenExpr(b, e).enter, s), n, Place(GenExpr(b, e).exit, s'))
    ensures Evaluated(rt, Evaluate(rt, e, s.world), b.vars, GenExpr(b, e), s, s')
    decreases e, 0
  {
    hide *;
    AssignIs(b, e);
    var r := GenExpr(b, e.right);
    var x := |r.b.blocks|;
    AssignLinks(b, r, e.target, g);
    var n1, s1 := ExprRuns(rt, b, e.right, g, s);
    EvaluatedFacts(rt, Evaluate(rt, e.right, s.world), b.vars, r, s, s1);
    ThenJump(rt, r.b, g, Enter(r.enter, s), n1, r.exit, x, s1);
    s' := StoreSteps(rt, g, x, e.target, r.v, s1);
    LeadsOn(rt, g, Enter(r.enter, s), n1 + 1, Enter(x, s1), 2, Enter(x + 1, s'));
    n := n1 + 3;
    AtBlockStart(x + 1, s');
    AssignMeans(rt, e, s.world);
    StoredValue(rt, Evaluate(rt, e.right, s.world), s'.world, b.vars, r, GenExpr(b, e), s, s1);
  }

  lemma UpdateIs(b: Build, increment: bool, prefix: bool, target: Text, g: Graph)
    requires Holds(GenUpdate(b, increment, prefix, target).b, g)
    ensures var c, x, v := GenUpdate(b, increment, prefix, target), |b.blocks|, b.vars;
      && c.enter == x && c.exit == x + 1 && c.v == (if prefix then v + 2 else v)
      && |c.b.blocks| == x + 2 && c.b.blocks[x + 1] == []
      && x < |g| && |g[x]| >= 8
      && g[x][0] == Plain(Alloca(v)) && g[x][1] == Plain(Do(Load(v, target)))
      && g[x][2] == Plain(Alloca(v + 1)) && g[x][3] == Plain(Do(LoadNumber(v + 1, ONE)))
      && g[x][4] == Plain(Alloca(v + 2)) && g[x][5] == Plain(Do(Binary(UpdateOp(increment), v + 2, v, v + 1)))
      && g[x][6] == Plain(Do(Store(target, v + 2))) && g[x][7] == Jump(x + 1)
  {
    var x := |b.blocks|;
    var nodes := UpdateNodes(b.vars, increment, target, x + 1);
    var more: seq<Block> := [nodes, []];
    HoldsAppend(b, more, b.vars + 3, g);
    assert more[0] <= g[x];
    assert forall i :: 0 <= i < 8 ==> g[x][i] == nodes[i];
  }

  /** Two more straight nodes. */
  lemma ThenTwo(rt: Runtime<Text>, g: Graph, c: Place, n: nat, x: nat, v: nat, item: Item<Text>, s: State)
    requires Leads(rt, g, c, n, Place(x, s)) && s.status.Running? && !IsBranch(item)
    requires x < |g| && s.pc + 1 < |g[x]| && g[x][s.pc] == Plain(Alloca(v)) && g[x][s.pc + 1] == Plain(item)
    ensures Leads(rt, g, c, n + 2, Place(x, Straight(rt, item, s.(pc := s.pc + 1))))
  {
    TwoNodes(rt, g, x, s.pc, v, item, s);
    LeadsOn(rt, g, c, n, Place(x, s), 2, Place(x, Straight(rt, item, s.(pc := s.pc + 1))));
  }

  lemma ThenStep(rt: Runtime<Text>, g: Graph, c: Place, n: nat, c': Place)
    requires Leads(rt, g, c, n, c')
    ensures Leads(rt, g, c, n + 1, Cfg.Step(rt, g, c'))
  {
    OneStep(rt, g, c');
    LeadsOn(rt, g, c, n, c', 1, Cfg.Step(rt, g, c'));
  }

  lemma DoGoesOn(rt: Runtime<Text>, op: Op<Text>, s: State)
    ensures Straight(rt, Do(op), s).pc == s.pc + 1 && Straight(rt, Do(op), s).status == s.status
  {
  }

  lemma UpdateRuns(rt: Runtime<Text>, b: Build, increment: bool, prefix: bool, target: Text, g: Graph, s: State)
      returns (n: nat, s': State)
    requires Holds(GenUpdate(b, increment, prefix, target).b, g) && s.status.Running?
    ensures var c := GenUpdate(b, increment, prefix, target); Leads(rt, g, Enter(c.enter, s), n, Place(c.exit, s'))
    ensures Evaluated(rt, Evaluate(rt, Update(increment, prefix, target), s.world), b.vars,
        GenUpdate(b, increment, prefix, target), s, s')
  {
    hide Holds, Leads, Straight, UpdateNodes, ExecOp, Fetch, GenUpdate;
    var x, v := |b.blocks|, b.vars;
    UpdateIs(b, increment, prefix, target, g);
    var c := Enter(x, s);
    NoStep(rt, g, c);
    ThenTwo(rt, g, c, 0, x, v, Do(Load(v, target)), c.s);
    var s1 := Straight(rt, Do(Load(v, target)), c.s.(pc := 1));
    DoGoesOn(rt, Load(v, target), c.s.(pc := 1));
    ThenTwo(rt, g, c, 2, x, v + 1, Do(LoadNumber(v + 1, ONE)), s1);
    var s2 := Straight(rt, Do(LoadNumber(v + 1, ONE)), s1.(pc := 3));
    DoGoesOn(rt, LoadNumber(v + 1, ONE), s1.(pc := 3));
    var op := Binary(UpdateOp(increment), v + 2, v, v + 1);
    ThenTwo(rt, g, c, 4, x, v + 2, Do(op), s2);
    var s3 := Straight(rt, Do(op), s2.(pc := 5));
    UpdateValues(rt, increment, target, v, s, s1, s2, s3);
    ThenStep(rt, g, c, 6, Place(x, s3));
    var s4 := Straight(rt, Do(Store(target, v + 2)), s3);
    StoreDoes(rt, target, v + 2, s3);
    ThenStep(rt, g, c, 7, Place(x, s4));
    n, s' := 8, s4.(pc := 0);
  }

  lemma StoreDoes(rt: Runtime<Text>, target: Text, v: nat, s: State)
    ensures Straight(rt, Do(Store(target, v)), s) == s.(world := rt.exec(Store(target, 0), [Get(rt, s.temps, v)],
        s.world).1, pc := s.pc + 1)
  {
    assert Fetch(rt, s.temps, [v]) == [Get(rt, s.temps, v)];
  }

  /** The three temporaries of an update hold the old value, one and the new value. */
  lemma UpdateValues(rt: Runtime<Text>, increment: bool, target: Text, v: nat, s: State, s1: State, s2: State,
      s3: State)
    requires s1 == Straight(rt, Do(Load(v, target)), s.(pc := 1))
    requires s2 == Straight(rt, Do(LoadNumber(v + 1, ONE)), s1.(pc := 3))
    requires s3 == Straight(rt, Do(Binary(UpdateOp(increment), v + 2, v, v + 1)), s2.(pc := 5))
    ensures var from := rt.exec(Load(0, target), [], s.world);
      var one := rt.exec(LoadNumber(0, ONE), [], from.1);
      var to := rt.exec(Binary(UpdateOp(increment), 0, 0, 0), [from.0, one.0], one.1);
      && s3.world == to.1 && s3.trace == s.trace && s3.status == s.status && s3.pc == 6
      && Get(rt, s3.temps, v) == from.0 && Get(rt, s3.temps, v + 2) == to.0
      && TempsKept(rt, v, s.temps, s3.temps)
  {
    assert Fetch(rt, s.temps, []) == [] && Fetch(rt, s1.temps, []) == [];
    assert Fetch(rt, s2.temps, [v, v + 1]) == [Get(rt, s2.temps, v), Get(rt, s2.temps, v + 1)];
  }

  lemma ConditionalIs(b: Build, e: Expr)
    requires e.Conditional?
    ensures var t := GenExpr(b, e.test);
      var y := GenExpr(t.b, e.consequent);
      var z := GenExpr(y.b, e.alternate);
      var c := GenExpr(b, e);
      && CodeAbove(b, t) && CodeAbove(t.b, y) && CodeAbove(y.b, z) && c == JoinConditional(b, t, y, z)
      && c.enter == t.enter && c.exit == |z.b.blocks| + 1 && c.v == z.b.vars && c.exit < |c.b.blocks|
  {
  }

  lemma BranchGoes(rt: Runtime<Text>, g: Graph, x: nat, v: nat, y: nat, z: nat, s: State)
    requires x < |g| && s.pc < |g[x]| && g[x][s.pc] == Branch(v, y, z) && s.status.Running?
    ensures Cfg.Step(rt, g, Place(x, s)) == Enter(if rt.truthy(Get(rt, s.temps, v)) then y else z, s)
  {
  }

  lemma {:induction false} ConditionalRuns(rt: Runtime<Text>, b: Build, e: Expr, g: Graph, s: State)
      returns (n: nat, s': State)
    requires e.Conditional? && Holds(GenExpr(b, e).b, g) && s.status.Running?
    ensures Leads(rt, g, Enter(GenExpr(b, e).enter, s), n, Place(GenExpr(b, e).exit, s'))
    ensures Evaluated(rt, Evaluate(rt, e, s.world), b.vars, GenExpr(b, e), s, s')
    decreases e, 0
  {
    hide *;
    ConditionalIs(b, e);
    var t := GenExpr(b, e.test);
    var y := GenExpr(t.b, e.consequent);
    var z := GenExpr(y.b, e.alternate);
    var fork, tail := |z.b.blocks|, |z.b.blocks| + 1;
    ConditionalLinks(b, t, y, z, g);
    var start := Enter(t.enter, s);
    var n1, s1 := ExprRuns(rt, b, e.test, g, s);
    EvaluatedFacts(rt, Evaluate(rt, e.test, s.world), b.vars, t, s, s1);
    ThenJump(rt, t.b, g, start, n1, t.exit, fork, s1);
    ThenStep(rt, g, start, n1 + 1, Enter(fork, s1));
    EnterIs(fork, s1);
    BranchGoes(rt, g, fork, t.v, y.enter, z.enter, s1.(pc := 0));
    EnterAgain(y.enter, s1);
    EnterAgain(z.enter, s1);
    var n2, s2;
    if rt.truthy(Evaluate(rt, e.test, s.world).0) {
      n2, s2 := ArmRuns(rt, t.b, e.consequent, g, start, n1 + 2, s1, tail);
    } else {
      n2, s2 := ArmRuns(rt, y.b, e.alternate, g, start, n1 + 2, s1, tail);
    }
    n, s' := MergeRuns(rt, g, start, n2, tail, t.v, y.v, z.v, z.b.vars, s2);
    ConditionalValue(rt, b, e, s, s1, s2, s');
  }

  lemma EnterIs(x: nat, s: State)
    ensures Enter(x, s) == Place(x, s.(pc := 0))
  {
  }

  lemma EnterAgain(x: nat, s: State)
    ensures Enter(x, s.(pc := 0)) == Enter(x, s)
  {
  }

  /** One arm of a conditional, and the jump to where the arms merge. */
  lemma {:induction false} ArmRuns(rt: Runtime<Text>, b: Build, e: Expr, g: Graph, start: Place, n: nat, s: State,
      tail: nat)
    returns (n': nat, s': State)
    requires Holds(GenExpr(b, e).b, g) && s.status.Running?
    requires Leads(rt, g, start, n, Enter(GenExpr(b, e).enter, s))
    requires Follows(GenExpr(b, e).b, g, GenExpr(b, e).exit, Jump(tail))
    ensures Leads(rt, g, start, n', Enter(tail, s'))
    ensures Evaluated(rt, Evaluate(rt, e, s.world), b.vars, GenExpr(b, e), s, s') && s'.status.Running?
    decreases e, 3
  {
    hide *;
    var c := GenExpr(b, e);
    var m;
    m, s' := ExprRuns(rt, b, e, g, s);
    EvaluatedFacts(rt, Evaluate(rt, e, s.world), b.vars, c, s, s');
    LeadsOn(rt, g, start, n, Enter(c.enter, s), m, Place(c.exit, s'));
    ThenJump(rt, c.b, g, start, n + m, c.exit, tail, s');
    n' := n + m + 1;
  }

  lemma MergeRuns(rt: Runtime<Text>, g: Graph, start: Place, n: nat, tail: nat, test: nat, y: nat, z: nat, dst: nat,
      s: State)
    returns (n': nat, s': State)
    requires Leads(rt, g, start, n, Enter(tail, s)) && s.status.Running?
    requires tail < |g| && |g[tail]| >= 2 && g[tail][0] == Plain(Alloca(dst)) &&
        g[tail][1] == Plain(Merge(test, y, z, dst))
    ensures Leads(rt, g, start, n', Place(tail, s'))
    ensures s' == s.(pc := 2, temps := s.temps[dst := Get(rt, s.temps, if rt.truthy(Get(rt, s.temps, test)) then y
        else z)])
  {
    hide Leads;
    var item: Item<Text> := Merge(test, y, z, dst);
    ThenTwo(rt, g, start, n, tail, dst, item, s.(pc := 0));
    n', s' := n + 2, Straight(rt, item, s.(pc := 1));
  }

  lemma ConditionalValue(rt: Runtime<Text>, b: Build, e: Expr, s: State, s1: State, s2: State, s': State)
    requires e.Conditional? && Evaluated(rt, Evaluate(rt, e.test, s.world), b.vars, GenExpr(b, e.test), s, s1)
    requires var t := GenExpr(b, e.test);
      var y := GenExpr(t.b, e.consequent);
      var z := GenExpr(y.b, e.alternate);
      var c := GenExpr(b, e);
      && (if rt.truthy(Evaluate(rt, e.test, s.world).0)
          then Evaluated(rt, Evaluate(rt, e.consequent, s1.world), t.b.vars, y, s1, s2)
          else Evaluated(rt, Evaluate(rt, e.alternate, s1.world), y.b.vars, z, s1, s2))
      && s' == s2.(pc := 2, temps := s2.temps[z.b.vars := Get(rt, s2.temps, if rt.truthy(Get(rt, s2.temps, t.v))
          then y.v else z.v)])
    ensures Evaluated(rt, Evaluate(rt, e, s.world), b.vars, GenExpr(b, e), s, s')
  {
    var t := GenExpr(b, e.test);
    assert Get(rt, s2.temps, t.v) == Get(rt, s1.temps, t.v);
  }
}
