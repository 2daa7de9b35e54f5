/** The code of an expression can be passed: a path leads from its entrance to its
    exit through its own blocks.
  */
module C0Path {
  import opened Ir
  import opened Cfg
  import opened Ast
  import opened C0
  import opened C0Run
  import opened C0Shape

  ghost predicate Along(b: Build, a: Build, p: seq<nat>) {
    p != [] && Path(a.blocks, p) && forall i :: 0 <= i < |p| ==> NewBlockOf(b, a, p[i])
  }

  ghost predicate Passable(b: Build, a: Build, enter: nat, exit: nat) {
    exists p: seq<nat> :: Along(b, a, p) && p[0] == enter && p[|p|-1] == exit
  }

  lemma Here(b: Build, a: Build, x: nat)
    requires NewBlockOf(b, a, x)
    ensures Passable(b, a, x, x)
  {
    assert Along(b, a, [x]);
  }

  lemma MorePath(g: Graph, h: Graph, p: seq<nat>)
    requires Path(g, p) && |g| <= |h| && forall i :: 0 <= i < |p| && p[i] < |g| ==> g[p[i]] <= h[p[i]]
    ensures Path(h, p)
  {
    forall i | 0 <= i < |p| - 1 ensures Edge(h, p[i], p[i+1]) {
      assert Edge(g, p[i], p[i+1]);
      var k :| 0 <= k < |g[p[i]]| && p[i+1] in Targets(g[p[i]][k]);
      assert h[p[i]][k] == g[p[i]][k];
    }
  }

  ghost predicate Wider(b: Build, a: Build, b': Build, a': Build) {
    && |b'.blocks| <= |b.blocks| && |a.blocks| <= |a'.blocks|
    && forall x: nat :: NewBlockOf(b, a, x) ==> a.blocks[x] <= a'.blocks[x]
  }

  lemma Widen(b: Build, a: Build, b': Build, a': Build, enter: nat, exit: nat)
    requires Passable(b, a, enter, exit) && Wider(b, a, b', a')
    ensures Passable(b', a', enter, exit)
  {
    var p: seq<nat> :| Along(b, a, p) && p[0] == enter && p[|p|-1] == exit;
    MorePath(a.blocks, a'.blocks, p);
    assert Along(b', a', p);
  }

  lemma Chain(b: Build, a: Build, x: nat, y: nat, z: nat, w: nat)
    requires Passable(b, a, x, y) && Passable(b, a, z, w) && Edge(a.blocks, y, z)
    ensures Passable(b, a, x, w)
  {
    var p: seq<nat> :| Along(b, a, p) && p[0] == x && p[|p|-1] == y;
    var q: seq<nat> :| Along(b, a, q) && q[0] == z && q[|q|-1] == w;
    var r := p + q;
    forall i | 0 <= i < |r| - 1 ensures Edge(a.blocks, r[i], r[i+1]) {
      if i < |p| - 1 {
        assert Edge(a.blocks, p[i], p[i+1]);
      } else if i >= |p| {
        assert Edge(a.blocks, q[i-|p|], q[i-|p|+1]);
      }
    }
    assert Along(b, a, r);
  }

  lemma LastEdge(g: Graph, x: nat, node: Node, y: nat)
    requires x < |g| && node in g[x] && y in Targets(node)
    ensures Edge(g, x, y)
  {
  }

  lemma {:induction false} ExprPassable(b: Build, e: Expr)
    ensures var c := GenExpr(b, e); Passable(b, c.b, c.enter, c.exit)
    decreases e
  {
    hide Passable;
    match e
    case Lit(lit) => Here(b, GenExpr(b, e).b, |b.blocks|);
    case Identifier(name) => Here(b, GenExpr(b, e).b, |b.blocks|);
    case This => Here(b, GenExpr(b, e).b, |b.blocks|);
    case Prefix(uop, arg) =>
      ExprPassable(b, arg);
      PrefixPassable(b, GenExpr(b, arg), uop);
    case Infix(bop, left, right) =>
      var l := GenExpr(b, left);
      ExprPassable(b, left);
      ExprPassable(l.b, right);
      InfixPassable(b, l, GenExpr(l.b, right), bop);
    case Assign(target, right) =>
      ExprPassable(b, right);
      AssignPassable(b, GenExpr(b, right), target);
    case Update(increment, prefix, target) => UpdatePassable(b, increment, prefix, target);
    case Conditional(test, consequent, alternate) =>
      var t := GenExpr(b, test);
      var y := GenExpr(t.b, consequent);
      ExprPassable(b, test);
      ExprPassable(t.b, consequent);
      ConditionalPassable(b, t, y, GenExpr(y.b, alternate));
  }

  lemma PrefixPassable(b: Build, a: Code, uop: UnaryOp)
    requires CodeAbove(b, a) && Passable(b, a.b, a.enter, a.exit)
    ensures var c := JoinPrefix(b, a, uop); Passable(b, c.b, c.enter, c.exit)
  {
    hide Passable;
    var c := JoinPrefix(b, a, uop);
    Widen(b, a.b, b, c.b, a.enter, a.exit);
    Here(b, c.b, c.exit);
    LastEdge(c.b.blocks, a.exit, Jump(c.exit), c.exit);
    Chain(b, c.b, a.enter, a.exit, c.exit, c.exit);
  }

  lemma InfixPassable(b: Build, l: Code, r: Code, bop: BinaryOp)
    requires CodeAbove(b, l) && CodeAbove(l.b, r) && Passable(b, l.b, l.enter, l.exit) &&
        Passable(l.b, r.b, r.enter, r.exit)
    ensures var c := JoinInfix(b, l, r, bop); Passable(b, c.b, c.enter, c.exit)
  {
    hide Passable;
    var c := JoinInfix(b, l, r, bop);
    forall x: nat | x < |l.b.blocks| ensures l.b.blocks[x] == r.b.blocks[x] { BelowBlock(l.b, r.b, x); }
    Widen(b, l.b, b, c.b, l.enter, l.exit);
    Widen(l.b, r.b, b, c.b, r.enter, r.exit);
    Here(b, c.b, c.exit);
    LastEdge(c.b.blocks, l.exit, Jump(r.enter), r.enter);
    LastEdge(c.b.blocks, r.exit, Jump(c.exit), c.exit);
    Chain(b, c.b, l.enter, l.exit, r.enter, r.exit);
    Chain(b, c.b, l.enter, r.exit, c.exit, c.exit);
  }

  lemma AssignPassable(b: Build, r: Code, target: Text)
    requires CodeAbove(b, r) && Passable(b, r.b, r.enter, r.exit)
    ensures var c := JoinAssign(b, r, target); Passable(b, c.b, c.enter, c.exit)
  {
    hide Passable;
    var c, x := JoinAssign(b, r, target), |r.b.blocks|;
    Widen(b, r.b, b, c.b, r.enter, r.exit);
    Here(b, c.b, x);
    Here(b, c.b, x + 1);
    LastEdge(c.b.blocks, r.exit, Jump(x), x);
    LastEdge(c.b.blocks, x, Jump(x + 1), x + 1);
    Chain(b, c.b, r.enter, r.exit, x, x);
    Chain(b, c.b, r.enter, x, x + 1, x + 1);
  }

  lemma UpdatePassable(b: Build, increment: bool, prefix: bool, target: Text)
    ensures var c := GenUpdate(b, increment, prefix, target); Passable(b, c.b, c.enter, c.exit)
  {
    hide Passable;
    var c, x := GenUpdate(b, increment, prefix, target), |b.blocks|;
    Here(b, c.b, x);
    Here(b, c.b, x + 1);
    assert c.b.blocks[x][7] == Jump(x + 1);
    LastEdge(c.b.blocks, x, Jump(x + 1), x + 1);
    Chain(b, c.b, x, x, x + 1, x + 1);
  }

  /** Through the arm taken when the test holds. */
  lemma ConditionalPassable(b: Build, t: Code, y: Code, n: Code)
    requires CodeAbove(b, t) && CodeAbove(t.b, y) && CodeAbove(y.b, n)
    requires Passable(b, t.b, t.enter, t.exit) && Passable(t.b, y.b, y.enter, y.exit)
    ensures var c := JoinConditional(b, t, y, n); Passable(b, c.b, c.enter, c.exit)
  {
    hide Passable;
    var c, fork, tail := JoinConditional(b, t, y, n), |n.b.blocks|, |n.b.blocks| + 1;
    forall x: nat | x < |t.b.blocks| ensures t.b.blocks[x] == y.b.blocks[x] { BelowBlock(t.b, y.b, x); }
    forall x: nat | x < |y.b.blocks| ensures y.b.blocks[x] == n.b.blocks[x] { BelowBlock(y.b, n.b, x); }
    Widen(b, t.b, b, c.b, t.enter, t.exit);
    Widen(t.b, y.b, b, c.b, y.enter, y.exit);
    Here(b, c.b, fork);
    Here(b, c.b, tail);
    LastEdge(c.b.blocks, t.exit, Jump(fork), fork);
    LastEdge(c.b.blocks, fork, Branch(t.v, y.enter, n.enter), y.enter);
    LastEdge(c.b.blocks, y.exit, Jump(tail), tail);
    Chain(b, c.b, t.enter, t.exit, fork, fork);
    Chain(b, c.b, t.enter, fork, y.enter, y.exit);
    Chain(b, c.b, t.enter, y.exit, tail, tail);
  }
}
