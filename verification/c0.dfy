/** C0: expressions and statements become blocks of the control-flow graph.

    The functions say what is built, in the order in which it is built; the class
    below them builds it by pushing into blocks.
  */
module C0 {
  import opened Ir
  import opened Cfg
  import opened Ast

  /** What has been built: the blocks, and how many temporaries are in use. */
  datatype Build = Build(blocks: Graph, vars: nat)

  function NewBlock(b: Build): Build { b.(blocks := b.blocks + [[]]) }

  function PushAll(b: Build, x: nat, nodes: seq<Node>): Build
    requires x < |b.blocks|
  {
    b.(blocks := b.blocks[x := b.blocks[x] + nodes])
  }

  function Push(b: Build, x: nat, node: Node): Build
    requires x < |b.blocks|
  {
    PushAll(b, x, [node])
  }

  /** `xjs_cfgbuilder_link` */
  function Link(b: Build, src: nat, dest: nat): Build
    requires src < |b.blocks|
  {
    Push(b, src, Jump(dest))
  }

  /** `a` was built on top of `b`: no block of `b` has changed. */
  predicate Above(b: Build, a: Build) {
    |b.blocks| <= |a.blocks| && a.blocks[..|b.blocks|] == b.blocks && b.vars <= a.vars
  }

  // ----- expressions -----

  /** The code of an expression: it is entered at `enter`, and when control is at the
      end of `exit`, temporary `v` holds the value. */
  datatype Code = Code(b: Build, v: nat, enter: nat, exit: nat)

  predicate CodeAbove(b: Build, c: Code) {
    && Above(b, c.b)
    && |b.blocks| <= c.enter < |c.b.blocks| && |b.blocks| <= c.exit < |c.b.blocks|
    && b.vars <= c.v < c.b.vars
  }

  /** A block of its own that allocates a temporary and computes into it. */
  function OneOp(b: Build, op: Op<Text>): (c: Code)
    ensures CodeAbove(b, c)
  {
    var x := |b.blocks|;
    Code(Build(b.blocks + [[Plain(Alloca(b.vars)), Plain(Do(op))]], b.vars + 1), b.vars, x, x)
  }

  function UpdateNodes(v: nat, increment: bool, target: Text, tail: nat): Block {
    [Plain(Alloca(v)), Plain(Do(Load(v, target))),
     Plain(Alloca(v + 1)), Plain(Do(LoadNumber(v + 1, ONE))),
     Plain(Alloca(v + 2)), Plain(Do(Binary(UpdateOp(increment), v + 2, v, v + 1))),
     Plain(Do(Store(target, v + 2))), Jump(tail)]
  }

  function GenUpdate(b: Build, increment: bool, prefix: bool, target: Text): (c: Code)
    ensures CodeAbove(b, c)
  {
    var x := |b.blocks|;
    Code(Build(b.blocks + [UpdateNodes(b.vars, increment, target, x + 1), []], b.vars + 3),
         if prefix then b.vars + 2 else b.vars, x, x + 1)
  }

  /** After `a`, one op on its value. */
  function JoinPrefix(b: Build, a: Code, uop: UnaryOp): (c: Code)
    requires CodeAbove(b, a)
    ensures CodeAbove(b, c)
  {
    var o := OneOp(a.b, Unary(uop, a.b.vars, a.v));
    Code(Link(o.b, a.exit, o.enter), o.v, a.enter, o.exit)
  }

  /** After `l` and then `r`, one op on their values. */
  function JoinInfix(b: Build, l: Code, r: Code, bop: BinaryOp): (c: Code)
    requires CodeAbove(b, l) && CodeAbove(l.b, r)
    ensures CodeAbove(b, c)
  {
    var o := OneOp(r.b, Binary(bop, r.b.vars, l.v, r.v));
    Code(Link(Link(o.b, l.exit, r.enter), r.exit, o.enter), o.v, l.enter, o.exit)
  }

  /** After `r`, store its value. */
  function JoinAssign(b: Build, r: Code, target: Text): (c: Code)
    requires CodeAbove(b, r)
    ensures CodeAbove(b, c)
  {
    var x := |r.b.blocks|;
    var linked := Link(r.b, r.exit, x);
    Code(linked.(blocks := linked.blocks + [[Plain(Do(Store(target, r.v))), Jump(x + 1)], []]), r.v, r.enter, x + 1)
  }

  /** After `t`, either `y` or `n`, whose values merge. */
  function JoinConditional(b: Build, t: Code, y: Code, n: Code): (c: Code)
    requires CodeAbove(b, t) && CodeAbove(t.b, y) && CodeAbove(y.b, n)
    ensures CodeAbove(b, c)
  {
    var fork, tail := |n.b.blocks|, |n.b.blocks| + 1;
    var linked := Link(Link(Link(n.b, y.exit, tail), n.exit, tail), t.exit, fork);
    Code(Build(linked.blocks + [[Branch(t.v, y.enter, n.enter)],
                                [Plain(Alloca(n.b.vars)), Plain(Merge(t.v, y.v, n.v, n.b.vars))]], n.b.vars + 1),
         n.b.vars, t.enter, tail)
  }

  function GenExpr(b: Build, e: Expr): (c: Code)
    ensures CodeAbove(b, c)
    decreases e
  {
    match e
    case Lit(lit) => OneOp(b, LoadLiteral(lit, b.vars))
    case Identifier(name) => OneOp(b, Load(b.vars, name))
    case This => OneOp(b, Op.This(b.vars))
    case Prefix(uop, arg) => JoinPrefix(b, GenExpr(b, arg), uop)
    case Infix(bop, left, right) =>
      var l := GenExpr(b, left);
      JoinInfix(b, l, GenExpr(l.b, right), bop)
    case Assign(target, right) => JoinAssign(b, GenExpr(b, right), target)
    case Update(increment, prefix, target) => GenUpdate(b, increment, prefix, target)
    case Conditional(test, consequent, alternate) =>
      var t := GenExpr(b, test);
      var y := GenExpr(t.b, consequent);
      JoinConditional(b, t, y, GenExpr(y.b, alternate))
  }

  // ----- statements -----

  /** Where `break` and `continue` lead. */
  datatype Points = Points(brk: nat, cont: nat)

  /** The code of a statement. */
  datatype Part = Part(b: Build, enter: nat, exit: nat)

  predicate PartAbove(b: Build, p: Part) {
    && Above(b, p.b)
    && |b.blocks| <= p.enter < |p.b.blocks| && |b.blocks| <= p.exit < |p.b.blocks|
  }

  /** `break` and `continue` stand inside a loop. */
  predicate Looped(st: Stmt, inLoop: bool) {
    match st
    case Block(body) => forall i :: 0 <= i < |body| ==> Looped(body[i], inLoop)
    case Break => inLoop
    case Continue => inLoop
    case If(_, consequent, alternate) => Looped(consequent, inLoop) &&
        (alternate.Some? ==> Looped(alternate.value, inLoop))
    case While(_, loop) => Looped(loop, true)
    case DoWhile(loop, _) => Looped(loop, true)
    case For(_, _, _, loop) => Looped(loop, true)
    case _ => true
  }

  function Blocks(b: Build, n: nat): Build
    decreases n
  {
    if n == 0 then b else NewBlock(Blocks(b, n - 1))
  }

  lemma {:induction false} BlocksAbove(b: Build, n: nat)
    ensures Above(b, Blocks(b, n)) && Blocks(b, n).vars == b.vars
    ensures |Blocks(b, n).blocks| == |b.blocks| + n
    ensures forall x :: |b.blocks| <= x < |b.blocks| + n ==> Blocks(b, n).blocks[x] == []
  {
    if n > 0 { BlocksAbove(b, n - 1); }
  }

  /** Evaluate an expression and hand its value to one more node. */
  function GenUse(b: Build, e: Expr, use: nat -> Item<Text>): (p: Part)
    ensures PartAbove(b, p)
  {
    var x := |b.blocks|;
    var c := GenExpr(NewBlock(b), e);
    Part(Push(Link(c.b, c.exit, x), x, Plain(use(c.v))), c.enter, x)
  }

  /** Leave for another block; what follows starts in a block nothing leads to. */
  function GenLeap(b: Build, dest: nat): (p: Part)
    ensures PartAbove(b, p)
  {
    Part(Build(b.blocks + [[Jump(dest)], []], b.vars), |b.blocks|, |b.blocks| + 1)
  }

  function InspectIt(v: nat): Item<Text> { Item.Inspect(v) }

  function ReturnIt(v: nat): Item<Text> { Ret(v) }

  function GenStmt(b: Build, st: Stmt, bps: seq<Points>): (p: Part)
    requires Looped(st, bps != [])
    ensures PartAbove(b, p)
    decreases st, 1
  {
    match st
    case Empty => Part(NewBlock(b), |b.blocks|, |b.blocks|)
    case Block(body) => GenAll(b, body, bps)
    case Eval(e) => var c := GenExpr(b, e); Part(c.b, c.enter, c.exit)
    case Inspect(e) => GenUse(b, e, InspectIt)
    case Return(e) => GenUse(b, e, ReturnIt)
    case Break => GenLeap(b, bps[|bps|-1].brk)
    case Continue => GenLeap(b, bps[|bps|-1].cont)
    case If(_, _, _) => GenIf(b, st, bps)
    case While(test, loop) => GenWhile(b, test, loop, bps)
    case DoWhile(loop, test) => GenDo(b, loop, test, bps)
    case For(init, check, update, loop) => GenFor(b, init, check, update, loop, bps)
    case Var(declarators) => GenVar(b, declarators)
  }

  /** Both arms of an `if` have been built after the test; `fork` chooses. */
  function JoinIf(b: Build, t: Code, y: Part, last: Part, onFalse: nat): (p: Part)
    requires |b.blocks| + 2 <= |t.b.blocks| <= |last.b.blocks| && |b.blocks| <= last.exit < |last.b.blocks|
    requires |b.blocks| <= t.enter < |t.b.blocks| && Above(b, last.b)
    ensures PartAbove(b, p)
  {
    Part(Push(Link(last.b, last.exit, |b.blocks| + 1), |b.blocks|, Branch(t.v, y.enter, onFalse)), t.enter,
        |b.blocks| + 1)
  }

  function GenIf(b: Build, st: Stmt, bps: seq<Points>): (p: Part)
    requires st.If? && Looped(st, bps != [])
    ensures PartAbove(b, p)
    decreases st, 0
  {
    var fork, merge := |b.blocks|, |b.blocks| + 1;
    BlocksAbove(b, 2);
    var t := GenExpr(Blocks(b, 2), st.test);
    var y := GenThen(b, t, st.consequent, bps);
    if st.alternate.None? then JoinIf(b, t, y, y, merge)
    else
      var n := GenElse(b, y, merge, st.alternate.value, bps);
      JoinIf(b, t, y, n, n.enter)
  }

  function GenThen(b: Build, t: Code, st: Stmt, bps: seq<Points>): (p: Part)
    requires Looped(st, bps != [])
    requires |b.blocks| < |t.b.blocks| && Above(b, t.b) && |b.blocks| <= t.exit < |t.b.blocks|
    ensures Above(b, p.b) && |t.b.blocks| <= p.enter < |p.b.blocks| && |t.b.blocks| <= p.exit < |p.b.blocks|
    decreases st, 2
  {
    GenStmt(Link(t.b, t.exit, |b.blocks|), st, bps)
  }

  function GenElse(b: Build, y: Part, merge: nat, st: Stmt, bps: seq<Points>): (p: Part)
    requires Looped(st, bps != [])
    requires Above(b, y.b) && |b.blocks| <= y.exit < |y.b.blocks|
    ensures Above(b, p.b) && |y.b.blocks| <= p.enter < |p.b.blocks| && |y.b.blocks| <= p.exit < |p.b.blocks|
    decreases st, 2
  {
    GenStmt(Link(y.b, y.exit, merge), st, bps)
  }

  function GenWhile(b: Build, test: Expr, loop: Stmt, bps: seq<Points>): (p: Part)
    requires Looped(loop, true)
    ensures PartAbove(b, p)
    decreases loop, 3
  {
    var prelude, merge := |b.blocks|, |b.blocks| + 3;
    BlocksAbove(b, 4);
    var t := GenExpr(Blocks(b, 4), test);
    var y := GenTurn(b, t, loop, bps + [Points(merge, prelude)]);
    JoinWhile(b, t, y)
  }

  /** The body of a `while` loop, after its test. */
  function GenTurn(b: Build, t: Code, st: Stmt, bps: seq<Points>): (p: Part)
    requires Looped(st, bps != [])
    requires |b.blocks| + 1 < |t.b.blocks| && Above(b, t.b) && |b.blocks| <= t.exit < |t.b.blocks|
    ensures Above(b, p.b) && |t.b.blocks| <= p.enter < |p.b.blocks| && |t.b.blocks| <= p.exit < |p.b.blocks|
    decreases st, 2
  {
    GenStmt(Link(Link(t.b, |b.blocks|, t.enter), t.exit, |b.blocks| + 1), st, bps)
  }

  function JoinWhile(b: Build, t: Code, y: Part): (p: Part)
    requires Above(b, y.b) && |b.blocks| + 4 <= |y.b.blocks| && |b.blocks| <= y.exit < |y.b.blocks|
    ensures PartAbove(b, p)
  {
    var prelude, entry, again, merge := |b.blocks|, |b.blocks| + 1, |b.blocks| + 2, |b.blocks| + 3;
    Part(Push(Link(Link(y.b, y.exit, again), again, prelude), entry, Branch(t.v, y.enter, merge)), prelude, merge)
  }

  function GenDo(b: Build, loop: Stmt, test: Expr, bps: seq<Points>): (p: Part)
    requires Looped(loop, true)
    ensures PartAbove(b, p)
    decreases loop, 2
  {
    var merge := |b.blocks| + 2;
    BlocksAbove(b, 3);
    var y := GenStmt(Blocks(b, 3), loop, bps + [Points(merge, merge)]);
    JoinDo(b, y, GenRetest(b, y, test))
  }

  /** The test of a `do` loop, after its body. */
  function GenRetest(b: Build, y: Part, test: Expr): (t: Code)
    requires Above(b, y.b) && |b.blocks| < |y.b.blocks|
    ensures Above(b, t.b) && |y.b.blocks| <= t.enter < |t.b.blocks| && |y.b.blocks| <= t.exit < |t.b.blocks|
  {
    GenExpr(Link(y.b, |b.blocks|, y.enter), test)
  }

  function JoinDo(b: Build, y: Part, t: Code): (p: Part)
    requires Above(b, t.b) && |b.blocks| + 3 <= |t.b.blocks| && |b.blocks| <= y.exit < |t.b.blocks| &&
        |b.blocks| <= t.exit < |t.b.blocks|
    ensures PartAbove(b, p)
  {
    var prelude, entry, merge := |b.blocks|, |b.blocks| + 1, |b.blocks| + 2;
    Part(Push(Link(Link(t.b, y.exit, t.enter), t.exit, entry), entry, Branch(t.v, prelude, merge)), prelude, merge)
  }

  function GenFor(b: Build, init: Option<Expr>, check: Option<Expr>, update: Option<Expr>, loop: Stmt,
      bps: seq<Points>): (p: Part)
    requires Looped(loop, true)
    ensures PartAbove(b, p)
    decreases loop, 2
  {
    var start, test, step, merge := |b.blocks|, |b.blocks| + 1, |b.blocks| + 2, |b.blocks| + 3;
    BlocksAbove(b, 4);
    var i := GenStep(Blocks(b, 4), init, start, test);
    var y := GenStmt(i, loop, bps + [Points(merge, test)]);
    var c := GenCheck(Link(y.b, y.exit, step), check, test, y.enter, merge);
    Part(GenStep(c, update, step, test), start, merge)
  }

  /** From block `from`, evaluate an optional expression and go on to `to`. */
  function GenStep(b: Build, e: Option<Expr>, from: nat, to: nat): (a: Build)
    requires from < |b.blocks|
    ensures |b.blocks| <= |a.blocks| && b.vars <= a.vars
    ensures forall x :: 0 <= x < |b.blocks| && x != from ==> a.blocks[x] == b.blocks[x]
    ensures b.blocks[from] <= a.blocks[from]
  {
    if e.None? then Link(b, from, to)
    else
      var c := GenExpr(b, e.value);
      Link(Link(c.b, c.exit, to), from, c.enter)
  }

  /** From block `test`, an optional test goes on to the body or leaves the loop. */
  function GenCheck(b: Build, check: Option<Expr>, test: nat, body: nat, merge: nat): (a: Build)
    requires test < |b.blocks|
    ensures |b.blocks| <= |a.blocks| && b.vars <= a.vars
    ensures forall x :: 0 <= x < |b.blocks| && x != test ==> a.blocks[x] == b.blocks[x]
    ensures b.blocks[test] <= a.blocks[test]
  {
    if check.None? then Link(b, test, body)
    else
      var fork := |b.blocks|;
      var c := GenExpr(NewBlock(b), check.value);
      Push(Link(Link(c.b, test, c.enter), c.exit, fork), fork, Branch(c.v, body, merge))
  }

  function GenVar(b: Build, ds: seq<Declarator>): (p: Part)
    ensures PartAbove(b, p)
  {
    var p := GenDeclarators(b, ds);
    if p.None? then Part(NewBlock(b), |b.blocks|, |b.blocks|) else p.value
  }

  /** The initialised declarators; none when there is none. */
  function GenDeclarators(b: Build, ds: seq<Declarator>): (p: Option<Part>)
    ensures p.Some? ==> PartAbove(b, p.value)
  {
    if ds == [] then None
    else
      var before := GenDeclarators(b, ds[..|ds|-1]);
      var dcl := ds[|ds|-1];
      if dcl.init.None? then before
      else
        var c := GenExpr(if before.Some? then before.value.b else b, dcl.init.value);
        var c' := if before.Some? then Link(c.b, before.value.exit, c.enter) else c.b;
        Some(Part(Push(c', c.exit, Plain(Do(Store(dcl.name, c.v)))), if before.Some? then before.value.enter
            else c.enter, c.exit))
  }

  function GenAll(b: Build, body: seq<Stmt>, bps: seq<Points>): (p: Part)
    requires forall i :: 0 <= i < |body| ==> Looped(body[i], bps != [])
    ensures PartAbove(b, p)
    decreases body, 0
  {
    if body == [] then Part(NewBlock(b), |b.blocks|, |b.blocks|)
    else
      var last := |body| - 1;
      var before := GenAll(b, body[..last], bps);
      var p := GenStmt(before.b, body[last], bps);
      Part(Link(p.b, before.exit, p.enter), before.enter, p.exit)
  }
}
