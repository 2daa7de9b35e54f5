/** Every node C0 builds is of a kind the later stages can take, and loads no other
    number than the literals of the source and the one of `++` and `--`.
  */
module C0Nodes {
  import opened Ir
  import opened Cfg
  import opened Ast
  import opened C0
  import opened C0Stmt
  import opened C0Func

  // ----- the literals of the source -----

  predicate ExprOver(nums: set<Num>, e: Expr) {
    match e
    case Lit(lit) => lit.NumberLiteral? ==> lit.num in nums
    case Prefix(_, arg) => ExprOver(nums, arg)
    case Infix(_, left, right) => ExprOver(nums, left) && ExprOver(nums, right)
    case Assign(_, right) => ExprOver(nums, right)
    case Conditional(test, consequent, alternate) => ExprOver(nums, test) && ExprOver(nums, consequent) &&
        ExprOver(nums, alternate)
    case _ => true
  }

  predicate OptionOver(nums: set<Num>, e: Option<Expr>) { e.Some? ==> ExprOver(nums, e.value) }

  predicate StmtOver(nums: set<Num>, st: Stmt) {
    match st
    case Block(body) => forall i :: 0 <= i < |body| ==> StmtOver(nums, body[i])
    case Eval(e) => ExprOver(nums, e)
    case Inspect(e) => ExprOver(nums, e)
    case Return(e) => ExprOver(nums, e)
    case If(test, consequent, alternate) =>
      ExprOver(nums, test) && StmtOver(nums, consequent) && (alternate.Some? ==> StmtOver(nums, alternate.value))
    case While(test, loop) => ExprOver(nums, test) && StmtOver(nums, loop)
    case DoWhile(loop, test) => ExprOver(nums, test) && StmtOver(nums, loop)
    case For(init, check, update, loop) =>
      OptionOver(nums, init) && OptionOver(nums, check) && OptionOver(nums, update) && StmtOver(nums, loop)
    case Var(ds) => forall i :: 0 <= i < |ds| ==> OptionOver(nums, ds[i].init)
    case _ => true
  }

  /** All number literals of the function are among `nums`. */
  predicate Over(nums: set<Num>, f: Body) { forall i :: 0 <= i < |f.stmts| ==> StmtOver(nums, f.stmts[i]) }

  // ----- which those are -----

  /** `part` is an operand of the expression. */
  predicate OperandOf(part: Expr, e: Expr) {
    || (e.Prefix? && part == e.arg)
    || (e.Infix? && (part == e.left || part == e.right))
    || (e.Assign? && part == e.right)
    || (e.Conditional? && (part == e.test || part == e.consequent || part == e.alternate))
  }

  /** The expressions of a chain, each an operand of the one before. */
  ghost predicate ExprChain(chain: seq<Expr>, inner: Expr, e: Expr) {
    && chain != [] && chain[0] == e && chain[|chain|-1] == inner
    && forall i :: 0 < i < |chain| ==> OperandOf(chain[i], chain[i-1])
  }

  /** `inner` stands in `e`, at any depth. */
  ghost predicate ExprIn(inner: Expr, e: Expr) { exists chain :: ExprChain(chain, inner, e) }

  /** The statement evaluates `e`. */
  predicate ExprOf(e: Expr, st: Stmt) {
    || ((st.Eval? || st.Inspect? || st.Return?) && e == st.expr)
    || ((st.If? || st.While? || st.DoWhile?) && e == st.test)
    || (st.For? && (st.init == Some(e) || st.check == Some(e) || st.update == Some(e)))
    || (st.Var? && exists i :: 0 <= i < |st.declarators| && st.declarators[i].init == Some(e))
  }

  ghost predicate NumberInExpr(num: Num, e: Expr) { ExprIn(Lit(NumberLiteral(num)), e) }

  ghost predicate NumberInStmt(num: Num, st: Stmt) {
    exists inner, e :: StandsIn(inner, st) && ExprOf(e, inner) && NumberInExpr(num, e)
  }

  lemma OperandHas(num: Num, part: Expr, e: Expr)
    requires OperandOf(part, e) && NumberInExpr(num, part)
    ensures NumberInExpr(num, e)
  {
    var inner := Lit(NumberLiteral(num));
    var chain :| ExprChain(chain, inner, part);
    assert ExprChain([e] + chain, inner, e);
  }

  lemma {:induction false} ExprOverIf(nums: set<Num>, e: Expr)
    requires forall num :: NumberInExpr(num, e) ==> num in nums
    ensures ExprOver(nums, e)
    decreases e
  {
    if e.Lit? && e.lit.NumberLiteral? {
      assert ExprChain([e], e, e);
      assert NumberInExpr(e.lit.num, e);
    }
    forall part | part < e && OperandOf(part, e) ensures ExprOver(nums, part) {
      forall num | NumberInExpr(num, part) ensures num in nums { OperandHas(num, part, e); }
      ExprOverIf(nums, part);
    }
  }

  lemma {:induction false} ExprOverThen(nums: set<Num>, chain: seq<Expr>, inner: Expr, e: Expr)
    requires ExprOver(nums, e) && ExprChain(chain, inner, e)
    ensures ExprOver(nums, inner)
    decreases |chain|
  {
    if |chain| > 1 {
      assert OperandOf(chain[1], chain[0]);
      var rest := chain[1..];
      assert ExprChain(rest, inner, chain[1]) by {
        forall i | 0 < i < |rest| ensures OperandOf(rest[i], rest[i-1]) { assert OperandOf(chain[i+1], chain[i]); }
      }
      ExprOverThen(nums, rest, inner, chain[1]);
    }
  }

  /** An expression is over the numbers that stand in it, and no others. */
  lemma ExprOverExactly(nums: set<Num>, e: Expr)
    ensures ExprOver(nums, e) <==> forall num :: NumberInExpr(num, e) ==> num in nums
  {
    if ExprOver(nums, e) {
      forall num | NumberInExpr(num, e) ensures num in nums {
        var chain :| ExprChain(chain, Lit(NumberLiteral(num)), e);
        ExprOverThen(nums, chain, Lit(NumberLiteral(num)), e);
      }
    } else if forall num :: NumberInExpr(num, e) ==> num in nums {
      ExprOverIf(nums, e);
    }
  }

  lemma PartHas(num: Num, part: Stmt, st: Stmt)
    requires PartOf(part, st) && NumberInStmt(num, part)
    ensures NumberInStmt(num, st)
  {
    hide NumberInExpr;
    var inner, e :| StandsIn(inner, part) && ExprOf(e, inner) && NumberInExpr(num, e);
    var chain :| ChainTo(chain, inner, part);
    assert ChainTo([st] + chain, inner, st);
    assert StandsIn(inner, st);
  }

  lemma OwnHas(num: Num, e: Expr, st: Stmt)
    requires ExprOf(e, st) && NumberInExpr(num, e)
    ensures NumberInStmt(num, st)
  {
    hide NumberInExpr;
    assert ChainTo([st], st, st);
    assert StandsIn(st, st);
  }

  lemma {:induction false} StmtOverIf(nums: set<Num>, st: Stmt)
    requires forall num :: NumberInStmt(num, st) ==> num in nums
    ensures StmtOver(nums, st)
    decreases st
  {
    hide NumberInStmt, NumberInExpr, ExprOver;
    forall e | ExprOf(e, st) ensures ExprOver(nums, e) {
      forall num | NumberInExpr(num, e) ensures num in nums { OwnHas(num, e, st); }
      ExprOverExactly(nums, e);
    }
    forall part | part < st && PartOf(part, st) ensures StmtOver(nums, part) {
      forall num | NumberInStmt(num, part) ensures num in nums { PartHas(num, part, st); }
      StmtOverIf(nums, part);
    }
    PartsOver(nums, st);
  }

  lemma PartsOver(nums: set<Num>, st: Stmt)
    requires forall e :: ExprOf(e, st) ==> ExprOver(nums, e)
    requires forall part :: part < st && PartOf(part, st) ==> StmtOver(nums, part)
    ensures StmtOver(nums, st)
  {
    hide ExprOver;
    match st
    case Block(body) => assert forall i :: 0 <= i < |body| ==> PartOf(body[i], st);
    case If(test, consequent, alternate) =>
      assert ExprOf(test, st) && PartOf(consequent, st);
      assert alternate.Some? ==> PartOf(alternate.value, st);
    case While(test, loop) => assert ExprOf(test, st) && PartOf(loop, st);
    case DoWhile(loop, test) => assert ExprOf(test, st) && PartOf(loop, st);
    case For(init, check, update, loop) =>
      assert PartOf(loop, st) && (init.Some? ==> ExprOf(init.value, st));
      assert (check.Some? ==> ExprOf(check.value, st)) && (update.Some? ==> ExprOf(update.value, st));
    case Var(ds) => assert forall i :: 0 <= i < |ds| && ds[i].init.Some? ==> ExprOf(ds[i].init.value, st);
    case Eval(e) => assert ExprOf(e, st);
    case Inspect(e) => assert ExprOf(e, st);
    case Return(e) => assert ExprOf(e, st);
    case _ =>
  }

  lemma {:induction false} StmtOverThen(nums: set<Num>, chain: seq<Stmt>, inner: Stmt, st: Stmt)
    requires StmtOver(nums, st) && ChainTo(chain, inner, st)
    ensures StmtOver(nums, inner)
    decreases |chain|
  {
    if |chain| > 1 {
      assert PartOf(chain[1], chain[0]);
      var rest := chain[1..];
      assert ChainTo(rest, inner, chain[1]) by {
        forall i | 0 < i < |rest| ensures PartOf(rest[i], rest[i-1]) { assert PartOf(chain[i+1], chain[i]); }
      }
      StmtOverThen(nums, rest, inner, chain[1]);
    }
  }

  /** A function is over `nums` exactly when every number that stands in one of its
      expressions is among them. */
  lemma OverExactly(nums: set<Num>, f: Body)
    ensures Over(nums, f) <==>
      forall i, num :: 0 <= i < |f.stmts| && NumberInStmt(num, f.stmts[i]) ==> num in nums
  {
    hide ExprOver, StmtOver, NumberInExpr;
    if Over(nums, f) {
      forall i, num | 0 <= i < |f.stmts| && NumberInStmt(num, f.stmts[i]) ensures num in nums {
        NumberIsOver(nums, f.stmts[i], num);
      }
    } else if forall i, num :: 0 <= i < |f.stmts| && NumberInStmt(num, f.stmts[i]) ==> num in nums {
      forall i | 0 <= i < |f.stmts| ensures StmtOver(nums, f.stmts[i]) {
        StmtOverIf(nums, f.stmts[i]);
      }
    }
  }

  lemma NumberIsOver(nums: set<Num>, st: Stmt, num: Num)
    requires StmtOver(nums, st) && NumberInStmt(num, st)
    ensures num in nums
  {
    hide NumberInExpr, ExprOver;
    var inner, e :| StandsIn(inner, st) && ExprOf(e, inner) && NumberInExpr(num, e);
    var chain :| ChainTo(chain, inner, st);
    StmtOverThen(nums, chain, inner, st);
    assert ExprOver(nums, e);
    ExprOverExactly(nums, e);
  }

  // ----- nodes -----

  /** No scopes, no functions, no calls, and numbers from `nums`. */
  predicate Plainly<N>(nums: set<Num>, item: Item<N>) {
    && !item.PushScope? && !item.PopScope?
    && (item.Do? ==>
         && !item.op.MakeFunction? && !item.op.MakeArrowFunction? && !item.op.Call? && !item.op.New?
         && (item.op.LoadNumber? ==> item.op.num in nums))
  }

  predicate PlainNode(nums: set<Num>, node: Node) { node.Plain? ==> Plainly(nums, node.item) }

  predicate PlainBlock(nums: set<Num>, block: Block) { forall i :: 0 <= i < |block| ==> PlainNode(nums, block[i]) }

  predicate AllPlain(nums: set<Num>, b: Build) { forall x :: 0 <= x < |b.blocks| ==> PlainBlock(nums, b.blocks[x]) }

  lemma PlainPush(nums: set<Num>, b: Build, x: nat, nodes: seq<Node>, vars: nat)
    requires AllPlain(nums, b) && PlainBlock(nums, nodes) && x < |b.blocks|
    ensures AllPlain(nums, PushAll(b, x, nodes)) && AllPlain(nums, PushAll(b, x, nodes).(vars := vars))
  {
    assert PlainBlock(nums, b.blocks[x] + nodes);
  }

  lemma PlainAppend(nums: set<Num>, b: Build, block: Block, vars: nat)
    requires AllPlain(nums, b) && PlainBlock(nums, block)
    ensures AllPlain(nums, Build(b.blocks + [block], vars))
  {
  }

  lemma PlainLink(nums: set<Num>, b: Build, x: nat, y: nat)
    requires AllPlain(nums, b) && x < |b.blocks|
    ensures AllPlain(nums, Link(b, x, y))
  {
    assert PlainBlock(nums, [Jump(y)]);
    PlainPush(nums, b, x, [Jump(y)], b.vars);
  }

  lemma PlainBranch(nums: set<Num>, b: Build, x: nat, v: nat, y: nat, z: nat)
    requires AllPlain(nums, b) && x < |b.blocks|
    ensures AllPlain(nums, Push(b, x, Branch(v, y, z)))
  {
    assert PlainBlock(nums, [Branch(v, y, z)]);
    PlainPush(nums, b, x, [Branch(v, y, z)], b.vars);
  }

  lemma {:induction false} PlainBlocks(nums: set<Num>, b: Build, n: nat)
    requires AllPlain(nums, b)
    ensures AllPlain(nums, Blocks(b, n))
  {
    if n > 0 {
      PlainBlocks(nums, b, n - 1);
      PlainAppend(nums, Blocks(b, n - 1), [], b.vars);
    }
  }

  // ----- expressions -----

  lemma PlainOneOp(nums: set<Num>, b: Build, op: Op<Text>)
    requires AllPlain(nums, b) && Plainly(nums, Do(op))
    ensures AllPlain(nums, OneOp(b, op).b)
  {
    var block: Block := [Plain(Alloca(b.vars)), Plain(Do(op))];
    assert PlainBlock(nums, block);
    PlainAppend(nums, b, block, b.vars + 1);
  }

  lemma {:induction false} ExprPlain(nums: set<Num>, b: Build, e: Expr)
    requires AllPlain(nums, b) && ExprOver(nums, e) && ONE in nums
    ensures AllPlain(nums, GenExpr(b, e).b)
    decreases e
  {
    hide AllPlain, JoinPrefix, JoinInfix, JoinAssign, JoinConditional, OneOp;
    match e
    case Lit(lit) => PlainOneOp(nums, b, LoadLiteral(lit, b.vars));
    case Identifier(name) => PlainOneOp(nums, b, Load(b.vars, name));
    case This => PlainOneOp(nums, b, Op.This(b.vars));
    case Prefix(uop, arg) =>
      ExprPlain(nums, b, arg);
      PrefixPlain(nums, b, GenExpr(b, arg), uop);
    case Infix(bop, left, right) =>
      var l := GenExpr(b, left);
      ExprPlain(nums, b, left);
      ExprPlain(nums, l.b, right);
      InfixPlain(nums, b, l, GenExpr(l.b, right), bop);
    case Assign(target, right) =>
      ExprPlain(nums, b, right);
      AssignPlain(nums, b, GenExpr(b, right), target);
    case Update(increment, prefix, target) => UpdatePlain(nums, b, increment, prefix, target);
    case Conditional(test, consequent, alternate) =>
      var t := GenExpr(b, test);
      var y := GenExpr(t.b, consequent);
      ExprPlain(nums, b, test);
      ExprPlain(nums, t.b, consequent);
      ExprPlain(nums, y.b, alternate);
      ConditionalPlain(nums, b, t, y, GenExpr(y.b, alternate));
  }

  lemma PrefixPlain(nums: set<Num>, b: Build, a: Code, uop: UnaryOp)
    requires CodeAbove(b, a) && AllPlain(nums, a.b)
    ensures AllPlain(nums, JoinPrefix(b, a, uop).b)
  {
    hide AllPlain;
    var o := OneOp(a.b, Unary(uop, a.b.vars, a.v));
    PlainOneOp(nums, a.b, Unary(uop, a.b.vars, a.v));
    PlainLink(nums, o.b, a.exit, o.enter);
  }

  lemma InfixPlain(nums: set<Num>, b: Build, l: Code, r: Code, bop: BinaryOp)
    requires CodeAbove(b, l) && CodeAbove(l.b, r) && AllPlain(nums, r.b)
    ensures AllPlain(nums, JoinInfix(b, l, r, bop).b)
  {
    hide AllPlain;
    var o := OneOp(r.b, Binary(bop, r.b.vars, l.v, r.v));
    PlainOneOp(nums, r.b, Binary(bop, r.b.vars, l.v, r.v));
    PlainLink(nums, o.b, l.exit, r.enter);
    PlainLink(nums, Link(o.b, l.exit, r.enter), r.exit, o.enter);
  }

  lemma AssignPlain(nums: set<Num>, b: Build, r: Code, target: Text)
    requires CodeAbove(b, r) && AllPlain(nums, r.b)
    ensures AllPlain(nums, JoinAssign(b, r, target).b)
  {
    hide AllPlain;
    var x := |r.b.blocks|;
    var linked := Link(r.b, r.exit, x);
    PlainLink(nums, r.b, r.exit, x);
    var block: Block := [Plain(Do(Store(target, r.v))), Jump(x + 1)];
    assert PlainBlock(nums, block);
    PlainAppend(nums, linked, block, linked.vars);
    PlainAppend(nums, Build(linked.blocks + [block], linked.vars), [], linked.vars);
    assert linked.blocks + [block] + [[]] == linked.blocks + [block, []];
  }

  lemma UpdatePlain(nums: set<Num>, b: Build, increment: bool, prefix: bool, target: Text)
    requires AllPlain(nums, b) && ONE in nums
    ensures AllPlain(nums, GenUpdate(b, increment, prefix, target).b)
  {
    hide AllPlain;
    var nodes := UpdateNodes(b.vars, increment, target, |b.blocks| + 1);
    assert PlainBlock(nums, nodes);
    PlainAppend(nums, b, nodes, b.vars + 3);
    PlainAppend(nums, Build(b.blocks + [nodes], b.vars + 3), [], b.vars + 3);
    assert b.blocks + [nodes] + [[]] == b.blocks + [nodes, []];
  }

  lemma ConditionalPlain(nums: set<Num>, b: Build, t: Code, y: Code, n: Code)
    requires CodeAbove(b, t) && CodeAbove(t.b, y) && CodeAbove(y.b, n) && AllPlain(nums, n.b)
    ensures AllPlain(nums, JoinConditional(b, t, y, n).b)
  {
    hide AllPlain;
    var fork, tail := |n.b.blocks|, |n.b.blocks| + 1;
    var l1 := Link(n.b, y.exit, tail);
    var l2 := Link(l1, n.exit, tail);
    var linked := Link(l2, t.exit, fork);
    PlainLink(nums, n.b, y.exit, tail);
    PlainLink(nums, l1, n.exit, tail);
    PlainLink(nums, l2, t.exit, fork);
    var a: Block, m: Block := [Branch(t.v, y.enter, n.enter)], [Plain(Alloca(n.b.vars)),
        Plain(Merge(t.v, y.v, n.v, n.b.vars))];
    assert PlainBlock(nums, a) && PlainBlock(nums, m);
    PlainAppend(nums, linked, a, n.b.vars + 1);
    PlainAppend(nums, Build(linked.blocks + [a], n.b.vars + 1), m, n.b.vars + 1);
    assert linked.blocks + [a] + [m] == linked.blocks + [a, m];
  }

  // ----- statements -----

  lemma {:induction false} StmtPlain(nums: set<Num>, b: Build, st: Stmt, bps: seq<Points>)
    requires AllPlain(nums, b) && StmtOver(nums, st) && ONE in nums && Looped(st, bps != [])
    ensures AllPlain(nums, GenStmt(b, st, bps).b)
    decreases st, 2
  {
    hide AllPlain, GenIf, GenWhile, GenDo, GenFor, GenAll, GenExpr, GenUse, GenVar, ExprOver;
    match st
    case Empty => PlainAppend(nums, b, [], b.vars);
    case Block(body) => AllPlainly(nums, b, body, bps);
    case Eval(e) => ExprPlain(nums, b, e);
    case Inspect(e) => UsePlain(nums, b, e, InspectIt);
    case Return(e) => UsePlain(nums, b, e, ReturnIt);
    case Break => LeapPlain(nums, b, bps[|bps|-1].brk);
    case Continue => LeapPlain(nums, b, bps[|bps|-1].cont);
    case If(_, _, _) => IfPlain(nums, b, st, bps);
    case While(test, loop) => WhilePlain(nums, b, test, loop, bps);
    case DoWhile(loop, test) => DoPlain(nums, b, loop, test, bps);
    case For(init, check, update, loop) => ForPlain(nums, b, init, check, update, loop, bps);
    case Var(ds) =>
      DeclaratorsPlain(nums, b, ds);
      PlainAppend(nums, b, [], b.vars);
      VarIs(b, ds);
  }

  lemma VarIs(b: Build, ds: seq<Declarator>)
    ensures GenVar(b, ds).b == if GenDeclarators(b, ds).Some? then GenDeclarators(b, ds).value.b
        else Build(b.blocks + [[]], b.vars)
  {
  }

  lemma UsePlain(nums: set<Num>, b: Build, e: Expr, use: nat -> Item<Text>)
    requires AllPlain(nums, b) && ExprOver(nums, e) && ONE in nums && (use == InspectIt || use == ReturnIt)
    ensures AllPlain(nums, GenUse(b, e, use).b)
  {
    hide AllPlain, GenExpr, ExprOver;
    var x := |b.blocks|;
    PlainAppend(nums, b, [], b.vars);
    var c := GenExpr(NewBlock(b), e);
    ExprPlain(nums, NewBlock(b), e);
    PlainLink(nums, c.b, c.exit, x);
    assert PlainBlock(nums, [Plain(use(c.v))]);
    PlainPush(nums, Link(c.b, c.exit, x), x, [Plain(use(c.v))], c.b.vars);
  }

  lemma LeapPlain(nums: set<Num>, b: Build, dest: nat)
    requires AllPlain(nums, b)
    ensures AllPlain(nums, GenLeap(b, dest).b)
  {
    hide AllPlain;
    var block: Block := [Jump(dest)];
    assert PlainBlock(nums, block);
    PlainAppend(nums, b, block, b.vars);
    PlainAppend(nums, Build(b.blocks + [block], b.vars), [], b.vars);
    assert b.blocks + [block] + [[]] == b.blocks + [block, []];
  }

  lemma {:induction false} AllPlainly(nums: set<Num>, b: Build, body: seq<Stmt>, bps: seq<Points>)
    requires AllPlain(nums, b) && ONE in nums && (forall i :: 0 <= i < |body| ==>
        StmtOver(nums, body[i]) && Looped(body[i], bps != []))
    ensures AllPlain(nums, GenAll(b, body, bps).b)
    decreases body, 0
  {
    hide AllPlain, GenStmt, StmtOver;
    if body == [] {
      PlainAppend(nums, b, [], b.vars);
    } else {
      var last := |body| - 1;
      var before := GenAll(b, body[..last], bps);
      AllPlainly(nums, b, body[..last], bps);
      var p := GenStmt(before.b, body[last], bps);
      StmtPlain(nums, before.b, body[last], bps);
      PlainLink(nums, p.b, before.exit, p.enter);
    }
  }

  lemma {:induction false} IfPlain(nums: set<Num>, b: Build, st: Stmt, bps: seq<Points>)
    requires st.If? && AllPlain(nums, b) && StmtOver(nums, st) && ONE in nums && Looped(st, bps != [])
    ensures AllPlain(nums, GenIf(b, st, bps).b)
    decreases st, 1
  {
    hide AllPlain, GenStmt, GenExpr, ExprOver, Blocks;
    var fork, merge := |b.blocks|, |b.blocks| + 1;
    BlocksAbove(b, 2);
    PlainBlocks(nums, b, 2);
    var t, y, last, onFalse := IfParts(b, st, bps);
    ExprPlain(nums, Blocks(b, 2), st.test);
    PlainLink(nums, t.b, t.exit, fork);
    StmtPlain(nums, Link(t.b, t.exit, fork), st.consequent, bps);
    if st.alternate.Some? {
      PlainLink(nums, y.b, y.exit, merge);
      StmtPlain(nums, Link(y.b, y.exit, merge), st.alternate.value, bps);
    }
    PlainLink(nums, last.b, last.exit, merge);
    PlainBranch(nums, Link(last.b, last.exit, merge), fork, t.v, y.enter, onFalse);
  }

  lemma {:induction false} WhilePlain(nums: set<Num>, b: Build, test: Expr, loop: Stmt, bps: seq<Points>)
    requires AllPlain(nums, b) && ExprOver(nums, test) && StmtOver(nums, loop) && ONE in nums && Looped(loop, true)
    ensures AllPlain(nums, GenWhile(b, test, loop, bps).b)
    decreases loop, 3
  {
    hide AllPlain, GenStmt, GenExpr, ExprOver, Blocks, GenWhile;
    var prelude, entry, again, merge := |b.blocks|, |b.blocks| + 1, |b.blocks| + 2, |b.blocks| + 3;
    BlocksAbove(b, 4);
    PlainBlocks(nums, b, 4);
    var t, y := WhileParts(b, test, loop, bps);
    ExprPlain(nums, Blocks(b, 4), test);
    PlainLink(nums, t.b, prelude, t.enter);
    PlainLink(nums, Link(t.b, prelude, t.enter), t.exit, entry);
    StmtPlain(nums, Link(Link(t.b, prelude, t.enter), t.exit, entry), loop, bps + [Points(merge, prelude)]);
    PlainLink(nums, y.b, y.exit, again);
    PlainLink(nums, Link(y.b, y.exit, again), again, prelude);
    PlainBranch(nums, Link(Link(y.b, y.exit, again), again, prelude), entry, t.v, y.enter, merge);
  }

  lemma {:induction false} DoPlain(nums: set<Num>, b: Build, loop: Stmt, test: Expr, bps: seq<Points>)
    requires AllPlain(nums, b) && ExprOver(nums, test) && StmtOver(nums, loop) && ONE in nums && Looped(loop, true)
    ensures AllPlain(nums, GenDo(b, loop, test, bps).b)
    decreases loop, 3
  {
    hide AllPlain, GenStmt, GenExpr, ExprOver, Blocks, GenDo;
    var prelude, entry, merge := |b.blocks|, |b.blocks| + 1, |b.blocks| + 2;
    BlocksAbove(b, 3);
    PlainBlocks(nums, b, 3);
    var y, t := DoParts(b, loop, test, bps);
    StmtPlain(nums, Blocks(b, 3), loop, bps + [Points(merge, merge)]);
    PlainLink(nums, y.b, prelude, y.enter);
    ExprPlain(nums, Link(y.b, prelude, y.enter), test);
    PlainLink(nums, t.b, y.exit, t.enter);
    PlainLink(nums, Link(t.b, y.exit, t.enter), t.exit, entry);
    PlainBranch(nums, Link(Link(t.b, y.exit, t.enter), t.exit, entry), entry, t.v, prelude, merge);
  }

  lemma StepPlain(nums: set<Num>, b: Build, e: Option<Expr>, from: nat, to: nat)
    requires AllPlain(nums, b) && OptionOver(nums, e) && ONE in nums && from < |b.blocks|
    ensures AllPlain(nums, GenStep(b, e, from, to))
  {
    hide AllPlain, GenExpr, ExprOver;
    if e.None? {
      PlainLink(nums, b, from, to);
    } else {
      var c := GenExpr(b, e.value);
      ExprPlain(nums, b, e.value);
      PlainLink(nums, c.b, c.exit, to);
      PlainLink(nums, Link(c.b, c.exit, to), from, c.enter);
    }
  }

  lemma CheckPlain(nums: set<Num>, b: Build, check: Option<Expr>, test: nat, body: nat, merge: nat)
    requires AllPlain(nums, b) && OptionOver(nums, check) && ONE in nums && test < |b.blocks|
    ensures AllPlain(nums, GenCheck(b, check, test, body, merge))
  {
    hide AllPlain, GenExpr, ExprOver;
    if check.None? {
      PlainLink(nums, b, test, body);
    } else {
      var fork := |b.blocks|;
      PlainAppend(nums, b, [], b.vars);
      var c := GenExpr(NewBlock(b), check.value);
      ExprPlain(nums, NewBlock(b), check.value);
      PlainLink(nums, c.b, test, c.enter);
      PlainLink(nums, Link(c.b, test, c.enter), c.exit, fork);
      PlainBranch(nums, Link(Link(c.b, test, c.enter), c.exit, fork), fork, c.v, body, merge);
    }
  }

  lemma {:induction false} ForPlain(nums: set<Num>, b: Build, init: Option<Expr>, check: Option<Expr>,
      update: Option<Expr>, loop: Stmt, bps: seq<Points>)
    requires AllPlain(nums, b) && OptionOver(nums, init) && OptionOver(nums, check) && OptionOver(nums, update) &&
        StmtOver(nums, loop)
    requires ONE in nums && Looped(loop, true)
    ensures AllPlain(nums, GenFor(b, init, check, update, loop, bps).b)
    decreases loop, 3
  {
    hide AllPlain, GenStmt, GenStep, GenCheck, OptionOver, Blocks, GenFor;
    var start, test, step, merge := |b.blocks|, |b.blocks| + 1, |b.blocks| + 2, |b.blocks| + 3;
    BlocksAbove(b, 4);
    PlainBlocks(nums, b, 4);
    var i, y, c := ForParts(b, init, check, update, loop, bps);
    StepPlain(nums, Blocks(b, 4), init, start, test);
    StmtPlain(nums, i, loop, bps + [Points(merge, test)]);
    PlainLink(nums, y.b, y.exit, step);
    CheckPlain(nums, Link(y.b, y.exit, step), check, test, y.enter, merge);
    StepPlain(nums, c, update, step, test);
  }

  lemma {:induction false} DeclaratorsPlain(nums: set<Num>, b: Build, ds: seq<Declarator>)
    requires AllPlain(nums, b) && ONE in nums && forall i :: 0 <= i < |ds| ==> OptionOver(nums, ds[i].init)
    ensures GenDeclarators(b, ds).Some? ==> AllPlain(nums, GenDeclarators(b, ds).value.b)
    decreases |ds|
  {
    hide AllPlain, GenExpr, ExprOver;
    if ds != [] {
      var dcl, before := ds[|ds|-1], GenDeclarators(b, ds[..|ds|-1]);
      DeclaratorsPlain(nums, b, ds[..|ds|-1]);
      if dcl.init.Some? {
        assert OptionOver(nums, dcl.init);
        var b1 := if before.Some? then before.value.b else b;
        var c := GenExpr(b1, dcl.init.value);
        ExprPlain(nums, b1, dcl.init.value);
        if before.Some? { PlainLink(nums, c.b, before.value.exit, c.enter); }
        var c' := if before.Some? then Link(c.b, before.value.exit, c.enter) else c.b;
        assert PlainBlock(nums, [Plain(Do(Store(dcl.name, c.v)))]);
        PlainPush(nums, c', c.exit, [Plain(Do(Store(dcl.name, c.v)))], c'.vars);
      }
    }
  }

  // ----- functions -----

  lemma TerminatePlain(nums: set<Num>, b: Build, x: nat, toplevel: bool)
    requires AllPlain(nums, b) && x < |b.blocks|
    ensures AllPlain(nums, Terminate(b, x, toplevel))
  {
    hide AllPlain, HasReturn;
    if toplevel {
      assert PlainBlock(nums, [Plain(Halt)]);
      PlainPush(nums, b, x, [Plain(Halt)], b.vars);
    } else {
      var nodes: Block := [Plain(Alloca(b.vars)), Plain(Do(LoadUndefined(b.vars))), Plain(Ret(b.vars))];
      assert PlainBlock(nums, nodes);
      PlainPush(nums, b, x, nodes, b.vars + 1);
    }
  }

  /** Every node of a function is plain. */
  lemma FunctionPlain(nums: set<Num>, vars: nat, f: Body)
    requires Compiles(f) && Over(nums, f) && ONE in nums
    ensures AllPlain(nums, GenFunction(vars, f).0)
  {
    hide GenAll, Terminate, StmtOver;
    var b := Build(if f.names == [] then [] else [DeclNodes(f.names)], vars);
    assert PlainBlock(nums, DeclNodes(f.names));
    assert AllPlain(nums, b);
    if f.stmts == [] {
      PlainAppend(nums, b, [], vars);
      TerminatePlain(nums, if f.names == [] then NewBlock(b) else b, 0, f.toplevel);
    } else {
      var p := GenAll(b, f.stmts, []);
      AllPlainly(nums, b, f.stmts, []);
      if f.names != [] { PlainLink(nums, p.b, 0, p.enter); }
      TerminatePlain(nums, if f.names == [] then p.b else Link(p.b, 0, p.enter), p.exit, f.toplevel);
    }
  }
}
