/** C0 itself: the syntax tree is walked and nodes are pushed into blocks. */
module C0Builder {
  import opened Ir
  import opened Cfg
  import opened Ast
  import opened C0
  import opened C0Run
  import opened C0Func

  class CfgBuilder {
    var blocks: Graph
    var varPool: nat

    constructor ()
      ensures Now() == Build([], 0)
    {
      blocks, varPool := [], 0;
    }

    function Now(): Build
      reads this
    {
      Build(blocks, varPool)
    }

    /** `xjs_cfgbuilder_allocate_var` */
    method AllocateVar() returns (v: nat)
      modifies this
      ensures v == old(varPool) && Now() == old(Now()).(vars := v + 1)
    {
      v := varPool;
      varPool := varPool + 1;
    }

    method BlockNew() returns (x: nat)
      modifies this
      ensures x == |old(blocks)| && Now() == NewBlock(old(Now()))
    {
      x := |blocks|;
      blocks := blocks + [[]];
    }

    method PushBack(x: nat, node: Node)
      requires x < |blocks|
      modifies this
      ensures Now() == Push(old(Now()), x, node)
    {
      blocks := blocks[x := blocks[x] + [node]];
    }

    /** `xjs_cfgbuilder_link`; what is linked is always a block. */
    method LinkTo(src: nat, dest: nat)
      requires src < |blocks|
      modifies this
      ensures Now() == Link(old(Now()), src, dest)
    {
      PushBack(src, Jump(dest));
    }

    /** A fresh temporary, allocated at the end of a block. */
    method PushTemp(x: nat) returns (v: nat)
      requires x < |blocks|
      modifies this
      ensures v == old(varPool) == varPool - 1 && |blocks| == |old(blocks)|
      ensures blocks == old(blocks)[x := old(blocks)[x] + [Plain(Alloca(v))]]
    {
      v := AllocateVar();
      PushBack(x, Plain(Alloca(v)));
    }

    /** A block that allocates a temporary and computes into it. */
    method OneOpBlock(v: nat, op: Op<Text>) returns (x: nat)
      modifies this
      ensures x == |old(blocks)|
      ensures Now() == old(Now()).(blocks := old(blocks) + [[Plain(Alloca(v)), Plain(Do(op))]])
    {
      x := BlockNew();
      PushBack(x, Plain(Alloca(v)));
      PushBack(x, Plain(Do(op)));
      assert blocks[x] == [Plain(Alloca(v)), Plain(Do(op))];
      assert blocks == old(blocks) + [[Plain(Alloca(v)), Plain(Do(op))]];
    }
  }

  /** What a walk over an expression hands back is its code. */
  ghost predicate IsCode(c: Code, b: Build, v: nat, enter: nat, exit: nat) { c == Code(b, v, enter, exit) }

  ghost predicate IsPart(p: Part, b: Build, enter: nat, exit: nat) { p == Part(b, enter, exit) }

  class Context {
    const cfgb: CfgBuilder
    var bps: seq<Points>

    constructor (cfgb: CfgBuilder)
      ensures this.cfgb == cfgb && bps == []
    {
      this.cfgb, bps := cfgb, [];
    }

    function Now(): Build
      reads this, cfgb
    {
      cfgb.Now()
    }

    // ----- expressions -----

    method Literal(lit: Ast.Literal) returns (v: nat, enter: nat, exit: nat)
      modifies cfgb
      ensures IsCode(GenExpr(old(Now()), Lit(lit)), Now(), v, enter, exit)
    {
      v := cfgb.AllocateVar();
      enter := cfgb.OneOpBlock(v, LoadLiteral(lit, v));
      exit := enter;
    }

    method NameOrThis(e: Expr) returns (v: nat, enter: nat, exit: nat)
      requires e.Identifier? || e.This?
      modifies cfgb
      ensures IsCode(GenExpr(old(Now()), e), Now(), v, enter, exit)
    {
      v := cfgb.AllocateVar();
      enter := cfgb.OneOpBlock(v, if e.Identifier? then Load(v, e.name) else Op.This(v));
      exit := enter;
    }

    method PrefixExpr(e: Expr) returns (v: nat, enter: nat, exit: nat)
      requires e.Prefix?
      modifies cfgb
      ensures IsCode(GenExpr(old(Now()), e), Now(), v, enter, exit)
      decreases e, 0
    {
      var arg, out;
      arg, enter, out := Expression(e.arg);
      v := cfgb.AllocateVar();
      exit := cfgb.OneOpBlock(v, Unary(e.uop, v, arg));
      cfgb.LinkTo(out, exit);
    }

    method InfixExpr(e: Expr) returns (v: nat, enter: nat, exit: nat)
      requires e.Infix?
      modifies cfgb
      ensures IsCode(GenExpr(old(Now()), e), Now(), v, enter, exit)
      decreases e, 0
    {
      var l, lout := 0, 0;
      l, enter, lout := Expression(e.left);
      var r, rin, rout := Expression(e.right);
      v := cfgb.AllocateVar();
      exit := cfgb.OneOpBlock(v, Binary(e.bop, v, l, r));
      cfgb.LinkTo(lout, rin);
      cfgb.LinkTo(rout, exit);
    }

    method AssignExpr(e: Expr) returns (v: nat, enter: nat, exit: nat)
      requires e.Assign?
      modifies cfgb
      ensures IsCode(GenExpr(old(Now()), e), Now(), v, enter, exit)
      decreases e, 0
    {
      ghost var b := Now();
      var out;
      v, enter, out := Expression(e.right);
      ghost var r := Code(Now(), v, enter, out);
      var x := cfgb.BlockNew();
      cfgb.PushBack(x, Plain(Do(Store(e.target, v))));
      cfgb.LinkTo(out, x);
      exit := cfgb.BlockNew();
      cfgb.LinkTo(x, exit);
      AssignBuilt(b, r, e.target, Now());
    }

    /** The old value of an update, and one. */
    method UpdateOperands(x: nat, target: Text) returns (v1: nat, v2: nat)
      requires x < |cfgb.blocks|
      modifies cfgb
      ensures v1 == old(cfgb.varPool) && v2 == v1 + 1 && cfgb.varPool == v1 + 2
      ensures cfgb.blocks == old(cfgb.blocks)[x := old(cfgb.blocks)[x] + [
        Plain(Alloca(v1)), Plain(Do(Load(v1, target))), Plain(Alloca(v2)), Plain(Do(LoadNumber(v2, ONE)))]]
    {
      v1 := cfgb.PushTemp(x);
      cfgb.PushBack(x, Plain(Do(Load(v1, target))));
      v2 := cfgb.PushTemp(x);
      cfgb.PushBack(x, Plain(Do(LoadNumber(v2, ONE))));
      assert cfgb.blocks[x] == old(cfgb.blocks)[x] + [Plain(Alloca(v1)), Plain(Do(Load(v1, target))),
                                                      Plain(Alloca(v2)), Plain(Do(LoadNumber(v2, ONE)))];
    }

    method UpdateExpr(e: Expr) returns (v: nat, enter: nat, exit: nat)
      requires e.Update?
      modifies cfgb
      ensures IsCode(GenExpr(old(Now()), e), Now(), v, enter, exit)
    {
      hide GenExpr;
      UpdateBuilds(Now(), e);
      ghost var before := cfgb.blocks;
      enter := cfgb.BlockNew();
      exit := cfgb.BlockNew();
      var v1, v2 := UpdateOperands(enter, e.target);
      var v3 := cfgb.PushTemp(enter);
      cfgb.PushBack(enter, Plain(Do(Binary(UpdateOp(e.increment), v3, v1, v2))));
      cfgb.PushBack(enter, Plain(Do(Store(e.target, v3))));
      cfgb.PushBack(enter, Jump(exit));
      v := if e.prefix then v3 else v1;
      assert cfgb.blocks[enter] == UpdateNodes(v1, e.increment, e.target, exit);
      assert cfgb.blocks == before + [UpdateNodes(v1, e.increment, e.target, exit), []];
    }

    method ConditionalExpr(e: Expr) returns (v: nat, enter: nat, exit: nat)
      requires e.Conditional?
      modifies cfgb
      ensures IsCode(GenExpr(old(Now()), e), Now(), v, enter, exit)
      decreases e, 0
    {
      hide GenExpr, JoinConditional, CodeAbove;
      ghost var b := Now();
      ConditionalIs(b, e);
      var test, tout;
      test, enter, tout := Expression(e.test);
      ghost var t := Code(Now(), test, enter, tout);
      var y, yin, yout := Expression(e.consequent);
      ghost var yes := Code(Now(), y, yin, yout);
      var n, nin, nout := Expression(e.alternate);
      ghost var no := Code(Now(), n, nin, nout);
      v, exit := MergeArms(b, t, yes, no, test, tout, y, yin, yout, n, nin, nout);
    }

    /** The fork and the merge of a conditional whose three parts have been built. */
    method MergeArms(ghost b: Build, ghost t: Code, ghost yes: Code, ghost no: Code, test: nat, tout: nat,
                     y: nat, yin: nat, yout: nat, n: nat, nin: nat, nout: nat) returns (v: nat, exit: nat)
      requires CodeAbove(b, t) && CodeAbove(t.b, yes) && CodeAbove(yes.b, no)
      requires t == Code(t.b, test, t.enter, tout) && yes == Code(yes.b, y, yin, yout) &&
          no == Code(Now(), n, nin, nout)
      modifies cfgb
      ensures Now() == JoinConditional(b, t, yes, no).b && v == JoinConditional(b, t, yes, no).v &&
          exit == JoinConditional(b, t, yes, no).exit
    {
      var fork := cfgb.BlockNew();
      exit := cfgb.BlockNew();
      cfgb.LinkTo(yout, exit);
      cfgb.LinkTo(nout, exit);
      cfgb.PushBack(fork, Branch(test, yin, nin));
      cfgb.LinkTo(tout, fork);
      v := cfgb.AllocateVar();
      cfgb.PushBack(exit, Plain(Alloca(v)));
      cfgb.PushBack(exit, Plain(Merge(test, y, n, v)));
      ConditionalBuilt(b, t, yes, no, Now());
    }

    /** `xjs_c0_expression` */
    method Expression(e: Expr) returns (v: nat, enter: nat, exit: nat)
      modifies cfgb
      ensures IsCode(GenExpr(old(Now()), e), Now(), v, enter, exit)
      decreases e, 1
    {
      match e {
        case Lit(lit) => v, enter, exit := Literal(lit);
        case Identifier(_) => v, enter, exit := NameOrThis(e);
        case This => v, enter, exit := NameOrThis(e);
        case Prefix(_, _) => v, enter, exit := PrefixExpr(e);
        case Infix(_, _, _) => v, enter, exit := InfixExpr(e);
        case Assign(_, _) => v, enter, exit := AssignExpr(e);
        case Update(_, _, _) => v, enter, exit := UpdateExpr(e);
        case Conditional(_, _, _) => v, enter, exit := ConditionalExpr(e);
      }
    }

    // ----- break and continue points -----

    method PushPoints(brk: nat, cont: nat)
      modifies this`bps
      ensures bps == old(bps) + [Points(brk, cont)]
    {
      bps := bps + [Points(brk, cont)];
    }

    method PopPoints()
      requires bps != []
      modifies this`bps
      ensures bps == old(bps)[..|old(bps)|-1]
    {
      bps := bps[..|bps|-1];
    }

    // ----- statements -----

    /** An inspect or a return statement. */
    method UseStatement(st: Stmt) returns (enter: nat, exit: nat)
      requires st.Inspect? || st.Return?
      modifies cfgb
      ensures IsPart(GenStmt(old(Now()), st, bps), Now(), enter, exit)
    {
      hide GenExpr;
      exit := cfgb.BlockNew();
      var v, out;
      v, enter, out := Expression(st.expr);
      cfgb.LinkTo(out, exit);
      cfgb.PushBack(exit, Plain(if st.Inspect? then InspectIt(v) else ReturnIt(v)));
    }

    /** A break or a continue statement; outside of loops it is an error. */
    method LeapStatement(st: Stmt) returns (ok: bool, enter: nat, exit: nat)
      requires st.Break? || st.Continue?
      modifies cfgb
      ensures ok <==> bps != []
      ensures ok ==> IsPart(GenStmt(old(Now()), st, bps), Now(), enter, exit)
    {
      if bps == [] { return false, 0, 0; }
      enter := cfgb.BlockNew();
      cfgb.LinkTo(enter, if st.Break? then bps[|bps|-1].brk else bps[|bps|-1].cont);
      exit := cfgb.BlockNew();
      assert cfgb.blocks[enter] == [Jump(if st.Break? then bps[|bps|-1].brk else bps[|bps|-1].cont)];
      assert cfgb.blocks == old(cfgb.blocks) + [[Jump(if st.Break? then bps[|bps|-1].brk else bps[|bps|-1].cont)], []];
      return true, enter, exit;
    }

    method IfStatement(st: Stmt) returns (ok: bool, enter: nat, exit: nat)
      requires st.If?
      modifies cfgb, this`bps
      ensures bps == old(bps) && (ok <==> Looped(st, bps != []))
      ensures ok ==> IsPart(GenIf(old(Now()), st, bps), Now(), enter, exit)
      decreases st, 0
    {
      hide GenExpr, GenStmt, Looped, JoinIf;
      ghost var b := Now();
      LoopedIf(st, bps != []);
      var fork := cfgb.BlockNew();
      exit := cfgb.BlockNew();
      TwoBlocks(b);
      BlocksAbove(b, 2);
      var v, out;
      v, enter, out := Expression(st.test);
      ghost var t := Code(Now(), v, enter, out);
      cfgb.LinkTo(out, fork);
      var yin, yout;
      ok, yin, yout := StatementListItem(st.consequent);
      if !ok { return; }
      ghost var y := Part(Now(), yin, yout);
      assert y == GenThen(b, t, st.consequent, bps);
      if st.alternate.Some? {
        cfgb.LinkTo(yout, exit);
        var nin, nout;
        ok, nin, nout := StatementListItem(st.alternate.value);
        if !ok { return; }
        assert Part(Now(), nin, nout) == GenElse(b, y, exit, st.alternate.value, bps);
        CloseIf(b, t, y, Part(Now(), nin, nout), fork, v, yin, nout, nin);
      } else {
        CloseIf(b, t, y, y, fork, v, yin, yout, exit);
      }
    }

    /** The last edges of an `if`: from the arm built last, and from the fork. */
    method CloseIf(ghost b: Build, ghost t: Code, ghost y: Part, ghost last: Part, fork: nat, v: nat, yin: nat,
        out: nat, other: nat)
      requires Above(b, last.b) && |b.blocks| + 2 <= |last.b.blocks| && |b.blocks| <= out < |last.b.blocks|
      requires |b.blocks| + 2 <= |t.b.blocks| <= |last.b.blocks| && |b.blocks| <= t.enter < |t.b.blocks|
      requires last == Part(Now(), last.enter, out) && t.v == v && y.enter == yin && fork == |b.blocks|
      modifies cfgb
      ensures JoinIf(b, t, y, last, other) == Part(Now(), t.enter, |b.blocks| + 1)
    {
      cfgb.LinkTo(out, fork + 1);
      cfgb.PushBack(fork, Branch(v, yin, other));
    }

    method WhileStatement(test: Expr, loop: Stmt) returns (ok: bool, enter: nat, exit: nat)
      modifies cfgb, this`bps
      ensures bps == old(bps) && (ok <==> Looped(loop, true))
      ensures ok ==> IsPart(GenWhile(old(Now()), test, loop, bps), Now(), enter, exit)
      decreases loop, 4
    {
      hide GenExpr, GenStmt, Looped, JoinWhile;
      ghost var b := Now();
      enter := LoopBlocks();
      exit := enter + 3;
      BlocksAbove(b, 4);
      PushPoints(exit, enter);
      var v, tin, tout := Expression(test);
      ghost var t := Code(Now(), v, tin, tout);
      cfgb.LinkTo(enter, tin);
      cfgb.LinkTo(tout, enter + 1);
      var yin, yout;
      ok, yin, yout := StatementListItem(loop);
      PopPoints();
      if !ok { return; }
      assert Part(Now(), yin, yout) == GenTurn(b, t, loop, bps + [Points(exit, enter)]);
      CloseWhile(b, t, Part(Now(), yin, yout), v, yin, yout, enter);
    }

    /** The four blocks of a `while` or a `for`; the first is returned. */
    method LoopBlocks() returns (first: nat)
      modifies cfgb
      ensures first == |old(cfgb.blocks)| && Now() == Blocks(old(Now()), 4)
    {
      FourBlocks(Now());
      first := cfgb.BlockNew();
      var _ := cfgb.BlockNew();
      var _ := cfgb.BlockNew();
      var _ := cfgb.BlockNew();
    }

    /** The edges of a loop whose test and body have been built. */
    method CloseWhile(ghost b: Build, ghost t: Code, ghost y: Part, v: nat, yin: nat, yout: nat, enter: nat)
      requires Above(b, y.b) && |b.blocks| + 4 <= |y.b.blocks| && |b.blocks| <= y.exit < |y.b.blocks|
      requires y == Part(Now(), yin, yout) && t.v == v && enter == |b.blocks|
      modifies cfgb
      ensures JoinWhile(b, t, y) == Part(Now(), enter, enter + 3)
    {
      cfgb.LinkTo(yout, enter + 2);
      cfgb.LinkTo(enter + 2, enter);
      cfgb.PushBack(enter + 1, Branch(v, yin, enter + 3));
    }

    method DoStatement(loop: Stmt, test: Expr) returns (ok: bool, enter: nat, exit: nat)
      modifies cfgb, this`bps
      ensures bps == old(bps) && (ok <==> Looped(loop, true))
      ensures ok ==> IsPart(GenDo(old(Now()), loop, test, bps), Now(), enter, exit)
      decreases loop, 4
    {
      hide GenExpr, GenStmt, Looped;
      ghost var b := Now();
      enter := cfgb.BlockNew();
      var entry := cfgb.BlockNew();
      exit := cfgb.BlockNew();
      ThreeBlocks(b);
      BlocksAbove(b, 3);
      PushPoints(exit, exit);
      var yin, yout;
      ok, yin, yout := StatementListItem(loop);
      PopPoints();
      if !ok { return; }
      ghost var y := Part(Now(), yin, yout);
      cfgb.LinkTo(enter, yin);
      var v, tin, tout := Expression(test);
      assert Code(Now(), v, tin, tout) == GenRetest(b, y, test);
      cfgb.LinkTo(yout, tin);
      cfgb.LinkTo(tout, entry);
      cfgb.PushBack(entry, Branch(v, enter, exit));
    }

    /** From block `from`, an optional expression, then on to `to`. */
    method OptionalStep(e: Option<Expr>, from: nat, to: nat)
      requires from < |cfgb.blocks|
      modifies cfgb
      ensures Now() == GenStep(old(Now()), e, from, to)
    {
      if e.None? {
        cfgb.LinkTo(from, to);
      } else {
        var v, ein, eout := Expression(e.value);
        cfgb.LinkTo(eout, to);
        cfgb.LinkTo(from, ein);
      }
    }

    method OptionalCheck(check: Option<Expr>, test: nat, body: nat, merge: nat)
      requires test < |cfgb.blocks|
      modifies cfgb
      ensures Now() == GenCheck(old(Now()), check, test, body, merge)
    {
      if check.None? {
        cfgb.LinkTo(test, body);
      } else {
        var fork := cfgb.BlockNew();
        var v, cin, cout := Expression(check.value);
        cfgb.LinkTo(test, cin);
        cfgb.LinkTo(cout, fork);
        cfgb.PushBack(fork, Branch(v, body, merge));
      }
    }

    method ForStatement(st: Stmt) returns (ok: bool, enter: nat, exit: nat)
      requires st.For?
      modifies cfgb, this`bps
      ensures bps == old(bps) && (ok <==> Looped(st.loop, true))
      ensures ok ==> IsPart(GenFor(old(Now()), st.init, st.check, st.update, st.loop, bps), Now(), enter, exit)
      decreases st, 0
    {
      hide GenExpr, GenStmt, Looped, GenStep, GenCheck;
      ghost var b := Now();
      enter := LoopBlocks();
      var test, step := enter + 1, enter + 2;
      exit := enter + 3;
      BlocksAbove(b, 4);
      PushPoints(exit, test);
      OptionalStep(st.init, enter, test);
      var yin, yout;
      ok, yin, yout := StatementListItem(st.loop);
      if ok {
        cfgb.LinkTo(yout, step);
        OptionalCheck(st.check, test, yin, exit);
        OptionalStep(st.update, step, test);
      }
      PopPoints();
    }

    /** `xjs_c0_variabledeclaratorlist_var` */
    method VarStatement(ds: seq<Declarator>) returns (enter: nat, exit: nat)
      modifies cfgb
      ensures IsPart(GenVar(old(Now()), ds), Now(), enter, exit)
    {
      hide GenExpr;
      ghost var b := Now();
      var started := false;
      enter, exit := 0, 0;
      var i := 0;
      while i < |ds|
        invariant 0 <= i <= |ds|
        invariant started <==> GenDeclarators(b, ds[..i]).Some?
        invariant if started then GenDeclarators(b, ds[..i]) == Some(Part(Now(), enter, exit)) else Now() == b
      {
        assert ds[..i+1][..i] == ds[..i];
        if ds[i].init.Some? {
          var v, ein, eout := Expression(ds[i].init.value);
          if started { cfgb.LinkTo(exit, ein); } else { enter := ein; }
          started, exit := true, eout;
          cfgb.PushBack(exit, Plain(Do(Store(ds[i].name, v))));
        }
        i := i + 1;
      }
      assert ds[..|ds|] == ds;
      if !started {
        enter := cfgb.BlockNew();
        exit := enter;
      }
    }

    /** `xjs_c0_statementlist` */
    method StatementList(body: seq<Stmt>) returns (ok: bool, enter: nat, exit: nat)
      modifies cfgb, this`bps
      ensures bps == old(bps) && (ok <==> forall i :: 0 <= i < |body| ==> Looped(body[i], bps != []))
      ensures ok ==> IsPart(GenAll(old(Now()), body, bps), Now(), enter, exit)
      decreases body, 0
    {
      hide GenStmt, Looped;
      ghost var b := Now();
      enter := cfgb.BlockNew();
      exit := enter;
      var i := 0;
      while i < |body|
        invariant 0 <= i <= |body| && bps == old(bps)
        invariant forall k :: 0 <= k < i ==> Looped(body[k], bps != [])
        invariant IsPart(GenAll(b, body[..i], bps), Now(), enter, exit)
      {
        assert body[..i+1][..i] == body[..i];
        var iin, iout;
        ok, iin, iout := StatementListItem(body[i]);
        if !ok { return; }
        cfgb.LinkTo(exit, iin);
        exit := iout;
        i := i + 1;
      }
      assert body[..|body|] == body;
      ok := true;
    }

    /** `xjs_c0_statementlistitem` */
    method StatementListItem(st: Stmt) returns (ok: bool, enter: nat, exit: nat)
      modifies cfgb, this`bps
      ensures bps == old(bps) && (ok <==> Looped(st, bps != []))
      ensures ok ==> IsPart(GenStmt(old(Now()), st, bps), Now(), enter, exit)
      decreases st, 1
    {
      hide GenExpr, GenIf, GenWhile, GenDo, GenFor, GenAll, GenVar;
      ok := true;
      match st {
        case Empty => enter := cfgb.BlockNew(); exit := enter;
        case Block(body) => ok, enter, exit := StatementList(body);
        case Eval(e) => var _, ein, eout := Expression(e); enter, exit := ein, eout;
        case Inspect(_) => enter, exit := UseStatement(st);
        case Return(_) => enter, exit := UseStatement(st);
        case Break => ok, enter, exit := LeapStatement(st);
        case Continue => ok, enter, exit := LeapStatement(st);
        case If(_, _, _) => ok, enter, exit := IfStatement(st);
        case While(test, loop) => ok, enter, exit := WhileStatement(test, loop);
        case DoWhile(loop, test) => ok, enter, exit := DoStatement(loop, test);
        case For(_, _, _, _) => ok, enter, exit := ForStatement(st);
        case Var(ds) => enter, exit := VarStatement(ds);
      }
    }
  }

  lemma UpdateBuilds(b: Build, e: Expr)
    requires e.Update?
    ensures GenExpr(b, e) == GenUpdate(b, e.increment, e.prefix, e.target)
  {
  }

  lemma LoopedIf(st: Stmt, inLoop: bool)
    requires st.If?
    ensures Looped(st, inLoop) <==>
        Looped(st.consequent, inLoop) && (st.alternate.Some? ==> Looped(st.alternate.value, inLoop))
  {
  }

  lemma TwoBlocks(b: Build)
    ensures NewBlock(NewBlock(b)) == Blocks(b, 2)
  {
    assert Blocks(b, 1) == NewBlock(Blocks(b, 0));
  }

  lemma ThreeBlocks(b: Build)
    ensures NewBlock(NewBlock(NewBlock(b))) == Blocks(b, 3)
  {
    TwoBlocks(b);
  }

  lemma FourBlocks(b: Build)
    ensures NewBlock(NewBlock(NewBlock(NewBlock(b)))) == Blocks(b, 4)
  {
    ThreeBlocks(b);
  }

  lemma AssignBuilt(b: Build, r: Code, target: Text, now: Build)
    requires CodeAbove(b, r)
    requires var x := |r.b.blocks|;
      now == Link(NewBlock(Link(Push(NewBlock(r.b), x, Plain(Do(Store(target, r.v)))), r.exit, x)), x, x + 1)
    ensures now == JoinAssign(b, r, target).b
  {
    var x := |r.b.blocks|;
    assert now.blocks[x] == [Plain(Do(Store(target, r.v))), Jump(x + 1)];
    assert now.blocks == JoinAssign(b, r, target).b.blocks;
  }

  lemma ConditionalBuilt(b: Build, t: Code, y: Code, n: Code, now: Build)
    requires CodeAbove(b, t) && CodeAbove(t.b, y) && CodeAbove(y.b, n)
    requires var fork, tail := |n.b.blocks|, |n.b.blocks| + 1;
      var b1 := Link(Link(NewBlock(NewBlock(n.b)), y.exit, tail), n.exit, tail);
      var b2 := Link(Push(b1, fork, Branch(t.v, y.enter, n.enter)), t.exit, fork);
      now == Push(Push(b2.(vars := n.b.vars + 1), tail, Plain(Alloca(n.b.vars))), tail,
          Plain(Merge(t.v, y.v, n.v, n.b.vars)))
    ensures now == JoinConditional(b, t, y, n).b
  {
    var fork, tail := |n.b.blocks|, |n.b.blocks| + 1;
    var goal := JoinConditional(b, t, y, n).b.blocks;
    assert now.blocks[fork] == [Branch(t.v, y.enter, n.enter)] == goal[fork];
    assert now.blocks[tail] == [Plain(Alloca(n.b.vars)), Plain(Merge(t.v, y.v, n.v, n.b.vars))] == goal[tail];
    forall x | 0 <= x < fork ensures now.blocks[x] == goal[x] {
      if x == y.exit { assert goal[x] == n.b.blocks[x] + [Jump(tail)]; }
      else if x == n.exit { assert goal[x] == n.b.blocks[x] + [Jump(tail)]; }
      else if x == t.exit { assert goal[x] == n.b.blocks[x] + [Jump(fork)]; }
    }
    assert now.blocks == goal;
  }

  // ----- function scopes -----

  /** `xjs_var_hoist_statement` */
  method HoistStatement(st: Stmt, vars: set<Text>) returns (r: set<Text>)
    ensures r == vars + VarNames(st)
    ensures forall x :: x in r <==> x in vars || DeclaredIn(st, x)
    decreases st, 0
  {
    hide DeclaredIn;
    forall x ensures x in VarNames(st) <==> DeclaredIn(st, x) { VarNamesAre(st, x); }
    r := vars;
    match st {
      case Block(body) => r := HoistAll(body, vars);
      case If(_, consequent, alternate) =>
        r := HoistStatement(consequent, r);
        if alternate.Some? { r := HoistStatement(alternate.value, r); }
      case While(_, loop) => r := HoistStatement(loop, r);
      case DoWhile(loop, _) => r := HoistStatement(loop, r);
      case For(_, _, _, loop) => r := HoistStatement(loop, r);
      case Var(ds) =>
        var i := 0;
        while i < |ds|
          invariant 0 <= i <= |ds|
          invariant r == vars + set k | 0 <= k < i :: ds[k].name
        {
          r := r + {ds[i].name};
          i := i + 1;
        }
      case _ =>
    }
  }

  method HoistAll(body: seq<Stmt>, vars: set<Text>) returns (r: set<Text>)
    ensures r == vars + AllVarNames(body)
    decreases body, 0
  {
    r := vars;
    var i := 0;
    while i < |body|
      invariant 0 <= i <= |body|
      invariant r == vars + AllVarNames(body[..i])
    {
      assert body[..i+1][..i] == body[..i];
      r := HoistStatement(body[i], r);
      i := i + 1;
    }
    assert body[..|body|] == body;
  }

  /** `xjs_var_declare_localvars`: a block that declares every name, in some order. */
  method DeclareLocals(cfgb: CfgBuilder, vars: set<Text>) returns (x: nat, names: seq<Text>)
    requires cfgb.blocks == []
    modifies cfgb
    ensures x == 0 && cfgb.Now() == Build([DeclNodes(names)], old(cfgb.varPool))
    ensures (forall i, j :: 0 <= i < j < |names| ==> names[i] != names[j]) && forall n :: n in names <==> n in vars
  {
    x := cfgb.BlockNew();
    names := [];
    var todo := vars;
    assert cfgb.blocks[x] == DeclNodes(names);
    while todo != {}
      invariant todo <= vars
      invariant forall n :: n in names <==> n in vars - todo
      invariant forall i, j :: 0 <= i < j < |names| ==> names[i] != names[j]
      invariant x == 0 && |cfgb.blocks| == 1 && cfgb.blocks[0] == DeclNodes(names) && cfgb.varPool == old(cfgb.varPool)
    {
      var name :| name in todo;
      assert name !in names;
      todo := todo - {name};
      cfgb.PushBack(x, Plain(Do(DeclVar(name))));
      assert DeclNodes(names) + [Plain(Do(DeclVar(name)))] == DeclNodes(names + [name]);
      names := names + [name];
    }
    assert cfgb.blocks == [DeclNodes(names)];
  }

  /** `xjs_c0_statementlist_function_scope_terminate` */
  method TerminateScope(cfgb: CfgBuilder, x: nat, toplevel: bool)
    requires x < |cfgb.blocks|
    modifies cfgb
    ensures cfgb.Now() == Terminate(old(cfgb.Now()), x, toplevel)
  {
    if toplevel {
      cfgb.PushBack(x, Plain(Halt));
      return;
    }
    var terminated := false;
    var i := 0;
    while i < |cfgb.blocks[x]| && !terminated
      invariant 0 <= i <= |cfgb.blocks[x]|
      invariant terminated <==> exists k :: 0 <= k < i && IsRet(cfgb.blocks[x][k])
    {
      terminated := IsRet(cfgb.blocks[x][i]);
      i := i + 1;
    }
    if !terminated {
      ghost var block := cfgb.blocks[x];
      var v := cfgb.AllocateVar();
      cfgb.PushBack(x, Plain(Alloca(v)));
      cfgb.PushBack(x, Plain(Do(LoadUndefined(v))));
      cfgb.PushBack(x, Plain(Ret(v)));
      assert cfgb.blocks[x] == block + [Plain(Alloca(v)), Plain(Do(LoadUndefined(v))), Plain(Ret(v))];
      assert cfgb.blocks == Terminate(old(cfgb.Now()), x, toplevel).blocks;
    }
  }

  /** `xjs_c0_statementlist_function_scope_statementlist`: compilation fails exactly
      when a `break` or a `continue` stands outside of every loop. */
  method FunctionScope(ctx: Context, stmts: seq<Stmt>, toplevel: bool) returns (ok: bool, entry: nat, names: seq<Text>)
    requires ctx.cfgb.blocks == [] && ctx.bps == []
    modifies ctx.cfgb, ctx`bps
    ensures ok <==> Compiles(Body(names, stmts, toplevel))
    ensures Hoisted(Body(names, stmts, toplevel)) && ctx.bps == []
    ensures ok ==> (ctx.Now(), entry) == GenFunction(old(ctx.cfgb.varPool), Body(names, stmts, toplevel))
  {
    hide GenAll, Terminate, Looped, VarNames, AllVarNames, Hoisted;
    var vars := HoistAll(stmts, {});
    names := [];
    var declared := vars != {};
    if declared { entry, names := DeclareLocals(ctx.cfgb, vars); } else { entry := 0; }
    NamesAreHoisted(Body(names, stmts, toplevel));
    ok := true;
    var exit := 0;
    if stmts != [] {
      var enter;
      ok, enter, exit := ctx.StatementList(stmts);
      if !ok { return; }
      if declared { ctx.cfgb.LinkTo(entry, enter); } else { entry := enter; }
    } else if !declared {
      entry := ctx.cfgb.BlockNew();
      exit := entry;
    }
    TerminateScope(ctx.cfgb, exit, toplevel);
  }
}
