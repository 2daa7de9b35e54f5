/** What C0 builds is well formed: jumps and branches end blocks, their targets
    exist, and the code of a construct names only temporaries of its own.
  */
module C0Shape {
  import opened Ir
  import opened Cfg
  import opened Ast
  import opened C0
  import opened C0Run
  import opened C0Stmt
  import opened C0Func

  /** A block to which more can be pushed. */
  predicate Open(block: Block) {
    forall i :: 0 <= i < |block| ==> block[i].Plain? && PlainItem(block[i].item)
  }

  /** The numbers of blocks and of temporaries from `b` up to `a`. */
  predicate NewBlockOf(b: Build, a: Build, x: nat) { |b.blocks| <= x < |a.blocks| }

  predicate NewTempOf(b: Build, a: Build, v: nat) { b.vars <= v < a.vars }

  /** A node leads to new blocks or to `pts`, and names new temporaries. */
  ghost predicate NodeIn(b: Build, a: Build, pts: set<nat>, node: Node) {
    && (forall t :: t in Targets(node) ==> NewBlockOf(b, a, t) || t in pts)
    && (forall v :: v in NodeMentions(node) ==> NewTempOf(b, a, v))
  }

  ghost predicate BlockIn(b: Build, a: Build, pts: set<nat>, block: Block) {
    forall i :: 0 <= i < |block| ==> NodeIn(b, a, pts, block[i])
  }

  ghost predicate Shaped(open: set<nat>, x: nat, block: Block) { if x in open then Open(block) else Finished(block) }

  /** The blocks built from `b` up to `a`: those in `open` are open, the others are
      finished, and none leads out except to `pts`. */
  ghost predicate Region(b: Build, a: Build, open: set<nat>, pts: set<nat>) {
    && |b.blocks| <= |a.blocks| && b.vars <= a.vars
    && (forall x :: x in open ==> NewBlockOf(b, a, x))
    && (forall x: nat :: NewBlockOf(b, a, x) ==> Shaped(open, x, a.blocks[x]) && BlockIn(b, a, pts, a.blocks[x]))
  }

  lemma RegionNone(b: Build, pts: set<nat>)
    ensures Region(b, b, {}, pts)
  {
  }

  lemma RegionNew(b: Build, a: Build, open: set<nat>, pts: set<nat>)
    requires Region(b, a, open, pts)
    ensures Region(b, NewBlock(a), open + {|a.blocks|}, pts)
  {
    RegionAppend(b, a, open, pts, [], a.vars);
    assert a.blocks + [[]] == NewBlock(a).blocks;
  }

  /** The numbers of the next `n` blocks. */
  function Upcoming(b: Build, n: nat): (r: set<nat>)
    ensures forall x: nat :: x in r <==> |b.blocks| <= x < |b.blocks| + n
  {
    if n == 0 then {} else Upcoming(b, n - 1) + {|b.blocks| + n - 1}
  }

  lemma {:induction false} RegionBlocks(b: Build, n: nat, pts: set<nat>)
    ensures Region(b, Blocks(b, n), Upcoming(b, n), pts)
  {
    BlocksAbove(b, n);
    if n == 0 {
      RegionNone(b, pts);
      assert Upcoming(b, 0) == {};
    } else {
      RegionBlocks(b, n - 1, pts);
      BlocksAbove(b, n - 1);
      RegionNew(b, Blocks(b, n - 1), Upcoming(b, n - 1), pts);
      assert Upcoming(b, n) == Upcoming(b, n - 1) + {|b.blocks| + n - 1};
    }
  }

  /** One more block; it is open when it is plain, and finished otherwise. */
  lemma RegionAppend(b: Build, a: Build, open: set<nat>, pts: set<nat>, block: Block, vars: nat)
    requires Region(b, a, open, pts) && a.vars <= vars && (Open(block) || Finished(block))
    requires BlockIn(b, Build(a.blocks + [block], vars), pts, block)
    ensures Region(b, Build(a.blocks + [block], vars), if Open(block) then open + {|a.blocks|} else open, pts)
  {
    var a' := Build(a.blocks + [block], vars);
    var open' := if Open(block) then open + {|a.blocks|} else open;
    forall x: nat | NewBlockOf(b, a', x) ensures Shaped(open', x, a'.blocks[x]) && BlockIn(b, a', pts, a'.blocks[x]) {
      if x < |a.blocks| {
        assert NewBlockOf(b, a, x);
        WiderBlock(b, a, a', pts, a.blocks[x]);
      }
    }
  }

  lemma WiderBlock(b: Build, a: Build, a': Build, pts: set<nat>, block: Block)
    requires BlockIn(b, a, pts, block) && |a.blocks| <= |a'.blocks| && a.vars <= a'.vars
    ensures BlockIn(b, a', pts, block)
  {
    forall i | 0 <= i < |block| ensures NodeIn(b, a', pts, block[i]) {
      assert NodeIn(b, a, pts, block[i]);
    }
  }

  /** Push a plain node: the block stays open. */
  lemma RegionPlain(b: Build, a: Build, open: set<nat>, pts: set<nat>, x: nat, item: Item<Text>)
    requires Region(b, a, open, pts) && x in open && PlainItem(item) && NodeIn(b, a, pts, Plain(item))
    ensures x < |a.blocks| && Region(b, Push(a, x, Plain(item)), open, pts)
  {
    assert NewBlockOf(b, a, x);
    var a' := Push(a, x, Plain(item));
    forall y: nat | NewBlockOf(b, a', y) ensures Shaped(open, y, a'.blocks[y]) && BlockIn(b, a', pts, a'.blocks[y]) {
      assert NewBlockOf(b, a, y);
      PushedBlock(b, a, a', pts, x, y, Plain(item));
    }
  }

  /** Push a jump or a branch: the block is finished. */
  lemma RegionClose(b: Build, a: Build, open: set<nat>, pts: set<nat>, x: nat, node: Node)
    requires Region(b, a, open, pts) && x in open && !node.Plain? && NodeIn(b, a, pts, node)
    ensures x < |a.blocks| && Region(b, Push(a, x, node), open - {x}, pts)
  {
    assert NewBlockOf(b, a, x);
    var a' := Push(a, x, node);
    forall y: nat | NewBlockOf(b, a', y)
        ensures Shaped(open - {x}, y, a'.blocks[y]) && BlockIn(b, a', pts, a'.blocks[y]) {
      assert NewBlockOf(b, a, y);
      PushedBlock(b, a, a', pts, x, y, node);
    }
  }

  lemma PushedBlock(b: Build, a: Build, a': Build, pts: set<nat>, x: nat, y: nat, node: Node)
    requires x < |a.blocks| && y < |a.blocks| && a' == Push(a, x, node)
    requires BlockIn(b, a, pts, a.blocks[y]) && NodeIn(b, a, pts, node)
    ensures BlockIn(b, a', pts, a'.blocks[y])
  {
    forall i | 0 <= i < |a'.blocks[y]| ensures NodeIn(b, a', pts, a'.blocks[y][i]) {
      if i < |a.blocks[y]| { assert NodeIn(b, a, pts, a.blocks[y][i]); }
    }
  }

  lemma RegionLink(b: Build, a: Build, open: set<nat>, pts: set<nat>, x: nat, y: nat)
    requires Region(b, a, open, pts) && x in open && NewBlockOf(b, a, y)
    ensures x < |a.blocks| && Region(b, Link(a, x, y), open - {x}, pts)
  {
    RegionClose(b, a, open, pts, x, Jump(y));
  }

  /** Code built on top of code. */
  lemma RegionJoin(b: Build, a: Build, a': Build, open: set<nat>, open': set<nat>, pts: set<nat>, pts': set<nat>)
    requires Region(b, a, open, pts) && Region(a, a', open', pts') && Above(a, a')
    requires forall t :: t in pts' ==> t in pts || NewBlockOf(b, a, t)
    ensures Region(b, a', open + open', pts)
  {
    forall x: nat | NewBlockOf(b, a', x)
        ensures Shaped(open + open', x, a'.blocks[x]) && BlockIn(b, a', pts, a'.blocks[x]) {
      if x < |a.blocks| {
        assert NewBlockOf(b, a, x) && a'.blocks[x] == a.blocks[x];
        WiderBlock(b, a, a', pts, a.blocks[x]);
      } else {
        assert NewBlockOf(a, a', x);
        InnerBlock(b, a, a', pts, pts', a'.blocks[x]);
      }
    }
  }

  lemma InnerBlock(b: Build, a: Build, a': Build, pts: set<nat>, pts': set<nat>, block: Block)
    requires |b.blocks| <= |a.blocks| <= |a'.blocks| && b.vars <= a.vars
    requires BlockIn(a, a', pts', block) && forall t :: t in pts' ==> t in pts || NewBlockOf(b, a, t)
    ensures BlockIn(b, a', pts, block)
  {
    forall i | 0 <= i < |block| ensures NodeIn(b, a', pts, block[i]) {
      assert NodeIn(a, a', pts', block[i]);
    }
  }

  // ----- expressions -----

  lemma OneOpRegion(b: Build, a: Build, open: set<nat>, op: Op<Text>)
    requires Region(b, a, open, {})
    requires forall v :: v in OpMentions(op) ==> b.vars <= v <= a.vars
    ensures Region(b, OneOp(a, op).b, open + {|a.blocks|}, {})
  {
    var block := [Plain(Alloca(a.vars)), Plain(Do(op))];
    var a' := Build(a.blocks + [block], a.vars + 1);
    assert NodeIn(b, a', {}, block[0]) && NodeIn(b, a', {}, block[1]);
    RegionAppend(b, a, open, {}, block, a.vars + 1);
  }

  /** The code of an expression is a region whose only open block is its exit. */
  lemma {:induction false} ExprRegion(b: Build, e: Expr)
    ensures Region(b, GenExpr(b, e).b, {GenExpr(b, e).exit}, {})
    decreases e, 1
  {
    hide Region, NodeIn, BlockIn, JoinPrefix, JoinInfix, JoinAssign, JoinConditional, CodeAbove;
    RegionNone(b, {});
    match e
    case Lit(lit) => SimpleRegion(b, LoadLiteral(lit, b.vars));
    case Identifier(name) => SimpleRegion(b, Load(b.vars, name));
    case This => SimpleRegion(b, Op.This(b.vars));
    case Prefix(uop, arg) =>
      ExprRegion(b, arg);
      PrefixRegion(b, GenExpr(b, arg), uop);
    case Infix(bop, left, right) =>
      var l := GenExpr(b, left);
      ExprRegion(b, left);
      ExprRegion(l.b, right);
      InfixRegion(b, l, GenExpr(l.b, right), bop);
    case Assign(target, right) =>
      ExprRegion(b, right);
      AssignRegion(b, GenExpr(b, right), target);
    case Update(increment, prefix, target) => UpdateRegion(b, increment, prefix, target);
    case Conditional(test, consequent, alternate) =>
      var t := GenExpr(b, test);
      var y := GenExpr(t.b, consequent);
      ExprRegion(b, test);
      ExprRegion(t.b, consequent);
      ExprRegion(y.b, alternate);
      ConditionalRegion(b, t, y, GenExpr(y.b, alternate));
  }

  lemma SimpleRegion(b: Build, op: Op<Text>)
    requires OpMentions(op) == [b.vars]
    ensures Region(b, OneOp(b, op).b, {OneOp(b, op).exit}, {})
  {
    RegionNone(b, {});
    OneOpRegion(b, b, {}, op);
    assert {} + {|b.blocks|} == {|b.blocks|};
  }

  lemma PrefixRegion(b: Build, a: Code, uop: UnaryOp)
    requires CodeAbove(b, a) && Region(b, a.b, {a.exit}, {})
    ensures Region(b, JoinPrefix(b, a, uop).b, {JoinPrefix(b, a, uop).exit}, {})
  {
    hide Region;
    var op := Unary(uop, a.b.vars, a.v);
    OneOpRegion(b, a.b, {a.exit}, op);
    var o := OneOp(a.b, op);
    RegionLink(b, o.b, {a.exit} + {o.exit}, {}, a.exit, o.enter);
    assert {a.exit} + {o.exit} - {a.exit} == {o.exit};
  }

  lemma InfixRegion(b: Build, l: Code, r: Code, bop: BinaryOp)
    requires CodeAbove(b, l) && CodeAbove(l.b, r) && Region(b, l.b, {l.exit}, {}) && Region(l.b, r.b, {r.exit}, {})
    ensures Region(b, JoinInfix(b, l, r, bop).b, {JoinInfix(b, l, r, bop).exit}, {})
  {
    hide Region;
    RegionJoin(b, l.b, r.b, {l.exit}, {r.exit}, {}, {});
    var op := Binary(bop, r.b.vars, l.v, r.v);
    OneOpRegion(b, r.b, {l.exit} + {r.exit}, op);
    var o := OneOp(r.b, op);
    var open := {l.exit} + {r.exit} + {o.exit};
    RegionLink(b, o.b, open, {}, l.exit, r.enter);
    RegionLink(b, Link(o.b, l.exit, r.enter), open - {l.exit}, {}, r.exit, o.enter);
    assert open - {l.exit} - {r.exit} == {o.exit};
  }

  lemma AssignRegion(b: Build, r: Code, target: Text)
    requires CodeAbove(b, r) && Region(b, r.b, {r.exit}, {})
    ensures Region(b, JoinAssign(b, r, target).b, {JoinAssign(b, r, target).exit}, {})
  {
    hide Region;
    var x := |r.b.blocks|;
    RegionNew(b, r.b, {r.exit}, {});
    var a1 := NewBlock(r.b);
    RegionNew(b, a1, {r.exit} + {x}, {});
    var a2 := NewBlock(a1);
    var open := {r.exit} + {x} + {x + 1};
    RegionLink(b, a2, open, {}, r.exit, x);
    var a3 := Link(a2, r.exit, x);
    assert NodeIn(b, a3, {}, Plain(Do(Store(target, r.v))));
    RegionPlain(b, a3, open - {r.exit}, {}, x, Do(Store(target, r.v)));
    var a4 := Push(a3, x, Plain(Do(Store(target, r.v))));
    RegionLink(b, a4, open - {r.exit}, {}, x, x + 1);
    assert open - {r.exit} - {x} == {x + 1};
    var goal := JoinAssign(b, r, target).b;
    assert Link(a4, x, x + 1).blocks[x] == goal.blocks[x];
    assert Link(a4, x, x + 1).blocks == goal.blocks;
  }

  lemma UpdateRegion(b: Build, increment: bool, prefix: bool, target: Text)
    ensures Region(b, GenUpdate(b, increment, prefix, target).b, {GenUpdate(b, increment, prefix, target).exit}, {})
  {
    var x, v := |b.blocks|, b.vars;
    var nodes := UpdateNodes(v, increment, target, x + 1);
    var goal := GenUpdate(b, increment, prefix, target).b;
    forall i | 0 <= i < 8 ensures NodeIn(b, goal, {}, nodes[i]) {}
    assert goal.blocks[x] == nodes && goal.blocks[x + 1] == [];
    assert Finished(nodes);
  }

  lemma ConditionalRegion(b: Build, t: Code, y: Code, n: Code)
    requires CodeAbove(b, t) && CodeAbove(t.b, y) && CodeAbove(y.b, n)
    requires Region(b, t.b, {t.exit}, {}) && Region(t.b, y.b, {y.exit}, {}) && Region(y.b, n.b, {n.exit}, {})
    ensures Region(b, JoinConditional(b, t, y, n).b, {JoinConditional(b, t, y, n).exit}, {})
  {
    hide Region, JoinConditional;
    RegionJoin(b, t.b, y.b, {t.exit}, {y.exit}, {}, {});
    RegionJoin(b, y.b, n.b, {t.exit} + {y.exit}, {n.exit}, {}, {});
    var fork, tail := |n.b.blocks|, |n.b.blocks| + 1;
    var exits := {t.exit} + {y.exit} + {n.exit};
    RegionNew(b, n.b, exits, {});
    RegionNew(b, NewBlock(n.b), exits + {fork}, {});
    var a0 := NewBlock(NewBlock(n.b));
    var open := exits + {fork} + {tail};
    RegionLink(b, a0, open, {}, y.exit, tail);
    var a1 := Link(a0, y.exit, tail);
    RegionLink(b, a1, open - {y.exit}, {}, n.exit, tail);
    var a2 := Link(a1, n.exit, tail);
    RegionLink(b, a2, open - {y.exit} - {n.exit}, {}, t.exit, fork);
    var a3 := Link(a2, t.exit, fork);
    RegionClose(b, a3, open - {y.exit} - {n.exit} - {t.exit}, {}, fork, Branch(t.v, y.enter, n.enter));
    var a4 := Push(a3, fork, Branch(t.v, y.enter, n.enter));
    assert open - {y.exit} - {n.exit} - {t.exit} - {fork} == {tail};
    MergeRegion(b, a4, {tail}, tail, t.v, y.v, n.v);
    ConditionalPushes(b, t, y, n);
  }

  /** Linking an earlier block leaves later ones as they are. */
  lemma LinkBefore(blocks: Graph, more: Graph, vars: nat, src: nat, dest: nat)
    requires src < |blocks|
    ensures Link(Build(blocks + more, vars), src, dest).blocks == Link(Build(blocks, vars), src, dest).blocks + more
  {
  }

  lemma ConditionalPushes(b: Build, t: Code, y: Code, n: Code)
    requires CodeAbove(b, t) && CodeAbove(t.b, y) && CodeAbove(y.b, n)
    ensures var fork, tail, m := |n.b.blocks|, |n.b.blocks| + 1, n.b.vars;
      var a3 := Link(Link(Link(NewBlock(NewBlock(n.b)), y.exit, tail), n.exit, tail), t.exit, fork);
      var a4 := Push(a3, fork, Branch(t.v, y.enter, n.enter));
      Push(Push(a4.(vars := m + 1), tail, Plain(Alloca(m))), tail, Plain(Merge(t.v, y.v, n.v, m))) == JoinConditional(b,
          t, y, n).b
    ensures JoinConditional(b, t, y, n).exit == |n.b.blocks| + 1
  {
    var fork, tail, m := |n.b.blocks|, |n.b.blocks| + 1, n.b.vars;
    var b1 := Link(n.b, y.exit, tail);
    var b2 := Link(b1, n.exit, tail);
    var b3 := Link(b2, t.exit, fork);
    assert NewBlock(NewBlock(n.b)).blocks == n.b.blocks + [[], []];
    LinkBefore(n.b.blocks, [[], []], m, y.exit, tail);
    LinkBefore(b1.blocks, [[], []], m, n.exit, tail);
    LinkBefore(b2.blocks, [[], []], m, t.exit, fork);
    LastBlocks(b3, Branch(t.v, y.enter, n.enter), Plain(Alloca(m)), Plain(Merge(t.v, y.v, n.v, m)));
  }

  /** What is pushed into the last two blocks. */
  lemma LastBlocks(b: Build, x: Node, y: Node, z: Node)
    ensures var fork := |b.blocks|;
      var a := Push(Build(b.blocks + [[], []], b.vars), fork, x);
      Push(Push(a.(vars := b.vars + 1), fork + 1, y), fork + 1, z) == Build(b.blocks + [[x], [y, z]], b.vars + 1)
  {
    var fork, bs := |b.blocks|, b.blocks;
    var a := Push(Build(bs + [[], []], b.vars), fork, x);
    assert a.blocks[fork] == [x] && a.blocks == bs + [[x], []];
    var c := Push(Build(a.blocks, b.vars + 1), fork + 1, y);
    assert c.blocks[fork + 1] == [y] && c.blocks == bs + [[x], [y]];
    var d := Push(c, fork + 1, z);
    assert d.blocks[fork + 1] == [y, z] && d.blocks == bs + [[x], [y, z]];
  }

  lemma RegionVars(b: Build, a: Build, open: set<nat>, pts: set<nat>, vars: nat)
    requires Region(b, a, open, pts) && a.vars <= vars
    ensures Region(b, a.(vars := vars), open, pts)
  {
    var a' := a.(vars := vars);
    forall x: nat | NewBlockOf(b, a', x) ensures Shaped(open, x, a'.blocks[x]) && BlockIn(b, a', pts, a'.blocks[x]) {
      assert NewBlockOf(b, a, x);
      WiderBlock(b, a, a', pts, a.blocks[x]);
    }
  }

  /** Allocate the merged temporary and merge into it. */
  lemma MergeRegion(b: Build, a: Build, open: set<nat>, tail: nat, t: nat, y: nat, n: nat)
    requires Region(b, a, open, {}) && tail in open && NewTempOf(b, a, t) && NewTempOf(b, a, y) && NewTempOf(b, a, n)
    ensures tail < |a.blocks|
    ensures Region(b, Push(Push(a.(vars := a.vars + 1), tail, Plain(Alloca(a.vars))), tail,
        Plain(Merge(t, y, n, a.vars))), open, {})
  {
    var m := a.vars;
    var a1 := a.(vars := m + 1);
    RegionVars(b, a, open, {}, m + 1);
    assert NodeIn(b, a1, {}, Plain(Alloca(m)));
    RegionPlain(b, a1, open, {}, tail, Alloca(m));
    var a2 := Push(a1, tail, Plain(Alloca(m)));
    assert NodeIn(b, a2, {}, Plain(Merge(t, y, n, m)));
    RegionPlain(b, a2, open, {}, tail, Merge(t, y, n, m));
  }

  // ----- statements -----

  /** Where `break` and `continue` may lead. */
  function PointsOf(bps: seq<Points>): set<nat> {
    if bps == [] then {} else {bps[|bps|-1].brk, bps[|bps|-1].cont}
  }

  /** An expression built on top. */
  lemma RegionExpr(b: Build, a: Build, open: set<nat>, pts: set<nat>, e: Expr)
    requires Region(b, a, open, pts)
    ensures Region(b, GenExpr(a, e).b, open + {GenExpr(a, e).exit}, pts)
  {
    hide Region, CodeAbove;
    var c := GenExpr(a, e);
    ExprRegion(a, e);
    AboveOf(a, e);
    RegionJoin(b, a, c.b, open, {c.exit}, pts, {});
  }

  lemma AboveOf(a: Build, e: Expr)
    ensures Above(a, GenExpr(a, e).b) && CodeAbove(a, GenExpr(a, e))
  {
  }

  lemma InRegion(b: Build, a: Build, open: set<nat>, pts: set<nat>, x: nat)
    requires Region(b, a, open, pts) && x in open
    ensures NewBlockOf(b, a, x)
  {
  }

  lemma StmtAbove(a: Build, st: Stmt, bps: seq<Points>)
    requires Looped(st, bps != [])
    ensures PartAbove(a, GenStmt(a, st, bps)) && Above(a, GenStmt(a, st, bps).b)
  {
  }

  /** The code of a statement is a region whose only open block is its exit, and
      which leads out only by `break` and `continue`. */
  lemma {:induction false} StmtRegion(b: Build, st: Stmt, bps: seq<Points>)
    requires Looped(st, bps != [])
    ensures Region(b, GenStmt(b, st, bps).b, {GenStmt(b, st, bps).exit}, PointsOf(bps))
    decreases st, 2
  {
    hide Region, GenExpr, GenIf, GenWhile, GenDo, GenFor, GenAll, GenVar, GenUse;
    var pts := PointsOf(bps);
    RegionNone(b, pts);
    match st
    case Empty =>
      RegionNew(b, b, {}, pts);
      assert {} + {|b.blocks|} == {|b.blocks|};
    case Block(body) => AllRegion(b, body, bps);
    case Eval(e) => RegionExpr(b, b, {}, pts, e); assert {} + {GenExpr(b, e).exit} == {GenExpr(b, e).exit};
    case Inspect(e) => UseRegion(b, e, InspectIt, pts);
    case Return(e) => UseRegion(b, e, ReturnIt, pts);
    case Break => LeapRegion(b, bps[|bps|-1].brk, pts);
    case Continue => LeapRegion(b, bps[|bps|-1].cont, pts);
    case If(_, _, _) => IfRegion(b, st, bps);
    case While(test, loop) => WhileRegion(b, test, loop, bps);
    case DoWhile(loop, test) => DoRegion(b, loop, test, bps);
    case For(init, check, update, loop) => ForRegion(b, init, check, update, loop, bps);
    case Var(ds) => VarRegion(b, ds, pts);
  }

  lemma UseRegion(b: Build, e: Expr, use: nat -> Item<Text>, pts: set<nat>)
    requires use == InspectIt || use == ReturnIt
    ensures Region(b, GenUse(b, e, use).b, {GenUse(b, e, use).exit}, pts)
  {
    hide Region, GenExpr;
    var x := |b.blocks|;
    RegionNone(b, pts);
    RegionNew(b, b, {}, pts);
    RegionExpr(b, NewBlock(b), {} + {x}, pts, e);
    var c := GenExpr(NewBlock(b), e);
    assert NewBlockOf(b, c.b, x);
    RegionLink(b, c.b, {} + {x} + {c.exit}, pts, c.exit, x);
    assert {} + {x} + {c.exit} - {c.exit} == {x};
    assert NodeIn(b, Link(c.b, c.exit, x), pts, Plain(use(c.v)));
    RegionPlain(b, Link(c.b, c.exit, x), {x}, pts, x, use(c.v));
  }

  lemma LeapRegion(b: Build, dest: nat, pts: set<nat>)
    requires dest in pts
    ensures Region(b, GenLeap(b, dest).b, {GenLeap(b, dest).exit}, pts)
  {
    hide Region;
    RegionNone(b, pts);
    var block := [Jump(dest)];
    assert BlockIn(b, Build(b.blocks + [block], b.vars), pts, block);
    RegionAppend(b, b, {}, pts, block, b.vars);
    var a := Build(b.blocks + [block], b.vars);
    assert block[0].Jump?;
    RegionNew(b, a, {}, pts);
    assert NewBlock(a).blocks == GenLeap(b, dest).b.blocks;
    assert {} + {|b.blocks| + 1} == {|b.blocks| + 1};
  }

  lemma {:induction false} AllRegion(b: Build, body: seq<Stmt>, bps: seq<Points>)
    requires forall i :: 0 <= i < |body| ==> Looped(body[i], bps != [])
    ensures Region(b, GenAll(b, body, bps).b, {GenAll(b, body, bps).exit}, PointsOf(bps))
    decreases body, 2
  {
    hide Region, GenStmt, PartAbove;
    var pts := PointsOf(bps);
    if body == [] {
      RegionNone(b, pts);
      RegionNew(b, b, {}, pts);
      assert {} + {|b.blocks|} == {|b.blocks|};
    } else {
      var last := |body| - 1;
      var before := GenAll(b, body[..last], bps);
      AllRegion(b, body[..last], bps);
      PartOnTop(b, before.b, {before.exit}, pts, body[last], bps);
      var p := GenStmt(before.b, body[last], bps);
      RegionLink(b, p.b, {before.exit} + {p.exit}, pts, before.exit, p.enter);
      assert {before.exit} + {p.exit} - {before.exit} == {p.exit};
    }
  }

  /** A statement built on top. */
  lemma {:induction false} PartOnTop(b: Build, a: Build, open: set<nat>, pts: set<nat>, st: Stmt, bps: seq<Points>)
    requires Region(b, a, open, pts) && Looped(st, bps != [])
    requires forall t :: t in PointsOf(bps) ==> t in pts || NewBlockOf(b, a, t)
    ensures var p := GenStmt(a, st, bps);
      && Region(b, p.b, open + {p.exit}, pts) && NewBlockOf(b, p.b, p.enter)
      && p.exit !in open && (forall x :: x in open ==> x != p.exit && NewBlockOf(b, p.b, x))
      && |a.blocks| <= |p.b.blocks| && Above(a, p.b)
    decreases st, 3
  {
    hide GenStmt;
    var p := GenStmt(a, st, bps);
    StmtRegion(a, st, bps);
    StmtAbove(a, st, bps);
    RegionJoin(b, a, p.b, open, {p.exit}, pts, PointsOf(bps));
  }

  lemma {:induction false} IfRegion(b: Build, st: Stmt, bps: seq<Points>)
    requires st.If? && Looped(st, bps != [])
    ensures Region(b, GenIf(b, st, bps).b, {GenIf(b, st, bps).exit}, PointsOf(bps))
    decreases st, 0
  {
    hide *;
    var pts, fork, merge := PointsOf(bps), |b.blocks|, |b.blocks| + 1;
    var t, y, last, onFalse := IfParts(b, st, bps);
    IfFacts(b, st, bps, t, y, last, onFalse);
    RegionBlocks(b, 2, pts);
    TwoUpcoming(b);
    RegionExpr(b, Blocks(b, 2), {fork, merge}, pts, st.test);
    var a1 := Link(t.b, t.exit, fork);
    TestLinked(b, t.b, {fork, merge} + {t.exit}, pts, t.exit, fork, merge);
    assert {fork, merge} + {t.exit} - {t.exit} == {fork, merge};
    PartOnTop(b, a1, {fork, merge}, pts, st.consequent, bps);
    var open := {fork, merge};
    if st.alternate.Some? {
      RegionLink(b, y.b, {fork, merge} + {y.exit}, pts, y.exit, merge);
      assert {fork, merge} + {y.exit} - {y.exit} == {fork, merge};
      PartOnTop(b, Link(y.b, y.exit, merge), {fork, merge}, pts, st.alternate.value, bps);
    }
    RegionLink(b, last.b, {fork, merge} + {last.exit}, pts, last.exit, merge);
    assert {fork, merge} + {last.exit} - {last.exit} == {fork, merge};
    IfBranchIn(b, st, bps, t, y, last, onFalse, pts);
    RegionClose(b, Link(last.b, last.exit, merge), {fork, merge}, pts, fork, Branch(t.v, y.enter, onFalse));
    assert {fork, merge} - {fork} == {merge};
  }

  lemma TwoUpcoming(b: Build)
    ensures Upcoming(b, 2) == {|b.blocks|, |b.blocks| + 1}
  {
  }

  lemma TestLinked(b: Build, a: Build, open: set<nat>, pts: set<nat>, x: nat, y: nat, z: nat)
    requires Region(b, a, open, pts) && x in open && y in open
    ensures x < |a.blocks| && Region(b, Link(a, x, y), open - {x}, pts)
  {
    InRegion(b, a, open, pts, y);
    RegionLink(b, a, open, pts, x, y);
  }

  lemma IfBranchIn(b: Build, st: Stmt, bps: seq<Points>, t: Code, y: Part, last: Part, onFalse: nat, pts: set<nat>)
    requires st.If? && Looped(st, bps != []) && IfIs(b, st, bps, t, y, last, onFalse)
    ensures |b.blocks| + 1 < |last.b.blocks| && last.exit < |last.b.blocks|
    ensures NodeIn(b, Link(last.b, last.exit, |b.blocks| + 1), pts, Branch(t.v, y.enter, onFalse))
  {
    hide GenExpr, GenStmt;
    BlocksAbove(b, 2);
    AboveOf(Blocks(b, 2), st.test);
    StmtAbove(Link(t.b, t.exit, |b.blocks|), st.consequent, bps);
    if st.alternate.Some? { StmtAbove(Link(y.b, y.exit, |b.blocks| + 1), st.alternate.value, bps); }
  }

  lemma LinkSize(a: Build, x: nat, y: nat)
    requires x < |a.blocks|
    ensures |Link(a, x, y).blocks| == |a.blocks| && Link(a, x, y).vars == a.vars
  {
  }

  lemma {:induction false} WhileRegion(b: Build, test: Expr, loop: Stmt, bps: seq<Points>)
    requires Looped(loop, true)
    ensures Region(b, GenWhile(b, test, loop, bps).b, {GenWhile(b, test, loop, bps).exit}, PointsOf(bps))
    decreases loop, 4
  {
    hide *;
    var pts := PointsOf(bps);
    var prelude, entry, again, merge := |b.blocks|, |b.blocks| + 1, |b.blocks| + 2, |b.blocks| + 3;
    var t, y := WhileParts(b, test, loop, bps);
    TurnFacts(b, test, loop, bps, t, y);
    WhileEnters(b, t, y);
    RegionBlocks(b, 4, pts);
    FourUpcoming(b);
    RegionExpr(b, Blocks(b, 4), {prelude, entry, again, merge}, pts, test);
    TestEnter(b, test);
    RegionLink(b, t.b, {prelude, entry, again, merge} + {t.exit}, pts, prelude, t.enter);
    assert {prelude, entry, again, merge} + {t.exit} - {prelude} == {entry, again, merge} + {t.exit};
    TestLinked(b, Link(t.b, prelude, t.enter), {entry, again, merge} + {t.exit}, pts, t.exit, entry, merge);
    assert {entry, again, merge} + {t.exit} - {t.exit} == {entry, again, merge};
    var a := Link(Link(t.b, prelude, t.enter), t.exit, entry);
    LinkSize(t.b, prelude, t.enter);
    LinkSize(Link(t.b, prelude, t.enter), t.exit, entry);
    LoopPoints(b, a, pts, bps, merge, prelude);
    PartOnTop(b, a, {entry, again, merge}, pts, loop, bps + [Points(merge, prelude)]);
    TestLinked(b, y.b, {entry, again, merge} + {y.exit}, pts, y.exit, again, merge);
    assert {entry, again, merge} + {y.exit} - {y.exit} == {entry, again, merge};
    var a1 := Link(y.b, y.exit, again);
    LinkSize(y.b, y.exit, again);
    StillNew(b, y.b, a1, prelude);
    RegionLink(b, a1, {entry, again, merge}, pts, again, prelude);
    assert {entry, again, merge} - {again} == {entry, merge};
    WhileBranchIn(b, test, loop, bps, t, y, pts);
    RegionClose(b, Link(a1, again, prelude), {entry, merge}, pts, entry, Branch(t.v, y.enter, merge));
    assert {entry, merge} - {entry} == {merge};
    WhileJoined(b, t, y);
  }

  lemma WhileJoined(b: Build, t: Code, y: Part)
    requires Above(b, y.b) && |b.blocks| + 4 <= |y.b.blocks| && |b.blocks| <= y.exit < |y.b.blocks|
    ensures var prelude, entry, again, merge := |b.blocks|, |b.blocks| + 1, |b.blocks| + 2, |b.blocks| + 3;
      JoinWhile(b, t, y).b == Push(Link(Link(y.b, y.exit, again), again, prelude), entry, Branch(t.v, y.enter, merge))
  {
  }

  lemma FourUpcoming(b: Build)
    ensures Upcoming(b, 4) == {|b.blocks|, |b.blocks| + 1, |b.blocks| + 2, |b.blocks| + 3}
    ensures Upcoming(b, 3) == {|b.blocks|, |b.blocks| + 1, |b.blocks| + 2}
  {
  }

  lemma TestEnter(b: Build, test: Expr)
    ensures NewBlockOf(b, GenExpr(Blocks(b, 4), test).b, GenExpr(Blocks(b, 4), test).enter)
    ensures NewTempOf(b, GenExpr(Blocks(b, 4), test).b, GenExpr(Blocks(b, 4), test).v)
    ensures var x := GenExpr(Blocks(b, 4), test).exit;
        x !in {|b.blocks|, |b.blocks| + 1, |b.blocks| + 2, |b.blocks| + 3}
    ensures Above(Blocks(b, 4), GenExpr(Blocks(b, 4), test).b)
  {
    BlocksAbove(b, 4);
  }

  lemma StillNew(b: Build, a: Build, a': Build, x: nat)
    requires |b.blocks| <= x < |a.blocks| <= |a'.blocks|
    ensures NewBlockOf(b, a', x)
  {
  }

  /** The points of a loop are its own blocks; those around it stay where they are. */
  lemma LoopPoints(b: Build, a: Build, pts: set<nat>, bps: seq<Points>, brk: nat, cont: nat)
    requires |b.blocks| <= brk < |a.blocks| && |b.blocks| <= cont < |a.blocks|
    ensures forall t :: t in PointsOf(bps + [Points(brk, cont)]) ==> t in pts || NewBlockOf(b, a, t)
    ensures bps + [Points(brk, cont)] != []
  {
    assert (bps + [Points(brk, cont)])[|bps + [Points(brk, cont)]| - 1] == Points(brk, cont);
  }

  lemma WhileBranchIn(b: Build, test: Expr, loop: Stmt, bps: seq<Points>, t: Code, y: Part, pts: set<nat>)
    requires Looped(loop, true) && TurnIs(b, test, loop, bps, t, y)
    ensures |b.blocks| + 3 < |y.b.blocks| && y.exit < |y.b.blocks|
    ensures NodeIn(b, Link(Link(y.b, y.exit, |b.blocks| + 2), |b.blocks| + 2, |b.blocks|), pts,
        Branch(t.v, y.enter, |b.blocks| + 3))
  {
    hide GenExpr, GenStmt;
    BlocksAbove(b, 4);
    AboveOf(Blocks(b, 4), test);
    StmtAbove(Link(Link(t.b, |b.blocks|, t.enter), t.exit, |b.blocks| + 1), loop,
        bps + [Points(|b.blocks| + 3, |b.blocks|)]);
  }

  lemma {:induction false} DoRegion(b: Build, loop: Stmt, test: Expr, bps: seq<Points>)
    requires Looped(loop, true)
    ensures Region(b, GenDo(b, loop, test, bps).b, {GenDo(b, loop, test, bps).exit}, PointsOf(bps))
    decreases loop, 4
  {
    hide *;
    var pts := PointsOf(bps);
    var prelude, entry, merge := |b.blocks|, |b.blocks| + 1, |b.blocks| + 2;
    var y, t := DoParts(b, loop, test, bps);
    DoFacts(b, loop, test, bps, y, t);
    DoEnters(b, y, t);
    RegionBlocks(b, 3, pts);
    FourUpcoming(b);
    BlocksCount(b, 3);
    LoopPoints(b, Blocks(b, 3), pts, bps, merge, merge);
    PartOnTop(b, Blocks(b, 3), {prelude, entry, merge}, pts, loop, bps + [Points(merge, merge)]);
    RegionLink(b, y.b, {prelude, entry, merge} + {y.exit}, pts, prelude, y.enter);
    assert {prelude, entry, merge} + {y.exit} - {prelude} == {entry, merge} + {y.exit};
    var a := Link(y.b, prelude, y.enter);
    RegionExpr(b, a, {entry, merge} + {y.exit}, pts, test);
    DoBranchIn(b, loop, test, bps, y, t, pts);
    RegionLink(b, t.b, {entry, merge} + {y.exit} + {t.exit}, pts, y.exit, t.enter);
    assert {entry, merge} + {y.exit} + {t.exit} - {y.exit} == {entry, merge} + {t.exit};
    TestLinked(b, Link(t.b, y.exit, t.enter), {entry, merge} + {t.exit}, pts, t.exit, entry, merge);
    assert {entry, merge} + {t.exit} - {t.exit} == {entry, merge};
    RegionClose(b, Link(Link(t.b, y.exit, t.enter), t.exit, entry), {entry, merge}, pts, entry,
        Branch(t.v, prelude, merge));
    assert {entry, merge} - {entry} == {merge};
    DoJoined(b, y, t);
  }

  lemma BlocksCount(b: Build, n: nat)
    ensures |Blocks(b, n).blocks| == |b.blocks| + n
  {
    BlocksAbove(b, n);
  }

  lemma DoJoined(b: Build, y: Part, t: Code)
    requires Above(b, t.b) && |b.blocks| + 3 <= |t.b.blocks| && |b.blocks| <= y.exit < |t.b.blocks| &&
        |b.blocks| <= t.exit < |t.b.blocks|
    ensures var prelude, entry, merge := |b.blocks|, |b.blocks| + 1, |b.blocks| + 2;
      JoinDo(b, y, t).b == Push(Link(Link(t.b, y.exit, t.enter), t.exit, entry), entry, Branch(t.v, prelude, merge))
  {
  }

  lemma DoBranchIn(b: Build, loop: Stmt, test: Expr, bps: seq<Points>, y: Part, t: Code, pts: set<nat>)
    requires Looped(loop, true) && DoIs(b, loop, test, bps, y, t)
    ensures |b.blocks| + 2 < |t.b.blocks| && y.exit < |y.b.blocks| <= t.exit < |t.b.blocks| &&
        NewBlockOf(b, t.b, t.enter)
    ensures NodeIn(b, Link(Link(t.b, y.exit, t.enter), t.exit, |b.blocks| + 1), pts,
        Branch(t.v, |b.blocks|, |b.blocks| + 2))
  {
    hide GenExpr, GenStmt;
    BlocksAbove(b, 3);
    StmtAbove(Blocks(b, 3), loop, bps + [Points(|b.blocks| + 2, |b.blocks| + 2)]);
    AboveOf(Link(y.b, |b.blocks|, y.enter), test);
  }

  // ----- for loops -----

  /** The blocks `x` of `open` other than `from` stay open. */
  lemma StepRegion(b: Build, a: Build, open: set<nat>, pts: set<nat>, e: Option<Expr>, from: nat, to: nat)
    requires Region(b, a, open, pts) && from in open && from < |a.blocks| && NewBlockOf(b, a, to)
    ensures Region(b, GenStep(a, e, from, to), open - {from}, pts)
  {
    hide Region, GenExpr, CodeAbove;
    if e.None? {
      RegionLink(b, a, open, pts, from, to);
    } else {
      var c := GenExpr(a, e.value);
      RegionExpr(b, a, open, pts, e.value);
      StepAbove(b, a, e.value, from, to);
      ExitApart(b, a, open, pts, e.value);
      RegionLink(b, c.b, open + {c.exit}, pts, c.exit, to);
      assert open + {c.exit} - {c.exit} == open;
      RegionLink(b, Link(c.b, c.exit, to), open, pts, from, c.enter);
    }
  }

  lemma StepAbove(b: Build, a: Build, e: Expr, from: nat, to: nat)
    requires |b.blocks| <= |a.blocks| && NewBlockOf(b, a, to) && from < |a.blocks|
    ensures var c := GenExpr(a, e);
      && NewBlockOf(b, c.b, to) && NewBlockOf(b, c.b, c.enter) && from < |c.b.blocks| && c.exit < |c.b.blocks|
      && NewBlockOf(b, Link(c.b, c.exit, to), c.enter)
  {
    AboveOf(a, e);
  }

  lemma ExitApart(b: Build, a: Build, open: set<nat>, pts: set<nat>, e: Expr)
    requires Region(b, a, open, pts)
    ensures GenExpr(a, e).exit !in open
  {
    AboveOf(a, e);
    assert forall x :: x in open ==> NewBlockOf(b, a, x);
  }

  lemma CheckRegion(b: Build, a: Build, open: set<nat>, pts: set<nat>, check: Option<Expr>, test: nat, body: nat,
      merge: nat)
    requires Region(b, a, open, pts) && test in open && test < |a.blocks| && NewBlockOf(b, a, body) &&
        NewBlockOf(b, a, merge)
    ensures Region(b, GenCheck(a, check, test, body, merge), open - {test}, pts)
  {
    hide Region, GenExpr, CodeAbove;
    if check.None? {
      RegionLink(b, a, open, pts, test, body);
    } else {
      var fork := |a.blocks|;
      RegionNew(b, a, open, pts);
      var c := GenExpr(NewBlock(a), check.value);
      RegionExpr(b, NewBlock(a), open + {fork}, pts, check.value);
      ExitApart(b, NewBlock(a), open + {fork}, pts, check.value);
      CheckIn(b, a, check.value, test, body, merge, pts);
      RegionLink(b, c.b, open + {fork} + {c.exit}, pts, test, c.enter);
      assert open + {fork} + {c.exit} - {test} == open - {test} + {fork} +
          {c.exit} by { InRegion(b, a, open, pts, test); }
      TestLinked(b, Link(c.b, test, c.enter), open - {test} + {fork} + {c.exit}, pts, c.exit, fork, fork);
      assert open - {test} + {fork} + {c.exit} - {c.exit} == open - {test} + {fork};
      NotYet(b, a, open, pts);
      RegionClose(b, Link(Link(c.b, test, c.enter), c.exit, fork), open - {test} + {fork}, pts, fork,
          Branch(c.v, body, merge));
      assert open - {test} + {fork} - {fork} == open - {test};
    }
  }

  lemma NotYet(b: Build, a: Build, open: set<nat>, pts: set<nat>)
    requires Region(b, a, open, pts)
    ensures |a.blocks| !in open
  {
  }

  lemma CheckIn(b: Build, a: Build, e: Expr, test: nat, body: nat, merge: nat, pts: set<nat>)
    requires |b.blocks| <= |a.blocks| && b.vars <= a.vars && test < |a.blocks| && NewBlockOf(b, a, body) &&
        NewBlockOf(b, a, merge)
    ensures var c := GenExpr(NewBlock(a), e);
      && test < |c.b.blocks| && |a.blocks| < c.exit < |c.b.blocks| && NewBlockOf(b, c.b, c.enter)
      && NodeIn(b, Link(Link(c.b, test, c.enter), c.exit, |a.blocks|), pts, Branch(c.v, body, merge))
  {
    hide GenExpr;
    AboveOf(NewBlock(a), e);
  }

  lemma {:induction false} ForRegion(b: Build, init: Option<Expr>, check: Option<Expr>, update: Option<Expr>,
      loop: Stmt, bps: seq<Points>)
    requires Looped(loop, true)
    ensures Region(b, GenFor(b, init, check, update, loop, bps).b, {GenFor(b, init, check, update, loop, bps).exit},
        PointsOf(bps))
    decreases loop, 4
  {
    hide *;
    var pts := PointsOf(bps);
    var start, test, step, merge := |b.blocks|, |b.blocks| + 1, |b.blocks| + 2, |b.blocks| + 3;
    var i, y, c := ForParts(b, init, check, update, loop, bps);
    ForFacts(b, init, check, update, loop, bps, i, y, c);
    ForEmpty(b, init, check, update, loop, bps, i, y, c);
    RegionBlocks(b, 4, pts);
    FourUpcoming(b);
    StillNew(b, Blocks(b, 4), Blocks(b, 4), test);
    StepRegion(b, Blocks(b, 4), {start, test, step, merge}, pts, init, start, test);
    assert {start, test, step, merge} - {start} == {test, step, merge};
    LoopPoints(b, i, pts, bps, merge, test);
    PartOnTop(b, i, {test, step, merge}, pts, loop, bps + [Points(merge, test)]);
    TestLinked(b, y.b, {test, step, merge} + {y.exit}, pts, y.exit, step, merge);
    assert {test, step, merge} + {y.exit} - {y.exit} == {test, step, merge};
    var a := Link(y.b, y.exit, step);
    EnterStill(b, y.b, y.exit, step, y.enter);
    StillNew(b, a, a, merge);
    CheckRegion(b, a, {test, step, merge}, pts, check, test, y.enter, merge);
    assert {test, step, merge} - {test} == {step, merge};
    StillNew(b, c, c, test);
    StepRegion(b, c, {step, merge}, pts, update, step, test);
    assert {step, merge} - {step} == {merge};
  }

  lemma EnterStill(b: Build, a: Build, x: nat, y: nat, enter: nat)
    requires x < |a.blocks| && NewBlockOf(b, a, enter)
    ensures NewBlockOf(b, Link(a, x, y), enter) && |Link(a, x, y).blocks| == |a.blocks|
  {
  }

  // ----- var -----

  lemma VarRegion(b: Build, ds: seq<Declarator>, pts: set<nat>)
    ensures Region(b, GenVar(b, ds).b, {GenVar(b, ds).exit}, pts)
  {
    hide Region, GenDeclarators;
    if GenDeclarators(b, ds).Some? {
      DeclaratorsRegion(b, ds, pts);
    } else {
      RegionNone(b, pts);
      RegionNew(b, b, {}, pts);
      assert {} + {|b.blocks|} == {|b.blocks|};
    }
  }

  lemma {:induction false} DeclaratorsRegion(b: Build, ds: seq<Declarator>, pts: set<nat>)
    requires GenDeclarators(b, ds).Some?
    ensures var p := GenDeclarators(b, ds).value; Region(b, p.b, {p.exit}, pts)
    decreases |ds|
  {
    hide Region, GenExpr, CodeAbove;
    var dcl, before := ds[|ds|-1], GenDeclarators(b, ds[..|ds|-1]);
    if before.Some? { DeclaratorsRegion(b, ds[..|ds|-1], pts); }
    if dcl.init.Some? {
      var e := dcl.init.value;
      var b1 := if before.Some? then before.value.b else b;
      var c := GenExpr(b1, e);
      if before.Some? {
        var x := before.value.exit;
        RegionExpr(b, b1, {x}, pts, e);
        ExitApart(b, b1, {x}, pts, e);
        DeclaratorIn(b, b1, e, dcl.name, pts);
        RegionLink(b, c.b, {x} + {c.exit}, pts, x, c.enter);
        assert {x} + {c.exit} - {x} == {c.exit};
        RegionPlain(b, Link(c.b, x, c.enter), {c.exit}, pts, c.exit, Do(Store(dcl.name, c.v)));
      } else {
        RegionNone(b, pts);
        RegionExpr(b, b, {}, pts, e);
        assert {} + {c.exit} == {c.exit};
        DeclaratorIn(b, b, e, dcl.name, pts);
        RegionPlain(b, c.b, {c.exit}, pts, c.exit, Do(Store(dcl.name, c.v)));
      }
    }
  }

  lemma DeclaratorIn(b: Build, a: Build, e: Expr, name: Text, pts: set<nat>)
    requires |b.blocks| <= |a.blocks| && b.vars <= a.vars
    ensures var c := GenExpr(a, e);
      && NewBlockOf(b, c.b, c.enter) && NodeIn(b, c.b, pts, Plain(Do(Store(name, c.v))))
      && forall x: nat, y: nat :: x < |c.b.blocks| ==> NodeIn(b, Link(c.b, x, y), pts, Plain(Do(Store(name, c.v))))
  {
    AboveOf(a, e);
  }

  // ----- functions -----

  lemma {:induction false} ReturnExit(b: Build, st: Stmt, bps: seq<Points>)
    requires Looped(st, bps != []) && EndsInReturn(st)
    ensures var p := GenStmt(b, st, bps); |p.b.blocks[p.exit]| == 1 && IsRet(p.b.blocks[p.exit][0])
    decreases st
  {
    hide GenExpr, GenUse;
    var p := GenStmt(b, st, bps);
    HoldsItself(p.b);
    match st
    case Return(e) => UseLinks(b, e, ReturnIt, p.b.blocks);
    case Block(body) =>
      AllLinks(b, body, bps, p.b.blocks);
      ReturnExit(GenAll(b, body[..|body|-1], bps).b, body[|body|-1], bps);
  }

  ghost predicate WellFormed(g: Graph) {
    Closed(g) && forall x: nat :: x < |g| ==> Finished(g[x])
  }

  /** Ending the function finishes the one block that is still open. */
  lemma TerminateFinishes(vars: nat, a: Build, x: nat, toplevel: bool)
    requires Region(Build([], vars), a, {x}, {})
    requires x < |a.blocks| && (HasReturn(a.blocks[x]) ==> IsRet(a.blocks[x][|a.blocks[x]|-1]))
    ensures WellFormed(Terminate(a, x, toplevel).blocks)
  {
    var b := Build([], vars);
    var g := Terminate(a, x, toplevel).blocks;
    forall y: nat | y < |g| ensures Finished(g[y]) && forall i, t :: 0 <= i < |g[y]| && t in Targets(g[y][i]) ==>
        t < |g| {
      assert NewBlockOf(b, a, y);
      assert BlockIn(b, a, {}, a.blocks[y]);
      forall i, t | 0 <= i < |g[y]| && t in Targets(g[y][i]) ensures t < |g| {
        if i < |a.blocks[y]| { assert NodeIn(b, a, {}, a.blocks[y][i]); }
      }
    }
  }

  lemma FunctionRegion(vars: nat, f: Body, p: Part, linked: Build)
    requires Compiles(f) && f.stmts != [] && Stages(vars, f, p, linked)
    ensures Region(Build([], vars), linked, {p.exit}, {})
  {
    hide Region, GenAll, Terminate, GenFunction;
    var b0 := Build([], vars);
    if f.names == [] {
      AllRegion(b0, f.stmts, []);
    } else {
      var b := Build([DeclNodes(f.names)], vars);
      DeclsRegion(vars, f.names);
      AllRegion(b, f.stmts, []);
      RegionJoin(b0, b, p.b, {0}, {p.exit}, {}, {});
      RegionLink(b0, p.b, {0} + {p.exit}, {}, 0, p.enter);
      assert {0} + {p.exit} - {0} == {p.exit};
    }
  }

  lemma DeclsRegion(vars: nat, names: seq<Text>)
    ensures Region(Build([], vars), Build([DeclNodes(names)], vars), {0}, {})
  {
  }

  /** What C0 builds is well formed. */
  lemma FunctionWellFormed(vars: nat, f: Body)
    requires Compiles(f)
    ensures WellFormed(GenFunction(vars, f).0.blocks) && GenFunction(vars, f).1 < |GenFunction(vars, f).0.blocks|
  {
    hide Region, GenAll, Terminate, WellFormed;
    if f.stmts == [] {
      var b := Build([DeclNodes(f.names)], vars);
      DeclsRegion(vars, f.names);
      if f.names == [] { assert NewBlock(Build([], vars)).blocks == b.blocks; }
      assert !HasReturn(b.blocks[0]);
      TerminateFinishes(vars, b, 0, f.toplevel);
    } else {
      var p, linked := FunctionStages(vars, f);
      FunctionRegion(vars, f, p, linked);
      var b := Build(if f.names == [] then [] else [DeclNodes(f.names)], vars);
      if HasReturn(linked.blocks[p.exit]) {
        OnlyReturnsAll(b, f.stmts, []);
        ReturnExit(b, Block(f.stmts), []);
      }
      TerminateFinishes(vars, linked, p.exit, f.toplevel);
    }
  }
}
