/** C0: function scopes.  Hoisted names are declared, the body runs, and what falls
    off its end is halted or returns undefined.
  */
module C0Func {
  import opened Ir
  import opened Cfg
  import opened Ast
  import Dialects
  import opened C0
  import opened C0Run
  import opened C0Stmt

  // ----- meaning -----

  /** The names a statement declares with `var`, wherever they stand in it. */
  function VarNames(st: Stmt): set<Text>
    decreases st
  {
    match st
    case Block(body) => AllVarNames(body)
    case If(_, consequent, alternate) =>
      VarNames(consequent) + if alternate.Some? then VarNames(alternate.value) else {}
    case While(_, loop) => VarNames(loop)
    case DoWhile(loop, _) => VarNames(loop)
    case For(_, _, _, loop) => VarNames(loop)
    case Var(declarators) => set i | 0 <= i < |declarators| :: declarators[i].name
    case _ => {}
  }

  function AllVarNames(body: seq<Stmt>): set<Text>
    decreases body
  {
    if body == [] then {} else AllVarNames(body[..|body|-1]) + VarNames(body[|body|-1])
  }

  /** `part` is a statement of the block, an arm of the `if` or the body of the loop that
      `st` is. */
  predicate PartOf(part: Stmt, st: Stmt) {
    || (st.Block? && part in st.body)
    || (st.If? && (part == st.consequent || st.alternate == Some(part)))
    || (st.While? && part == st.loop)
    || (st.DoWhile? && part == st.loop)
    || (st.For? && part == st.loop)
  }

  /** The statements of a chain, each a part of the one before. */
  ghost predicate Nested(chain: seq<Stmt>) {
    chain != [] && forall i :: 0 < i < |chain| ==> PartOf(chain[i], chain[i-1])
  }

  /** `inner` stands in `st`, at any depth. */
  ghost predicate StandsIn(inner: Stmt, st: Stmt) {
    exists chain :: ChainTo(chain, inner, st)
  }

  ghost predicate ChainTo(chain: seq<Stmt>, inner: Stmt, st: Stmt) {
    Nested(chain) && chain[0] == st && chain[|chain|-1] == inner
  }

  predicate Declares(st: Stmt, x: Text) {
    st.Var? && exists i :: 0 <= i < |st.declarators| && st.declarators[i].name == x
  }

  /** Some `var` that stands in the statement declares the name. */
  ghost predicate DeclaredIn(st: Stmt, x: Text) {
    exists inner :: StandsIn(inner, st) && Declares(inner, x)
  }

  /** Exactly the names that a `var` declares somewhere in the statement. */
  lemma {:induction false} VarNamesAre(st: Stmt, x: Text)
    ensures x in VarNames(st) <==> DeclaredIn(st, x)
  {
    if x in VarNames(st) { NameIsDeclared(st, x); }
    if DeclaredIn(st, x) {
      var inner :| StandsIn(inner, st) && Declares(inner, x);
      var chain :| ChainTo(chain, inner, st);
      DeclaredIsNamed(chain, inner, st, x);
    }
  }

  lemma {:induction false} DeclaredIsNamed(chain: seq<Stmt>, inner: Stmt, st: Stmt, x: Text)
    requires ChainTo(chain, inner, st) && Declares(inner, x)
    ensures x in VarNames(st)
    decreases |chain|
  {
    if |chain| > 1 {
      assert PartOf(chain[1], chain[0]);
      var rest := chain[1..];
      assert Nested(rest) by {
        forall i | 0 < i < |rest| ensures PartOf(rest[i], rest[i-1]) { assert PartOf(chain[i+1], chain[i]); }
      }
      DeclaredIsNamed(rest, inner, chain[1], x);
      PartIsNamed(chain[1], st, x);
    }
  }

  lemma PartIsNamed(part: Stmt, st: Stmt, x: Text)
    requires PartOf(part, st) && x in VarNames(part)
    ensures x in VarNames(st)
  {
    if st.Block? {
      var i :| 0 <= i < |st.body| && st.body[i] == part;
      ListNames(st.body, x);
    }
  }

  /** The names of a list are those of its statements. */
  lemma {:induction false} ListNames(body: seq<Stmt>, x: Text)
    ensures x in AllVarNames(body) <==> exists i :: 0 <= i < |body| && x in VarNames(body[i])
    decreases |body|
  {
    hide VarNames;
    if body != [] {
      ListNames(body[..|body|-1], x);
      if x in VarNames(body[|body|-1]) { assert 0 <= |body| - 1 < |body|; }
    }
  }

  lemma {:induction false} NameIsDeclared(st: Stmt, x: Text)
    requires x in VarNames(st)
    ensures DeclaredIn(st, x)
    decreases st
  {
    match st
    case Block(body) =>
      ListNames(body, x);
      var i :| 0 <= i < |body| && x in VarNames(body[i]);
      NameIsDeclared(body[i], x);
      PartDeclares(body[i], st, x);
    case If(_, consequent, alternate) =>
      if x in VarNames(consequent) {
        NameIsDeclared(consequent, x);
        PartDeclares(consequent, st, x);
      } else {
        NameIsDeclared(alternate.value, x);
        PartDeclares(alternate.value, st, x);
      }
    case While(_, loop) => NameIsDeclared(loop, x); PartDeclares(loop, st, x);
    case DoWhile(loop, _) => NameIsDeclared(loop, x); PartDeclares(loop, st, x);
    case For(_, _, _, loop) => NameIsDeclared(loop, x); PartDeclares(loop, st, x);
    case Var(_) =>
      assert ChainTo([st], st, st);
      assert StandsIn(st, st) && Declares(st, x);
  }

  lemma PartDeclares(part: Stmt, st: Stmt, x: Text)
    requires PartOf(part, st) && DeclaredIn(part, x)
    ensures DeclaredIn(st, x)
  {
    var inner :| StandsIn(inner, part) && Declares(inner, x);
    var chain :| ChainTo(chain, inner, part);
    assert ChainTo([st] + chain, inner, st);
    assert StandsIn(inner, st);
  }

  /** A function body with the order in which its hoisted names are declared. */
  datatype Body = Body(names: seq<Text>, stmts: seq<Stmt>, toplevel: bool)

  /** Every declared name is hoisted, once. */
  ghost predicate Hoisted(f: Body) {
    && (forall i, j :: 0 <= i < j < |f.names| ==> f.names[i] != f.names[j])
    && (forall x :: x in f.names <==> exists i :: 0 <= i < |f.stmts| && DeclaredIn(f.stmts[i], x))
  }

  lemma HoistedNames(stmts: seq<Stmt>, x: Text)
    ensures x in AllVarNames(stmts) <==> exists i :: 0 <= i < |stmts| && DeclaredIn(stmts[i], x)
  {
    hide VarNames, DeclaredIn;
    ListNames(stmts, x);
    forall i | 0 <= i < |stmts| ensures x in VarNames(stmts[i]) <==> DeclaredIn(stmts[i], x) {
      VarNamesAre(stmts[i], x);
    }
  }

  lemma NamesAreHoisted(f: Body)
    requires forall i, j :: 0 <= i < j < |f.names| ==> f.names[i] != f.names[j]
    requires forall x :: x in f.names <==> x in AllVarNames(f.stmts)
    ensures Hoisted(f)
  {
    hide VarNames, AllVarNames, DeclaredIn;
    forall x ensures x in f.names <==> exists i :: 0 <= i < |f.stmts| && DeclaredIn(f.stmts[i], x) {
      HoistedNames(f.stmts, x);
    }
  }

  /** Every name that an initialiser stores to has been declared at the start. */
  lemma InitialisedIsDeclared(f: Body, i: nat, inner: Stmt, k: nat)
    requires Hoisted(f) && i < |f.stmts| && StandsIn(inner, f.stmts[i])
    requires inner.Var? && k < |inner.declarators|
    ensures inner.declarators[k].name in f.names
  {
    hide StandsIn;
    assert Declares(inner, inner.declarators[k].name);
  }

  predicate Compiles(f: Body) { forall i :: 0 <= i < |f.stmts| ==> Looped(f.stmts[i], false) }

  function DeclareNames(rt: Runtime<Text>, names: seq<Text>, w: World): World {
    if names == [] then w else rt.exec(DeclVar(names[|names|-1]), [], DeclareNames(rt, names[..|names|-1], w)).1
  }

  /** What is seen of the function when its loops may turn `fuel` times: it is still
      running exactly when the fuel runs out. */
  function Meaning(rt: Runtime<Text>, d: Dialect, f: Body, fuel: nat, w: World): Observation {
    Closing(rt, f, ExecAll(rt, d, f.stmts, fuel, DeclareNames(rt, f.names, w), []))
  }

  /** What is seen of the function when its statements have come to `o`. */
  function Closing(rt: Runtime<Text>, f: Body, o: Outcome): Observation {
    match o.how
    case Gave(v) => Observation(o.world, o.trace, Returned(v))
    case OutOfFuel => Observation(o.world, o.trace, Running)
    case _ =>
      if f.toplevel then Observation(o.world, o.trace, Halted)
      else var r := rt.exec(LoadUndefined(0), [], o.world); Observation(r.1, o.trace, Returned(r.0))
  }

  /** The function ends with `o`. */
  ghost predicate Means(rt: Runtime<Text>, d: Dialect, f: Body, w: World, o: Observation) {
    !o.status.Running? && exists fuel: nat :: Meaning(rt, d, f, fuel, w) == o
  }

  lemma MeaningIsStandard(rt: Runtime<Text>, f: Body, w: World, o: Observation)
    requires Dialects.PortableAll(f.stmts)
    ensures Means(rt, Compiled, f, w, o) <==> Means(rt, Standard, f, w, o)
  {
    forall fuel: nat ensures Meaning(rt, Compiled, f, fuel, w) == Meaning(rt, Standard, f, fuel, w) {
      Dialects.DialectsAgreeAll(rt, f.stmts, fuel, DeclareNames(rt, f.names, w), []);
    }
  }

  ghost predicate SameFunction(f: Body) {
    forall rt: Runtime<Text>, fuel: nat, w: World ::
        Meaning(rt, Compiled, f, fuel, w) == Meaning(rt, Standard, f, fuel, w)
  }

  lemma {:induction false} DeclareOnTape(e: Dialects.Enough, names: seq<Text>, t: seq<bool>, k: nat)
    requires Dialects.Rich(e)
    ensures DeclareNames(Dialects.OnTape(e), names, e.enc(Dialects.Bits(false, |names|) + t, k)) == e.enc(t,
        k + |names|)
    decreases |names|
  {
    hide Dialects.Rich, Dialects.Bits, Dialects.OnTape;
    if names == [] {
      Dialects.NoBits(t);
    } else {
      var n := |names| - 1;
      Dialects.BitsJoin(false, n, 1, t);
      DeclareOnTape(e, names[..n], Dialects.Bits(false, 1) + t, k);
      Dialects.OpOnTape(e, DeclVar(names[n]), [], false, t, k + n);
    }
  }

  /** A function means, as compiled, what the standard says for every runtime exactly when
      its statements are portable. */
  lemma StandardExactly(e: Dialects.Enough, f: Body)
    requires Dialects.Rich(e)
    ensures Dialects.PortableAll(f.stmts) <==> SameFunction(f)
  {
    if Dialects.PortableAll(f.stmts) {
      forall rt: Runtime<Text>, fuel: nat, w: World
          ensures Meaning(rt, Compiled, f, fuel, w) == Meaning(rt, Standard, f, fuel, w) {
        Dialects.DialectsAgreeAll(rt, f.stmts, fuel, DeclareNames(rt, f.names, w), []);
      }
    } else {
      var t, n, rt := Dialects.PartingAll(f.stmts), |f.names|, Dialects.OnTape(e);
      var w, fuel := e.enc(Dialects.Bits(false, n) + t, 0), Dialects.DepthAll(f.stmts);
      DeclareOnTape(e, f.names, t, 0);
      Dialects.PartAll(e, f.stmts, fuel, n, []);
      FunctionsApart(e, f, ExecAll(rt, Compiled, f.stmts, fuel, e.enc(t, n), []),
          ExecAll(rt, Standard, f.stmts, fuel, e.enc(t, n), []));
      assert Meaning(rt, Compiled, f, fuel, w) != Meaning(rt, Standard, f, fuel, w);
    }
  }

  lemma FunctionsApart(e: Dialects.Enough, f: Body, oc: Outcome, os: Outcome)
    requires Dialects.Rich(e) && Dialects.Apart(e, oc, os)
    ensures Closing(Dialects.OnTape(e), f, oc).world != Closing(Dialects.OnTape(e), f, os).world
  {
    hide Dialects.Rich, Dialects.OnTape, Dialects.Apart;
    var a, b := Dialects.ApartAt(e, oc, os);
    Dialects.OpQuietly(e, LoadUndefined(0), [], a);
    Dialects.OpQuietly(e, LoadUndefined(0), [], b);
    WorldsApart(e, a, b);
    WorldsApart(e, a + 1, b + 1);
  }

  lemma WorldsApart(e: Dialects.Enough, a: nat, b: nat)
    requires Dialects.Rich(e) && a != b
    ensures e.enc([], a) != e.enc([], b)
  {
    assert e.dec(e.enc([], a)) != e.dec(e.enc([], b));
  }

  // ----- code -----

  function DeclNodes(names: seq<Text>): (nodes: Block)
    ensures |nodes| == |names| && forall i :: 0 <= i < |names| ==> nodes[i] == Plain(Do(DeclVar(names[i])))
  {
    seq(|names|, i requires 0 <= i < |names| => Plain(Do(DeclVar(names[i]))))
  }

  predicate IsRet(node: Node) { node.Plain? && node.item.Ret? }

  predicate HasReturn(block: Block) { exists i :: 0 <= i < |block| && IsRet(block[i]) }

  /** `xjs_c0_statementlist_function_scope_terminate` */
  function Terminate(b: Build, x: nat, toplevel: bool): (a: Build)
    requires x < |b.blocks|
    ensures |a.blocks| == |b.blocks| && b.vars <= a.vars
  {
    if toplevel then Push(b, x, Plain(Halt))
    else if HasReturn(b.blocks[x]) then b
    else PushAll(b, x, [Plain(Alloca(b.vars)), Plain(Do(LoadUndefined(b.vars))), Plain(Ret(b.vars))]).(vars := b.vars +
        1)
  }

  /** The block of the declarations, the code of the statements and the end of both. */
  function GenFunction(vars: nat, f: Body): (r: (Build, nat))
    requires Compiles(f)
    ensures r.1 < |r.0.blocks|
  {
    var b := Build(if f.names == [] then [] else [DeclNodes(f.names)], vars);
    if f.stmts == [] then
      (Terminate(if f.names == [] then NewBlock(b) else b, 0, f.toplevel), 0)
    else
      var p := GenAll(b, f.stmts, []);
      (Terminate(if f.names == [] then p.b else Link(p.b, 0, p.enter), p.exit, f.toplevel),
       if f.names == [] then p.enter else 0)
  }

  // ----- running -----

  /** A block of declarations runs to its end. */
  lemma {:induction false} DeclsRun(rt: Runtime<Text>, names: seq<Text>, g: Graph, x: nat, w: World, k: nat)
    requires k <= |names| && x < |g| && DeclNodes(names) <= g[x]
    ensures Leads(rt, g, Begin(x, w), k, Place(x, State(k, map[], DeclareNames(rt, names[..k], w), [], Running)))
  {
    if k == 0 {
      NoStep(rt, g, Begin(x, w));
    } else {
      DeclsRun(rt, names, g, x, w, k - 1);
      var c := Place(x, State(k - 1, map[], DeclareNames(rt, names[..k-1], w), [], Running));
      assert g[x][k-1] == DeclNodes(names)[k-1];
      assert names[..k][..k-1] == names[..k-1];
      assert Fetch(rt, c.s.temps, []) == [];
      ThenStep(rt, g, Begin(x, w), k - 1, c);
    }
  }

  // ----- where code ends in a return -----

  /** The statement ends in a return statement. */
  predicate EndsInReturn(st: Stmt) {
    match st
    case Return(_) => true
    case Block(body) => body != [] && EndsInReturn(body[|body|-1])
    case _ => false
  }

  lemma {:induction false} ReturnIsNotNormal(rt: Runtime<Text>, d: Dialect, st: Stmt, fuel: nat, w: World,
      tr: seq<Value>)
    requires EndsInReturn(st)
    ensures !Exec(rt, d, st, fuel, w, tr).how.Normal?
    decreases st
  {
    match st
    case Block(body) =>
      var o := ExecAll(rt, d, body[..|body|-1], fuel, w, tr);
      ReturnIsNotNormal(rt, d, body[|body|-1], fuel, o.world, o.trace);
    case _ =>
  }

  lemma HoldsItself(b: Build)
    ensures Holds(b, b.blocks)
  {
  }

  lemma LastOfPush(b: Build, x: nat, node: Node)
    requires x < |b.blocks| && !IsRet(node) && !HasReturn(b.blocks[x])
    ensures !HasReturn(Push(b, x, node).blocks[x])
  {
  }

  lemma NoReturns(b: Build, x: nat)
    requires x < |b.blocks| && |b.blocks[x]| <= 2
    requires forall i :: 0 <= i < |b.blocks[x]| ==> !IsRet(b.blocks[x][i])
    ensures !HasReturn(b.blocks[x])
  {
  }

  /** The exit of an expression does not return. */
  lemma ExprExit(b: Build, e: Expr)
    ensures !HasReturn(GenExpr(b, e).b.blocks[GenExpr(b, e).exit])
  {
    match e
    case Conditional(test, consequent, alternate) =>
      var t := GenExpr(b, test);
      var y := GenExpr(t.b, consequent);
      JoinConditionalExit(b, t, y, GenExpr(y.b, alternate));
    case Infix(bop, left, right) =>
      var l := GenExpr(b, left);
      JoinInfixExit(b, l, GenExpr(l.b, right), bop);
    case _ =>
  }

  lemma JoinInfixExit(b: Build, l: Code, r: Code, bop: BinaryOp)
    requires CodeAbove(b, l) && CodeAbove(l.b, r)
    ensures !HasReturn(JoinInfix(b, l, r, bop).b.blocks[JoinInfix(b, l, r, bop).exit])
  {
  }

  lemma JoinConditionalExit(b: Build, t: Code, y: Code, n: Code)
    requires CodeAbove(b, t) && CodeAbove(t.b, y) && CodeAbove(y.b, n)
    ensures !HasReturn(JoinConditional(b, t, y, n).b.blocks[JoinConditional(b, t, y, n).exit])
  {
  }

  lemma DeclaratorsExit(b: Build, ds: seq<Declarator>)
    requires GenDeclarators(b, ds).Some?
    ensures var p := GenDeclarators(b, ds).value; !HasReturn(p.b.blocks[p.exit])
    decreases |ds|
  {
    var before := GenDeclarators(b, ds[..|ds|-1]);
    var dcl := ds[|ds|-1];
    if dcl.init.None? {
      DeclaratorsExit(b, ds[..|ds|-1]);
    } else {
      var b1 := if before.Some? then before.value.b else b;
      var c := GenExpr(b1, dcl.init.value);
      ExprExit(b1, dcl.init.value);
      var c' := if before.Some? then Link(c.b, before.value.exit, c.enter) else c.b;
      LastOfPush(c', c.exit, Plain(Do(Store(dcl.name, c.v))));
    }
  }

  /** If the last block of a statement returns, the statement ends in a return. */
  lemma {:induction false} OnlyReturns(b: Build, st: Stmt, bps: seq<Points>)
    requires Looped(st, bps != []) && HasReturn(GenStmt(b, st, bps).b.blocks[GenStmt(b, st, bps).exit])
    ensures EndsInReturn(st)
    decreases st
  {
    hide HasReturn, GenExpr;
    var p := GenStmt(b, st, bps);
    HoldsItself(p.b);
    match st
    case Empty => NoReturns(p.b, p.exit);
    case Block(body) => OnlyReturnsAll(b, body, bps);
    case Eval(e) => ExprExit(b, e);
    case Inspect(e) =>
      UseLinks(b, e, InspectIt, p.b.blocks);
      NoReturns(p.b, p.exit);
    case Return(_) =>
    case Break => NoReturns(p.b, p.exit);
    case Continue => NoReturns(p.b, p.exit);
    case If(_, _, _) => IfExit(b, st, bps);
    case While(test, loop) => WhileExit(b, test, loop, bps);
    case DoWhile(loop, test) => DoExit(b, loop, test, bps);
    case For(init, check, update, loop) => ForExit(b, init, check, update, loop, bps);
    case Var(ds) =>
      if GenDeclarators(b, ds).Some? { DeclaratorsExit(b, ds); } else { NoReturns(p.b, p.exit); }
  }

  lemma IfExit(b: Build, st: Stmt, bps: seq<Points>)
    requires st.If? && Looped(st, bps != [])
    ensures var p := GenIf(b, st, bps); !HasReturn(p.b.blocks[p.exit])
  {
    hide *;
    var p := GenIf(b, st, bps);
    HoldsItself(p.b);
    var t, y, last, onFalse := IfParts(b, st, bps);
    IfFacts(b, st, bps, t, y, last, onFalse);
    IfLinks(b, st, bps, t, y, last, onFalse, p.b.blocks);
    IfMerge(b, last, Branch(t.v, y.enter, onFalse));
    NoReturns(p.b, p.exit);
  }

  lemma WhileExit(b: Build, test: Expr, loop: Stmt, bps: seq<Points>)
    requires Looped(loop, true)
    ensures var p := GenWhile(b, test, loop, bps); !HasReturn(p.b.blocks[p.exit])
  {
    hide *;
    var p := GenWhile(b, test, loop, bps);
    HoldsItself(p.b);
    var t, y := WhileParts(b, test, loop, bps);
    TurnFacts(b, test, loop, bps, t, y);
    WhileEnters(b, t, y);
    WhileLinks(b, test, loop, bps, t, y, p.b.blocks);
    NoReturns(p.b, p.exit);
  }

  lemma DoExit(b: Build, loop: Stmt, test: Expr, bps: seq<Points>)
    requires Looped(loop, true)
    ensures var p := GenDo(b, loop, test, bps); !HasReturn(p.b.blocks[p.exit])
  {
    hide *;
    var p := GenDo(b, loop, test, bps);
    HoldsItself(p.b);
    var y, t := DoParts(b, loop, test, bps);
    DoFacts(b, loop, test, bps, y, t);
    DoEnters(b, y, t);
    DoLinks(b, loop, test, bps, y, t, p.b.blocks);
    NoReturns(p.b, p.exit);
  }

  lemma ForExit(b: Build, init: Option<Expr>, check: Option<Expr>, update: Option<Expr>, loop: Stmt, bps: seq<Points>)
    requires Looped(loop, true)
    ensures var p := GenFor(b, init, check, update, loop, bps); !HasReturn(p.b.blocks[p.exit])
  {
    hide *;
    var p := GenFor(b, init, check, update, loop, bps);
    var i, y, c := ForParts(b, init, check, update, loop, bps);
    ForEmpty(b, init, check, update, loop, bps, i, y, c);
    NoReturns(p.b, p.exit);
  }

  lemma {:induction false} OnlyReturnsAll(b: Build, body: seq<Stmt>, bps: seq<Points>)
    requires forall i :: 0 <= i < |body| ==> Looped(body[i], bps != [])
    requires HasReturn(GenAll(b, body, bps).b.blocks[GenAll(b, body, bps).exit])
    ensures body != [] && EndsInReturn(body[|body|-1])
    decreases body
  {
    hide HasReturn, GenStmt;
    var p := GenAll(b, body, bps);
    if body == [] {
      NoReturns(p.b, p.exit);
    } else {
      HoldsItself(p.b);
      AllLinks(b, body, bps, p.b.blocks);
      OnlyReturns(GenAll(b, body[..|body|-1], bps).b, body[|body|-1], bps);
    }
  }

  // ----- a function runs -----

  lemma HoldsTerminate(b: Build, x: nat, toplevel: bool, g: Graph)
    requires x < |b.blocks| && Holds(Terminate(b, x, toplevel), g)
    ensures Holds(b, g)
    ensures toplevel ==> Follows(b, g, x, Plain(Halt))
    ensures !toplevel && !HasReturn(b.blocks[x]) ==>
      && |b.blocks[x]| + 2 < |g[x]| && g[x][|b.blocks[x]|] == Plain(Alloca(b.vars))
      && g[x][|b.blocks[x]| + 1] == Plain(Do(LoadUndefined(b.vars))) && g[x][|b.blocks[x]| + 2] == Plain(Ret(b.vars))
  {
    var a := Terminate(b, x, toplevel);
    assert a.blocks[x] <= g[x];
    forall y | 0 <= y < |b.blocks| ensures b.blocks[y] <= g[y] { assert a.blocks[y] <= g[y]; }
    if !toplevel && !HasReturn(b.blocks[x]) {
      var m := |b.blocks[x]|;
      assert g[x][m] == a.blocks[x][m] && g[x][m + 1] == a.blocks[x][m + 1] && g[x][m + 2] == a.blocks[x][m + 2];
    }
  }

  /** Control at the end of the code comes to the end of the function. */
  lemma TerminateRuns(rt: Runtime<Text>, b: Build, x: nat, toplevel: bool, g: Graph, start: Place, n: nat, s: State)
      returns (n': nat, c: Place)
    requires x < |b.blocks| && Holds(Terminate(b, x, toplevel), g) && AtEnd(b, x, s)
    requires toplevel || !HasReturn(b.blocks[x])
    requires Leads(rt, g, start, n, Place(x, s))
    ensures Leads(rt, g, start, n', c) && n <= n'
    ensures Observe(c.s) ==
      if toplevel then Observation(s.world, s.trace, Halted)
      else var r := rt.exec(LoadUndefined(0), [], s.world); Observation(r.1, s.trace, Returned(r.0))
  {
    hide Leads, Holds, Terminate, HasReturn;
    HoldsTerminate(b, x, toplevel, g);
    if toplevel {
      ThenStep(rt, g, start, n, Place(x, s));
      n', c := n + 1, Cfg.Step(rt, g, Place(x, s));
    } else {
      var op: Op<Text> := LoadUndefined(b.vars);
      ThenTwo(rt, g, start, n, x, b.vars, Do(op), s);
      var s1 := Straight(rt, Do(op), s.(pc := s.pc + 1));
      assert Fetch(rt, s.temps, []) == [];
      ThenStep(rt, g, start, n + 2, Place(x, s1));
      n', c := n + 3, Cfg.Step(rt, g, Place(x, s1));
    }
  }

  /** What has been built when the function is terminated. */
  ghost predicate Stages(vars: nat, f: Body, p: Part, linked: Build)
    requires Compiles(f) && f.stmts != []
  {
    && p == GenAll(Build(if f.names == [] then [] else [DeclNodes(f.names)], vars), f.stmts, [])
    && (if f.names == [] then linked == p.b else 0 < |p.b.blocks| && linked == Link(p.b, 0, p.enter))
    && p.exit < |linked.blocks| == |p.b.blocks| && linked.blocks[p.exit] == p.b.blocks[p.exit]
    && GenFunction(vars, f) == (Terminate(linked, p.exit, f.toplevel), if f.names == [] then p.enter else 0)
  }

  lemma FunctionStages(vars: nat, f: Body) returns (p: Part, linked: Build)
    requires Compiles(f) && f.stmts != []
    ensures Stages(vars, f, p, linked)
  {
    hide GenAll, Terminate;
    var b := Build(if f.names == [] then [] else [DeclNodes(f.names)], vars);
    p := GenAll(b, f.stmts, []);
    linked := if f.names == [] then p.b else Link(p.b, 0, p.enter);
  }

  /** From the entry, through the declarations, to the code of the statements. */
  lemma EntryRuns(rt: Runtime<Text>, vars: nat, f: Body, p: Part, linked: Build, g: Graph, w: World)
      returns (n: nat, s: State)
    requires Compiles(f) && f.stmts != [] && Stages(vars, f, p, linked) && Holds(linked, g)
    ensures Leads(rt, g, Begin(GenFunction(vars, f).1, w), n, Enter(p.enter, s))
    ensures s.status.Running? && s.world == DeclareNames(rt, f.names, w) && s.trace == []
    ensures Holds(p.b, g)
  {
    hide GenAll, Terminate, GenFunction, Leads, Follows;
    if f.names == [] {
      n, s := 0, Start(w);
      NoStep(rt, g, Begin(p.enter, w));
    } else {
      var b := Build([DeclNodes(f.names)], vars);
      HoldsPush(p.b, 0, Jump(p.enter), g);
      BelowBlock(b, p.b, 0);
      assert DeclNodes(f.names) <= g[0] by { assert p.b.blocks[0] <= g[0]; }
      DeclsRun(rt, f.names, g, 0, w, |f.names|);
      assert f.names[..|f.names|] == f.names;
      s := State(|f.names|, map[], DeclareNames(rt, f.names, w), [], Running);
      ThenJump(rt, p.b, g, Begin(0, w), |f.names|, 0, p.enter, s);
      n := |f.names| + 1;
    }
  }

  /** The graph of a function without statements: declarations and an end. */
  lemma EmptyGraph(vars: nat, f: Body)
    requires Compiles(f) && f.stmts == []
    ensures var r, b := GenFunction(vars, f), Build([DeclNodes(f.names)], vars);
      && r.1 == 0 && |r.0.blocks| > 0 && Holds(Terminate(b, 0, f.toplevel), r.0.blocks)
      && DeclNodes(f.names) <= r.0.blocks[0] && |DeclNodes(f.names)| == |f.names| && !HasReturn(b.blocks[0])
  {
    hide Terminate;
    var r := GenFunction(vars, f);
    var b := Build([DeclNodes(f.names)], vars);
    HoldsItself(r.0);
    assert f.names == [] ==> NewBlock(Build([], vars)).blocks == b.blocks;
    HoldsTerminate(b, 0, f.toplevel, r.0.blocks);
    assert DeclNodes(f.names) <= r.0.blocks[0] by { assert b.blocks[0] <= r.0.blocks[0]; }
    assert forall i :: 0 <= i < |f.names| ==> !IsRet(DeclNodes(f.names)[i]);
  }

  lemma EmptyFunctionRuns(rt: Runtime<Text>, vars: nat, f: Body, fuel: nat, w: World) returns (n: nat)
    requires Compiles(f) && f.stmts == []
    ensures var r := GenFunction(vars, f);
      Observe(Cfg.After(rt, r.0.blocks, r.1, w, n).s) == Meaning(rt, Compiled, f, fuel, w)
    ensures !Meaning(rt, Compiled, f, fuel, w).status.Running?
  {
    hide Terminate, GenFunction, DeclNodes, Holds, HasReturn, DeclareNames;
    EmptyGraph(vars, f);
    var g := GenFunction(vars, f).0.blocks;
    var b := Build([DeclNodes(f.names)], vars);
    DeclsRun(rt, f.names, g, 0, w, |f.names|);
    assert f.names[..|f.names|] == f.names;
    var s := State(|f.names|, map[], DeclareNames(rt, f.names, w), [], Running);
    var c;
    n, c := TerminateRuns(rt, b, 0, f.toplevel, g, Begin(0, w), |f.names|, s);
  }

  /** With any amount of fuel, the graph gets to where the source gets; if the source
      is still running, the graph has taken as many steps and is running too. */
  lemma FunctionRuns(rt: Runtime<Text>, vars: nat, f: Body, fuel: nat, w: World) returns (n: nat)
    requires Compiles(f)
    ensures var r := GenFunction(vars, f);
      Observe(Cfg.After(rt, r.0.blocks, r.1, w, n).s) == Meaning(rt, Compiled, f, fuel, w)
    ensures Meaning(rt, Compiled, f, fuel, w).status.Running? ==> fuel <= n
  {
    hide GenAll, Terminate, GenFunction, Leads, Holds, Stages, HasReturn, GenStmt, GenExpr, ExecAll, DeclareNames,
        Cfg.Run;
    if f.stmts == [] {
      n := EmptyFunctionRuns(rt, vars, f, fuel, w);
      return;
    }
    var r := GenFunction(vars, f);
    var g, start := r.0.blocks, Begin(r.1, w);
    var p, linked := FunctionStages(vars, f);
    StagesFacts(vars, f, p, linked);
    HoldsItself(r.0);
    HoldsTerminate(linked, p.exit, f.toplevel, g);
    var b := Build(if f.names == [] then [] else [DeclNodes(f.names)], vars);
    var n1, s1 := EntryRuns(rt, vars, f, p, linked, g, w);
    var n2, c2 := AllRun(rt, b, f.stmts, [], g, fuel, start, n1, s1);
    var o := ExecAll(rt, Compiled, f.stmts, fuel, s1.world, []);
    n := n2;
    var c := c2;
    if o.how.Normal? {
      if !f.toplevel && HasReturn(linked.blocks[p.exit]) {
        OnlyReturnsAll(b, f.stmts, []);
        NotNormal(rt, f.stmts, fuel, s1.world);
        assert false;
      }
      n, c := TerminateRuns(rt, linked, p.exit, f.toplevel, g, start, n2, c2.s);
    }
    LedTo(rt, g, start, n, c);
  }

  lemma LedTo(rt: Runtime<Text>, g: Graph, c: Place, n: nat, c': Place)
    requires Leads(rt, g, c, n, c')
    ensures Cfg.Run(rt, g, n, c) == c'
  {
  }

  lemma NotNormal(rt: Runtime<Text>, stmts: seq<Stmt>, fuel: nat, w: World)
    requires stmts != [] && EndsInReturn(stmts[|stmts|-1])
    ensures !ExecAll(rt, Compiled, stmts, fuel, w, []).how.Normal?
  {
    var o := ExecAll(rt, Compiled, stmts[..|stmts|-1], fuel, w, []);
    ReturnIsNotNormal(rt, Compiled, stmts[|stmts|-1], fuel, o.world, o.trace);
  }

  lemma StagesFacts(vars: nat, f: Body, p: Part, linked: Build)
    requires Compiles(f) && f.stmts != [] && Stages(vars, f, p, linked)
    ensures p == GenAll(Build(if f.names == [] then [] else [DeclNodes(f.names)], vars), f.stmts, [])
    ensures p.exit < |linked.blocks| && p.exit < |p.b.blocks| && linked.blocks[p.exit] == p.b.blocks[p.exit]
    ensures GenFunction(vars, f).0 == Terminate(linked, p.exit, f.toplevel)
  {
  }

  // ----- C0 preserves meaning -----

  lemma {:induction false} FinalStays(rt: Runtime<Text>, g: Graph, c: Place, n: nat)
    requires !c.s.status.Running?
    ensures Cfg.Run(rt, g, n, c) == c
  {
    if n > 0 { FinalStays(rt, g, c, n - 1); }
  }

  lemma EndsOnce(rt: Runtime<Text>, g: Graph, entry: nat, w: World, n: nat, m: nat)
    requires !Cfg.After(rt, g, entry, w, n).s.status.Running? && n <= m
    ensures Cfg.After(rt, g, entry, w, m) == Cfg.After(rt, g, entry, w, n)
  {
    Cfg.RunSplit(rt, g, n, m - n, Begin(entry, w));
    FinalStays(rt, g, Cfg.After(rt, g, entry, w, n), m - n);
  }

  /** C0 preserves meaning: the function ends as the source says and in no other way. */
  lemma C0PreservesMeaning(rt: Runtime<Text>, vars: nat, f: Body, w: World, o: Observation)
    requires Compiles(f) && !o.status.Running?
    ensures var r := GenFunction(vars, f);
      Means(rt, Compiled, f, w, o) <==> Cfg.Shows(rt, r.0.blocks, r.1, w, o)
  {
    hide GenFunction, Meaning;
    var r := GenFunction(vars, f);
    if fuel: nat :| Meaning(rt, Compiled, f, fuel, w) == o {
      var n := FunctionRuns(rt, vars, f, fuel, w);
    }
    if n: nat :| Observe(Cfg.After(rt, r.0.blocks, r.1, w, n).s) == o {
      var m := FunctionRuns(rt, vars, f, n, w);
      if m < n {
        EndsOnce(rt, r.0.blocks, r.1, w, m, n);
      } else {
        EndsOnce(rt, r.0.blocks, r.1, w, n, m);
      }
      assert Meaning(rt, Compiled, f, n, w) == o;
    }
  }
}
