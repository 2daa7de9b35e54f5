/** Where compiled code means what the standard says: exactly where no `continue` that
    can be reached belongs to a `do` loop, or to a `for` loop with an update.
  */
module Dialects {
  import opened Ir
  import opened Cfg
  import opened Ast

  // ----- how a statement can end -----

  datatype Exit = ToNext | ToBreak | ToContinue | ToReturn

  function ExitOf(how: Completion): Option<Exit> {
    match how
    case Normal => Some(ToNext)
    case Broke => Some(ToBreak)
    case Continued => Some(ToContinue)
    case Gave(_) => Some(ToReturn)
    case OutOfFuel => None
  }

  /** Some way through the statement ends so; every test can hold or fail. */
  predicate CanEnd(st: Stmt, x: Exit)
    decreases st, 0
  {
    match st
    case Block(body) => CanEndAll(body, x)
    case Return(_) => x.ToReturn?
    case Break => x.ToBreak?
    case Continue => x.ToContinue?
    case If(_, consequent, alternate) =>
      CanEnd(consequent, x) || (if alternate.Some? then CanEnd(alternate.value, x) else x.ToNext?)
    case While(_, loop) => x.ToNext? || (x.ToReturn? && CanEnd(loop, ToReturn))
    case DoWhile(loop, _) =>
      || (x.ToNext? && (CanEnd(loop, ToNext) || CanEnd(loop, ToBreak) || CanEnd(loop, ToContinue)))
      || (x.ToReturn? && CanEnd(loop, ToReturn))
    case For(_, check, _, loop) =>
      (x.ToNext? && (check.Some? || CanEnd(loop, ToBreak))) || (x.ToReturn? && CanEnd(loop, ToReturn))
    case _ => x.ToNext?
  }

  predicate CanEndAll(body: seq<Stmt>, x: Exit)
    decreases body, 0
  {
    if body == [] then x.ToNext?
    else
      var init, last := body[..|body|-1], body[|body|-1];
      (!x.ToNext? && CanEndAll(init, x)) || (CanEndAll(init, ToNext) && CanEnd(last, x))
  }

  /** No `continue` that can be reached belongs to a `do` loop or to a `for` loop with
      an update. */
  predicate Portable(st: Stmt)
    decreases st, 0
  {
    match st
    case Block(body) => PortableAll(body)
    case If(_, consequent, alternate) => Portable(consequent) && (alternate.Some? ==> Portable(alternate.value))
    case While(_, loop) => Portable(loop)
    case DoWhile(loop, _) => Portable(loop) && !CanEnd(loop, ToContinue)
    case For(_, _, update, loop) => Portable(loop) && !(update.Some? && CanEnd(loop, ToContinue))
    case _ => true
  }

  predicate PortableAll(body: seq<Stmt>)
    decreases body, 0
  {
    body == [] || (PortableAll(body[..|body|-1]) && (CanEndAll(body[..|body|-1], ToNext) ==> Portable(body[|body|-1])))
  }

  // ----- statements end only as they can -----

  ghost predicate EndsAs(o: Outcome, st: Stmt) { ExitOf(o.how).None? || CanEnd(st, ExitOf(o.how).value) }

  lemma {:induction false} EndsAsItCan(rt: Runtime<Text>, d: Dialect, st: Stmt, fuel: nat, w: World, tr: seq<Value>)
    ensures EndsAs(Exec(rt, d, st, fuel, w, tr), st)
    decreases fuel, st, 0
  {
    match st
    case Block(body) => EndAllAsTheyCan(rt, d, body, fuel, w, tr);
    case If(test, consequent, alternate) =>
      var t := Evaluate(rt, test, w);
      EndsAsItCan(rt, d, consequent, fuel, t.1, tr);
      if alternate.Some? { EndsAsItCan(rt, d, alternate.value, fuel, t.1, tr); }
    case While(test, loop) =>
      if fuel > 0 {
        var t := Evaluate(rt, test, w);
        EndsAsItCan(rt, d, loop, fuel - 1, t.1, tr);
        var o := Exec(rt, d, loop, fuel - 1, t.1, tr);
        EndsAsItCan(rt, d, st, fuel - 1, o.world, o.trace);
      }
    case DoWhile(loop, test) =>
      if fuel > 0 {
        EndsAsItCan(rt, d, loop, fuel - 1, w, tr);
        var o := Exec(rt, d, loop, fuel - 1, w, tr);
        EndsAsItCan(rt, d, st, fuel - 1, Evaluate(rt, test, o.world).1, o.trace);
      }
    case For(init, check, update, loop) =>
      ForEndsAsItCan(rt, d, check, update, loop, fuel, if init.Some? then Evaluate(rt, init.value, w).1 else w, tr);
    case _ =>
  }

  lemma {:induction false} ForEndsAsItCan(rt: Runtime<Text>, d: Dialect, check: Option<Expr>, update: Option<Expr>,
      loop: Stmt, fuel: nat, w: World, tr: seq<Value>)
    ensures EndsAs(ExecFor(rt, d, check, update, loop, fuel, w, tr), For(None, check, update, loop))
    decreases fuel, loop, 1
  {
    if fuel > 0 {
      var t := Checked(rt, check, w);
      EndsAsItCan(rt, d, loop, fuel - 1, t.1, tr);
      var o := Exec(rt, d, loop, fuel - 1, t.1, tr);
      var w' := if update.Some? && !(o.how.Continued? && d.Compiled?) then Evaluate(rt, update.value, o.world).1
          else o.world;
      ForEndsAsItCan(rt, d, check, update, loop, fuel - 1, w', o.trace);
    }
  }

  lemma {:induction false} EndAllAsTheyCan(rt: Runtime<Text>, d: Dialect, body: seq<Stmt>, fuel: nat, w: World,
      tr: seq<Value>)
    ensures var how := ExecAll(rt, d, body, fuel, w, tr).how; ExitOf(how).None? || CanEndAll(body, ExitOf(how).value)
    decreases fuel, body, 0
  {
    if body != [] {
      var last := |body| - 1;
      EndAllAsTheyCan(rt, d, body[..last], fuel, w, tr);
      var o := ExecAll(rt, d, body[..last], fuel, w, tr);
      EndsAsItCan(rt, d, body[last], fuel, o.world, o.trace);
    }
  }

  // ----- where the dialects agree -----

  /** Portable statements mean, as compiled, what the standard says. */
  lemma {:induction false} DialectsAgree(rt: Runtime<Text>, st: Stmt, fuel: nat, w: World, tr: seq<Value>)
    requires Portable(st)
    ensures Exec(rt, Compiled, st, fuel, w, tr) == Exec(rt, Standard, st, fuel, w, tr)
    decreases fuel, st, 0
  {
    match st
    case Block(body) => DialectsAgreeAll(rt, body, fuel, w, tr);
    case If(test, consequent, alternate) =>
      var t := Evaluate(rt, test, w);
      DialectsAgree(rt, consequent, fuel, t.1, tr);
      if alternate.Some? { DialectsAgree(rt, alternate.value, fuel, t.1, tr); }
    case While(test, loop) =>
      if fuel > 0 {
        var t := Evaluate(rt, test, w);
        DialectsAgree(rt, loop, fuel - 1, t.1, tr);
        var o := Exec(rt, Standard, loop, fuel - 1, t.1, tr);
        DialectsAgree(rt, st, fuel - 1, o.world, o.trace);
      }
    case DoWhile(loop, test) =>
      if fuel > 0 {
        DialectsAgree(rt, loop, fuel - 1, w, tr);
        EndsAsItCan(rt, Standard, loop, fuel - 1, w, tr);
        var o := Exec(rt, Standard, loop, fuel - 1, w, tr);
        DialectsAgree(rt, st, fuel - 1, Evaluate(rt, test, o.world).1, o.trace);
      }
    case For(init, check, update, loop) =>
      ForDialectsAgree(rt, check, update, loop, fuel, if init.Some? then Evaluate(rt, init.value, w).1 else w, tr);
    case _ =>
  }

  lemma {:induction false} ForDialectsAgree(rt: Runtime<Text>, check: Option<Expr>, update: Option<Expr>, loop: Stmt,
      fuel: nat, w: World, tr: seq<Value>)
    requires Portable(loop) && !(update.Some? && CanEnd(loop, ToContinue))
    ensures ExecFor(rt, Compiled, check, update, loop, fuel, w, tr) == ExecFor(rt, Standard, check, update, loop, fuel,
        w, tr)
    decreases fuel, loop, 1
  {
    if fuel > 0 {
      var t := Checked(rt, check, w);
      DialectsAgree(rt, loop, fuel - 1, t.1, tr);
      EndsAsItCan(rt, Standard, loop, fuel - 1, t.1, tr);
      var o := Exec(rt, Standard, loop, fuel - 1, t.1, tr);
      var w' := if update.Some? then Evaluate(rt, update.value, o.world).1 else o.world;
      ForDialectsAgree(rt, check, update, loop, fuel - 1, w', o.trace);
    }
  }

  lemma {:induction false} DialectsAgreeAll(rt: Runtime<Text>, body: seq<Stmt>, fuel: nat, w: World, tr: seq<Value>)
    requires PortableAll(body)
    ensures ExecAll(rt, Compiled, body, fuel, w, tr) == ExecAll(rt, Standard, body, fuel, w, tr)
    decreases fuel, body, 0
  {
    if body != [] {
      var last := |body| - 1;
      DialectsAgreeAll(rt, body[..last], fuel, w, tr);
      EndAllAsTheyCan(rt, Standard, body[..last], fuel, w, tr);
      var o := ExecAll(rt, Standard, body[..last], fuel, w, tr);
      if o.how.Normal? { DialectsAgree(rt, body[last], fuel, o.world, o.trace); }
    }
  }

  // ----- a runtime that takes every test from a tape -----

  /** Two values that differ, and worlds that hold a tape and a count. */
  datatype Enough = Enough(yes: Value, no: Value, enc: (seq<bool>, nat) -> World, dec: World -> (seq<bool>, nat))

  ghost predicate Rich(e: Enough) { e.yes != e.no && forall t: seq<bool>, k: nat :: e.dec(e.enc(t, k)) == (t, k) }

  function Bit(e: Enough, b: bool): Value { if b then e.yes else e.no }

  function TapeExec(e: Enough, w: World): (Value, World) {
    var (t, k) := e.dec(w);
    if t == [] then (e.no, e.enc([], k + 1)) else (Bit(e, t[0]), e.enc(t[1..], k + 1))
  }

  /** Every operation yields what is next on the tape, or no when there is no more, and
      is counted. */
  function OnTape(e: Enough): Runtime<Text> {
    Runtime(e.no, (op: Op<Text>, args: seq<Value>, w: World) => TapeExec(e, w), (v: Value) => v == e.yes)
  }

  function Bits(b: bool, n: nat): (t: seq<bool>)
    ensures |t| == n
  {
    seq(n, _ => b)
  }

  /** The operations of an expression when every test in it comes out as `b`. */
  function Len(x: Expr, b: bool): (n: nat)
    ensures n > 0
  {
    match x
    case Prefix(_, arg) => Len(arg, b) + 1
    case Infix(_, left, right) => Len(left, b) + Len(right, b) + 1
    case Assign(_, right) => Len(right, b) + 1
    case Update(_, _, _) => 4
    case Conditional(test, consequent, alternate) => Len(test, b) + if b then Len(consequent, b) else Len(alternate, b)
    case _ => 1
  }

  lemma TapeStep(e: Enough, b: bool, n: nat, t: seq<bool>, k: nat)
    requires Rich(e)
    ensures TapeExec(e, e.enc(Bits(b, n + 1) + t, k)) == (Bit(e, b), e.enc(Bits(b, n) + t, k + 1))
    ensures TapeExec(e, e.enc([], k)) == (e.no, e.enc([], k + 1))
  {
    var whole := Bits(b, n + 1) + t;
    assert whole[0] == b && whole[1..] == Bits(b, n) + t;
  }

  lemma BitsJoin(b: bool, n: nat, m: nat, t: seq<bool>)
    ensures Bits(b, n + m) + t == Bits(b, n) + (Bits(b, m) + t)
  {
  }

  /** The last bit, taken by any operation. */
  lemma OpOnTape(e: Enough, op: Op<Text>, args: seq<Value>, b: bool, t: seq<bool>, k: nat)
    requires Rich(e)
    ensures OnTape(e).exec(op, args, e.enc(Bits(b, 1) + t, k)) == (Bit(e, b), e.enc(t, k + 1))
  {
    TapeStep(e, b, 0, t, k);
    assert Bits(b, 0) + t == t;
  }

  lemma OpQuietly(e: Enough, op: Op<Text>, args: seq<Value>, k: nat)
    requires Rich(e)
    ensures OnTape(e).exec(op, args, e.enc([], k)) == (e.no, e.enc([], k + 1))
  {
  }

  lemma BitIs(e: Enough, b: bool)
    requires Rich(e)
    ensures OnTape(e).truthy(Bit(e, b)) == b && Bit(e, false) == e.no
  {
  }

  /** An expression on a tape of one bit. */
  lemma {:induction false} EvalOnTape(e: Enough, x: Expr, b: bool, t: seq<bool>, k: nat)
    requires Rich(e)
    ensures Evaluate(OnTape(e), x, e.enc(Bits(b, Len(x, b)) + t, k)) == (Bit(e, b), e.enc(t, k + Len(x, b)))
    decreases x, 1
  {
    hide Rich, Bits, OnTape, Bit;
    match x
    case Lit(lit) => OpOnTape(e, LoadLiteral(lit, 0), [], b, t, k);
    case Identifier(name) => OpOnTape(e, Load(0, name), [], b, t, k);
    case This => OpOnTape(e, Op.This(0), [], b, t, k);
    case Prefix(uop, arg) =>
      BitsJoin(b, Len(arg, b), 1, t);
      EvalOnTape(e, arg, b, Bits(b, 1) + t, k);
      OpOnTape(e, Unary(uop, 0, 0), [Bit(e, b)], b, t, k + Len(arg, b));
    case Infix(_, _, _) => InfixOnTape(e, x, b, t, k);
    case Assign(target, right) =>
      BitsJoin(b, Len(right, b), 1, t);
      EvalOnTape(e, right, b, Bits(b, 1) + t, k);
      OpOnTape(e, Store(target, 0), [Bit(e, b)], b, t, k + Len(right, b));
    case Update(_, _, _) => UpdateOnTape(e, x, b, t, k);
    case Conditional(_, _, _) => ConditionalOnTape(e, x, b, t, k);
  }

  lemma {:induction false} InfixOnTape(e: Enough, x: Expr, b: bool, t: seq<bool>, k: nat)
    requires Rich(e) && x.Infix?
    ensures Evaluate(OnTape(e), x, e.enc(Bits(b, Len(x, b)) + t, k)) == (Bit(e, b), e.enc(t, k + Len(x, b)))
    decreases x, 0
  {
    hide Rich, Bits, OnTape, Bit;
    var n, m := Len(x.left, b), Len(x.right, b);
    BitsJoin(b, n, m + 1, t);
    BitsJoin(b, m, 1, t);
    EvalOnTape(e, x.left, b, Bits(b, m + 1) + t, k);
    EvalOnTape(e, x.right, b, Bits(b, 1) + t, k + n);
    OpOnTape(e, Binary(x.bop, 0, 0, 0), [Bit(e, b), Bit(e, b)], b, t, k + n + m);
  }

  lemma UpdateOnTape(e: Enough, x: Expr, b: bool, t: seq<bool>, k: nat)
    requires Rich(e) && x.Update?
    ensures Evaluate(OnTape(e), x, e.enc(Bits(b, Len(x, b)) + t, k)) == (Bit(e, b), e.enc(t, k + Len(x, b)))
  {
    hide Rich, Bits, OnTape, Bit;
    var v := Bit(e, b);
    BitsJoin(b, 1, 3, t);
    BitsJoin(b, 1, 2, t);
    BitsJoin(b, 1, 1, t);
    OpOnTape(e, Load(0, x.target), [], b, Bits(b, 3) + t, k);
    OpOnTape(e, LoadNumber(0, ONE), [], b, Bits(b, 2) + t, k + 1);
    OpOnTape(e, Binary(UpdateOp(x.increment), 0, 0, 0), [v, v], b, Bits(b, 1) + t, k + 2);
    OpOnTape(e, Store(x.target, 0), [v], b, t, k + 3);
  }

  lemma {:induction false} ConditionalOnTape(e: Enough, x: Expr, b: bool, t: seq<bool>, k: nat)
    requires Rich(e) && x.Conditional?
    ensures Evaluate(OnTape(e), x, e.enc(Bits(b, Len(x, b)) + t, k)) == (Bit(e, b), e.enc(t, k + Len(x, b)))
    decreases x, 0
  {
    hide Rich, Bits, OnTape, Bit;
    var arm := if b then x.consequent else x.alternate;
    BitsJoin(b, Len(x.test, b), Len(arm, b), t);
    EvalOnTape(e, x.test, b, Bits(b, Len(arm, b)) + t, k);
    BitIs(e, b);
    EvalOnTape(e, arm, b, t, k + Len(x.test, b));
  }

  /** An expression on an empty tape. */
  lemma {:induction false} EvalQuietly(e: Enough, x: Expr, k: nat)
    requires Rich(e)
    ensures Evaluate(OnTape(e), x, e.enc([], k)) == (e.no, e.enc([], k + Len(x, false)))
    decreases x, 1
  {
    hide Rich, OnTape;
    match x
    case Lit(lit) => OpQuietly(e, LoadLiteral(lit, 0), [], k);
    case Identifier(name) => OpQuietly(e, Load(0, name), [], k);
    case This => OpQuietly(e, Op.This(0), [], k);
    case Prefix(uop, arg) =>
      EvalQuietly(e, arg, k);
      OpQuietly(e, Unary(uop, 0, 0), [e.no], k + Len(arg, false));
    case Infix(bop, left, right) =>
      EvalQuietly(e, left, k);
      EvalQuietly(e, right, k + Len(left, false));
      OpQuietly(e, Binary(bop, 0, 0, 0), [e.no, e.no], k + Len(left, false) + Len(right, false));
    case Assign(target, right) =>
      EvalQuietly(e, right, k);
      OpQuietly(e, Store(target, 0), [e.no], k + Len(right, false));
    case Update(_, _, _) => UpdateQuietly(e, x, k);
    case Conditional(_, _, _) => ConditionalQuietly(e, x, k);
  }

  lemma {:induction false} ConditionalQuietly(e: Enough, x: Expr, k: nat)
    requires Rich(e) && x.Conditional?
    ensures Evaluate(OnTape(e), x, e.enc([], k)) == (e.no, e.enc([], k + Len(x, false)))
    decreases x, 0
  {
    hide Rich, OnTape;
    EvalQuietly(e, x.test, k);
    BitIs(e, false);
    EvalQuietly(e, x.alternate, k + Len(x.test, false));
  }

  lemma UpdateQuietly(e: Enough, x: Expr, k: nat)
    requires Rich(e) && x.Update?
    ensures Evaluate(OnTape(e), x, e.enc([], k)) == (e.no, e.enc([], k + Len(x, false)))
  {
    hide Rich, OnTape;
    OpQuietly(e, Load(0, x.target), [], k);
    OpQuietly(e, LoadNumber(0, ONE), [], k + 1);
    OpQuietly(e, Binary(UpdateOp(x.increment), 0, 0, 0), [e.no, e.no], k + 2);
    OpQuietly(e, Store(x.target, 0), [e.no], k + 3);
  }

  function OptionalLen(x: Option<Expr>, b: bool): nat { if x.Some? then Len(x.value, b) else 0 }

  function DeclaredLen(ds: seq<Declarator>): nat {
    if ds == [] then 0
    else DeclaredLen(ds[..|ds|-1]) + if ds[|ds|-1].init.Some? then Len(ds[|ds|-1].init.value, false) + 1 else 0
  }

  lemma {:induction false} DeclaredOnTape(e: Enough, ds: seq<Declarator>, t: seq<bool>, k: nat)
    requires Rich(e)
    ensures Declared(OnTape(e), ds, e.enc(Bits(false, DeclaredLen(ds)) + t, k)) == e.enc(t, k + DeclaredLen(ds))
    decreases |ds|
  {
    hide Rich, Bits;
    if ds == [] {
      NoBits(t);
    } else {
      var dcl := ds[|ds|-1];
      var n := if dcl.init.Some? then Len(dcl.init.value, false) + 1 else 0;
      BitsJoin(false, DeclaredLen(ds[..|ds|-1]), n, t);
      DeclaredOnTape(e, ds[..|ds|-1], Bits(false, n) + t, k);
      if dcl.init.Some? {
        BitsJoin(false, n - 1, 1, t);
        EvalOnTape(e, dcl.init.value, false, Bits(false, 1) + t, k + DeclaredLen(ds[..|ds|-1]));
        OpOnTape(e, Store(dcl.name, 0), [Bit(e, false)], false, t, k + DeclaredLen(ds[..|ds|-1]) + n - 1);
      } else {
        NoBits(t);
      }
    }
  }

  lemma NoBits(t: seq<bool>)
    ensures Bits(false, 0) + t == t && Bits(true, 0) + t == t
  {
  }

  lemma {:induction false} DeclaredQuietly(e: Enough, ds: seq<Declarator>, k: nat)
    requires Rich(e)
    ensures Declared(OnTape(e), ds, e.enc([], k)) == e.enc([], k + DeclaredLen(ds))
    decreases |ds|
  {
    hide Rich, OnTape, Evaluate;
    if ds != [] {
      DeclaredQuietly(e, ds[..|ds|-1], k);
      var dcl, more := ds[|ds|-1], k + DeclaredLen(ds[..|ds|-1]);
      if dcl.init.Some? {
        EvalQuietly(e, dcl.init.value, more);
        OpQuietly(e, Store(dcl.name, 0), [e.no], more + Len(dcl.init.value, false));
      }
    }
  }

  // ----- a way to every exit -----

  /** A tape on which the statement ends so, by the standard; every loop turns at most once. */
  function Way(st: Stmt, x: Exit): seq<bool>
    requires CanEnd(st, x)
    decreases st, 0
  {
    match st
    case Block(body) => WayAll(body, x)
    case Eval(v) => Bits(false, Len(v, false))
    case Inspect(v) => Bits(false, Len(v, false))
    case Return(v) => Bits(false, Len(v, false))
    case Var(ds) => Bits(false, DeclaredLen(ds))
    case If(test, consequent, alternate) =>
      if CanEnd(consequent, x) then Bits(true, Len(test, true)) + Way(consequent, x)
      else Bits(false, Len(test, false)) + if alternate.Some? then Way(alternate.value, x) else []
    case While(test, loop) =>
      if x.ToNext? then Bits(false, Len(test, false)) else Bits(true, Len(test, true)) + Way(loop, ToReturn)
    case DoWhile(loop, test) =>
      if x.ToReturn? then Way(loop, ToReturn)
      else if CanEnd(loop, ToBreak) then Way(loop, ToBreak)
      else Way(loop, if CanEnd(loop, ToNext) then ToNext else ToContinue) + Bits(false, Len(test, false))
    case For(init, check, _, loop) => Bits(false, OptionalLen(init, false)) + WayFor(check, loop, x)
    case _ => []
  }

  function WayFor(check: Option<Expr>, loop: Stmt, x: Exit): seq<bool>
    requires (x.ToNext? && (check.Some? || CanEnd(loop, ToBreak))) || (x.ToReturn? && CanEnd(loop, ToReturn))
    decreases loop, 1
  {
    if x.ToNext? && check.Some? then Bits(false, Len(check.value, false))
    else Bits(true, OptionalLen(check, true)) + Way(loop, if x.ToNext? then ToBreak else ToReturn)
  }

  function WayAll(body: seq<Stmt>, x: Exit): seq<bool>
    requires CanEndAll(body, x)
    decreases body, 0
  {
    if body == [] then []
    else
      var init, last := body[..|body|-1], body[|body|-1];
      if !x.ToNext? && CanEndAll(init, x) then WayAll(init, x) else WayAll(init, ToNext) + Way(last, x)
  }

  /** Fuel for one turn of every loop. */
  function Depth(st: Stmt): nat
    decreases st, 0
  {
    match st
    case Block(body) => DepthAll(body)
    case If(_, consequent, alternate) => Depth(consequent) + if alternate.Some? then Depth(alternate.value) else 0
    case While(_, loop) => Depth(loop) + 1
    case DoWhile(loop, _) => Depth(loop) + 1
    case For(_, _, _, loop) => Depth(loop) + 1
    case _ => 0
  }

  function DepthAll(body: seq<Stmt>): nat
    decreases body, 0
  {
    if body == [] then 0 else DepthAll(body[..|body|-1]) + Depth(body[|body|-1])
  }

  ghost predicate Ended(e: Enough, o: Outcome, x: Exit, t: seq<bool>) {
    ExitOf(o.how) == Some(x) && exists k: nat :: o.world == e.enc(t, k)
  }

  lemma EndedAt(e: Enough, o: Outcome, x: Exit, t: seq<bool>) returns (k: nat)
    requires Ended(e, o, x, t)
    ensures ExitOf(o.how) == Some(x) && o.world == e.enc(t, k)
  {
    k :| o.world == e.enc(t, k);
  }

  lemma {:induction false} WayEnds(e: Enough, st: Stmt, x: Exit, fuel: nat, more: seq<bool>, k: nat, tr: seq<Value>)
    requires Rich(e) && CanEnd(st, x) && Depth(st) <= fuel
    ensures Ended(e, Exec(OnTape(e), Standard, st, fuel, e.enc(Way(st, x) + more, k), tr), x, more)
    decreases st, 1
  {
    hide Rich, Bits, OnTape, Evaluate;
    match st
    case Block(body) => WayAllEnds(e, body, x, fuel, more, k, tr);
    case Eval(v) => EvalOnTape(e, v, false, more, k);
    case Inspect(v) => EvalOnTape(e, v, false, more, k);
    case Return(v) => EvalOnTape(e, v, false, more, k);
    case Var(ds) => DeclaredOnTape(e, ds, more, k);
    case If(_, _, _) => WayIfEnds(e, st, x, fuel, more, k, tr);
    case While(_, _) => WayWhileEnds(e, st, x, fuel, more, k, tr);
    case DoWhile(_, _) => WayDoEnds(e, st, x, fuel, more, k, tr);
    case For(init, check, update, loop) =>
      Joined(Bits(false, OptionalLen(init, false)), WayFor(check, loop, x), more);
      if init.Some? {
        EvalOnTape(e, init.value, false, WayFor(check, loop, x) + more, k);
      } else {
        NoBits(WayFor(check, loop, x) + more);
      }
      WayForEnds(e, check, update, loop, x, fuel, more, k + OptionalLen(init, false), tr);
    case _ => assert [] + more == more;
  }

  lemma {:induction false} WayIfEnds(e: Enough, st: Stmt, x: Exit, fuel: nat, more: seq<bool>, k: nat, tr: seq<Value>)
    requires Rich(e) && st.If? && CanEnd(st, x) && Depth(st) <= fuel
    ensures Ended(e, Exec(OnTape(e), Standard, st, fuel, e.enc(Way(st, x) + more, k), tr), x, more)
    decreases st, 0
  {
    hide Rich, Bits, OnTape, Evaluate;
    var b := CanEnd(st.consequent, x);
    var arm := if b then Way(st.consequent, x) else if st.alternate.Some? then Way(st.alternate.value, x) else [];
    var k' := k + Len(st.test, b);
    Joined(Bits(b, Len(st.test, b)), arm, more);
    EvalOnTape(e, st.test, b, arm + more, k);
    BitIs(e, b);
    if b { WayEnds(e, st.consequent, x, fuel, more, k', tr); }
    else if st.alternate.Some? { WayEnds(e, st.alternate.value, x, fuel, more, k', tr); }
    else { assert [] + more == more; }
  }

  lemma {:induction false} WayWhileEnds(e: Enough, st: Stmt, x: Exit, fuel: nat, more: seq<bool>, k: nat,
      tr: seq<Value>)
    requires Rich(e) && st.While? && CanEnd(st, x) && Depth(st) <= fuel
    ensures Ended(e, Exec(OnTape(e), Standard, st, fuel, e.enc(Way(st, x) + more, k), tr), x, more)
    decreases st, 0
  {
    hide Rich, Bits, OnTape, Evaluate;
    var b := !x.ToNext?;
    if b {
      var arm := Way(st.loop, ToReturn);
      Joined(Bits(b, Len(st.test, b)), arm, more);
      EvalOnTape(e, st.test, b, arm + more, k);
      BitIs(e, b);
      WayEnds(e, st.loop, ToReturn, fuel - 1, more, k + Len(st.test, b), tr);
    } else {
      EvalOnTape(e, st.test, b, more, k);
      BitIs(e, b);
    }
  }

  lemma {:induction false} WayDoEnds(e: Enough, st: Stmt, x: Exit, fuel: nat, more: seq<bool>, k: nat, tr: seq<Value>)
    requires Rich(e) && st.DoWhile? && CanEnd(st, x) && Depth(st) <= fuel
    ensures Ended(e, Exec(OnTape(e), Standard, st, fuel, e.enc(Way(st, x) + more, k), tr), x, more)
    decreases st, 0
  {
    hide Rich, Bits, OnTape, Evaluate;
    var loop, test := st.loop, st.test;
    var y := if x.ToReturn? then ToReturn else if CanEnd(loop, ToBreak) then ToBreak else if CanEnd(loop, ToNext)
        then ToNext else ToContinue;
    var rest := if y.ToReturn? || y.ToBreak? then more else Bits(false, Len(test, false)) + more;
    Joined(Way(loop, y), Bits(false, Len(test, false)), more);
    WayEnds(e, loop, y, fuel - 1, rest, k, tr);
    var k' := EndedAt(e, Exec(OnTape(e), Standard, loop, fuel - 1, e.enc(Way(loop, y) + rest, k), tr), y, rest);
    EvalOnTape(e, test, false, more, k');
    BitIs(e, false);
  }

  lemma Joined(a: seq<bool>, b: seq<bool>, c: seq<bool>)
    ensures a + b + c == a + (b + c)
  {
  }

  lemma {:induction false} WayForEnds(e: Enough, check: Option<Expr>, update: Option<Expr>, loop: Stmt, x: Exit,
      fuel: nat, more: seq<bool>, k: nat, tr: seq<Value>)
    requires (x.ToNext? && (check.Some? || CanEnd(loop, ToBreak))) || (x.ToReturn? && CanEnd(loop, ToReturn))
    requires Rich(e) && Depth(loop) < fuel
    ensures Ended(e, ExecFor(OnTape(e), Standard, check, update, loop, fuel, e.enc(WayFor(check, loop, x) + more, k),
        tr), x, more)
    decreases loop, 2
  {
    hide Rich, Bits, OnTape, Evaluate;
    if x.ToNext? && check.Some? {
      EvalOnTape(e, check.value, false, more, k);
      BitIs(e, false);
    } else {
      var y := if x.ToNext? then ToBreak else ToReturn;
      CheckOnTape(e, check, Way(loop, y) + more, k);
      Joined(Bits(true, OptionalLen(check, true)), Way(loop, y), more);
      WayEnds(e, loop, y, fuel - 1, more, k + OptionalLen(check, true), tr);
    }
  }

  lemma CheckOnTape(e: Enough, check: Option<Expr>, t: seq<bool>, k: nat)
    requires Rich(e)
    ensures Checked(OnTape(e), check, e.enc(Bits(true, OptionalLen(check, true)) + t, k)) == (true,
        e.enc(t, k + OptionalLen(check, true)))
  {
    if check.Some? {
      EvalOnTape(e, check.value, true, t, k);
      BitIs(e, true);
    } else {
      NoBits(t);
    }
  }

  lemma {:induction false} WayAllEnds(e: Enough, body: seq<Stmt>, x: Exit, fuel: nat, more: seq<bool>, k: nat,
      tr: seq<Value>)
    requires Rich(e) && CanEndAll(body, x) && DepthAll(body) <= fuel
    ensures Ended(e, ExecAll(OnTape(e), Standard, body, fuel, e.enc(WayAll(body, x) + more, k), tr), x, more)
    decreases body, 1
  {
    hide Rich;
    if body == [] {
      assert [] + more == more;
    } else {
      var init, last := body[..|body|-1], body[|body|-1];
      if !x.ToNext? && CanEndAll(init, x) {
        WayAllEnds(e, init, x, fuel, more, k, tr);
      } else {
        Joined(WayAll(init, ToNext), Way(last, x), more);
        WayAllEnds(e, init, ToNext, fuel, Way(last, x) + more, k, tr);
        var o := ExecAll(OnTape(e), Standard, init, fuel, e.enc(WayAll(init, ToNext) + (Way(last, x) + more), k), tr);
        var k' := EndedAt(e, o, ToNext, Way(last, x) + more);
        WayEnds(e, last, x, fuel, more, k', o.trace);
      }
    }
  }

  // ----- two runs that have come apart -----

  /** Both tapes are empty, and the standard has counted more operations. */
  ghost predicate Apart(e: Enough, compiled: Outcome, standard: Outcome) {
    && compiled.how == standard.how
    && exists a: nat, b: nat :: a < b && compiled.world == e.enc([], a) && standard.world == e.enc([], b)
  }

  lemma ApartAt(e: Enough, compiled: Outcome, standard: Outcome) returns (a: nat, b: nat)
    requires Apart(e, compiled, standard)
    ensures compiled.how == standard.how && a < b && compiled.world == e.enc([], a) && standard.world == e.enc([], b)
  {
    a, b :| a < b && compiled.world == e.enc([], a) && standard.world == e.enc([], b);
  }

  lemma ApartDiffer(e: Enough, compiled: Outcome, standard: Outcome)
    requires Rich(e) && Apart(e, compiled, standard)
    ensures compiled.world != standard.world
  {
    var a, b := ApartAt(e, compiled, standard);
    assert e.dec(e.enc([], a)) != e.dec(e.enc([], b));
  }

  /** Once apart, the runs do not come together again. */
  lemma {:induction false} StayApart(e: Enough, st: Stmt, fuel: nat, a: nat, b: nat, tr: seq<Value>, tr': seq<Value>)
    requires Rich(e) && a < b
    ensures Apart(e, Exec(OnTape(e), Compiled, st, fuel, e.enc([], a), tr),
        Exec(OnTape(e), Standard, st, fuel, e.enc([], b), tr'))
    decreases fuel, st, 1
  {
    hide Rich, OnTape, Evaluate, Declared;
    BitIs(e, false);
    match st
    case Block(body) => StayApartAll(e, body, fuel, a, b, tr, tr');
    case If(_, _, _) => StayApartIf(e, st, fuel, a, b, tr, tr');
    case While(test, loop) => EvalBothQuietly(e, test, a, b);
    case DoWhile(loop, test) => StayApartDo(e, st, fuel, a, b, tr, tr');
    case For(init, check, update, loop) =>
      if init.Some? { EvalBothQuietly(e, init.value, a, b); }
      StayApartFor(e, check, update, loop, fuel, a + OptionalLen(init, false), b + OptionalLen(init, false), tr, tr');
    case _ => StayApartFlat(e, st, fuel, a, b, tr, tr');
  }

  lemma StayApartFlat(e: Enough, st: Stmt, fuel: nat, a: nat, b: nat, tr: seq<Value>, tr': seq<Value>)
    requires Rich(e) && a < b && !st.Block? && !st.If? && !st.While? && !st.DoWhile? && !st.For?
    ensures Apart(e, Exec(OnTape(e), Compiled, st, fuel, e.enc([], a), tr),
        Exec(OnTape(e), Standard, st, fuel, e.enc([], b), tr'))
  {
    hide Rich, OnTape, Evaluate, Declared;
    if st.Var? {
      DeclaredQuietly(e, st.declarators, a);
      DeclaredQuietly(e, st.declarators, b);
    }
    if st.Eval? || st.Inspect? || st.Return? { EvalBothQuietly(e, st.expr, a, b); }
  }

  lemma {:induction false} StayApartIf(e: Enough, st: Stmt, fuel: nat, a: nat, b: nat, tr: seq<Value>, tr': seq<Value>)
    requires Rich(e) && a < b && st.If?
    ensures Apart(e, Exec(OnTape(e), Compiled, st, fuel, e.enc([], a), tr),
        Exec(OnTape(e), Standard, st, fuel, e.enc([], b), tr'))
    decreases fuel, st, 0
  {
    hide Rich, OnTape, Evaluate;
    BitIs(e, false);
    EvalBothQuietly(e, st.test, a, b);
    if st.alternate.Some? {
      StayApart(e, st.alternate.value, fuel, a + Len(st.test, false), b + Len(st.test, false), tr, tr');
    }
  }

  lemma {:induction false} StayApartDo(e: Enough, st: Stmt, fuel: nat, a: nat, b: nat, tr: seq<Value>, tr': seq<Value>)
    requires Rich(e) && a < b && st.DoWhile?
    ensures Apart(e, Exec(OnTape(e), Compiled, st, fuel, e.enc([], a), tr),
        Exec(OnTape(e), Standard, st, fuel, e.enc([], b), tr'))
    decreases fuel, st, 0
  {
    hide Rich, OnTape, Evaluate;
    if fuel > 0 {
      StayApart(e, st.loop, fuel - 1, a, b, tr, tr');
      var oc := Exec(OnTape(e), Compiled, st.loop, fuel - 1, e.enc([], a), tr);
      var os := Exec(OnTape(e), Standard, st.loop, fuel - 1, e.enc([], b), tr');
      TurnApart(e, oc, os, st.test, st, fuel);
    }
  }

  lemma EvalBothQuietly(e: Enough, x: Expr, a: nat, b: nat)
    requires Rich(e)
    ensures Evaluate(OnTape(e), x, e.enc([], a)) == (e.no, e.enc([], a + Len(x, false)))
    ensures Evaluate(OnTape(e), x, e.enc([], b)) == (e.no, e.enc([], b + Len(x, false)))
  {
    EvalQuietly(e, x, a);
    EvalQuietly(e, x, b);
  }

  /** What a `do` loop makes of its body's outcome in each dialect. */
  function AfterTurn(rt: Runtime<Text>, d: Dialect, o: Outcome, test: Expr, st: Stmt, fuel: nat): Outcome
    requires fuel > 0
  {
    if o.how.Broke? || (o.how.Continued? && d.Compiled?) then o.(how := Normal)
    else if o.how.Gave? || o.how.OutOfFuel? then o
    else
      var t := Evaluate(rt, test, o.world);
      if rt.truthy(t.0) then Exec(rt, d, st, fuel - 1, t.1, o.trace) else Outcome(Normal, t.1, o.trace)
  }

  lemma TurnApart(e: Enough, oc: Outcome, os: Outcome, test: Expr, st: Stmt, fuel: nat)
    requires Rich(e) && Apart(e, oc, os) && fuel > 0
    ensures Apart(e, AfterTurn(OnTape(e), Compiled, oc, test, st, fuel),
        AfterTurn(OnTape(e), Standard, os, test, st, fuel))
  {
    hide Rich;
    var a, b := ApartAt(e, oc, os);
    EvalBothQuietly(e, test, a, b);
    BitIs(e, false);
    var rc, rs := AfterTurn(OnTape(e), Compiled, oc, test, st, fuel), AfterTurn(OnTape(e), Standard, os, test, st,
        fuel);
    if oc.how.Normal? {
      assert rc.world == e.enc([], a + Len(test, false)) && rs.world == e.enc([], b + Len(test, false));
    } else if oc.how.Continued? {
      assert rc.world == e.enc([], a) && rs.world == e.enc([], b + Len(test, false));
    }
  }

  lemma {:induction false} StayApartFor(e: Enough, check: Option<Expr>, update: Option<Expr>, loop: Stmt, fuel: nat,
      a: nat, b: nat, tr: seq<Value>, tr': seq<Value>)
    requires Rich(e) && a < b
    ensures Apart(e, ExecFor(OnTape(e), Compiled, check, update, loop, fuel, e.enc([], a), tr),
                     ExecFor(OnTape(e), Standard, check, update, loop, fuel, e.enc([], b), tr'))
    decreases fuel, loop, 3
  {
    hide Rich, OnTape, Evaluate;
    BitIs(e, false);
    if fuel > 0 {
      if check.Some? {
        EvalBothQuietly(e, check.value, a, b);
      } else {
        StayApart(e, loop, fuel - 1, a, b, tr, tr');
        var oc := Exec(OnTape(e), Compiled, loop, fuel - 1, e.enc([], a), tr);
        var os := Exec(OnTape(e), Standard, loop, fuel - 1, e.enc([], b), tr');
        ForTurnApart(e, oc, os, check, update, loop, fuel);
      }
    }
  }

  lemma SameApart(e: Enough, oc: Outcome, os: Outcome)
    requires Apart(e, oc, os)
    ensures Apart(e, oc.(how := Normal), os.(how := Normal))
  {
  }

  /** What a `for` loop makes of its body's outcome in each dialect. */
  function AfterForTurn(rt: Runtime<Text>, d: Dialect, o: Outcome, check: Option<Expr>, update: Option<Expr>,
      loop: Stmt, fuel: nat): Outcome
    requires fuel > 0
  {
    if o.how.Broke? then o.(how := Normal)
    else if o.how.Gave? || o.how.OutOfFuel? then o
    else
      var w := if update.Some? && !(o.how.Continued? && d.Compiled?) then Evaluate(rt, update.value, o.world).1
          else o.world;
      ExecFor(rt, d, check, update, loop, fuel - 1, w, o.trace)
  }

  lemma {:induction false} ForTurnApart(e: Enough, oc: Outcome, os: Outcome, check: Option<Expr>, update: Option<Expr>,
      loop: Stmt, fuel: nat)
    requires Rich(e) && Apart(e, oc, os) && fuel > 0
    ensures Apart(e, AfterForTurn(OnTape(e), Compiled, oc, check, update, loop, fuel),
        AfterForTurn(OnTape(e), Standard, os, check, update, loop, fuel))
    decreases fuel, loop, 2
  {
    hide Rich, OnTape, Evaluate, ExecFor, Apart;
    var a, b := ApartAt(e, oc, os);
    if !(oc.how.Normal? || oc.how.Continued?) {
      SameApart(e, oc, os);
    } else {
      if update.Some? { EvalBothQuietly(e, update.value, a, b); }
      var n := OptionalLen(update, false);
      StayApartFor(e, check, update, loop, fuel - 1, if oc.how.Continued? then a else a + n, b + n, oc.trace, os.trace);
    }
  }

  lemma {:induction false} StayApartAll(e: Enough, body: seq<Stmt>, fuel: nat, a: nat, b: nat, tr: seq<Value>,
      tr': seq<Value>)
    requires Rich(e) && a < b
    ensures Apart(e, ExecAll(OnTape(e), Compiled, body, fuel, e.enc([], a), tr),
        ExecAll(OnTape(e), Standard, body, fuel, e.enc([], b), tr'))
    decreases fuel, body, 1
  {
    hide Rich;
    if body != [] {
      var init, last := body[..|body|-1], body[|body|-1];
      StayApartAll(e, init, fuel, a, b, tr, tr');
      var oc := ExecAll(OnTape(e), Compiled, init, fuel, e.enc([], a), tr);
      var os := ExecAll(OnTape(e), Standard, init, fuel, e.enc([], b), tr');
      if oc.how.Normal? {
        var a', b' := ApartAt(e, oc, os);
        StayApart(e, last, fuel, a', b', oc.trace, os.trace);
      }
    }
  }

  // ----- statements that are not portable -----

  /** A tape on which the dialects come apart. */
  function Parting(st: Stmt): seq<bool>
    requires !Portable(st)
    decreases st, 0
  {
    match st
    case Block(body) => PartingAll(body)
    case If(test, consequent, alternate) =>
      if !Portable(consequent) then Bits(true, Len(test, true)) + Parting(consequent)
      else Bits(false, Len(test, false)) + Parting(alternate.value)
    case While(test, loop) => Bits(true, Len(test, true)) + Parting(loop)
    case DoWhile(loop, _) => if !Portable(loop) then Parting(loop) else Way(loop, ToContinue)
    case For(init, check, _, loop) =>
      Bits(false, OptionalLen(init, false)) + (Bits(true, OptionalLen(check, true)) + if !Portable(loop)
          then Parting(loop) else Way(loop, ToContinue))
  }

  function PartingAll(body: seq<Stmt>): seq<bool>
    requires !PortableAll(body)
    decreases body, 0
  {
    var init, last := body[..|body|-1], body[|body|-1];
    if !PortableAll(init) then PartingAll(init) else WayAll(init, ToNext) + Parting(last)
  }

  lemma {:induction false} Part(e: Enough, st: Stmt, fuel: nat, k: nat, tr: seq<Value>)
    requires Rich(e) && !Portable(st) && Depth(st) <= fuel
    ensures var w := e.enc(Parting(st), k);
        Apart(e, Exec(OnTape(e), Compiled, st, fuel, w, tr), Exec(OnTape(e), Standard, st, fuel, w, tr))
    decreases st, 0
  {
    hide Rich, Bits, Apart;
    match st
    case Block(body) => PartAll(e, body, fuel, k, tr);
    case If(test, consequent, alternate) =>
      var b := !Portable(consequent);
      var arm := if b then consequent else alternate.value;
      EvalOnTape(e, test, b, Parting(arm), k);
      BitIs(e, b);
      Part(e, arm, fuel, k + Len(test, b), tr);
    case While(test, loop) => PartWhile(e, st, fuel, k, tr);
    case DoWhile(loop, test) =>
      var w := e.enc(Parting(st), k);
      var oc, os := Exec(OnTape(e), Compiled, loop, fuel - 1, w, tr), Exec(OnTape(e), Standard, loop, fuel - 1, w, tr);
      if !Portable(loop) {
        Part(e, loop, fuel - 1, k, tr);
        TurnApart(e, oc, os, test, st, fuel);
      } else {
        var k' := ContinuesBoth(e, loop, fuel - 1, k, tr);
        DoParts(e, oc, test, st, fuel, k');
      }
    case For(init, check, update, loop) => PartFor(e, st, fuel, k, tr);
  }

  /** A portable body comes to its `continue` in both dialects. */
  lemma ContinuesBoth(e: Enough, loop: Stmt, fuel: nat, k: nat, tr: seq<Value>) returns (k': nat)
    requires Rich(e) && Portable(loop) && CanEnd(loop, ToContinue) && Depth(loop) <= fuel
    ensures var w := e.enc(Way(loop, ToContinue), k);
      var o := Exec(OnTape(e), Compiled, loop, fuel, w, tr);
      o == Exec(OnTape(e), Standard, loop, fuel, w, tr) && o.how.Continued? && o.world == e.enc([], k')
  {
    var w := e.enc(Way(loop, ToContinue), k);
    assert Way(loop, ToContinue) + [] == Way(loop, ToContinue);
    DialectsAgree(OnTape(e), loop, fuel, w, tr);
    WayEnds(e, loop, ToContinue, fuel, [], k, tr);
    k' := EndedAt(e, Exec(OnTape(e), Standard, loop, fuel, w, tr), ToContinue, []);
  }

  lemma DoParts(e: Enough, o: Outcome, test: Expr, st: Stmt, fuel: nat, k: nat)
    requires Rich(e) && o.how.Continued? && o.world == e.enc([], k) && fuel > 0
    ensures Apart(e, AfterTurn(OnTape(e), Compiled, o, test, st, fuel),
        AfterTurn(OnTape(e), Standard, o, test, st, fuel))
  {
    EvalQuietly(e, test, k);
    BitIs(e, false);
    assert AfterTurn(OnTape(e), Standard, o, test, st, fuel).world == e.enc([], k + Len(test, false));
  }

  lemma {:induction false} PartWhile(e: Enough, st: Stmt, fuel: nat, k: nat, tr: seq<Value>)
    requires Rich(e) && st.While? && !Portable(st) && Depth(st) <= fuel
    ensures var w := e.enc(Parting(st), k);
        Apart(e, Exec(OnTape(e), Compiled, st, fuel, w, tr), Exec(OnTape(e), Standard, st, fuel, w, tr))
    decreases st.loop, 1
  {
    hide Rich, Bits, OnTape, Evaluate, Depth;
    WhileDepth(st);
    var w, k1 := e.enc(Parting(st.loop), k + Len(st.test, true)), k + Len(st.test, true);
    EvalOnTape(e, st.test, true, Parting(st.loop), k);
    BitIs(e, true);
    Part(e, st.loop, fuel - 1, k1, tr);
    var oc, os := Exec(OnTape(e), Compiled, st.loop, fuel - 1, w, tr),
        Exec(OnTape(e), Standard, st.loop, fuel - 1, w, tr);
    var a, b := ApartAt(e, oc, os);
    if oc.how.Normal? || oc.how.Continued? { StayApart(e, st, fuel - 1, a, b, oc.trace, os.trace); }
  }

  lemma WhileDepth(st: Stmt)
    requires st.While?
    ensures Depth(st) == Depth(st.loop) + 1
  {
  }

  lemma {:induction false} PartFor(e: Enough, st: Stmt, fuel: nat, k: nat, tr: seq<Value>)
    requires Rich(e) && st.For? && !Portable(st) && Depth(st) <= fuel
    ensures var w := e.enc(Parting(st), k);
        Apart(e, Exec(OnTape(e), Compiled, st, fuel, w, tr), Exec(OnTape(e), Standard, st, fuel, w, tr))
    decreases st.loop, 1
  {
    hide Rich, Bits, Apart, ExecFor;
    var loop, check, update := st.loop, st.check, st.update;
    var body := if !Portable(loop) then Parting(loop) else Way(loop, ToContinue);
    var t := Bits(true, OptionalLen(check, true)) + body;
    if st.init.Some? { EvalOnTape(e, st.init.value, false, t, k); } else { NoBits(t); }
    var k1 := k + OptionalLen(st.init, false);
    var k2 := k1 + OptionalLen(check, true);
    CheckOnTape(e, check, body, k1);
    var w := e.enc(body, k2);
    var oc, os := Exec(OnTape(e), Compiled, loop, fuel - 1, w, tr), Exec(OnTape(e), Standard, loop, fuel - 1, w, tr);
    ForTurn(OnTape(e), Compiled, check, update, loop, fuel, e.enc(t, k1), tr);
    ForTurn(OnTape(e), Standard, check, update, loop, fuel, e.enc(t, k1), tr);
    if !Portable(loop) {
      Part(e, loop, fuel - 1, k2, tr);
      ForTurnApart(e, oc, os, check, update, loop, fuel);
    } else {
      var k3 := ContinuesBoth(e, loop, fuel - 1, k2, tr);
      ForParts(e, oc, check, update, loop, fuel, k3);
    }
  }

  lemma ForTurn(rt: Runtime<Text>, d: Dialect, check: Option<Expr>, update: Option<Expr>, loop: Stmt, fuel: nat,
      w: World, tr: seq<Value>)
    requires fuel > 0 && Checked(rt, check, w).0
    ensures ExecFor(rt, d, check, update, loop, fuel, w, tr)
         == AfterForTurn(rt, d, Exec(rt, d, loop, fuel - 1, Checked(rt, check, w).1, tr), check, update, loop, fuel)
  {
  }

  lemma ForParts(e: Enough, o: Outcome, check: Option<Expr>, update: Option<Expr>, loop: Stmt, fuel: nat, k: nat)
    requires Rich(e) && o.how.Continued? && o.world == e.enc([], k) && fuel > 0 && update.Some?
    ensures Apart(e, AfterForTurn(OnTape(e), Compiled, o, check, update, loop, fuel),
        AfterForTurn(OnTape(e), Standard, o, check, update, loop, fuel))
  {
    hide Apart;
    EvalQuietly(e, update.value, k);
    StayApartFor(e, check, update, loop, fuel - 1, k, k + Len(update.value, false), o.trace, o.trace);
  }

  lemma {:induction false} PartAll(e: Enough, body: seq<Stmt>, fuel: nat, k: nat, tr: seq<Value>)
    requires Rich(e) && !PortableAll(body) && DepthAll(body) <= fuel
    ensures var w := e.enc(PartingAll(body), k);
        Apart(e, ExecAll(OnTape(e), Compiled, body, fuel, w, tr), ExecAll(OnTape(e), Standard, body, fuel, w, tr))
    decreases body, 0
  {
    hide Rich;
    var init, last := body[..|body|-1], body[|body|-1];
    var w := e.enc(PartingAll(body), k);
    var oc, os := ExecAll(OnTape(e), Compiled, init, fuel, w, tr), ExecAll(OnTape(e), Standard, init, fuel, w, tr);
    if !PortableAll(init) {
      PartAll(e, init, fuel, k, tr);
      if oc.how.Normal? {
        var a, b := ApartAt(e, oc, os);
        StayApart(e, last, fuel, a, b, oc.trace, os.trace);
      }
    } else {
      DialectsAgreeAll(OnTape(e), init, fuel, w, tr);
      WayAllEnds(e, init, ToNext, fuel, Parting(last), k, tr);
      var k' := EndedAt(e, os, ToNext, Parting(last));
      Part(e, last, fuel, k', os.trace);
    }
  }

  // ----- exactly the portable ones -----

  ghost predicate SameMeaning(st: Stmt) {
    forall rt: Runtime<Text>, fuel: nat, w: World, tr: seq<Value> ::
      Exec(rt, Compiled, st, fuel, w, tr) == Exec(rt, Standard, st, fuel, w, tr)
  }

  /** Compiled code means what the standard says, whatever the runtime does, exactly when
      no reachable `continue` belongs to a `do` loop or to a `for` loop with an update. */
  lemma PortableExactly(e: Enough, st: Stmt)
    requires Rich(e)
    ensures Portable(st) <==> SameMeaning(st)
  {
    if Portable(st) {
      forall rt: Runtime<Text>, fuel: nat, w: World, tr: seq<Value>
        ensures Exec(rt, Compiled, st, fuel, w, tr) == Exec(rt, Standard, st, fuel, w, tr)
      {
        DialectsAgree(rt, st, fuel, w, tr);
      }
    } else {
      var w := e.enc(Parting(st), 0);
      Part(e, st, Depth(st), 0, []);
      ApartDiffer(e, Exec(OnTape(e), Compiled, st, Depth(st), w, []), Exec(OnTape(e), Standard, st, Depth(st), w, []));
      assert Exec(OnTape(e), Compiled, st, Depth(st), w, []) != Exec(OnTape(e), Standard, st, Depth(st), w, []);
    }
  }

  /** `do continue; while (x)` and `for (; x; x++) continue;` differ. */
  lemma ContinueDiffers(e: Enough, x: Text)
    requires Rich(e)
    ensures !SameMeaning(DoWhile(Continue, Identifier(x)))
    ensures !SameMeaning(For(None, Some(Identifier(x)), Some(Update(true, false, x)), Continue))
  {
    var a, b := DoWhile(Continue, Identifier(x)), For(None, Some(Identifier(x)), Some(Update(true, false, x)),
        Continue);
    assert CanEnd(Continue, ToContinue);
    assert !Portable(a) && !Portable(b);
    PortableExactly(e, a);
    PortableExactly(e, b);
  }
}
