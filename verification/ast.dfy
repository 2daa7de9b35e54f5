/** The source language and what it means: a big-step semantics over the same
    runtime that executes the instructions.
  */
module Ast {
  import opened Ir
  import opened Cfg

  datatype Literal =
    UndefinedLiteral | NullLiteral | BoolLiteral(b: bool) | StringLiteral(text: Text) | NumberLiteral(num: Num)

  datatype Expr =
    | Lit(lit: Literal)
    | Identifier(name: Text)
    | This
    | Prefix(uop: UnaryOp, arg: Expr)
    | Infix(bop: BinaryOp, left: Expr, right: Expr)
    | Assign(target: Text, right: Expr)
    | Update(increment: bool, prefix: bool, target: Text)
    | Conditional(test: Expr, consequent: Expr, alternate: Expr)

  datatype Declarator = Declarator(name: Text, init: Option<Expr>)

  datatype Stmt =
    | Empty
    | Block(body: seq<Stmt>)
    | Eval(expr: Expr)
    | Inspect(expr: Expr)
    | Return(expr: Expr)
    | Break
    | Continue
    | If(test: Expr, consequent: Stmt, alternate: Option<Stmt>)
    | While(test: Expr, loop: Stmt)
    | DoWhile(loop: Stmt, test: Expr)
    | For(init: Option<Expr>, check: Option<Expr>, update: Option<Expr>, loop: Stmt)
    | Var(declarators: seq<Declarator>)

  // ----- expressions -----

  const ONE := Num(1.0, [0, 0, 0, 0, 0, 0, 0xF0, 0x3F])

  function Pow2(n: nat): real { if n == 0 then 1.0 else 2.0 * Pow2(n - 1) }

  /** The number that eight bytes denote, the least significant first, by section 3.4 of
      IEEE 754: a positive one that is not less than 1. */
  function DoubleOf(bits: seq<Byte>): real
    requires |bits| == 8 && 1023 <= bits[7] as int * 16 + bits[6] as int / 16 < 2047
  {
    var fraction := bits[0] as int + 0x100 * (bits[1] as int + 0x100 * (bits[2] as int + 0x100 * (bits[3] as int +
      0x100 * (bits[4] as int + 0x100 * (bits[5] as int + 0x100 * (bits[6] as int % 16))))));
    (1.0 + fraction as real / 4503599627370496.0) * Pow2(bits[7] as int * 16 + bits[6] as int / 16 - 1023)
  }

  /** What an update adds or takes away is one, in value and in bytes. */
  lemma OneIsOne()
    ensures ONE.value == 1.0 && DoubleOf(ONE.bits) == 1.0
  {
    assert Pow2(0) == 1.0;
  }

  function LoadLiteral(lit: Literal, v: nat): Op<Text> {
    match lit
    case UndefinedLiteral => LoadUndefined(v)
    case NullLiteral => LoadNull(v)
    case BoolLiteral(b) => LoadBool(v, b)
    case StringLiteral(text) => LoadString(v, text)
    case NumberLiteral(num) => LoadNumber(v, num)
  }

  function UpdateOp(increment: bool): BinaryOp { if increment then BinAdd else BinSub }

  /** The value of an expression and the world it leaves. */
  function Evaluate(rt: Runtime<Text>, e: Expr, w: World): (Value, World) {
    match e
    case Lit(lit) => rt.exec(LoadLiteral(lit, 0), [], w)
    case Identifier(name) => rt.exec(Load(0, name), [], w)
    case This => rt.exec(Op.This(0), [], w)
    case Prefix(uop, arg) =>
      var a := Evaluate(rt, arg, w);
      rt.exec(Unary(uop, 0, 0), [a.0], a.1)
    case Infix(bop, left, right) =>
      var l := Evaluate(rt, left, w);
      var r := Evaluate(rt, right, l.1);
      rt.exec(Binary(bop, 0, 0, 0), [l.0, r.0], r.1)
    case Assign(target, right) =>
      var r := Evaluate(rt, right, w);
      (r.0, rt.exec(Store(target, 0), [r.0], r.1).1)
    case Update(increment, prefix, target) =>
      var from := rt.exec(Load(0, target), [], w);
      var one := rt.exec(LoadNumber(0, ONE), [], from.1);
      var to := rt.exec(Binary(UpdateOp(increment), 0, 0, 0), [from.0, one.0], one.1);
      (if prefix then to.0 else from.0, rt.exec(Store(target, 0), [to.0], to.1).1)
    case Conditional(test, consequent, alternate) =>
      var t := Evaluate(rt, test, w);
      if rt.truthy(t.0) then Evaluate(rt, consequent, t.1) else Evaluate(rt, alternate, t.1)
  }

  /** ECMA-262 section 13.4 converts the operand of `++` and `--` to a number first. */
  function UpdateConverting(rt: Runtime<Text>, increment: bool, prefix: bool, target: Text, w: World): (Value, World) {
    var loaded := rt.exec(Load(0, target), [], w);
    var from := rt.exec(Unary(UnAdd, 0, 0), [loaded.0], loaded.1);
    var one := rt.exec(LoadNumber(0, ONE), [], from.1);
    var to := rt.exec(Binary(if increment then BinAdd else BinSub, 0, 0, 0), [from.0, one.0], one.1);
    (if prefix then to.0 else from.0, rt.exec(Store(target, 0), [to.0], to.1).1)
  }

  // ----- statements -----

  datatype Completion =
    | Normal
    | Broke
    | Continued
    | Gave(value: Value)
    | OutOfFuel

  datatype Outcome = Outcome(how: Completion, world: World, trace: seq<Value>)

  /** How `continue` works in a `do` or a `for` loop: as ECMA-262 section 14.7 has
      it, or as compiled, where a `do` loop ends and a `for` loop skips its update. */
  datatype Dialect = Standard | Compiled

  /** Loops turn at most `fuel` times; a statement that needs more runs out of fuel
      where it stands. */
  function Exec(rt: Runtime<Text>, d: Dialect, st: Stmt, fuel: nat, w: World, tr: seq<Value>): Outcome
    decreases fuel, st, 0
  {
    match st
    case Empty => Outcome(Normal, w, tr)
    case Block(body) => ExecAll(rt, d, body, fuel, w, tr)
    case Eval(e) => Outcome(Normal, Evaluate(rt, e, w).1, tr)
    case Inspect(e) => var r := Evaluate(rt, e, w); Outcome(Normal, r.1, tr + [r.0])
    case Return(e) => var r := Evaluate(rt, e, w); Outcome(Gave(r.0), r.1, tr)
    case Break => Outcome(Broke, w, tr)
    case Continue => Outcome(Continued, w, tr)
    case If(test, consequent, alternate) =>
      var t := Evaluate(rt, test, w);
      if rt.truthy(t.0) then Exec(rt, d, consequent, fuel, t.1, tr)
      else if alternate.Some? then Exec(rt, d, alternate.value, fuel, t.1, tr)
      else Outcome(Normal, t.1, tr)
    case While(test, loop) =>
      if fuel == 0 then Outcome(OutOfFuel, w, tr)
      else
        var t := Evaluate(rt, test, w);
        if !rt.truthy(t.0) then Outcome(Normal, t.1, tr)
        else
          var o := Exec(rt, d, loop, fuel - 1, t.1, tr);
          if o.how.Broke? then o.(how := Normal)
          else if o.how.Gave? || o.how.OutOfFuel? then o
          else Exec(rt, d, st, fuel - 1, o.world, o.trace)
    case DoWhile(loop, test) =>
      if fuel == 0 then Outcome(OutOfFuel, w, tr)
      else
        var o := Exec(rt, d, loop, fuel - 1, w, tr);
        if o.how.Broke? || (o.how.Continued? && d.Compiled?) then o.(how := Normal)
        else if o.how.Gave? || o.how.OutOfFuel? then o
        else
          var t := Evaluate(rt, test, o.world);
          if rt.truthy(t.0) then Exec(rt, d, st, fuel - 1, t.1, o.trace) else Outcome(Normal, t.1, o.trace)
    case For(init, check, update, loop) =>
      var w' := if init.Some? then Evaluate(rt, init.value, w).1 else w;
      ExecFor(rt, d, check, update, loop, fuel, w', tr)
    case Var(declarators) => Outcome(Normal, Declared(rt, declarators, w), tr)
  }

  function ExecFor(rt: Runtime<Text>, d: Dialect, check: Option<Expr>, update: Option<Expr>, loop: Stmt, fuel: nat,
      w: World, tr: seq<Value>): Outcome
    decreases fuel, loop, 1
  {
    if fuel == 0 then Outcome(OutOfFuel, w, tr)
    else
      var t := Checked(rt, check, w);
      if !t.0 then Outcome(Normal, t.1, tr)
      else
        var o := Exec(rt, d, loop, fuel - 1, t.1, tr);
        if o.how.Broke? then o.(how := Normal)
        else if o.how.Gave? || o.how.OutOfFuel? then o
        else
          var skip := o.how.Continued? && d.Compiled?;
          var w' := if update.Some? && !skip then Evaluate(rt, update.value, o.world).1 else o.world;
          ExecFor(rt, d, check, update, loop, fuel - 1, w', o.trace)
  }

  /** Whether a `for` loop goes on, and the world after its test. */
  function Checked(rt: Runtime<Text>, check: Option<Expr>, w: World): (bool, World) {
    if check.None? then (true, w)
    else var t := Evaluate(rt, check.value, w); (rt.truthy(t.0), t.1)
  }

  function ExecAll(rt: Runtime<Text>, d: Dialect, body: seq<Stmt>, fuel: nat, w: World, tr: seq<Value>): Outcome
    decreases fuel, body, 0
  {
    if body == [] then Outcome(Normal, w, tr)
    else
      var last := |body| - 1;
      var o := ExecAll(rt, d, body[..last], fuel, w, tr);
      if o.how.Normal? then Exec(rt, d, body[last], fuel, o.world, o.trace) else o
  }

  /** The initialised declarators store their values, in order. */
  function Declared(rt: Runtime<Text>, ds: seq<Declarator>, w: World): World {
    if ds == [] then w
    else
      var w' := Declared(rt, ds[..|ds|-1], w);
      var dcl := ds[|ds|-1];
      if dcl.init.None? then w'
      else
        var r := Evaluate(rt, dcl.init.value, w');
        rt.exec(Store(dcl.name, 0), [r.0], r.1).1
  }

  // ----- literals -----

  /** A literal is loaded as what it is, by the instruction of its kind. */
  lemma LiteralMeans(rt: Runtime<Text>, lit: Literal, w: World)
    ensures lit.UndefinedLiteral? ==> Evaluate(rt, Lit(lit), w) == rt.exec(LoadUndefined(0), [], w)
    ensures lit.NullLiteral? ==> Evaluate(rt, Lit(lit), w) == rt.exec(LoadNull(0), [], w)
    ensures lit.BoolLiteral? ==> Evaluate(rt, Lit(lit), w) == rt.exec(LoadBool(0, lit.b), [], w)
    ensures lit.StringLiteral? ==> Evaluate(rt, Lit(lit), w) == rt.exec(LoadString(0, lit.text), [], w)
    ensures lit.NumberLiteral? ==> Evaluate(rt, Lit(lit), w) == rt.exec(LoadNumber(0, lit.num), [], w)
  {
  }

  // ----- updates -----

  /** `++x` is `x = x + 1`, and `--x` is `x = x - 1`. */
  lemma PrefixIsAssignment(rt: Runtime<Text>, increment: bool, target: Text, w: World)
    ensures ONE.value == 1.0
    ensures Evaluate(rt, Update(increment, true, target), w) ==
      Evaluate(rt, Assign(target, Infix(if increment then BinAdd else BinSub, Identifier(target),
        Lit(NumberLiteral(ONE)))), w)
  {
    var from := Evaluate(rt, Identifier(target), w);
    var one := Evaluate(rt, Lit(NumberLiteral(ONE)), from.1);
    var bop := if increment then BinAdd else BinSub;
    var sum := Infix(bop, Identifier(target), Lit(NumberLiteral(ONE)));
    assert Evaluate(rt, sum, w) == rt.exec(Binary(bop, 0, 0, 0), [from.0, one.0], one.1);
  }

  /** `x++` leaves what `x = x + 1` leaves, and yields what `x` was; `x--` likewise. */
  lemma PostfixIsAssignment(rt: Runtime<Text>, increment: bool, target: Text, w: World)
    ensures Evaluate(rt, Update(increment, false, target), w).1 ==
      Evaluate(rt, Assign(target, Infix(if increment then BinAdd else BinSub, Identifier(target),
        Lit(NumberLiteral(ONE)))), w).1
    ensures Evaluate(rt, Update(increment, false, target), w).0 == Evaluate(rt, Identifier(target), w).0
  {
    PrefixIsAssignment(rt, increment, target, w);
  }

  /** The old value that a postfix update yields is the one the standard wants exactly
      when the conversion leaves the value alone. */
  lemma OldValueIsStandard(rt: Runtime<Text>, increment: bool, target: Text, w: World)
    ensures var loaded := rt.exec(Load(0, target), [], w);
      Evaluate(rt, Update(increment, false, target), w).0 == UpdateConverting(rt, increment, false, target, w).0
      <==> rt.exec(Unary(UnAdd, 0, 0), [loaded.0], loaded.1).0 == loaded.0
  {
    var loaded := rt.exec(Load(0, target), [], w);
    assert Evaluate(rt, Update(increment, false, target), w).0 == loaded.0;
  }

  /** A conversion that leaves value and world alone makes no difference at all. */
  lemma UpdateIsStandard(rt: Runtime<Text>, increment: bool, prefix: bool, target: Text, w: World)
    requires var loaded := rt.exec(Load(0, target), [], w); rt.exec(Unary(UnAdd, 0, 0), [loaded.0], loaded.1) == loaded
    ensures Evaluate(rt, Update(increment, prefix, target), w) == UpdateConverting(rt, increment, prefix, target, w)
  {
  }

  /** A runtime in which a name holds `text`, and `number` is what it is converted to. */
  function ConvertingRuntime(text: Value, number: Value): Runtime<Text> {
    Runtime(text, (op: Op<Text>, args: seq<Value>, w: World) => (if op.Load? then text else number, w),
        (v: Value) => true)
  }

  /** There, a postfix update yields the text and not the number. */
  lemma OldTextIsYielded(text: Value, number: Value, increment: bool, target: Text, w: World)
    requires text != number
    ensures Evaluate(ConvertingRuntime(text, number), Update(increment, false, target), w).0 == text
    ensures UpdateConverting(ConvertingRuntime(text, number), increment, false, target, w).0 == number
  {
    var rt := ConvertingRuntime(text, number);
    assert rt.exec(Load(0, target), [], w) == (text, w);
    assert rt.exec(Unary(UnAdd, 0, 0), [text], w) == (number, w);
  }
}
