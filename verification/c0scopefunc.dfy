/** The graphs that C0 builds are scoped: lists of statements, declarations and
    whole functions.
  */
module C0ScopeFunc {
  import opened Ir
  import opened Cfg
  import opened Ast
  import opened C0
  import opened C0Run
  import opened C0Stmt
  import opened C0Func
  import opened C0Shape
  import opened Scope
  import opened Assembly
  import opened C0Scope
  import opened C0ScopeStmt

  // ----- lists of statements -----

  /** Where the first statement of a list is entered. */
  function ListEnter(b: Build, body: seq<Stmt>, bps: seq<Points>): nat
    requires forall i :: 0 <= i < |body| ==> Looped(body[i], bps != [])
    decreases |body|
  {
    if body == [] then 0
    else if |body| == 1 then GenStmt(NewBlock(b), body[0], bps).enter
    else ListEnter(b, body[..|body|-1], bps)
  }

  /** The code of a list without the empty block it starts from; missing when the
      list is empty. */
  function ListPiece(b: Build, empty: bool, before: Part, enter: nat, bps: seq<Points>, tail: Block): Piece {
    if empty then NoPiece(NewBlock(b)) else Piece(NewBlock(b), before.b, enter, before.exit, None, PointsOf(bps), tail)
  }

  function ListPieces(b: Build, empty: bool, before: Part, enter: nat, q: Part, bps: seq<Points>): seq<Piece> {
    [ListPiece(b, empty, before, enter, bps, [Jump(q.enter)]), PartPiece(before.b, q, bps, [])]
  }

  ghost predicate ListShaped(b: Build, empty: bool, before: Part, enter: nat, bps: seq<Points>) {
    && |b.blocks| < |before.b.blocks| && b.vars <= before.b.vars
    && (if empty then before == Part(NewBlock(b), |b.blocks|, |b.blocks|)
        else NewBlockOf(NewBlock(b), before.b, enter) && Region(NewBlock(b), before.b, {before.exit}, PointsOf(bps)))
  }

  lemma {:induction false} ListIsShaped(b: Build, body: seq<Stmt>, bps: seq<Points>)
    requires forall i :: 0 <= i < |body| ==> Looped(body[i], bps != [])
    ensures ListShaped(b, body == [], GenAll(b, body, bps), ListEnter(b, body, bps), bps)
    decreases |body|
  {
    hide Region, GenStmt;
    if body != [] {
      var last := |body| - 1;
      var before := GenAll(b, body[..last], bps);
      ListIsShaped(b, body[..last], bps);
      StmtShaped(before.b, body[last], bps);
      ListGrows(b, last == 0, before, ListEnter(b, body[..last], bps), GenStmt(before.b, body[last], bps), bps);
    }
  }

  lemma ListGrows(b: Build, empty: bool, before: Part, enter: nat, q: Part, bps: seq<Points>)
    requires ListShaped(b, empty, before, enter, bps) && PartShaped(before.b, q, bps) &&
        |b.blocks| <= before.exit < |q.b.blocks|
    ensures ListShaped(b, false, Part(Link(q.b, before.exit, q.enter), |b.blocks|, q.exit), if empty then q.enter
        else enter, bps)
  {
    hide Region;
    var pts, a := PointsOf(bps), Link(q.b, before.exit, q.enter);
    if empty {
      RegionOutside(NewBlock(b), q.b, a, {q.exit}, pts);
    } else {
      RegionJoin(NewBlock(b), before.b, q.b, {before.exit}, {q.exit}, pts, pts);
      InRegion(before.b, q.b, {q.exit}, pts, q.exit);
      InRegion(NewBlock(b), before.b, {before.exit}, pts, before.exit);
      RegionLink(NewBlock(b), q.b, {before.exit} + {q.exit}, pts, before.exit, q.enter);
      assert {before.exit} + {q.exit} - {before.exit} == {q.exit};
    }
  }

  /** A region depends on its own blocks only. */
  lemma RegionOutside(b: Build, a: Build, a': Build, open: set<nat>, pts: set<nat>)
    requires Region(b, a, open, pts) && |a'.blocks| == |a.blocks| && a'.vars == a.vars
    requires forall x: nat :: NewBlockOf(b, a, x) ==> a'.blocks[x] == a.blocks[x]
    ensures Region(b, a', open, pts)
  {
    forall x: nat | NewBlockOf(b, a', x) ensures Shaped(open, x, a'.blocks[x]) && BlockIn(b, a', pts, a'.blocks[x]) {
      assert NewBlockOf(b, a, x);
      WiderBlock(b, a, a', pts, a.blocks[x]);
    }
  }

  lemma ListPolite(b: Build, empty: bool, before: Part, enter: nat, q: Part, bps: seq<Points>)
    requires ListShaped(b, empty, before, enter, bps) && PartShaped(before.b, q, bps) && PointsBelow(b, bps) &&
        |b.blocks| <= before.exit < |q.b.blocks|
    requires !empty ==> |b.blocks| < before.exit < |before.b.blocks|
    ensures var a, pieces := Link(q.b, before.exit, q.enter), ListPieces(b, empty, before, enter, q, bps);
      && Polite(NewBlock(b), a, if empty then q.enter else enter, q.exit, None, pieces, map[])
      && Mergeless(pieces, map[]) && Covered(NewBlock(b), a, pieces)
  {
    hide Region, HandsOff;
    var a, pieces := Link(q.b, before.exit, q.enter), ListPieces(b, empty, before, enter, q, bps);
    forall x: nat | NewBlockOf(NewBlock(b), a, x) ensures Placed(pieces, map[], x, a.blocks[x]) {
      if x < |before.b.blocks| {
        assert a.blocks[x] == PieceBlock(pieces[0], x);
      } else {
        assert a.blocks[x] == PieceBlock(pieces[1], x);
      }
    }
    assert Assembled(NewBlock(b), a, pieces, map[]);
    forall x: nat, node: Node | Glue(pieces, map[], x, node) ensures node == Jump(q.enter) {}
    forall j | 0 <= j < 2 ensures GlueKeepsOff(pieces, map[], pieces[j]) {
      JumpHandsOff(pieces[j].b, pieces[j].a, None, q.enter);
    }
    assert forall v :: NewTempOf(b, a, v) ==>
        NewTempOf(pieces[0].b, pieces[0].a, v) || NewTempOf(pieces[1].b, pieces[1].a, v);
  }

  // ----- var -----

  function VarPieces(b: Build, before: Option<Part>, c: Code, name: Text): seq<Piece> {
    [if before.None? then NoPiece(b) else PartPiece(b, before.value, [], [Jump(c.enter)]),
     PieceOf(if before.None? then b else before.value.b, c, [Plain(Do(Store(name, c.v)))])]
  }

  ghost predicate VarShaped(b: Build, before: Option<Part>, c: Code) {
    && CodeShaped(if before.None? then b else before.value.b, c)
    && (before.Some? ==> PartShaped(b, before.value, []))
  }

  function VarPart(before: Option<Part>, c: Code, name: Text): Part
    requires c.exit < |c.b.blocks| && (before.Some? ==> before.value.exit < |c.b.blocks|)
  {
    var c' := if before.Some? then Link(c.b, before.value.exit, c.enter) else c.b;
    Part(Push(c', c.exit, Plain(Do(Store(name, c.v)))), if before.Some? then before.value.enter else c.enter, c.exit)
  }

  lemma VarSizes(b: Build, before: Option<Part>, c: Code)
    requires VarShaped(b, before, c)
    ensures c.exit < |c.b.blocks| && (before.Some? ==> before.value.exit < |c.b.blocks|)
  {
  }

  lemma VarAssembled(b: Build, before: Option<Part>, c: Code, name: Text)
    requires VarShaped(b, before, c) && c.exit < |c.b.blocks| && (before.Some? ==> before.value.exit < |c.b.blocks|)
    ensures Assembled(b, VarPart(before, c, name).b, VarPieces(b, before, c, name), map[])
    ensures Covered(b, VarPart(before, c, name).b, VarPieces(b, before, c, name))
  {
    hide Region;
    var a, pieces := VarPart(before, c, name).b, VarPieces(b, before, c, name);
    var b1 := if before.None? then b else before.value.b;
    forall x: nat | NewBlockOf(b, a, x) ensures Placed(pieces, map[], x, a.blocks[x]) {
      if x < |b1.blocks| {
        BelowBlock(b1, c.b, x);
        assert a.blocks[x] == PieceBlock(pieces[0], x);
      } else {
        assert a.blocks[x] == PieceBlock(pieces[1], x);
      }
    }
    assert forall v :: NewTempOf(b, a, v) ==>
        NewTempOf(pieces[0].b, pieces[0].a, v) || NewTempOf(pieces[1].b, pieces[1].a, v);
  }

  lemma VarGlue(b: Build, before: Option<Part>, c: Code, name: Text, x: nat, node: Node)
    requires Glue(VarPieces(b, before, c, name), map[], x, node)
    ensures node == Jump(c.enter) || (x == c.exit && node == Plain(Do(Store(name, c.v))))
  {
  }

  lemma VarPolite(b: Build, before: Option<Part>, c: Code, name: Text)
    requires VarShaped(b, before, c) && c.exit < |c.b.blocks| && (before.Some? ==> before.value.exit < |c.b.blocks|)
    ensures var p, pieces := VarPart(before, c, name), VarPieces(b, before, c, name);
      Polite(b, p.b, p.enter, p.exit, None, pieces, map[]) && Mergeless(pieces, map[])
  {
    hide Region, HandsOff, Glue, Assembled, Covered;
    VarAssembled(b, before, c, name);
    var pieces := VarPieces(b, before, c, name);
    forall x: nat, node: Node | Glue(pieces, map[], x, node) ensures node.Plain? ==> !node.item.Merge? {
      VarGlue(b, before, c, name, x, node);
    }
    forall j | 0 <= j < 2 ensures GlueKeepsOff(pieces, map[], pieces[j]) {
      forall x: nat, node: Node | Glue(pieces, map[], x, node)
        ensures HandsOff(pieces[j].b, pieces[j].a, pieces[j].result, node)
        ensures forall t :: t in Targets(node) && NewBlockOf(pieces[j].b, pieces[j].a, t) ==> t == pieces[j].enter
      {
        VarGlue(b, before, c, name, x, node);
        JumpHandsOff(pieces[j].b, pieces[j].a, pieces[j].result, c.enter);
        OpHandsOff(pieces[j].b, pieces[j].a, pieces[j].result, Store(name, c.v));
      }
    }
  }

  lemma VarLeads(b: Build, before: Option<Part>, c: Code, name: Text, g: Graph, Ls: seq<map<nat, Life>>,
      Fs: seq<map<nat, Fork>>)
    requires VarShaped(b, before, c) && c.exit < |c.b.blocks| && (before.Some? ==> before.value.exit < |c.b.blocks|)
    requires |Ls| == |Fs| == 2
    ensures AllLeadOut(b, VarPart(before, c, name).b, VarPieces(b, before, c, name), map[], g,
        Parts(Ls, Fs, [{}, {}], map[], map[]))
  {
    hide Region, Glue;
    var pieces := VarPieces(b, before, c, name);
    forall x: nat, node: Node | Glue(pieces, map[], x, node) && c.v in NodeReads(node) ensures x == c.exit {
      VarGlue(b, before, c, name, x, node);
    }
  }

  lemma {:induction false} VarScoped(b: Build, ds: seq<Declarator>, g: Graph, entry: nat)
      returns (lives: map<nat, Life>, forks: map<nat, Fork>)
    requires GenDeclarators(b, ds).Some? && HostsPart(b, GenDeclarators(b, ds).value, g, entry)
    ensures PartScoped(b, GenDeclarators(b, ds).value, g, entry, lives, forks)
    decreases |ds|
  {
    hide Hosts, Region, Polite, AllLeadOut, Covered, Mergeless, ScopedPart, GenExpr;
    var dcl, before := ds[|ds|-1], GenDeclarators(b, ds[..|ds|-1]);
    if dcl.init.None? {
      lives, forks := VarScoped(b, ds[..|ds|-1], g, entry);
    } else {
      var b1 := if before.Some? then before.value.b else b;
      var c := GenExpr(b1, dcl.init.value);
      ExprShaped(b1, dcl.init.value);
      if before.Some? { DeclaratorsRegion(b, ds[..|ds|-1], {}); }
      VarSizes(b, before, c);
      VarPolite(b, before, c, dcl.name);
      VarAssembled(b, before, c, dcl.name);
      var p, pieces := VarPart(before, c, dcl.name), VarPieces(b, before, c, dcl.name);
      PartHosted(b, p.b, p.enter, p.exit, None, pieces, map[], g, entry, 1);
      var L, F := ExprScoped(b1, dcl.init.value, g, entry);
      var L0: map<nat, Life>, F0: map<nat, Fork> := map[], map[];
      if before.Some? {
        PartHosted(b, p.b, p.enter, p.exit, None, pieces, map[], g, entry, 0);
        L0, F0 := VarScoped(b, ds[..|ds|-1], g, entry);
      } else {
        NoPieceScoped(g, entry, b);
      }
      VarLeads(b, before, c, dcl.name, g, [L0, L], [F0, F]);
      lives, forks := StmtWhole(b, p, pieces, map[], g, entry, [L0, L], [F0, F], [{}, {}]);
    }
  }

  // ----- statements -----

  lemma EmptyScoped(b: Build, g: Graph, entry: nat) returns (lives: map<nat, Life>, forks: map<nat, Fork>)
    requires HostsPart(b, Part(NewBlock(b), |b.blocks|, |b.blocks|), g, entry)
    ensures PartScoped(b, Part(NewBlock(b), |b.blocks|, |b.blocks|), g, entry, lives, forks)
  {
    lives, forks := LeafScoped(b, Part(NewBlock(b), |b.blocks|, |b.blocks|), map[|b.blocks| := []], g, entry);
  }

  lemma LeapScoped(b: Build, dest: nat, g: Graph, entry: nat) returns (lives: map<nat, Life>, forks: map<nat, Fork>)
    requires HostsPart(b, GenLeap(b, dest), g, entry)
    ensures PartScoped(b, GenLeap(b, dest), g, entry, lives, forks)
  {
    hide Hosts, ScopedPart;
    lives, forks := LeafScoped(b, GenLeap(b, dest), map[|b.blocks| := [Jump(dest)], |b.blocks| + 1 := []], g, entry);
  }

  lemma {:induction false} StmtScoped(b: Build, st: Stmt, bps: seq<Points>, g: Graph, entry: nat)
      returns (lives: map<nat, Life>, forks: map<nat, Fork>)
    requires Looped(st, bps != []) && PointsBelow(b, bps) && HostsPart(b, GenStmt(b, st, bps), g, entry)
    ensures PartScoped(b, GenStmt(b, st, bps), g, entry, lives, forks)
    decreases st, 2
  {
    hide HostsPart, PartScoped, GenAll, GenExpr, GenUse, GenIf, GenWhile, GenDo, GenFor, GenDeclarators, GenLeap;
    match st
    case Empty => lives, forks := EmptyScoped(b, g, entry);
    case Block(body) => lives, forks := AllScoped(b, body, bps, g, entry);
    case Eval(e) => lives, forks := EvalScoped(b, e, g, entry);
    case Inspect(e) => lives, forks := UseScoped(b, e, InspectIt, g, entry);
    case Return(e) => lives, forks := UseScoped(b, e, ReturnIt, g, entry);
    case Break => lives, forks := LeapScoped(b, bps[|bps|-1].brk, g, entry);
    case Continue => lives, forks := LeapScoped(b, bps[|bps|-1].cont, g, entry);
    case If(_, _, _) => lives, forks := IfScoped(b, st, bps, g, entry);
    case While(test, loop) => lives, forks := WhileScoped(b, test, loop, bps, g, entry);
    case DoWhile(loop, test) => lives, forks := DoScoped(b, loop, test, bps, g, entry);
    case For(init, check, update, loop) => lives, forks := ForScoped(b, init, check, update, loop, bps, g, entry);
    case Var(ds) =>
      if GenDeclarators(b, ds).Some? {
        lives, forks := VarScoped(b, ds, g, entry);
      } else {
        lives, forks := EmptyScoped(b, g, entry);
      }
  }

  /** A list of statements, without the empty block it starts from. */
  lemma {:induction false} ListScoped(b: Build, body: seq<Stmt>, bps: seq<Points>, g: Graph, entry: nat)
      returns (lives: map<nat, Life>, forks: map<nat, Fork>)
    requires (forall i :: 0 <= i < |body| ==> Looped(body[i], bps != [])) && PointsBelow(b, bps) && body != []
    requires var p := GenAll(b, body, bps); HostsPart(NewBlock(b), Part(p.b, ListEnter(b, body, bps), p.exit), g, entry)
    ensures var p := GenAll(b, body, bps);
        PartScoped(NewBlock(b), Part(p.b, ListEnter(b, body, bps), p.exit), g, entry, lives, forks)
    decreases body, 0
  {
    hide Hosts, Region, Polite, AllLeadOut, Covered, Mergeless, ScopedPart, GenStmt;
    var last := |body| - 1;
    var before, enter := GenAll(b, body[..last], bps), ListEnter(b, body[..last], bps);
    var q := GenStmt(before.b, body[last], bps);
    ListIsShaped(b, body[..last], bps);
    StmtShaped(before.b, body[last], bps);
    ListExit(b, last == 0, before, enter, bps);
    ListPolite(b, last == 0, before, enter, q, bps);
    var p, pieces := Part(Link(q.b, before.exit, q.enter), if last == 0 then q.enter else enter, q.exit),
        ListPieces(b, last == 0, before, enter, q, bps);
    PartHosted(NewBlock(b), p.b, p.enter, p.exit, None, pieces, map[], g, entry, 1);
    var L, F := StmtScoped(before.b, body[last], bps, g, entry);
    var L0: map<nat, Life>, F0: map<nat, Fork> := map[], map[];
    if last > 0 {
      PartHosted(NewBlock(b), p.b, p.enter, p.exit, None, pieces, map[], g, entry, 0);
      L0, F0 := ListScoped(b, body[..last], bps, g, entry);
    } else {
      NoPieceScoped(g, entry, NewBlock(b));
    }
    NoResultsLead(NewBlock(b), p.b, pieces, map[], g, [L0, L], [F0, F], [{}, {}]);
    lives, forks := StmtWhole(NewBlock(b), p, pieces, map[], g, entry, [L0, L], [F0, F], [{}, {}]);
  }

  lemma ListExit(b: Build, empty: bool, before: Part, enter: nat, bps: seq<Points>)
    requires ListShaped(b, empty, before, enter, bps)
    ensures if empty then before.exit == |b.blocks| else |b.blocks| < before.exit < |before.b.blocks|
  {
    if !empty { InRegion(NewBlock(b), before.b, {before.exit}, PointsOf(bps), before.exit); }
  }

  lemma NoResultsLead(b: Build, a: Build, pieces: seq<Piece>, own: map<nat, Block>, g: Graph,
                      Ls: seq<map<nat, Life>>, Fs: seq<map<nat, Fork>>, extras: seq<set<nat>>)
    requires |Ls| == |Fs| == |extras| == |pieces| && forall j :: 0 <= j < |pieces| ==> pieces[j].result.None?
    ensures AllLeadOut(b, a, pieces, own, g, Parts(Ls, Fs, extras, map[], map[]))
  {
  }

  lemma {:induction false} AllScoped(b: Build, body: seq<Stmt>, bps: seq<Points>, g: Graph, entry: nat)
      returns (lives: map<nat, Life>, forks: map<nat, Fork>)
    requires (forall i :: 0 <= i < |body| ==> Looped(body[i], bps != [])) && PointsBelow(b, bps)
    requires HostsPart(b, GenAll(b, body, bps), g, entry)
    ensures PartScoped(b, GenAll(b, body, bps), g, entry, lives, forks)
    decreases body, 1
  {
    hide Hosts, Region, Polite, AllLeadOut, Covered, Mergeless, ScopedPart, GenStmt, ListShaped;
    if body == [] {
      lives, forks := EmptyScoped(b, g, entry);
    } else {
      var p, enter := GenAll(b, body, bps), ListEnter(b, body, bps);
      ListIsShaped(b, body, bps);
      ListBase(b, body, bps);
      var pieces, own := [ListPiece(b, false, p, enter, bps, [])], map[|b.blocks| := [Jump(enter)]];
      WholeListPolite(b, p, enter, bps);
      PartHosted(b, p.b, p.enter, p.exit, None, pieces, own, g, entry, 0);
      var L, F := ListScoped(b, body, bps, g, entry);
      NoResultsLead(b, p.b, pieces, own, g, [L], [F], [{}]);
      lives, forks := StmtWhole(b, p, pieces, own, g, entry, [L], [F], [{}]);
    }
  }

  /** The block a list starts from leads to its first statement. */
  lemma {:induction false} ListBase(b: Build, body: seq<Stmt>, bps: seq<Points>)
    requires (forall i :: 0 <= i < |body| ==> Looped(body[i], bps != [])) && body != []
    ensures var p := GenAll(b, body, bps);
      p.enter == |b.blocks| < |p.b.blocks| && p.b.blocks[|b.blocks|] == [Jump(ListEnter(b, body, bps))] &&
          p.exit > |b.blocks|
    decreases |body|
  {
    hide GenStmt;
    var last := |body| - 1;
    var before := GenAll(b, body[..last], bps);
    StmtAbove(before.b, body[last], bps);
    BelowBlock(before.b, GenStmt(before.b, body[last], bps).b, |b.blocks|);
    if last > 0 { ListBase(b, body[..last], bps); }
  }

  lemma WholeListPolite(b: Build, p: Part, enter: nat, bps: seq<Points>)
    requires ListShaped(b, false, p, enter, bps) && PointsBelow(b, bps)
    requires p.enter == |b.blocks| < p.exit && p.b.blocks[|b.blocks|] == [Jump(enter)]
    ensures var pieces, own := [ListPiece(b, false, p, enter, bps, [])], map[|b.blocks| := [Jump(enter)]];
      Polite(b, p.b, p.enter, p.exit, None, pieces, own) && Mergeless(pieces, own) && Covered(b, p.b, pieces)
  {
    hide Region, HandsOff;
    var pieces, own := [ListPiece(b, false, p, enter, bps, [])], map[|b.blocks| := [Jump(enter)]];
    forall x: nat | NewBlockOf(b, p.b, x) ensures Placed(pieces, own, x, p.b.blocks[x]) {
      if x > |b.blocks| { assert p.b.blocks[x] == PieceBlock(pieces[0], x); }
    }
    assert Assembled(b, p.b, pieces, own);
    JumpHandsOff(pieces[0].b, pieces[0].a, None, enter);
    assert forall v :: NewTempOf(b, p.b, v) ==> NewTempOf(pieces[0].b, pieces[0].a, v);
  }

  lemma {:induction false} IfScoped(b: Build, st: Stmt, bps: seq<Points>, g: Graph, entry: nat)
      returns (lives: map<nat, Life>, forks: map<nat, Fork>)
    requires st.If? && Looped(st, bps != []) && PointsBelow(b, bps) && HostsPart(b, GenIf(b, st, bps), g, entry)
    ensures PartScoped(b, GenIf(b, st, bps), g, entry, lives, forks)
    decreases st, 1
  {
    hide Hosts, Region, Polite, AllLeadOut, Covered, Mergeless, ScopedPart, GenStmt, GenExpr, Blocks, IfReady;
    var fork, merge := |b.blocks|, |b.blocks| + 1;
    var t, y, last, onFalse := IfParts(b, st, bps);
    IfIsReady(b, st, bps, t, y, last, onFalse);
    var p, pieces, own := IfPart(b, t, y, last, onFalse), IfPieces(b, st, bps, t, y, last), IfOwn(b, t, y, onFalse);
    IfPolite(b, st, bps, t, y, last, onFalse);
    IfAssembled(b, st, bps, t, y, last, onFalse);
    PartHosted(b, p.b, p.enter, p.exit, None, pieces, own, g, entry, 0);
    PartHosted(b, p.b, p.enter, p.exit, None, pieces, own, g, entry, 1);
    BlocksAbove(b, 2);
    var Lt, Ft := ExprScoped(Blocks(b, 2), st.test, g, entry);
    var Ly, Fy := StmtScoped(Link(t.b, t.exit, fork), st.consequent, bps, g, entry);
    var Ln: map<nat, Life>, Fn: map<nat, Fork> := map[], map[];
    if st.alternate.Some? {
      PartHosted(b, p.b, p.enter, p.exit, None, pieces, own, g, entry, 2);
      StmtAbove(Link(t.b, t.exit, fork), st.consequent, bps);
      Ln, Fn := StmtScoped(Link(y.b, y.exit, merge), st.alternate.value, bps, g, entry);
    } else {
      NoPieceScoped(g, entry, y.b);
    }
    IfLeads(b, st, bps, t, y, last, onFalse, g, entry, [Lt, Ly, Ln], [Ft, Fy, Fn]);
    lives, forks := StmtWhole(b, p, pieces, own, g, entry, [Lt, Ly, Ln], [Ft, Fy, Fn], [{fork}, {}, {}]);
  }

  lemma {:induction false} WhileScoped(b: Build, test: Expr, loop: Stmt, bps: seq<Points>, g: Graph, entry: nat)
      returns (lives: map<nat, Life>, forks: map<nat, Fork>)
    requires Looped(loop, true) && HostsPart(b, GenWhile(b, test, loop, bps), g, entry)
    ensures PartScoped(b, GenWhile(b, test, loop, bps), g, entry, lives, forks)
    decreases loop, 3
  {
    hide Hosts, Region, Polite, AllLeadOut, Covered, Mergeless, ScopedPart, GenStmt, GenExpr, Blocks, WhileReady,
        GenWhile, PointsOf;
    var t, y := WhileParts(b, test, loop, bps);
    WhileIsReady(b, test, loop, bps, t, y);
    WhileSizes(b, t, y, bps);
    var p, pieces, own := JoinWhile(b, t, y), WhilePieces(b, t, y, bps), WhileOwn(b, t, y);
    WhilePolite(b, t, y, bps);
    WhileAssembled(b, t, y, bps);
    PartHosted(b, p.b, p.enter, p.exit, None, pieces, own, g, entry, 0);
    PartHosted(b, p.b, p.enter, p.exit, None, pieces, own, g, entry, 1);
    var Lt, Ft := ExprScoped(Blocks(b, 4), test, g, entry);
    LoopPointsAre(bps, |b.blocks| + 3, |b.blocks|);
    var Ly, Fy := StmtScoped(Link(Link(t.b, |b.blocks|, t.enter), t.exit, |b.blocks| + 1), loop,
        LoopAround(bps, |b.blocks| + 3, |b.blocks|), g, entry);
    WhileLeads(b, t, y, bps, g, entry, [Lt, Ly], [Ft, Fy]);
    lives, forks := StmtWhole(b, p, pieces, own, g, entry, [Lt, Ly], [Ft, Fy], [{|b.blocks| + 1}, {}]);
  }

  lemma {:induction false} DoScoped(b: Build, loop: Stmt, test: Expr, bps: seq<Points>, g: Graph, entry: nat)
      returns (lives: map<nat, Life>, forks: map<nat, Fork>)
    requires Looped(loop, true) && HostsPart(b, GenDo(b, loop, test, bps), g, entry)
    ensures PartScoped(b, GenDo(b, loop, test, bps), g, entry, lives, forks)
    decreases loop, 3
  {
    hide Hosts, Region, Polite, AllLeadOut, Covered, Mergeless, ScopedPart, GenStmt, GenExpr, Blocks, DoReady, GenDo,
        PointsOf;
    var y, t := DoParts(b, loop, test, bps);
    DoIsReady(b, loop, test, bps, y, t);
    DoSizes(b, y, t, bps);
    var p, pieces, own := JoinDo(b, y, t), DoPieces(b, y, t, bps), DoOwn(b, y, t);
    DoPolite(b, y, t, bps);
    DoAssembled(b, y, t, bps);
    PartHosted(b, p.b, p.enter, p.exit, None, pieces, own, g, entry, 0);
    PartHosted(b, p.b, p.enter, p.exit, None, pieces, own, g, entry, 1);
    LoopPointsAre(bps, |b.blocks| + 2, |b.blocks| + 2);
    BlocksAbove(b, 3);
    var Ly, Fy := StmtScoped(Blocks(b, 3), loop, LoopAround(bps, |b.blocks| + 2, |b.blocks| + 2), g, entry);
    var Lt, Ft := ExprScoped(Link(y.b, |b.blocks|, y.enter), test, g, entry);
    DoLeads(b, y, t, bps, g, entry, [Ly, Lt], [Fy, Ft]);
    lives, forks := StmtWhole(b, p, pieces, own, g, entry, [Ly, Lt], [Fy, Ft], [{}, {|b.blocks| + 1}]);
  }

  /** An expression that may be missing. */
  lemma OptionalScoped(b: Build, e: Option<Expr>, tail: Block, g: Graph, entry: nat)
      returns (lives: map<nat, Life>, forks: map<nat, Fork>)
    requires HostsPiece(OptionalPiece(b, e, tail), g, entry)
    ensures var p := OptionalPiece(b, e, tail); ScopedPart(g, entry, p.b, p.a, p.exit, p.result, lives, forks)
  {
    hide Hosts, ScopedPart, GenExpr;
    if e.Some? {
      lives, forks := ExprScoped(b, e.value, g, entry);
    } else {
      lives, forks := map[], map[];
      NoPieceScoped(g, entry, b);
    }
  }

  lemma {:induction false} ForScoped(b: Build, init: Option<Expr>, check: Option<Expr>, update: Option<Expr>,
      loop: Stmt, bps: seq<Points>, g: Graph, entry: nat)
    returns (lives: map<nat, Life>, forks: map<nat, Fork>)
    requires Looped(loop, true) && HostsPart(b, GenFor(b, init, check, update, loop, bps), g, entry)
    ensures PartScoped(b, GenFor(b, init, check, update, loop, bps), g, entry, lives, forks)
    decreases loop, 3
  {
    hide Hosts, Region, Polite, AllLeadOut, Covered, Mergeless, ScopedPart, GenStmt, GenExpr, Blocks, ForReady, GenFor,
        PointsOf, GenStep, GenCheck, OptionalPiece, CheckBase, ForOwn;
    var start, test, step, merge := |b.blocks|, |b.blocks| + 1, |b.blocks| + 2, |b.blocks| + 3;
    var i, y, c := ForParts(b, init, check, update, loop, bps);
    ForIsReady(b, init, check, update, loop, bps, i, y, c);
    ForEmpties(b, init, check, update, bps, i, y, c);
    var p, pieces, own := ForPart(b, update, c), ForPieces(b, init, check, update, bps, i, y, c),
        ForOwn(b, init, check, update, y, c);
    var l := Link(y.b, y.exit, step);
    ForPolite(b, init, check, update, bps, i, y, c);
    ForCovered(b, init, check, update, bps, i, y, c);
    PartHosted(b, p.b, p.enter, p.exit, None, pieces, own, g, entry, 0);
    PartHosted(b, p.b, p.enter, p.exit, None, pieces, own, g, entry, 1);
    PartHosted(b, p.b, p.enter, p.exit, None, pieces, own, g, entry, 2);
    PartHosted(b, p.b, p.enter, p.exit, None, pieces, own, g, entry, 3);
    var Li, Fi := OptionalScoped(Blocks(b, 4), init, [Jump(test)], g, entry);
    LoopPointsAre(bps, merge, test);
    var Ly, Fy := StmtScoped(i, loop, LoopAround(bps, merge, test), g, entry);
    var Lc, Fc := OptionalScoped(CheckBase(l, check), check, [Jump(|l.blocks|)], g, entry);
    var Lu, Fu := OptionalScoped(c, update, [Jump(test)], g, entry);
    var Ls, Fs := [Li, Ly, Lc, Lu], [Fi, Fy, Fc, Fu];
    ForLeads(b, init, check, update, bps, i, y, c, g, entry, Ls, Fs);
    lives, forks := StmtWhole(b, p, pieces, own, g, entry, Ls, Fs, [{}, {}, if check.Some? then {|y.b.blocks|} else {},
        {}]);
  }
}
