/** The graphs that C0 builds are scoped: statements. */
module C0ScopeStmt {
  import opened Ir
  import opened Cfg
  import opened Ast
  import opened C0
  import opened C0Run
  import opened C0Stmt
  import opened C0Shape
  import opened Scope
  import opened Assembly
  import opened C0Scope

  ghost predicate HostsPart(b: Build, p: Part, g: Graph, entry: nat) { Hosts(b, p.b, p.enter, p.exit, None, g, entry) }

  ghost predicate PartScoped(b: Build, p: Part, g: Graph, entry: nat, lives: map<nat, Life>, forks: map<nat, Fork>) {
    ScopedPart(g, entry, b, p.b, p.exit, None, lives, forks)
  }

  ghost predicate PartShaped(b: Build, p: Part, bps: seq<Points>) {
    PartAbove(b, p) && Region(b, p.b, {p.exit}, PointsOf(bps))
  }

  lemma StmtShaped(b: Build, st: Stmt, bps: seq<Points>)
    requires Looped(st, bps != [])
    ensures PartShaped(b, GenStmt(b, st, bps), bps)
  {
    StmtRegion(b, st, bps);
  }

  /** A statement as a piece, and a piece that is missing. */
  function PartPiece(b: Build, p: Part, bps: seq<Points>, tail: Block): Piece {
    Piece(b, p.b, p.enter, p.exit, None, PointsOf(bps), tail)
  }

  function NoPiece(b: Build): Piece { Piece(b, b, 0, 0, None, {}, []) }

  lemma NoPieceScoped(g: Graph, entry: nat, b: Build)
    ensures ScopedPart(g, entry, b, b, 0, None, map[], map[])
  {
  }

  ghost predicate Covered(b: Build, a: Build, pieces: seq<Piece>) {
    forall v :: NewTempOf(b, a, v) ==> exists j :: 0 <= j < |pieces| && NewTempOf(pieces[j].b, pieces[j].a, v)
  }

  ghost predicate Mergeless(pieces: seq<Piece>, own: map<nat, Block>) {
    forall x: nat, node: Node :: Glue(pieces, own, x, node) ==> !(node.Plain? && node.item.Merge?)
  }

  /** A statement adds no temporaries and no merges of its own. */
  lemma StmtWhole(b: Build, p: Part, pieces: seq<Piece>, own: map<nat, Block>, g: Graph, entry: nat,
                  Ls: seq<map<nat, Life>>, Fs: seq<map<nat, Fork>>, extras: seq<set<nat>>)
    returns (lives: map<nat, Life>, forks: map<nat, Fork>)
    requires Polite(b, p.b, p.enter, p.exit, None, pieces, own) && HostsPart(b, p, g, entry)
    requires var q := Parts(Ls, Fs, extras, map[], map[]);
      PartsScoped(pieces, g, entry, q) && AllLeadOut(b, p.b, pieces, own, g, q)
    requires Covered(b, p.b, pieces) && Mergeless(pieces, own)
    ensures PartScoped(b, p, g, entry, lives, forks)
  {
    hide Polite, Hosts, PartsScoped, AllLeadOut, Glue, ScopedPart, WholeLives, WholeForks, GlueMerges;
    var q := Parts(Ls, Fs, extras, map[], map[]);
    assert Sized(pieces, q) by { PartsAreSized(pieces, g, entry, q); }
    assert OwnScoped(b, p.b, pieces, own, g, entry, q);
    lives, forks := WholeLives(pieces, q), WholeForks(pieces, q);
    NoMerges(pieces, own, g, entry, b, p.b, lives, forks);
    WholeScoped(b, p.b, p.enter, p.exit, None, pieces, own, g, entry, q);
  }

  lemma PartsAreSized(pieces: seq<Piece>, g: Graph, entry: nat, q: Parts)
    requires PartsScoped(pieces, g, entry, q)
    ensures Sized(pieces, q)
  {
  }

  /** A construct without parts. */
  lemma LeafScoped(b: Build, p: Part, own: map<nat, Block>, g: Graph, entry: nat)
      returns (lives: map<nat, Life>, forks: map<nat, Fork>)
    requires HostsPart(b, p, g, entry) && |b.blocks| <= |p.b.blocks| && p.b.vars == b.vars
    requires forall x: nat :: x in own <==> NewBlockOf(b, p.b, x)
    requires forall x :: x in own ==> own[x] == p.b.blocks[x]
    requires forall x, i :: x in own && 0 <= i < |own[x]| ==> own[x][i].Jump?
    ensures PartScoped(b, p, g, entry, lives, forks)
  {
    hide Hosts, ScopedPart;
    forall x: nat | NewBlockOf(b, p.b, x) ensures Placed([], own, x, p.b.blocks[x]) {}
    assert Polite(b, p.b, p.enter, p.exit, None, [], own);
    lives, forks := StmtWhole(b, p, [], own, g, entry, [], [], []);
  }

  // ----- one expression and one more node -----

  function UsePieces(b: Build, c: Code): seq<Piece> { [PieceOf(NewBlock(b), c, [Jump(|b.blocks|)])] }

  function UseOwn(b: Build, c: Code, use: nat -> Item<Text>): map<nat, Block> { map[|b.blocks| := [Plain(use(c.v))]] }

  ghost predicate UseOf(b: Build, c: Code, use: nat -> Item<Text>) {
    CodeShaped(NewBlock(b), c) && (use == InspectIt || use == ReturnIt)
  }

  function UsePart(b: Build, c: Code, use: nat -> Item<Text>): Part
    requires |b.blocks| < |c.b.blocks| && c.exit < |c.b.blocks|
  {
    Part(Push(Link(c.b, c.exit, |b.blocks|), |b.blocks|, Plain(use(c.v))), c.enter, |b.blocks|)
  }

  lemma UseSizes(b: Build, c: Code)
    requires CodeShaped(NewBlock(b), c)
    ensures |b.blocks| < c.exit < |c.b.blocks| && |b.blocks| < c.enter < |c.b.blocks| && b.vars <= c.v < c.b.vars
    ensures c.b.blocks[|b.blocks|] == []
  {
    BelowBlock(NewBlock(b), c.b, |b.blocks|);
  }

  lemma UsePolite(b: Build, c: Code, use: nat -> Item<Text>)
    requires UseOf(b, c, use) && |b.blocks| < |c.b.blocks| && c.exit < |c.b.blocks|
    ensures var p := UsePart(b, c, use);
      Polite(b, p.b, p.enter, p.exit, None, UsePieces(b, c), UseOwn(b, c, use)) &&
          Mergeless(UsePieces(b, c), UseOwn(b, c, use))
    ensures Covered(b, UsePart(b, c, use).b, UsePieces(b, c))
  {
    hide Region, HandsOff;
    UseSizes(b, c);
    var p, pieces, own := UsePart(b, c, use), UsePieces(b, c), UseOwn(b, c, use);
    forall x: nat | NewBlockOf(b, p.b, x) ensures Placed(pieces, own, x, p.b.blocks[x]) {
      if x != |b.blocks| { assert p.b.blocks[x] == PieceBlock(pieces[0], x); }
    }
    assert Assembled(b, p.b, pieces, own);
    forall x: nat, node: Node | Glue(pieces, own, x, node)
      ensures HandsOff(NewBlock(b), c.b, Some(c.v), node)
      ensures forall t :: t in Targets(node) && NewBlockOf(NewBlock(b), c.b, t) ==> t == c.enter
      ensures !(node.Plain? && node.item.Merge?)
    {
      PlainHandsOff(NewBlock(b), c.b, Some(c.v), c.b.vars, |b.blocks|);
      UseHandsOff(NewBlock(b), c.b, c.v);
    }
    assert forall v :: NewTempOf(b, p.b, v) ==> NewTempOf(pieces[0].b, pieces[0].a, v);
  }

  lemma UseHandsOff(b: Build, a: Build, v: nat)
    ensures HandsOff(b, a, Some(v), Plain(InspectIt(v))) && HandsOff(b, a, Some(v), Plain(ReturnIt(v)))
  {
  }

  lemma UseLeads(b: Build, c: Code, use: nat -> Item<Text>, g: Graph, entry: nat, lives: map<nat, Life>,
      forks: map<nat, Fork>)
    requires UseOf(b, c, use) && |b.blocks| < |c.b.blocks| && c.exit < |c.b.blocks| &&
        HostsPart(b, UsePart(b, c, use), g, entry)
    ensures AllLeadOut(b, UsePart(b, c, use).b, UsePieces(b, c), UseOwn(b, c, use), g,
        Parts([lives], [forks], [{|b.blocks|}], map[], map[]))
  {
    hide Hosts, Region, Assembled;
    UseSizes(b, c);
    UsePolite(b, c, use);
    var p, pieces, own := UsePart(b, c, use), UsePieces(b, c), UseOwn(b, c, use);
    var o := |b.blocks|;
    forall q: nat, x: nat | x in {o} && Edge(g, q, x) ensures q in {o} || q == c.exit {
      Led(b, p.b, p.enter, p.exit, None, pieces, own, x, g, entry, q);
    }
  }

  lemma UseScoped(b: Build, e: Expr, use: nat -> Item<Text>, g: Graph, entry: nat)
      returns (lives: map<nat, Life>, forks: map<nat, Fork>)
    requires (use == InspectIt || use == ReturnIt) && HostsPart(b, GenUse(b, e, use), g, entry)
    ensures PartScoped(b, GenUse(b, e, use), g, entry, lives, forks)
  {
    hide Hosts, Region, Polite, AllLeadOut, Covered, Mergeless, ScopedPart, GenExpr;
    var c := GenExpr(NewBlock(b), e);
    ExprShaped(NewBlock(b), e);
    UseSizes(b, c);
    UsePolite(b, c, use);
    var p := UsePart(b, c, use);
    PartHosted(b, p.b, p.enter, p.exit, None, UsePieces(b, c), UseOwn(b, c, use), g, entry, 0);
    var L, F := ExprScoped(NewBlock(b), e, g, entry);
    UseLeads(b, c, use, g, entry, L, F);
    lives, forks := StmtWhole(b, p, UsePieces(b, c), UseOwn(b, c, use), g, entry, [L], [F], [{|b.blocks|}]);
  }

  // ----- an expression as a statement -----

  lemma EvalPolite(b: Build, c: Code)
    requires CodeShaped(b, c)
    ensures Polite(b, c.b, c.enter, c.exit, None, [PieceOf(b, c, [])], map[]) && Mergeless([PieceOf(b, c, [])], map[])
    ensures Covered(b, c.b, [PieceOf(b, c, [])])
  {
    hide Region, HandsOff;
    var pieces := [PieceOf(b, c, [])];
    forall x: nat | NewBlockOf(b, c.b, x) ensures Placed(pieces, map[], x, c.b.blocks[x]) {
      assert c.b.blocks[x] == PieceBlock(pieces[0], x);
    }
    assert forall v :: NewTempOf(b, c.b, v) ==> NewTempOf(pieces[0].b, pieces[0].a, v);
  }

  lemma EvalScoped(b: Build, e: Expr, g: Graph, entry: nat) returns (lives: map<nat, Life>, forks: map<nat, Fork>)
    requires var c := GenExpr(b, e); HostsPart(b, Part(c.b, c.enter, c.exit), g, entry)
    ensures var c := GenExpr(b, e); PartScoped(b, Part(c.b, c.enter, c.exit), g, entry, lives, forks)
  {
    hide Hosts, Region, Polite, Covered, Mergeless, ScopedPart, GenExpr;
    var c := GenExpr(b, e);
    ExprShaped(b, e);
    EvalPolite(b, c);
    var pieces := [PieceOf(b, c, [])];
    PartHosted(b, c.b, c.enter, c.exit, None, pieces, map[], g, entry, 0);
    var L, F := ExprScoped(b, e, g, entry);
    lives, forks := StmtWhole(b, Part(c.b, c.enter, c.exit), pieces, map[], g, entry, [L], [F], [{}]);
  }

  /** The points of the loops around are not among the blocks built from here on. */
  ghost predicate PointsBelow(b: Build, bps: seq<Points>) {
    forall t :: t in PointsOf(bps) ==> t < |b.blocks|
  }

  // ----- if -----

  function IfPieces(b: Build, st: Stmt, bps: seq<Points>, t: Code, y: Part, last: Part): seq<Piece>
    requires st.If? && t.exit < |t.b.blocks| && y.exit < |y.b.blocks|
  {
    var fork, merge := |b.blocks|, |b.blocks| + 1;
    [PieceOf(Blocks(b, 2), t, [Jump(fork)]), PartPiece(Link(t.b, t.exit, fork), y, bps, [Jump(merge)]),
     if st.alternate.Some? then PartPiece(Link(y.b, y.exit, merge), last, bps, [Jump(merge)]) else NoPiece(y.b)]
  }

  function IfOwn(b: Build, t: Code, y: Part, onFalse: nat): map<nat, Block> {
    map[|b.blocks| := [Branch(t.v, y.enter, onFalse)], |b.blocks| + 1 := []]
  }

  function IfPart(b: Build, t: Code, y: Part, last: Part, onFalse: nat): Part
    requires |b.blocks| + 1 < |last.b.blocks| && last.exit < |last.b.blocks|
  {
    Part(Push(Link(last.b, last.exit, |b.blocks| + 1), |b.blocks|, Branch(t.v, y.enter, onFalse)), t.enter,
        |b.blocks| + 1)
  }

  ghost predicate IfReady(b: Build, st: Stmt, bps: seq<Points>, t: Code, y: Part, last: Part, onFalse: nat) {
    var fork, merge := |b.blocks|, |b.blocks| + 1;
    && st.If? && PointsBelow(b, bps)
    && |Blocks(b, 2).blocks| == |b.blocks| + 2 && Blocks(b, 2).vars == b.vars
    && CodeShaped(Blocks(b, 2), t) && |b.blocks| + 2 <= t.enter < |t.b.blocks| &&
        |b.blocks| + 2 <= t.exit < |t.b.blocks|
    && PartShaped(Link(t.b, t.exit, fork), y, bps) && |t.b.blocks| <= y.enter < |y.b.blocks| &&
        |t.b.blocks| <= y.exit < |y.b.blocks|
    && (if st.alternate.Some? then
          PartShaped(Link(y.b, y.exit, merge), last, bps) && |y.b.blocks| <= last.exit < |last.b.blocks| &&
              onFalse == last.enter
        else last == y && onFalse == merge)
    && last.b.blocks[fork] == [] && last.b.blocks[merge] == []
  }

  lemma IfIsReady(b: Build, st: Stmt, bps: seq<Points>, t: Code, y: Part, last: Part, onFalse: nat)
    requires st.If? && Looped(st, bps != []) && IfIs(b, st, bps, t, y, last, onFalse) && PointsBelow(b, bps)
    ensures IfReady(b, st, bps, t, y, last, onFalse)
  {
    hide Region, GenStmt, GenExpr;
    var fork, merge := |b.blocks|, |b.blocks| + 1;
    BlocksAbove(b, 2);
    ExprShaped(Blocks(b, 2), st.test);
    StmtShaped(Link(t.b, t.exit, fork), st.consequent, bps);
    EmptyBlocks(b, 2, t.b, fork);
    EmptyBlocks(b, 2, t.b, merge);
    BelowBlock(Link(t.b, t.exit, fork), y.b, fork);
    BelowBlock(Link(t.b, t.exit, fork), y.b, merge);
    if st.alternate.Some? {
      StmtShaped(Link(y.b, y.exit, merge), st.alternate.value, bps);
      BelowBlock(Link(y.b, y.exit, merge), last.b, fork);
      BelowBlock(Link(y.b, y.exit, merge), last.b, merge);
    }
  }

  lemma IfPlaced(b: Build, st: Stmt, bps: seq<Points>, t: Code, y: Part, last: Part, onFalse: nat, x: nat)
    requires IfReady(b, st, bps, t, y, last, onFalse) && |b.blocks| + 1 < |last.b.blocks| && last.exit < |last.b.blocks|
    requires NewBlockOf(b, IfPart(b, t, y, last, onFalse).b, x)
    ensures Placed(IfPieces(b, st, bps, t, y, last), IfOwn(b, t, y, onFalse), x,
        IfPart(b, t, y, last, onFalse).b.blocks[x])
  {
    hide Region, Blocks;
    var fork, merge := |b.blocks|, |b.blocks| + 1;
    var a, pieces := IfPart(b, t, y, last, onFalse).b, IfPieces(b, st, bps, t, y, last);
    if |b.blocks| + 2 <= x < |t.b.blocks| {
      BelowBlock(Link(t.b, t.exit, fork), y.b, x);
      if st.alternate.Some? { BelowBlock(Link(y.b, y.exit, merge), last.b, x); }
      assert a.blocks[x] == PieceBlock(pieces[0], x);
    } else if |t.b.blocks| <= x < |y.b.blocks| {
      if st.alternate.Some? { BelowBlock(Link(y.b, y.exit, merge), last.b, x); }
      assert a.blocks[x] == PieceBlock(pieces[1], x);
    } else if |y.b.blocks| <= x {
      assert a.blocks[x] == PieceBlock(pieces[2], x);
    }
  }

  lemma IfCovered(b: Build, st: Stmt, bps: seq<Points>, t: Code, y: Part, last: Part, onFalse: nat)
    requires IfReady(b, st, bps, t, y, last, onFalse) && |b.blocks| + 1 < |last.b.blocks| && last.exit < |last.b.blocks|
    ensures Covered(b, IfPart(b, t, y, last, onFalse).b, IfPieces(b, st, bps, t, y, last))
  {
    hide Region, Blocks, PointsOf, PointsBelow;
    var a, pieces := IfPart(b, t, y, last, onFalse).b, IfPieces(b, st, bps, t, y, last);
    assert forall v :: NewTempOf(b, a, v) ==>
      NewTempOf(pieces[0].b, pieces[0].a, v) || NewTempOf(pieces[1].b, pieces[1].a, v) ||
          NewTempOf(pieces[2].b, pieces[2].a, v);
  }

  lemma IfAssembled(b: Build, st: Stmt, bps: seq<Points>, t: Code, y: Part, last: Part, onFalse: nat)
    requires IfReady(b, st, bps, t, y, last, onFalse) && |b.blocks| + 1 < |last.b.blocks| && last.exit < |last.b.blocks|
    ensures Assembled(b, IfPart(b, t, y, last, onFalse).b, IfPieces(b, st, bps, t, y, last), IfOwn(b, t, y, onFalse))
    ensures Covered(b, IfPart(b, t, y, last, onFalse).b, IfPieces(b, st, bps, t, y, last))
  {
    hide Region, Blocks, Placed, PointsOf, PointsBelow, Covered;
    var a, pieces, own := IfPart(b, t, y, last, onFalse).b, IfPieces(b, st, bps, t, y, last), IfOwn(b, t, y, onFalse);
    forall x: nat | NewBlockOf(b, a, x) ensures Placed(pieces, own, x, a.blocks[x]) {
      IfPlaced(b, st, bps, t, y, last, onFalse, x);
    }
    IfCovered(b, st, bps, t, y, last, onFalse);
  }

  lemma IfGlue(b: Build, st: Stmt, bps: seq<Points>, t: Code, y: Part, last: Part, onFalse: nat, x: nat, node: Node)
    requires st.If? && t.exit < |t.b.blocks| && y.exit < |y.b.blocks|
    requires Glue(IfPieces(b, st, bps, t, y, last), IfOwn(b, t, y, onFalse), x, node)
    ensures var fork, merge := |b.blocks|, |b.blocks| + 1;
      || (x == fork && node == Branch(t.v, y.enter, onFalse))
      || (x == t.exit && node == Jump(fork)) || node == Jump(merge)
  {
  }

  lemma BranchHandsOff(b: Build, a: Build, result: Option<nat>, t: nat, d: nat, d': nat)
    requires NewTempOf(b, a, t) ==> result == Some(t)
    ensures HandsOff(b, a, result, Branch(t, d, d'))
  {
  }

  lemma JumpHandsOff(b: Build, a: Build, result: Option<nat>, d: nat)
    ensures HandsOff(b, a, result, Jump(d))
  {
  }

  lemma IfPolite(b: Build, st: Stmt, bps: seq<Points>, t: Code, y: Part, last: Part, onFalse: nat)
    requires IfReady(b, st, bps, t, y, last, onFalse) && |b.blocks| + 1 < |last.b.blocks| && last.exit < |last.b.blocks|
    ensures var p := IfPart(b, t, y, last, onFalse);
      Polite(b, p.b, p.enter, p.exit, None, IfPieces(b, st, bps, t, y, last), IfOwn(b, t, y, onFalse))
    ensures Mergeless(IfPieces(b, st, bps, t, y, last), IfOwn(b, t, y, onFalse))
  {
    hide Region, HandsOff, Glue, Assembled, Covered, Blocks;
    IfAssembled(b, st, bps, t, y, last, onFalse);
    var pieces, own := IfPieces(b, st, bps, t, y, last), IfOwn(b, t, y, onFalse);
    var fork, merge := |b.blocks|, |b.blocks| + 1;
    forall x: nat, node: Node | Glue(pieces, own, x, node) ensures !node.Plain? {
      IfGlue(b, st, bps, t, y, last, onFalse, x, node);
    }
    forall j | 0 <= j < 3 ensures GlueKeepsOff(pieces, own, pieces[j]) {
      forall x: nat, node: Node | Glue(pieces, own, x, node)
        ensures HandsOff(pieces[j].b, pieces[j].a, pieces[j].result, node)
        ensures forall t :: t in Targets(node) && NewBlockOf(pieces[j].b, pieces[j].a, t) ==> t == pieces[j].enter
      {
        IfGlue(b, st, bps, t, y, last, onFalse, x, node);
        BranchHandsOff(pieces[j].b, pieces[j].a, pieces[j].result, t.v, y.enter, onFalse);
        JumpHandsOff(pieces[j].b, pieces[j].a, pieces[j].result, fork);
        JumpHandsOff(pieces[j].b, pieces[j].a, pieces[j].result, merge);
      }
    }
  }

  lemma IfLeads(b: Build, st: Stmt, bps: seq<Points>, t: Code, y: Part, last: Part, onFalse: nat, g: Graph, entry: nat,
      Ls: seq<map<nat, Life>>, Fs: seq<map<nat, Fork>>)
    requires IfReady(b, st, bps, t, y, last, onFalse) && |b.blocks| + 1 < |last.b.blocks| && last.exit < |last.b.blocks|
    requires HostsPart(b, IfPart(b, t, y, last, onFalse), g, entry) && |Ls| == |Fs| == 3
    ensures AllLeadOut(b, IfPart(b, t, y, last, onFalse).b, IfPieces(b, st, bps, t, y, last), IfOwn(b, t, y, onFalse),
        g, Parts(Ls, Fs, [{|b.blocks|}, {}, {}], map[], map[]))
  {
    hide Hosts, Region, Glue, Assembled, Covered, Blocks;
    IfAssembled(b, st, bps, t, y, last, onFalse);
    var p, pieces, own := IfPart(b, t, y, last, onFalse), IfPieces(b, st, bps, t, y, last), IfOwn(b, t, y, onFalse);
    var fork := |b.blocks|;
    forall x: nat, node: Node | Glue(pieces, own, x, node) && t.v in NodeReads(node) ensures x in {fork} {
      IfGlue(b, st, bps, t, y, last, onFalse, x, node);
    }
    forall q: nat, x: nat | x in {fork} && Edge(g, q, x) ensures q in {fork} || q == t.exit {
      Led(b, p.b, p.enter, p.exit, None, pieces, own, x, g, entry, q);
      if node :| Glue(pieces, own, q, node) && x in Targets(node) { IfGlue(b, st, bps, t, y, last, onFalse, q, node); }
    }
  }

  // ----- while -----

  function LoopAround(bps: seq<Points>, brk: nat, cont: nat): seq<Points> { bps + [Points(brk, cont)] }

  lemma LoopPointsAre(bps: seq<Points>, brk: nat, cont: nat)
    ensures PointsOf(LoopAround(bps, brk, cont)) == {brk, cont}
  {
    assert LoopAround(bps, brk, cont)[|LoopAround(bps, brk, cont)| - 1] == Points(brk, cont);
  }

  function WhilePieces(b: Build, t: Code, y: Part, bps: seq<Points>): seq<Piece>
    requires |b.blocks| < |t.b.blocks| && t.exit < |t.b.blocks|
  {
    [PieceOf(Blocks(b, 4), t, [Jump(|b.blocks| + 1)]),
     PartPiece(Link(Link(t.b, |b.blocks|, t.enter), t.exit, |b.blocks| + 1), y,
         LoopAround(bps, |b.blocks| + 3, |b.blocks|), [Jump(|b.blocks| + 2)])]
  }

  function WhileOwn(b: Build, t: Code, y: Part): map<nat, Block> {
    var prelude, entry, again, merge := |b.blocks|, |b.blocks| + 1, |b.blocks| + 2, |b.blocks| + 3;
    map[prelude := [Jump(t.enter)], entry := [Branch(t.v, y.enter, merge)], again := [Jump(prelude)], merge := []]
  }

  ghost predicate WhileReady(b: Build, t: Code, y: Part, bps: seq<Points>) {
    var prelude, entry, again, merge := |b.blocks|, |b.blocks| + 1, |b.blocks| + 2, |b.blocks| + 3;
    && |Blocks(b, 4).blocks| == |b.blocks| + 4 && Blocks(b, 4).vars == b.vars
    && CodeShaped(Blocks(b, 4), t) && merge < t.enter < |t.b.blocks| && merge < t.exit < |t.b.blocks|
    && PartShaped(Link(Link(t.b, prelude, t.enter), t.exit, entry), y, LoopAround(bps, merge, prelude))
    && |t.b.blocks| <= y.enter < |y.b.blocks| && |t.b.blocks| <= y.exit < |y.b.blocks| && Above(b, y.b)
    && y.b.blocks[prelude] == [Jump(t.enter)] && y.b.blocks[entry] == [] && y.b.blocks[again] == [] &&
        y.b.blocks[merge] == []
  }

  lemma WhileIsReady(b: Build, test: Expr, loop: Stmt, bps: seq<Points>, t: Code, y: Part)
    requires Looped(loop, true) && TurnIs(b, test, loop, bps, t, y) && Above(b, y.b)
    ensures WhileReady(b, t, y, bps)
  {
    hide Region, GenStmt, GenExpr;
    var prelude, entry, again, merge := |b.blocks|, |b.blocks| + 1, |b.blocks| + 2, |b.blocks| + 3;
    BlocksAbove(b, 4);
    ExprShaped(Blocks(b, 4), test);
    var a := Link(Link(t.b, prelude, t.enter), t.exit, entry);
    StmtShaped(a, loop, LoopAround(bps, merge, prelude));
    forall x | prelude <= x <= merge ensures t.b.blocks[x] == [] { EmptyBlocks(b, 4, t.b, x); }
    forall x | prelude <= x <= merge ensures y.b.blocks[x] == a.blocks[x] { BelowBlock(a, y.b, x); }
  }

  lemma WhileSizes(b: Build, t: Code, y: Part, bps: seq<Points>)
    requires WhileReady(b, t, y, bps)
    ensures |b.blocks| < |t.b.blocks| && t.exit < |t.b.blocks| && Above(b, y.b) && |b.blocks| + 4 <= |y.b.blocks| &&
        |b.blocks| <= y.exit < |y.b.blocks|
  {
  }

  lemma WhileAssembled(b: Build, t: Code, y: Part, bps: seq<Points>)
    requires WhileReady(b, t, y, bps) && |b.blocks| < |t.b.blocks| && t.exit < |t.b.blocks| &&
        |b.blocks| + 4 <= |y.b.blocks| && y.exit < |y.b.blocks|
    ensures Assembled(b, JoinWhile(b, t, y).b, WhilePieces(b, t, y, bps), WhileOwn(b, t, y))
    ensures Covered(b, JoinWhile(b, t, y).b, WhilePieces(b, t, y, bps))
  {
    hide Region, Blocks;
    var prelude, entry := |b.blocks|, |b.blocks| + 1;
    var a, pieces, own := JoinWhile(b, t, y).b, WhilePieces(b, t, y, bps), WhileOwn(b, t, y);
    forall x: nat | NewBlockOf(b, a, x) ensures Placed(pieces, own, x, a.blocks[x]) {
      if |b.blocks| + 4 <= x < |t.b.blocks| {
        BelowBlock(Link(Link(t.b, prelude, t.enter), t.exit, entry), y.b, x);
        assert a.blocks[x] == PieceBlock(pieces[0], x);
      } else if |t.b.blocks| <= x {
        assert a.blocks[x] == PieceBlock(pieces[1], x);
      }
    }
    assert forall v :: NewTempOf(b, a, v) ==>
        NewTempOf(pieces[0].b, pieces[0].a, v) || NewTempOf(pieces[1].b, pieces[1].a, v);
  }

  lemma WhileGlue(b: Build, t: Code, y: Part, bps: seq<Points>, x: nat, node: Node)
    requires |b.blocks| < |t.b.blocks| && t.exit < |t.b.blocks|
    requires Glue(WhilePieces(b, t, y, bps), WhileOwn(b, t, y), x, node)
    ensures var prelude, entry, again, merge := |b.blocks|, |b.blocks| + 1, |b.blocks| + 2, |b.blocks| + 3;
      || (x == prelude && node == Jump(t.enter)) || (x == entry && node == Branch(t.v, y.enter, merge))
      || (x == again && node == Jump(prelude)) || (x == t.exit && node == Jump(entry)) ||
          (x == y.exit && node == Jump(again))
  {
  }

  lemma WhilePolite(b: Build, t: Code, y: Part, bps: seq<Points>)
    requires WhileReady(b, t, y, bps) && |b.blocks| < |t.b.blocks| && t.exit < |t.b.blocks| &&
        |b.blocks| + 4 <= |y.b.blocks| && y.exit < |y.b.blocks|
    ensures var p := JoinWhile(b, t, y);
        Polite(b, p.b, p.enter, p.exit, None, WhilePieces(b, t, y, bps), WhileOwn(b, t, y))
    ensures Mergeless(WhilePieces(b, t, y, bps), WhileOwn(b, t, y))
  {
    hide Region, HandsOff, Glue, Assembled, Covered, Blocks;
    WhileAssembled(b, t, y, bps);
    LoopPointsAre(bps, |b.blocks| + 3, |b.blocks|);
    var pieces, own := WhilePieces(b, t, y, bps), WhileOwn(b, t, y);
    forall x: nat, node: Node | Glue(pieces, own, x, node) ensures !node.Plain? { WhileGlue(b, t, y, bps, x, node); }
    forall j | 0 <= j < 2 ensures GlueKeepsOff(pieces, own, pieces[j]) {
      forall x: nat, node: Node | Glue(pieces, own, x, node)
        ensures HandsOff(pieces[j].b, pieces[j].a, pieces[j].result, node)
        ensures forall t :: t in Targets(node) && NewBlockOf(pieces[j].b, pieces[j].a, t) ==> t == pieces[j].enter
      {
        WhileGlue(b, t, y, bps, x, node);
        BranchHandsOff(pieces[j].b, pieces[j].a, pieces[j].result, t.v, y.enter, |b.blocks| + 3);
        if node.Jump? { JumpHandsOff(pieces[j].b, pieces[j].a, pieces[j].result, node.dest); }
      }
    }
  }

  lemma WhileLeads(b: Build, t: Code, y: Part, bps: seq<Points>, g: Graph, entry: nat, Ls: seq<map<nat, Life>>,
      Fs: seq<map<nat, Fork>>)
    requires WhileReady(b, t, y, bps) && |b.blocks| < |t.b.blocks| && t.exit < |t.b.blocks| &&
        |b.blocks| + 4 <= |y.b.blocks| && y.exit < |y.b.blocks|
    requires HostsPart(b, JoinWhile(b, t, y), g, entry) && |Ls| == |Fs| == 2
    ensures AllLeadOut(b, JoinWhile(b, t, y).b, WhilePieces(b, t, y, bps), WhileOwn(b, t, y), g,
        Parts(Ls, Fs, [{|b.blocks| + 1}, {}], map[], map[]))
  {
    hide Hosts, Region, Glue, Assembled, Covered, Blocks;
    WhileAssembled(b, t, y, bps);
    LoopPointsAre(bps, |b.blocks| + 3, |b.blocks|);
    var p, pieces, own := JoinWhile(b, t, y), WhilePieces(b, t, y, bps), WhileOwn(b, t, y);
    var fork := |b.blocks| + 1;
    forall x: nat, node: Node | Glue(pieces, own, x, node) && t.v in NodeReads(node) ensures x in {fork} {
      WhileGlue(b, t, y, bps, x, node);
    }
    forall q: nat, x: nat | x in {fork} && Edge(g, q, x) ensures q in {fork} || q == t.exit {
      Led(b, p.b, p.enter, p.exit, None, pieces, own, x, g, entry, q);
      if node :| Glue(pieces, own, q, node) && x in Targets(node) { WhileGlue(b, t, y, bps, q, node); }
    }
  }

  // ----- do -----

  function DoPieces(b: Build, y: Part, t: Code, bps: seq<Points>): seq<Piece>
    requires |b.blocks| < |y.b.blocks|
  {
    [PartPiece(Blocks(b, 3), y, LoopAround(bps, |b.blocks| + 2, |b.blocks| + 2), [Jump(t.enter)]),
     PieceOf(Link(y.b, |b.blocks|, y.enter), t, [Jump(|b.blocks| + 1)])]
  }

  function DoOwn(b: Build, y: Part, t: Code): map<nat, Block> {
    var prelude, entry, merge := |b.blocks|, |b.blocks| + 1, |b.blocks| + 2;
    map[prelude := [Jump(y.enter)], entry := [Branch(t.v, prelude, merge)], merge := []]
  }

  ghost predicate DoReady(b: Build, y: Part, t: Code, bps: seq<Points>) {
    var prelude, entry, merge := |b.blocks|, |b.blocks| + 1, |b.blocks| + 2;
    && |Blocks(b, 3).blocks| == |b.blocks| + 3 && Blocks(b, 3).vars == b.vars
    && PartShaped(Blocks(b, 3), y, LoopAround(bps, merge, merge)) && merge < y.enter < |y.b.blocks| &&
        merge < y.exit < |y.b.blocks|
    && CodeShaped(Link(y.b, prelude, y.enter), t) && |y.b.blocks| <= t.enter < |t.b.blocks| &&
        |y.b.blocks| <= t.exit < |t.b.blocks| && Above(b, t.b)
    && t.b.blocks[prelude] == [Jump(y.enter)] && t.b.blocks[entry] == [] && t.b.blocks[merge] == []
  }

  lemma DoIsReady(b: Build, loop: Stmt, test: Expr, bps: seq<Points>, y: Part, t: Code)
    requires Looped(loop, true) && DoIs(b, loop, test, bps, y, t)
    ensures DoReady(b, y, t, bps)
  {
    hide Region, GenStmt, GenExpr;
    var prelude, entry, merge := |b.blocks|, |b.blocks| + 1, |b.blocks| + 2;
    BlocksAbove(b, 3);
    StmtShaped(Blocks(b, 3), loop, LoopAround(bps, merge, merge));
    var a := Link(y.b, prelude, y.enter);
    ExprShaped(a, test);
    forall x | prelude <= x <= merge ensures y.b.blocks[x] == [] { EmptyBlocks(b, 3, y.b, x); }
    forall x | prelude <= x <= merge ensures t.b.blocks[x] == a.blocks[x] { BelowBlock(a, t.b, x); }
  }

  lemma DoSizes(b: Build, y: Part, t: Code, bps: seq<Points>)
    requires DoReady(b, y, t, bps)
    ensures |b.blocks| < |y.b.blocks| && Above(b, t.b) && |b.blocks| + 3 <= |t.b.blocks| &&
        |b.blocks| <= y.exit < |t.b.blocks| && |b.blocks| <= t.exit < |t.b.blocks|
  {
  }

  lemma DoAssembled(b: Build, y: Part, t: Code, bps: seq<Points>)
    requires DoReady(b, y, t, bps) && |b.blocks| < |y.b.blocks| && |b.blocks| + 3 <= |t.b.blocks| &&
        y.exit < |t.b.blocks| && t.exit < |t.b.blocks|
    ensures Assembled(b, JoinDo(b, y, t).b, DoPieces(b, y, t, bps), DoOwn(b, y, t)) &&
        Covered(b, JoinDo(b, y, t).b, DoPieces(b, y, t, bps))
  {
    hide Region, Blocks;
    var a, pieces, own := JoinDo(b, y, t).b, DoPieces(b, y, t, bps), DoOwn(b, y, t);
    forall x: nat | NewBlockOf(b, a, x) ensures Placed(pieces, own, x, a.blocks[x]) {
      if |b.blocks| + 3 <= x < |y.b.blocks| {
        BelowBlock(Link(y.b, |b.blocks|, y.enter), t.b, x);
        assert a.blocks[x] == PieceBlock(pieces[0], x);
      } else if |y.b.blocks| <= x {
        assert a.blocks[x] == PieceBlock(pieces[1], x);
      }
    }
    assert forall v :: NewTempOf(b, a, v) ==>
        NewTempOf(pieces[0].b, pieces[0].a, v) || NewTempOf(pieces[1].b, pieces[1].a, v);
  }

  lemma DoGlue(b: Build, y: Part, t: Code, bps: seq<Points>, x: nat, node: Node)
    requires |b.blocks| < |y.b.blocks| && Glue(DoPieces(b, y, t, bps), DoOwn(b, y, t), x, node)
    ensures var prelude, entry, merge := |b.blocks|, |b.blocks| + 1, |b.blocks| + 2;
      || (x == prelude && node == Jump(y.enter)) || (x == entry && node == Branch(t.v, prelude, merge))
      || (x == y.exit && node == Jump(t.enter)) || (x == t.exit && node == Jump(entry))
  {
  }

  lemma DoPolite(b: Build, y: Part, t: Code, bps: seq<Points>)
    requires DoReady(b, y, t, bps) && |b.blocks| < |y.b.blocks| && |b.blocks| + 3 <= |t.b.blocks| &&
        y.exit < |t.b.blocks| && t.exit < |t.b.blocks|
    ensures var p := JoinDo(b, y, t); Polite(b, p.b, p.enter, p.exit, None, DoPieces(b, y, t, bps), DoOwn(b, y, t))
    ensures Mergeless(DoPieces(b, y, t, bps), DoOwn(b, y, t))
  {
    hide Region, HandsOff, Glue, Assembled, Covered, Blocks;
    DoAssembled(b, y, t, bps);
    LoopPointsAre(bps, |b.blocks| + 2, |b.blocks| + 2);
    var pieces, own := DoPieces(b, y, t, bps), DoOwn(b, y, t);
    forall x: nat, node: Node | Glue(pieces, own, x, node) ensures !node.Plain? { DoGlue(b, y, t, bps, x, node); }
    forall j | 0 <= j < 2 ensures GlueKeepsOff(pieces, own, pieces[j]) {
      forall x: nat, node: Node | Glue(pieces, own, x, node)
        ensures HandsOff(pieces[j].b, pieces[j].a, pieces[j].result, node)
        ensures forall t :: t in Targets(node) && NewBlockOf(pieces[j].b, pieces[j].a, t) ==> t == pieces[j].enter
      {
        DoGlue(b, y, t, bps, x, node);
        BranchHandsOff(pieces[j].b, pieces[j].a, pieces[j].result, t.v, |b.blocks|, |b.blocks| + 2);
        if node.Jump? { JumpHandsOff(pieces[j].b, pieces[j].a, pieces[j].result, node.dest); }
      }
    }
  }

  lemma DoLeads(b: Build, y: Part, t: Code, bps: seq<Points>, g: Graph, entry: nat, Ls: seq<map<nat, Life>>,
      Fs: seq<map<nat, Fork>>)
    requires DoReady(b, y, t, bps) && |b.blocks| < |y.b.blocks| && |b.blocks| + 3 <= |t.b.blocks| &&
        y.exit < |t.b.blocks| && t.exit < |t.b.blocks|
    requires HostsPart(b, JoinDo(b, y, t), g, entry) && |Ls| == |Fs| == 2
    ensures AllLeadOut(b, JoinDo(b, y, t).b, DoPieces(b, y, t, bps), DoOwn(b, y, t), g,
        Parts(Ls, Fs, [{}, {|b.blocks| + 1}], map[], map[]))
  {
    hide Hosts, Region, Glue, Assembled, Covered, Blocks;
    DoAssembled(b, y, t, bps);
    LoopPointsAre(bps, |b.blocks| + 2, |b.blocks| + 2);
    var p, pieces, own := JoinDo(b, y, t), DoPieces(b, y, t, bps), DoOwn(b, y, t);
    var fork := |b.blocks| + 1;
    forall x: nat, node: Node | Glue(pieces, own, x, node) && t.v in NodeReads(node) ensures x in {fork} {
      DoGlue(b, y, t, bps, x, node);
    }
    forall q: nat, x: nat | x in {fork} && Edge(g, q, x) ensures q in {fork} || q == t.exit {
      Led(b, p.b, p.enter, p.exit, None, pieces, own, x, g, entry, q);
      if node :| Glue(pieces, own, q, node) && x in Targets(node) { DoGlue(b, y, t, bps, q, node); }
    }
  }

  // ----- for -----

  /** An optional expression as a piece. */
  function OptionalPiece(b: Build, e: Option<Expr>, tail: Block): Piece {
    if e.None? then NoPiece(b) else PieceOf(b, GenExpr(b, e.value), tail)
  }

  /** Where control goes for an optional expression. */
  function OptionalEnter(b: Build, e: Option<Expr>, otherwise: nat): nat {
    if e.None? then otherwise else GenExpr(b, e.value).enter
  }

  /** What is built before the test of a `for` loop. */
  function CheckBase(a: Build, check: Option<Expr>): Build { if check.None? then a else NewBlock(a) }

  function ForPieces(b: Build, init: Option<Expr>, check: Option<Expr>, update: Option<Expr>, bps: seq<Points>,
      i: Build, y: Part, c: Build): seq<Piece>
    requires y.exit < |y.b.blocks|
  {
    var start, test, step, merge := |b.blocks|, |b.blocks| + 1, |b.blocks| + 2, |b.blocks| + 3;
    var l := Link(y.b, y.exit, step);
    [OptionalPiece(Blocks(b, 4), init, [Jump(test)]),
     PartPiece(i, y, LoopAround(bps, merge, test), [Jump(step)]),
     OptionalPiece(CheckBase(l, check), check, [Jump(|l.blocks|)]),
     OptionalPiece(c, update, [Jump(test)])]
  }

  function ForOwn(b: Build, init: Option<Expr>, check: Option<Expr>, update: Option<Expr>, y: Part, c: Build): map<nat,
      Block>
    requires y.exit < |y.b.blocks|
  {
    var start, test, step, merge := |b.blocks|, |b.blocks| + 1, |b.blocks| + 2, |b.blocks| + 3;
    var l := Link(y.b, y.exit, step);
    var m := map[start := [Jump(OptionalEnter(Blocks(b, 4), init, test))],
                 test := [Jump(OptionalEnter(CheckBase(l, check), check, y.enter))],
                 step := [Jump(OptionalEnter(c, update, test))], merge := []];
    if check.None? then m
    else m[|l.blocks| := [Branch(GenExpr(NewBlock(l), check.value).v, y.enter, merge)]]
  }

  /** What an optional expression adds. */
  lemma OptionalFacts(b: Build, e: Option<Expr>, tail: Block)
    ensures var p := OptionalPiece(b, e, tail);
      && PieceShaped(p) && p.b == b && |b.blocks| <= |p.a.blocks| && b.vars <= p.a.vars && p.pts == {}
      && (e.Some? ==>
          NewBlockOf(b, p.a, p.enter) && NewBlockOf(b, p.a, p.exit) && p.tail == tail &&
          p.enter == GenExpr(b, e.value).enter)
      && (e.None? ==> p == NoPiece(b))
  {
    hide Region, GenExpr;
    if e.Some? { ExprShaped(b, e.value); }
  }

  lemma StepContent(b: Build, e: Option<Expr>, from: nat, to: nat)
    requires from < |b.blocks| && b.blocks[from] == []
    ensures var a, p := GenStep(b, e, from, to), OptionalPiece(b, e, [Jump(to)]);
      && |a.blocks| == |p.a.blocks| && a.vars == p.a.vars
      && a.blocks[from] == [Jump(OptionalEnter(b, e, to))]
      && (forall x: nat :: x < |b.blocks| && x != from ==> a.blocks[x] == b.blocks[x])
      && (forall x: nat :: NewBlockOf(p.b, p.a, x) ==> a.blocks[x] == PieceBlock(p, x))
  {
    hide GenExpr;
    if e.Some? {
      var c := GenExpr(b, e.value);
      BelowBlock(b, c.b, from);
      forall x: nat | x < |b.blocks| ensures c.b.blocks[x] == b.blocks[x] { BelowBlock(b, c.b, x); }
    }
  }

  lemma CheckContent(l: Build, check: Option<Expr>, test: nat, body: nat, merge: nat)
    requires test < |l.blocks| && l.blocks[test] == []
    ensures var a, p := GenCheck(l, check, test, body, merge), OptionalPiece(CheckBase(l, check), check,
        [Jump(|l.blocks|)]);
      && |a.blocks| == |p.a.blocks| && a.vars == p.a.vars
      && a.blocks[test] == [Jump(OptionalEnter(CheckBase(l, check), check, body))]
      && (forall x: nat :: x < |l.blocks| && x != test ==> a.blocks[x] == l.blocks[x])
      && (forall x: nat :: NewBlockOf(p.b, p.a, x) ==> a.blocks[x] == PieceBlock(p, x))
      && (check.Some? ==>
          |l.blocks| < |a.blocks| && a.blocks[|l.blocks|] == [Branch(GenExpr(NewBlock(l), check.value).v, body, merge)])
  {
    hide GenExpr;
    if check.Some? {
      var fork := |l.blocks|;
      var c := GenExpr(NewBlock(l), check.value);
      BelowBlock(NewBlock(l), c.b, fork);
      forall x: nat | x < |l.blocks| ensures c.b.blocks[x] == l.blocks[x] { BelowBlock(NewBlock(l), c.b, x); }
      var a := GenCheck(l, check, test, body, merge);
      assert a.blocks[fork] == [Branch(c.v, body, merge)];
    }
  }

  ghost predicate ForReady(b: Build, init: Option<Expr>, check: Option<Expr>, update: Option<Expr>, bps: seq<Points>,
      i: Build, y: Part, c: Build) {
    var start, test, step, merge := |b.blocks|, |b.blocks| + 1, |b.blocks| + 2, |b.blocks| + 3;
    && |Blocks(b, 4).blocks| == |b.blocks| + 4 && Blocks(b, 4).vars == b.vars
    && (forall x :: start <= x <= merge ==> Blocks(b, 4).blocks[x] == [])
    && i == GenStep(Blocks(b, 4), init, start, test)
    && PartShaped(i, y, LoopAround(bps, merge, test)) && |i.blocks| <= y.exit < |y.b.blocks|
    && test < |Link(y.b, y.exit, step).blocks|
    && c == GenCheck(Link(y.b, y.exit, step), check, test, y.enter, merge)
    && step < |c.blocks|
  }

  lemma ForIsReady(b: Build, init: Option<Expr>, check: Option<Expr>, update: Option<Expr>, loop: Stmt,
      bps: seq<Points>, i: Build, y: Part, c: Build)
    requires Looped(loop, true) && ForIs(b, init, check, update, loop, bps, i, y, c)
    ensures ForReady(b, init, check, update, bps, i, y, c) && |b.blocks| + 2 < |c.blocks|
  {
    hide Region, GenStmt, GenExpr, GenStep, GenCheck;
    BlocksAbove(b, 4);
    StmtShaped(i, loop, LoopAround(bps, |b.blocks| + 3, |b.blocks| + 1));
    ForFacts(b, init, check, update, loop, bps, i, y, c);
  }

  /** The parts of a `for` loop, in order. */
  ghost predicate ForOrder(b: Build, init: Option<Expr>, check: Option<Expr>, update: Option<Expr>, i: Build, y: Part,
      c: Build, a: Build)
    requires y.exit < |y.b.blocks|
  {
    var test, step := |b.blocks| + 1, |b.blocks| + 2;
    var l := Link(y.b, y.exit, step);
    var pi, pc, pu := OptionalPiece(Blocks(b, 4), init, [Jump(test)]),
        OptionalPiece(CheckBase(l, check), check, [Jump(|l.blocks|)]), OptionalPiece(c, update, [Jump(test)]);
    && PieceShaped(pi) && PieceShaped(pc) && PieceShaped(pu)
    && pi.b == Blocks(b, 4) && |pi.a.blocks| == |i.blocks| && pi.a.vars == i.vars && |b.blocks| + 4 <= |i.blocks| &&
        b.vars <= i.vars
    && pc.b == CheckBase(l, check) && |pc.a.blocks| == |c.blocks| && pc.a.vars == c.vars &&
        |y.b.blocks| <= |pc.b.blocks| <= |c.blocks| && y.b.vars <= c.vars
    && pc.b.vars == y.b.vars && |pc.b.blocks| == |l.blocks| + (if check.Some? then 1 else 0) &&
        |l.blocks| == |y.b.blocks|
    && pu.b == c && |pu.a.blocks| == |a.blocks| && pu.a.vars == a.vars && |c.blocks| <= |a.blocks| && c.vars <= a.vars
  }

  lemma ForEmpties(b: Build, init: Option<Expr>, check: Option<Expr>, update: Option<Expr>, bps: seq<Points>, i: Build,
      y: Part, c: Build)
    requires ForReady(b, init, check, update, bps, i, y, c)
    ensures y.exit < |y.b.blocks|
    ensures var test, step, merge, l := |b.blocks| + 1, |b.blocks| + 2, |b.blocks| + 3,
        Link(y.b, y.exit, |b.blocks| + 2);
      && merge < |i.blocks| && i.blocks[test] == [] && i.blocks[step] == [] && i.blocks[merge] == []
      && merge < |y.b.blocks| && y.b.blocks[test] == [] && y.b.blocks[step] == [] && y.b.blocks[merge] == []
      && l.blocks[test] == [] && merge < |c.blocks| && c.blocks[step] == [] && c.blocks[merge] == []
  {
    hide Region, GenExpr, OptionalPiece, OptionalEnter, Blocks, PointsOf, LoopAround;
    var start, test, step, merge := |b.blocks|, |b.blocks| + 1, |b.blocks| + 2, |b.blocks| + 3;
    forall x | x in [test, step, merge] ensures y.b.blocks[x] == i.blocks[x] { BelowBlock(i, y.b, x); }
  }

  lemma ForOrdered(b: Build, init: Option<Expr>, check: Option<Expr>, update: Option<Expr>, bps: seq<Points>, i: Build,
      y: Part, c: Build)
    requires ForReady(b, init, check, update, bps, i, y, c) && |b.blocks| + 2 < |c.blocks|
    ensures y.exit < |y.b.blocks| &&
        ForOrder(b, init, check, update, i, y, c, GenStep(c, update, |b.blocks| + 2, |b.blocks| + 1))
  {
    hide Region, GenExpr, GenStep, GenCheck, PieceShaped, OptionalPiece, OptionalEnter, Blocks;
    var start, test, step, merge := |b.blocks|, |b.blocks| + 1, |b.blocks| + 2, |b.blocks| + 3;
    var l := Link(y.b, y.exit, step);
    ForEmpties(b, init, check, update, bps, i, y, c);
    StepContent(Blocks(b, 4), init, start, test);
    OptionalFacts(Blocks(b, 4), init, [Jump(test)]);
    CheckContent(l, check, test, y.enter, merge);
    OptionalFacts(CheckBase(l, check), check, [Jump(|l.blocks|)]);
    StepContent(c, update, step, test);
    OptionalFacts(c, update, [Jump(test)]);
  }

  /** The blocks of a `for` loop's own. */
  lemma ForOwnContent(b: Build, init: Option<Expr>, check: Option<Expr>, update: Option<Expr>, bps: seq<Points>,
      i: Build, y: Part, c: Build, x: nat)
    requires ForReady(b, init, check, update, bps, i, y, c) && |b.blocks| + 2 < |c.blocks| && y.exit < |y.b.blocks|
    requires |b.blocks| <= x < |b.blocks| + 4 || (check.Some? && x == |y.b.blocks|)
    ensures var a, own := GenStep(c, update, |b.blocks| + 2, |b.blocks| + 1), ForOwn(b, init, check, update, y, c);
      x < |a.blocks| && x in own && a.blocks[x] == own[x]
  {
    hide Region, GenExpr, GenStep, GenCheck, PieceShaped, OptionalPiece, OptionalEnter, Blocks;
    var start, test, step, merge := |b.blocks|, |b.blocks| + 1, |b.blocks| + 2, |b.blocks| + 3;
    var l := Link(y.b, y.exit, step);
    ForEmpties(b, init, check, update, bps, i, y, c);
    ForOrdered(b, init, check, update, bps, i, y, c);
    StepContent(Blocks(b, 4), init, start, test);
    CheckContent(l, check, test, y.enter, merge);
    StepContent(c, update, step, test);
    BelowBlock(i, y.b, start);
  }

  lemma ForContent(b: Build, init: Option<Expr>, check: Option<Expr>, update: Option<Expr>, bps: seq<Points>, i: Build,
      y: Part, c: Build, x: nat)
    requires ForReady(b, init, check, update, bps, i, y, c) && |b.blocks| + 2 < |c.blocks| && y.exit < |y.b.blocks|
    requires NewBlockOf(b, GenStep(c, update, |b.blocks| + 2, |b.blocks| + 1), x)
    ensures Placed(ForPieces(b, init, check, update, bps, i, y, c), ForOwn(b, init, check, update, y, c), x,
      GenStep(c, update, |b.blocks| + 2, |b.blocks| + 1).blocks[x])
  {
    hide Region, GenExpr, GenStep, GenCheck, PieceShaped, OptionalPiece, OptionalEnter, Blocks, ForOwn;
    var start, test, step, merge := |b.blocks|, |b.blocks| + 1, |b.blocks| + 2, |b.blocks| + 3;
    var l, a := Link(y.b, y.exit, step), GenStep(c, update, step, test);
    ForOrdered(b, init, check, update, bps, i, y, c);
    if x < start + 4 || (check.Some? && x == |l.blocks|) {
      ForOwnContent(b, init, check, update, bps, i, y, c, x);
      return;
    }
    ForEmpties(b, init, check, update, bps, i, y, c);
    StepContent(Blocks(b, 4), init, start, test);
    CheckContent(l, check, test, y.enter, merge);
    StepContent(c, update, step, test);
    var pieces := ForPieces(b, init, check, update, bps, i, y, c);
    if x < |i.blocks| {
      BelowBlock(i, y.b, x);
      assert a.blocks[x] == PieceBlock(pieces[0], x);
    } else if x < |y.b.blocks| {
      assert a.blocks[x] == PieceBlock(pieces[1], x);
    } else if x < |c.blocks| {
      assert a.blocks[x] == PieceBlock(pieces[2], x);
    } else {
      assert a.blocks[x] == PieceBlock(pieces[3], x);
    }
  }

  lemma ForCovered(b: Build, init: Option<Expr>, check: Option<Expr>, update: Option<Expr>, bps: seq<Points>, i: Build,
      y: Part, c: Build)
    requires ForReady(b, init, check, update, bps, i, y, c) && |b.blocks| + 2 < |c.blocks| && y.exit < |y.b.blocks|
    ensures Covered(b, GenStep(c, update, |b.blocks| + 2, |b.blocks| + 1),
        ForPieces(b, init, check, update, bps, i, y, c))
  {
    hide Region, GenExpr, GenStep, GenCheck, OptionalPiece, OptionalEnter, Blocks, PieceShaped;
    var a, pieces := GenStep(c, update, |b.blocks| + 2, |b.blocks| + 1),
        ForPieces(b, init, check, update, bps, i, y, c);
    ForOrdered(b, init, check, update, bps, i, y, c);
    assert forall v :: NewTempOf(b, a, v) ==>
      || NewTempOf(pieces[0].b, pieces[0].a, v) || NewTempOf(pieces[1].b, pieces[1].a, v)
      || NewTempOf(pieces[2].b, pieces[2].a, v) || NewTempOf(pieces[3].b, pieces[3].a, v);
  }

  lemma ForPiecesShaped(b: Build, init: Option<Expr>, check: Option<Expr>, update: Option<Expr>, bps: seq<Points>,
      i: Build, y: Part, c: Build)
    requires ForReady(b, init, check, update, bps, i, y, c) && |b.blocks| + 2 < |c.blocks| && y.exit < |y.b.blocks|
    ensures var a, pieces := GenStep(c, update, |b.blocks| + 2, |b.blocks| + 1),
        ForPieces(b, init, check, update, bps, i, y, c);
      && (forall j :: 0 <= j < 4 ==> PieceShaped(pieces[j]) && Within(b, a, pieces[j]))
      && (forall i, j :: 0 <= i < j < 4 ==> Before(pieces[i], pieces[j]))
  {
    hide Region, GenExpr, GenStep, GenCheck, OptionalPiece, OptionalEnter, Blocks;
    ForOrdered(b, init, check, update, bps, i, y, c);
  }

  lemma ForAssembled(b: Build, init: Option<Expr>, check: Option<Expr>, update: Option<Expr>, bps: seq<Points>,
      i: Build, y: Part, c: Build)
    requires ForReady(b, init, check, update, bps, i, y, c) && |b.blocks| + 2 < |c.blocks| && y.exit < |y.b.blocks|
    ensures var a, pieces := GenStep(c, update, |b.blocks| + 2, |b.blocks| + 1),
        ForPieces(b, init, check, update, bps, i, y, c);
      Assembled(b, a, pieces, ForOwn(b, init, check, update, y, c))
  {
    hide Region, GenExpr, GenStep, GenCheck, OptionalPiece, OptionalEnter, Blocks, Placed, PieceShaped;
    var a, pieces, own := GenStep(c, update, |b.blocks| + 2, |b.blocks| + 1),
        ForPieces(b, init, check, update, bps, i, y, c), ForOwn(b, init, check, update, y, c);
    ForPiecesShaped(b, init, check, update, bps, i, y, c);
    ForOrdered(b, init, check, update, bps, i, y, c);
    forall x: nat | NewBlockOf(b, a, x) ensures Placed(pieces, own, x, a.blocks[x]) {
      ForContent(b, init, check, update, bps, i, y, c, x);
    }
  }

  lemma ForGlue(b: Build, init: Option<Expr>, check: Option<Expr>, update: Option<Expr>, bps: seq<Points>, i: Build,
      y: Part, c: Build, x: nat, node: Node)
    requires y.exit < |y.b.blocks|
    requires Glue(ForPieces(b, init, check, update, bps, i, y, c), ForOwn(b, init, check, update, y, c), x, node)
    ensures var start, test, step, merge := |b.blocks|, |b.blocks| + 1, |b.blocks| + 2, |b.blocks| + 3;
      var l := Link(y.b, y.exit, step);
      || (node == Jump(OptionalEnter(Blocks(b, 4), init, test))) ||
          node == Jump(OptionalEnter(CheckBase(l, check), check, y.enter))
      || (node == Jump(OptionalEnter(c, update, test))) || node == Jump(test) || node == Jump(step)
      || (check.Some? && x == OptionalPiece(CheckBase(l, check), check, []).exit && node == Jump(|l.blocks|))
      || (check.Some? && x == |l.blocks| && node == Branch(GenExpr(NewBlock(l), check.value).v, y.enter, merge))
  {
    hide GenExpr;
  }

  /** Where the glue of a `for` loop leads, a part is entered at its entrance. */
  lemma ForEnters(b: Build, init: Option<Expr>, check: Option<Expr>, update: Option<Expr>, bps: seq<Points>, i: Build,
      y: Part, c: Build, j: nat, x: nat, node: Node)
    requires ForReady(b, init, check, update, bps, i, y, c) && |b.blocks| + 2 < |c.blocks| && y.exit < |y.b.blocks| &&
        j < 4
    requires Glue(ForPieces(b, init, check, update, bps, i, y, c), ForOwn(b, init, check, update, y, c), x, node)
    ensures var p := ForPieces(b, init, check, update, bps, i, y, c)[j];
      forall t :: t in Targets(node) && NewBlockOf(p.b, p.a, t) ==> t == p.enter
  {
    hide Region, GenExpr, GenStep, GenCheck, Blocks, Glue, PieceShaped, ForOwn, PointsOf, OptionalEnter, ForReady,
        OptionalPiece, CheckBase;
    ForGlue(b, init, check, update, bps, i, y, c, x, node);
    var p := ForPieces(b, init, check, update, bps, i, y, c)[j];
    forall t | t in Targets(node) && NewBlockOf(p.b, p.a, t) ensures t == p.enter {
      assert ForTarget(b, init, check, update, y, c, t);
      ForTargetEnters(b, init, check, update, bps, i, y, c, j, t);
    }
  }

  /** Where the glue of a `for` loop can lead. */
  predicate ForTarget(b: Build, init: Option<Expr>, check: Option<Expr>, update: Option<Expr>, y: Part, c: Build,
      t: nat)
    requires y.exit < |y.b.blocks|
  {
    var test, l := |b.blocks| + 1, Link(y.b, y.exit, |b.blocks| + 2);
    || t == OptionalEnter(Blocks(b, 4), init, test) || t == OptionalEnter(CheckBase(l, check), check, y.enter)
    || t == OptionalEnter(c, update, test) || |b.blocks| < t < |b.blocks| + 4 || t == y.enter
    || (check.Some? && t == |l.blocks|)
  }

  lemma ForTargetEnters(b: Build, init: Option<Expr>, check: Option<Expr>, update: Option<Expr>, bps: seq<Points>,
      i: Build, y: Part, c: Build, j: nat, t: nat)
    requires ForReady(b, init, check, update, bps, i, y, c) && |b.blocks| + 2 < |c.blocks| && y.exit < |y.b.blocks| &&
        j < 4
    requires ForTarget(b, init, check, update, y, c, t)
    ensures var p := ForPieces(b, init, check, update, bps, i, y, c)[j]; NewBlockOf(p.b, p.a, t) ==> t == p.enter
  {
    hide Region, GenExpr, GenStep, GenCheck, Blocks, PieceShaped, PointsOf;
    var test, l := |b.blocks| + 1, Link(y.b, y.exit, |b.blocks| + 2);
    ForOrdered(b, init, check, update, bps, i, y, c);
    OptionalFacts(Blocks(b, 4), init, [Jump(test)]);
    OptionalFacts(CheckBase(l, check), check, [Jump(|l.blocks|)]);
    OptionalFacts(c, update, [Jump(test)]);
  }

  lemma ForKeepsOff(b: Build, init: Option<Expr>, check: Option<Expr>, update: Option<Expr>, bps: seq<Points>, i: Build,
      y: Part, c: Build, j: nat)
    requires ForReady(b, init, check, update, bps, i, y, c) && |b.blocks| + 2 < |c.blocks| && y.exit < |y.b.blocks| &&
        j < 4
    ensures GlueKeepsOff(ForPieces(b, init, check, update, bps, i, y, c), ForOwn(b, init, check, update, y, c),
        ForPieces(b, init, check, update, bps, i, y, c)[j])
  {
    hide Region, GenExpr, GenStep, GenCheck, Blocks, Glue, HandsOff, PieceShaped, ForOwn, PointsOf, ForReady;
    ForFour(b, init, check, update, bps, i, y, c);
    var pieces, own := ForPieces(b, init, check, update, bps, i, y, c), ForOwn(b, init, check, update, y, c);
    var p := pieces[j];
    forall x: nat, node: Node | Glue(pieces, own, x, node)
      ensures HandsOff(p.b, p.a, p.result, node) && forall t :: t in Targets(node) && NewBlockOf(p.b, p.a, t) ==>
          t == p.enter
    {
      ForEnters(b, init, check, update, bps, i, y, c, j, x, node);
      ForGlue(b, init, check, update, bps, i, y, c, x, node);
      if node.Jump? {
        JumpHandsOff(p.b, p.a, p.result, node.dest);
      } else {
        CheckResult(b, init, check, update, bps, i, y, c, j);
        BranchHandsOff(p.b, p.a, p.result, node.cond, node.onTrue, node.onFalse);
      }
    }
  }

  /** The result of the test belongs to its piece. */
  lemma CheckResult(b: Build, init: Option<Expr>, check: Option<Expr>, update: Option<Expr>, bps: seq<Points>, i: Build,
      y: Part, c: Build, j: nat)
    requires ForReady(b, init, check, update, bps, i, y, c) && |b.blocks| + 2 < |c.blocks| && y.exit < |y.b.blocks| &&
        j < 4 && check.Some?
    ensures var p, v := ForPieces(b, init, check, update, bps, i, y, c)[j],
        GenExpr(NewBlock(Link(y.b, y.exit, |b.blocks| + 2)), check.value).v;
      NewTempOf(p.b, p.a, v) ==> p.result == Some(v)
  {
    hide Region, GenExpr, GenStep, GenCheck, Blocks, PieceShaped;
    ForOrdered(b, init, check, update, bps, i, y, c);
    AboveOf(NewBlock(Link(y.b, y.exit, |b.blocks| + 2)), check.value);
  }

  function ForPart(b: Build, update: Option<Expr>, c: Build): Part
    requires |b.blocks| + 2 < |c.blocks|
  {
    Part(GenStep(c, update, |b.blocks| + 2, |b.blocks| + 1), |b.blocks|, |b.blocks| + 3)
  }

  /** All parts of a `for` loop lie behind its first four blocks. */
  lemma ForApart(b: Build, init: Option<Expr>, check: Option<Expr>, update: Option<Expr>, bps: seq<Points>, i: Build,
      y: Part, c: Build, j: nat)
    requires ForReady(b, init, check, update, bps, i, y, c) && |b.blocks| + 2 < |c.blocks| && y.exit < |y.b.blocks| &&
        j < 4
    ensures var pieces := ForPieces(b, init, check, update, bps, i, y, c);
      && |b.blocks| + 4 <= |pieces[j].b.blocks| && pieces[j].pts <= {|b.blocks| + 3, |b.blocks| + 1}
      && Meets(|b.blocks|, |b.blocks| + 3, None, pieces[j])
  {
    hide Region, GenExpr, GenStep, GenCheck, Blocks, PieceShaped, Above;
    ForOrdered(b, init, check, update, bps, i, y, c);
    LoopPointsAre(bps, |b.blocks| + 3, |b.blocks| + 1);
  }

  lemma ForPolite(b: Build, init: Option<Expr>, check: Option<Expr>, update: Option<Expr>, bps: seq<Points>, i: Build,
      y: Part, c: Build)
    requires ForReady(b, init, check, update, bps, i, y, c) && |b.blocks| + 2 < |c.blocks| && y.exit < |y.b.blocks|
    ensures var p, pieces, own := ForPart(b, update, c), ForPieces(b, init, check, update, bps, i, y, c),
        ForOwn(b, init, check, update, y, c);
      Polite(b, p.b, p.enter, p.exit, None, pieces, own) && Mergeless(pieces, own)
  {
    hide ForPieces, Region, GenExpr, GenStep, GenCheck, Blocks, Glue, HandsOff, PieceShaped, ForOwn, GlueKeepsOff,
        Assembled, ForReady, Meets;
    var p, pieces, own := ForPart(b, update, c), ForPieces(b, init, check, update, bps, i, y, c),
        ForOwn(b, init, check, update, y, c);
    ForAssembled(b, init, check, update, bps, i, y, c);
    ForFour(b, init, check, update, bps, i, y, c);
    forall j | 0 <= j < 4 ensures GlueKeepsOff(pieces, own, pieces[j]) && Meets(p.enter, p.exit, None, pieces[j])
      && |b.blocks| + 4 <= |pieces[j].b.blocks| && pieces[j].pts <= {|b.blocks| + 3, |b.blocks| + 1}
    {
      ForKeepsOff(b, init, check, update, bps, i, y, c, j);
      ForApart(b, init, check, update, bps, i, y, c, j);
    }
    forall x: nat, node: Node | Glue(pieces, own, x, node) ensures !node.Plain? {
      ForGlue(b, init, check, update, bps, i, y, c, x, node);
    }
  }

  lemma ForFour(b: Build, init: Option<Expr>, check: Option<Expr>, update: Option<Expr>, bps: seq<Points>, i: Build,
      y: Part, c: Build)
    requires y.exit < |y.b.blocks|
    ensures |ForPieces(b, init, check, update, bps, i, y, c)| == 4
  {
  }

  lemma ForLeads(b: Build, init: Option<Expr>, check: Option<Expr>, update: Option<Expr>, bps: seq<Points>, i: Build,
      y: Part, c: Build, g: Graph, entry: nat, Ls: seq<map<nat, Life>>, Fs: seq<map<nat, Fork>>)
    requires ForReady(b, init, check, update, bps, i, y, c) && |b.blocks| + 2 < |c.blocks| && y.exit < |y.b.blocks|
    requires HostsPart(b, ForPart(b, update, c), g, entry) && |Ls| == |Fs| == 4
    ensures AllLeadOut(b, ForPart(b, update, c).b, ForPieces(b, init, check, update, bps, i, y, c),
        ForOwn(b, init, check, update, y, c), g,
      Parts(Ls, Fs, [{}, {}, if check.Some? then {|y.b.blocks|} else {}, {}], map[], map[]))
  {
    hide Region, GenExpr, GenStep, GenCheck, Blocks, Glue, HandsOff, PieceShaped, ForOwn, Assembled, Hosts, ForReady;
    var p, pieces, own := ForPart(b, update, c), ForPieces(b, init, check, update, bps, i, y, c),
        ForOwn(b, init, check, update, y, c);
    var q := Parts(Ls, Fs, [{}, {}, if check.Some? then {|y.b.blocks|} else {}, {}], map[], map[]);
    forall j | 0 <= j < 4 && pieces[j].result.Some?
        ensures LeadsOut(b, p.b, pieces, own, pieces[j], g, pieces[j].result.value, q.extras[j]) {
      ForPieceLeads(b, init, check, update, bps, i, y, c, g, entry, j);
    }
  }

  lemma ForPieceLeads(b: Build, init: Option<Expr>, check: Option<Expr>, update: Option<Expr>, bps: seq<Points>,
      i: Build, y: Part, c: Build, g: Graph, entry: nat, j: nat)
    requires ForReady(b, init, check, update, bps, i, y, c) && |b.blocks| + 2 < |c.blocks| && y.exit < |y.b.blocks|
    requires HostsPart(b, ForPart(b, update, c), g, entry) && j < 4
    requires ForPieces(b, init, check, update, bps, i, y, c)[j].result.Some?
    ensures var pieces := ForPieces(b, init, check, update, bps, i, y, c);
      LeadsOut(b, ForPart(b, update, c).b, pieces, ForOwn(b, init, check, update, y, c), pieces[j], g,
          pieces[j].result.value, if j == 2 && check.Some? then {|y.b.blocks|} else {})
  {
    hide Region, GenExpr, GenStep, GenCheck, Blocks, Glue, HandsOff, PieceShaped, ForOwn, Assembled, Hosts, ForReady,
        PointsOf;
    var p, pieces, own := ForPart(b, update, c), ForPieces(b, init, check, update, bps, i, y, c),
        ForOwn(b, init, check, update, y, c);
    var piece := pieces[j];
    ForForkOutside(b, init, check, update, bps, i, y, c, j);
    var extra: set<nat> := if j == 2 && check.Some? then {|y.b.blocks|} else {};
    ForOrdered(b, init, check, update, bps, i, y, c);
    OptionalFacts(Blocks(b, 4), init, [Jump(|b.blocks| + 1)]);
    OptionalFacts(c, update, [Jump(|b.blocks| + 1)]);
    forall x: nat, node: Node | Glue(pieces, own, x, node) && piece.result.value in NodeReads(node) ensures x in extra {
      ForGlue(b, init, check, update, bps, i, y, c, x, node);
      ForReads(b, init, check, update, bps, i, y, c, j);
    }
    forall q: nat, x: nat | x in extra && Edge(g, q, x) ensures q in extra || q == piece.exit {
      ForAssembled(b, init, check, update, bps, i, y, c);
      ForForkLed(b, init, check, update, bps, i, y, c, g, entry, q);
    }
  }

  /** The block that branches belongs to the loop itself. */
  lemma ForForkOutside(b: Build, init: Option<Expr>, check: Option<Expr>, update: Option<Expr>, bps: seq<Points>,
      i: Build, y: Part, c: Build, j: nat)
    requires ForReady(b, init, check, update, bps, i, y, c) && |b.blocks| + 2 < |c.blocks| && y.exit < |y.b.blocks| &&
        j < 4
    ensures var p := ForPieces(b, init, check, update, bps, i, y, c)[j];
      check.Some? && j == 2 ==>
          NewBlockOf(b, ForPart(b, update, c).b, |y.b.blocks|) && !NewBlockOf(p.b, p.a, |y.b.blocks|)
  {
    hide Region, GenExpr, GenStep, GenCheck, Blocks, PieceShaped, PointsOf;
    ForOrdered(b, init, check, update, bps, i, y, c);
  }

  /** Only the result of the test is read by the loop itself. */
  lemma ForReads(b: Build, init: Option<Expr>, check: Option<Expr>, update: Option<Expr>, bps: seq<Points>, i: Build,
      y: Part, c: Build, j: nat)
    requires ForReady(b, init, check, update, bps, i, y, c) && |b.blocks| + 2 < |c.blocks| && y.exit < |y.b.blocks| &&
        j < 4
    requires ForPieces(b, init, check, update, bps, i, y, c)[j].result.Some? && check.Some?
    ensures
      ForPieces(b, init, check, update, bps, i, y, c)[j].result.value ==
      GenExpr(NewBlock(Link(y.b, y.exit, |b.blocks| + 2)), check.value).v ==>
      j == 2
  {
    hide Region, GenExpr, GenStep, GenCheck, Blocks, PieceShaped;
    ForOrdered(b, init, check, update, bps, i, y, c);
    AboveOf(NewBlock(Link(y.b, y.exit, |b.blocks| + 2)), check.value);
    if init.Some? { AboveOf(Blocks(b, 4), init.value); }
    if update.Some? { AboveOf(c, update.value); }
  }

  lemma ForForkLed(b: Build, init: Option<Expr>, check: Option<Expr>, update: Option<Expr>, bps: seq<Points>, i: Build,
      y: Part, c: Build, g: Graph, entry: nat, q: nat)
    requires ForReady(b, init, check, update, bps, i, y, c) && |b.blocks| + 2 < |c.blocks| && y.exit < |y.b.blocks| &&
        check.Some?
    requires HostsPart(b, ForPart(b, update, c), g, entry) && Edge(g, q, |y.b.blocks|)
    ensures q == ForPieces(b, init, check, update, bps, i, y, c)[2].exit
  {
    hide Region, GenExpr, GenStep, GenCheck, Blocks, Glue, HandsOff, PieceShaped, Assembled, Hosts, ForOwn;
    var p, pieces, own := ForPart(b, update, c), ForPieces(b, init, check, update, bps, i, y, c),
        ForOwn(b, init, check, update, y, c);
    var x := |y.b.blocks|;
    ForAssembled(b, init, check, update, bps, i, y, c);
    ForOrdered(b, init, check, update, bps, i, y, c);
    LoopPointsAre(bps, |b.blocks| + 3, |b.blocks| + 1);
    OptionalFacts(Blocks(b, 4), init, [Jump(|b.blocks| + 1)]);
    OptionalFacts(CheckBase(Link(y.b, y.exit, |b.blocks| + 2), check), check, [Jump(x)]);
    OptionalFacts(c, update, [Jump(|b.blocks| + 1)]);
    Led(b, p.b, p.enter, p.exit, None, pieces, own, x, g, entry, q);
    if node :| Glue(pieces, own, q, node) && x in Targets(node) {
      ForGlue(b, init, check, update, bps, i, y, c, q, node);
    }
  }
}
