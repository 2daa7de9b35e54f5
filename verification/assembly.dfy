/** How the code of a construct is put together: the regions of its parts, each with
    nodes pushed onto its exit, and blocks of its own.
  */
module Assembly {
  import opened Ir
  import opened Cfg
  import opened C0
  import opened C0Shape
  import opened Scope

  /** A region as a part of a larger one.  `result` is the temporary that may be read
      outside, `tail` what was pushed onto the exit. */
  datatype Piece = Piece(b: Build, a: Build, enter: nat, exit: nat, result: Option<nat>, pts: set<nat>, tail: Block)

  /** A part that is missing. */
  predicate Absent(p: Piece) {
    |p.a.blocks| == |p.b.blocks| && p.a.vars == p.b.vars && p.result.None? && p.pts == {} && p.tail == []
  }

  ghost predicate PieceShaped(p: Piece) {
    || Absent(p)
    || (&& Region(p.b, p.a, {p.exit}, p.pts) && NewBlockOf(p.b, p.a, p.enter)
        && (p.result.Some? ==> NewTempOf(p.b, p.a, p.result.value)))
  }

  predicate Within(b: Build, a: Build, p: Piece) {
    |b.blocks| <= |p.b.blocks| && |p.a.blocks| <= |a.blocks| && b.vars <= p.b.vars && p.a.vars <= a.vars
  }

  predicate Before(p: Piece, q: Piece) { |p.a.blocks| <= |q.b.blocks| && p.a.vars <= q.b.vars }

  /** What a block of a piece holds in the whole. */
  function PieceBlock(p: Piece, x: nat): Block
    requires x < |p.a.blocks|
  {
    p.a.blocks[x] + if x == p.exit then p.tail else []
  }

  /** The block at `x` is one of the construct's own or belongs to a piece. */
  ghost predicate Placed(pieces: seq<Piece>, own: map<nat, Block>, x: nat, block: Block) {
    || (x in own && block == own[x])
    || exists j :: 0 <= j < |pieces| && NewBlockOf(pieces[j].b, pieces[j].a, x) && block == PieceBlock(pieces[j], x)
  }

  ghost predicate Assembled(b: Build, a: Build, pieces: seq<Piece>, own: map<nat, Block>) {
    && |b.blocks| <= |a.blocks| && b.vars <= a.vars
    && (forall j :: 0 <= j < |pieces| ==> PieceShaped(pieces[j]) && Within(b, a, pieces[j]))
    && (forall i, j :: 0 <= i < j < |pieces| ==> Before(pieces[i], pieces[j]))
    && (forall x :: x in own ==> NewBlockOf(b, a, x))
    && (forall x: nat, j :: x in own && 0 <= j < |pieces| ==> !NewBlockOf(pieces[j].b, pieces[j].a, x))
    && (forall x: nat :: NewBlockOf(b, a, x) ==> Placed(pieces, own, x, a.blocks[x]))
  }

  /** A node that belongs to no piece. */
  ghost predicate Glue(pieces: seq<Piece>, own: map<nat, Block>, x: nat, node: Node) {
    || (x in own && node in own[x])
    || exists j :: 0 <= j < |pieces| && x == pieces[j].exit && node in pieces[j].tail
  }

  /** A node inside a piece. */
  ghost predicate InPiece(p: Piece, x: nat, i: nat, node: Node) {
    NewBlockOf(p.b, p.a, x) && i < |p.a.blocks[x]| && node == p.a.blocks[x][i]
  }

  /** Every node is glue or inside a piece. */
  lemma Dissect(b: Build, a: Build, pieces: seq<Piece>, own: map<nat, Block>, x: nat, i: nat)
    requires Assembled(b, a, pieces, own) && NewBlockOf(b, a, x) && i < |a.blocks[x]|
    ensures Glue(pieces, own, x, a.blocks[x][i])
      || exists j :: 0 <= j < |pieces| && InPiece(pieces[j], x, i, a.blocks[x][i])
  {
    assert Placed(pieces, own, x, a.blocks[x]);
    if !(x in own && a.blocks[x] == own[x]) {
      var j :| 0 <= j < |pieces| && NewBlockOf(pieces[j].b, pieces[j].a, x) && a.blocks[x] == PieceBlock(pieces[j], x);
      if i < |pieces[j].a.blocks[x]| {
        assert InPiece(pieces[j], x, i, a.blocks[x][i]);
      } else {
        assert a.blocks[x][i] in pieces[j].tail;
      }
    }
  }

  /** A node inside a piece leads into the piece or to its points, and names
      temporaries of the piece. */
  lemma InPieceStays(p: Piece, x: nat, i: nat, node: Node)
    requires PieceShaped(p) && InPiece(p, x, i, node)
    ensures NodeIn(p.b, p.a, p.pts, node)
    ensures x == p.exit ==> Targets(node) == {}
  {
    assert BlockIn(p.b, p.a, p.pts, p.a.blocks[x]) && Shaped({p.exit}, x, p.a.blocks[x]);
  }

  // ----- regions in a graph -----

  /** The place is not one of those built from `b` up to `a`. */
  predicate Outside(b: Build, a: Build, x: nat, i: nat) {
    !(NewBlockOf(b, a, x) && i < |a.blocks[x]|)
  }

  ghost predicate ReadsOnly(result: Option<nat>, v: nat, node: Node) {
    result == Some(v) && NodeWrites(node) != Some(v)
  }

  /** What is outside of the region does not touch its temporaries, but may read its
      result. */
  ghost predicate HandsOff(b: Build, a: Build, result: Option<nat>, node: Node) {
    forall v :: v in NodeMentions(node) && NewTempOf(b, a, v) ==> ReadsOnly(result, v, node)
  }

  ghost predicate KeptBlocks(b: Build, a: Build, exit: nat, g: Graph) {
    && |b.blocks| <= |a.blocks| <= |g|
    && forall x: nat :: NewBlockOf(b, a, x) ==> if x == exit then a.blocks[x] <= g[x] else g[x] == a.blocks[x]
  }

  ghost predicate EnteredAt(b: Build, a: Build, enter: nat, exit: nat, g: Graph) {
    forall p: nat, x: nat :: Edge(g, p, x) && NewBlockOf(b, a, x) && x != enter ==> NewBlockOf(b, a, p) && p != exit
  }

  ghost predicate LeftAlone(b: Build, a: Build, result: Option<nat>, g: Graph) {
    forall x: nat, i: nat :: x < |g| && i < |g[x]| && Outside(b, a, x, i) ==> HandsOff(b, a, result, g[x][i])
  }

  /** The graph holds the region, enters it at one place and leaves its temporaries
      alone. */
  ghost predicate Hosts(b: Build, a: Build, enter: nat, exit: nat, result: Option<nat>, g: Graph, entry: nat) {
    && KeptBlocks(b, a, exit, g) && EnteredAt(b, a, enter, exit, g) && LeftAlone(b, a, result, g)
    && !NewBlockOf(b, a, entry)
  }

  ghost predicate HostsPiece(p: Piece, g: Graph, entry: nat) { Hosts(p.b, p.a, p.enter, p.exit, p.result, g, entry) }

  /** Glue does not lead into a piece except to its entrance, and reads at most the
      result of the piece. */
  ghost predicate GlueKeepsOff(pieces: seq<Piece>, own: map<nat, Block>, p: Piece) {
    forall x: nat, node: Node :: Glue(pieces, own, x, node) ==>
      HandsOff(p.b, p.a, p.result, node) && forall t :: t in Targets(node) && NewBlockOf(p.b, p.a, t) ==> t == p.enter
  }

  /** How the whole meets the outside through the piece. */
  predicate Meets(enter: nat, exit: nat, result: Option<nat>, p: Piece) {
    && (NewBlockOf(p.b, p.a, enter) ==> enter == p.enter)
    && (NewBlockOf(p.b, p.a, exit) ==> exit == p.exit)
    && (result.Some? && NewTempOf(p.b, p.a, result.value) ==> result == p.result)
  }

  /** No piece leads into another by its points. */
  ghost predicate PointsApart(pieces: seq<Piece>, p: Piece) {
    forall j, t :: 0 <= j < |pieces| && t in pieces[j].pts ==> !NewBlockOf(p.b, p.a, t)
  }

  lemma PieceKept(b: Build, a: Build, exit: nat, pieces: seq<Piece>, own: map<nat, Block>, j: nat, g: Graph)
    requires Assembled(b, a, pieces, own) && j < |pieces| && KeptBlocks(b, a, exit, g)
    requires NewBlockOf(pieces[j].b, pieces[j].a, exit) ==> exit == pieces[j].exit
    ensures KeptBlocks(pieces[j].b, pieces[j].a, pieces[j].exit, g)
  {
    var p := pieces[j];
    forall x: nat | NewBlockOf(p.b, p.a, x)
        ensures if x == p.exit then p.a.blocks[x] <= g[x] else g[x] == p.a.blocks[x] {
      PieceContent(b, a, pieces, own, j, x);
      assert NewBlockOf(b, a, x);
    }
  }

  lemma PiecesApart(b: Build, a: Build, pieces: seq<Piece>, own: map<nat, Block>, i: nat, j: nat, x: nat)
    requires Assembled(b, a, pieces, own) && i < j < |pieces|
    ensures !NewBlockOf(pieces[i].b, pieces[i].a, x) || !NewBlockOf(pieces[j].b, pieces[j].a, x)
  {
    assert Before(pieces[i], pieces[j]);
  }

  /** A block lies in at most one piece. */
  lemma OnePiece(b: Build, a: Build, pieces: seq<Piece>, own: map<nat, Block>, i: nat, j: nat, x: nat)
    requires Assembled(b, a, pieces, own) && i < |pieces| && j < |pieces|
    requires NewBlockOf(pieces[i].b, pieces[i].a, x) && NewBlockOf(pieces[j].b, pieces[j].a, x)
    ensures i == j
  {
    if i < j { PiecesApart(b, a, pieces, own, i, j, x); } else if j < i { PiecesApart(b, a, pieces, own, j, i, x); }
  }

  lemma PieceContent(b: Build, a: Build, pieces: seq<Piece>, own: map<nat, Block>, j: nat, x: nat)
    requires Assembled(b, a, pieces, own) && j < |pieces| && NewBlockOf(pieces[j].b, pieces[j].a, x)
    ensures NewBlockOf(b, a, x) && a.blocks[x] == PieceBlock(pieces[j], x)
  {
    assert Within(b, a, pieces[j]);
    assert Placed(pieces, own, x, a.blocks[x]);
    if i :| 0 <= i < |pieces| && NewBlockOf(pieces[i].b, pieces[i].a, x) && a.blocks[x] == PieceBlock(pieces[i], x) {
      OnePiece(b, a, pieces, own, i, j, x);
    }
  }

  lemma PieceEntered(b: Build, a: Build, enter: nat, exit: nat, result: Option<nat>, pieces: seq<Piece>,
      own: map<nat, Block>, j: nat, g: Graph)
    requires Assembled(b, a, pieces, own) && j < |pieces|
    requires KeptBlocks(b, a, exit, g) && EnteredAt(b, a, enter, exit, g)
    requires Meets(enter, exit, result, pieces[j]) && GlueKeepsOff(pieces, own, pieces[j]) &&
        PointsApart(pieces, pieces[j])
    ensures EnteredAt(pieces[j].b, pieces[j].a, pieces[j].enter, pieces[j].exit, g)
  {
    var p := pieces[j];
    forall q: nat, x: nat | Edge(g, q, x) && NewBlockOf(p.b, p.a, x) && x != p.enter
      ensures NewBlockOf(p.b, p.a, q) && q != p.exit
    {
      assert Within(b, a, p) && NewBlockOf(b, a, x);
      assert NewBlockOf(b, a, q) && q != exit && g[q] == a.blocks[q];
      var i :| 0 <= i < |g[q]| && x in Targets(g[q][i]);
      Dissect(b, a, pieces, own, q, i);
      if !Glue(pieces, own, q, g[q][i]) {
        var k :| 0 <= k < |pieces| && InPiece(pieces[k], q, i, g[q][i]);
        InPieceStays(pieces[k], q, i, g[q][i]);
        assert x !in pieces[k].pts;
        OnePiece(b, a, pieces, own, k, j, x);
      }
    }
  }

  lemma PieceAlone(b: Build, a: Build, enter: nat, exit: nat, result: Option<nat>, pieces: seq<Piece>,
      own: map<nat, Block>, j: nat, g: Graph)
    requires Assembled(b, a, pieces, own) && j < |pieces|
    requires KeptBlocks(b, a, exit, g) && LeftAlone(b, a, result, g)
    requires Meets(enter, exit, result, pieces[j]) && GlueKeepsOff(pieces, own, pieces[j])
    ensures LeftAlone(pieces[j].b, pieces[j].a, pieces[j].result, g)
  {
    var p := pieces[j];
    assert Within(b, a, p);
    forall x: nat, i: nat | x < |g| && i < |g[x]| && Outside(p.b, p.a, x, i)
        ensures HandsOff(p.b, p.a, p.result, g[x][i]) {
      if Outside(b, a, x, i) {
        assert HandsOff(b, a, result, g[x][i]);
        forall v | v in NodeMentions(g[x][i]) && NewTempOf(p.b, p.a, v) ensures ReadsOnly(p.result, v, g[x][i]) {
          assert NewTempOf(b, a, v);
        }
      } else {
        assert g[x][i] == a.blocks[x][i];
        Dissect(b, a, pieces, own, x, i);
        if !Glue(pieces, own, x, g[x][i]) {
          var k :| 0 <= k < |pieces| && InPiece(pieces[k], x, i, g[x][i]);
          InPieceStays(pieces[k], x, i, g[x][i]);
          TempsApart(b, a, pieces, own, k, j, g[x][i]);
        }
      }
    }
  }

  lemma TempsApart(b: Build, a: Build, pieces: seq<Piece>, own: map<nat, Block>, k: nat, j: nat, node: Node)
    requires Assembled(b, a, pieces, own) && j < |pieces| && k < |pieces| && k != j
    requires NodeIn(pieces[k].b, pieces[k].a, pieces[k].pts, node)
    ensures HandsOff(pieces[j].b, pieces[j].a, pieces[j].result, node)
  {
    if k < j { assert Before(pieces[k], pieces[j]); } else { assert Before(pieces[j], pieces[k]); }
  }

  /** A graph that hosts the whole hosts every piece. */
  lemma PieceHosted(b: Build, a: Build, enter: nat, exit: nat, result: Option<nat>, pieces: seq<Piece>,
      own: map<nat, Block>, j: nat, g: Graph, entry: nat)
    requires Assembled(b, a, pieces, own) && j < |pieces| && Hosts(b, a, enter, exit, result, g, entry)
    requires Meets(enter, exit, result, pieces[j]) && GlueKeepsOff(pieces, own, pieces[j]) &&
        PointsApart(pieces, pieces[j])
    ensures HostsPiece(pieces[j], g, entry)
  {
    PieceKept(b, a, exit, pieces, own, j, g);
    PieceEntered(b, a, enter, exit, result, pieces, own, j, g);
    PieceAlone(b, a, enter, exit, result, pieces, own, j, g);
    assert Within(b, a, pieces[j]);
  }

  /** Who leads to a block: glue, or a block of the same piece. */
  lemma Led(b: Build, a: Build, enter: nat, exit: nat, result: Option<nat>, pieces: seq<Piece>, own: map<nat, Block>,
      x: nat, g: Graph, entry: nat, p: nat)
    requires Assembled(b, a, pieces, own) && Hosts(b, a, enter, exit, result, g, entry)
    requires NewBlockOf(b, a, x) && x != enter && (forall j :: 0 <= j < |pieces| ==> x !in pieces[j].pts)
    requires Edge(g, p, x)
    ensures (exists node :: Glue(pieces, own, p, node) && x in Targets(node))
      || exists j :: 0 <= j < |pieces| && NewBlockOf(pieces[j].b, pieces[j].a, x) &&
          NewBlockOf(pieces[j].b, pieces[j].a, p)
  {
    assert NewBlockOf(b, a, p) && p != exit && g[p] == a.blocks[p];
    var i :| 0 <= i < |g[p]| && x in Targets(g[p][i]);
    Dissect(b, a, pieces, own, p, i);
    if !Glue(pieces, own, p, g[p][i]) {
      var k :| 0 <= k < |pieces| && InPiece(pieces[k], p, i, g[p][i]);
      InPieceStays(pieces[k], p, i, g[p][i]);
    }
  }

  // ----- temporaries of a region -----

  predicate LifeIn(b: Build, a: Build, l: Life) {
    NewBlockOf(b, a, l.home) && forall x :: x in l.zone ==> NewBlockOf(b, a, x)
  }

  /** As `Lives`, but nothing is said of readers outside of the region. */
  ghost predicate LivesInside(g: Graph, entry: nat, b: Build, a: Build, v: nat, l: Life) {
    && DefinedOnce(g, v, l) && ZoneClosed(g, entry, l)
    && l.home < |a.blocks| && l.def < |a.blocks[l.home]|
    && forall x: nat, i: nat :: ReadsThere(g, x, i, v) && !Outside(b, a, x, i) ==> Held(l, x, i)
  }

  ghost predicate TempScoped(g: Graph, entry: nat, b: Build, a: Build, result: Option<nat>, v: nat, l: Life) {
    if result == Some(v) then LivesInside(g, entry, b, a, v, l) else Lives(g, entry, v, l)
  }

  ghost predicate TempsScoped(g: Graph, entry: nat, b: Build, a: Build, result: Option<nat>, lives: map<nat, Life>) {
    && (forall v :: v in lives <==> NewTempOf(b, a, v))
    && (forall v :: v in lives ==> LifeIn(b, a, lives[v]) && TempScoped(g, entry, b, a, result, v, lives[v]))
  }

  ghost predicate MergesScoped(g: Graph, entry: nat, b: Build, a: Build, lives: map<nat, Life>, forks: map<nat, Fork>) {
    && (forall x :: x in forks ==> NewBlockOf(b, a, x))
    && forall x: nat, i: nat, item: Item<Text> ::
         item.Merge? && NodeAt(g, x, i, Plain(item)) && !Outside(b, a, x, i) ==>
         x in forks && Merges(g, entry, x, i, item, forks[x], lives)
  }

  /** The exit of the code is where its result is held. */
  predicate ExitHeld(exit: nat, result: Option<nat>, lives: map<nat, Life>) {
    result.Some? ==> result.value in lives && (exit in lives[result.value].zone || exit == lives[result.value].home)
  }

  /** Everything in a region is scoped. */
  ghost predicate ScopedPart(g: Graph, entry: nat, b: Build, a: Build, exit: nat, result: Option<nat>,
      lives: map<nat, Life>, forks: map<nat, Fork>) {
    TempsScoped(g, entry, b, a, result, lives) && MergesScoped(g, entry, b, a, lives, forks) &&
        ExitHeld(exit, result, lives)
  }

  /** Nothing outside of the piece but glue reads its result. */
  lemma ResultReaders(b: Build, a: Build, enter: nat, exit: nat, result: Option<nat>, pieces: seq<Piece>,
      own: map<nat, Block>, j: nat, g: Graph, entry: nat, v: nat, x: nat, i: nat)
    requires Assembled(b, a, pieces, own) && Hosts(b, a, enter, exit, result, g, entry) && j < |pieces|
    requires pieces[j].result == Some(v) && result != Some(v)
    requires ReadsThere(g, x, i, v) && Outside(pieces[j].b, pieces[j].a, x, i)
    ensures Glue(pieces, own, x, g[x][i])
  {
    var p := pieces[j];
    assert PieceShaped(p) && Within(b, a, p);
    ReadsMentioned(g[x][i], v);
    assert NewTempOf(b, a, v);
    assert Outside(b, a, x, i) ==> HandsOff(b, a, result, g[x][i]);
    assert g[x][i] == a.blocks[x][i];
    Dissect(b, a, pieces, own, x, i);
    if !Glue(pieces, own, x, g[x][i]) {
      var k :| 0 <= k < |pieces| && InPiece(pieces[k], x, i, g[x][i]);
      InPieceStays(pieces[k], x, i, g[x][i]);
      TempsApart(b, a, pieces, own, k, j, g[x][i]);
      TempInOne(b, a, pieces, own, k, j, v);
    }
  }

  lemma TempInOne(b: Build, a: Build, pieces: seq<Piece>, own: map<nat, Block>, k: nat, j: nat, v: nat)
    requires Assembled(b, a, pieces, own) && j < |pieces| && k < |pieces| && k != j
    ensures !NewTempOf(pieces[k].b, pieces[k].a, v) || !NewTempOf(pieces[j].b, pieces[j].a, v)
  {
    if k < j { assert Before(pieces[k], pieces[j]); } else { assert Before(pieces[j], pieces[k]); }
  }

  /** Outside of the code, the exit is a place where the result is held. */
  lemma HeldPastExit(b: Build, a: Build, exit: nat, v: nat, l: Life, lives: map<nat, Life>, x: nat, i: nat)
    requires v in lives && l == lives[v] && ExitHeld(exit, Some(v), lives) && l.home < |a.blocks| &&
        l.def < |a.blocks[l.home]|
    requires NewBlockOf(b, a, exit) && x == exit && Outside(b, a, x, i)
    ensures Held(l, x, i)
  {
  }

  /** The zone of a result, extended to the blocks that lead to its readers. */
  lemma ZoneGrows(g: Graph, entry: nat, l: Life, exit: nat, extra: set<nat>)
    requires ZoneClosed(g, entry, l) && (exit in l.zone || exit == l.home)
    requires l.home !in extra && entry !in extra
    requires forall p: nat, x: nat :: x in extra && Edge(g, p, x) ==> p in extra || p == exit
    ensures ZoneClosed(g, entry, l.(zone := l.zone + extra))
  {
  }

  lemma SameDefinition(g: Graph, v: nat, l: Life, extra: set<nat>)
    ensures DefinedOnce(g, v, l.(zone := l.zone + extra)) == DefinedOnce(g, v, l)
  {
  }

  /** What the construct around a piece has to show of the blocks between the exit of
      the piece and the readers of its result. */
  ghost predicate LeadsOut(b: Build, a: Build, pieces: seq<Piece>, own: map<nat, Block>, p: Piece, g: Graph, v: nat,
      extra: set<nat>) {
    && (forall x: nat, node: Node :: Glue(pieces, own, x, node) && v in NodeReads(node) ==> x in extra || x == p.exit)
    && (forall x :: x in extra ==> NewBlockOf(b, a, x) && !NewBlockOf(p.b, p.a, x))
    && (forall q: nat, x: nat :: x in extra && Edge(g, q, x) ==> q in extra || q == p.exit)
  }

  lemma PieceLife(g: Graph, entry: nat, b: Build, a: Build, pieces: seq<Piece>, own: map<nat, Block>, j: nat, v: nat,
      lives: map<nat, Life>)
    requires Assembled(b, a, pieces, own) && j < |pieces|
    requires TempsScoped(g, entry, pieces[j].b, pieces[j].a, Some(v), lives) && ExitHeld(pieces[j].exit, Some(v), lives)
    ensures v in lives && LivesInside(g, entry, pieces[j].b, pieces[j].a, v, lives[v]) &&
        LifeIn(pieces[j].b, pieces[j].a, lives[v])
    ensures NewBlockOf(pieces[j].b, pieces[j].a, pieces[j].exit) && Within(b, a, pieces[j])
  {
    assert PieceShaped(pieces[j]);
  }

  lemma LifeGrows(b: Build, a: Build, p: Piece, l: Life, extra: set<nat>)
    requires Within(b, a, p) && LifeIn(p.b, p.a, l) && forall x :: x in extra ==> NewBlockOf(b, a, x)
    ensures LifeIn(b, a, l.(zone := l.zone + extra))
  {
  }

  /** The result of a piece lives in its zone and in the blocks that lead to where the
      construct reads it. */
  lemma CloseResult(b: Build, a: Build, enter: nat, exit: nat, result: Option<nat>, pieces: seq<Piece>,
      own: map<nat, Block>, j: nat, g: Graph, entry: nat, v: nat, lives: map<nat, Life>, extra: set<nat>)
    requires Assembled(b, a, pieces, own) && Hosts(b, a, enter, exit, result, g, entry) && j < |pieces|
    requires pieces[j].result == Some(v) && result != Some(v)
    requires TempsScoped(g, entry, pieces[j].b, pieces[j].a, Some(v), lives) && ExitHeld(pieces[j].exit, Some(v), lives)
    requires LeadsOut(b, a, pieces, own, pieces[j], g, v, extra)
    ensures v in lives
    ensures var l := lives[v].(zone := lives[v].zone + extra);
      Lives(g, entry, v, l) && LifeIn(b, a, l)
  {
    hide Hosts, Assembled, TempsScoped, DefinedOnce, ZoneClosed, Glue;
    PieceLife(g, entry, b, a, pieces, own, j, v, lives);
    var l, piece := lives[v], pieces[j];
    var l' := l.(zone := l.zone + extra);
    forall x: nat, i: nat | ReadsThere(g, x, i, v) ensures Held(l', x, i) {
      if Outside(piece.b, piece.a, x, i) {
        ResultReaders(b, a, enter, exit, result, pieces, own, j, g, entry, v, x, i);
        if x == piece.exit { HeldPastExit(piece.b, piece.a, piece.exit, v, l, lives, x, i); }
      }
    }
    EntryOutside(b, a, enter, exit, result, g, entry);
    ZoneGrows(g, entry, l, piece.exit, extra);
    SameDefinition(g, v, l, extra);
    LifeGrows(b, a, piece, l, extra);
  }

  lemma EntryOutside(b: Build, a: Build, enter: nat, exit: nat, result: Option<nat>, g: Graph, entry: nat)
    requires Hosts(b, a, enter, exit, result, g, entry)
    ensures !NewBlockOf(b, a, entry) && KeptBlocks(b, a, exit, g)
  {
  }

  /** The result of a piece that is the result of the whole. */
  lemma PassResult(b: Build, a: Build, enter: nat, exit: nat, pieces: seq<Piece>, own: map<nat, Block>, j: nat,
                   g: Graph, entry: nat, v: nat, lives: map<nat, Life>, extra: set<nat>)
    requires Assembled(b, a, pieces, own) && Hosts(b, a, enter, exit, Some(v), g, entry) && j < |pieces|
    requires pieces[j].result == Some(v)
    requires TempsScoped(g, entry, pieces[j].b, pieces[j].a, Some(v), lives) && ExitHeld(pieces[j].exit, Some(v), lives)
    requires LeadsOut(b, a, pieces, own, pieces[j], g, v, extra)
    ensures v in lives
    ensures var l := lives[v].(zone := lives[v].zone + extra);
      LivesInside(g, entry, b, a, v, l) && LifeIn(b, a, l)
  {
    hide Hosts, Assembled, TempsScoped, DefinedOnce, ZoneClosed, Glue;
    PieceLife(g, entry, b, a, pieces, own, j, v, lives);
    EntryOutside(b, a, enter, exit, Some(v), g, entry);
    var l, piece := lives[v], pieces[j];
    var l' := l.(zone := l.zone + extra);
    forall x: nat, i: nat | ReadsThere(g, x, i, v) && !Outside(b, a, x, i) ensures Held(l', x, i) {
      if Outside(piece.b, piece.a, x, i) {
        InsideNode(b, a, exit, g, x, i);
        InsideReaders(b, a, pieces, own, j, g, v, x, i);
        if x == piece.exit { HeldPastExit(piece.b, piece.a, piece.exit, v, l, lives, x, i); }
      }
    }
    ZoneGrows(g, entry, l, piece.exit, extra);
    SameDefinition(g, v, l, extra);
    LifeGrows(b, a, piece, l, extra);
    PieceContent(b, a, pieces, own, j, l.home);
  }

  lemma InsideReaders(b: Build, a: Build, pieces: seq<Piece>, own: map<nat, Block>, j: nat, g: Graph, v: nat, x: nat,
      i: nat)
    requires Assembled(b, a, pieces, own) && j < |pieces| && pieces[j].result == Some(v)
    requires ReadsThere(g, x, i, v) && Outside(pieces[j].b, pieces[j].a, x, i) && !Outside(b, a, x, i) &&
        g[x][i] == a.blocks[x][i]
    ensures Glue(pieces, own, x, g[x][i])
  {
    var p := pieces[j];
    assert PieceShaped(p) && Within(b, a, p);
    ReadsMentioned(g[x][i], v);
    Dissect(b, a, pieces, own, x, i);
    if !Glue(pieces, own, x, g[x][i]) {
      var k :| 0 <= k < |pieces| && InPiece(pieces[k], x, i, g[x][i]);
      InPieceStays(pieces[k], x, i, g[x][i]);
      TempInOne(b, a, pieces, own, k, j, v);
    }
  }

  lemma InsideNode(b: Build, a: Build, exit: nat, g: Graph, x: nat, i: nat)
    requires KeptBlocks(b, a, exit, g) && !Outside(b, a, x, i) && x < |g| && i < |g[x]|
    ensures g[x][i] == a.blocks[x][i]
  {
  }

  // ----- putting the parts together -----

  /** The same temporaries, with zones that may have grown. */
  predicate Grown(part: map<nat, Life>, lives: map<nat, Life>) {
    forall v :: v in part ==> v in lives && lives[v].home == part[v].home && part[v].zone <= lives[v].zone
  }

  predicate Included(part: map<nat, Fork>, forks: map<nat, Fork>) {
    forall x :: x in part ==> x in forks && forks[x] == part[x]
  }

  lemma MergesGrow(g: Graph, entry: nat, x: nat, i: nat, item: Item<Text>, k: Fork, part: map<nat, Life>,
      lives: map<nat, Life>)
    requires item.Merge? && Merges(g, entry, x, i, item, k, part) && Grown(part, lives)
    ensures Merges(g, entry, x, i, item, k, lives)
  {
  }

  /** The merges that are glue. */
  ghost predicate GlueMerges(pieces: seq<Piece>, own: map<nat, Block>, g: Graph, entry: nat, b: Build, a: Build,
      lives: map<nat, Life>, forks: map<nat, Fork>) {
    forall x: nat, i: nat, item: Item<Text> ::
      item.Merge? && NodeAt(g, x, i, Plain(item)) && !Outside(b, a, x, i) && Glue(pieces, own, x, Plain(item)) ==>
      x in forks && Merges(g, entry, x, i, item, forks[x], lives)
  }

  ghost predicate PiecesMerge(pieces: seq<Piece>, g: Graph, entry: nat, lives: map<nat, Life>, forks: map<nat, Fork>,
      Ls: seq<map<nat, Life>>, Fs: seq<map<nat, Fork>>) {
    && |Ls| == |Fs| == |pieces|
    && forall j :: 0 <= j < |pieces| ==>
         && MergesScoped(g, entry, pieces[j].b, pieces[j].a, Ls[j], Fs[j])
         && Grown(Ls[j], lives) && Included(Fs[j], forks)
  }

  lemma CombineMerges(b: Build, a: Build, exit: nat, pieces: seq<Piece>, own: map<nat, Block>, g: Graph, entry: nat,
                      lives: map<nat, Life>, forks: map<nat, Fork>, Ls: seq<map<nat, Life>>, Fs: seq<map<nat, Fork>>)
    requires Assembled(b, a, pieces, own) && KeptBlocks(b, a, exit, g)
    requires PiecesMerge(pieces, g, entry, lives, forks, Ls, Fs) &&
        GlueMerges(pieces, own, g, entry, b, a, lives, forks)
    requires forall x :: x in forks ==> NewBlockOf(b, a, x)
    ensures MergesScoped(g, entry, b, a, lives, forks)
  {
    hide *;
    MergesScopedFrom(g, entry, b, a, lives, forks);
    forall x: nat, i: nat, item: Item<Text> | item.Merge? && NodeAt(g, x, i, Plain(item)) && !Outside(b, a, x, i)
      ensures x in forks && Merges(g, entry, x, i, item, forks[x], lives)
    {
      OneMerge(b, a, exit, pieces, own, g, entry, lives, forks, Ls, Fs, x, i, item);
    }
  }

  lemma MergesScopedFrom(g: Graph, entry: nat, b: Build, a: Build, lives: map<nat, Life>, forks: map<nat, Fork>)
    ensures MergesScoped(g, entry, b, a, lives, forks) <==>
      && (forall x :: x in forks ==> NewBlockOf(b, a, x))
      && forall x: nat, i: nat, item: Item<Text> ::
           item.Merge? && NodeAt(g, x, i, Plain(item)) && !Outside(b, a, x, i) ==>
           x in forks && Merges(g, entry, x, i, item, forks[x], lives)
  {
  }

  lemma OneMerge(b: Build, a: Build, exit: nat, pieces: seq<Piece>, own: map<nat, Block>, g: Graph, entry: nat,
                 lives: map<nat, Life>, forks: map<nat, Fork>, Ls: seq<map<nat, Life>>, Fs: seq<map<nat, Fork>>, x: nat,
                     i: nat, item: Item<Text>)
    requires Assembled(b, a, pieces, own) && KeptBlocks(b, a, exit, g)
    requires PiecesMerge(pieces, g, entry, lives, forks, Ls, Fs) &&
        GlueMerges(pieces, own, g, entry, b, a, lives, forks)
    requires item.Merge? && NodeAt(g, x, i, Plain(item)) && !Outside(b, a, x, i)
    ensures x in forks && Merges(g, entry, x, i, item, forks[x], lives)
  {
    hide Merges, Glue, Assembled, Included, Grown, KeptBlocks, MergesScoped;
    InsideNode(b, a, exit, g, x, i);
    Dissect(b, a, pieces, own, x, i);
    if !Glue(pieces, own, x, Plain(item)) {
      var j :| 0 <= j < |pieces| && InPiece(pieces[j], x, i, Plain(item));
      PieceMerge(pieces[j], g, entry, lives, forks, Ls[j], Fs[j], x, i, item);
    }
  }

  lemma PieceMerge(p: Piece, g: Graph, entry: nat, lives: map<nat, Life>, forks: map<nat, Fork>, L: map<nat, Life>,
      F: map<nat, Fork>, x: nat, i: nat, item: Item<Text>)
    requires MergesScoped(g, entry, p.b, p.a, L, F) && Grown(L, lives) && Included(F, forks)
    requires item.Merge? && NodeAt(g, x, i, Plain(item)) && InPiece(p, x, i, Plain(item))
    ensures x in forks && Merges(g, entry, x, i, item, forks[x], lives)
  {
    assert !Outside(p.b, p.a, x, i);
    MergesGrow(g, entry, x, i, item, F[x], L, lives);
  }

  /** What the construct itself does with a temporary of its own. */
  ghost predicate OwnTemp(pieces: seq<Piece>, own: map<nat, Block>, v: nat, l: Life) {
    && l.home in own && l.at < l.def < |own[l.home]|
    && own[l.home][l.at] == Plain(Alloca(v)) && NodeWrites(own[l.home][l.def]) == Some(v)
    && (forall i :: 0 <= i < |own[l.home]| && NodeWrites(own[l.home][i]) == Some(v) ==> i == l.def)
    && (forall i :: 0 <= i < |own[l.home]| && v in NodeReads(own[l.home][i]) ==> l.def < i)
    && (forall x: nat, node: Node ::
         Glue(pieces, own, x, node) && (NodeWrites(node) == Some(v) || v in NodeReads(node)) ==> x == l.home)
    && (forall j :: 0 <= j < |pieces| ==> !NewTempOf(pieces[j].b, pieces[j].a, v))
  }

  /** Every place in the graph that names an own temporary. */
  lemma OwnTempPlaces(b: Build, a: Build, enter: nat, exit: nat, result: Option<nat>, pieces: seq<Piece>,
      own: map<nat, Block>, g: Graph, entry: nat, v: nat, l: Life, x: nat, i: nat)
    requires Assembled(b, a, pieces, own) && Hosts(b, a, enter, exit, result, g, entry) && NewTempOf(b, a, v)
    requires OwnTemp(pieces, own, v, l) && x < |g| && i < |g[x]|
    requires NodeWrites(g[x][i]) == Some(v) || v in NodeReads(g[x][i])
    ensures Outside(b, a, x, i) ==> result == Some(v) && NodeWrites(g[x][i]) != Some(v)
    ensures !Outside(b, a, x, i) ==> x == l.home && i < |own[x]| && g[x][i] == own[x][i]
  {
    if NodeWrites(g[x][i]) == Some(v) { WritesMentioned(g[x][i], v); } else { ReadsMentioned(g[x][i], v); }
    assert Outside(b, a, x, i) ==> HandsOff(b, a, result, g[x][i]);
    if !Outside(b, a, x, i) {
      InsideNode(b, a, exit, g, x, i);
      Dissect(b, a, pieces, own, x, i);
      if !Glue(pieces, own, x, g[x][i]) {
        var k :| 0 <= k < |pieces| && InPiece(pieces[k], x, i, g[x][i]);
        InPieceStays(pieces[k], x, i, g[x][i]);
      }
      OwnBlock(b, a, pieces, own, l.home);
    }
  }

  lemma OwnBlock(b: Build, a: Build, pieces: seq<Piece>, own: map<nat, Block>, x: nat)
    requires Assembled(b, a, pieces, own) && x in own
    ensures NewBlockOf(b, a, x) && a.blocks[x] == own[x]
  {
    assert NewBlockOf(b, a, x);
    assert Placed(pieces, own, x, a.blocks[x]);
  }

  lemma OwnTempLives(b: Build, a: Build, enter: nat, exit: nat, result: Option<nat>, pieces: seq<Piece>,
      own: map<nat, Block>, g: Graph, entry: nat, v: nat, l: Life)
    requires Assembled(b, a, pieces, own) && Hosts(b, a, enter, exit, result, g, entry) && NewTempOf(b, a, v)
    requires OwnTemp(pieces, own, v, l) && ZoneClosed(g, entry, l) && forall x :: x in l.zone ==> NewBlockOf(b, a, x)
    ensures TempScoped(g, entry, b, a, result, v, l) && LifeIn(b, a, l)
  {
    hide Hosts, Assembled, ZoneClosed, Glue;
    EntryOutside(b, a, enter, exit, result, g, entry);
    OwnBlock(b, a, pieces, own, l.home);
    assert a.blocks[l.home] <= g[l.home];
    assert g[l.home][l.at] == own[l.home][l.at] && g[l.home][l.def] == own[l.home][l.def];
    forall x: nat, i: nat | WritesThere(g, x, i, v) ensures x == l.home && i == l.def {
      OwnTempPlaces(b, a, enter, exit, result, pieces, own, g, entry, v, l, x, i);
    }
    forall x: nat, i: nat | ReadsThere(g, x, i, v) && !Outside(b, a, x, i) ensures Held(l, x, i) {
      OwnTempPlaces(b, a, enter, exit, result, pieces, own, g, entry, v, l, x, i);
    }
    if result != Some(v) {
      forall x: nat, i: nat | ReadsThere(g, x, i, v) ensures Held(l, x, i) {
        OwnTempPlaces(b, a, enter, exit, result, pieces, own, g, entry, v, l, x, i);
      }
    }
  }

  /** A temporary of a piece, seen from the whole. */
  lemma PieceTemps(b: Build, a: Build, pieces: seq<Piece>, own: map<nat, Block>, j: nat, result: Option<nat>, g: Graph,
      entry: nat, lives: map<nat, Life>, v: nat)
    requires Assembled(b, a, pieces, own) && j < |pieces| &&
        TempsScoped(g, entry, pieces[j].b, pieces[j].a, pieces[j].result, lives)
    requires v in lives && pieces[j].result != Some(v)
    requires result.Some? && NewTempOf(pieces[j].b, pieces[j].a, result.value) ==> result == pieces[j].result
    ensures TempScoped(g, entry, b, a, result, v, lives[v]) && LifeIn(b, a, lives[v])
  {
    assert Within(b, a, pieces[j]);
  }

  // ----- ranges of temporaries -----

  /** The temporaries from `lo` up to `hi` are scoped, as seen from the whole. */
  ghost predicate TempsDone(g: Graph, entry: nat, b: Build, a: Build, result: Option<nat>, lives: map<nat, Life>,
      lo: nat, hi: nat) {
    && (forall v :: v in lives <==> lo <= v < hi)
    && (forall v :: v in lives ==> LifeIn(b, a, lives[v]) && TempScoped(g, entry, b, a, result, v, lives[v]))
  }

  /** The lives of a piece, with the zone of its result extended. */
  function Extended(lives: map<nat, Life>, result: Option<nat>, extra: set<nat>): map<nat, Life> {
    if result.Some? && result.value in lives
    then lives[result.value := lives[result.value].(zone := lives[result.value].zone + extra)] else lives
  }

  lemma ExtendedGrows(lives: map<nat, Life>, result: Option<nat>, extra: set<nat>)
    ensures Grown(lives, Extended(lives, result, extra))
  {
  }

  lemma DonePiece(b: Build, a: Build, enter: nat, exit: nat, result: Option<nat>, pieces: seq<Piece>,
      own: map<nat, Block>, j: nat, g: Graph, entry: nat, lives: map<nat, Life>, forks: map<nat, Fork>, extra: set<nat>)
    requires Assembled(b, a, pieces, own) && Hosts(b, a, enter, exit, result, g, entry) && j < |pieces|
    requires ScopedPart(g, entry, pieces[j].b, pieces[j].a, pieces[j].exit, pieces[j].result, lives, forks)
    requires pieces[j].result.Some? ==> LeadsOut(b, a, pieces, own, pieces[j], g, pieces[j].result.value, extra)
    requires result.Some? && NewTempOf(pieces[j].b, pieces[j].a, result.value) ==> result == pieces[j].result
    ensures TempsDone(g, entry, b, a, result, Extended(lives, pieces[j].result, extra), pieces[j].b.vars,
        pieces[j].a.vars)
    ensures MergesScoped(g, entry, pieces[j].b, pieces[j].a, lives, forks) &&
        Grown(lives, Extended(lives, pieces[j].result, extra))
  {
    hide Assembled, Hosts, LeadsOut, Lives, LivesInside, MergesScoped, ExitHeld;
    var p := pieces[j];
    var M := Extended(lives, p.result, extra);
    if p.result.Some? {
      var v := p.result.value;
      ResultLives(g, entry, p, lives, v);
      if result == Some(v) {
        PassResult(b, a, enter, exit, pieces, own, j, g, entry, v, lives, extra);
      } else {
        CloseResult(b, a, enter, exit, result, pieces, own, j, g, entry, v, lives, extra);
      }
    }
    forall v | v in M ensures LifeIn(b, a, M[v]) && TempScoped(g, entry, b, a, result, v, M[v]) {
      if p.result != Some(v) { PieceTemps(b, a, pieces, own, j, result, g, entry, lives, v); }
    }
  }

  lemma ResultLives(g: Graph, entry: nat, p: Piece, lives: map<nat, Life>, v: nat)
    requires TempsScoped(g, entry, p.b, p.a, Some(v), lives) && ExitHeld(p.exit, Some(v), lives)
    ensures v in lives
  {
  }

  // ----- the whole -----

  /** The construct is put together in such a way that its parts do not meddle with
      each other. */
  ghost predicate Polite(b: Build, a: Build, enter: nat, exit: nat, result: Option<nat>, pieces: seq<Piece>,
      own: map<nat, Block>) {
    && Assembled(b, a, pieces, own)
    && forall j :: 0 <= j < |pieces| ==>
         GlueKeepsOff(pieces, own, pieces[j]) && PointsApart(pieces, pieces[j]) && Meets(enter, exit, result, pieces[j])
  }

  /** A graph that hosts the whole hosts every part. */
  lemma PartHosted(b: Build, a: Build, enter: nat, exit: nat, result: Option<nat>, pieces: seq<Piece>,
      own: map<nat, Block>, g: Graph, entry: nat, j: nat)
    requires Polite(b, a, enter, exit, result, pieces, own) && Hosts(b, a, enter, exit, result, g, entry) &&
        j < |pieces|
    ensures HostsPiece(pieces[j], g, entry)
  {
    PieceHosted(b, a, enter, exit, result, pieces, own, j, g, entry);
  }

  /** What is known of the parts. */
  datatype Parts = Parts(lives: seq<map<nat, Life>>, forks: seq<map<nat, Fork>>, extras: seq<set<nat>>,
      ownLives: map<nat, Life>, ownForks: map<nat, Fork>)

  ghost predicate Sized(pieces: seq<Piece>, q: Parts) { |q.lives| == |q.forks| == |q.extras| == |pieces| }

  function Joined(pieces: seq<Piece>, q: Parts, n: nat): map<nat, Life>
    requires n <= |pieces| && |q.lives| == |q.extras| == |pieces|
  {
    if n == 0 then map[] else Joined(pieces, q, n - 1) + Extended(q.lives[n-1], pieces[n-1].result, q.extras[n-1])
  }

  function JoinedForks(pieces: seq<Piece>, q: Parts, n: nat): map<nat, Fork>
    requires n <= |pieces| && |q.forks| == |pieces|
  {
    if n == 0 then map[] else JoinedForks(pieces, q, n - 1) + q.forks[n-1]
  }

  function WholeLives(pieces: seq<Piece>, q: Parts): map<nat, Life>
    requires |q.lives| == |q.extras| == |pieces|
  {
    Joined(pieces, q, |pieces|) + q.ownLives
  }

  function WholeForks(pieces: seq<Piece>, q: Parts): map<nat, Fork>
    requires |q.forks| == |pieces|
  {
    JoinedForks(pieces, q, |pieces|) + q.ownForks
  }

  ghost predicate PartsScoped(pieces: seq<Piece>, g: Graph, entry: nat, q: Parts) {
    Sized(pieces, q) && forall j :: 0 <= j < |pieces| ==>
      ScopedPart(g, entry, pieces[j].b, pieces[j].a, pieces[j].exit, pieces[j].result, q.lives[j], q.forks[j])
  }

  ghost predicate AllLeadOut(b: Build, a: Build, pieces: seq<Piece>, own: map<nat, Block>, g: Graph, q: Parts) {
    Sized(pieces, q) && forall j :: 0 <= j < |pieces| && pieces[j].result.Some? ==>
      LeadsOut(b, a, pieces, own, pieces[j], g, pieces[j].result.value, q.extras[j])
  }

  ghost predicate OwnScoped(b: Build, a: Build, pieces: seq<Piece>, own: map<nat, Block>, g: Graph, entry: nat,
      q: Parts) {
    && (forall v :: v in q.ownLives ==>
         && NewTempOf(b, a, v) && OwnTemp(pieces, own, v, q.ownLives[v]) && ZoneClosed(g, entry, q.ownLives[v])
         && forall x :: x in q.ownLives[v].zone ==> NewBlockOf(b, a, x))
    && (forall x :: x in q.ownForks ==> x in own)
    && (forall v :: NewTempOf(b, a, v) ==>
        v in q.ownLives || exists j :: 0 <= j < |pieces| && NewTempOf(pieces[j].b, pieces[j].a, v))
  }

  lemma {:induction false} JoinedHas(b: Build, a: Build, pieces: seq<Piece>, own: map<nat, Block>, g: Graph, entry: nat,
      q: Parts, n: nat, j: nat, v: nat)
    requires Assembled(b, a, pieces, own) && PartsScoped(pieces, g, entry, q)
    requires j < n <= |pieces| && v in q.lives[j]
    ensures v in Joined(pieces, q, n) &&
        Joined(pieces, q, n)[v] == Extended(q.lives[j], pieces[j].result, q.extras[j])[v]
    decreases n
  {
    hide Assembled, ScopedPart, Extended;
    LivesAre(pieces, g, entry, q, j, v);
    if j < n - 1 {
      JoinedHas(b, a, pieces, own, g, entry, q, n - 1, j, v);
      TempInOne(b, a, pieces, own, j, n - 1, v);
      LivesAre(pieces, g, entry, q, n - 1, v);
    }
  }

  lemma LivesAre(pieces: seq<Piece>, g: Graph, entry: nat, q: Parts, j: nat, v: nat)
    requires PartsScoped(pieces, g, entry, q) && j < |pieces|
    ensures v in q.lives[j] <==> NewTempOf(pieces[j].b, pieces[j].a, v)
    ensures v in Extended(q.lives[j], pieces[j].result, q.extras[j]) <==> v in q.lives[j]
  {
    assert ScopedPart(g, entry, pieces[j].b, pieces[j].a, pieces[j].exit, pieces[j].result, q.lives[j], q.forks[j]);
  }

  lemma {:induction false} JoinedFrom(pieces: seq<Piece>, q: Parts, n: nat, v: nat) returns (j: nat)
    requires n <= |pieces| && Sized(pieces, q) && v in Joined(pieces, q, n)
    ensures j < n && v in Extended(q.lives[j], pieces[j].result, q.extras[j])
  {
    if v in Extended(q.lives[n-1], pieces[n-1].result, q.extras[n-1]) {
      j := n - 1;
    } else {
      j := JoinedFrom(pieces, q, n - 1, v);
    }
  }

  /** Every temporary of the whole is scoped. */
  lemma WholeTemp(b: Build, a: Build, enter: nat, exit: nat, result: Option<nat>, pieces: seq<Piece>,
      own: map<nat, Block>, g: Graph, entry: nat, q: Parts, v: nat)
    requires Polite(b, a, enter, exit, result, pieces, own) && Hosts(b, a, enter, exit, result, g, entry)
    requires PartsScoped(pieces, g, entry, q) && AllLeadOut(b, a, pieces, own, g, q) &&
        OwnScoped(b, a, pieces, own, g, entry, q)
    ensures v in WholeLives(pieces, q) <==> NewTempOf(b, a, v)
    ensures v in WholeLives(pieces, q) ==>
      LifeIn(b, a, WholeLives(pieces, q)[v]) && TempScoped(g, entry, b, a, result, v, WholeLives(pieces, q)[v])
  {
    hide Hosts, Assembled, LeadsOut, OwnTemp, ZoneClosed, TempScoped, LifeIn, ScopedPart, Joined, Extended;
    if v in q.ownLives {
      OwnTempLives(b, a, enter, exit, result, pieces, own, g, entry, v, q.ownLives[v]);
    } else if v in Joined(pieces, q, |pieces|) {
      var j := JoinedFrom(pieces, q, |pieces|, v);
      LivesAre(pieces, g, entry, q, j, v);
      JoinedHas(b, a, pieces, own, g, entry, q, |pieces|, j, v);
      PieceIn(b, a, pieces, own, j);
      PieceTempDone(b, a, enter, exit, result, pieces, own, j, g, entry, q.lives[j], q.forks[j], q.extras[j], v);
    } else if NewTempOf(b, a, v) {
      var j :| 0 <= j < |pieces| && NewTempOf(pieces[j].b, pieces[j].a, v);
      LivesAre(pieces, g, entry, q, j, v);
      JoinedHas(b, a, pieces, own, g, entry, q, |pieces|, j, v);
      assert false;
    }
  }

  lemma PieceIn(b: Build, a: Build, pieces: seq<Piece>, own: map<nat, Block>, j: nat)
    requires Assembled(b, a, pieces, own) && j < |pieces|
    ensures Within(b, a, pieces[j])
  {
  }

  lemma PieceTempDone(b: Build, a: Build, enter: nat, exit: nat, result: Option<nat>, pieces: seq<Piece>,
      own: map<nat, Block>, j: nat,
                      g: Graph, entry: nat, lives: map<nat, Life>, forks: map<nat, Fork>, extra: set<nat>, v: nat)
    requires Assembled(b, a, pieces, own) && Hosts(b, a, enter, exit, result, g, entry) && j < |pieces|
    requires ScopedPart(g, entry, pieces[j].b, pieces[j].a, pieces[j].exit, pieces[j].result, lives, forks)
    requires pieces[j].result.Some? ==> LeadsOut(b, a, pieces, own, pieces[j], g, pieces[j].result.value, extra)
    requires Meets(enter, exit, result, pieces[j])
    requires v in Extended(lives, pieces[j].result, extra)
    ensures LifeIn(b, a, Extended(lives, pieces[j].result, extra)[v])
    ensures TempScoped(g, entry, b, a, result, v, Extended(lives, pieces[j].result, extra)[v])
  {
    hide Assembled, Hosts, LeadsOut, LivesInside, MergesScoped, ExitHeld, Lives;
    DonePiece(b, a, enter, exit, result, pieces, own, j, g, entry, lives, forks, extra);
  }

  lemma {:induction false} JoinedForksHave(b: Build, a: Build, pieces: seq<Piece>, own: map<nat, Block>, g: Graph,
      entry: nat, q: Parts, n: nat, j: nat, x: nat)
    requires Assembled(b, a, pieces, own) && PartsScoped(pieces, g, entry, q)
    requires j < n <= |pieces| && x in q.forks[j]
    ensures x in JoinedForks(pieces, q, n) && JoinedForks(pieces, q, n)[x] == q.forks[j][x]
    decreases n
  {
    hide Assembled, ScopedPart;
    if j < n - 1 {
      JoinedForksHave(b, a, pieces, own, g, entry, q, n - 1, j, x);
      ForksAre(pieces, g, entry, q, j, x);
      ForksAre(pieces, g, entry, q, n - 1, x);
      PiecesApart(b, a, pieces, own, j, n - 1, x);
    }
  }

  lemma ForksAre(pieces: seq<Piece>, g: Graph, entry: nat, q: Parts, j: nat, x: nat)
    requires PartsScoped(pieces, g, entry, q) && j < |pieces|
    ensures x in q.forks[j] ==> NewBlockOf(pieces[j].b, pieces[j].a, x)
    ensures MergesScoped(g, entry, pieces[j].b, pieces[j].a, q.lives[j], q.forks[j])
  {
    assert ScopedPart(g, entry, pieces[j].b, pieces[j].a, pieces[j].exit, pieces[j].result, q.lives[j], q.forks[j]);
  }

  lemma {:induction false} JoinedForksFrom(pieces: seq<Piece>, q: Parts, n: nat, x: nat) returns (j: nat)
    requires n <= |pieces| && Sized(pieces, q) && x in JoinedForks(pieces, q, n)
    ensures j < n && x in q.forks[j]
  {
    if x in q.forks[n-1] { j := n - 1; } else { j := JoinedForksFrom(pieces, q, n - 1, x); }
  }

  lemma WholeGrown(b: Build, a: Build, pieces: seq<Piece>, own: map<nat, Block>, g: Graph, entry: nat, q: Parts, j: nat)
    requires Assembled(b, a, pieces, own) && PartsScoped(pieces, g, entry, q) &&
        OwnScoped(b, a, pieces, own, g, entry, q) && j < |pieces|
    ensures Grown(q.lives[j], WholeLives(pieces, q)) && Included(q.forks[j], WholeForks(pieces, q))
  {
    hide Assembled, ScopedPart, ZoneClosed, Joined, JoinedForks;
    forall v | v in q.lives[j]
      ensures v in WholeLives(pieces, q) && WholeLives(pieces, q)[v].home == q.lives[j][v].home &&
          q.lives[j][v].zone <= WholeLives(pieces, q)[v].zone
    {
      LivesAre(pieces, g, entry, q, j, v);
      JoinedHas(b, a, pieces, own, g, entry, q, |pieces|, j, v);
      ExtendedGrows(q.lives[j], pieces[j].result, q.extras[j]);
    }
    forall x | x in q.forks[j] ensures x in WholeForks(pieces, q) && WholeForks(pieces, q)[x] == q.forks[j][x] {
      ForksAre(pieces, g, entry, q, j, x);
      JoinedForksHave(b, a, pieces, own, g, entry, q, |pieces|, j, x);
      OwnNotInPiece(b, a, pieces, own, j, x);
    }
  }

  lemma OwnNotInPiece(b: Build, a: Build, pieces: seq<Piece>, own: map<nat, Block>, j: nat, x: nat)
    requires Assembled(b, a, pieces, own) && j < |pieces| && NewBlockOf(pieces[j].b, pieces[j].a, x)
    ensures x !in own
  {
  }

  lemma WholeForkIn(b: Build, a: Build, pieces: seq<Piece>, own: map<nat, Block>, g: Graph, entry: nat, q: Parts,
      x: nat)
    requires Assembled(b, a, pieces, own) && PartsScoped(pieces, g, entry, q) &&
        OwnScoped(b, a, pieces, own, g, entry, q)
    requires x in WholeForks(pieces, q)
    ensures NewBlockOf(b, a, x)
  {
    if x !in q.ownForks {
      var j := JoinedForksFrom(pieces, q, |pieces|, x);
      ForksAre(pieces, g, entry, q, j, x);
      PieceIn(b, a, pieces, own, j);
    }
  }

  /** From the parts to the whole. */
  lemma WholeScoped(b: Build, a: Build, enter: nat, exit: nat, result: Option<nat>, pieces: seq<Piece>,
      own: map<nat, Block>, g: Graph, entry: nat, q: Parts)
    requires Polite(b, a, enter, exit, result, pieces, own) && Hosts(b, a, enter, exit, result, g, entry)
    requires PartsScoped(pieces, g, entry, q) && AllLeadOut(b, a, pieces, own, g, q) &&
        OwnScoped(b, a, pieces, own, g, entry, q)
    requires GlueMerges(pieces, own, g, entry, b, a, WholeLives(pieces, q), WholeForks(pieces, q))
    requires ExitHeld(exit, result, WholeLives(pieces, q))
    ensures ScopedPart(g, entry, b, a, exit, result, WholeLives(pieces, q), WholeForks(pieces, q))
  {
    hide Assembled, Hosts, AllLeadOut, OwnScoped, GlueMerges, ScopedPart, WholeLives, WholeForks, GlueKeepsOff,
        PointsApart, Meets;
    var lives, forks := WholeLives(pieces, q), WholeForks(pieces, q);
    EntryOutside(b, a, enter, exit, result, g, entry);
    forall j | 0 <= j < |pieces|
      ensures MergesScoped(g, entry, pieces[j].b, pieces[j].a, q.lives[j], q.forks[j]) && Grown(q.lives[j], lives) &&
          Included(q.forks[j], forks)
    {
      ForksAre(pieces, g, entry, q, j, 0);
      WholeGrown(b, a, pieces, own, g, entry, q, j);
    }
    forall x | x in forks ensures NewBlockOf(b, a, x) { WholeForkIn(b, a, pieces, own, g, entry, q, x); }
    CombineMerges(b, a, exit, pieces, own, g, entry, lives, forks, q.lives, q.forks);
    WholeTemps(b, a, enter, exit, result, pieces, own, g, entry, q);
    ScopedFrom(g, entry, b, a, exit, result, lives, forks);
  }

  lemma WholeTemps(b: Build, a: Build, enter: nat, exit: nat, result: Option<nat>, pieces: seq<Piece>,
      own: map<nat, Block>, g: Graph, entry: nat, q: Parts)
    requires Polite(b, a, enter, exit, result, pieces, own) && Hosts(b, a, enter, exit, result, g, entry)
    requires PartsScoped(pieces, g, entry, q) && AllLeadOut(b, a, pieces, own, g, q) &&
        OwnScoped(b, a, pieces, own, g, entry, q)
    ensures TempsScoped(g, entry, b, a, result, WholeLives(pieces, q))
  {
    hide Polite, Hosts, ScopedPart, AllLeadOut, OwnScoped, WholeLives, TempScoped, LifeIn;
    forall v: nat
      ensures v in WholeLives(pieces, q) <==> NewTempOf(b, a, v)
      ensures v in WholeLives(pieces, q) ==>
        LifeIn(b, a, WholeLives(pieces, q)[v]) && TempScoped(g, entry, b, a, result, v, WholeLives(pieces, q)[v])
    {
      WholeTemp(b, a, enter, exit, result, pieces, own, g, entry, q, v);
    }
  }

  lemma ScopedFrom(g: Graph, entry: nat, b: Build, a: Build, exit: nat, result: Option<nat>, lives: map<nat, Life>,
      forks: map<nat, Fork>)
    requires TempsScoped(g, entry, b, a, result, lives) && MergesScoped(g, entry, b, a, lives, forks) &&
        ExitHeld(exit, result, lives)
    ensures ScopedPart(g, entry, b, a, exit, result, lives, forks)
  {
  }
}
