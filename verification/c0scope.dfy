/** The graphs that C0 builds are scoped: expressions. */
module C0Scope {
  import opened Ir
  import opened Cfg
  import opened Ast
  import opened C0
  import opened C0Run
  import opened C0Path
  import opened C0Shape
  import opened Scope
  import opened Assembly

  /** A code as a piece. */
  function PieceOf(b: Build, c: Code, tail: Block): Piece { Piece(b, c.b, c.enter, c.exit, Some(c.v), {}, tail) }

  ghost predicate CodeShaped(b: Build, c: Code) { CodeAbove(b, c) && Region(b, c.b, {c.exit}, {}) }

  lemma ExprShaped(b: Build, e: Expr)
    ensures CodeShaped(b, GenExpr(b, e))
  {
    ExprRegion(b, e);
  }

  /** A graph that hosts the code can be passed there. */
  lemma PassesInGraph(b: Build, c: Code, g: Graph, entry: nat)
    requires Passable(b, c.b, c.enter, c.exit) && HostsCode(b, c, g, entry)
    ensures Reaches(g, c.enter, c.exit)
  {
    hide EnteredAt, LeftAlone;
    var p: seq<nat> :| Along(b, c.b, p) && p[0] == c.enter && p[|p|-1] == c.exit;
    forall i | 0 <= i < |p| ensures c.b.blocks[p[i]] <= g[p[i]] { assert NewBlockOf(b, c.b, p[i]); }
    MorePath(c.b.blocks, g, p);
  }

  ghost predicate HostsCode(b: Build, c: Code, g: Graph, entry: nat) {
    Hosts(b, c.b, c.enter, c.exit, Some(c.v), g, entry)
  }

  ghost predicate CodeScoped(b: Build, c: Code, g: Graph, entry: nat, lives: map<nat, Life>, forks: map<nat, Fork>) {
    ScopedPart(g, entry, b, c.b, c.exit, Some(c.v), lives, forks)
  }

  lemma EmptyZone(g: Graph, entry: nat, home: nat, at: nat, def: nat)
    ensures ZoneClosed(g, entry, Life(home, at, def, {}))
  {
  }

  lemma PlainHandsOff(b: Build, a: Build, result: Option<nat>, v: nat, x: nat)
    requires !NewTempOf(b, a, v)
    ensures HandsOff(b, a, result, Plain(Alloca(v))) && HandsOff(b, a, result, Jump(x))
  {
  }

  /** An op that reads only results, and writes elsewhere. */
  lemma OpHandsOff(b: Build, a: Build, result: Option<nat>, op: Op<Text>)
    requires Def(op).Some? ==> !NewTempOf(b, a, Def(op).value)
    requires forall v :: v in OpMentions(op) && NewTempOf(b, a, v) ==> result == Some(v)
    ensures HandsOff(b, a, result, Plain(Do(op)))
  {
  }

  // ----- one op -----

  function OneOpOwn(b: Build, op: Op<Text>): map<nat, Block> {
    map[|b.blocks| := [Plain(Alloca(b.vars)), Plain(Do(op))]]
  }

  function OneOpParts(b: Build): Parts { Parts([], [], [], map[b.vars := Life(|b.blocks|, 0, 1, {})], map[]) }

  /** The temporary of a block of one op. */
  lemma OneOpTemp(pieces: seq<Piece>, b: Build, op: Op<Text>)
    requires Def(op) == Some(b.vars) && b.vars !in Uses(op)
    requires forall x: nat, node: Node :: Glue(pieces, OneOpOwn(b, op), x, node) ==> x == |b.blocks| || node.Jump?
    requires forall j :: 0 <= j < |pieces| ==> !NewTempOf(pieces[j].b, pieces[j].a, b.vars)
    ensures OwnTemp(pieces, OneOpOwn(b, op), b.vars, Life(|b.blocks|, 0, 1, {}))
  {
    hide Glue, Def, Uses;
    forall x: nat, node: Node | Glue(pieces, OneOpOwn(b, op), x, node) &&
        (NodeWrites(node) == Some(b.vars) || b.vars in NodeReads(node))
      ensures x == |b.blocks|
    {
      assert x == |b.blocks| || node.Jump?;
    }
  }

  lemma SimpleScoped(b: Build, op: Op<Text>, g: Graph, entry: nat)
      returns (lives: map<nat, Life>, forks: map<nat, Fork>)
    requires OpMentions(op) == [b.vars] && Def(op) == Some(b.vars) && Uses(op) == []
    requires HostsCode(b, OneOp(b, op), g, entry)
    ensures CodeScoped(b, OneOp(b, op), g, entry, lives, forks)
  {
    hide Hosts, ZoneClosed, OpMentions, Def, Uses, OwnTemp, Merges;
    var c, own, q := OneOp(b, op), OneOpOwn(b, op), OneOpParts(b);
    forall y: nat | NewBlockOf(b, c.b, y) ensures Placed([], own, y, c.b.blocks[y]) {}
    assert Assembled(b, c.b, [], own);
    EmptyZone(g, entry, |b.blocks|, 0, 1);
    OneOpTemp([], b, op);
    lives, forks := WholeLives([], q), WholeForks([], q);
    NoMerges([], own, g, entry, b, c.b, lives, forks);
    hide Assembled, Glue, GlueMerges;
    WholeScoped(b, c.b, c.enter, c.exit, Some(c.v), [], own, g, entry, q);
  }

  /** Glue without merges. */
  lemma NoMerges(pieces: seq<Piece>, own: map<nat, Block>, g: Graph, entry: nat, b: Build, a: Build,
      lives: map<nat, Life>, forks: map<nat, Fork>)
    requires forall x: nat, node: Node :: Glue(pieces, own, x, node) ==> !(node.Plain? && node.item.Merge?)
    ensures GlueMerges(pieces, own, g, entry, b, a, lives, forks)
  {
  }

  // ----- prefix -----

  function PrefixPieces(b: Build, a: Code): seq<Piece> { [PieceOf(b, a, [Jump(|a.b.blocks|)])] }

  function PrefixOp(a: Code, uop: UnaryOp): Op<Text> { Unary(uop, a.b.vars, a.v) }

  function PrefixParts(a: Code, lives: map<nat, Life>, forks: map<nat, Fork>): Parts {
    OneOpParts(a.b).(lives := [lives], forks := [forks], extras := [{|a.b.blocks|}])
  }

  lemma PrefixAssembled(b: Build, a: Code, uop: UnaryOp)
    requires CodeShaped(b, a)
    ensures Assembled(b, JoinPrefix(b, a, uop).b, PrefixPieces(b, a), OneOpOwn(a.b, PrefixOp(a, uop)))
  {
    var j, pieces, own := JoinPrefix(b, a, uop), PrefixPieces(b, a), OneOpOwn(a.b, PrefixOp(a, uop));
    forall x: nat | NewBlockOf(b, j.b, x) ensures Placed(pieces, own, x, j.b.blocks[x]) {
      if x < |a.b.blocks| { assert j.b.blocks[x] == PieceBlock(pieces[0], x); }
    }
  }

  lemma PrefixGlue(b: Build, a: Code, uop: UnaryOp, x: nat, node: Node)
    requires Glue(PrefixPieces(b, a), OneOpOwn(a.b, PrefixOp(a, uop)), x, node)
    ensures var o := |a.b.blocks|;
      || (x == o && (node == Plain(Alloca(a.b.vars)) || node == Plain(Do(PrefixOp(a, uop)))))
      || (x == a.exit && node == Jump(o))
  {
  }

  lemma PrefixPolite(b: Build, a: Code, uop: UnaryOp)
    requires CodeShaped(b, a)
    ensures var j := JoinPrefix(b, a, uop);
      Polite(b, j.b, j.enter, j.exit, Some(j.v), PrefixPieces(b, a), OneOpOwn(a.b, PrefixOp(a, uop)))
  {
    hide Assembled, Glue, HandsOff, Region;
    PrefixAssembled(b, a, uop);
    var pieces, own := PrefixPieces(b, a), OneOpOwn(a.b, PrefixOp(a, uop));
    forall x: nat, node: Node | Glue(pieces, own, x, node)
      ensures HandsOff(b, a.b, Some(a.v), node) && forall t :: t in Targets(node) && NewBlockOf(b, a.b, t) ==>
          t == a.enter
    {
      PrefixGlue(b, a, uop, x, node);
      OpHandsOff(b, a.b, Some(a.v), PrefixOp(a, uop));
      PlainHandsOff(b, a.b, Some(a.v), a.b.vars, |a.b.blocks|);
    }
  }

  lemma PrefixLeads(b: Build, a: Code, uop: UnaryOp, g: Graph, entry: nat, lives: map<nat, Life>, forks: map<nat, Fork>)
    requires CodeShaped(b, a) && HostsCode(b, JoinPrefix(b, a, uop), g, entry)
    ensures AllLeadOut(b, JoinPrefix(b, a, uop).b, PrefixPieces(b, a), OneOpOwn(a.b, PrefixOp(a, uop)), g,
        PrefixParts(a, lives, forks))
  {
    hide Hosts, Assembled, Glue, Region;
    var j, pieces, own := JoinPrefix(b, a, uop), PrefixPieces(b, a), OneOpOwn(a.b, PrefixOp(a, uop));
    PrefixAssembled(b, a, uop);
    var o := |a.b.blocks|;
    forall x: nat, node: Node | Glue(pieces, own, x, node) && a.v in NodeReads(node) ensures x in {o} || x == a.exit {
      PrefixGlue(b, a, uop, x, node);
    }
    forall q: nat, x: nat | x in {o} && Edge(g, q, x) ensures q in {o} || q == a.exit {
      Led(b, j.b, j.enter, j.exit, Some(j.v), pieces, own, x, g, entry, q);
      if node :| Glue(pieces, own, q, node) && x in Targets(node) { PrefixGlue(b, a, uop, q, node); }
    }
  }

  lemma PrefixOwn(b: Build, a: Code, uop: UnaryOp, g: Graph, entry: nat, lives: map<nat, Life>, forks: map<nat, Fork>)
    requires CodeShaped(b, a)
    ensures OwnScoped(b, JoinPrefix(b, a, uop).b, PrefixPieces(b, a), OneOpOwn(a.b, PrefixOp(a, uop)), g, entry,
        PrefixParts(a, lives, forks))
  {
    hide Glue, Region, ZoneClosed, OwnTemp;
    EmptyZone(g, entry, |a.b.blocks|, 0, 1);
    var pieces, own := PrefixPieces(b, a), OneOpOwn(a.b, PrefixOp(a, uop));
    forall x: nat, node: Node | Glue(pieces, own, x, node) ensures x == |a.b.blocks| || node.Jump? {
      PrefixGlue(b, a, uop, x, node);
    }
    OneOpTemp(pieces, a.b, PrefixOp(a, uop));
    assert forall v :: NewTempOf(b, JoinPrefix(b, a, uop).b, v) ==>
        v == a.b.vars || NewTempOf(pieces[0].b, pieces[0].a, v);
  }

  lemma PrefixScoped(b: Build, a: Code, uop: UnaryOp, g: Graph, entry: nat, La: map<nat, Life>, Fa: map<nat, Fork>)
    returns (lives: map<nat, Life>, forks: map<nat, Fork>)
    requires CodeShaped(b, a) && HostsCode(b, JoinPrefix(b, a, uop), g, entry) && CodeScoped(b, a, g, entry, La, Fa)
    ensures CodeScoped(b, JoinPrefix(b, a, uop), g, entry, lives, forks)
  {
    hide Hosts, Polite, Glue, Region, AllLeadOut, OwnScoped, ScopedPart, GlueMerges;
    var j, pieces, own := JoinPrefix(b, a, uop), PrefixPieces(b, a), OneOpOwn(a.b, PrefixOp(a, uop));
    var q := PrefixParts(a, La, Fa);
    PrefixPolite(b, a, uop);
    PrefixLeads(b, a, uop, g, entry, La, Fa);
    PrefixOwn(b, a, uop, g, entry, La, Fa);
    lives, forks := WholeLives(pieces, q), WholeForks(pieces, q);
    forall x: nat, node: Node | Glue(pieces, own, x, node) ensures !(node.Plain? && node.item.Merge?) {
      PrefixGlue(b, a, uop, x, node);
    }
    NoMerges(pieces, own, g, entry, b, j.b, lives, forks);
    WholeScoped(b, j.b, j.enter, j.exit, Some(j.v), pieces, own, g, entry, q);
  }

  // ----- infix -----

  function InfixPieces(b: Build, l: Code, r: Code): seq<Piece> {
    [PieceOf(b, l, [Jump(r.enter)]), PieceOf(l.b, r, [Jump(|r.b.blocks|)])]
  }

  function InfixOp(l: Code, r: Code, bop: BinaryOp): Op<Text> { Binary(bop, r.b.vars, l.v, r.v) }

  /** The blocks of a code. */
  function BlocksOf(b: Build, a: Build): (r: set<nat>)
    requires |b.blocks| <= |a.blocks|
    ensures forall x: nat :: x in r <==> NewBlockOf(b, a, x)
  {
    Upcoming(b, |a.blocks| - |b.blocks|)
  }

  function InfixParts(l: Code, r: Code, Ll: map<nat, Life>, Fl: map<nat, Fork>, Lr: map<nat, Life>,
      Fr: map<nat, Fork>): Parts
    requires |l.b.blocks| <= |r.b.blocks|
  {
    OneOpParts(r.b).(lives := [Ll, Lr], forks := [Fl, Fr], extras := [BlocksOf(l.b, r.b) + {|r.b.blocks|},
        {|r.b.blocks|}])
  }

  lemma InfixAssembled(b: Build, l: Code, r: Code, bop: BinaryOp)
    requires CodeShaped(b, l) && CodeShaped(l.b, r)
    ensures Assembled(b, JoinInfix(b, l, r, bop).b, InfixPieces(b, l, r), OneOpOwn(r.b, InfixOp(l, r, bop)))
  {
    hide Region;
    var j, pieces, own := JoinInfix(b, l, r, bop), InfixPieces(b, l, r), OneOpOwn(r.b, InfixOp(l, r, bop));
    forall x: nat | NewBlockOf(b, j.b, x) ensures Placed(pieces, own, x, j.b.blocks[x]) {
      if x < |l.b.blocks| {
        assert j.b.blocks[x] == PieceBlock(pieces[0], x);
      } else if x < |r.b.blocks| {
        assert j.b.blocks[x] == PieceBlock(pieces[1], x);
      }
    }
  }

  lemma InfixGlue(b: Build, l: Code, r: Code, bop: BinaryOp, x: nat, node: Node)
    requires Glue(InfixPieces(b, l, r), OneOpOwn(r.b, InfixOp(l, r, bop)), x, node)
    ensures var o := |r.b.blocks|;
      || (x == o && (node == Plain(Alloca(r.b.vars)) || node == Plain(Do(InfixOp(l, r, bop)))))
      || (x == l.exit && node == Jump(r.enter)) || (x == r.exit && node == Jump(o))
  {
  }

  lemma InfixPolite(b: Build, l: Code, r: Code, bop: BinaryOp)
    requires CodeShaped(b, l) && CodeShaped(l.b, r)
    ensures var j := JoinInfix(b, l, r, bop);
      Polite(b, j.b, j.enter, j.exit, Some(j.v), InfixPieces(b, l, r), OneOpOwn(r.b, InfixOp(l, r, bop)))
  {
    hide Assembled, Glue, HandsOff, Region;
    InfixAssembled(b, l, r, bop);
    var pieces, own := InfixPieces(b, l, r), OneOpOwn(r.b, InfixOp(l, r, bop));
    forall x: nat, node: Node | Glue(pieces, own, x, node)
      ensures HandsOff(b, l.b, Some(l.v), node) && forall t :: t in Targets(node) && NewBlockOf(b, l.b, t) ==>
          t == l.enter
      ensures HandsOff(l.b, r.b, Some(r.v), node) && forall t :: t in Targets(node) && NewBlockOf(l.b, r.b, t) ==>
          t == r.enter
    {
      InfixGlue(b, l, r, bop, x, node);
      OpHandsOff(b, l.b, Some(l.v), InfixOp(l, r, bop));
      OpHandsOff(l.b, r.b, Some(r.v), InfixOp(l, r, bop));
      PlainHandsOff(b, l.b, Some(l.v), r.b.vars, r.enter);
      PlainHandsOff(b, l.b, Some(l.v), r.b.vars, |r.b.blocks|);
      PlainHandsOff(l.b, r.b, Some(r.v), r.b.vars, r.enter);
      PlainHandsOff(l.b, r.b, Some(r.v), r.b.vars, |r.b.blocks|);
    }
  }

  lemma InfixLeads(b: Build, l: Code, r: Code, bop: BinaryOp, g: Graph, entry: nat, Ll: map<nat, Life>,
      Fl: map<nat, Fork>, Lr: map<nat, Life>, Fr: map<nat, Fork>)
    requires CodeShaped(b, l) && CodeShaped(l.b, r) && HostsCode(b, JoinInfix(b, l, r, bop), g, entry)
    ensures AllLeadOut(b, JoinInfix(b, l, r, bop).b, InfixPieces(b, l, r), OneOpOwn(r.b, InfixOp(l, r, bop)), g,
        InfixParts(l, r, Ll, Fl, Lr, Fr))
  {
    hide Hosts, Assembled, Glue, Region;
    var j, pieces, own := JoinInfix(b, l, r, bop), InfixPieces(b, l, r), OneOpOwn(r.b, InfixOp(l, r, bop));
    InfixAssembled(b, l, r, bop);
    var o := |r.b.blocks|;
    var extra := BlocksOf(l.b, r.b) + {o};
    forall x: nat, node: Node | Glue(pieces, own, x, node)
      ensures l.v in NodeReads(node) ==> x in extra || x == l.exit
      ensures r.v in NodeReads(node) ==> x in {o} || x == r.exit
    {
      InfixGlue(b, l, r, bop, x, node);
    }
    forall q: nat, x: nat | x in extra && Edge(g, q, x)
      ensures q in extra || q == l.exit
      ensures x == o ==> q == r.exit
    {
      Led(b, j.b, j.enter, j.exit, Some(j.v), pieces, own, x, g, entry, q);
      if node :| Glue(pieces, own, q, node) && x in Targets(node) { InfixGlue(b, l, r, bop, q, node); }
    }
  }

  lemma InfixTemp(b: Build, l: Code, r: Code, bop: BinaryOp)
    requires CodeShaped(b, l) && CodeShaped(l.b, r)
    ensures OwnTemp(InfixPieces(b, l, r), OneOpOwn(r.b, InfixOp(l, r, bop)), r.b.vars, Life(|r.b.blocks|, 0, 1, {}))
  {
    hide Glue, Region, OwnTemp, OneOpOwn;
    var pieces, own := InfixPieces(b, l, r), OneOpOwn(r.b, InfixOp(l, r, bop));
    forall x: nat, node: Node | Glue(pieces, own, x, node) ensures x == |r.b.blocks| || node.Jump? {
      InfixGlue(b, l, r, bop, x, node);
    }
    OneOpTemp(pieces, r.b, InfixOp(l, r, bop));
  }

  lemma InfixOwn(b: Build, l: Code, r: Code, bop: BinaryOp, g: Graph, entry: nat, Ll: map<nat, Life>,
      Fl: map<nat, Fork>, Lr: map<nat, Life>, Fr: map<nat, Fork>)
    requires CodeShaped(b, l) && CodeShaped(l.b, r)
    ensures OwnScoped(b, JoinInfix(b, l, r, bop).b, InfixPieces(b, l, r), OneOpOwn(r.b, InfixOp(l, r, bop)), g, entry,
        InfixParts(l, r, Ll, Fl, Lr, Fr))
  {
    hide Glue, Region, ZoneClosed, OwnTemp, OneOpOwn;
    EmptyZone(g, entry, |r.b.blocks|, 0, 1);
    InfixTemp(b, l, r, bop);
    var pieces := InfixPieces(b, l, r);
    assert forall v :: NewTempOf(b, JoinInfix(b, l, r, bop).b, v) ==>
      v == r.b.vars || NewTempOf(pieces[0].b, pieces[0].a, v) || NewTempOf(pieces[1].b, pieces[1].a, v);
  }

  lemma InfixScoped(b: Build, l: Code, r: Code, bop: BinaryOp, g: Graph, entry: nat,
                    Ll: map<nat, Life>, Fl: map<nat, Fork>, Lr: map<nat, Life>, Fr: map<nat, Fork>)
    returns (lives: map<nat, Life>, forks: map<nat, Fork>)
    requires CodeShaped(b, l) && CodeShaped(l.b, r) && HostsCode(b, JoinInfix(b, l, r, bop), g, entry)
    requires CodeScoped(b, l, g, entry, Ll, Fl) && CodeScoped(l.b, r, g, entry, Lr, Fr)
    ensures CodeScoped(b, JoinInfix(b, l, r, bop), g, entry, lives, forks)
  {
    hide Hosts, Polite, Glue, Region, AllLeadOut, OwnScoped, ScopedPart, GlueMerges;
    var j, pieces, own := JoinInfix(b, l, r, bop), InfixPieces(b, l, r), OneOpOwn(r.b, InfixOp(l, r, bop));
    var q := InfixParts(l, r, Ll, Fl, Lr, Fr);
    InfixPolite(b, l, r, bop);
    InfixLeads(b, l, r, bop, g, entry, Ll, Fl, Lr, Fr);
    InfixOwn(b, l, r, bop, g, entry, Ll, Fl, Lr, Fr);
    lives, forks := WholeLives(pieces, q), WholeForks(pieces, q);
    forall x: nat, node: Node | Glue(pieces, own, x, node) ensures !(node.Plain? && node.item.Merge?) {
      InfixGlue(b, l, r, bop, x, node);
    }
    NoMerges(pieces, own, g, entry, b, j.b, lives, forks);
    WholeScoped(b, j.b, j.enter, j.exit, Some(j.v), pieces, own, g, entry, q);
  }

  // ----- assignment -----

  function AssignPieces(b: Build, r: Code): seq<Piece> { [PieceOf(b, r, [Jump(|r.b.blocks|)])] }

  function AssignOwn(r: Code, target: Text): map<nat, Block> {
    map[|r.b.blocks| := [Plain(Do(Store(target, r.v))), Jump(|r.b.blocks| + 1)], |r.b.blocks| + 1 := []]
  }

  function AssignParts(r: Code, lives: map<nat, Life>, forks: map<nat, Fork>): Parts {
    Parts([lives], [forks], [{|r.b.blocks|, |r.b.blocks| + 1}], map[], map[])
  }

  lemma AssignAssembled(b: Build, r: Code, target: Text)
    requires CodeShaped(b, r)
    ensures Assembled(b, JoinAssign(b, r, target).b, AssignPieces(b, r), AssignOwn(r, target))
  {
    hide Region;
    var j, pieces, own := JoinAssign(b, r, target), AssignPieces(b, r), AssignOwn(r, target);
    forall x: nat | NewBlockOf(b, j.b, x) ensures Placed(pieces, own, x, j.b.blocks[x]) {
      if x < |r.b.blocks| { assert j.b.blocks[x] == PieceBlock(pieces[0], x); }
    }
  }

  lemma AssignGlue(b: Build, r: Code, target: Text, x: nat, node: Node)
    requires Glue(AssignPieces(b, r), AssignOwn(r, target), x, node)
    ensures var y := |r.b.blocks|;
      || (x == y && (node == Plain(Do(Store(target, r.v))) || node == Jump(y + 1)))
      || (x == r.exit && node == Jump(y))
  {
  }

  lemma AssignPolite(b: Build, r: Code, target: Text)
    requires CodeShaped(b, r)
    ensures var j := JoinAssign(b, r, target);
      Polite(b, j.b, j.enter, j.exit, Some(j.v), AssignPieces(b, r), AssignOwn(r, target))
  {
    hide Assembled, Glue, HandsOff, Region;
    AssignAssembled(b, r, target);
    var pieces, own := AssignPieces(b, r), AssignOwn(r, target);
    forall x: nat, node: Node | Glue(pieces, own, x, node)
      ensures HandsOff(b, r.b, Some(r.v), node) && forall t :: t in Targets(node) && NewBlockOf(b, r.b, t) ==>
          t == r.enter
    {
      AssignGlue(b, r, target, x, node);
      OpHandsOff(b, r.b, Some(r.v), Store(target, r.v));
      PlainHandsOff(b, r.b, Some(r.v), r.b.vars, |r.b.blocks|);
      PlainHandsOff(b, r.b, Some(r.v), r.b.vars, |r.b.blocks| + 1);
    }
  }

  lemma AssignLeads(b: Build, r: Code, target: Text, g: Graph, entry: nat, lives: map<nat, Life>, forks: map<nat, Fork>)
    requires CodeShaped(b, r) && HostsCode(b, JoinAssign(b, r, target), g, entry)
    ensures AllLeadOut(b, JoinAssign(b, r, target).b, AssignPieces(b, r), AssignOwn(r, target), g,
        AssignParts(r, lives, forks))
  {
    hide Hosts, Assembled, Glue, Region;
    var j, pieces, own := JoinAssign(b, r, target), AssignPieces(b, r), AssignOwn(r, target);
    AssignAssembled(b, r, target);
    var extra := {|r.b.blocks|, |r.b.blocks| + 1};
    forall x: nat, node: Node | Glue(pieces, own, x, node) && r.v in NodeReads(node) ensures x in extra || x == r.exit {
      AssignGlue(b, r, target, x, node);
    }
    forall q: nat, x: nat | x in extra && Edge(g, q, x) ensures q in extra || q == r.exit {
      Led(b, j.b, j.enter, j.exit, Some(j.v), pieces, own, x, g, entry, q);
      if node :| Glue(pieces, own, q, node) && x in Targets(node) { AssignGlue(b, r, target, q, node); }
    }
  }

  lemma AssignScoped(b: Build, r: Code, target: Text, g: Graph, entry: nat, Lr: map<nat, Life>, Fr: map<nat, Fork>)
    returns (lives: map<nat, Life>, forks: map<nat, Fork>)
    requires CodeShaped(b, r) && HostsCode(b, JoinAssign(b, r, target), g, entry) && CodeScoped(b, r, g, entry, Lr, Fr)
    ensures CodeScoped(b, JoinAssign(b, r, target), g, entry, lives, forks)
  {
    hide Hosts, Polite, Glue, Region, AllLeadOut, MergesScoped, GlueMerges, Lives, LivesInside;
    var j, pieces, own := JoinAssign(b, r, target), AssignPieces(b, r), AssignOwn(r, target);
    var q := AssignParts(r, Lr, Fr);
    AssignPolite(b, r, target);
    AssignLeads(b, r, target, g, entry, Lr, Fr);
    assert forall v :: NewTempOf(b, j.b, v) ==> NewTempOf(pieces[0].b, pieces[0].a, v);
    lives, forks := WholeLives(pieces, q), WholeForks(pieces, q);
    assert Joined(pieces, q, 0) == map[];
    assert lives[r.v].zone >= {j.exit};
    forall x: nat, node: Node | Glue(pieces, own, x, node) ensures !(node.Plain? && node.item.Merge?) {
      AssignGlue(b, r, target, x, node);
    }
    NoMerges(pieces, own, g, entry, b, j.b, lives, forks);
    WholeScoped(b, j.b, j.enter, j.exit, Some(j.v), pieces, own, g, entry, q);
  }

  // ----- update -----

  function UpdateOwn(b: Build, increment: bool, target: Text): map<nat, Block> {
    map[|b.blocks| := UpdateNodes(b.vars, increment, target, |b.blocks| + 1), |b.blocks| + 1 := []]
  }

  function UpdateParts(b: Build): Parts {
    var x, v := |b.blocks|, b.vars;
    Parts([], [], [], map[v := Life(x, 0, 1, {x + 1}), v + 1 := Life(x, 2, 3, {x + 1}),
        v + 2 := Life(x, 4, 5, {x + 1})], map[])
  }

  lemma UpdateAssembled(b: Build, increment: bool, prefix: bool, target: Text)
    ensures Assembled(b, GenUpdate(b, increment, prefix, target).b, [], UpdateOwn(b, increment, target))
  {
    var c, own := GenUpdate(b, increment, prefix, target), UpdateOwn(b, increment, target);
    forall y: nat | NewBlockOf(b, c.b, y) ensures Placed([], own, y, c.b.blocks[y]) {}
  }

  lemma UpdateGlue(b: Build, increment: bool, target: Text, x: nat, node: Node)
    requires Glue([], UpdateOwn(b, increment, target), x, node)
    ensures x == |b.blocks| && node in UpdateNodes(b.vars, increment, target, x + 1)
    ensures !(node.Plain? && node.item.Merge?) && Targets(node) <= {x + 1}
  {
    var nodes := UpdateNodes(b.vars, increment, target, |b.blocks| + 1);
    if x == |b.blocks| { assert node in nodes; }
  }

  lemma UpdateZone(b: Build, increment: bool, prefix: bool, target: Text, g: Graph, entry: nat, q: nat)
    requires HostsCode(b, GenUpdate(b, increment, prefix, target), g, entry) && Edge(g, q, |b.blocks| + 1)
    ensures q == |b.blocks|
  {
    hide Hosts, Assembled, Glue;
    var c, own := GenUpdate(b, increment, prefix, target), UpdateOwn(b, increment, target);
    UpdateAssembled(b, increment, prefix, target);
    Led(b, c.b, c.enter, c.exit, Some(c.v), [], own, |b.blocks| + 1, g, entry, q);
    var node :| Glue([], own, q, node) && |b.blocks| + 1 in Targets(node);
    UpdateGlue(b, increment, target, q, node);
  }

  lemma UpdateTemp(b: Build, increment: bool, target: Text, v: nat)
    requires v in UpdateParts(b).ownLives
    ensures OwnTemp([], UpdateOwn(b, increment, target), v, UpdateParts(b).ownLives[v])
  {
    hide Glue;
    var nodes := UpdateNodes(b.vars, increment, target, |b.blocks| + 1);
    forall x: nat, node: Node | Glue([], UpdateOwn(b, increment, target), x, node) ensures x == |b.blocks| {
      UpdateGlue(b, increment, target, x, node);
    }
    UpdateUses(b, increment, target, v);
  }

  lemma UpdateUses(b: Build, increment: bool, target: Text, v: nat)
    ensures var nodes := UpdateNodes(b.vars, increment, target, |b.blocks| + 1);
      forall i :: 0 <= i < 8 ==>
        && (NodeWrites(nodes[i]) == Some(v) <==>
            (i == 1 && v == b.vars) || (i == 3 && v == b.vars + 1) || (i == 5 && v == b.vars + 2))
        && (v in NodeReads(nodes[i]) <==> (i == 5 && (v == b.vars || v == b.vars + 1)) || (i == 6 && v == b.vars + 2))
  {
  }

  lemma UpdateClosed(b: Build, increment: bool, prefix: bool, target: Text, g: Graph, entry: nat, v: nat)
    requires HostsCode(b, GenUpdate(b, increment, prefix, target), g, entry) && v in UpdateParts(b).ownLives
    ensures ZoneClosed(g, entry, UpdateParts(b).ownLives[v])
  {
    hide Hosts, UpdateNodes;
    var c, l := GenUpdate(b, increment, prefix, target), UpdateParts(b).ownLives[v];
    EntryOutside(b, c.b, c.enter, c.exit, Some(c.v), g, entry);
    forall p: nat, x: nat | x in l.zone && Edge(g, p, x) ensures p in l.zone || p == l.home {
      UpdateZone(b, increment, prefix, target, g, entry, p);
    }
  }

  lemma UpdateOwnScoped(b: Build, increment: bool, prefix: bool, target: Text, g: Graph, entry: nat)
    requires HostsCode(b, GenUpdate(b, increment, prefix, target), g, entry)
    ensures OwnScoped(b, GenUpdate(b, increment, prefix, target).b, [], UpdateOwn(b, increment, target), g, entry,
        UpdateParts(b))
  {
    hide Hosts, OwnTemp, UpdateNodes, ZoneClosed;
    forall v | v in UpdateParts(b).ownLives
      ensures OwnTemp([], UpdateOwn(b, increment, target), v, UpdateParts(b).ownLives[v]) &&
          ZoneClosed(g, entry, UpdateParts(b).ownLives[v])
    {
      UpdateTemp(b, increment, target, v);
      UpdateClosed(b, increment, prefix, target, g, entry, v);
    }
  }

  lemma UpdateScoped(b: Build, increment: bool, prefix: bool, target: Text, g: Graph, entry: nat)
      returns (lives: map<nat, Life>, forks: map<nat, Fork>)
    requires HostsCode(b, GenUpdate(b, increment, prefix, target), g, entry)
    ensures CodeScoped(b, GenUpdate(b, increment, prefix, target), g, entry, lives, forks)
  {
    hide Hosts, Assembled, Glue, OwnScoped, GlueMerges, UpdateNodes, ScopedPart;
    var c, own, q := GenUpdate(b, increment, prefix, target), UpdateOwn(b, increment, target), UpdateParts(b);
    UpdateAssembled(b, increment, prefix, target);
    UpdateOwnScoped(b, increment, prefix, target, g, entry);
    lives, forks := WholeLives([], q), WholeForks([], q);
    forall x: nat, node: Node | Glue([], own, x, node) ensures !(node.Plain? && node.item.Merge?) {
      UpdateGlue(b, increment, target, x, node);
    }
    NoMerges([], own, g, entry, b, c.b, lives, forks);
    assert lives == q.ownLives;
    WholeScoped(b, c.b, c.enter, c.exit, Some(c.v), [], own, g, entry, q);
  }

  // ----- conditional -----

  function ConditionalPieces(b: Build, t: Code, y: Code, n: Code): seq<Piece> {
    var fork, tail := |n.b.blocks|, |n.b.blocks| + 1;
    [PieceOf(b, t, [Jump(fork)]), PieceOf(t.b, y, [Jump(tail)]), PieceOf(y.b, n, [Jump(tail)])]
  }

  function MergeItem(t: Code, y: Code, n: Code): Item<Text> { Merge(t.v, y.v, n.v, n.b.vars) }

  function ConditionalOwn(t: Code, y: Code, n: Code): map<nat, Block> {
    map[|n.b.blocks| := [Branch(t.v, y.enter, n.enter)],
        |n.b.blocks| + 1 := [Plain(Alloca(n.b.vars)), Plain(MergeItem(t, y, n))]]
  }

  ghost predicate Arms(b: Build, t: Code, y: Code, n: Code) {
    CodeShaped(b, t) && CodeShaped(t.b, y) && CodeShaped(y.b, n)
  }

  lemma ArmsOrder(b: Build, t: Code, y: Code, n: Code)
    requires Arms(b, t, y, n)
    ensures |b.blocks| <= t.enter < |t.b.blocks| <= y.enter < |y.b.blocks| <= n.enter < |n.b.blocks|
    ensures |b.blocks| <= t.exit < |t.b.blocks| <= y.exit < |y.b.blocks| <= n.exit < |n.b.blocks|
    ensures b.vars <= t.v < t.b.vars <= y.v < y.b.vars <= n.v < n.b.vars
  {
  }

  lemma ConditionalCode(b: Build, t: Code, y: Code, n: Code)
    requires Arms(b, t, y, n)
    ensures CodeAbove(b, t) && CodeAbove(t.b, y) && CodeAbove(y.b, n)
    ensures var j, tail := JoinConditional(b, t, y, n), |n.b.blocks| + 1;
      j.enter == t.enter && j.exit == tail && j.v == n.b.vars && j.b.vars == n.b.vars + 1 && |j.b.blocks| == tail + 1
  {
  }

  function ConditionalFork(t: Code, y: Code, n: Code): Fork
    requires |t.b.blocks| <= |y.b.blocks| <= |n.b.blocks|
  {
    Fork(|n.b.blocks|, BlocksOf(t.b, y.b), BlocksOf(y.b, n.b), y.enter, n.enter, y.exit, n.exit)
  }

  function ConditionalExtra(t: Code, y: Code, n: Code): set<nat>
    requires |t.b.blocks| <= |y.b.blocks| <= |n.b.blocks|
  {
    BlocksOf(t.b, y.b) + BlocksOf(y.b, n.b) + {|n.b.blocks|, |n.b.blocks| + 1}
  }

  function ConditionalParts(t: Code, y: Code, n: Code, Ls: seq<map<nat, Life>>, Fs: seq<map<nat, Fork>>): Parts
    requires |t.b.blocks| <= |y.b.blocks| <= |n.b.blocks|
  {
    Parts(Ls, Fs, [ConditionalExtra(t, y, n), {}, {}],
      map[n.b.vars := Life(|n.b.blocks| + 1, 0, 1, {})], map[|n.b.blocks| + 1 := ConditionalFork(t, y, n)])
  }

  lemma ConditionalContent(b: Build, t: Code, y: Code, n: Code, x: nat)
    requires Arms(b, t, y, n) && x < |n.b.blocks|
    ensures var j := JoinConditional(b, t, y, n);
      x < |j.b.blocks| && j.b.blocks[x] == n.b.blocks[x] +
        if x == y.exit || x == n.exit then [Jump(|n.b.blocks| + 1)] else if x == t.exit then [Jump(|n.b.blocks|)]
            else []
  {
    hide Region;
    ArmsOrder(b, t, y, n);
  }

  lemma ConditionalPlaced(b: Build, t: Code, y: Code, n: Code, x: nat)
    requires Arms(b, t, y, n) && NewBlockOf(b, JoinConditional(b, t, y, n).b, x)
    ensures Placed(ConditionalPieces(b, t, y, n), ConditionalOwn(t, y, n), x, JoinConditional(b, t, y, n).b.blocks[x])
  {
    hide Region;
    ArmsOrder(b, t, y, n);
    var j, pieces := JoinConditional(b, t, y, n), ConditionalPieces(b, t, y, n);
    if x < |n.b.blocks| {
      ConditionalContent(b, t, y, n, x);
      if x < |t.b.blocks| {
        BelowBlock(t.b, y.b, x);
        BelowBlock(y.b, n.b, x);
        assert j.b.blocks[x] == PieceBlock(pieces[0], x);
      } else if x < |y.b.blocks| {
        BelowBlock(y.b, n.b, x);
        assert j.b.blocks[x] == PieceBlock(pieces[1], x);
      } else {
        assert j.b.blocks[x] == PieceBlock(pieces[2], x);
      }
    }
  }

  lemma ConditionalAssembled(b: Build, t: Code, y: Code, n: Code)
    requires Arms(b, t, y, n)
    ensures Assembled(b, JoinConditional(b, t, y, n).b, ConditionalPieces(b, t, y, n), ConditionalOwn(t, y, n))
  {
    hide Region, Placed;
    ArmsOrder(b, t, y, n);
    var j, pieces, own := JoinConditional(b, t, y, n), ConditionalPieces(b, t, y, n), ConditionalOwn(t, y, n);
    forall x: nat | NewBlockOf(b, j.b, x) ensures Placed(pieces, own, x, j.b.blocks[x]) {
      ConditionalPlaced(b, t, y, n, x);
    }
  }

  lemma ConditionalGlue(b: Build, t: Code, y: Code, n: Code, x: nat, node: Node)
    requires Glue(ConditionalPieces(b, t, y, n), ConditionalOwn(t, y, n), x, node)
    ensures var fork, tail := |n.b.blocks|, |n.b.blocks| + 1;
      || (x == fork && node == Branch(t.v, y.enter, n.enter))
      || (x == tail && (node == Plain(Alloca(n.b.vars)) || node == Plain(MergeItem(t, y, n))))
      || (x == t.exit && node == Jump(fork)) || ((x == y.exit || x == n.exit) && node == Jump(tail))
  {
  }

  lemma BranchAndMergeHandsOff(b: Build, a: Build, result: Option<nat>, t: nat, y: nat, n: nat, m: nat, d: nat, d': nat)
    requires !NewTempOf(b, a, m)
    requires forall v :: v in [t, y, n] && NewTempOf(b, a, v) ==> result == Some(v)
    ensures HandsOff(b, a, result, Branch(t, d, d')) && HandsOff(b, a, result, Plain(Merge(t, y, n, m)))
  {
    assert t in [t, y, n] && y in [t, y, n] && n in [t, y, n];
  }

  lemma ConditionalKeepsOff(b: Build, t: Code, y: Code, n: Code, p: Piece)
    requires Arms(b, t, y, n) && p in ConditionalPieces(b, t, y, n)
    ensures GlueKeepsOff(ConditionalPieces(b, t, y, n), ConditionalOwn(t, y, n), p)
  {
    hide Glue, HandsOff, CodeShaped;
    ArmsOrder(b, t, y, n);
    var pieces, own := ConditionalPieces(b, t, y, n), ConditionalOwn(t, y, n);
    forall x: nat, node: Node | Glue(pieces, own, x, node)
      ensures HandsOff(p.b, p.a, p.result, node) && forall t :: t in Targets(node) && NewBlockOf(p.b, p.a, t) ==>
          t == p.enter
    {
      ConditionalGlue(b, t, y, n, x, node);
      BranchAndMergeHandsOff(p.b, p.a, p.result, t.v, y.v, n.v, n.b.vars, y.enter, n.enter);
      PlainHandsOff(p.b, p.a, p.result, n.b.vars, |n.b.blocks|);
      PlainHandsOff(p.b, p.a, p.result, n.b.vars, |n.b.blocks| + 1);
    }
  }

  lemma ConditionalPolite(b: Build, t: Code, y: Code, n: Code)
    requires Arms(b, t, y, n)
    ensures var j := JoinConditional(b, t, y, n);
      Polite(b, j.b, j.enter, j.exit, Some(j.v), ConditionalPieces(b, t, y, n), ConditionalOwn(t, y, n))
  {
    hide Assembled, CodeShaped, GlueKeepsOff;
    ArmsOrder(b, t, y, n);
    ConditionalAssembled(b, t, y, n);
    var pieces := ConditionalPieces(b, t, y, n);
    forall i | 0 <= i < |pieces| ensures GlueKeepsOff(pieces, ConditionalOwn(t, y, n), pieces[i]) {
      ConditionalKeepsOff(b, t, y, n, pieces[i]);
    }
    ConditionalCode(b, t, y, n);
  }

  /** Who leads to the blocks of a conditional after its test. */
  lemma ConditionalLed(b: Build, t: Code, y: Code, n: Code, g: Graph, entry: nat, q: nat, x: nat)
    requires Arms(b, t, y, n) && CodeAbove(b, t) && CodeAbove(t.b, y) && CodeAbove(y.b, n)
    requires HostsCode(b, JoinConditional(b, t, y, n), g, entry)
    requires |t.b.blocks| <= x <= |n.b.blocks| + 1 && Edge(g, q, x)
    ensures NewBlockOf(t.b, y.b, x) ==> NewBlockOf(t.b, y.b, q) || (q == |n.b.blocks| && x == y.enter)
    ensures NewBlockOf(y.b, n.b, x) ==> NewBlockOf(y.b, n.b, q) || (q == |n.b.blocks| && x == n.enter)
    ensures x == |n.b.blocks| ==> q == t.exit
    ensures x == |n.b.blocks| + 1 ==> q == y.exit || q == n.exit
  {
    hide Hosts, Assembled, Glue, CodeShaped;
    ArmsOrder(b, t, y, n);
    ConditionalCode(b, t, y, n);
    ConditionalAssembled(b, t, y, n);
    var j, pieces, own := JoinConditional(b, t, y, n), ConditionalPieces(b, t, y, n), ConditionalOwn(t, y, n);
    Led(b, j.b, j.enter, j.exit, Some(j.v), pieces, own, x, g, entry, q);
    if node :| Glue(pieces, own, q, node) && x in Targets(node) { ConditionalGlue(b, t, y, n, q, node); }
  }

  lemma ConditionalLeads(b: Build, t: Code, y: Code, n: Code, g: Graph, entry: nat, Ls: seq<map<nat, Life>>,
      Fs: seq<map<nat, Fork>>)
    requires Arms(b, t, y, n) && |t.b.blocks| <= |y.b.blocks| <= |n.b.blocks| && CodeAbove(b, t) && CodeAbove(t.b, y) &&
        CodeAbove(y.b, n)
    requires HostsCode(b, JoinConditional(b, t, y, n), g, entry) && |Ls| == |Fs| == 3
    ensures AllLeadOut(b, JoinConditional(b, t, y, n).b, ConditionalPieces(b, t, y, n), ConditionalOwn(t, y, n), g,
        ConditionalParts(t, y, n, Ls, Fs))
  {
    hide Hosts, Glue, CodeShaped;
    ArmsOrder(b, t, y, n);
    ConditionalCode(b, t, y, n);
    var j, pieces, own := JoinConditional(b, t, y, n), ConditionalPieces(b, t, y, n), ConditionalOwn(t, y, n);
    var extra := ConditionalExtra(t, y, n);
    forall x: nat, node: Node | Glue(pieces, own, x, node)
      ensures t.v in NodeReads(node) ==> x in extra
      ensures y.v !in NodeReads(node) && n.v !in NodeReads(node)
    {
      ConditionalGlue(b, t, y, n, x, node);
    }
    forall q: nat, x: nat | x in extra && Edge(g, q, x) ensures q in extra || q == t.exit {
      ConditionalLed(b, t, y, n, g, entry, q, x);
    }
  }

  lemma ConditionalTemp(b: Build, t: Code, y: Code, n: Code)
    requires Arms(b, t, y, n)
    ensures OwnTemp(ConditionalPieces(b, t, y, n), ConditionalOwn(t, y, n), n.b.vars, Life(|n.b.blocks| + 1, 0, 1, {}))
  {
    hide Glue, CodeShaped;
    ArmsOrder(b, t, y, n);
    var pieces, own := ConditionalPieces(b, t, y, n), ConditionalOwn(t, y, n);
    forall x: nat, node: Node | Glue(pieces, own, x, node) && (NodeWrites(node) == Some(n.b.vars) ||
        n.b.vars in NodeReads(node))
      ensures x == |n.b.blocks| + 1
    {
      ConditionalGlue(b, t, y, n, x, node);
    }
  }

  lemma ConditionalOwnScoped(b: Build, t: Code, y: Code, n: Code, g: Graph, entry: nat, Ls: seq<map<nat, Life>>,
      Fs: seq<map<nat, Fork>>)
    requires Arms(b, t, y, n) && |t.b.blocks| <= |y.b.blocks| <= |n.b.blocks| && CodeAbove(b, t) && CodeAbove(t.b, y) &&
        CodeAbove(y.b, n)
    ensures OwnScoped(b, JoinConditional(b, t, y, n).b, ConditionalPieces(b, t, y, n), ConditionalOwn(t, y, n), g,
        entry, ConditionalParts(t, y, n, Ls, Fs))
  {
    hide Glue, CodeShaped, ZoneClosed, OwnTemp;
    ArmsOrder(b, t, y, n);
    ConditionalCode(b, t, y, n);
    ConditionalTemp(b, t, y, n);
    EmptyZone(g, entry, |n.b.blocks| + 1, 0, 1);
    var pieces := ConditionalPieces(b, t, y, n);
    assert forall v :: NewTempOf(b, JoinConditional(b, t, y, n).b, v) ==>
      v == n.b.vars || NewTempOf(pieces[0].b, pieces[0].a, v) || NewTempOf(pieces[1].b, pieces[1].a, v) ||
          NewTempOf(pieces[2].b, pieces[2].a, v);
  }

  /** The branch keeps the arms apart until they merge. */
  lemma ConditionalForks(b: Build, t: Code, y: Code, n: Code, g: Graph, entry: nat, Lt: map<nat, Life>)
    requires Arms(b, t, y, n) && |t.b.blocks| <= |y.b.blocks| <= |n.b.blocks| && CodeAbove(b, t) && CodeAbove(t.b, y) &&
        CodeAbove(y.b, n)
    requires HostsCode(b, JoinConditional(b, t, y, n), g, entry)
    requires t.v in Lt && DefinedOnce(g, t.v, Lt[t.v]) && NewBlockOf(b, t.b, Lt[t.v].home)
    requires Reaches(g, y.enter, y.exit) && Reaches(g, n.enter, n.exit)
    ensures Forks(g, entry, |n.b.blocks| + 1, t.v, ConditionalFork(t, y, n))
  {
    hide Hosts, Glue, CodeShaped, Assembled, Reaches;
    ArmsOrder(b, t, y, n);
    ConditionalCode(b, t, y, n);
    ConditionalAssembled(b, t, y, n);
    var j, pieces, own := JoinConditional(b, t, y, n), ConditionalPieces(b, t, y, n), ConditionalOwn(t, y, n);
    var k := ConditionalFork(t, y, n);
    EntryOutside(b, j.b, j.enter, j.exit, Some(j.v), g, entry);
    OwnBlock(b, j.b, pieces, own, |n.b.blocks|);
    assert g[k.block] == [Branch(t.v, y.enter, n.enter)];
    forall q: nat, x: nat | x in k.yes && Edge(g, q, x) ensures q in k.yes || (q == k.block && x == k.yesEnter) {
      ConditionalLed(b, t, y, n, g, entry, q, x);
    }
    forall q: nat, x: nat | x in k.no && Edge(g, q, x) ensures q in k.no || (q == k.block && x == k.noEnter) {
      ConditionalLed(b, t, y, n, g, entry, q, x);
    }
    var tail := |n.b.blocks| + 1;
    forall q: nat | Edge(g, q, tail) ensures q == k.yesExit || q == k.noExit {
      ConditionalLed(b, t, y, n, g, entry, q, tail);
    }
  }

  lemma ConditionalMerges(b: Build, t: Code, y: Code, n: Code, g: Graph, entry: nat, lives: map<nat, Life>,
      forks: map<nat, Fork>)
    requires Arms(b, t, y, n) && |t.b.blocks| <= |y.b.blocks| <= |n.b.blocks| && CodeAbove(b, t) && CodeAbove(t.b, y) &&
        CodeAbove(y.b, n)
    requires HostsCode(b, JoinConditional(b, t, y, n), g, entry)
    requires Forks(g, entry, |n.b.blocks| + 1, t.v, ConditionalFork(t, y, n))
    requires |n.b.blocks| + 1 in forks && forks[|n.b.blocks| + 1] == ConditionalFork(t, y, n)
    requires ExitHeld(y.exit, Some(y.v), lives) && ExitHeld(n.exit, Some(n.v), lives)
    ensures GlueMerges(ConditionalPieces(b, t, y, n), ConditionalOwn(t, y, n), g, entry, b,
        JoinConditional(b, t, y, n).b, lives, forks)
  {
    hide Hosts, Glue, CodeShaped, Assembled, Forks;
    ArmsOrder(b, t, y, n);
    ConditionalCode(b, t, y, n);
    ConditionalAssembled(b, t, y, n);
    var j, pieces, own := JoinConditional(b, t, y, n), ConditionalPieces(b, t, y, n), ConditionalOwn(t, y, n);
    var tail := |n.b.blocks| + 1;
    EntryOutside(b, j.b, j.enter, j.exit, Some(j.v), g, entry);
    OwnBlock(b, j.b, pieces, own, tail);
    assert j.b.blocks[tail] <= g[tail];
    assert g[tail][0] == Plain(Alloca(n.b.vars));
    forall x: nat, i: nat, item: Item<Text> |
      item.Merge? && NodeAt(g, x, i, Plain(item)) && !Outside(b, j.b, x, i) && Glue(pieces, own, x, Plain(item))
      ensures x in forks && Merges(g, entry, x, i, item, forks[x], lives)
    {
      ConditionalGlue(b, t, y, n, x, Plain(item));
    }
  }

  /** What the lives of a piece say of its result carries over to the whole. */
  lemma ExitStaysHeld(exit: nat, v: nat, part: map<nat, Life>, lives: map<nat, Life>)
    requires ExitHeld(exit, Some(v), part) && Grown(part, lives)
    ensures ExitHeld(exit, Some(v), lives)
  {
  }

  lemma CodeScopedFacts(b: Build, c: Code, g: Graph, entry: nat, lives: map<nat, Life>, forks: map<nat, Fork>)
    requires CodeScoped(b, c, g, entry, lives, forks)
    ensures ExitHeld(c.exit, Some(c.v), lives) && c.v in lives && DefinedOnce(g, c.v, lives[c.v]) &&
        NewBlockOf(b, c.b, lives[c.v].home)
  {
  }

  lemma ConditionalPartsScoped(b: Build, t: Code, y: Code, n: Code, g: Graph, entry: nat, Ls: seq<map<nat, Life>>,
      Fs: seq<map<nat, Fork>>)
    requires |t.b.blocks| <= |y.b.blocks| <= |n.b.blocks| && |Ls| == |Fs| == 3
    requires CodeScoped(b, t, g, entry, Ls[0], Fs[0]) && CodeScoped(t.b, y, g, entry, Ls[1], Fs[1]) &&
        CodeScoped(y.b, n, g, entry, Ls[2], Fs[2])
    ensures PartsScoped(ConditionalPieces(b, t, y, n), g, entry, ConditionalParts(t, y, n, Ls, Fs))
  {
    hide ScopedPart;
  }

  /** In the whole, the arms are still held where they end. */
  lemma ConditionalArmsHeld(b: Build, t: Code, y: Code, n: Code, g: Graph, entry: nat, Ls: seq<map<nat, Life>>,
      Fs: seq<map<nat, Fork>>)
    requires Arms(b, t, y, n) && |t.b.blocks| <= |y.b.blocks| <= |n.b.blocks| && CodeAbove(b, t) && CodeAbove(t.b, y) &&
        CodeAbove(y.b, n)
    requires |Ls| == |Fs| == 3 && PartsScoped(ConditionalPieces(b, t, y, n), g, entry,
        ConditionalParts(t, y, n, Ls, Fs))
    requires ExitHeld(y.exit, Some(y.v), Ls[1]) && ExitHeld(n.exit, Some(n.v), Ls[2])
    ensures var lives := WholeLives(ConditionalPieces(b, t, y, n), ConditionalParts(t, y, n, Ls, Fs));
      ExitHeld(y.exit, Some(y.v), lives) && ExitHeld(n.exit, Some(n.v), lives)
  {
    hide CodeShaped, PartsScoped, OwnScoped, Assembled, WholeLives, WholeForks, ExitHeld, CodeAbove, Grown;
    var pieces, q := ConditionalPieces(b, t, y, n), ConditionalParts(t, y, n, Ls, Fs);
    var j, own := JoinConditional(b, t, y, n), ConditionalOwn(t, y, n);
    ConditionalAssembled(b, t, y, n);
    ConditionalOwnScoped(b, t, y, n, g, entry, Ls, Fs);
    WholeGrown(b, j.b, pieces, own, g, entry, q, 1);
    WholeGrown(b, j.b, pieces, own, g, entry, q, 2);
    ExitStaysHeld(y.exit, y.v, Ls[1], WholeLives(pieces, q));
    ExitStaysHeld(n.exit, n.v, Ls[2], WholeLives(pieces, q));
  }

  lemma ConditionalScoped(b: Build, t: Code, y: Code, n: Code, g: Graph, entry: nat, Ls: seq<map<nat, Life>>,
      Fs: seq<map<nat, Fork>>)
    returns (lives: map<nat, Life>, forks: map<nat, Fork>)
    requires Arms(b, t, y, n) && CodeAbove(b, t) && CodeAbove(t.b, y) && CodeAbove(y.b, n) &&
        HostsCode(b, JoinConditional(b, t, y, n), g, entry)
    requires |Ls| == |Fs| == 3
    requires CodeScoped(b, t, g, entry, Ls[0], Fs[0]) && CodeScoped(t.b, y, g, entry, Ls[1], Fs[1]) &&
        CodeScoped(y.b, n, g, entry, Ls[2], Fs[2])
    requires Reaches(g, y.enter, y.exit) && Reaches(g, n.enter, n.exit)
    ensures CodeScoped(b, JoinConditional(b, t, y, n), g, entry, lives, forks)
  {
    hide *;
    ArmsOrder(b, t, y, n);
    ConditionalCode(b, t, y, n);
    ConditionalPolite(b, t, y, n);
    ConditionalLeads(b, t, y, n, g, entry, Ls, Fs);
    ConditionalOwnScoped(b, t, y, n, g, entry, Ls, Fs);
    CodeScopedFacts(b, t, g, entry, Ls[0], Fs[0]);
    CodeScopedFacts(t.b, y, g, entry, Ls[1], Fs[1]);
    CodeScopedFacts(y.b, n, g, entry, Ls[2], Fs[2]);
    ConditionalForks(b, t, y, n, g, entry, Ls[0]);
    ConditionalPartsScoped(b, t, y, n, g, entry, Ls, Fs);
    ConditionalArmsHeld(b, t, y, n, g, entry, Ls, Fs);
    ConditionalSizes(b, t, y, n, Ls, Fs);
    var j, pieces, q := JoinConditional(b, t, y, n), ConditionalPieces(b, t, y, n), ConditionalParts(t, y, n, Ls, Fs);
    lives, forks := WholeLives(pieces, q), WholeForks(pieces, q);
    ConditionalOwnIn(t, y, n, pieces, Ls, Fs);
    ConditionalMerges(b, t, y, n, g, entry, lives, forks);
    HostsAs(b, j, g, entry);
    WholeScoped(b, j.b, j.enter, j.exit, Some(j.v), pieces, ConditionalOwn(t, y, n), g, entry, q);
    ScopedAs(b, j, g, entry, lives, forks);
  }

  lemma ConditionalSizes(b: Build, t: Code, y: Code, n: Code, Ls: seq<map<nat, Life>>, Fs: seq<map<nat, Fork>>)
    requires |t.b.blocks| <= |y.b.blocks| <= |n.b.blocks| && |Ls| == |Fs| == 3
    ensures var q := ConditionalParts(t, y, n, Ls, Fs);
        |ConditionalPieces(b, t, y, n)| == |q.lives| == |q.forks| == |q.extras| == 3
  {
  }

  lemma HostsAs(b: Build, c: Code, g: Graph, entry: nat)
    ensures HostsCode(b, c, g, entry) <==> Hosts(b, c.b, c.enter, c.exit, Some(c.v), g, entry)
  {
  }

  lemma ScopedAs(b: Build, c: Code, g: Graph, entry: nat, lives: map<nat, Life>, forks: map<nat, Fork>)
    ensures CodeScoped(b, c, g, entry, lives, forks) <==> ScopedPart(g, entry, b, c.b, c.exit, Some(c.v), lives, forks)
  {
  }

  lemma ConditionalOwnIn(t: Code, y: Code, n: Code, pieces: seq<Piece>, Ls: seq<map<nat, Life>>,
      Fs: seq<map<nat, Fork>>)
    requires |t.b.blocks| <= |y.b.blocks| <= |n.b.blocks| && |Ls| == |Fs| == |pieces| == 3
    ensures var q, tail := ConditionalParts(t, y, n, Ls, Fs), |n.b.blocks| + 1;
      && tail in WholeForks(pieces, q) && WholeForks(pieces, q)[tail] == ConditionalFork(t, y, n)
      && ExitHeld(tail, Some(n.b.vars), WholeLives(pieces, q))
  {
  }

  // ----- expressions -----

  /** Every expression C0 compiles is scoped in every graph that hosts its code. */
  lemma {:induction false} ExprScoped(b: Build, e: Expr, g: Graph, entry: nat)
      returns (lives: map<nat, Life>, forks: map<nat, Fork>)
    requires HostsCode(b, GenExpr(b, e), g, entry)
    ensures CodeScoped(b, GenExpr(b, e), g, entry, lives, forks)
    decreases e, 1
  {
    hide HostsCode, CodeScoped, CodeShaped, JoinPrefix, JoinInfix, JoinAssign, JoinConditional, GenUpdate, OneOp;
    match e
    case Lit(lit) => lives, forks := SimpleScoped(b, LoadLiteral(lit, b.vars), g, entry);
    case Identifier(name) => lives, forks := SimpleScoped(b, Load(b.vars, name), g, entry);
    case This => lives, forks := SimpleScoped(b, Op.This(b.vars), g, entry);
    case Prefix(uop, arg) =>
      var a := GenExpr(b, arg);
      ExprShaped(b, arg);
      PrefixPartHosted(b, a, uop, g, entry);
      var La, Fa := ExprScoped(b, arg, g, entry);
      lives, forks := PrefixScoped(b, a, uop, g, entry, La, Fa);
    case Infix(bop, left, right) =>
      var l := GenExpr(b, left);
      var r := GenExpr(l.b, right);
      ExprShaped(b, left);
      ExprShaped(l.b, right);
      InfixPartsHosted(b, l, r, bop, g, entry);
      var Ll, Fl := ExprScoped(b, left, g, entry);
      var Lr, Fr := ExprScoped(l.b, right, g, entry);
      lives, forks := InfixScoped(b, l, r, bop, g, entry, Ll, Fl, Lr, Fr);
    case Assign(target, right) =>
      var r := GenExpr(b, right);
      ExprShaped(b, right);
      AssignPartHosted(b, r, target, g, entry);
      var Lr, Fr := ExprScoped(b, right, g, entry);
      lives, forks := AssignScoped(b, r, target, g, entry, Lr, Fr);
    case Update(increment, prefix, target) => lives, forks := UpdateScoped(b, increment, prefix, target, g, entry);
    case Conditional(_, _, _) => lives, forks := ConditionalExprScoped(b, e, g, entry);
  }

  lemma {:induction false} ConditionalExprScoped(b: Build, e: Expr, g: Graph, entry: nat)
      returns (lives: map<nat, Life>, forks: map<nat, Fork>)
    requires e.Conditional? && HostsCode(b, GenExpr(b, e), g, entry)
    ensures CodeScoped(b, GenExpr(b, e), g, entry, lives, forks)
    decreases e, 0
  {
    hide *;
    ConditionalIs(b, e);
    var t := GenExpr(b, e.test);
    var y := GenExpr(t.b, e.consequent);
    var n := GenExpr(y.b, e.alternate);
    ExprShaped(b, e.test);
    ExprShaped(t.b, e.consequent);
    ExprShaped(y.b, e.alternate);
    AllArms(b, t, y, n);
    ConditionalPartsHosted(b, t, y, n, g, entry);
    var Lt, Ft := ExprScoped(b, e.test, g, entry);
    var Ly, Fy := ExprScoped(t.b, e.consequent, g, entry);
    var Ln, Fn := ExprScoped(y.b, e.alternate, g, entry);
    ExprPassable(t.b, e.consequent);
    ExprPassable(y.b, e.alternate);
    PassesInGraph(t.b, y, g, entry);
    PassesInGraph(y.b, n, g, entry);
    lives, forks := ConditionalScoped(b, t, y, n, g, entry, [Lt, Ly, Ln], [Ft, Fy, Fn]);
  }

  lemma AllArms(b: Build, t: Code, y: Code, n: Code)
    requires CodeShaped(b, t) && CodeShaped(t.b, y) && CodeShaped(y.b, n)
    ensures Arms(b, t, y, n)
  {
  }

  lemma PrefixPartHosted(b: Build, a: Code, uop: UnaryOp, g: Graph, entry: nat)
    requires CodeShaped(b, a) && HostsCode(b, JoinPrefix(b, a, uop), g, entry)
    ensures HostsCode(b, a, g, entry)
  {
    hide Hosts, Polite, Region;
    var j := JoinPrefix(b, a, uop);
    PrefixPolite(b, a, uop);
    PartHosted(b, j.b, j.enter, j.exit, Some(j.v), PrefixPieces(b, a), OneOpOwn(a.b, PrefixOp(a, uop)), g, entry, 0);
  }

  lemma InfixPartsHosted(b: Build, l: Code, r: Code, bop: BinaryOp, g: Graph, entry: nat)
    requires CodeShaped(b, l) && CodeShaped(l.b, r) && HostsCode(b, JoinInfix(b, l, r, bop), g, entry)
    ensures HostsCode(b, l, g, entry) && HostsCode(l.b, r, g, entry)
  {
    hide Hosts, Polite, Region;
    var j := JoinInfix(b, l, r, bop);
    InfixPolite(b, l, r, bop);
    PartHosted(b, j.b, j.enter, j.exit, Some(j.v), InfixPieces(b, l, r), OneOpOwn(r.b, InfixOp(l, r, bop)), g, entry,
        0);
    PartHosted(b, j.b, j.enter, j.exit, Some(j.v), InfixPieces(b, l, r), OneOpOwn(r.b, InfixOp(l, r, bop)), g, entry,
        1);
  }

  lemma AssignPartHosted(b: Build, r: Code, target: Text, g: Graph, entry: nat)
    requires CodeShaped(b, r) && HostsCode(b, JoinAssign(b, r, target), g, entry)
    ensures HostsCode(b, r, g, entry)
  {
    hide Hosts, Polite, Region;
    var j := JoinAssign(b, r, target);
    AssignPolite(b, r, target);
    PartHosted(b, j.b, j.enter, j.exit, Some(j.v), AssignPieces(b, r), AssignOwn(r, target), g, entry, 0);
  }

  lemma ConditionalPartsHosted(b: Build, t: Code, y: Code, n: Code, g: Graph, entry: nat)
    requires Arms(b, t, y, n) && CodeAbove(b, t) && CodeAbove(t.b, y) && CodeAbove(y.b, n) &&
        HostsCode(b, JoinConditional(b, t, y, n), g, entry)
    ensures HostsCode(b, t, g, entry) && HostsCode(t.b, y, g, entry) && HostsCode(y.b, n, g, entry)
  {
    hide Hosts, Polite, CodeShaped;
    var j := JoinConditional(b, t, y, n);
    ConditionalPolite(b, t, y, n);
    PartHosted(b, j.b, j.enter, j.exit, Some(j.v), ConditionalPieces(b, t, y, n), ConditionalOwn(t, y, n), g, entry, 0);
    PartHosted(b, j.b, j.enter, j.exit, Some(j.v), ConditionalPieces(b, t, y, n), ConditionalOwn(t, y, n), g, entry, 1);
    PartHosted(b, j.b, j.enter, j.exit, Some(j.v), ConditionalPieces(b, t, y, n), ConditionalOwn(t, y, n), g, entry, 2);
  }
}
