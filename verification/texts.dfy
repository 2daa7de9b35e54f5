/** C2: the names and strings of a program get data ids, and instructions refer
    to them by id.
  */
module Texts {
  import opened Ir
  import opened Cfg
  import Correspond
  import opened Recode
  import opened Walk

  // ----- data ids -----

  datatype Ids = Ids(symbols: map<Text, nat>, strings: map<Text, nat>)

  /** Ids are equal exactly when kind and text are equal. */
  ghost predicate Distinct(ids: Ids) {
    && (forall a, b :: a in ids.symbols && b in ids.symbols && a != b ==> ids.symbols[a] != ids.symbols[b])
    && (forall a, b :: a in ids.strings && b in ids.strings && a != b ==> ids.strings[a] != ids.strings[b])
    && (forall a, b :: a in ids.symbols && b in ids.strings ==> ids.symbols[a] != ids.strings[b])
  }

  ghost predicate Below(ids: Ids, pool: nat) {
    && (forall a :: a in ids.symbols ==> ids.symbols[a] < pool)
    && (forall a :: a in ids.strings ==> ids.strings[a] < pool)
  }

  function SymbolId(ids: Ids, name: Text): nat { if name in ids.symbols then ids.symbols[name] else 0 }

  function StringId(ids: Ids, text: Text): nat { if text in ids.strings then ids.strings[text] else 0 }

  /** Items with data ids for text. */
  function Interned(ids: Ids, f: seq<Item<Text>>): seq<Item<nat>> {
    Recoded(SymbolIds(ids), StringIds(ids), f)
  }

  function InternedItem(ids: Ids, item: Item<Text>): Item<nat> {
    MapTextItem(SymbolIds(ids), StringIds(ids), item)
  }

  /** Everything an op refers to has an id. */
  predicate OpCollected(ids: Ids, op: Op<Text>) {
    && (NameOf(op).Some? ==> NameOf(op).value in ids.symbols)
    && (StringOf(op).Some? ==> StringOf(op).value in ids.strings)
  }

  predicate ItemCollected(ids: Ids, item: Item<Text>) { item.Do? ==> OpCollected(ids, item.op) }

  ghost predicate Collected(ids: Ids, f: seq<Item<Text>>) {
    forall p :: 0 <= p < |f| ==> ItemCollected(ids, f[p])
  }

  // ----- the data table -----

  datatype Kind = SymbolKind | StringKind

  datatype DataItem = DataItem(id: nat, kind: Kind, text: Text)

  ghost predicate InIds(ids: Ids, item: DataItem) {
    match item.kind
    case SymbolKind => item.text in ids.symbols && ids.symbols[item.text] == item.id
    case StringKind => item.text in ids.strings && ids.strings[item.text] == item.id
  }

  /** The table lists every text that has an id, once. */
  ghost predicate TableOf(ids: Ids, items: seq<DataItem>) {
    && (forall i :: 0 <= i < |items| ==> InIds(ids, items[i]))
    && (forall i, j :: 0 <= i < j < |items| ==> items[i].id != items[j].id)
    && (forall a :: a in ids.symbols ==> DataItem(ids.symbols[a], SymbolKind, a) in items)
    && (forall a :: a in ids.strings ==> DataItem(ids.strings[a], StringKind, a) in items)
  }

  /** Looking an id up in the table. */
  function TextOf(items: seq<DataItem>, id: nat): Text {
    if items == [] then [] else if items[0].id == id then items[0].text else TextOf(items[1..], id)
  }

  function Reader(items: seq<DataItem>): nat -> Text { (id: nat) => TextOf(items, id) }

  /** A runtime that finds texts in the table. */
  function WithTable(items: seq<DataItem>, rt: Runtime<Text>): Runtime<nat> { Resolving(Reader(items), rt) }

  function SymbolIds(ids: Ids): Text -> nat { (name: Text) => SymbolId(ids, name) }

  function StringIds(ids: Ids): Text -> nat { (text: Text) => StringId(ids, text) }

  lemma {:induction false} TextOfFinds(items: seq<DataItem>, i: nat)
    requires i < |items|
    requires forall i, j :: 0 <= i < j < |items| ==> items[i].id != items[j].id
    ensures TextOf(items, items[i].id) == items[i].text
  {
    if i > 0 {
      assert items[0].id != items[i].id;
      TextOfFinds(items[1..], i - 1);
    }
  }

  lemma IdsReadBack(ids: Ids, items: seq<DataItem>, f: seq<Item<Text>>)
    requires TableOf(ids, items) && Collected(ids, f)
    ensures ReadsBack(SymbolIds(ids), StringIds(ids), Reader(items), f)
  {
    forall a | a in ids.symbols ensures TextOf(items, ids.symbols[a]) == a {
      var i :| 0 <= i < |items| && items[i] == DataItem(ids.symbols[a], SymbolKind, a);
      TextOfFinds(items, i);
    }
    forall a | a in ids.strings ensures TextOf(items, ids.strings[a]) == a {
      var i :| 0 <= i < |items| && items[i] == DataItem(ids.strings[a], StringKind, a);
      TextOfFinds(items, i);
    }
    forall p | 0 <= p < |f| && f[p].Do?
      ensures OpReadsBack(SymbolIds(ids), StringIds(ids), Reader(items), f[p].op)
    {
      assert ItemCollected(ids, f[p]);
    }
  }

  /** Interning preserves meaning: with the table at hand, items that refer to
      text by id do what the items that hold the text do. */
  lemma InterningPreservesMeaning(ids: Ids, items: seq<DataItem>, rt: Runtime<Text>, f: seq<Item<Text>>, world: World,
      n: nat)
    requires TableOf(ids, items) && Collected(ids, f)
    ensures Correspond.After(WithTable(items, rt), Interned(ids, f), world, n)
      == Correspond.After(rt, f, world, n)
  {
    IdsReadBack(ids, items, f);
    RecodingPreservesMeaning(SymbolIds(ids), StringIds(ids), Reader(items), rt, f, world, n);
  }

  // ----- the program -----

  datatype Func = Func(params: seq<Text>, g: Graph, entry: nat)

  datatype Exported = Exported(exported: Text, local: Text)

  datatype Imported = Imported(local: Text, imported: Text, source: Text)

  datatype Program = Program(functions: seq<Func>, exports: seq<Exported>, imports: seq<Imported>)

  predicate NamesText(node: Node, name: Text) {
    node.Plain? && node.item.Do? && NameOf(node.item.op) == Some(name)
  }

  predicate Quotes(node: Node, text: Text) {
    node.Plain? && node.item.Do? && StringOf(node.item.op) == Some(text)
  }

  ghost predicate NamedIn(g: Graph, entry: nat, name: Text) {
    exists b: nat, i: nat :: Reaches(g, entry, b) && b < |g| && i < |g[b]| && NamesText(g[b][i], name)
  }

  ghost predicate QuotedIn(g: Graph, entry: nat, text: Text) {
    exists b: nat, i: nat :: Reaches(g, entry, b) && b < |g| && i < |g[b]| && Quotes(g[b][i], text)
  }

  /** A function's parameters and reachable nodes refer to the symbol. */
  ghost predicate FuncNames(f: Func, name: Text) { name in f.params || NamedIn(f.g, f.entry, name) }

  ghost predicate NamedSoFar(p: Program, n: nat, e: nat, m: nat, name: Text)
    requires n <= |p.functions| && e <= |p.exports| && m <= |p.imports|
  {
    || (exists k :: 0 <= k < n && FuncNames(p.functions[k], name))
    || (exists k :: 0 <= k < e && name in [p.exports[k].exported, p.exports[k].local])
    || (exists k :: 0 <= k < m && name in [p.imports[k].imported, p.imports[k].local])
  }

  ghost predicate QuotedSoFar(p: Program, n: nat, m: nat, text: Text)
    requires n <= |p.functions| && m <= |p.imports|
  {
    || (exists k :: 0 <= k < n && QuotedIn(p.functions[k].g, p.functions[k].entry, text))
    || (exists k :: 0 <= k < m && text == p.imports[k].source)
  }

  /** Exactly the texts of the program have ids. */
  ghost predicate IdsOfProgram(p: Program, ids: Ids) {
    && Distinct(ids)
    && (forall name :: name in ids.symbols <==> NamedSoFar(p, |p.functions|, |p.exports|, |p.imports|, name))
    && (forall text :: text in ids.strings <==> QuotedSoFar(p, |p.functions|, |p.imports|, text))
  }

  /** Every parameter has an id, every name that is exported or imported, under both of its
      names, and every module that is imported from. */
  lemma ProgramTextsHaveIds(p: Program, ids: Ids)
    requires IdsOfProgram(p, ids)
    ensures forall k, name :: 0 <= k < |p.functions| && name in p.functions[k].params ==> name in ids.symbols
    ensures forall k :: 0 <= k < |p.exports| ==>
      p.exports[k].exported in ids.symbols && p.exports[k].local in ids.symbols
    ensures forall k :: 0 <= k < |p.imports| ==>
      p.imports[k].local in ids.symbols && p.imports[k].imported in ids.symbols && p.imports[k].source in ids.strings
  {
    forall k, name | 0 <= k < |p.functions| && name in p.functions[k].params ensures name in ids.symbols {
      assert FuncNames(p.functions[k], name);
    }
    forall k | 0 <= k < |p.exports|
      ensures p.exports[k].exported in ids.symbols && p.exports[k].local in ids.symbols
    {
      assert p.exports[k].exported in [p.exports[k].exported, p.exports[k].local];
      assert p.exports[k].local in [p.exports[k].exported, p.exports[k].local];
    }
    forall k | 0 <= k < |p.imports|
      ensures p.imports[k].local in ids.symbols && p.imports[k].imported in ids.symbols
    {
      assert p.imports[k].local in [p.imports[k].imported, p.imports[k].local];
      assert p.imports[k].imported in [p.imports[k].imported, p.imports[k].local];
    }
  }

  // ----- collecting -----

  lemma NewSymbol(ids: Ids, pool: nat, name: Text)
    requires Distinct(ids) && Below(ids, pool) && name !in ids.symbols
    ensures Distinct(ids.(symbols := ids.symbols[name := pool])) &&
        Below(ids.(symbols := ids.symbols[name := pool]), pool + 1)
  {
  }

  lemma NewString(ids: Ids, pool: nat, text: Text)
    requires Distinct(ids) && Below(ids, pool) && text !in ids.strings
    ensures Distinct(ids.(strings := ids.strings[text := pool])) &&
        Below(ids.(strings := ids.strings[text := pool]), pool + 1)
  {
  }

  function Symbols(node: Node): set<Text> {
    if node.Plain? && node.item.Do? && NameOf(node.item.op).Some? then {NameOf(node.item.op).value} else {}
  }

  function Strings(node: Node): set<Text> {
    if node.Plain? && node.item.Do? && StringOf(node.item.op).Some? then {StringOf(node.item.op).value} else {}
  }

  /** A visited node refers to the symbol. */
  ghost predicate NamedBy(g: Graph, visited: set<Ref>, name: Text) {
    exists r :: r in visited && r.NodeRef? && ValidRef(g, r) && name in Symbols(g[r.b][r.i])
  }

  ghost predicate QuotedBy(g: Graph, visited: set<Ref>, text: Text) {
    exists r :: r in visited && r.NodeRef? && ValidRef(g, r) && text in Strings(g[r.b][r.i])
  }

  ghost predicate Gathered(g: Graph, visited: set<Ref>, symbols0: set<Text>, strings0: set<Text>, symbols: set<Text>,
      strings: set<Text>) {
    && (forall name :: name in symbols <==> name in symbols0 || NamedBy(g, visited, name))
    && (forall text :: text in strings <==> text in strings0 || QuotedBy(g, visited, text))
  }

  lemma GatheredGrows(g: Graph, visited: set<Ref>, symbols0: set<Text>, strings0: set<Text>, symbols: set<Text>,
      strings: set<Text>, r: Ref)
    requires ValidRef(g, r) && Gathered(g, visited, symbols0, strings0, symbols, strings)
    ensures Gathered(g, visited + {r}, symbols0, strings0,
      symbols + (if r.NodeRef? then Symbols(g[r.b][r.i]) else {}), strings + if r.NodeRef? then Strings(g[r.b][r.i])
          else {})
  {
    var more := if r.NodeRef? then Symbols(g[r.b][r.i]) else {};
    forall name ensures name in symbols + more <==> name in symbols0 || NamedBy(g, visited + {r}, name) {
      if NamedBy(g, visited, name) {
        var q :| q in visited && q.NodeRef? && ValidRef(g, q) && name in Symbols(g[q.b][q.i]);
        assert q in visited + {r};
      }
    }
    var more' := if r.NodeRef? then Strings(g[r.b][r.i]) else {};
    forall text ensures text in strings + more' <==> text in strings0 || QuotedBy(g, visited + {r}, text) {
      if QuotedBy(g, visited, text) {
        var q :| q in visited && q.NodeRef? && ValidRef(g, q) && text in Strings(g[q.b][q.i]);
        assert q in visited + {r};
      }
    }
  }

  lemma NothingGathered(g: Graph, symbols0: set<Text>, strings0: set<Text>)
    ensures Gathered(g, {}, symbols0, strings0, symbols0, strings0)
  {
  }

  /** The ids after a function's body is walked: those before and its own. */
  ghost predicate WithBody(g: Graph, entry: nat, symbols0: set<Text>, strings0: set<Text>, symbols: set<Text>,
      strings: set<Text>) {
    && (forall name :: name in symbols <==> name in symbols0 || NamedIn(g, entry, name))
    && (forall text :: text in strings <==> text in strings0 || QuotedIn(g, entry, text))
  }

  lemma NamedByAll(g: Graph, entry: nat, visited: set<Ref>, order: seq<nat>, text: Text)
    requires SearchOrder(g, entry, order)
    requires forall r :: r in visited <==> r.b in order && ValidRef(g, r)
    ensures NamedBy(g, visited, text) <==> NamedIn(g, entry, text)
    ensures QuotedBy(g, visited, text) <==> QuotedIn(g, entry, text)
  {
    forall b: nat ensures b in order <==> Reaches(g, entry, b) { SearchOrderReaches(g, entry, order, b); }
    if b: nat, i: nat :| Reaches(g, entry, b) && b < |g| && i < |g[b]| && NamesText(g[b][i], text) {
      assert NodeRef(b, i) in visited;
    }
    if b: nat, i: nat :| Reaches(g, entry, b) && b < |g| && i < |g[b]| && Quotes(g[b][i], text) {
      assert NodeRef(b, i) in visited;
    }
  }

  lemma GatheredAll(g: Graph, entry: nat, visited: set<Ref>, order: seq<nat>,
                    symbols0: set<Text>, strings0: set<Text>, symbols: set<Text>, strings: set<Text>)
    requires SearchOrder(g, entry, order)
    requires forall r :: r in visited <==> r.b in order && ValidRef(g, r)
    requires Gathered(g, visited, symbols0, strings0, symbols, strings)
    ensures WithBody(g, entry, symbols0, strings0, symbols, strings)
  {
    hide NamedBy, QuotedBy, NamedIn, QuotedIn, SearchOrder;
    forall text: Text
      ensures NamedBy(g, visited, text) <==> NamedIn(g, entry, text)
      ensures QuotedBy(g, visited, text) <==> QuotedIn(g, entry, text)
    {
      NamedByAll(g, entry, visited, order, text);
    }
  }

  /** The ids after `n` functions, `e` exports and `m` imports. */
  ghost predicate SoFar(p: Program, n: nat, e: nat, m: nat, symbols: set<Text>, strings: set<Text>)
    requires n <= |p.functions| && e <= |p.exports| && m <= |p.imports|
  {
    && (forall name :: name in symbols <==> NamedSoFar(p, n, e, m, name))
    && (forall text :: text in strings <==> QuotedSoFar(p, n, m, text))
  }

  lemma NextFunction(p: Program, n: nat, symbols: set<Text>, strings: set<Text>, symbols1: set<Text>,
      symbols': set<Text>, strings': set<Text>)
    requires n < |p.functions| && SoFar(p, n, 0, 0, symbols, strings)
    requires forall name :: name in symbols1 <==> name in symbols || name in p.functions[n].params
    requires WithBody(p.functions[n].g, p.functions[n].entry, symbols1, strings, symbols', strings')
    ensures SoFar(p, n + 1, 0, 0, symbols', strings')
  {
    hide NamedIn, QuotedIn;
  }

  lemma NextExport(p: Program, n: nat, e: nat, symbols: set<Text>, strings: set<Text>)
    requires n <= |p.functions| && e < |p.exports| && SoFar(p, n, e, 0, symbols, strings)
    ensures SoFar(p, n, e + 1, 0, symbols + {p.exports[e].exported} + {p.exports[e].local}, strings)
  {
    hide FuncNames, QuotedIn;
  }

  lemma NextImport(p: Program, n: nat, e: nat, m: nat, symbols: set<Text>, strings: set<Text>)
    requires n <= |p.functions| && e <= |p.exports| && m < |p.imports| && SoFar(p, n, e, m, symbols, strings)
    ensures SoFar(p, n, e, m + 1, symbols + {p.imports[m].imported} + {p.imports[m].local},
        strings + {p.imports[m].source})
  {
    hide FuncNames, QuotedIn;
  }

  class Interner {
    var symbols: map<Text, nat>
    var strings: map<Text, nat>
    var pool: nat

    constructor ()
      ensures Valid() && symbols == map[] && strings == map[]
    {
      symbols, strings, pool := map[], map[], 0;
    }

    function Table(): Ids
      reads this
    {
      Ids(symbols, strings)
    }

    ghost predicate Valid()
      reads this
    {
      Distinct(Table()) && Below(Table(), pool)
    }

    method InternSymbol(name: Text)
      requires Valid()
      modifies this
      ensures Valid()
      ensures symbols.Keys == old(symbols).Keys + {name} && strings == old(strings)
    {
      if name !in symbols {
        NewSymbol(Table(), pool, name);
        symbols := symbols[name := pool];
        pool := pool + 1;
      }
    }

    method InternString(text: Text)
      requires Valid()
      modifies this
      ensures Valid()
      ensures strings.Keys == old(strings).Keys + {text} && symbols == old(symbols)
    {
      if text !in strings {
        NewString(Table(), pool, text);
        strings := strings[text := pool];
        pool := pool + 1;
      }
    }

    /** What the walk records at a node. */
    method InternNode(node: Node)
      requires Valid()
      modifies this
      ensures Valid()
      ensures symbols.Keys == old(symbols).Keys + Symbols(node)
      ensures strings.Keys == old(strings).Keys + Strings(node)
    {
      match node {
        case Plain(Do(Load(_, name))) => InternSymbol(name);
        case Plain(Do(Store(name, _))) => InternSymbol(name);
        case Plain(Do(DeclVar(name))) => InternSymbol(name);
        case Plain(Do(LoadString(_, text))) => InternString(text);
        case _ =>
      }
    }

    /** `xjs_c2_collect_data_section_func_body` */
    method CollectBody(g: Graph, entry: nat)
      requires Closed(g) && entry < |g| && Valid()
      modifies this
      ensures Valid()
      ensures WithBody(g, entry, old(symbols).Keys, old(strings).Keys, symbols.Keys, strings.Keys)
    {
      hide *;
      ghost var symbols0, strings0 := symbols.Keys, strings.Keys;
      var visited: set<Ref> := {};
      var stack := [BlockRef(entry)];
      ghost var seen, order := {BlockRef(entry)}, [];
      WalksBegin(g, entry);
      NothingGathered(g, symbols0, strings0);
      while stack != []
        invariant Walks(g, entry, visited, seen, stack, order)
        invariant Valid() && Gathered(g, visited, symbols0, strings0, symbols.Keys, strings.Keys)
        decreases Left(g, visited), |stack|
      {
        var cur := stack[|stack|-1];
        WalksPop(g, entry, visited, seen, stack, order);
        if cur !in visited {
          var pushes := PushesOf(g, cur, true);
          WalksVisit(g, entry, visited, seen, stack, order, pushes);
          InternRef(g, visited, symbols0, strings0, cur);
          stack := stack[..|stack|-1] + pushes;
          visited, seen, order := visited + {cur}, seen + Children(g, cur), Visit(order, cur);
        } else {
          stack := stack[..|stack|-1];
        }
      }
      WalksEnd(g, entry, visited, seen, order);
      GatheredAll(g, entry, visited, order, symbols0, strings0, symbols.Keys, strings.Keys);
    }

    /** What the walk records at a ref. */
    method InternRef(g: Graph, ghost visited: set<Ref>, ghost symbols0: set<Text>, ghost strings0: set<Text>, cur: Ref)
      requires Valid() && ValidRef(g, cur)
      requires Gathered(g, visited, symbols0, strings0, symbols.Keys, strings.Keys)
      modifies this
      ensures Valid() && Gathered(g, visited + {cur}, symbols0, strings0, symbols.Keys, strings.Keys)
    {
      hide Gathered, Distinct, Below, Symbols, Strings;
      GatheredGrows(g, visited, symbols0, strings0, symbols.Keys, strings.Keys, cur);
      if cur.NodeRef? {
        InternNode(g[cur.b][cur.i]);
      } else {
        assert symbols.Keys + {} == symbols.Keys && strings.Keys + {} == strings.Keys;
      }
    }

    method CollectParameters(params: seq<Text>)
      requires Valid()
      modifies this
      ensures Valid() && strings == old(strings)
      ensures forall name :: name in symbols <==> name in old(symbols) || name in params
    {
      var i := 0;
      while i < |params|
        invariant 0 <= i <= |params|
        invariant Valid() && strings == old(strings)
        invariant forall name :: name in symbols <==> name in old(symbols) || name in params[..i]
      {
        InternSymbol(params[i]);
        assert params[..i+1] == params[..i] + [params[i]];
        i := i + 1;
      }
      assert params[..|params|] == params;
    }

    /** `xjs_c2_collect_data_section` */
    method CollectProgram(p: Program)
      requires Valid() && symbols == map[] && strings == map[]
      requires forall k :: 0 <= k < |p.functions| ==>
          Closed(p.functions[k].g) && p.functions[k].entry < |p.functions[k].g|
      modifies this
      ensures Valid() && IdsOfProgram(p, Table())
    {
      CollectFunctions(p);
      CollectExports(p);
      CollectImports(p);
    }

    method CollectFunctions(p: Program)
      requires Valid() && symbols == map[] && strings == map[]
      requires forall k :: 0 <= k < |p.functions| ==>
          Closed(p.functions[k].g) && p.functions[k].entry < |p.functions[k].g|
      modifies this
      ensures Valid() && SoFar(p, |p.functions|, 0, 0, symbols.Keys, strings.Keys)
    {
      var n := 0;
      while n < |p.functions|
        invariant 0 <= n <= |p.functions| && Valid()
        invariant SoFar(p, n, 0, 0, symbols.Keys, strings.Keys)
      {
        hide *;
        ghost var symbols0, strings0 := symbols.Keys, strings.Keys;
        CollectParameters(p.functions[n].params);
        ghost var symbols1 := symbols.Keys;
        CollectBody(p.functions[n].g, p.functions[n].entry);
        NextFunction(p, n, symbols0, strings0, symbols1, symbols.Keys, strings.Keys);
        n := n + 1;
      }
    }

    method CollectExports(p: Program)
      requires Valid() && SoFar(p, |p.functions|, 0, 0, symbols.Keys, strings.Keys)
      modifies this
      ensures Valid() && SoFar(p, |p.functions|, |p.exports|, 0, symbols.Keys, strings.Keys)
    {
      hide *;
      var e := 0;
      while e < |p.exports|
        invariant 0 <= e <= |p.exports| && Valid()
        invariant SoFar(p, |p.functions|, e, 0, symbols.Keys, strings.Keys)
      {
        NextExport(p, |p.functions|, e, symbols.Keys, strings.Keys);
        InternSymbol(p.exports[e].exported);
        InternSymbol(p.exports[e].local);
        e := e + 1;
      }
    }

    method CollectImports(p: Program)
      requires Valid() && SoFar(p, |p.functions|, |p.exports|, 0, symbols.Keys, strings.Keys)
      modifies this
      ensures Valid() && SoFar(p, |p.functions|, |p.exports|, |p.imports|, symbols.Keys, strings.Keys)
    {
      hide *;
      var m := 0;
      while m < |p.imports|
        invariant 0 <= m <= |p.imports| && Valid()
        invariant SoFar(p, |p.functions|, |p.exports|, m, symbols.Keys, strings.Keys)
      {
        NextImport(p, |p.functions|, |p.exports|, m, symbols.Keys, strings.Keys);
        InternSymbol(p.imports[m].imported);
        InternSymbol(p.imports[m].local);
        InternString(p.imports[m].source);
        m := m + 1;
      }
    }

    /** `xjs_c2_write_data_section`: the symbols, then the strings. */
    method WriteTable() returns (items: seq<DataItem>)
      requires Valid()
      ensures TableOf(Table(), items)
    {
      items := [];
      var todo := symbols.Keys;
      while todo != {}
        invariant todo <= symbols.Keys
        invariant Listed(Table(), items, todo, strings.Keys)
      {
        var name :| name in todo;
        ListOne(Table(), items, todo, strings.Keys, DataItem(symbols[name], SymbolKind, name));
        todo := todo - {name};
        items := items + [DataItem(symbols[name], SymbolKind, name)];
      }
      var left := strings.Keys;
      while left != {}
        invariant left <= strings.Keys
        invariant Listed(Table(), items, {}, left)
      {
        var text :| text in left;
        ListOne(Table(), items, {}, left, DataItem(strings[text], StringKind, text));
        left := left - {text};
        items := items + [DataItem(strings[text], StringKind, text)];
      }
    }
  }

  /** All but the remaining symbols and strings are in the list, once. */
  ghost predicate Listed(ids: Ids, items: seq<DataItem>, symbols: set<Text>, strings: set<Text>) {
    && (forall i :: 0 <= i < |items| ==>
        InIds(ids, items[i]) && items[i].text !in Remaining(items[i].kind, symbols, strings))
    && (forall i, j :: 0 <= i < j < |items| ==> items[i].id != items[j].id)
    && (forall a :: a in ids.symbols && a !in symbols ==> DataItem(ids.symbols[a], SymbolKind, a) in items)
    && (forall a :: a in ids.strings && a !in strings ==> DataItem(ids.strings[a], StringKind, a) in items)
  }

  function Remaining(kind: Kind, symbols: set<Text>, strings: set<Text>): set<Text> {
    if kind.SymbolKind? then symbols else strings
  }

  lemma ListOne(ids: Ids, items: seq<DataItem>, symbols: set<Text>, strings: set<Text>, item: DataItem)
    requires Distinct(ids) && Listed(ids, items, symbols, strings)
    requires InIds(ids, item) && item.text in Remaining(item.kind, symbols, strings)
    ensures Listed(ids, items + [item],
      if item.kind.SymbolKind? then symbols - {item.text} else symbols,
      if item.kind.StringKind? then strings - {item.text} else strings)
  {
    forall i | 0 <= i < |items| ensures items[i].id != item.id {
      assert InIds(ids, items[i]);
    }
    assert item in items + [item];
  }

  // ----- code generation finds every id -----

  /** Every text a placed block refers to has an id. */
  lemma NodeIsCollected(p: Program, ids: Ids, k: nat, b: nat, i: nat)
    requires IdsOfProgram(p, ids) && k < |p.functions|
    requires var g := p.functions[k].g; Reaches(g, p.functions[k].entry, b) && b < |g| && i < |g[b]| && g[b][i].Plain?
    ensures ItemCollected(ids, p.functions[k].g[b][i].item)
  {
    var node := p.functions[k].g[b][i];
    if node.item.Do? {
      var name, text := NameOf(node.item.op), StringOf(node.item.op);
      if name.Some? {
        assert NamesText(node, name.value) && NamedIn(p.functions[k].g, p.functions[k].entry, name.value);
        assert FuncNames(p.functions[k], name.value);
        assert NamedSoFar(p, |p.functions|, |p.exports|, |p.imports|, name.value);
      }
      if text.Some? {
        assert Quotes(node, text.value) && QuotedIn(p.functions[k].g, p.functions[k].entry, text.value);
        assert QuotedSoFar(p, |p.functions|, |p.imports|, text.value);
      }
    }
  }
}
