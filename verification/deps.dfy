/** The linker's dependency walk: from the modules given, through the system libraries
    they import, to a table that lacks nothing that can be had.
  */
module Deps {

  type Name = string

  /** A path with a separator names a user module, any other a system library; a
      source need not be a string at all. */
  datatype Import = System(name: Name) | User(name: Name) | NotText

  /** `placed`: the path of the module has a separator. */
  datatype Module = Module(name: Name, placed: bool, imports: seq<Import>)

  /** What the callback has under a name: a source that compiles, or one that does not. */
  datatype Library = Compiles(m: Module) | Broken

  type Libraries = libs: map<Name, Library> | forall n :: n in libs && libs[n].Compiles? ==> libs[n].m.name == n
    witness map[]

  predicate Loadable(libs: Libraries, n: Name) { n in libs && libs[n].Compiles? }

  function Names(ms: seq<Module>): set<Name> {
    if ms == [] then {} else Names(ms[1..]) + {ms[0].name}
  }

  lemma {:induction false} NamesAre(ms: seq<Module>, n: Name)
    ensures n in Names(ms) <==> exists i :: 0 <= i < |ms| && ms[i].name == n
  {
    if ms != [] {
      NamesAre(ms[1..], n);
      if n in Names(ms[1..]) {
        var i :| 0 <= i < |ms| - 1 && ms[1..][i].name == n;
        assert ms[i+1].name == n;
      }
      if i :| 0 <= i < |ms| && ms[i].name == n {
        if i > 0 { assert ms[1..][i-1].name == n; }
      }
    }
  }

  lemma {:induction false} NamesJoin(a: seq<Module>, b: seq<Module>)
    ensures Names(a + b) == Names(a) + Names(b)
  {
    if a == [] {
      assert a + b == b;
    } else {
      assert (a + b)[1..] == a[1..] + b;
      NamesJoin(a[1..], b);
    }
  }

  lemma OneName(m: Module)
    ensures Names([m]) == {m.name}
  {
    assert [m][1..] == [];
  }

  /** The list as it is taken from, back first. */
  function Reversed(ms: seq<Module>): (r: seq<Module>)
    ensures |r| == |ms| && forall i :: 0 <= i < |r| ==> r[i] == ms[|ms|-1-i]
  {
    if ms == [] then [] else Reversed(ms[1..]) + [ms[0]]
  }

  // ----- the order in which modules are walked -----

  /** Import `j` of module `i` comes before import `l` of module `k`. */
  predicate Earlier(i: int, j: int, k: int, l: int) { i < k || (i == k && j < l) }

  /** Import `j` of module `i` asks for the system library `n`. */
  predicate Asks(order: seq<Module>, i: int, j: int, n: Name) {
    0 <= i < |order| && 0 <= j < |order[i].imports| && order[i].imports[j] == System(n)
  }

  ghost predicate AskedBefore(order: seq<Module>, n: Name, k: int, l: int) {
    exists i, j :: Asks(order, i, j, n) && Earlier(i, j, k, l)
  }

  ghost predicate Distinct(ms: seq<Module>) { forall i, j :: 0 <= i < j < |ms| ==> ms[i].name != ms[j].name }

  /** The modules given, the last one first, and behind them the libraries asked for
      before import `l` of module `k`, in the order in which they were first asked for. */
  ghost predicate ListedUpTo(start: seq<Module>, libs: Libraries, order: seq<Module>, k: int, l: int) {
    && Begins(start, order) && Distinct(order)
    && LibrariesOnly(start, libs, order, k, l)
    && AllListed(libs, order, k, l)
    && FirstAskedFirst(start, order, k, l)
  }

  ghost predicate Begins(start: seq<Module>, order: seq<Module>) {
    |start| <= |order| && order[..|start|] == Reversed(start)
  }

  /** Behind the modules given, every module is a library that an earlier module asks for. */
  ghost predicate LibrariesOnly(start: seq<Module>, libs: Libraries, order: seq<Module>, k: int, l: int) {
    forall a :: |start| <= a < |order| ==>
      && Loadable(libs, order[a].name) && libs[order[a].name].m == order[a]
      && AskedBy(order, a, k, l)
  }

  ghost predicate AskedBy(order: seq<Module>, a: int, k: int, l: int)
    requires 0 <= a < |order|
  {
    exists i, j :: Asks(order, i, j, order[a].name) && Earlier(i, j, k, l) && i < a
  }

  ghost predicate AllListed(libs: Libraries, order: seq<Module>, k: int, l: int) {
    forall i, j, n :: Asks(order, i, j, n) && Earlier(i, j, k, l) && Loadable(libs, n) ==> n in Names(order)
  }

  ghost predicate FirstAskedFirst(start: seq<Module>, order: seq<Module>, k: int, l: int) {
    forall a, b, i, j :: |start| <= a < b < |order| && Asks(order, i, j, order[b].name) && Earlier(i, j, k, l) ==>
      AskedBefore(order, order[a].name, i, j)
  }

  /** The whole order. */
  ghost predicate Listing(start: seq<Module>, libs: Libraries, order: seq<Module>) {
    ListedUpTo(start, libs, order, |order|, 0)
  }

  // ----- when the walk succeeds -----

  /** The import is of a module given, or of a library asked for earlier; a system
      library may be missing, but what there is compiles. */
  ghost predicate Had(start: seq<Module>, libs: Libraries, order: seq<Module>, i: int, j: int)
    requires 0 <= i < |order| && 0 <= j < |order[i].imports|
  {
    match order[i].imports[j]
    case System(n) => n in Names(start) || n !in libs || libs[n].Compiles?
    case User(n) => n in Names(start) || (Loadable(libs, n) && AskedBefore(order, n, i, j))
    case NotText => false
  }

  ghost predicate Walkable(start: seq<Module>, libs: Libraries, order: seq<Module>) {
    forall i :: 0 <= i < |order| ==> WalkableUpTo(start, libs, order, i, |order[i].imports|)
  }

  ghost predicate WalkableUpTo(start: seq<Module>, libs: Libraries, order: seq<Module>, i: int, l: int)
    requires 0 <= i < |order| && l <= |order[i].imports|
  {
    order[i].placed && forall j :: 0 <= j < l ==> Had(start, libs, order, i, j)
  }

  // ----- one import -----

  /** The order after import `l` of module `k`. */
  function Discover(libs: Libraries, order: seq<Module>, imp: Import): seq<Module> {
    if imp.System? && Loadable(libs, imp.name) && imp.name !in Names(order) then order + [libs[imp.name].m] else order
  }

  lemma ImportListed(start: seq<Module>, libs: Libraries, order: seq<Module>, k: nat, l: nat)
    requires ListedUpTo(start, libs, order, k, l) && k < |order| && l < |order[k].imports|
    ensures ListedUpTo(start, libs, Discover(libs, order, order[k].imports[l]), k, l + 1)
  {
    hide *;
    var imp := order[k].imports[l];
    ListedParts(start, libs, order, k, l);
    DiscoverIs(libs, order, imp);
    if Discover(libs, order, imp) == order {
      SamePlaces(start, libs, order, k, l);
    } else {
      NewPlaces(start, libs, order, k, l);
    }
  }

  lemma ListedParts(start: seq<Module>, libs: Libraries, order: seq<Module>, k: int, l: int)
    ensures ListedUpTo(start, libs, order, k, l) <==>
      (Begins(start, order) && Distinct(order) && LibrariesOnly(start, libs, order, k, l) &&
          AllListed(libs, order, k, l) && FirstAskedFirst(start, order, k, l))
  {
  }

  lemma DiscoverIs(libs: Libraries, order: seq<Module>, imp: Import)
    ensures Discover(libs, order, imp) == order ==> imp.System? && Loadable(libs, imp.name) ==> imp.name in Names(order)
    ensures Discover(libs, order, imp) != order ==>
      imp.System? && Loadable(libs, imp.name) && imp.name !in Names(order) &&
          Discover(libs, order, imp) == order + [libs[imp.name].m]
  {
    assert |order + [Module("", true, [])]| == |order| + 1;
  }

  /** No library was found. */
  lemma SamePlaces(start: seq<Module>, libs: Libraries, order: seq<Module>, k: nat, l: nat)
    requires ListedUpTo(start, libs, order, k, l) && k < |order| && l < |order[k].imports|
    requires order[k].imports[l].System? && Loadable(libs, order[k].imports[l].name) ==>
        order[k].imports[l].name in Names(order)
    ensures ListedUpTo(start, libs, order, k, l + 1)
  {
    hide Begins, Names, Reversed;
    var next := l + 1;
    forall a | |start| <= a < |order| ensures AskedBy(order, a, k, next) {
      var i, j :| Asks(order, i, j, order[a].name) && Earlier(i, j, k, l) && i < a;
      assert Earlier(i, j, k, l + 1);
    }
    forall a, b, i, j | |start| <= a < b < |order| && Asks(order, i, j, order[b].name) && Earlier(i, j, k, l + 1)
      ensures AskedBefore(order, order[a].name, i, j)
    {
      if !Earlier(i, j, k, l) { AskedHere(order, a, k, l); }
    }
  }

  lemma AskedHere(order: seq<Module>, a: nat, k: int, l: int)
    requires a < |order| && AskedBy(order, a, k, l)
    ensures AskedBefore(order, order[a].name, k, l)
  {
  }

  lemma AsksMore(order: seq<Module>, m: Module, i: int, j: int, n: Name)
    requires i < |order|
    ensures Asks(order + [m], i, j, n) <==> Asks(order, i, j, n)
  {
  }

  lemma AskedMore(order: seq<Module>, m: Module, n: Name, k: int, l: int)
    requires k < |order|
    ensures AskedBefore(order + [m], n, k, l) <==> AskedBefore(order, n, k, l)
  {
    forall i, j | i <= k ensures Asks(order + [m], i, j, n) <==> Asks(order, i, j, n) { AsksMore(order, m, i, j, n); }
  }

  lemma AskedByMore(order: seq<Module>, m: Module, a: nat, k: int, l: int)
    requires a < |order| && k < |order| && AskedBy(order, a, k, l)
    ensures AskedBy(order + [m], a, k, l + 1)
  {
    var i, j :| Asks(order, i, j, order[a].name) && Earlier(i, j, k, l) && i < a;
    AsksMore(order, m, i, j, order[a].name);
    assert (order + [m])[a] == order[a] && Earlier(i, j, k, l + 1);
  }

  lemma BeginsMore(start: seq<Module>, order: seq<Module>, m: Module)
    requires Begins(start, order)
    ensures Begins(start, order + [m])
  {
    assert (order + [m])[..|start|] == order[..|start|];
  }

  lemma DistinctMore(order: seq<Module>, m: Module)
    requires Distinct(order) && m.name !in Names(order)
    ensures Distinct(order + [m])
  {
    NamesAre(order, m.name);
  }

  /** A library was found, and is put behind the others. */
  lemma NewPlaces(start: seq<Module>, libs: Libraries, order: seq<Module>, k: nat, l: nat)
    requires ListedUpTo(start, libs, order, k, l) && k < |order| && l < |order[k].imports|
    requires order[k].imports[l].System? && Loadable(libs, order[k].imports[l].name) &&
        order[k].imports[l].name !in Names(order)
    ensures ListedUpTo(start, libs, order + [libs[order[k].imports[l].name].m], k, l + 1)
  {
    hide *;
    var n := order[k].imports[l].name;
    LibraryNamed(libs, n);
    var m := libs[n].m;
    ListedParts(start, libs, order, k, l);
    ListedParts(start, libs, order + [m], k, l + 1);
    BeginsMore(start, order, m);
    DistinctMore(order, m);
    NewLibrary(start, libs, order, k, l);
    NewListed(start, libs, order, k, l);
    NewLast(start, libs, order, k, l);
  }

  lemma LibraryNamed(libs: Libraries, n: Name)
    requires Loadable(libs, n)
    ensures n in libs && libs[n].Compiles? && libs[n].m.name == n
  {
  }

  lemma NewLibrary(start: seq<Module>, libs: Libraries, order: seq<Module>, k: nat, l: nat)
    requires LibrariesOnly(start, libs, order, k, l) && k < |order| && l < |order[k].imports|
    requires order[k].imports[l].System? && Loadable(libs, order[k].imports[l].name)
    ensures LibrariesOnly(start, libs, order + [libs[order[k].imports[l].name].m], k, l + 1)
  {
    hide AskedBy, Asks;
    var n := order[k].imports[l].name;
    var order' := order + [libs[n].m];
    forall a | |start| <= a < |order'|
      ensures Loadable(libs, order'[a].name) && libs[order'[a].name].m == order'[a] && AskedBy(order', a, k, l + 1)
    {
      if a < |order| {
        AskedByMore(order, libs[n].m, a, k, l);
      } else {
        NewAsked(order', k, l, a);
      }
    }
  }

  lemma NewAsked(order: seq<Module>, k: nat, l: nat, a: nat)
    requires k < a < |order| && l < |order[k].imports| && order[k].imports[l] == System(order[a].name)
    ensures AskedBy(order, a, k, l + 1)
  {
    assert Asks(order, k, l, order[a].name);
  }

  lemma NewListed(start: seq<Module>, libs: Libraries, order: seq<Module>, k: nat, l: nat)
    requires AllListed(libs, order, k, l) && k < |order| && l < |order[k].imports|
    requires order[k].imports[l].System? && Loadable(libs, order[k].imports[l].name)
    ensures AllListed(libs, order + [libs[order[k].imports[l].name].m], k, l + 1)
  {
    hide Names;
    var n := order[k].imports[l].name;
    var order' := order + [libs[n].m];
    NamesJoin(order, [libs[n].m]);
    OneName(libs[n].m);
    forall i, j, x | Asks(order', i, j, x) && Earlier(i, j, k, l + 1) && Loadable(libs, x) ensures x in Names(order') {
      AsksMore(order, libs[n].m, i, j, x);
    }
  }

  lemma NewLast(start: seq<Module>, libs: Libraries, order: seq<Module>, k: nat, l: nat)
    requires ListedUpTo(start, libs, order, k, l) && k < |order| && l < |order[k].imports|
    requires order[k].imports[l].System? && Loadable(libs, order[k].imports[l].name) &&
        order[k].imports[l].name !in Names(order)
    ensures FirstAskedFirst(start, order + [libs[order[k].imports[l].name].m], k, l + 1)
  {
    hide Begins, Distinct, Names, AskedBefore, AskedBy;
    var n := order[k].imports[l].name;
    var m := libs[n].m;
    var order' := order + [m];
    forall a, b, i, j | |start| <= a < b < |order'| && Asks(order', i, j, order'[b].name) && Earlier(i, j, k, l + 1)
      ensures AskedBefore(order', order'[a].name, i, j)
    {
      AsksMore(order, m, i, j, order'[b].name);
      AskedMore(order, m, order'[a].name, i, j);
      assert order'[a] == order[a];
      if Earlier(i, j, k, l) {
        assert b < |order|;
      } else {
        AskedHere(order, a, k, l);
      }
    }
  }

  /** On to the next module. */
  lemma ModuleListed(start: seq<Module>, libs: Libraries, order: seq<Module>, k: nat)
    requires k < |order| && ListedUpTo(start, libs, order, k, |order[k].imports|)
    ensures ListedUpTo(start, libs, order, k + 1, 0)
  {
    hide Begins, Distinct, Names;
    var l := |order[k].imports|;
    var next := k + 1;
    forall a | |start| <= a < |order| ensures AskedBy(order, a, next, 0) {
      var i, j :| Asks(order, i, j, order[a].name) && Earlier(i, j, k, l) && i < a;
      assert Earlier(i, j, k + 1, 0);
    }
    assert forall i, j, n :: Asks(order, i, j, n) && Earlier(i, j, k + 1, 0) ==> Earlier(i, j, k, l);
  }

  lemma NothingListed(start: seq<Module>, libs: Libraries)
    requires Distinct(start)
    ensures ListedUpTo(start, libs, Reversed(start), 0, 0)
  {
    assert Reversed(start)[..|start|] == Reversed(start);
    forall i, j | 0 <= i < j < |start| ensures Reversed(start)[i].name != Reversed(start)[j].name {
      assert start[|start|-1-j].name != start[|start|-1-i].name;
    }
  }

  // ----- the order exists, and there is only one -----

  function Missing(libs: Libraries, order: seq<Module>): nat { |libs.Keys - Names(order)| }

  lemma FewerMissing(libs: Libraries, order: seq<Module>, n: Name)
    requires Loadable(libs, n) && n !in Names(order)
    ensures Missing(libs, order + [libs[n].m]) < Missing(libs, order)
  {
    NamesJoin(order, [libs[n].m]);
    OneName(libs[n].m);
    var a, b := libs.Keys - Names(order + [libs[n].m]), libs.Keys - Names(order);
    assert a == b - {n} && n in b;
  }

  /** What has been listed goes on to a whole order. */
  lemma {:induction false} ListingFrom(start: seq<Module>, libs: Libraries, order: seq<Module>, k: nat, l: nat)
      returns (whole: seq<Module>)
    requires ListedUpTo(start, libs, order, k, l) && k <= |order| && (k < |order| ==> l <= |order[k].imports|) &&
        (k == |order| ==> l == 0)
    ensures Listing(start, libs, whole) && order <= whole
    decreases Missing(libs, order), |order| - k, if k < |order| then |order[k].imports| - l else 0
  {
    hide *;
    if k == |order| {
      whole := order;
      WholeListing(start, libs, order);
    } else if l == |order[k].imports| {
      ModuleListed(start, libs, order, k);
      whole := ListingFrom(start, libs, order, k + 1, 0);
    } else {
      var order' := Discover(libs, order, order[k].imports[l]);
      ImportListed(start, libs, order, k, l);
      DiscoverIs(libs, order, order[k].imports[l]);
      if order' != order { FewerMissing(libs, order, order[k].imports[l].name); }
      whole := ListingFrom(start, libs, order', k, l + 1);
    }
  }

  lemma WholeListing(start: seq<Module>, libs: Libraries, order: seq<Module>)
    ensures Listing(start, libs, order) <==> ListedUpTo(start, libs, order, |order|, 0)
  {
  }

  lemma AsksSame(a: seq<Module>, b: seq<Module>, k: nat, i: int, j: int, n: Name)
    requires k <= |a| && k <= |b| && a[..k] == b[..k] && i < k
    ensures Asks(a, i, j, n) <==> Asks(b, i, j, n)
  {
    if 0 <= i { assert a[..k][i] == a[i] && b[..k][i] == b[i]; }
  }

  /** Each of two libraries would have to be asked for before the other. */
  lemma {:induction false} NoEarliest(start: seq<Module>, libs: Libraries, a: seq<Module>, b: seq<Module>, k: nat,
      x: nat, y: nat, i: nat, j: nat)
    requires Listing(start, libs, a) && Listing(start, libs, b)
    requires |start| <= k < |a| && k < |b| && a[..k] == b[..k] && k < x < |b| && k < y < |a|
    requires b[x].name == a[k].name && a[y].name == b[k].name && i < k && Asks(a, i, j, a[k].name)
    ensures false
    decreases i, j
  {
    hide Begins, Distinct, LibrariesOnly, AllListed, Names;
    AsksSame(a, b, k, i, j, b[x].name);
    assert Earlier(i, j, |b|, 0) && AskedBefore(b, b[k].name, i, j);
    var i1: nat, j1: nat :| Asks(b, i1, j1, b[k].name) && Earlier(i1, j1, i, j);
    AsksSame(a, b, k, i1, j1, a[y].name);
    assert Earlier(i1, j1, |a|, 0) && AskedBefore(a, a[k].name, i1, j1);
    var i2: nat, j2: nat :| Asks(a, i2, j2, a[k].name) && Earlier(i2, j2, i1, j1);
    NoEarliest(start, libs, a, b, k, x, y, i2, j2);
  }

  lemma SameBelow(a: seq<Module>, b: seq<Module>, k: nat)
    requires k <= |a| && k <= |b| && a[..k] == b[..k]
    ensures forall x :: 0 <= x < k ==> a[x] == b[x]
  {
    assert forall x :: 0 <= x < k ==> a[..k][x] == a[x] && b[..k][x] == b[x];
  }

  /** A library listed in one order behind a common part is listed in the other. */
  lemma ListedInOther(start: seq<Module>, libs: Libraries, a: seq<Module>, b: seq<Module>, k: nat)
      returns (x: nat, i: nat, j: nat)
    requires Listing(start, libs, a) && Listing(start, libs, b)
    requires |start| <= k < |a| && k <= |b| && a[..k] == b[..k]
    ensures k <= x < |b| && b[x].name == a[k].name && b[x] == a[k]
    ensures i < k && Asks(a, i, j, a[k].name)
  {
    hide FirstAskedFirst, Begins;
    var n := a[k].name;
    assert AskedBy(a, k, |a|, 0);
    i, j :| Asks(a, i, j, n) && Earlier(i, j, |a|, 0) && i < k;
    AsksSame(a, b, k, i, j, n);
    assert Earlier(i, j, |b|, 0);
    NamesAre(b, n);
    x :| 0 <= x < |b| && b[x].name == n;
    SameBelow(a, b, k);
  }

  lemma {:induction false} OneListing(start: seq<Module>, libs: Libraries, a: seq<Module>, b: seq<Module>, k: nat)
    requires Listing(start, libs, a) && Listing(start, libs, b)
    requires |start| <= k <= |a| && k <= |b| && a[..k] == b[..k]
    ensures a == b
    decreases |a| - k
  {
    hide *;
    if k < |a| {
      var x, i, j := ListedInOther(start, libs, a, b, k);
      var y, _, _ := ListedInOther(start, libs, b, a, k);
      if a[k] != b[k] {
        NoEarliest(start, libs, a, b, k, x, y, i, j);
      } else {
        assert a[..k+1] == a[..k] + [a[k]] && b[..k+1] == b[..k] + [b[k]];
        OneListing(start, libs, a, b, k + 1);
      }
    } else if k < |b| {
      var x, _, _ := ListedInOther(start, libs, b, a, k);
      assert false;
    } else {
      assert a[..k] == a && b[..k] == b;
    }
  }

  /** There is only one order. */
  lemma ListingIsUnique(start: seq<Module>, libs: Libraries, a: seq<Module>, b: seq<Module>)
    requires Listing(start, libs, a) && Listing(start, libs, b)
    ensures a == b
  {
    assert a[..|start|] == b[..|start|];
    OneListing(start, libs, a, b, |start|);
  }

  // ----- what the order holds -----

  /** From a module given, along imports of system libraries that can be loaded. */
  ghost predicate Chain(start: seq<Module>, libs: Libraries, c: seq<Module>) {
    && c != [] && c[0] in start
    && forall i :: 0 < i < |c| ==>
      c[i].name !in Names(start) && Loadable(libs, c[i].name) && c[i] == libs[c[i].name].m &&
          System(c[i].name) in c[i-1].imports
  }

  ghost predicate Reached(start: seq<Module>, libs: Libraries, m: Module) {
    exists c: seq<Module> :: Chain(start, libs, c) && c[|c|-1] == m
  }

  lemma GivenReached(start: seq<Module>, libs: Libraries, m: Module)
    requires m in start
    ensures Reached(start, libs, m)
  {
    assert Chain(start, libs, [m]) && [m][0] == m;
  }

  lemma ReachedNext(start: seq<Module>, libs: Libraries, m: Module, n: Name)
    requires Reached(start, libs, m) && System(n) in m.imports && Loadable(libs, n) && n !in Names(start)
    ensures Reached(start, libs, libs[n].m)
  {
    var c: seq<Module> :| Chain(start, libs, c) && c[|c|-1] == m;
    var c' := c + [libs[n].m];
    assert Chain(start, libs, c') && c'[|c'|-1] == libs[n].m;
  }

  lemma StartListed(start: seq<Module>, order: seq<Module>, n: Name)
    requires Begins(start, order)
    ensures n in Names(start) <==> exists i :: 0 <= i < |start| && order[i].name == n
    ensures n in Names(start) ==> n in Names(order)
  {
    NamesAre(start, n);
    NamesAre(order, n);
    forall i | 0 <= i < |start| ensures order[i] == start[|start|-1-i] {
      assert order[..|start|][i] == Reversed(start)[i];
    }
    if i :| 0 <= i < |start| && start[i].name == n {
      assert order[|start|-1-i].name == n;
    }
  }

  lemma {:induction false} ListedReached(start: seq<Module>, libs: Libraries, order: seq<Module>, a: nat)
    requires Listing(start, libs, order) && a < |order|
    ensures Reached(start, libs, order[a])
    decreases a
  {
    hide Reached, Names, AllListed, FirstAskedFirst;
    if a < |start| {
      assert order[..|start|][a] == Reversed(start)[a];
      GivenReached(start, libs, order[a]);
    } else {
      assert AskedBy(order, a, |order|, 0);
      var i, j :| Asks(order, i, j, order[a].name) && i < a;
      ListedReached(start, libs, order, i);
      StartListed(start, order, order[a].name);
      ReachedNext(start, libs, order[i], order[a].name);
    }
  }

  lemma {:induction false} ChainListed(start: seq<Module>, libs: Libraries, order: seq<Module>, c: seq<Module>)
    requires Listing(start, libs, order) && Chain(start, libs, c)
    ensures c[|c|-1] in order
    decreases |c|
  {
    hide FirstAskedFirst, AskedBy;
    var last := c[|c|-1];
    if |c| == 1 {
      var i :| 0 <= i < |start| && start[i] == last;
      assert order[..|start|][|start|-1-i] == Reversed(start)[|start|-1-i];
    } else {
      var before := c[..|c|-1];
      assert Chain(start, libs, before);
      ChainListed(start, libs, order, before);
      var i :| 0 <= i < |order| && order[i] == c[|c|-2];
      var j :| 0 <= j < |order[i].imports| && order[i].imports[j] == System(last.name);
      assert Asks(order, i, j, last.name) && Earlier(i, j, |order|, 0);
      NamesAre(order, last.name);
      var a :| 0 <= a < |order| && order[a].name == last.name;
      StartListed(start, order, last.name);
    }
  }

  /** The order holds exactly the modules that can be reached. */
  lemma ListingReaches(start: seq<Module>, libs: Libraries, order: seq<Module>)
    requires Listing(start, libs, order)
    ensures forall m :: m in order <==> Reached(start, libs, m)
  {
    hide Listing;
    forall m ensures m in order <==> Reached(start, libs, m) {
      if m in order {
        var a :| 0 <= a < |order| && order[a] == m;
        ListedReached(start, libs, order, a);
      }
      if Reached(start, libs, m) {
        var c: seq<Module> :| Chain(start, libs, c) && c[|c|-1] == m;
        ChainListed(start, libs, order, c);
      }
    }
  }

  /** Nothing that the module imports is missing. */
  ghost predicate Complete(names: set<Name>, libs: Libraries, m: Module) {
    forall j :: 0 <= j < |m.imports| ==>
      match m.imports[j]
      case System(n) => n in names || n !in libs
      case User(n) => n in names
      case NotText => false
  }

  /** A walk that succeeds leaves no import open but system libraries that are not to be had. */
  lemma WalkLacksNothing(start: seq<Module>, libs: Libraries, order: seq<Module>, i: nat)
    requires Listing(start, libs, order) && Walkable(start, libs, order) && i < |order|
    ensures Complete(Names(order), libs, order[i])
  {
    hide Names, Begins, Distinct, LibrariesOnly, FirstAskedFirst;
    forall j | 0 <= j < |order[i].imports|
      ensures match order[i].imports[j]
              case System(n) => n in Names(order) || n !in libs
              case User(n) => n in Names(order)
              case NotText => false
    {
      assert WalkableUpTo(start, libs, order, i, |order[i].imports|);
      assert Had(start, libs, order, i, j);
      match order[i].imports[j]
      case System(n) =>
        StartListed(start, order, n);
        assert Asks(order, i, j, n) && Earlier(i, j, |order|, 0);
      case User(n) =>
        StartListed(start, order, n);
        if n !in Names(start) {
          var k, l :| Asks(order, k, l, n) && Earlier(k, l, i, j);
          assert Earlier(k, l, |order|, 0);
        }
      case NotText =>
    }
  }

  /** The order in which modules are given matters: one that imports a library as a user
      module cannot be walked before the one that asks for it. */
  lemma OrderMatters()
    ensures var x, a, b := Module("x", true, []), Module("a", true, [System("x")]), Module("b", true, [User("x")]);
      var libs: Libraries := map["x" := Compiles(x)];
      && Listing([a, b], libs, [b, a, x]) && !Walkable([a, b], libs, [b, a, x])
      && Listing([b, a], libs, [a, b, x]) && Walkable([b, a], libs, [a, b, x])
  {
    var x, a, b := Module("x", true, []), Module("a", true, [System("x")]), Module("b", true, [User("x")]);
    var libs: Libraries := map["x" := Compiles(x)];
    AskedLast(x, a, b);
    AskedFirst(x, a, b);
  }

  lemma AskedLast(x: Module, a: Module, b: Module)
    requires x == Module("x", true, []) && a == Module("a", true, [System("x")]) && b == Module("b", true, [User("x")])
    ensures Listing([a, b], map["x" := Compiles(x)], [b, a, x]) && !Walkable([a, b], map["x" := Compiles(x)], [b, a, x])
  {
    var libs: Libraries := map["x" := Compiles(x)];
    var order := [b, a, x];
    TwoReversed(a, b);
    assert order[..2] == [b, a];
    TwoNames(a, b, "x");
    NamesAre(order, "x");
    assert order[2].name == "x";
    assert forall i, j, n :: Asks(order, i, j, n) ==> i == 1 && j == 0 && n == "x";
    assert Asks(order, 1, 0, "x") && Earlier(1, 0, 3, 0);
    assert AskedBy(order, 2, 3, 0);
    assert !Had([a, b], libs, order, 0, 0);
    assert !WalkableUpTo([a, b], libs, order, 0, 1);
  }

  lemma AskedFirst(x: Module, a: Module, b: Module)
    requires x == Module("x", true, []) && a == Module("a", true, [System("x")]) && b == Module("b", true, [User("x")])
    ensures Listing([b, a], map["x" := Compiles(x)], [a, b, x]) && Walkable([b, a], map["x" := Compiles(x)], [a, b, x])
  {
    var libs: Libraries := map["x" := Compiles(x)];
    var order := [a, b, x];
    TwoReversed(b, a);
    assert order[..2] == [a, b];
    NamesAre(order, "x");
    assert order[2].name == "x";
    assert forall i, j, n :: Asks(order, i, j, n) ==> i == 0 && j == 0 && n == "x";
    assert Asks(order, 0, 0, "x") && Earlier(0, 0, 3, 0) && Earlier(0, 0, 1, 0);
    assert AskedBy(order, 2, 3, 0);
    assert Had([b, a], libs, order, 0, 0) && Had([b, a], libs, order, 1, 0);
  }

  lemma TwoReversed(a: Module, b: Module)
    ensures Reversed([a, b]) == [b, a]
  {
  }

  lemma TwoNames(a: Module, b: Module, n: Name)
    ensures n in Names([a, b]) <==> n == a.name || n == b.name
  {
    NamesAre([a, b], n);
    if n == a.name { assert [a, b][0].name == n; }
    if n == b.name { assert [a, b][1].name == n; }
  }

  // ----- the imports that are recorded -----

  /** No import before `j` has the name of import `j`. */
  ghost predicate FirstNamed(imports: seq<Import>, j: int) {
    0 <= j < |imports| && !imports[j].NotText? && forall k :: 0 <= k < j && !imports[k].NotText? ==>
        imports[k].name != imports[j].name
  }

  /** Imports are told apart by name alone, and the first of a name stays. */
  ghost predicate Recorded(rec: map<Name, Import>, imports: seq<Import>) {
    && (forall j :: 0 <= j < |imports| ==> !imports[j].NotText? && imports[j].name in rec)
    && (forall n :: n in rec ==> exists j :: FirstNamed(imports, j) && imports[j].name == n && rec[n] == imports[j])
  }

  /** `xjs_dep_module_has_import`, `xjs_dep_module_add_import` */
  function Record(rec: map<Name, Import>, imp: Import): map<Name, Import>
    requires !imp.NotText?
  {
    if imp.name in rec then rec else rec[imp.name := imp]
  }

  lemma RecordMore(rec: map<Name, Import>, imports: seq<Import>, imp: Import)
    requires Recorded(rec, imports) && !imp.NotText?
    ensures Recorded(Record(rec, imp), imports + [imp])
  {
    var more := imports + [imp];
    forall n | n in Record(rec, imp)
        ensures exists j :: FirstNamed(more, j) && more[j].name == n && Record(rec, imp)[n] == more[j] {
      if n in rec {
        var j :| FirstNamed(imports, j) && imports[j].name == n && rec[n] == imports[j];
        assert FirstNamed(more, j);
      } else {
        assert FirstNamed(more, |imports|);
      }
    }
  }

  /** The table keeps every import of a module exactly when no two of them of different
      kinds share a name. */
  lemma AllImportsKept(rec: map<Name, Import>, imports: seq<Import>)
    requires Recorded(rec, imports)
    ensures (forall j :: 0 <= j < |imports| ==> rec[imports[j].name] == imports[j])
       <==> (forall j, k :: 0 <= j < |imports| && 0 <= k < |imports| && imports[j].name == imports[k].name ==>
           imports[j] == imports[k])
  {
  }

  /** A library and a user module of one name: the second import is not recorded. */
  lemma SecondKindIsLost(rec: map<Name, Import>)
    requires Recorded(rec, [System("fs"), User("fs")])
    ensures rec == map["fs" := System("fs")]
  {
    var imports := [System("fs"), User("fs")];
    assert imports[0].name in rec;
    forall n | n in rec ensures n == "fs" && rec[n] == System("fs") {
      var j :| FirstNamed(imports, j) && imports[j].name == n && rec[n] == imports[j];
      assert imports[0].name == "fs";
    }
  }

  // ----- the walk -----

  /** Before import `l` of module `k`, everything has been listed and had so far. */
  ghost predicate Walking(start: seq<Module>, libs: Libraries, order: seq<Module>, k: nat, l: nat) {
    && k <= |order| && ListedUpTo(start, libs, order, k, l)
    && (forall i :: 0 <= i < k ==> WalkableUpTo(start, libs, order, i, |order[i].imports|))
    && (0 < l ==> k < |order| && l <= |order[k].imports| && WalkableUpTo(start, libs, order, k, l))
  }

  lemma AskedPrefix(order: seq<Module>, whole: seq<Module>, n: Name, k: int, l: int)
    requires order <= whole && k < |order|
    ensures AskedBefore(order, n, k, l) <==> AskedBefore(whole, n, k, l)
  {
    forall i, j | Earlier(i, j, k, l) ensures Asks(order, i, j, n) <==> Asks(whole, i, j, n) {
      AsksSame(order, whole, |order|, i, j, n);
    }
  }

  lemma HadPrefix(start: seq<Module>, libs: Libraries, order: seq<Module>, whole: seq<Module>, i: nat, j: nat)
    requires order <= whole && i < |order| && j < |order[i].imports|
    ensures Had(start, libs, order, i, j) <==> Had(start, libs, whole, i, j)
  {
    hide AskedBefore;
    var imp := order[i].imports[j];
    if imp.User? { AskedPrefix(order, whole, imp.name, i, j); }
  }

  lemma WalkablePrefix(start: seq<Module>, libs: Libraries, order: seq<Module>, whole: seq<Module>, i: nat, l: nat)
    requires order <= whole && i < |order| && l <= |order[i].imports|
    ensures WalkableUpTo(start, libs, order, i, l) <==> WalkableUpTo(start, libs, whole, i, l)
  {
    hide Had;
    forall j | 0 <= j < l ensures Had(start, libs, order, i, j) <==> Had(start, libs, whole, i, j) {
      HadPrefix(start, libs, order, whole, i, j);
    }
  }

  /** Whether an import can be had shows in what is loaded or pending. */
  lemma HadIs(start: seq<Module>, libs: Libraries, order: seq<Module>, k: nat, l: nat)
    requires ListedUpTo(start, libs, order, k, l) && k < |order| && l < |order[k].imports|
    ensures Had(start, libs, order, k, l) <==>
      match order[k].imports[l]
      case System(n) => n in Names(order) || n !in libs || libs[n].Compiles?
      case User(n) => n in Names(order)
      case NotText => false
  {
    hide Distinct, FirstAskedFirst, Names;
    var imp := order[k].imports[l];
    if !imp.NotText? {
      var n := imp.name;
      StartListed(start, order, n);
      NamesAre(order, n);
      if n in Names(order) && n !in Names(start) {
        var a :| 0 <= a < |order| && order[a].name == n;
        assert AskedBy(order, a, k, l);
      }
    }
  }

  lemma ImportWalked(start: seq<Module>, libs: Libraries, order: seq<Module>, k: nat, l: nat)
    requires Walking(start, libs, order, k, l) && k < |order| && l < |order[k].imports|
    requires order[k].placed && Had(start, libs, order, k, l)
    ensures Walking(start, libs, Discover(libs, order, order[k].imports[l]), k, l + 1)
  {
    hide ListedUpTo, Had, Names, Loadable;
    var order' := Discover(libs, order, order[k].imports[l]);
    ImportListed(start, libs, order, k, l);
    assert order <= order' && order'[k] == order[k];
    forall i | 0 <= i < k ensures WalkableUpTo(start, libs, order', i, |order'[i].imports|) {
      WalkablePrefix(start, libs, order, order', i, |order[i].imports|);
    }
    assert WalkableUpTo(start, libs, order, k, l + 1);
    WalkablePrefix(start, libs, order, order', k, l + 1);
  }

  lemma ModuleWalked(start: seq<Module>, libs: Libraries, order: seq<Module>, k: nat)
    requires k < |order| && Walking(start, libs, order, k, |order[k].imports|) && order[k].placed
    ensures Walking(start, libs, order, k + 1, 0)
  {
    hide ListedUpTo, Had;
    ModuleListed(start, libs, order, k);
  }

  /** A walk that has to stop cannot be made. */
  lemma StopsHere(start: seq<Module>, libs: Libraries, order: seq<Module>, k: nat, l: nat)
    requires Walking(start, libs, order, k, l) && k < |order|
    requires !order[k].placed || (l < |order[k].imports| && !Had(start, libs, order, k, l))
    requires l <= |order[k].imports|
    ensures CannotWalk(start, libs)
  {
    hide ListedUpTo, Had, Listing;
    var whole := ListingFrom(start, libs, order, k, l);
    assert !WalkableUpTo(start, libs, order, k, if order[k].placed then l + 1 else l);
    WalkablePrefix(start, libs, order, whole, k, if order[k].placed then l + 1 else l);
    assert !WalkableUpTo(start, libs, whole, k, |whole[k].imports|);
  }

  ghost predicate CannotWalk(start: seq<Module>, libs: Libraries) {
    exists order :: Listing(start, libs, order) && !Walkable(start, libs, order)
  }

  // ----- step by step -----

  lemma {:induction false} NamesReversed(ms: seq<Module>)
    ensures Names(Reversed(ms)) == Names(ms)
  {
    if ms != [] {
      NamesReversed(ms[1..]);
      NamesJoin(Reversed(ms[1..]), [ms[0]]);
      OneName(ms[0]);
    }
  }

  /** What is loaded, and behind it what is pending in the order of its turn. */
  function Order(loaded: seq<Module>, pending: seq<Module>): seq<Module> { loaded + Reversed(pending) }

  lemma OrderNames(loaded: seq<Module>, pending: seq<Module>)
    ensures Names(Order(loaded, pending)) == Names(loaded) + Names(pending)
  {
    NamesJoin(loaded, Reversed(pending));
    NamesReversed(pending);
  }

  lemma OrderFront(loaded: seq<Module>, pending: seq<Module>, m: Module)
    ensures Order(loaded, [m] + pending) == Order(loaded, pending) + [m]
  {
    assert ([m] + pending)[1..] == pending;
  }

  lemma OrderTurn(loaded: seq<Module>, pending: seq<Module>)
    requires pending != []
    ensures var m := pending[|pending|-1];
      && |loaded| < |Order(loaded, pending)| && Order(loaded, pending)[|loaded|] == m
      && Order(loaded + [m], pending[..|pending|-1]) == Order(loaded, pending)
  {
    var m := pending[|pending|-1];
    assert Order(loaded + [m], pending[..|pending|-1]) == Order(loaded, pending);
  }

  /** The module at the back of what is pending is in the middle of being walked. */
  ghost predicate Turn(start: seq<Module>, libs: Libraries, loaded: seq<Module>, pending: seq<Module>, m: Module,
      l: nat) {
    && pending != [] && m == pending[|pending|-1] && m.placed && l <= |m.imports|
    && Walking(start, libs, Order(loaded, pending), |loaded|, l)
  }

  /** The import is passed, and the library, if one has to be loaded, is pending. */
  lemma TurnGoesOn(start: seq<Module>, libs: Libraries, loaded: seq<Module>, pending: seq<Module>, m: Module, l: nat)
    requires Turn(start, libs, loaded, pending, m, l) && l < |m.imports| &&
        Had(start, libs, Order(loaded, pending), |loaded|, l)
    ensures var imp := m.imports[l];
      var found := imp.System? && Loadable(libs, imp.name) && imp.name !in Names(loaded) && imp.name !in Names(pending);
      var more := if found then [libs[imp.name].m] + pending else pending;
      && Turn(start, libs, loaded, more, m, l + 1)
      && (found ==> Missing(libs, Order(loaded, more)) < Missing(libs, Order(loaded, pending)))
  {
    hide Walking, Had, Names, Missing, Loadable, Order;
    var order, imp := Order(loaded, pending), m.imports[l];
    OrderTurn(loaded, pending);
    OrderNames(loaded, pending);
    ImportWalked(start, libs, order, |loaded|, l);
    if imp.System? && Loadable(libs, imp.name) && imp.name !in Names(order) {
      LibraryNamed(libs, imp.name);
      OrderFront(loaded, pending, libs[imp.name].m);
      FewerMissing(libs, order, imp.name);
    }
  }

  lemma TurnFacts(start: seq<Module>, libs: Libraries, loaded: seq<Module>, pending: seq<Module>, m: Module, l: nat)
    requires Turn(start, libs, loaded, pending, m, l)
    ensures pending != [] && m == pending[|pending|-1]
    ensures l < |m.imports| ==>
      && |loaded| < |Order(loaded, pending)| && m == Order(loaded, pending)[|loaded|]
      && (Had(start, libs, Order(loaded, pending), |loaded|, l) <==>
           match m.imports[l]
           case System(n) => n in Names(loaded) + Names(pending) || n !in libs || libs[n].Compiles?
           case User(n) => n in Names(loaded) + Names(pending)
           case NotText => false)
  {
    hide Had, Names, Order, ListedUpTo;
    OrderTurn(loaded, pending);
    OrderNames(loaded, pending);
    if l < |m.imports| { HadIs(start, libs, Order(loaded, pending), |loaded|, l); }
  }

  lemma TurnStops(start: seq<Module>, libs: Libraries, loaded: seq<Module>, pending: seq<Module>, m: Module, l: nat)
    requires Turn(start, libs, loaded, pending, m, l) && l < |m.imports|
    requires |loaded| < |Order(loaded, pending)| && m == Order(loaded, pending)[|loaded|]
    requires !Had(start, libs, Order(loaded, pending), |loaded|, l)
    ensures CannotWalk(start, libs)
  {
    hide Had, Names, Order, Walking, CannotWalk;
    StopsHere(start, libs, Order(loaded, pending), |loaded|, l);
  }

  /** `xjs_dependency_walk_item`, for the module at the back of what is pending. */
  method WalkItem(m: Module, loaded: seq<Module>, pending: seq<Module>, libs: Libraries, ghost start: seq<Module>)
    returns (more: seq<Module>, imports: map<Name, Import>, ok: bool)
    requires pending != [] && m == pending[|pending|-1] && Walking(start, libs, Order(loaded, pending), |loaded|, 0)
    ensures !ok ==> CannotWalk(start, libs)
    ensures ok ==> Turn(start, libs, loaded, more, m, |m.imports|)
    ensures ok ==> Recorded(imports, m.imports)
    ensures ok ==> Missing(libs, Order(loaded, more)) < Missing(libs, Order(loaded, pending)) || more == pending
  {
    hide *;
    more, imports, ok := pending, map[], true;
    if !m.placed {
      NotPlaced(start, libs, loaded, pending, m);
      return more, imports, false;
    }
    TurnBegins(start, libs, loaded, pending, m);
    NothingRecorded();
    assert m.imports[..0] == [];
    var i := 0;
    while i < |m.imports|
      invariant 0 <= i <= |m.imports| && Turn(start, libs, loaded, more, m, i)
      invariant Recorded(imports, m.imports[..i])
      invariant Missing(libs, Order(loaded, more)) < Missing(libs, Order(loaded, pending)) || more == pending
    {
      var imp := m.imports[i];
      TurnFacts(start, libs, loaded, more, m, i);
      match imp {
        case System(n) =>
          if n !in Names(loaded) && n !in Names(more) && n in libs && libs[n].Broken? {
            TurnStops(start, libs, loaded, more, m, i);
            return more, imports, false;
          }
          TurnGoesOn(start, libs, loaded, more, m, i);
          LoadableIs(libs, n);
          if n !in Names(loaded) && n !in Names(more) && n in libs { more := [libs[n].m] + more; }
        case User(n) =>
          if n !in Names(loaded) && n !in Names(more) {
            TurnStops(start, libs, loaded, more, m, i);
            return more, imports, false;
          }
          TurnGoesOn(start, libs, loaded, more, m, i);
        case NotText =>
          TurnStops(start, libs, loaded, more, m, i);
          return more, imports, false;
      }
      RecordMore(imports, m.imports[..i], imp);
      assert m.imports[..i+1] == m.imports[..i] + [imp];
      imports := Record(imports, imp);
      i := i + 1;
    }
    assert m.imports[..|m.imports|] == m.imports;
  }

  lemma NothingRecorded()
    ensures Recorded(map[], [])
  {
  }

  lemma LoadableIs(libs: Libraries, n: Name)
    ensures Loadable(libs, n) <==> n in libs && libs[n].Compiles?
  {
  }

  lemma TurnBegins(start: seq<Module>, libs: Libraries, loaded: seq<Module>, pending: seq<Module>, m: Module)
    requires pending != [] && m == pending[|pending|-1] && m.placed &&
        Walking(start, libs, Order(loaded, pending), |loaded|, 0)
    ensures Turn(start, libs, loaded, pending, m, 0)
  {
  }

  lemma NotPlaced(start: seq<Module>, libs: Libraries, loaded: seq<Module>, pending: seq<Module>, m: Module)
    requires pending != [] && m == pending[|pending|-1] && !m.placed &&
        Walking(start, libs, Order(loaded, pending), |loaded|, 0)
    ensures CannotWalk(start, libs)
  {
    hide Walking, CannotWalk, Order;
    OrderTurn(loaded, pending);
    StopsHere(start, libs, Order(loaded, pending), |loaded|, 0);
  }

  /** The module at the back has been walked. */
  lemma TurnEnds(start: seq<Module>, libs: Libraries, loaded: seq<Module>, pending: seq<Module>, m: Module)
    requires Turn(start, libs, loaded, pending, m, |m.imports|)
    ensures pending != [] && m == pending[|pending|-1]
    ensures Order(loaded + [m], pending[..|pending|-1]) == Order(loaded, pending)
    ensures Walking(start, libs, Order(loaded + [m], pending[..|pending|-1]), |loaded + [m]|, 0)
  {
    hide Walking, Order;
    OrderTurn(loaded, pending);
    ModuleWalked(start, libs, Order(loaded, pending), |loaded|);
  }

  /** An entry of the dependency table. */
  datatype Entry = Entry(name: Name, imports: map<Name, Import>)

  ghost predicate TableOf(table: seq<Entry>, loaded: seq<Module>) {
    |table| == |loaded| && forall i :: 0 <= i < |loaded| ==>
      table[i].name == loaded[i].name && Recorded(table[i].imports, loaded[i].imports)
  }

  /** The loop of `xjs_dependency_walk`.  There is one order in which modules come up;
      the walk succeeds exactly when in that order everything can be had, and then the
      modules are loaded in that order. */
  method Walk(start: seq<Module>, libs: Libraries) returns (table: seq<Entry>, loaded: seq<Module>, ok: bool)
    requires Distinct(start)
    ensures exists order :: Listing(start, libs, order)
    ensures forall order :: Listing(start, libs, order) ==> (ok <==> Walkable(start, libs, order))
    ensures ok ==> Listing(start, libs, loaded) && TableOf(table, loaded)
  {
    hide *;
    table, loaded, ok := [], [], true;
    var pending := start;
    WalkBegins(start, libs);
    EmptyTable();
    while pending != []
      invariant Walking(start, libs, Order(loaded, pending), |loaded|, 0) && TableOf(table, loaded)
      decreases Missing(libs, Order(loaded, pending)), |pending|
    {
      var item := pending[|pending|-1];
      var more, imports, walked := WalkItem(item, loaded, pending, libs, start);
      if !walked {
        WalkFailed(start, libs);
        return table, loaded, false;
      }
      TurnEnds(start, libs, loaded, more, item);
      TableMore(table, loaded, item, imports);
      table := table + [Entry(item.name, imports)];
      loaded := loaded + [item];
      pending := more[..|more|-1];
    }
    WalkDone(start, libs, loaded);
  }

  lemma EmptyTable()
    ensures TableOf([], [])
  {
  }

  lemma TableMore(table: seq<Entry>, loaded: seq<Module>, m: Module, imports: map<Name, Import>)
    requires TableOf(table, loaded) && Recorded(imports, m.imports)
    ensures TableOf(table + [Entry(m.name, imports)], loaded + [m])
  {
    hide Recorded;
  }

  lemma WalkBegins(start: seq<Module>, libs: Libraries)
    requires Distinct(start)
    ensures Walking(start, libs, Order([], start), 0, 0)
  {
    hide ListedUpTo;
    NothingListed(start, libs);
    assert [] + Reversed(start) == Reversed(start);
  }

  lemma WalkFailed(start: seq<Module>, libs: Libraries)
    requires CannotWalk(start, libs)
    ensures exists order :: Listing(start, libs, order)
    ensures forall order :: Listing(start, libs, order) ==> !Walkable(start, libs, order)
  {
    hide Listing, Walkable;
    var bad: seq<Module> :| Listing(start, libs, bad) && !Walkable(start, libs, bad);
    forall order | Listing(start, libs, order) ensures !Walkable(start, libs, order) {
      ListingIsUnique(start, libs, order, bad);
    }
  }

  lemma WalkDone(start: seq<Module>, libs: Libraries, loaded: seq<Module>)
    requires Walking(start, libs, Order(loaded, []), |loaded|, 0)
    ensures Listing(start, libs, loaded)
    ensures forall order :: Listing(start, libs, order) ==> Walkable(start, libs, order)
  {
    hide ListedUpTo, WalkableUpTo;
    assert loaded + [] == loaded;
    assert Walkable(start, libs, loaded);
    forall order | Listing(start, libs, order) ensures Walkable(start, libs, order) {
      ListingIsUnique(start, libs, order, loaded);
    }
  }
}
