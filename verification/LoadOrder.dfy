/**
 Which route wins must not depend on the order in which the map of settings is
 iterated (`src/config/mod.rs`), neither for proxy routes (`src/proxy/mod.rs`) nor
 for WebAssembly routes (`src/wasm/mod.rs`). When it does not, exactly.
 */
module LoadOrder {
  import opened Results
  import opened Text
  import opened Maps
  import opened Routing
  import opened Configs

  /** The route, if any, that each key of the settings defines. */
  type Defs<T> = map<string, Option<Route<T>>>

  /** The table that one iteration order gives. */
  function Collect<T>(defs: Defs<T>, order: seq<string>): seq<Route<T>>
    requires forall k | k in order :: k in defs
  {
    if order == [] then []
    else
      var init, last := Collect(defs, order[..|order| - 1]), order[|order| - 1];
      match defs[last]
      case None => init
      case Some(r) => init + [r]
  }

  lemma CollectStep<T>(defs: Defs<T>, order: seq<string>)
    requires order != [] && forall k | k in order :: k in defs
    ensures var init, k := order[..|order| - 1], order[|order| - 1];
            Collect(defs, order) == Collect(defs, init) + (if defs[k].Some? then [defs[k].value] else [])
  {
  }

  lemma {:induction false} Collected<T>(defs: Defs<T>, order: seq<string>)
    requires forall k | k in order :: k in defs
    ensures forall k | k in order && defs[k].Some? :: defs[k].value in Collect(defs, order)
    ensures forall r | r in Collect(defs, order) :: exists k :: k in order && defs[k] == Some(r)
  {
    if order == [] {
    } else {
      var init, last := order[..|order| - 1], order[|order| - 1];
      Collected(defs, init);
      CollectStep(defs, order);
      hide Collect;
      assert order == init + [last];
    }
  }

  /** Two keys define routes with the same prefix. */
  predicate SharePrefix<T>(defs: Defs<T>, j: string, k: string) {
    && j in defs && k in defs && defs[j].Some? && defs[k].Some?
    && defs[j].value.prefix == defs[k].value.prefix
  }

  ghost predicate Agree<T>(defs: Defs<T>) {
    forall j, k | SharePrefix(defs, j, k) :: defs[j] == defs[k]
  }

  /** Every iteration order routes every path in the same way. */
  ghost predicate Fixed<T(!new)>(defs: Defs<T>) {
    forall order, other | Enumerates(order, defs) && Enumerates(other, defs) ::
      SameMatches(Collect(defs, order), Collect(defs, other))
  }

  lemma AgreeingRoutes<T>(defs: Defs<T>, order: seq<string>)
    requires Agree(defs) && Enumerates(order, defs)
    ensures PrefixDetermines(Collect(defs, order))
  {
    Collected(defs, order);
    hide Collect;
    var routes := Collect(defs, order);
    forall x, y | 0 <= x < |routes| && 0 <= y < |routes| && routes[x].prefix == routes[y].prefix
      ensures routes[x] == routes[y]
    {
      assert routes[x] in routes && routes[y] in routes;
      var j :| j in order && defs[j] == Some(routes[x]);
      var k :| k in order && defs[k] == Some(routes[y]);
      assert SharePrefix(defs, j, k);
    }
  }

  lemma SameRoutesOut<T>(defs: Defs<T>, order: seq<string>, other: seq<string>)
    requires Enumerates(order, defs) && Enumerates(other, defs)
    ensures forall r | r in Collect(defs, order) :: r in Collect(defs, other)
  {
    Collected(defs, order);
    Collected(defs, other);
  }

  lemma {:induction false} SomeOrder(keys: set<string>) returns (order: seq<string>)
    ensures (forall k :: k in order <==> k in keys)
    ensures forall i, j | 0 <= i < j < |order| :: order[i] != order[j]
  {
    if keys == {} {
      order := [];
    } else {
      var k :| k in keys;
      var rest := SomeOrder(keys - {k});
      order := rest + [k];
    }
  }

  /** Any key may be the last one that the iteration visits. */
  lemma LastKey<T>(defs: Defs<T>, k: string) returns (order: seq<string>)
    requires k in defs
    ensures Enumerates(order, defs) && order != [] && order[|order| - 1] == k
  {
    var rest := SomeOrder(defs.Keys - {k});
    order := rest + [k];
  }

  /** The last key decides the paths that equal its prefix. */
  lemma LastKeyWins<T>(defs: Defs<T>, order: seq<string>)
    requires Enumerates(order, defs) && order != [] && defs[order[|order| - 1]].Some?
    ensures var r := defs[order[|order| - 1]]; MatchRoute(Collect(defs, order), r.value.prefix) == r
  {
    CollectStep(defs, order);
    ExactPrefixWins(Collect(defs, order), defs[order[|order| - 1]].value.prefix);
  }

  /** The order is irrelevant exactly when keys that define routes with one prefix define one route. */
  lemma FixedIffAgree<T(!new)>(defs: Defs<T>)
    ensures Fixed(defs) <==> Agree(defs)
  {
    hide Collect, MatchRoute;
    if Agree(defs) {
      forall order, other | Enumerates(order, defs) && Enumerates(other, defs)
        ensures SameMatches(Collect(defs, order), Collect(defs, other))
      {
        AgreeingRoutes(defs, order);
        SameRoutesOut(defs, order, other);
        SameRoutesOut(defs, other, order);
        forall path ensures MatchRoute(Collect(defs, other), path) == MatchRoute(Collect(defs, order), path) {
          SameRoutesSameMatch(Collect(defs, order), Collect(defs, other), path);
        }
      }
    } else {
      var j, k :| SharePrefix(defs, j, k) && defs[j] != defs[k];
      var order := LastKey(defs, j);
      var other := LastKey(defs, k);
      LastKeyWins(defs, order);
      LastKeyWins(defs, other);
      var path := defs[j].value.prefix;
      assert MatchRoute(Collect(defs, order), path) != MatchRoute(Collect(defs, other), path);
    }
  }

  // ---------------------------------------------------------------------
  // Proxy routes
  // ---------------------------------------------------------------------

  function ProxyDefs(m: Settings): Defs<seq<string>> {
    map k | k in m :: RouteOf(k, m[k])
  }

  lemma {:induction false} ProxyCollected(m: Settings, order: seq<string>)
    requires forall k | k in order :: k in m
    ensures RoutesFrom(m, order) == Collect(ProxyDefs(m), order)
  {
    hide RouteOf;
    if order == [] {
    } else {
      ProxyCollected(m, order[..|order| - 1]);
      CollectStep(ProxyDefs(m), order);
    }
  }

  /** Loading the settings in any order gives the same proxy routing. */
  ghost predicate ProxyRoutingFixed(m: Settings) {
    forall order, other | Enumerates(order, m) && Enumerates(other, m) ::
      SameMatches(RoutesFrom(m, order), RoutesFrom(m, other))
  }

  /** Settings that define proxy routes with the same prefix define the same route. */
  ghost predicate ProxyKeysAgree(m: Settings) {
    forall j, k | j in m && k in m && SharePrefix(ProxyDefs(m), j, k) :: RouteOf(j, m[j]) == RouteOf(k, m[k])
  }

  /** For every file: exactly then the iteration order affects the proxy routing of no request. */
  lemma ProxyOrderIrrelevantIff(m: Settings)
    ensures ProxyRoutingFixed(m) <==> ProxyKeysAgree(m)
  {
    hide RouteOf, RoutesFrom, Collect, SameMatches;
    var defs := ProxyDefs(m);
    FixedIffAgree(defs);
    forall order | Enumerates(order, m) || Enumerates(order, defs)
      ensures Enumerates(order, m) && Enumerates(order, defs) && RoutesFrom(m, order) == Collect(defs, order)
    {
      ProxyCollected(m, order);
    }
    assert ProxyKeysAgree(m) <==> Agree(defs);
  }

  // ---------------------------------------------------------------------
  // WebAssembly routes
  // ---------------------------------------------------------------------

  /** The route of a setting whose module loads. */
  function WasmRouteOf<M>(k: string, v: string, modules: map<string, M>): Option<Route<M>> {
    match StripPrefix(WasmKey(), k)
    case None => None
    case Some(prefix) => if Trim(v) in modules then Some(Route(Trim(prefix), modules[Trim(v)])) else None
  }

  function WasmDefs<M>(m: Settings, modules: map<string, M>): Defs<M> {
    map k | k in m :: WasmRouteOf(k, m[k], modules)
  }

  function WasmTable<M>(m: Settings, order: seq<string>, modules: map<string, M>): seq<Route<M>>
    requires forall k | k in order :: k in m
  {
    Loaded(WasmRoutesFrom(m, order), modules)
  }

  lemma {:induction false} WasmCollected<M>(m: Settings, order: seq<string>, modules: map<string, M>)
    requires forall k | k in order :: k in m
    ensures WasmTable(m, order, modules) == Collect(WasmDefs(m, modules), order)
  {
    hide StripPrefix, Trim;
    if order == [] {
    } else {
      var init, last := order[..|order| - 1], order[|order| - 1];
      WasmCollected(m, init, modules);
      CollectStep(WasmDefs(m, modules), order);
      var routes := WasmRoutesFrom(m, order);
      if StripPrefix(WasmKey(), last).Some? {
        assert routes[..|routes| - 1] == WasmRoutesFrom(m, init);
      }
    }
  }

  /** Loading the settings in any order gives the same WebAssembly routing. */
  ghost predicate WasmRoutingFixed<M(!new)>(m: Settings, modules: map<string, M>) {
    forall order, other | Enumerates(order, m) && Enumerates(other, m) ::
      SameMatches(WasmTable(m, order, modules), WasmTable(m, other, modules))
  }

  /** Settings that define loadable WebAssembly routes with the same prefix name the same module. */
  ghost predicate WasmKeysAgree<M>(m: Settings, modules: map<string, M>) {
    forall j, k | j in m && k in m && SharePrefix(WasmDefs(m, modules), j, k) ::
      modules[Trim(m[j])] == modules[Trim(m[k])]
  }

  /** For every file and all modules: exactly then the iteration order affects no WebAssembly routing. */
  lemma WasmOrderIrrelevantIff<M(!new)>(m: Settings, modules: map<string, M>)
    ensures WasmRoutingFixed(m, modules) <==> WasmKeysAgree(m, modules)
  {
    hide WasmRoutesFrom, Loaded, Collect, SameMatches, WasmTable, StripPrefix, Trim;
    var defs := WasmDefs(m, modules);
    FixedIffAgree(defs);
    forall order | Enumerates(order, m) || Enumerates(order, defs)
      ensures Enumerates(order, m) && Enumerates(order, defs) && WasmTable(m, order, modules) == Collect(defs, order)
    {
      WasmCollected(m, order, modules);
    }
    assert WasmKeysAgree(m, modules) <==> Agree(defs);
  }

  // ---------------------------------------------------------------------
  // Two spellings of one prefix
  // ---------------------------------------------------------------------

  /** The key of a route line with one more space after `proxy_route`. */
  function SpacedKey(r: ProxyRoute): string {
    ProxyKey() + (" " + r.prefix)
  }

  function SpacedLine(r: ProxyRoute): string
    requires r.target != []
  {
    SpacedKey(r) + " = " + Join(r.target, ',')
  }

  lemma RouteFromKey(k: string, rest: string, pieces: seq<string>)
    requires k == ProxyKey() + rest && pieces != []
    requires (forall i | 0 <= i < |pieces| :: ',' !in pieces[i]) && NonEmptyTrimmed(pieces) == pieces
    ensures RouteOf(k, Join(pieces, ',')) == Some(Route(Trim(rest), pieces))
  {
    hide Join, Split, Trim, NonEmptyTrimmed;
    SplitJoin(pieces, ',');
    assert StripPrefix(ProxyKey(), k) == Some(rest);
  }

  /** The same prefix written with one more space is another key of the map. */
  lemma SpacedDefines(r: ProxyRoute)
    requires Printable(r)
    ensures RouteOf(SpacedKey(r), Join(r.target, ',')) == Some(r)
  {
    hide Join, Split, Trim, NonEmptyTrimmed, RouteOf;
    TrimmedPieces(r.target);
    RouteFromKey(SpacedKey(r), " " + r.prefix, r.target);
    assert " " + r.prefix + "" == " " + r.prefix;
    TrimPad(" ", r.prefix, "");
    TrimOfTrimmed(r.prefix);
  }

  lemma SpacedReads(r: ProxyRoute)
    requires Printable(r)
    ensures SettingOf(SpacedLine(r)) == Some((SpacedKey(r), Join(r.target, ','))) && '\n' !in SpacedLine(r)
  {
    JoinedValue(r);
    var k := SpacedKey(r);
    assert k[|k| - 1] == r.prefix[|r.prefix| - 1] && k[0] == 'p';
    assert '=' !in k && '\n' !in k;
    hide Join, SettingOf, Trim, TrimQuotes;
    ReadSettingLine(k, Join(r.target, ','));
  }

  lemma SpacedDiffers(a: ProxyRoute, b: ProxyRoute)
    requires a.prefix == b.prefix
    ensures KeyOf(a) != SpacedKey(b)
  {
    assert |SpacedKey(b)| == |KeyOf(a)| + 1;
  }

  lemma UnlinesTwo(x: string, y: string)
    ensures Unlines([x, y]) == x + "\n" + y + "\n"
  {
    assert [x, y][1..] == [y] && [y][1..] == [];
    assert Unlines([]) == "";
    assert Unlines([y]) == y + "\n" + "";
    assert y + "\n" + "" == y + "\n";
    assert x + "\n" + (y + "\n") == x + "\n" + y + "\n";
  }

  lemma SettingsOfTwo(x: string, y: string, j: string, v: string, k: string, w: string)
    requires SettingOf(x) == Some((j, v)) && SettingOf(y) == Some((k, w)) && '\n' !in x && '\n' !in y
    ensures SettingsOf(Lines(Unlines([x, y]))) == map[j := v, k := w]
  {
    hide SettingOf, Lines, Unlines;
    SettingsOfText([x, y]);
    assert [x, y][..1] == [x] && [x][..0] == [];
    assert SettingsOf([]) == map[];
    assert SettingsOf([x]) == map[j := v];
  }

  /** A file with one prefix in both spellings. */
  function BothSpellings(a: ProxyRoute, b: ProxyRoute): string
    requires a.target != [] && b.target != []
  {
    Unlines([RouteLine(a), SpacedLine(b)])
  }

  /** It loads as two keys. */
  lemma TwoSpellings(a: ProxyRoute, b: ProxyRoute)
    requires Printable(a) && Printable(b)
    ensures SettingsOf(Lines(BothSpellings(a, b)))
         == map[KeyOf(a) := Join(a.target, ','), SpacedKey(b) := Join(b.target, ',')]
  {
    ReadRouteLine(a);
    TextClean(Routed(a));
    SpacedReads(b);
    hide SettingOf, RouteLine, SpacedLine, KeyOf, SpacedKey, Join, Lines, Unlines, SettingsOf;
    SettingsOfTwo(RouteLine(a), SpacedLine(b), KeyOf(a), Join(a.target, ','), SpacedKey(b), Join(b.target, ','));
  }

  lemma TwoRoutes(m: Settings, j: string, k: string, v: string, w: string, a: ProxyRoute, b: ProxyRoute)
    requires j != k && m == map[j := v, k := w] && a.prefix == b.prefix
    requires RouteOf(j, v) == Some(a) && RouteOf(k, w) == Some(b)
    ensures Enumerates([j, k], m) && MatchRoute(RoutesFrom(m, [j, k]), a.prefix) == Some(b)
  {
    hide RouteOf, MatchRoute, RoutesFrom;
    assert [j, k][..1] == [j] && [j][..0] == [];
    NoRoutes(m);
    RoutesStep(m, [j]);
    RoutesStep(m, [j, k]);
    assert RoutesFrom(m, [j, k]) == [a, b];
    ExactPrefixWins([a, b], a.prefix);
  }

  lemma BothOrders(m: Settings, j: string, k: string, v: string, w: string, a: ProxyRoute, b: ProxyRoute)
    requires j != k && m == map[j := v, k := w] && a.prefix == b.prefix
    requires RouteOf(j, v) == Some(a) && RouteOf(k, w) == Some(b)
    ensures Enumerates([j, k], m) && MatchRoute(RoutesFrom(m, [j, k]), a.prefix) == Some(b)
    ensures Enumerates([k, j], m) && MatchRoute(RoutesFrom(m, [k, j]), a.prefix) == Some(a)
  {
    hide RouteOf, MatchRoute, RoutesFrom, Enumerates;
    TwoRoutes(m, j, k, v, w, a, b);
    assert m == map[k := w, j := v];
    TwoRoutes(m, k, j, w, v, b, a);
  }

  lemma NoRoutes(m: Settings)
    ensures RoutesFrom(m, []) == []
  {
  }

  /**
   So a file can define two routes with one prefix, and then the iteration order
   of the map, which the program does not control, decides where requests go.
   */
  lemma IterationOrderMatters(a: ProxyRoute, b: ProxyRoute)
    requires Printable(a) && Printable(b) && a.prefix == b.prefix && a.target != b.target
    ensures var m, j, k := SettingsOf(Lines(BothSpellings(a, b))), KeyOf(a), SpacedKey(b);
            && Enumerates([j, k], m) && MatchRoute(RoutesFrom(m, [j, k]), a.prefix) == Some(b)
            && Enumerates([k, j], m) && MatchRoute(RoutesFrom(m, [k, j]), a.prefix) == Some(a)
  {
    TwoSpellings(a, b);
    SpacedDefines(b);
    ReadRoute(a);
    SpacedDiffers(a, b);
    hide SettingsOf, Lines, BothSpellings, KeyOf, SpacedKey, RouteOf, MatchRoute, RoutesFrom, Join, Enumerates;
    BothOrders(SettingsOf(Lines(BothSpellings(a, b))), KeyOf(a), SpacedKey(b), Join(a.target, ','), Join(b.target, ','),
               a, b);
  }

  lemma ExampleLines(prefix: string, target: string)
    ensures RouteLine(Route(prefix, [target])) == "proxy_route " + prefix + " = " + target
    ensures SpacedLine(Route(prefix, [target])) == "proxy_route  " + prefix + " = " + target
  {
    assert Join([target], ',') == target;
    assert ProxyKey() + (" " + prefix) == "proxy_route  " + prefix;
  }

  lemma PrintableOne(prefix: string, target: string)
    requires prefix != "" && NoSpace(prefix) && '=' !in prefix
    requires target != "" && NoSpace(target) && ',' !in target && target[0] != '"' && target[|target| - 1] != '"'
    ensures Printable(Route(prefix, [target]))
  {
  }

  lemma ExampleRoutes()
    ensures Printable(Route("/x", ["a:1"])) && Printable(Route("/x", ["b:1"]))
  {
    PrintableOne("/x", "a:1");
    PrintableOne("/x", "b:1");
  }

  lemma ExampleText(x: string, y: string)
    requires x == "proxy_route /x = a:1" && y == "proxy_route  /x = b:1"
    ensures x + "\n" + y + "\n" == "proxy_route /x = a:1\nproxy_route  /x = b:1\n"
  {
  }

  /** For example, this file. */
  lemma TwoSpellingsExample()
    ensures BothSpellings(Route("/x", ["a:1"]), Route("/x", ["b:1"]))
         == "proxy_route /x = a:1\nproxy_route  /x = b:1\n"
  {
    ExampleLines("/x", "a:1");
    ExampleLines("/x", "b:1");
    hide RouteLine, SpacedLine, Unlines;
    var x, y := RouteLine(Route("/x", ["a:1"])), SpacedLine(Route("/x", ["b:1"]));
    UnlinesTwo(x, y);
    ExampleText(x, y);
  }
}
