/**
 Longest-prefix matching, as done by both route tables (`match_route` in
 `src/proxy/mod.rs` and `src/wasm/mod.rs`).
 */
module Routing {
  import opened Results

  datatype Route<T> = Route(prefix: string, target: T)

  function Longer<T>(best: Option<Route<T>>, next: Route<T>): Option<Route<T>> {
    if best.None? || |best.value.prefix| <= |next.prefix| then Some(next) else best
  }

  /** The routes whose prefix matches, and of these the last one of maximal length. */
  function MatchRoute<T>(routes: seq<Route<T>>, path: string): Option<Route<T>> {
    if routes == [] then None
    else
      var best, next := MatchRoute(routes[..|routes| - 1], path), routes[|routes| - 1];
      if next.prefix <= path then Longer(best, next) else best
  }

  /** Route `i` matches and no other matching route is longer, or as long and later. */
  ghost predicate BestAt<T>(routes: seq<Route<T>>, path: string, i: nat) {
    && i < |routes| && routes[i].prefix <= path
    && (forall j | 0 <= j < |routes| && routes[j].prefix <= path :: |routes[j].prefix| <= |routes[i].prefix|)
    && (forall j | i < j < |routes| && routes[j].prefix <= path :: |routes[j].prefix| < |routes[i].prefix|)
  }

  lemma {:induction false} MatchIsBest<T>(routes: seq<Route<T>>, path: string) returns (i: nat)
    ensures match MatchRoute(routes, path)
            case None => forall j | 0 <= j < |routes| :: !(routes[j].prefix <= path)
            case Some(r) => BestAt(routes, path, i) && routes[i] == r
  {
    i := 0;
    if routes != [] {
      var m := |routes| - 1;
      var init := routes[..m];
      var k := MatchIsBest(init, path);
      var best := MatchRoute(init, path);
      var kept := best.Some? && !(routes[m].prefix <= path && |best.value.prefix| <= |routes[m].prefix|);
      i := if MatchRoute(routes, path) == best && kept then k else m;
      assert forall j | 0 <= j < m :: init[j] == routes[j];
    }
  }

  /** Matching prefixes of one path and one length are the same string. */
  lemma SamePrefix(p: string, q: string, path: string)
    requires p <= path && q <= path && |p| == |q|
    ensures p == q
  {
    assert p == path[..|p|];
    assert q == path[..|q|];
  }

  ghost predicate PrefixDetermines<T>(routes: seq<Route<T>>) {
    forall i, j | 0 <= i < |routes| && 0 <= j < |routes| && routes[i].prefix == routes[j].prefix ::
      routes[i] == routes[j]
  }

  ghost predicate SameMatches<T(!new)>(routes: seq<Route<T>>, other: seq<Route<T>>) {
    forall path :: MatchRoute(other, path) == MatchRoute(routes, path)
  }

  ghost predicate OrderIrrelevant<T(!new)>(routes: seq<Route<T>>) {
    forall other | multiset(other) == multiset(routes) :: SameMatches(routes, other)
  }

  /**
   The order of the table does not affect any request exactly when routes with
   equal prefixes are equal routes; in particular when prefixes are distinct.
   */
  lemma OrderIrrelevantIff<T(!new)>(routes: seq<Route<T>>)
    ensures OrderIrrelevant(routes) <==> PrefixDetermines(routes)
  {
    if PrefixDetermines(routes) {
      forall other | multiset(other) == multiset(routes) ensures SameMatches(routes, other) {
        forall path ensures MatchRoute(other, path) == MatchRoute(routes, path) {
          SameTableSameMatch(routes, other, path);
        }
      }
    } else {
      var i, j :| 0 <= i < |routes| && 0 <= j < |routes| && routes[i].prefix == routes[j].prefix
        && routes[i] != routes[j];
      var path := routes[i].prefix;
      var withI, withJ := MoveLast(routes, i), MoveLast(routes, j);
      ExactPrefixWins(withI, path);
      ExactPrefixWins(withJ, path);
      assert MatchRoute(withI, path) != MatchRoute(withJ, path);
      assert !(SameMatches(routes, withI) && SameMatches(routes, withJ));
    }
  }

  ghost function MoveLast<T>(routes: seq<Route<T>>, i: nat): (moved: seq<Route<T>>)
    requires i < |routes|
    ensures multiset(moved) == multiset(routes)
    ensures moved != [] && moved[|moved| - 1] == routes[i]
  {
    assert routes == routes[..i] + [routes[i]] + routes[i + 1..];
    routes[..i] + routes[i + 1..] + [routes[i]]
  }

  lemma ExactPrefixWins<T>(routes: seq<Route<T>>, path: string)
    requires routes != [] && routes[|routes| - 1].prefix == path
    ensures MatchRoute(routes, path) == Some(routes[|routes| - 1])
  {
    var i := MatchIsBest(routes[..|routes| - 1], path);
  }

  /** Tables with the same routes, whatever their order and repetitions, give the same matches. */
  lemma SameRoutesSameMatch<T>(routes: seq<Route<T>>, other: seq<Route<T>>, path: string)
    requires PrefixDetermines(routes)
    requires (forall r | r in routes :: r in other) && (forall r | r in other :: r in routes)
    ensures MatchRoute(other, path) == MatchRoute(routes, path)
  {
    hide MatchRoute;
    var i := MatchIsBest(routes, path);
    var j := MatchIsBest(other, path);
    if MatchRoute(routes, path).Some? {
      var r := routes[i];
      assert r in other;
      if MatchRoute(other, path).Some? {
        var q := other[j];
        assert q in routes;
        assert |r.prefix| == |q.prefix|;
        SamePrefix(r.prefix, q.prefix, path);
      }
    } else {
      forall q | q in other ensures !(q.prefix <= path) {
        assert q in routes;
      }
    }
  }

  lemma SameTableSameMatch<T>(routes: seq<Route<T>>, other: seq<Route<T>>, path: string)
    requires PrefixDetermines(routes) && multiset(other) == multiset(routes)
    ensures MatchRoute(other, path) == MatchRoute(routes, path)
  {
    SameElements(routes, other);
    SameElements(other, routes);
    SameRoutesSameMatch(routes, other, path);
  }

  lemma SameElements<T>(a: seq<T>, b: seq<T>)
    requires multiset(a) == multiset(b)
    ensures forall x | x in a :: x in b
  {
    forall x | x in a ensures x in b {
      assert x in multiset(a);
    }
  }

  /** With equal prefixes and different targets, the later route takes the path. */
  lemma LaterDuplicateWins<T>(first: Route<T>, second: Route<T>)
    requires first.prefix == second.prefix && first != second
    ensures MatchRoute([first, second], first.prefix) == Some(second)
    ensures MatchRoute([second, first], first.prefix) == Some(first)
  {
    ExactPrefixWins([first, second], first.prefix);
    ExactPrefixWins([second, first], first.prefix);
  }

  // ---------------------------------------------------------------------
  // Building the WebAssembly table
  // ---------------------------------------------------------------------

  function Loaded<M>(routes: seq<(string, string)>, modules: map<string, M>): seq<Route<M>> {
    if routes == [] then []
    else
      var init, (prefix, file) := Loaded(routes[..|routes| - 1], modules), routes[|routes| - 1];
      if file in modules then init + [Route(prefix, modules[file])] else init
  }

  /** `WasmTable::from_config`: routes whose module file does not load are skipped. */
  method BuildWasmTable<M>(routes: seq<(string, string)>, modules: map<string, M>) returns (table: seq<Route<M>>)
    ensures table == Loaded(routes, modules)
  {
    table := [];
    for i := 0 to |routes|
      invariant table == Loaded(routes[..i], modules)
    {
      var (prefix, file) := routes[i];
      assert routes[..i + 1][..i] == routes[..i];
      if file in modules {
        table := table + [Route(prefix, modules[file])];
      }
    }
    assert routes[..|routes|] == routes;
  }

  /** A module that does not load takes its path away from no other route. */
  lemma {:induction false} LoadedMatch<M>(routes: seq<(string, string)>, modules: map<string, M>, path: string)
    ensures match MatchRoute(Loaded(routes, modules), path)
            case None => forall r | r in routes && r.1 in modules :: !(r.0 <= path)
            case Some(best) =>
              && (exists r :: r in routes && r.1 in modules && best == Route(r.0, modules[r.1]))
              && best.prefix <= path
              && forall r | r in routes && r.1 in modules && r.0 <= path :: |r.0| <= |best.prefix|
  {
    if routes == [] {
    } else {
      var m := |routes| - 1;
      LoadedMatch(routes[..m], modules, path);
      var last := routes[m];
      assert routes == routes[..m] + [last];
      assert forall r :: r in routes <==> r in routes[..m] || r == last;
      if last.1 in modules {
        var table := Loaded(routes, modules);
        assert table[..|table| - 1] == Loaded(routes[..m], modules);
      }
    }
  }
}
