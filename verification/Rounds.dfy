/**
 What happens over a whole run of module Reload, read from its history: which targets
 the health checkers probe, in which order (`spawn_health_checker`), which targets
 requests draw (`pick_upstream`), and what a missing file does to the watcher.
 */
module Rounds {
  import opened Arithmetic
  import opened Results
  import opened Tickets
  import opened Reload

  // ---------------------------------------------------------------------
  // The places of a table
  // ---------------------------------------------------------------------

  /** All targets of a table as pairs of route and target, route by route. */
  ghost function Places(routes: seq<pos>): seq<(nat, nat)> {
    if routes == [] then []
    else Places(routes[..|routes| - 1]) + RoutePlaces(|routes| - 1, routes[|routes| - 1])
  }

  ghost function RoutePlaces(r: nat, n: nat): seq<(nat, nat)> {
    seq(n, i => (r, i))
  }

  /** How many places there are before route `r`. */
  ghost function Before(routes: seq<pos>, r: nat): nat
    requires r <= |routes|
  {
    |Places(routes[..r])|
  }

  lemma BeforeNext(routes: seq<pos>, r: nat)
    requires r < |routes|
    ensures Before(routes, r + 1) == Before(routes, r) + routes[r]
  {
    assert routes[..r + 1][..r] == routes[..r];
  }

  lemma BeforeAll(routes: seq<pos>)
    ensures Before(routes, 0) == 0 && Before(routes, |routes|) == |Places(routes)|
    ensures routes != [] ==> 0 < |Places(routes)|
  {
    assert routes[..|routes|] == routes;
  }

  /** Target `i` of route `r` has this place. */
  lemma {:induction false} PlaceAt(routes: seq<pos>, r: nat, i: nat)
    requires r < |routes| && i < routes[r]
    ensures Before(routes, r) + i < |Places(routes)| && Places(routes)[Before(routes, r) + i] == (r, i)
  {
    var m := |routes| - 1;
    if r == m {
    } else {
      assert routes[..m][..r] == routes[..r];
      PlaceAt(routes[..m], r, i);
    }
  }

  /** Every place is a target of the table. */
  lemma {:induction false} PlaceIsTarget(routes: seq<pos>, p: nat)
    requires p < |Places(routes)|
    ensures var (r, i) := Places(routes)[p]; r < |routes| && i < routes[r] && p == Before(routes, r) + i
  {
    var m := |routes| - 1;
    if p >= |Places(routes[..m])| {
    } else {
      PlaceIsTarget(routes[..m], p);
      var (r, _) := Places(routes)[p];
      assert routes[..m][..r] == routes[..r];
    }
  }

  /** Places are in lexicographic order: the next one is the next target, or the next route's first. */
  lemma PlacesInOrder(routes: seq<pos>, p: nat)
    requires p + 1 < |Places(routes)|
    ensures var (r, i), (r', i') := Places(routes)[p], Places(routes)[p + 1];
            && r < |routes|
            && ((r' == r && i' == i + 1) || (r' == r + 1 && i' == 0 && i + 1 == routes[r]))
  {
    PlaceIsTarget(routes, p);
    var (r, i) := Places(routes)[p];
    if i + 1 < routes[r] {
      PlaceAt(routes, r, i + 1);
    } else {
      BeforeNext(routes, r);
      if r + 1 == |routes| { BeforeAll(routes); }
      PlaceAt(routes, r + 1, 0);
    }
  }

  // ---------------------------------------------------------------------
  // Rounds of a checker
  // ---------------------------------------------------------------------

  /** The places that checker `k` has probed, in order. */
  ghost function ProbedBy(probes: seq<Probe>, k: nat): seq<(nat, nat)> {
    if probes == [] then []
    else
      var last := probes[|probes| - 1];
      ProbedBy(probes[..|probes| - 1], k) + (if last.checker == k then [(last.route, last.target)] else [])
  }

  lemma ProbedMore(probes: seq<Probe>, p: Probe, k: nat)
    ensures ProbedBy(probes + [p], k)
         == ProbedBy(probes, k) + (if p.checker == k then [(p.route, p.target)] else [])
  {
    assert (probes + [p])[..|probes|] == probes;
  }

  lemma {:induction false} ProbedNone(probes: seq<Probe>, k: nat)
    requires forall i | 0 <= i < |probes| :: probes[i].checker < k
    ensures ProbedBy(probes, k) == []
  {
    if probes == [] {
    } else {
      ProbedNone(probes[..|probes| - 1], k);
    }
  }

  /** `done` goes round `places` from the start. */
  ghost predicate GoesRound(done: seq<(nat, nat)>, places: seq<(nat, nat)>) {
    places != [] && forall j | 0 <= j < |done| :: done[j] == places[j % |places|]
  }

  /** Checker `k` has gone round its table, and stands where it goes on. */
  ghost predicate OnRound(s: State, k: nat)
    requires k < |s.checkers|
  {
    var c := s.checkers[k];
    && Placed(s, c)
    && var routes, done := s.gens[c.gen].routes, ProbedBy(s.probes, k);
       && GoesRound(done, Places(routes))
       && |done| % |Places(routes)| == Before(routes, c.route) + c.target
  }

  ghost predicate RoundInv(s: State) {
    forall k | 0 <= k < |s.checkers| :: OnRound(s, k)
  }

  /** The next position of a checker is the next place of its round. */
  lemma AdvanceIsNext(routes: seq<pos>, c: Checker, g: Gen)
    requires Shaped(g) && g.routes == routes && c.route < |routes| && c.target < routes[c.route]
    ensures var c', p, n := Advance(c, g), Before(routes, c.route) + c.target, |Places(routes)|;
            && c'.gen == c.gen && c'.route < |routes| && c'.target < routes[c'.route] && p < n
            && Before(routes, c'.route) + c'.target == if p + 1 < n then p + 1 else 0
  {
    hide Places, Before;
    PlaceAt(routes, c.route, c.target);
    BeforeAll(routes);
    BeforeNext(routes, c.route);
    if c.target + 1 < routes[c.route] {
      PlaceAt(routes, c.route, c.target + 1);
    } else if c.route + 1 < |routes| {
      DivModUnique(c.route + 1, |routes|, 0, c.route + 1);
      PlaceAt(routes, c.route + 1, 0);
    } else {
      DivModUnique(|routes|, |routes|, 1, 0);
    }
  }

  lemma RoundGoesOn(done: seq<(nat, nat)>, places: seq<(nat, nat)>, p: nat)
    requires GoesRound(done, places) && p < |places| && |done| % |places| == p
    ensures GoesRound(done + [places[p]], places)
    ensures (|done| + 1) % |places| == if p + 1 < |places| then p + 1 else 0
  {
    DivStep(|done|, |places|);
  }

  lemma ProbeMoves(s: State, k: nat, ok: bool)
    requires Inv(s) && Enabled(s, ProbeNext(k, ok))
    ensures k < |s.checkers|
    ensures var s', c := Apply(s, ProbeNext(k, ok)), s.checkers[k];
            && c.gen < |s.gens| && Shaped(s.gens[c.gen]) && Placed(s, c) && c.route < |s.gens[c.gen].flags|
            && k < |s'.checkers| && s'.checkers[k] == Advance(c, s.gens[c.gen])
            && s'.probes == s.probes + [Probe(k, c.gen, c.route, c.target, ok)]
            && |s'.gens| == |s.gens| && Kept(s.gens[c.gen], s'.gens[c.gen])
  {
    GensKept(s, ProbeNext(k, ok));
    hide Advance, SetFlag, Shaped;
  }

  lemma RoundProbe(s: State, k: nat, ok: bool)
    requires Inv(s) && RoundInv(s) && Enabled(s, ProbeNext(k, ok))
    ensures OnRound(Apply(s, ProbeNext(k, ok)), k)
  {
    hide Inv, Apply, Enabled, Advance, Places, Before, ProbedBy, GoesRound;
    ProbeMoves(s, k, ok);
    assert OnRound(s, k);
    hide RoundInv;
    var c, s' := s.checkers[k], Apply(s, ProbeNext(k, ok));
    var routes := s.gens[c.gen].routes;
    AdvanceIsNext(routes, c, s.gens[c.gen]);
    PlaceAt(routes, c.route, c.target);
    RoundGoesOn(ProbedBy(s.probes, k), Places(routes), Before(routes, c.route) + c.target);
    ProbedMore(s.probes, Probe(k, c.gen, c.route, c.target, ok), k);
  }

  /** A checker that does not move stays on its round. */
  lemma RoundKept(s: State, s': State, k: nat)
    requires k < |s.checkers| && k < |s'.checkers| && OnRound(s, k) && s'.checkers[k] == s.checkers[k]
    requires ProbedBy(s'.probes, k) == ProbedBy(s.probes, k)
    requires |s.gens| <= |s'.gens| && Kept(s.gens[s.checkers[k].gen], s'.gens[s.checkers[k].gen])
    ensures OnRound(s', k)
  {
  }

  lemma RoundStarts(s: State, k: nat)
    requires k < |s.checkers| && Placed(s, s.checkers[k]) && ProbedBy(s.probes, k) == []
    requires s.checkers[k].route == 0 && s.checkers[k].target == 0
    ensures OnRound(s, k)
  {
    BeforeAll(s.gens[s.checkers[k].gen].routes);
  }

  /** What a step does to the checkers and the probes. */
  lemma CheckersMove(s: State, step: Step)
    requires Inv(s) && Enabled(s, step)
    ensures var s' := Apply(s, step);
            && |s.checkers| <= |s'.checkers|
            && (forall k | 0 <= k < |s.checkers| ::
                  s'.checkers[k] == s.checkers[k] || (step.ProbeNext? && step.k == k))
            && (forall k | |s.checkers| <= k < |s'.checkers| ::
                  s'.checkers[k].route == 0 && s'.checkers[k].target == 0)
            && (if step.ProbeNext? then
                  |s'.checkers| == |s.checkers| && |s'.probes| == |s.probes| + 1
                  && s'.probes[..|s.probes|] == s.probes && s'.probes[|s.probes|].checker == step.k
                else s'.probes == s.probes)
  {
    hide Inv, Build, DrawTicket, AfterLoad, SetFlag, Advance, CanDraw, HasTarget;
  }

  lemma PlacedParts(s: State)
    requires Inv(s)
    ensures forall k | 0 <= k < |s.checkers| :: Placed(s, s.checkers[k])
    ensures forall i | 0 <= i < |s.probes| :: s.probes[i].checker < |s.checkers|
    ensures s.main.Loading? ==> s.gens == []
  {
  }

  lemma RoundStep(s: State, step: Step)
    requires Inv(s) && RoundInv(s) && Enabled(s, step)
    ensures RoundInv(Apply(s, step))
  {
    hide Inv, Apply, Enabled, Kept, OnRound;
    var s' := Apply(s, step);
    PlacedParts(s);
    BootFirst(s, step);
    GensKept(s, step);
    CheckersMove(s, step);
    InvStep(s, step);
    PlacedParts(s');
    if step.ProbeNext? { RoundProbe(s, step.k, step.ok); }
    forall k | 0 <= k < |s'.checkers| ensures OnRound(s', k) {
      if k < |s.checkers| {
        if !(step.ProbeNext? && step.k == k) {
          OthersKept(s, s', k);
          KnownGen(s, k);
          RoundKept(s, s', k);
        }
      } else {
        ProbedNone(s.probes, k);
        RoundStarts(s', k);
      }
    }
  }

  lemma KnownGen(s: State, k: nat)
    requires k < |s.checkers| && OnRound(s, k)
    ensures s.checkers[k].gen < |s.gens|
  {
  }

  lemma OthersKept(s: State, s': State, k: nat)
    requires s'.probes == s.probes ||
      (&& |s'.probes| == |s.probes| + 1 && s'.probes[..|s.probes|] == s.probes
       && s'.probes[|s.probes|].checker != k)
    ensures ProbedBy(s'.probes, k) == ProbedBy(s.probes, k)
  {
  }

  lemma {:induction false} RoundRun(tr: seq<State>, n: nat)
    requires Run(tr) && n < |tr|
    ensures RoundInv(tr[n])
  {
    hide Inv, Enabled, Apply, Next, OnRound;
    if n == 0 {
    } else {
      hide Run;
      RoundRun(tr, n - 1);
      InvRun(tr, n - 1);
      var step := StepOf(tr, n - 1);
      RoundStep(tr[n - 1], step);
    }
  }

  /**
   In every reachable state, the probes that a checker has made go round all the
   targets of its table, route by route and target by target, from the first one on.
   */
  lemma CheckerGoesRound(tr: seq<State>, n: nat, k: nat, j: nat)
    requires Run(tr) && n < |tr| && k < |tr[n].checkers| && j < |ProbedBy(tr[n].probes, k)|
    ensures var s := tr[n];
            && s.checkers[k].gen < |s.gens|
            && var places := Places(s.gens[s.checkers[k].gen].routes);
               places != [] && ProbedBy(s.probes, k)[j] == places[j % |places|]
  {
    RoundRun(tr, n);
    assert OnRound(tr[n], k);
  }

  /** Target `i` of route `r` is the `j`-th place that the checker probed. */
  ghost predicate ProbedAt(probes: seq<Probe>, k: nat, j: int, r: nat, i: nat) {
    0 <= j < |ProbedBy(probes, k)| && ProbedBy(probes, k)[j] == (r, i)
  }

  /**
   Among any N probes in a row of one checker, N being the number of targets of its
   table, every target of every route is probed, exactly once.
   */
  lemma EveryTargetInEveryRound(tr: seq<State>, n: nat, k: nat, from: nat, r: nat, i: nat) returns (j: nat)
    requires Run(tr) && n < |tr| && k < |tr[n].checkers| && tr[n].checkers[k].gen < |tr[n].gens|
    requires var routes := tr[n].gens[tr[n].checkers[k].gen].routes;
             && r < |routes| && i < routes[r]
             && from + |Places(routes)| <= |ProbedBy(tr[n].probes, k)|
    ensures var s := tr[n];
            var size := |Places(s.gens[s.checkers[k].gen].routes)|;
            && from <= j < from + size && ProbedAt(s.probes, k, j, r, i)
            && forall m | from <= m < from + size && ProbedAt(s.probes, k, m, r, i) :: m == j
  {
    RoundRun(tr, n);
    assert OnRound(tr[n], k);
    hide Run, OnRound, Places, ProbedBy;
    var s := tr[n];
    var routes, done := s.gens[s.checkers[k].gen].routes, ProbedBy(s.probes, k);
    var places, p := Places(routes), Before(routes, r) + i;
    PlaceAt(routes, r, i);
    var o := Offset(|places|, from, p);
    j := from + o;
    DivModUnique(o, |places|, 0, o);
    DivModUnique(p, |places|, 0, p);
    OffsetHits(|places|, from, p, o);
    forall m: nat | from <= m < from + |places| && ProbedAt(s.probes, k, m, r, i) ensures m == j {
      PlaceIsTarget(routes, m % |places|);
      DivModUnique(m - from, |places|, 0, m - from);
      OffsetHits(|places|, from, p, m - from);
    }
  }

  // ---------------------------------------------------------------------
  // Tickets of a route
  // ---------------------------------------------------------------------

  /** The targets drawn on route `r` of generation `g`, in ticket order. */
  ghost function DrawnAt(draws: seq<Ticket>, g: nat, r: nat): seq<nat> {
    if draws == [] then []
    else
      var last := draws[|draws| - 1];
      DrawnAt(draws[..|draws| - 1], g, r) + (if last.gen == g && last.route == r then [last.target] else [])
  }

  /** The targets that request `q` has drawn, in order. */
  ghost function DrawnFor(draws: seq<Ticket>, q: nat): seq<nat> {
    if draws == [] then []
    else
      var last := draws[|draws| - 1];
      DrawnFor(draws[..|draws| - 1], q) + (if last.request == q then [last.target] else [])
  }

  lemma DrawnMore(draws: seq<Ticket>, d: Ticket, g: nat, r: nat, q: nat)
    ensures DrawnAt(draws + [d], g, r)
         == DrawnAt(draws, g, r) + (if d.gen == g && d.route == r then [d.target] else [])
    ensures DrawnFor(draws + [d], q) == DrawnFor(draws, q) + (if d.request == q then [d.target] else [])
  {
    assert (draws + [d])[..|draws|] == draws;
  }

  lemma {:induction false} DrawnNothing(draws: seq<Ticket>, g: nat, r: nat, q: nat)
    ensures (forall i | 0 <= i < |draws| :: draws[i].gen < g) ==> DrawnAt(draws, g, r) == []
    ensures (forall i | 0 <= i < |draws| :: draws[i].request < q) ==> DrawnFor(draws, q) == []
  {
    if draws == [] {
    } else {
      DrawnNothing(draws[..|draws| - 1], g, r, q);
    }
  }

  /** Ticket `t` of the route went to the target of its number, and the counter is the next ticket. */
  ghost predicate CounterOk(s: State, g: nat, r: nat)
    requires g < |s.gens| && r < |s.gens[g].counters| && r < |s.gens[g].routes|
  {
    var drawn := DrawnAt(s.draws, g, r);
    && s.gens[g].counters[r] == |drawn| % USIZE
    && forall t | 0 <= t < |drawn| :: drawn[t] == Slot(t, s.gens[g].routes[r])
  }

  ghost predicate CounterInv(s: State) {
    && (forall g, r | 0 <= g < |s.gens| && 0 <= r < |s.gens[g].counters| && r < |s.gens[g].routes| ::
          CounterOk(s, g, r))
    && (forall i | 0 <= i < |s.draws| :: s.draws[i].gen < |s.gens| && s.draws[i].request < |s.requests|)
  }

  /** How many tickets a request has drawn, by how far it is; `n` is the size of its route. */
  ghost predicate TriesOk(r: Request, drawn: seq<nat>, n: nat) {
    match r
    case Arrived => drawn == []
    case GotProxy(_) => drawn == []
    case Probing(_, _, tries) => |drawn| == tries < n
    case Drawn(_, _, tries, i) => |drawn| == tries + 1 <= n && drawn[tries] == i
    case Picked(_, _, i) => 0 < |drawn| <= n && drawn[|drawn| - 1] == i
    case NoUpstream(_, _) => |drawn| == n
    case GotBoth(_, _) => drawn == []
  }

  /** The size of the route that a request matched. */
  ghost function RouteSize(s: State, r: Request): nat {
    if r.Probing? || r.Drawn? || r.Picked? || r.NoUpstream? then
      if r.proxy < |s.gens| && r.route < |s.gens[r.proxy].routes| then s.gens[r.proxy].routes[r.route] else 0
    else 0
  }

  ghost predicate TriesInv(s: State) {
    forall q | 0 <= q < |s.requests| :: TriesOk(s.requests[q], DrawnFor(s.draws, q), RouteSize(s, s.requests[q]))
  }

  lemma RequestParts(s: State)
    requires Inv(s)
    ensures forall q | 0 <= q < |s.requests| :: RequestOk(s, s.requests[q])
    ensures forall g | 0 <= g < |s.gens| :: Shaped(s.gens[g])
    ensures s.main.Loading? ==> s.gens == []
  {
  }

  lemma BootFirst(s: State, step: Step)
    requires Inv(s) && Enabled(s, step)
    ensures step.BootLoad? ==> s.gens == []
  {
    hide Build, DrawTicket, AfterLoad, SetFlag, Advance, CanDraw, HasTarget;
  }

  /** What drawing changes: the counter of one route, and the history. */
  lemma DrawChanges(s: State, q: nat)
    requires Inv(s) && Enabled(s, Draw(q))
    ensures q < |s.requests|
    ensures var s', r := Apply(s, Draw(q)), s.requests[q];
            && r.Probing? && r.proxy < |s.gens| && r.route < |s.gens[r.proxy].counters|
            && r.route < |s.gens[r.proxy].routes|
            && s'.draws == s.draws + [Ticket(q, r.proxy, r.route,
                                             s.gens[r.proxy].counters[r.route] % s.gens[r.proxy].routes[r.route])]
            && |s'.gens| == |s.gens| && |s'.requests| == |s.requests|
            && (forall g | 0 <= g < |s.gens| ::
                  && s'.gens[g].routes == s.gens[g].routes && |s'.gens[g].counters| == |s.gens[g].counters|
                  && forall k | 0 <= k < |s.gens[g].counters| ::
                       s'.gens[g].counters[k] ==
                         if g == r.proxy && k == r.route then Bump(s.gens[g].counters[k]) else s.gens[g].counters[k])
  {
    hide Inv, Build, SetFlag, Advance, AfterLoad, HasTarget;
  }

  lemma CounterDraw(s: State, q: nat)
    requires Inv(s) && CounterInv(s) && Enabled(s, Draw(q))
    ensures CounterInv(Apply(s, Draw(q)))
  {
    hide Inv, Apply, Enabled, DrawnAt, Bump;
    DrawChanges(s, q);
    var r, s' := s.requests[q], Apply(s, Draw(q));
    var d := s'.draws[|s.draws|];
    assert CounterOk(s, r.proxy, r.route);
    BumpTicket(|DrawnAt(s.draws, r.proxy, r.route)|);
    forall g, k | 0 <= g < |s'.gens| && 0 <= k < |s'.gens[g].counters| && k < |s'.gens[g].routes|
      ensures CounterOk(s', g, k)
    {
      DrawnMore(s.draws, d, g, k, q);
      assert CounterOk(s, g, k);
    }
  }

  lemma BumpTicket(k: nat)
    ensures Bump(k % USIZE) == (k + 1) % USIZE
  {
  }

  lemma BuiltCounters(s: State)
    requires s.disk != []
    ensures |Build(s).counters| == |Build(s).routes|
    ensures forall r | 0 <= r < |Build(s).counters| :: Build(s).counters[r] == 0
  {
  }

  /** A flag update touches no counter. */
  lemma CountersKept(s: State, k: nat, ok: bool)
    requires Enabled(s, ProbeNext(k, ok))
    ensures var s' := Apply(s, ProbeNext(k, ok));
            |s'.gens| == |s.gens| && forall g | 0 <= g < |s.gens| ::
              s'.gens[g].counters == s.gens[g].counters && s'.gens[g].routes == s.gens[g].routes
  {
    hide Advance;
  }

  lemma RequestsKept(s: State, step: Step)
    requires Enabled(s, step)
    ensures |s.requests| <= |Apply(s, step).requests| && (!step.Draw? ==> Apply(s, step).draws == s.draws)
  {
    hide Build, DrawTicket, AfterLoad, SetFlag, Advance, CanDraw, HasTarget;
  }

  lemma CounterProbe(s: State, k: nat, ok: bool)
    requires CounterInv(s) && Enabled(s, ProbeNext(k, ok))
    ensures CounterInv(Apply(s, ProbeNext(k, ok)))
  {
    hide Apply, Enabled, DrawnAt;
    CountersKept(s, k, ok);
    RequestsKept(s, ProbeNext(k, ok));
    var s' := Apply(s, ProbeNext(k, ok));
    forall g, r | 0 <= g < |s'.gens| && 0 <= r < |s'.gens[g].counters| && r < |s'.gens[g].routes|
      ensures CounterOk(s', g, r)
    {
      assert CounterOk(s, g, r);
    }
  }

  lemma HasDisk(s: State, step: Step)
    requires Enabled(s, step)
    ensures s.disk != []
  {
  }

  lemma CounterOther(s: State, step: Step)
    requires Inv(s) && CounterInv(s) && Enabled(s, step) && !step.Draw? && !step.ProbeNext?
    ensures CounterInv(Apply(s, step))
  {
    hide Inv, Apply, Enabled, Build, DrawnAt;
    BootFirst(s, step);
    GensKept(s, step);
    RequestsKept(s, step);
    var s' := Apply(s, step);
    HasDisk(s, step);
    BuiltCounters(s);
    forall g, r | 0 <= g < |s'.gens| && 0 <= r < |s'.gens[g].counters| && r < |s'.gens[g].routes|
      ensures CounterOk(s', g, r)
    {
      if g < |s.gens| {
        assert CounterOk(s, g, r);
      } else {
        DrawnNothing(s.draws, g, r, 0);
      }
    }
  }

  lemma CounterStep(s: State, step: Step)
    requires Inv(s) && CounterInv(s) && Enabled(s, step)
    ensures CounterInv(Apply(s, step))
  {
    hide Inv, Apply, Enabled, CounterInv;
    match step
    case Draw(q) => CounterDraw(s, q);
    case ProbeNext(k, ok) => CounterProbe(s, k, ok);
    case _ => CounterOther(s, step);
  }

  /** The request that a step moves, and how. */
  lemma MovedHow(s: State, step: Step, q: nat)
    requires Enabled(s, step) && q < |s.requests| <= |Apply(s, step).requests|
    requires Apply(s, step).requests[q] != s.requests[q]
    ensures var r, r' := s.requests[q], Apply(s, step).requests[q];
            || (r.Arrived? && r' == GotProxy(s.proxyGen) && !step.Draw?)
            || (r.GotProxy? && r' == GotBoth(r.proxy, s.wasmGen) && !step.Draw?)
            || (r.GotProxy? && r'.Probing? && r' == Probing(r.proxy, r'.route, 0) && !step.Draw?
                && r.proxy < |s.gens| && r'.route < |s.gens[r.proxy].routes|)
            || (step == Draw(q) && r.Probing? && r'.Drawn? && r' == Drawn(r.proxy, r.route, r.tries, r'.target)
                && Apply(s, step).draws == s.draws + [Ticket(q, r.proxy, r.route, r'.target)])
            || (r.Drawn? && HasTarget(s.gens, r.proxy, r.route, r.target) && r' == AfterLoad(s.gens, r) && !step.Draw?)
  {
    hide Build, SetFlag, Advance, AfterLoad, HasTarget;
  }

  lemma SizeKept(s: State, step: Step, r: Request)
    requires Inv(s) && Enabled(s, step) && RequestOk(s, r)
    ensures RouteSize(Apply(s, step), r) == RouteSize(s, r)
  {
    hide Inv, Apply, Enabled, Build, SetFlag, DrawTicket;
    BootFirst(s, step);
    GensKept(s, step);
    if !r.Arrived? { assert Kept(s.gens[r.proxy], Apply(s, step).gens[r.proxy]); }
  }

  lemma LoadTries(s: State, r: Request, drawn: seq<nat>)
    requires r.Drawn? && HasTarget(s.gens, r.proxy, r.route, r.target) && Shaped(s.gens[r.proxy])
    requires TriesOk(r, drawn, RouteSize(s, r))
    ensures TriesOk(AfterLoad(s.gens, r), drawn, RouteSize(s, AfterLoad(s.gens, r)))
  {
  }

  /** A request that has not drawn yet goes on without drawing. */
  lemma FreshTries(s: State, r: Request, r': Request, drawn: seq<nat>, n: nat)
    requires TriesOk(r, drawn, n) && (r.Arrived? || r.GotProxy?)
    requires r'.GotProxy? || r'.GotBoth? || (r'.Probing? && r'.tries == 0 && RequestOk(s, r'))
    ensures TriesOk(r', drawn, RouteSize(s, r'))
  {
  }

  lemma DrawTries(r: Request, target: nat, drawn: seq<nat>, n: nat)
    requires r.Probing? && TriesOk(r, drawn, n)
    ensures TriesOk(Drawn(r.proxy, r.route, r.tries, target), drawn + [target], n)
  {
  }

  lemma SizeOfDrawn(s: State, r: Request, target: nat)
    requires r.Probing?
    ensures RouteSize(s, Drawn(r.proxy, r.route, r.tries, target)) == RouteSize(s, r)
  {
  }

  lemma TriesAt(s: State, q: nat)
    requires TriesInv(s) && q < |s.requests|
    ensures TriesOk(s.requests[q], DrawnFor(s.draws, q), RouteSize(s, s.requests[q]))
  {
  }

  lemma TriesMoved(s: State, step: Step, q: nat)
    requires Inv(s) && TriesInv(s) && Enabled(s, step) && q < |s.requests| <= |Apply(s, step).requests|
    requires Apply(s, step).requests[q] != s.requests[q]
    ensures var s' := Apply(s, step); TriesOk(s'.requests[q], DrawnFor(s'.draws, q), RouteSize(s', s'.requests[q]))
  {
    hide Inv, Apply, Enabled, DrawnFor, AfterLoad, RequestOk, HasTarget, TriesOk, RouteSize, TriesInv;
    RequestsKept(s, step);
    TriesAt(s, q);
    MovedHow(s, step, q);
    MovedOk(s, step, q);
    SizeKept(s, step, Apply(s, step).requests[q]);
    var r := s.requests[q];
    if step == Draw(q) {
      DrawMoved(s, step, q);
    } else if r.Drawn? {
      LoadMoved(s, r, DrawnFor(s.draws, q));
    } else {
      FreshTries(s, r, Apply(s, step).requests[q], DrawnFor(s.draws, q), RouteSize(s, r));
    }
  }

  lemma DrawMoved(s: State, step: Step, q: nat)
    requires Enabled(s, step) && step == Draw(q) && q < |s.requests|
    requires TriesOk(s.requests[q], DrawnFor(s.draws, q), RouteSize(s, s.requests[q]))
    ensures var s' := Apply(s, step);
            q < |s'.requests| && TriesOk(s'.requests[q], DrawnFor(s'.draws, q), RouteSize(s, s'.requests[q]))
  {
    RequestsKept(s, step);
    DrawnTicket(s, q);
    hide Apply, Enabled, DrawnFor, TriesOk, RouteSize;
    var r, r' := s.requests[q], Apply(s, step).requests[q];
    DrawnMore(s.draws, Ticket(q, r.proxy, r.route, r'.target), 0, 0, q);
    DrawTries(r, r'.target, DrawnFor(s.draws, q), RouteSize(s, r));
    SizeOfDrawn(s, r, r'.target);
  }

  lemma DrawnTicket(s: State, q: nat)
    requires Enabled(s, Draw(q)) && q < |Apply(s, Draw(q)).requests|
    ensures q < |s.requests|
    ensures var r, r' := s.requests[q], Apply(s, Draw(q)).requests[q];
            && r.Probing? && r'.Drawn? && r' == Drawn(r.proxy, r.route, r.tries, r'.target)
            && Apply(s, Draw(q)).draws == s.draws + [Ticket(q, r.proxy, r.route, r'.target)]
  {
    hide Build, SetFlag, Advance, AfterLoad, HasTarget;
  }

  lemma LoadMoved(s: State, r: Request, drawn: seq<nat>)
    requires Inv(s) && r.Drawn? && HasTarget(s.gens, r.proxy, r.route, r.target)
    requires TriesOk(r, drawn, RouteSize(s, r))
    ensures TriesOk(AfterLoad(s.gens, r), drawn, RouteSize(s, AfterLoad(s.gens, r)))
  {
    hide Inv, AfterLoad, TriesOk, RouteSize;
    RequestParts(s);
    TargetGen(s.gens, r);
    LoadTries(s, r, drawn);
  }

  lemma TargetGen(gens: seq<Gen>, r: Request)
    requires r.Drawn? && HasTarget(gens, r.proxy, r.route, r.target)
    ensures r.proxy < |gens|
  {
  }

  lemma AfterLoadOk(s: State, r: Request)
    requires RequestOk(s, r) && r.Drawn? && HasTarget(s.gens, r.proxy, r.route, r.target)
    ensures RequestOk(s, AfterLoad(s.gens, r))
  {
  }

  /** Also before the step, the moved request is in order. */
  lemma MovedOk(s: State, step: Step, q: nat)
    requires Inv(s) && Enabled(s, step) && q < |s.requests| <= |Apply(s, step).requests|
    requires Apply(s, step).requests[q] != s.requests[q]
    ensures RequestOk(s, Apply(s, step).requests[q])
  {
    hide Inv, Apply, Enabled, Build, AfterLoad, HasTarget;
    RequestParts(s);
    StageOf(s);
    MovedHow(s, step, q);
    assert RequestOk(s, s.requests[q]);
    if s.requests[q].Drawn? {
      AfterLoadOk(s, s.requests[q]);
    } else if step == Draw(q) {
      DrawnInRoute(s, step, q);
    }
  }

  lemma StageOf(s: State)
    requires Inv(s)
    ensures s.proxyGen <= s.wasmGen + 1 && (s.requests != [] ==> s.proxyGen < |s.gens|)
  {
  }

  lemma DrawnInRoute(s: State, step: Step, q: nat)
    requires Enabled(s, step) && step == Draw(q)
    ensures var r, r' := s.requests[q], Apply(s, step).requests[q];
            && r'.Drawn? && r.proxy < |s.gens| && r.route < |s.gens[r.proxy].routes|
            && r'.target < s.gens[r.proxy].routes[r.route]
  {
  }

  lemma TriesSame(s: State, step: Step, q: nat)
    requires Inv(s) && TriesInv(s) && CounterInv(s) && Enabled(s, step) && q < |Apply(s, step).requests|
    requires q < |s.requests| ==> Apply(s, step).requests[q] == s.requests[q]
    ensures var s' := Apply(s, step); TriesOk(s'.requests[q], DrawnFor(s'.draws, q), RouteSize(s', s'.requests[q]))
  {
    hide Inv, Apply, Enabled, TriesOk, RouteSize, DrawnFor;
    RequestParts(s);
    RequestsKept(s, step);
    if q < |s.requests| {
      SizeKept(s, step, s.requests[q]);
      OtherDraws(s, step, q);
      assert TriesOk(s.requests[q], DrawnFor(s.draws, q), RouteSize(s, s.requests[q]));
    } else {
      NewRequest(s, step, q);
      DrawnNothing(s.draws, 0, 0, q);
      ArrivedTries(Apply(s, step));
    }
  }

  lemma ArrivedTries(s: State)
    ensures TriesOk(Arrived, [], RouteSize(s, Arrived))
  {
  }

  lemma OtherDraws(s: State, step: Step, q: nat)
    requires Enabled(s, step) && q < |s.requests| <= |Apply(s, step).requests|
    requires Apply(s, step).requests[q] == s.requests[q]
    ensures DrawnFor(Apply(s, step).draws, q) == DrawnFor(s.draws, q)
  {
    hide Build, SetFlag, Advance, AfterLoad, HasTarget, DrawnFor;
    var s' := Apply(s, step);
    if step.Draw? {
      assert step.q != q;
      DrawnMore(s.draws, s'.draws[|s.draws|], 0, 0, q);
    }
  }

  lemma NewRequest(s: State, step: Step, q: nat)
    requires Enabled(s, step) && |s.requests| <= q < |Apply(s, step).requests|
    ensures Apply(s, step).requests[q] == Arrived && Apply(s, step).draws == s.draws
  {
    hide Build, SetFlag, Advance, AfterLoad, HasTarget, DrawTicket;
  }

  lemma TriesStep(s: State, step: Step)
    requires Inv(s) && TriesInv(s) && CounterInv(s) && Enabled(s, step)
    ensures TriesInv(Apply(s, step))
  {
    hide Inv, Apply, Enabled, TriesOk, RouteSize, DrawnFor, CounterInv, TriesInv;
    RequestsKept(s, step);
    var s' := Apply(s, step);
    forall q | 0 <= q < |s'.requests|
      ensures TriesOk(s'.requests[q], DrawnFor(s'.draws, q), RouteSize(s', s'.requests[q]))
    {
      if q < |s.requests| && s'.requests[q] != s.requests[q] {
        TriesMoved(s, step, q);
      } else {
        TriesSame(s, step, q);
      }
    }
    AllTries(s');
  }

  lemma AllTries(s: State)
    requires forall q | 0 <= q < |s.requests| ::
               TriesOk(s.requests[q], DrawnFor(s.draws, q), RouteSize(s, s.requests[q]))
    ensures TriesInv(s)
  {
  }

  lemma {:induction false} DrawRun(tr: seq<State>, n: nat)
    requires Run(tr) && n < |tr|
    ensures CounterInv(tr[n]) && TriesInv(tr[n])
  {
    hide Inv, Enabled, Apply, Next;
    if n == 0 {
    } else {
      hide Run, CounterInv, TriesInv;
      DrawRun(tr, n - 1);
      InvRun(tr, n - 1);
      var step := StepOf(tr, n - 1);
      CounterStep(tr[n - 1], step);
      TriesStep(tr[n - 1], step);
    }
  }

  /**
   In every reachable state, whatever is reloaded: the t-th ticket drawn on a route of
   a table went to the target of its number, and the counter holds the next ticket.
   */
  lemma TicketsGoRound(tr: seq<State>, n: nat, g: nat, r: nat)
    requires Run(tr) && n < |tr| && g < |tr[n].gens| && r < |tr[n].gens[g].routes|
    ensures var s := tr[n];
            var drawn := DrawnAt(s.draws, g, r);
            && r < |s.gens[g].counters| && s.gens[g].counters[r] == |drawn| % USIZE
            && forall t | 0 <= t < |drawn| :: drawn[t] == Slot(t, s.gens[g].routes[r])
  {
    InvRun(tr, n);
    RequestParts(tr[n]);
    DrawRun(tr, n);
    assert Shaped(tr[n].gens[g]);
    assert CounterOk(tr[n], g, r);
  }

  /**
   A request is told that there is no upstream only after drawing as many tickets as
   its route has targets; one that picked drew no more, and picked the last.
   */
  lemma TicketsOfRequest(tr: seq<State>, n: nat, q: nat)
    requires Run(tr) && n < |tr| && q < |tr[n].requests|
    ensures var s, r, drawn := tr[n], tr[n].requests[q], DrawnFor(tr[n].draws, q);
            && (r.NoUpstream? ==>
                  r.proxy < |s.gens| && r.route < |s.gens[r.proxy].routes|
                  && |drawn| == s.gens[r.proxy].routes[r.route])
            && (r.Picked? ==>
                  && r.proxy < |s.gens| && r.route < |s.gens[r.proxy].routes|
                  && 0 < |drawn| <= s.gens[r.proxy].routes[r.route] && drawn[|drawn| - 1] == r.target)
  {
    InvRun(tr, n);
    RequestParts(tr[n]);
    DrawRun(tr, n);
    assert RequestOk(tr[n], tr[n].requests[q]);
  }

  // ---------------------------------------------------------------------
  // A missing file
  // ---------------------------------------------------------------------

  /** The watcher leaves its loop head exactly when it looks at a file whose time is not the remembered one. */
  lemma LeavesHeadIff(s: State, step: Step)
    requires Enabled(s, step) && s.watcher.Head? && s.main.Serving?
    ensures var s', f := Apply(s, step), Current(s);
            && (s'.watcher != s.watcher <==> step.Poll? && f.File? && s.watcher.last != Some(f.mtime))
            && (s'.watcher != s.watcher ==> s'.watcher == Changed(Some(f.mtime)))
            && |s'.gens| == |s.gens| && s'.proxyGen == s.proxyGen && s'.wasmGen == s.wasmGen
  {
    hide Build, DrawTicket, AfterLoad, SetFlag, Advance, CanDraw, HasTarget, WithChecker;
    GensKept(s, step);
  }

  ghost predicate MissingThroughout(tr: seq<State>, a: nat, b: nat)
    requires a <= b < |tr|
  {
    forall k | a <= k <= b :: tr[k].disk != [] && Current(tr[k]).Missing?
  }

  /** While the file is missing, the server keeps the tables it has. */
  lemma {:induction false} MissingKeepsTables(tr: seq<State>, a: nat, b: nat)
    requires Run(tr) && a <= b < |tr| && tr[a].watcher.Head? && MissingThroughout(tr, a, b)
    ensures tr[b].watcher == tr[a].watcher && |tr[b].gens| == |tr[a].gens|
    ensures tr[b].proxyGen == tr[a].proxyGen && tr[b].wasmGen == tr[a].wasmGen
    decreases b
  {
    hide Run, Next, Inv, Enabled, Apply;
    if a == b {
    } else {
      MissingKeepsTables(tr, a, b - 1);
      InvRun(tr, b - 1);
      HeadServes(tr[b - 1]);
      var step := StepOf(tr, b - 1);
      LeavesHeadIff(tr[b - 1], step);
    }
  }

  lemma HeadServes(s: State)
    requires Inv(s) && s.watcher.Head?
    ensures s.main.Serving?
  {
  }
}
