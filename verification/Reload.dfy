/**
 Startup, configuration hot reload and health checking as one machine
 (`src/server/listener.rs`, `src/server/connection.rs`, `src/proxy/mod.rs`): an
 editor writes the file, the watcher polls its modification time and publishes two
 tables with two separate stores, one checker task per proxy table stores health
 flags, and requests load the tables one after the other. Table generations are
 numbered in the order in which they are built; file versions in the order of writing.
 */
module Reload {
  import opened Arithmetic
  import opened Results
  import opened Tickets

  /** A loaded route has at least one target. */
  type pos = x: nat | 0 < x witness 1

  /** A version of the file: its modification time, and the number of targets of each proxy route in it. */
  datatype File = Missing | File(mtime: nat, routes: seq<pos>)

  datatype Main = Loading | Built | Serving

  /** Where the watcher is in its loop; `last` is its `last_modified`. */
  datatype Watcher =
    | NotStarted
    | FirstStat
    | Head(last: Option<nat>)
    | Changed(last: Option<nat>)   // saw a new time, has not read the file yet
    | Loaded(last: Option<nat>)    // has built the new tables
    | Checked(last: Option<nat>)   // has spawned their checker
    | Half(last: Option<nat>)      // has stored the proxy table, not the wasm table

  /**
   One pair of tables: the file version it was built from, and for each proxy route
   the health flags of its targets and its round-robin counter.
   */
  datatype Gen = Gen(version: nat, routes: seq<pos>, flags: seq<seq<bool>>, counters: seq<usize>)

  /** A checker task: the table it was given, and the target it probes next. */
  datatype Checker = Checker(gen: nat, route: nat, target: nat)

  datatype Probe = Probe(checker: nat, gen: nat, route: nat, target: nat, ok: bool)

  /** A ticket drawn by a request from the counter of a route, and the target it names. */
  datatype Ticket = Ticket(request: nat, gen: nat, route: nat, target: nat)

  /** A request, with the proxy table that it loaded. */
  datatype Request =
    | Arrived
    | GotProxy(proxy: nat)
    | Probing(proxy: nat, route: nat, tries: nat)              // its path matched a proxy route
    | Drawn(proxy: nat, route: nat, tries: nat, target: nat)   // has drawn a ticket for this target
    | Picked(proxy: nat, route: nat, target: nat)
    | NoUpstream(proxy: nat, route: nat)
    | GotBoth(proxy: nat, wasm: nat)                           // matched none, and has loaded the wasm table

  datatype State = State(
    disk: seq<File>,        // every version written; the last one is on disk
    main: Main,
    watcher: Watcher,
    gens: seq<Gen>,
    proxyGen: nat,          // published proxy table
    wasmGen: nat,           // published wasm table
    checkers: seq<Checker>,
    probes: seq<Probe>,     // history: all probes
    draws: seq<Ticket>,     // history: all tickets drawn
    requests: seq<Request>,
    bootStat: nat,          // file version seen by the watcher's first stat
    lastStat: nat)          // file version whose time the watcher remembers

  datatype Step =
    | Write(file: File)
    | BootLoad
    | BootServe
    | StatFirst
    | Poll
    | LoadConfig
    | SpawnChecker
    | StoreProxy
    | StoreWasm
    | ProbeNext(k: nat, ok: bool)
    | Arrive
    | LoadProxy(q: nat)
    | Match(q: nat, route: nat)
    | Draw(q: nat)
    | LoadFlag(q: nat)
    | LoadWasm(q: nat)

  function Current(s: State): File
    requires s.disk != []
  {
    s.disk[|s.disk| - 1]
  }

  function MtimeOf(f: File): Option<nat> {
    if f.Missing? then None else Some(f.mtime)
  }

  /** A missing file loads as the defaults, which have no routes. */
  function RoutesOf(f: File): seq<pos> {
    if f.Missing? then [] else f.routes
  }

  /** `from_config` for the routes of one version: every target starts healthy, every counter at zero. */
  function Tables(version: nat, routes: seq<pos>): Gen {
    Gen(version, routes, seq(|routes|, r requires 0 <= r < |routes| => AllUp(routes[r])), seq(|routes|, r => 0))
  }

  function AllUp(n: nat): seq<bool> {
    seq(n, i => true)
  }

  /** The tables for the file as it is now. */
  function Build(s: State): Gen
    requires s.disk != []
  {
    Tables(|s.disk| - 1, RoutesOf(Current(s)))
  }

  predicate HasTarget(gens: seq<Gen>, g: nat, r: nat, i: nat) {
    g < |gens| && r < |gens[g].flags| && i < |gens[g].flags[r]|
  }

  function FlagOf(gens: seq<Gen>, g: nat, r: nat, i: nat): bool
    requires HasTarget(gens, g, r, i)
  {
    gens[g].flags[r][i]
  }

  function SetFlag(gens: seq<Gen>, g: nat, r: nat, i: nat, ok: bool): seq<Gen>
    requires HasTarget(gens, g, r, i)
  {
    gens[g := gens[g].(flags := gens[g].flags[r := gens[g].flags[r][i := ok]])]
  }

  /** The checker's two nested loops: the next target of the route, then the next route, for ever. */
  function Advance(c: Checker, g: Gen): Checker
    requires c.route < |g.flags|
  {
    if c.target + 1 < |g.flags[c.route]| then c.(target := c.target + 1)
    else c.(route := (c.route + 1) % |g.flags|, target := 0)
  }

  ghost predicate Init(s: State) {
    && |s.disk| == 1 && s.main == Loading && s.watcher == NotStarted
    && s.gens == [] && s.proxyGen == 0 && s.wasmGen == 0
    && s.checkers == [] && s.probes == [] && s.draws == [] && s.requests == []
    && s.bootStat == 0 && s.lastStat == 0
  }

  predicate Enabled(s: State, step: Step) {
    && s.disk != []
    && match step
       case Write(_) => true
       case BootLoad => s.main.Loading?
       case BootServe => s.main.Built? && s.gens != []
       case StatFirst => s.watcher.FirstStat?
       case Poll => s.watcher.Head?
       case LoadConfig => s.watcher.Changed?
       case SpawnChecker => s.watcher.Loaded? && s.gens != []
       case StoreProxy => s.watcher.Checked? && s.gens != []
       case StoreWasm => s.watcher.Half? && s.gens != []
       case ProbeNext(k, _) =>
         k < |s.checkers| && HasTarget(s.gens, s.checkers[k].gen, s.checkers[k].route, s.checkers[k].target)
       case Arrive => s.main.Serving?
       case LoadProxy(q) => q < |s.requests| && s.requests[q].Arrived?
       case Match(q, r) =>
         && q < |s.requests| && s.requests[q].GotProxy?
         && s.requests[q].proxy < |s.gens| && r < |s.gens[s.requests[q].proxy].routes|
       case Draw(q) => q < |s.requests| && s.requests[q].Probing? && CanDraw(s.gens, s.requests[q])
       case LoadFlag(q) =>
         && q < |s.requests| && s.requests[q].Drawn?
         && HasTarget(s.gens, s.requests[q].proxy, s.requests[q].route, s.requests[q].target)
       case LoadWasm(q) => q < |s.requests| && s.requests[q].GotProxy?
  }

  predicate CanDraw(gens: seq<Gen>, r: Request)
    requires r.Probing?
  {
    && r.proxy < |gens| && r.route < |gens[r.proxy].routes| && r.route < |gens[r.proxy].flags|
    && r.route < |gens[r.proxy].counters|
  }

  /** The table and the request after a `fetch_add` on the counter of the matched route. */
  function DrawTicket(gens: seq<Gen>, r: Request): (drawn: (seq<Gen>, Request))
    requires r.Probing? && CanDraw(gens, r)
    ensures drawn.1.Drawn?
  {
    var g := gens[r.proxy];
    var ticket := g.counters[r.route];
    (gens[r.proxy := g.(counters := g.counters[r.route := Bump(ticket)])],
     Drawn(r.proxy, r.route, r.tries, ticket % g.routes[r.route]))
  }

  /** The request after the load of a flag. */
  function AfterLoad(gens: seq<Gen>, r: Request): Request
    requires r.Drawn? && HasTarget(gens, r.proxy, r.route, r.target)
  {
    if FlagOf(gens, r.proxy, r.route, r.target) then Picked(r.proxy, r.route, r.target)
    else if r.tries + 1 < |gens[r.proxy].flags[r.route]| then Probing(r.proxy, r.route, r.tries + 1)
    else NoUpstream(r.proxy, r.route)
  }

  /** A checker is spawned only for a table that has routes. */
  function WithChecker(checkers: seq<Checker>, gens: seq<Gen>): seq<Checker>
    requires gens != []
  {
    if gens[|gens| - 1].routes != [] then checkers + [Checker(|gens| - 1, 0, 0)] else checkers
  }

  function Apply(s: State, step: Step): State
    requires Enabled(s, step)
  {
    match step
    case Write(file) => s.(disk := s.disk + [file])
    case BootLoad => s.(main := Built, gens := [Build(s)])
    case BootServe => s.(main := Serving, watcher := FirstStat, checkers := WithChecker(s.checkers, s.gens))
    case StatFirst =>
      s.(watcher := Head(MtimeOf(Current(s))), bootStat := |s.disk| - 1, lastStat := |s.disk| - 1)
    case Poll =>
      var now := MtimeOf(Current(s));
      if now == None || now == s.watcher.last then s
      else s.(watcher := Changed(now), lastStat := |s.disk| - 1)
    case LoadConfig => s.(watcher := Loaded(s.watcher.last), gens := s.gens + [Build(s)])
    case SpawnChecker => s.(watcher := Checked(s.watcher.last), checkers := WithChecker(s.checkers, s.gens))
    case StoreProxy => s.(watcher := Half(s.watcher.last), proxyGen := |s.gens| - 1)
    case StoreWasm => s.(watcher := Head(s.watcher.last), wasmGen := |s.gens| - 1)
    case ProbeNext(k, ok) =>
      var c := s.checkers[k];
      s.(gens := SetFlag(s.gens, c.gen, c.route, c.target, ok),
         checkers := s.checkers[k := Advance(c, s.gens[c.gen])],
         probes := s.probes + [Probe(k, c.gen, c.route, c.target, ok)])
    case Arrive => s.(requests := s.requests + [Arrived])
    case LoadProxy(q) => s.(requests := s.requests[q := GotProxy(s.proxyGen)])
    case Match(q, r) => s.(requests := s.requests[q := Probing(s.requests[q].proxy, r, 0)])
    case Draw(q) =>
      var (gens, r) := DrawTicket(s.gens, s.requests[q]);
      s.(gens := gens, requests := s.requests[q := r], draws := s.draws + [Ticket(q, r.proxy, r.route, r.target)])
    case LoadFlag(q) => s.(requests := s.requests[q := AfterLoad(s.gens, s.requests[q])])
    case LoadWasm(q) => s.(requests := s.requests[q := GotBoth(s.requests[q].proxy, s.wasmGen)])
  }

  ghost predicate Next(s: State, s': State) {
    exists step :: Enabled(s, step) && s' == Apply(s, step)
  }

  ghost predicate Run(tr: seq<State>) {
    && tr != [] && Init(tr[0])
    && forall k | 0 <= k < |tr| - 1 :: Next(tr[k], tr[k + 1])
  }

  // ---------------------------------------------------------------------
  // Publication
  // ---------------------------------------------------------------------

  /** Which generations are published, from where startup and the watcher are. */
  ghost predicate StageInv(s: State) {
    && (s.watcher.NotStarted? <==> !s.main.Serving?)
    && match s.main
       case Loading => s.gens == [] && s.proxyGen == 0 && s.wasmGen == 0 && s.requests == []
       case Built => |s.gens| == 1 && s.proxyGen == 0 && s.wasmGen == 0 && s.requests == []
       case Serving =>
         match s.watcher
         case NotStarted => false
         case FirstStat => |s.gens| == 1 && s.proxyGen == 0 && s.wasmGen == 0
         case Head(_) => |s.gens| == s.proxyGen + 1 && s.wasmGen == s.proxyGen
         case Changed(_) => |s.gens| == s.proxyGen + 1 && s.wasmGen == s.proxyGen
         case Loaded(_) => |s.gens| == s.proxyGen + 2 && s.wasmGen == s.proxyGen
         case Checked(_) => |s.gens| == s.proxyGen + 2 && s.wasmGen == s.proxyGen
         case Half(_) => |s.gens| == s.proxyGen + 1 && s.wasmGen + 1 == s.proxyGen
  }

  ghost predicate RequestOk(s: State, r: Request) {
    r.Arrived? ||
    (&& r.proxy < |s.gens| && r.proxy <= s.proxyGen
     && match r
        case Arrived => true
        case GotProxy(p) => p <= s.wasmGen + 1
        case Probing(p, r, _) => r < |s.gens[p].routes|
        case Drawn(p, r, _, i) => r < |s.gens[p].routes| && i < s.gens[p].routes[r]
        case Picked(p, r, i) => r < |s.gens[p].routes| && i < s.gens[p].routes[r]
        case NoUpstream(p, r) => r < |s.gens[p].routes|
        case GotBoth(p, w) => p <= w + 1 && w <= s.wasmGen)
  }

  ghost predicate RequestInv(s: State) {
    forall q | 0 <= q < |s.requests| :: RequestOk(s, s.requests[q])
  }

  lemma StageStep(s: State, step: Step)
    requires StageInv(s) && Enabled(s, step)
    ensures StageInv(Apply(s, step))
    ensures s.proxyGen <= Apply(s, step).proxyGen && s.wasmGen <= Apply(s, step).wasmGen
  {
    hide Build, DrawTicket, AfterLoad, SetFlag, Advance, CanDraw, HasTarget;
    GensKept(s, step);
  }

  ghost predicate Kept(g: Gen, g': Gen) {
    g'.version == g.version && g'.routes == g.routes
  }

  /** Generations are only added, and keep their version and routes. */
  lemma GensKept(s: State, step: Step)
    requires Enabled(s, step) && (step.BootLoad? ==> s.gens == [])
    ensures var s' := Apply(s, step);
            && |s.gens| <= |s'.gens| && (forall g | 0 <= g < |s.gens| :: Kept(s.gens[g], s'.gens[g]))
            && (!step.BootLoad? && !step.LoadConfig? ==> |s'.gens| == |s.gens|)
            && (step.BootLoad? || step.LoadConfig? ==> s'.gens == s.gens + [Build(s)])
            && (!step.BootLoad? && !step.LoadConfig? && !step.ProbeNext? && !step.Draw? ==> s'.gens == s.gens)
  {
    hide Build, AfterLoad, Advance;
  }

  lemma DiskKept(s: State, step: Step)
    requires Enabled(s, step)
    ensures s.disk <= Apply(s, step).disk
  {
    hide Build, AfterLoad, Advance, SetFlag, DrawTicket, CanDraw, HasTarget;
  }

  /** What a request holds stays valid while tables are only added. */
  lemma RequestKept(s: State, s': State, r: Request)
    requires RequestOk(s, r)
    requires s.proxyGen <= s'.proxyGen && s.wasmGen <= s'.wasmGen && |s.gens| <= |s'.gens|
    requires forall g | 0 <= g < |s.gens| :: Kept(s.gens[g], s'.gens[g])
    ensures RequestOk(s', r)
  {
    if !r.Arrived? { assert Kept(s.gens[r.proxy], s'.gens[r.proxy]); }
  }

  /** The request that a step moves. */
  lemma RequestMoved(s: State, step: Step, q: nat)
    requires StageInv(s) && RequestInv(s) && Enabled(s, step) && q < |s.requests|
    requires Apply(s, step).requests[q] != s.requests[q]
    ensures RequestOk(Apply(s, step), Apply(s, step).requests[q])
  {
    assert RequestOk(s, s.requests[q]);
    hide Build, SetFlag, Advance;
  }

  lemma RequestStep(s: State, step: Step)
    requires StageInv(s) && RequestInv(s) && Enabled(s, step)
    ensures RequestInv(Apply(s, step))
  {
    StageStep(s, step);
    GensKept(s, step);
    var s' := Apply(s, step);
    hide Build, DrawTicket, AfterLoad, SetFlag, Advance, StageInv, RequestOk, Kept, CanDraw, HasTarget;
    forall q | 0 <= q < |s'.requests| ensures RequestOk(s', s'.requests[q]) {
      if q < |s.requests| {
        if s'.requests[q] == s.requests[q] {
          RequestKept(s, s', s.requests[q]);
        } else {
          RequestMoved(s, step, q);
        }
      } else {
        ArrivedOk(s');
      }
    }
  }

  lemma ArrivedOk(s: State)
    ensures RequestOk(s, Arrived)
  {
  }

  // ---------------------------------------------------------------------
  // Tables, checkers and flags
  // ---------------------------------------------------------------------

  /** One flag for each target and one counter for each route. */
  ghost predicate Shaped(g: Gen) {
    && |g.flags| == |g.routes| == |g.counters|
    && forall r | 0 <= r < |g.routes| :: |g.flags[r]| == g.routes[r]
  }

  ghost predicate ShapeInv(s: State) {
    forall g | 0 <= g < |s.gens| :: Shaped(s.gens[g])
  }

  lemma BuildShaped(s: State)
    requires s.disk != []
    ensures Shaped(Build(s))
  {
  }

  lemma ShapeStep(s: State, step: Step)
    requires ShapeInv(s) && Enabled(s, step) && (step.BootLoad? ==> s.gens == [])
    ensures ShapeInv(Apply(s, step))
  {
    BuildShaped(s);
    hide Build;
    GensKept(s, step);
    var s' := Apply(s, step);
    forall g | 0 <= g < |s'.gens| ensures Shaped(s'.gens[g]) {
      if g < |s.gens| { assert Shaped(s.gens[g]); }
    }
  }

  ghost function CheckersOf(checkers: seq<Checker>, g: nat): nat {
    if checkers == [] then 0
    else CheckersOf(checkers[..|checkers| - 1], g) + One(checkers[|checkers| - 1].gen == g)
  }

  lemma {:induction false} MoveChecker(checkers: seq<Checker>, k: nat, c: Checker, g: nat)
    requires k < |checkers| && c.gen == checkers[k].gen
    ensures CheckersOf(checkers[k := c], g) == CheckersOf(checkers, g)
  {
    var n := |checkers| - 1;
    var moved := checkers[k := c];
    if k < n {
      MoveChecker(checkers[..n], k, c, g);
      assert moved[..n] == checkers[..n][k := c];
    } else {
      assert moved[..n] == checkers[..n];
    }
  }

  /** How many generations have had their checker spawned, if they have routes. */
  ghost function SpawnedGens(s: State): int {
    if !s.main.Serving? then 0 else if s.watcher.Loaded? then |s.gens| - 1 else |s.gens|
  }

  ghost predicate Placed(s: State, c: Checker) {
    && c.gen < |s.gens| && c.route < |s.gens[c.gen].routes| && c.target < s.gens[c.gen].routes[c.route]
  }

  ghost predicate CheckerInv(s: State) {
    && (forall k | 0 <= k < |s.checkers| :: Placed(s, s.checkers[k]))
    && (!s.main.Serving? ==> s.checkers == [])
    && forall g | 0 <= g < |s.gens| ::
         CheckersOf(s.checkers, g) == One(s.gens[g].routes != [] && g < SpawnedGens(s))
  }

  lemma {:induction false} NoCheckerOf(checkers: seq<Checker>, g: nat)
    requires forall k | 0 <= k < |checkers| :: checkers[k].gen < g
    ensures CheckersOf(checkers, g) == 0
  {
    if checkers == [] {
    } else {
      NoCheckerOf(checkers[..|checkers| - 1], g);
    }
  }

  lemma AddChecker(checkers: seq<Checker>, c: Checker, g: nat)
    ensures CheckersOf(checkers + [c], g) == CheckersOf(checkers, g) + One(c.gen == g)
  {
    assert (checkers + [c])[..|checkers|] == checkers;
  }

  lemma CheckerSpawn(s: State, step: Step)
    requires CheckerInv(s) && StageInv(s) && Enabled(s, step) && (step.SpawnChecker? || step.BootServe?)
    ensures CheckerInv(Apply(s, step))
  {
    hide CheckersOf;
    var s' := Apply(s, step);
    var last := |s.gens| - 1;
    assert forall k | 0 <= k < |s.checkers| :: Placed(s, s.checkers[k]) ==> Placed(s', s.checkers[k]);
    forall g | 0 <= g < |s'.gens|
      ensures CheckersOf(s'.checkers, g) == One(s'.gens[g].routes != [] && g < SpawnedGens(s'))
    {
      AddChecker(s.checkers, Checker(last, 0, 0), g);
    }
  }

  lemma CheckerLoad(s: State, step: Step)
    requires CheckerInv(s) && StageInv(s) && Enabled(s, step) && (step.LoadConfig? || step.BootLoad?)
    ensures CheckerInv(Apply(s, step))
  {
    hide CheckersOf, Build;
    var s' := Apply(s, step);
    assert forall k | 0 <= k < |s.checkers| :: Placed(s, s.checkers[k]) ==> Placed(s', s.checkers[k]);
    NoCheckerOf(s.checkers, |s.gens|);
  }

  lemma AdvancePlaced(s: State, c: Checker)
    requires ShapeInv(s) && Placed(s, c)
    ensures c.route < |s.gens[c.gen].flags|
    ensures Placed(s, Advance(c, s.gens[c.gen])) && Advance(c, s.gens[c.gen]).gen == c.gen
  {
    assert Shaped(s.gens[c.gen]);
  }

  lemma CheckerProbe(s: State, k: nat, ok: bool)
    requires CheckerInv(s) && ShapeInv(s) && Enabled(s, ProbeNext(k, ok))
    ensures CheckerInv(Apply(s, ProbeNext(k, ok)))
  {
    var s' := Apply(s, ProbeNext(k, ok));
    GensKept(s, ProbeNext(k, ok));
    AdvancePlaced(s, s.checkers[k]);
    hide CheckersOf, Advance, SetFlag, ShapeInv;
    forall c | Placed(s, c) ensures Placed(s', c) { assert Kept(s.gens[c.gen], s'.gens[c.gen]); }
    forall g | 0 <= g < |s'.gens|
      ensures CheckersOf(s'.checkers, g) == One(s'.gens[g].routes != [] && g < SpawnedGens(s'))
    {
      MoveChecker(s.checkers, k, s'.checkers[k], g);
      assert Kept(s.gens[g], s'.gens[g]);
    }
  }

  lemma CheckerSame(s: State, step: Step)
    requires CheckerInv(s) && StageInv(s) && Enabled(s, step)
    requires !step.BootLoad? && !step.LoadConfig? && !step.BootServe? && !step.SpawnChecker? && !step.ProbeNext?
    ensures CheckerInv(Apply(s, step))
  {
    GensKept(s, step);
    hide CheckersOf, Build, DrawTicket, AfterLoad, CanDraw, HasTarget;
    var s' := Apply(s, step);
    assert s'.checkers == s.checkers && SpawnedGens(s') == SpawnedGens(s);
    forall c | Placed(s, c) ensures Placed(s', c) { assert Kept(s.gens[c.gen], s'.gens[c.gen]); }
    forall g | 0 <= g < |s'.gens|
      ensures CheckersOf(s'.checkers, g) == One(s'.gens[g].routes != [] && g < SpawnedGens(s'))
    {
      assert Kept(s.gens[g], s'.gens[g]);
    }
  }

  lemma CheckerStep(s: State, step: Step)
    requires CheckerInv(s) && ShapeInv(s) && StageInv(s) && Enabled(s, step)
    ensures CheckerInv(Apply(s, step))
  {
    hide CheckersOf, Build, CheckerInv, ShapeInv, StageInv, Enabled, Apply;
    match step
    case BootLoad => CheckerLoad(s, step);
    case LoadConfig => CheckerLoad(s, step);
    case BootServe => CheckerSpawn(s, step);
    case SpawnChecker => CheckerSpawn(s, step);
    case ProbeNext(k, ok) => CheckerProbe(s, k, ok);
    case _ => CheckerSame(s, step);
  }

  /** How many of the first `n` generations have routes. */
  ghost function Routed(gens: seq<Gen>, n: nat): nat
    requires n <= |gens|
  {
    if n == 0 then 0 else Routed(gens, n - 1) + One(gens[n - 1].routes != [])
  }

  /** Every checker that was ever spawned is still there. */
  ghost predicate LeakInv(s: State) {
    0 <= SpawnedGens(s) <= |s.gens| && |s.checkers| == Routed(s.gens, SpawnedGens(s))
  }

  lemma {:induction false} RoutedKept(gens: seq<Gen>, gens': seq<Gen>, n: nat)
    requires n <= |gens| <= |gens'| && forall g | 0 <= g < |gens| :: Kept(gens[g], gens'[g])
    ensures Routed(gens', n) == Routed(gens, n)
  {
    if n == 0 {
    } else {
      RoutedKept(gens, gens', n - 1);
      assert Kept(gens[n - 1], gens'[n - 1]);
    }
  }

  lemma LeakSpawn(s: State, step: Step)
    requires LeakInv(s) && StageInv(s) && Enabled(s, step) && (step.SpawnChecker? || step.BootServe?)
    ensures LeakInv(Apply(s, step))
  {
    var s' := Apply(s, step);
    assert s'.gens == s.gens && SpawnedGens(s') == |s.gens|;
  }

  lemma LeakStep(s: State, step: Step)
    requires LeakInv(s) && StageInv(s) && Enabled(s, step)
    ensures LeakInv(Apply(s, step))
  {
    hide Build, DrawTicket, AfterLoad, SetFlag, Advance, CanDraw, HasTarget, Routed;
    if step.SpawnChecker? || step.BootServe? {
      LeakSpawn(s, step);
    } else {
      GensKept(s, step);
      var s' := Apply(s, step);
      assert |s'.checkers| == |s.checkers| && SpawnedGens(s') == SpawnedGens(s);
      RoutedKept(s.gens, s'.gens, SpawnedGens(s));
    }
  }

  lemma CheckersStay(s: State, step: Step)
    requires Enabled(s, step)
    ensures |s.checkers| <= |Apply(s, step).checkers|
  {
    hide Build, DrawTicket, AfterLoad, SetFlag, Advance, CanDraw, HasTarget;
  }

  /** The latest probe result for a target, or healthy if there is none. */
  ghost function Latest(probes: seq<Probe>, g: nat, r: nat, i: nat): bool {
    if probes == [] then true
    else
      var last := probes[|probes| - 1];
      if last.gen == g && last.route == r && last.target == i then last.ok
      else Latest(probes[..|probes| - 1], g, r, i)
  }

  /** Every probe so far was of a target of an existing generation, by a checker of that generation. */
  ghost predicate ProbeInv(s: State) {
    forall i | 0 <= i < |s.probes| ::
      && s.probes[i].gen < |s.gens| && s.probes[i].checker < |s.checkers|
      && s.checkers[s.probes[i].checker].gen == s.probes[i].gen
  }

  ghost predicate FlagInv(s: State) {
    forall g: nat, r: nat, i: nat | HasTarget(s.gens, g, r, i) ::
      FlagOf(s.gens, g, r, i) == Latest(s.probes, g, r, i)
  }

  lemma ProbeStep(s: State, step: Step)
    requires ProbeInv(s) && StageInv(s) && Enabled(s, step) && (!s.main.Serving? ==> s.checkers == [])
    ensures ProbeInv(Apply(s, step))
  {
    GensKept(s, step);
    hide Build, DrawTicket, AfterLoad, SetFlag, CanDraw;
    var s' := Apply(s, step);
    assert forall k | 0 <= k < |s.checkers| :: k < |s'.checkers| && s'.checkers[k].gen == s.checkers[k].gen;
    forall i | 0 <= i < |s'.probes|
      ensures s'.probes[i].gen < |s'.gens| && s'.probes[i].checker < |s'.checkers|
      ensures s'.checkers[s'.probes[i].checker].gen == s'.probes[i].gen
    {
      if i < |s.probes| { assert s'.probes[i] == s.probes[i]; }
    }
  }

  lemma {:induction false} NoProbesYet(probes: seq<Probe>, g: nat, r: nat, i: nat)
    requires forall k | 0 <= k < |probes| :: probes[k].gen != g
    ensures Latest(probes, g, r, i)
  {
    if probes == [] {
    } else {
      NoProbesYet(probes[..|probes| - 1], g, r, i);
    }
  }

  lemma LatestAfter(probes: seq<Probe>, p: Probe, g: nat, r: nat, i: nat)
    ensures Latest(probes + [p], g, r, i)
         == if p.gen == g && p.route == r && p.target == i then p.ok else Latest(probes, g, r, i)
  {
    assert (probes + [p])[..|probes|] == probes;
  }

  lemma BuildUp(s: State, r: nat, i: nat)
    requires s.disk != [] && r < |Build(s).flags| && i < |Build(s).flags[r]|
    ensures Build(s).flags[r][i]
  {
  }

  lemma FlagBuild(s: State, step: Step)
    requires FlagInv(s) && ProbeInv(s) && StageInv(s) && Enabled(s, step) && (step.LoadConfig? || step.BootLoad?)
    ensures FlagInv(Apply(s, step))
  {
    GensKept(s, step);
    hide Latest, Build;
    var s' := Apply(s, step);
    forall g: nat, r: nat, i: nat | HasTarget(s'.gens, g, r, i)
      ensures FlagOf(s'.gens, g, r, i) == Latest(s'.probes, g, r, i)
    {
      if g == |s.gens| {
        NoProbesYet(s.probes, g, r, i);
        BuildUp(s, r, i);
      } else {
        assert HasTarget(s.gens, g, r, i);
      }
    }
  }

  lemma FlagProbe(s: State, k: nat, ok: bool)
    requires FlagInv(s) && Enabled(s, ProbeNext(k, ok))
    ensures FlagInv(Apply(s, ProbeNext(k, ok)))
  {
    hide Latest, Advance;
    var s' := Apply(s, ProbeNext(k, ok));
    var c := s.checkers[k];
    forall g: nat, r: nat, i: nat | HasTarget(s'.gens, g, r, i)
      ensures FlagOf(s'.gens, g, r, i) == Latest(s'.probes, g, r, i)
    {
      assert HasTarget(s.gens, g, r, i);
      LatestAfter(s.probes, Probe(k, c.gen, c.route, c.target, ok), g, r, i);
    }
  }

  lemma FlagSame(s: State, step: Step)
    requires FlagInv(s) && Enabled(s, step) && !step.BootLoad? && !step.LoadConfig? && !step.ProbeNext?
    ensures FlagInv(Apply(s, step))
  {
    hide Latest, Build, AfterLoad, Advance;
    var s' := Apply(s, step);
    forall g: nat, r: nat, i: nat | HasTarget(s'.gens, g, r, i)
      ensures FlagOf(s'.gens, g, r, i) == Latest(s'.probes, g, r, i)
    {
      assert HasTarget(s.gens, g, r, i) && FlagOf(s'.gens, g, r, i) == FlagOf(s.gens, g, r, i);
    }
  }

  lemma FlagStep(s: State, step: Step)
    requires FlagInv(s) && ProbeInv(s) && StageInv(s) && Enabled(s, step)
    ensures FlagInv(Apply(s, step))
  {
    hide FlagInv, ProbeInv, StageInv, Enabled, Apply;
    match step
    case BootLoad => FlagBuild(s, step);
    case LoadConfig => FlagBuild(s, step);
    case ProbeNext(k, ok) => FlagProbe(s, k, ok);
    case _ => FlagSame(s, step);
  }

  // ---------------------------------------------------------------------
  // Versions
  // ---------------------------------------------------------------------

  /** The routes of the file; none if there is no file. */
  ghost predicate HasRoutesOf(g: Gen, f: File) {
    match f
    case Missing => g.routes == []
    case File(_, routes) => g.routes == routes
  }

  /** The tables are what their file version says. */
  ghost predicate TableInv(s: State) {
    && s.disk != []
    && forall g | 0 <= g < |s.gens| ::
         s.gens[g].version < |s.disk| && HasRoutesOf(s.gens[g], s.disk[s.gens[g].version])
  }

  /** The watcher has looked at the file, and what it remembers. */
  ghost predicate Looking(w: Watcher) {
    w.Head? || w.Changed? || w.Loaded? || w.Checked? || w.Half?
  }

  ghost predicate LookInv(s: State) {
    Looking(s.watcher) ==>
      && s.bootStat <= s.lastStat < |s.disk| && s.watcher.last == MtimeOf(s.disk[s.lastStat])
      && s.gens != [] && s.gens[0].version <= s.bootStat
      && (s.watcher.Head? && |s.gens| == 1 ==> s.lastStat == s.bootStat)
      && (s.watcher.Head? && 1 < |s.gens| ==> s.lastStat <= s.gens[|s.gens| - 1].version)
      && (s.watcher.Loaded? || s.watcher.Checked? || s.watcher.Half? ==> s.lastStat <= s.gens[|s.gens| - 1].version)
  }

  ghost predicate VersionInv(s: State) {
    TableInv(s) && LookInv(s)
  }

  lemma BuildVersion(s: State)
    requires s.disk != []
    ensures Build(s).version == |s.disk| - 1 && HasRoutesOf(Build(s), s.disk[|s.disk| - 1])
  {
  }

  lemma TableStep(s: State, step: Step)
    requires TableInv(s) && StageInv(s) && Enabled(s, step)
    ensures TableInv(Apply(s, step))
  {
    GensKept(s, step);
    DiskKept(s, step);
    BuildVersion(s);
    var s' := Apply(s, step);
    hide Apply, Enabled, Build;
    forall g | 0 <= g < |s'.gens|
      ensures s'.gens[g].version < |s'.disk| && HasRoutesOf(s'.gens[g], s'.disk[s'.gens[g].version])
    {
      if g < |s.gens| {
        assert Kept(s.gens[g], s'.gens[g]);
      } else if step.BootLoad? || step.LoadConfig? {
        assert s'.gens[g] == Build(s);
      }
    }
  }

  lemma LookStep(s: State, step: Step)
    requires LookInv(s) && TableInv(s) && StageInv(s) && Enabled(s, step)
    ensures LookInv(Apply(s, step))
  {
    hide RoutesOf, DrawTicket, AfterLoad, SetFlag, Advance, CanDraw, HasTarget, AllUp;
    GensKept(s, step);
    var s' := Apply(s, step);
    if s.gens != [] { assert Kept(s.gens[0], s'.gens[0]) && Kept(s.gens[|s.gens| - 1], s'.gens[|s.gens| - 1]); }
    if step.Write? {
      assert forall v | 0 <= v < |s.disk| :: s'.disk[v] == s.disk[v];
    }
  }

  lemma VersionStep(s: State, step: Step)
    requires VersionInv(s) && StageInv(s) && Enabled(s, step)
    ensures VersionInv(Apply(s, step))
  {
    hide TableInv, LookInv, StageInv, Enabled, Apply;
    TableStep(s, step);
    LookStep(s, step);
  }

  // ---------------------------------------------------------------------
  // All runs
  // ---------------------------------------------------------------------

  ghost predicate Inv(s: State) {
    && StageInv(s) && RequestInv(s) && ShapeInv(s) && CheckerInv(s) && LeakInv(s) && ProbeInv(s) && FlagInv(s)
    && VersionInv(s)
  }

  lemma InvStep(s: State, step: Step)
    requires Inv(s) && Enabled(s, step)
    ensures Inv(Apply(s, step))
  {
    assert step.BootLoad? ==> s.gens == [];
    assert !s.main.Serving? ==> s.checkers == [];
    hide StageInv, RequestInv, ShapeInv, CheckerInv, LeakInv, ProbeInv, FlagInv, VersionInv, Enabled, Apply;
    StageStep(s, step);
    RequestStep(s, step);
    ShapeStep(s, step);
    CheckerStep(s, step);
    LeakStep(s, step);
    ProbeStep(s, step);
    FlagStep(s, step);
    VersionStep(s, step);
  }

  /** No checker is ever stuck. */
  lemma CheckerGoesOn(s: State, k: nat, ok: bool)
    requires Inv(s) && s.disk != [] && k < |s.checkers|
    ensures Enabled(s, ProbeNext(k, ok))
  {
    hide StageInv, RequestInv, LeakInv, ProbeInv, FlagInv, VersionInv;
    assert Placed(s, s.checkers[k]) && Shaped(s.gens[s.checkers[k].gen]);
  }

  /**
   No request is ever stuck: it can load the proxy table, go on to any route of it or
   to the wasm table, draw, and load a flag.
   */
  lemma RequestGoesOn(s: State, q: nat)
    requires Inv(s) && s.disk != [] && q < |s.requests|
    ensures match s.requests[q]
            case Arrived => Enabled(s, LoadProxy(q))
            case GotProxy(p) =>
              && p < |s.gens| && Enabled(s, LoadWasm(q))
              && forall r: nat | r < |s.gens[p].routes| :: Enabled(s, Match(q, r))
            case Probing(_, _, _) => Enabled(s, Draw(q))
            case Drawn(_, _, _, _) => Enabled(s, LoadFlag(q))
            case Picked(_, _, _) => true
            case NoUpstream(_, _) => true
            case GotBoth(_, _) => true
  {
    hide StageInv, CheckerInv, LeakInv, ProbeInv, FlagInv, VersionInv;
    var r := s.requests[q];
    assert RequestOk(s, r);
    if !r.Arrived? { assert Shaped(s.gens[r.proxy]); }
  }

  lemma InvInit(s: State)
    requires Init(s)
    ensures Inv(s)
  {
  }

  lemma {:induction false} InvRun(tr: seq<State>, k: nat)
    requires Run(tr) && k < |tr|
    ensures Inv(tr[k])
  {
    hide Inv, Enabled, Apply, Next, Init;
    if k == 0 {
      InvInit(tr[0]);
    } else {
      hide Run;
      InvRun(tr, k - 1);
      var step := StepOf(tr, k - 1);
      InvStep(tr[k - 1], step);
    }
  }

  lemma StepOf(tr: seq<State>, k: nat) returns (step: Step)
    requires Run(tr) && k + 1 < |tr|
    ensures Enabled(tr[k], step) && tr[k + 1] == Apply(tr[k], step)
  {
    assert Next(tr[k], tr[k + 1]);
    step :| Enabled(tr[k], step) && tr[k + 1] == Apply(tr[k], step);
  }

  // ---------------------------------------------------------------------
  // The two tables of a request
  // ---------------------------------------------------------------------

  /**
   In every reachable state the published proxy table is the same generation as
   the published wasm table, or the next one; and a request that loaded both
   tables holds a wasm table at most one generation older than its proxy table.
   */
  lemma TableSkew(tr: seq<State>, k: nat)
    requires Run(tr) && k < |tr|
    ensures var s := tr[k];
            && s.wasmGen <= s.proxyGen <= s.wasmGen + 1
            && forall q | 0 <= q < |s.requests| && s.requests[q].GotBoth? ::
                 s.requests[q].proxy <= s.requests[q].wasm + 1
  {
    InvRun(tr, k);
    var s := tr[k];
    forall q | 0 <= q < |s.requests| && s.requests[q].GotBoth?
      ensures s.requests[q].proxy <= s.requests[q].wasm + 1
    {
      assert RequestOk(s, s.requests[q]);
    }
  }

  /** How often the wasm table is stored between two states of a run. */
  ghost function WasmStores(tr: seq<State>, a: nat, b: nat): nat
    requires a <= b < |tr|
    decreases b
  {
    if a == b then 0 else WasmStores(tr, a, b - 1) + One(tr[b - 1].watcher.Half? && !tr[b].watcher.Half?)
  }

  lemma WasmStoreStep(s: State, step: Step)
    requires StageInv(s) && Enabled(s, step)
    ensures var s' := Apply(s, step); s'.wasmGen == s.wasmGen + One(s.watcher.Half? && !s'.watcher.Half?)
  {
    GensKept(s, step);
    hide Build, DrawTicket, AfterLoad, SetFlag, Advance, CanDraw, HasTarget;
  }

  lemma {:induction false} WasmGenCounts(tr: seq<State>, a: nat, b: nat)
    requires Run(tr) && a <= b < |tr|
    ensures tr[b].wasmGen == tr[a].wasmGen + WasmStores(tr, a, b)
    decreases b
  {
    hide Run, Next, Inv, Enabled, Apply, StageInv, LeakInv;
    if a == b {
    } else {
      InvRun(tr, b - 1);
      InvParts(tr[b - 1]);
      WasmGenCounts(tr, a, b - 1);
      var step := StepOf(tr, b - 1);
      WasmStoreStep(tr[b - 1], step);
    }
  }

  lemma InvParts(s: State)
    requires Inv(s)
    ensures StageInv(s) && LeakInv(s) && TableInv(s) && LookInv(s)
  {
  }

  /** Step `k` of the run makes request `q` load the proxy table, or the wasm table. */
  ghost predicate LoadsProxyAt(tr: seq<State>, k: nat, q: nat) {
    && k + 1 < |tr| && q < |tr[k].requests| && tr[k].requests[q].Arrived?
    && q < |tr[k + 1].requests| && tr[k + 1].requests[q].GotProxy?
  }

  ghost predicate LoadsWasmAt(tr: seq<State>, k: nat, q: nat) {
    && k + 1 < |tr| && q < |tr[k].requests| && tr[k].requests[q].GotProxy?
    && q < |tr[k + 1].requests| && tr[k + 1].requests[q].GotBoth?
  }

  /** The proxy table of a request does not change once it is loaded. */
  lemma ProxyKeptStep(s: State, step: Step, q: nat)
    requires Enabled(s, step) && q < |s.requests|
    ensures var s' := Apply(s, step);
            && q < |s'.requests|
            && (!s.requests[q].Arrived? ==>
                  !s'.requests[q].Arrived? && s'.requests[q].proxy == s.requests[q].proxy)
            && (s.requests[q].Arrived? && s'.requests[q].GotProxy? ==> s'.requests[q].proxy == s.proxyGen)
            && (s.requests[q].GotProxy? && s'.requests[q].GotBoth? ==> s'.requests[q].wasm == s.wasmGen)
  {
    hide Build, SetFlag, Advance;
  }

  lemma {:induction false} ProxyKept(tr: seq<State>, a: nat, b: nat, q: nat)
    requires Run(tr) && a <= b < |tr| && q < |tr[a].requests| && !tr[a].requests[q].Arrived?
    ensures q < |tr[b].requests| && !tr[b].requests[q].Arrived?
    ensures tr[b].requests[q].proxy == tr[a].requests[q].proxy
    decreases b
  {
    hide Run, Next, Enabled, Apply;
    if a == b {
    } else {
      ProxyKept(tr, a, b - 1, q);
      var step := StepOf(tr, b - 1);
      ProxyKeptStep(tr[b - 1], step, q);
    }
  }

  /**
   A request gets the two tables that were published when it loaded them, and they
   are of one generation exactly when the wasm table was not stored in between, or
   once if the first load fell between the two stores of a reload.
   */
  lemma SameGenerationIff(tr: seq<State>, a: nat, b: nat, q: nat)
    requires Run(tr) && a < b && LoadsProxyAt(tr, a, q) && LoadsWasmAt(tr, b, q)
    ensures tr[b + 1].requests[q] == GotBoth(tr[a].proxyGen, tr[b].wasmGen)
    ensures tr[a].proxyGen == tr[b].wasmGen <==> WasmStores(tr, a, b) == One(tr[a].watcher.Half?)
  {
    InvRun(tr, a);
    assert tr[a].proxyGen == tr[a].wasmGen + One(tr[a].watcher.Half?);
    hide Run, Inv, Enabled, Apply;
    var load := StepOf(tr, a);
    ProxyKeptStep(tr[a], load, q);
    ProxyKept(tr, a + 1, b, q);
    var loadWasm := StepOf(tr, b);
    ProxyKeptStep(tr[b], loadWasm, q);
    WasmGenCounts(tr, a, b);
  }

  // ---------------------------------------------------------------------
  // Upstreams
  // ---------------------------------------------------------------------

  /**
   Whatever is reloaded meanwhile, an upstream is a target of the matched route of
   the one proxy table that the request loaded.
   */
  lemma UpstreamFromOwnTable(tr: seq<State>, a: nat, b: nat, q: nat)
    requires Run(tr) && a < b < |tr| && LoadsProxyAt(tr, a, q)
    requires q < |tr[b].requests| && tr[b].requests[q].Picked?
    ensures var s, r := tr[b], tr[b].requests[q];
            && r.proxy == tr[a].proxyGen < |s.gens| && s.gens[r.proxy].version < |s.disk|
            && HasRoutesOf(s.gens[r.proxy], s.disk[s.gens[r.proxy].version])
            && r.route < |s.gens[r.proxy].routes| && r.target < s.gens[r.proxy].routes[r.route]
  {
    InvRun(tr, b);
    var load := StepOf(tr, a);
    ProxyKeptStep(tr[a], load, q);
    ProxyKept(tr, a + 1, b, q);
    assert RequestOk(tr[b], tr[b].requests[q]);
  }

  /** The step in which a request picks a target finds its latest probe good, or the target not probed yet. */
  lemma PickedIsHealthy(tr: seq<State>, k: nat, q: nat)
    requires Run(tr) && k + 1 < |tr| && q < |tr[k].requests| && tr[k].requests[q].Drawn?
    requires q < |tr[k + 1].requests| && !tr[k + 1].requests[q].Drawn?
    ensures var r, r' := tr[k].requests[q], tr[k + 1].requests[q];
            && (r'.Picked? <==> Latest(tr[k].probes, r.proxy, r.route, r.target))
            && (r'.Picked? ==> r' == Picked(r.proxy, r.route, r.target))
  {
    InvRun(tr, k);
    var step := StepOf(tr, k);
    LoadedFlag(tr[k], step, q);
    var r := tr[k].requests[q];
    assert HasTarget(tr[k].gens, r.proxy, r.route, r.target);
  }

  lemma LoadedFlag(s: State, step: Step, q: nat)
    requires Enabled(s, step) && q < |s.requests| && s.requests[q].Drawn?
    requires q < |Apply(s, step).requests| && !Apply(s, step).requests[q].Drawn?
    ensures var r, r' := s.requests[q], Apply(s, step).requests[q];
            && HasTarget(s.gens, r.proxy, r.route, r.target) && r' == AfterLoad(s.gens, r)
  {
    hide Build, SetFlag, Advance, AfterLoad, DrawTicket, CanDraw;
  }

  lemma {:induction false} UniqueChecker(checkers: seq<Checker>, g: nat)
    requires CheckersOf(checkers, g) == 1
    ensures exists k :: 0 <= k < |checkers| && checkers[k].gen == g
    ensures forall j, k | 0 <= j < k < |checkers| :: !(checkers[j].gen == g && checkers[k].gen == g)
  {
    var n := |checkers| - 1;
    if checkers[n].gen == g {
      NoneMeansNone(checkers[..n], g);
      forall j | 0 <= j < n ensures checkers[j].gen != g { assert checkers[..n][j] == checkers[j]; }
    } else {
      UniqueChecker(checkers[..n], g);
      var k :| 0 <= k < n && checkers[..n][k].gen == g;
      assert checkers[k].gen == g;
      assert forall i | 0 <= i < n :: checkers[..n][i] == checkers[i];
    }
  }

  lemma {:induction false} NoneMeansNone(checkers: seq<Checker>, g: nat)
    requires CheckersOf(checkers, g) == 0
    ensures forall k | 0 <= k < |checkers| :: checkers[k].gen != g
  {
    if checkers == [] {
    } else {
      var n := |checkers| - 1;
      NoneMeansNone(checkers[..n], g);
      assert forall i | 0 <= i < n :: checkers[..n][i] == checkers[i];
    }
  }

  ghost predicate OneChecker(s: State, g: nat) {
    && (exists k :: 0 <= k < |s.checkers| && s.checkers[k].gen == g)
    && (forall j, k | 0 <= j < k < |s.checkers| :: !(s.checkers[j].gen == g && s.checkers[k].gen == g))
  }

  /**
   Over all runs with reloads: every proxy table that a request holds, or could
   load next, has exactly one checker if it has routes; and every flag is true if
   its target was never probed, and the latest result otherwise, all probes of a
   table's targets having been made by a checker of that table.
   */
  lemma CheckerOwnership(tr: seq<State>, k: nat, g: nat)
    requires Run(tr) && k < |tr| && tr[k].main.Serving?
    requires g <= tr[k].proxyGen
    ensures var s := tr[k];
            && g < |s.gens|
            && (s.gens[g].routes != [] ==> OneChecker(s, g))
            && (forall r: nat, i: nat | HasTarget(s.gens, g, r, i) ::
                  FlagOf(s.gens, g, r, i) == Latest(s.probes, g, r, i))
            && (forall i | 0 <= i < |s.probes| && s.probes[i].gen == g ::
                  s.probes[i].checker < |s.checkers| && s.checkers[s.probes[i].checker].gen == g)
  {
    InvRun(tr, k);
    var s := tr[k];
    if s.gens[g].routes != [] { UniqueChecker(s.checkers, g); }
  }

  /** The step is a probe of this target by a checker of its own generation. */
  ghost predicate Probes(s: State, step: Step, g: nat, r: nat, i: nat) {
    step.ProbeNext? && step.k < |s.checkers| && s.checkers[step.k] == Checker(g, r, i)
  }

  ghost predicate FlagIs(gens: seq<Gen>, g: nat, r: nat, i: nat, up: bool) {
    HasTarget(gens, g, r, i) && FlagOf(gens, g, r, i) == up
  }

  lemma ProbeKeeps(s: State, k: nat, ok: bool, g: nat, r: nat, i: nat, up: bool)
    requires Enabled(s, ProbeNext(k, ok)) && FlagIs(s.gens, g, r, i, up)
    ensures FlagIs(Apply(s, ProbeNext(k, ok)).gens, g, r, i, up) || Probes(s, ProbeNext(k, ok), g, r, i)
  {
    hide Advance;
  }

  /** A flag changes only by a probe of a checker of its own generation. */
  lemma FlagWriter(s: State, step: Step, g: nat, r: nat, i: nat, up: bool)
    requires Inv(s) && Enabled(s, step) && FlagIs(s.gens, g, r, i, up)
    ensures FlagIs(Apply(s, step).gens, g, r, i, up) || Probes(s, step, g, r, i)
  {
    assert step.BootLoad? ==> s.gens == [];
    GensKept(s, step);
    hide Inv;
    if step.ProbeNext? {
      ProbeKeeps(s, step.k, step.ok, g, r, i, up);
    } else if step.Draw? {
      DrawKeeps(s, step.q, g, r, i, up);
    } else {
      hide Apply, Enabled;
    }
  }

  lemma DrawKeeps(s: State, q: nat, g: nat, r: nat, i: nat, up: bool)
    requires Enabled(s, Draw(q)) && FlagIs(s.gens, g, r, i, up)
    ensures FlagIs(Apply(s, Draw(q)).gens, g, r, i, up)
  {
  }

  /**
   Checkers are never stopped: at any time there is one for every generation with
   routes that was ever served, and their number never goes down.
   */
  lemma CheckersAccumulate(tr: seq<State>, a: nat, b: nat)
    requires Run(tr) && a <= b < |tr| && tr[b].main.Serving? && !tr[b].watcher.Loaded?
    ensures |tr[b].checkers| == Routed(tr[b].gens, |tr[b].gens|)
    ensures |tr[a].checkers| <= |tr[b].checkers|
  {
    InvRun(tr, b);
    CheckersGrow(tr, a, b);
  }

  lemma {:induction false} CheckersGrow(tr: seq<State>, a: nat, b: nat)
    requires Run(tr) && a <= b < |tr|
    ensures |tr[a].checkers| <= |tr[b].checkers|
    decreases b
  {
    hide Run, Next, Enabled, Apply;
    if a == b {
    } else {
      CheckersGrow(tr, a, b - 1);
      var step := StepOf(tr, b - 1);
      CheckersStay(tr[b - 1], step);
    }
  }

  // ---------------------------------------------------------------------
  // Convergence
  // ---------------------------------------------------------------------

  /** The last version is a file, and no earlier one has its modification time. */
  ghost predicate NewTime(h: seq<File>) {
    && h != [] && h[|h| - 1].File?
    && forall i | 0 <= i < |h| - 1 && h[i].File? :: h[i].mtime != h[|h| - 1].mtime
  }

  /** The watcher is at its loop head and remembers the time of the file on disk. */
  ghost predicate UpToDate(s: State) {
    s.disk != [] && Current(s).File? && s.watcher == Head(Some(Current(s).mtime))
  }

  /** The watcher has reloaded, or nothing was written between the load at startup and its first look. */
  ghost predicate Watched(s: State) {
    0 < s.proxyGen || (s.gens != [] && s.gens[0].version == s.bootStat)
  }

  /** Both published tables are those of the file on disk. */
  ghost predicate TablesCurrent(s: State) {
    && s.wasmGen == s.proxyGen < |s.gens| && s.gens[s.proxyGen].version == |s.disk| - 1
    && s.disk != [] && HasRoutesOf(s.gens[s.proxyGen], Current(s))
  }

  /**
   When the watcher sees nothing new and the file's time is new in its history,
   both published tables are those of the file on disk, exactly when the watcher
   has reloaded at least once or missed no write during startup.
   */
  lemma ReloadConvergesIff(tr: seq<State>, k: nat)
    requires Run(tr) && k < |tr| && UpToDate(tr[k]) && NewTime(tr[k].disk)
    ensures TablesCurrent(tr[k]) <==> Watched(tr[k])
  {
    InvRun(tr, k);
    InvParts(tr[k]);
    hide Inv, LeakInv, Run;
    var s := tr[k];
    assert s.lastStat == |s.disk| - 1;
  }

  /** Whatever the watcher did: with history `h`, if it sees nothing new, the tables are current. */
  ghost predicate Converges(h: seq<File>) {
    forall tr: seq<State> | Run(tr) && ConvergingEnd(tr, h) :: TablesCurrent(LastOf(tr))
  }

  ghost predicate ConvergingEnd(tr: seq<State>, h: seq<File>) {
    tr != [] && LastOf(tr).disk == h && UpToDate(LastOf(tr)) && Watched(LastOf(tr))
  }

  /**
   For every history of the file: a watcher that missed no write during startup
   and sees nothing new has published the last version, in every run, exactly
   when no earlier version has its modification time.
   */
  lemma HistoryConvergesIff(h: seq<File>)
    requires h != [] && h[|h| - 1].File?
    ensures Converges(h) <==> NewTime(h)
  {
    if NewTime(h) {
      forall tr: seq<State> | Run(tr) && ConvergingEnd(tr, h) ensures TablesCurrent(LastOf(tr)) {
        ReloadConvergesIff(tr, |tr| - 1);
      }
    } else {
      var i: nat :| i < |h| - 1 && h[i].File? && h[i].mtime == h[|h| - 1].mtime;
      var tr := SameTimeIsMissed(h, i);
      assert ConvergingEnd(tr, h) && !TablesCurrent(LastOf(tr));
    }
  }

  /** Without any condition on times: what is published is not newer than the file, nor older than the last look. */
  lemma PublishedVersionBounds(tr: seq<State>, k: nat)
    requires Run(tr) && k < |tr| && tr[k].watcher.Head?
    ensures var s := tr[k];
            && s.proxyGen < |s.gens| && s.gens[s.proxyGen].version < |s.disk|
            && (0 < s.proxyGen ==> s.lastStat <= s.gens[s.proxyGen].version)
            && (s.proxyGen == 0 ==> s.gens[0].version <= s.bootStat == s.lastStat)
  {
    InvRun(tr, k);
    InvParts(tr[k]);
    hide Inv, LeakInv, Run;
  }

  /** One undisturbed pass of the watcher over a changed file publishes that file. */
  lemma ReloadCycle(s: State) returns (s': State)
    requires Inv(s) && s.disk != [] && s.watcher.Head? && Current(s).File? && s.watcher.last != Some(Current(s).mtime)
    ensures s'.disk == s.disk && s'.watcher == Head(Some(Current(s).mtime)) && |s'.gens| == |s.gens| + 1
    ensures s'.proxyGen == s'.wasmGen == |s.gens| && s'.gens[|s.gens|] == Build(s)
    ensures Inv(s')
  {
    hide Build, Inv;
    var s1 := Apply(s, Poll);
    InvStep(s, Poll);
    var s2 := Apply(s1, LoadConfig);
    InvStep(s1, LoadConfig);
    assert Build(s1) == Build(s) by { BuildSame(s, s1); }
    var s3 := Apply(s2, SpawnChecker);
    InvStep(s2, SpawnChecker);
    var s4 := Apply(s3, StoreProxy);
    InvStep(s3, StoreProxy);
    s' := Apply(s4, StoreWasm);
    InvStep(s4, StoreWasm);
  }

  lemma BuildSame(s: State, t: State)
    requires s.disk != [] && t.disk == s.disk
    ensures Build(t) == Build(s)
  {
  }

  // ---------------------------------------------------------------------
  // What goes wrong without the conditions
  // ---------------------------------------------------------------------

  function LastOf(tr: seq<State>): State
    requires tr != []
  {
    tr[|tr| - 1]
  }

  lemma Extend(tr: seq<State>, step: Step) returns (tr': seq<State>)
    requires Run(tr) && Enabled(LastOf(tr), step)
    ensures Run(tr') && LastOf(tr') == Apply(LastOf(tr), step)
  {
    tr' := tr + [Apply(LastOf(tr), step)];
    forall k | 0 <= k < |tr'| - 1 ensures Next(tr'[k], tr'[k + 1]) {
      if k < |tr| - 1 { assert Next(tr[k], tr[k + 1]); }
    }
  }

  lemma {:induction false} WriteAll(tr: seq<State>, files: seq<File>) returns (tr': seq<State>)
    requires Run(tr) && LastOf(tr).disk != []
    ensures Run(tr') && LastOf(tr') == LastOf(tr).(disk := LastOf(tr).disk + files)
    decreases files
  {
    if files == [] {
      tr' := tr;
      assert LastOf(tr).disk + [] == LastOf(tr).disk;
    } else {
      var next := Extend(tr, Write(files[0]));
      tr' := WriteAll(next, files[1..]);
      assert LastOf(tr).disk + files == LastOf(tr).disk + [files[0]] + files[1..];
    }
  }

  /** A run that has written the history `h` and nothing else. */
  lemma Written(h: seq<File>) returns (tr: seq<State>)
    requires h != []
    ensures Run(tr) && LastOf(tr) == State(h, Loading, NotStarted, [], 0, 0, [], [], [], [], 0, 0)
  {
    tr := [State([h[0]], Loading, NotStarted, [], 0, 0, [], [], [], [], 0, 0)];
    tr := WriteAll(tr, h[1..]);
    assert [h[0]] + h[1..] == h;
  }

  /** A run that loads the history `h`, serves, sees `more` written, and takes its first look. */
  lemma BootRun(h: seq<File>, more: seq<File>) returns (tr: seq<State>)
    requires h != []
    ensures Run(tr)
    ensures var s := LastOf(tr);
            && s.disk == h + more && s.watcher == Head(MtimeOf(s.disk[|s.disk| - 1])) && s.main.Serving?
            && s.gens == [Tables(|h| - 1, RoutesOf(h[|h| - 1]))] && s.proxyGen == s.wasmGen == 0
            && s.bootStat == |s.disk| - 1 && s.requests == []
  {
    hide Run, Tables, RoutesOf;
    tr := Written(h);
    tr := Extend(tr, BootLoad);
    tr := WriteAll(tr, more);
    tr := Extend(tr, BootServe);
    tr := Extend(tr, StatFirst);
  }

  /**
   Any write during startup is missed: the watcher sees nothing new, also when all
   times are distinct, and the tables are those of the file before.
   */
  lemma StartupRaceIsMissed(h: seq<File>, more: seq<File>) returns (tr: seq<State>)
    requires h != [] && more != [] && more[|more| - 1].File?
    ensures Run(tr) && LastOf(tr).disk == h + more && UpToDate(LastOf(tr))
    ensures LastOf(tr).proxyGen == 0 && |LastOf(tr).gens| == 1 && LastOf(tr).gens[0].version == |h| - 1
    ensures !TablesCurrent(LastOf(tr))
  {
    tr := BootRun(h, more);
  }

  /**
   Any history whose last time is that of an earlier version `i` can be missed,
   also when startup was undisturbed.
   */
  lemma SameTimeIsMissed(h: seq<File>, i: nat) returns (tr: seq<State>)
    requires i < |h| - 1 && h[i].File? && h[|h| - 1].File? && h[i].mtime == h[|h| - 1].mtime
    ensures Run(tr) && LastOf(tr).disk == h && UpToDate(LastOf(tr)) && Watched(LastOf(tr))
    ensures !TablesCurrent(LastOf(tr))
  {
    hide Run, RoutesOf, AllUp;
    tr := BootRun(h[..i + 1], []);
    tr := WriteAll(tr, h[i + 1..]);
    assert h[..i + 1] + [] + h[i + 1..] == h;
  }

  /** A run in which a reload has stored its proxy table, but not its wasm table yet. */
  lemma HalfReloaded() returns (tr: seq<State>)
    ensures Run(tr)
    ensures var s := LastOf(tr);
            s.main.Serving? && s.disk != [] && s.proxyGen == 1 && s.wasmGen == 0 && s.requests == []
  {
    hide Run, Tables, WithChecker;
    tr := BootRun([File(1, [1])], []);
    tr := Extend(tr, Write(File(2, [2])));
    tr := Extend(tr, Poll);
    tr := Extend(tr, LoadConfig);
    tr := Extend(tr, SpawnChecker);
    tr := Extend(tr, StoreProxy);
  }

  /**
   The bound of `TableSkew` is reached: a request can route with the new proxy
   table and the old wasm table, so it does not see one snapshot of the file.
   */
  lemma RequestMayMixGenerations() returns (tr: seq<State>)
    ensures Run(tr)
    ensures LastOf(tr).requests == [GotBoth(1, 0)]
  {
    hide Run;
    tr := HalfReloaded();
    tr := Extend(tr, Arrive);
    tr := Extend(tr, LoadProxy(0));
    tr := Extend(tr, LoadWasm(0));
  }
}
