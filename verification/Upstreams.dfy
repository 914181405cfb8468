/**
 One proxy route and its upstream targets (`src/proxy/mod.rs`): the mutable
 objects, the round-robin pick, and what a task running alone observes.
 The interleaved behaviour of many tasks is in module Balancer.
 */
module Upstreams {
  import opened Arithmetic
  import opened Results
  import opened Tickets

  // ---------------------------------------------------------------------
  // Specification: probing from ticket `t`
  // ---------------------------------------------------------------------

  /** What a pick returns: the chosen target, if any, and how many tickets it drew. */
  datatype Pick = Pick(target: Option<nat>, drawn: nat)

  /** Ticket `t` meets a healthy target. */
  predicate Up(health: seq<bool>, t: nat)
    requires health != []
  {
    health[Slot(t, |health|)]
  }

  /** None of the tickets `[from, to)` meets a healthy target. */
  ghost predicate AllDown(health: seq<bool>, from: nat, to: nat)
    requires health != []
  {
    forall t: nat | from <= t < to :: !Up(health, t)
  }

  function Probe(health: seq<bool>, t: nat, tries: nat): (p: Pick)
    requires health != []
    ensures p.drawn <= tries
    ensures p.target.Some? ==> p.target.value < |health|
    decreases tries
  {
    if tries == 0 then Pick(None, 0)
    else if Up(health, t) then Pick(Some(Slot(t, |health|)), 1)
    else
      var rest := Probe(health, t + 1, tries - 1);
      Pick(rest.target, rest.drawn + 1)
  }

  /** The result of `pick_upstream` when no other task touches the route. */
  function PickAlone(health: seq<bool>, t: nat): Pick {
    if health == [] then Pick(None, 0) else Probe(health, t, |health|)
  }

  /** A probe sequence stops at the first healthy target and draws exactly that many tickets. */
  lemma {:induction false} ProbeFindsFirst(health: seq<bool>, t: nat, tries: nat)
    requires health != []
    ensures var p := Probe(health, t, tries);
            match p.target
            case Some(i) =>
              && 0 < p.drawn && Up(health, t + p.drawn - 1) && i == Slot(t + p.drawn - 1, |health|)
              && AllDown(health, t, t + p.drawn - 1)
            case None =>
              p.drawn == tries && AllDown(health, t, t + tries)
    decreases tries
  {
    if tries == 0 || Up(health, t) {
    } else {
      ProbeFindsFirst(health, t + 1, tries - 1);
    }
  }

  /** The converse: the first healthy ticket within reach is the one that is picked. */
  lemma {:induction false} ProbeStopsAt(health: seq<bool>, t: nat, tries: nat, u: nat)
    requires health != [] && t <= u < t + tries
    requires Up(health, u) && AllDown(health, t, u)
    ensures Probe(health, t, tries) == Pick(Some(Slot(u, |health|)), u - t + 1)
    decreases tries
  {
    hide Up;
    if t == u {
    } else {
      ProbeStopsAt(health, t + 1, tries - 1, u);
    }
  }

  ghost predicate AllUnhealthy(health: seq<bool>) {
    forall i | 0 <= i < |health| :: !health[i]
  }

  /** Whatever the flags are, a lone call fails only when every target is unhealthy. */
  ghost predicate FailsOnlyWhenAllUnhealthy(n: nat, t: nat) {
    forall health: seq<bool> | |health| == n ::
      PickAlone(health, t).target.None? <==> AllUnhealthy(health)
  }

  /**
   "No healthy upstream" means what it says, whatever the flags are, exactly
   when the lap of `n` tickets is not cut by a wrap of the counter.
   */
  lemma LoneNoneIff(n: nat, t: nat)
    requires 0 < n < USIZE
    ensures FailsOnlyWhenAllUnhealthy(n, t) <==> Fits(n, t, n)
  {
    if Fits(n, t, n) {
      forall health: seq<bool> | |health| == n
        ensures PickAlone(health, t).target.None? <==> AllUnhealthy(health)
      {
        LoneNone(health, t);
      }
    } else {
      CutLapSkips(n, t, 0);
      var lost := Skipped(n, t);
      var health := seq(n, i => i == lost);
      assert health[lost];
      ProbeFindsFirst(health, t, n);
      var p := PickAlone(health, t);
      if p.target.Some? { CutLapSkips(n, t, p.drawn - 1); }
    }
  }

  lemma LoneNone(health: seq<bool>, t: nat)
    requires health != [] && Fits(|health|, t, |health|)
    ensures PickAlone(health, t).target.None? <==> AllUnhealthy(health)
  {
    var n := |health|;
    ProbeFindsFirst(health, t, n);
    if PickAlone(health, t).target.None? {
      forall i | 0 <= i < n ensures !health[i] {
        var k := LapReaches(n, t, i);
        assert !Up(health, t + k);
      }
    }
  }

  lemma SlotsAtWrap(t: nat)
    requires t == USIZE - 1
    ensures Slot(t, 3) == 0 && Slot(t + 1, 3) == 0 && Slot(t + 2, 3) == 1
  {
    DivModUnique(t, 3, 0x5555_5555_5555_5555, 0);
    DivModUnique(0, 3, 0, 0);
    DivModUnique(1, 3, 0, 1);
  }

  /** Three targets, the counter one step from its wrap: the healthy target 2 is never probed. */
  lemma WrapHidesHealthyTarget(health: seq<bool>, t: nat)
    requires health == [false, false, true] && t == USIZE - 1
    ensures PickAlone(health, t).target.None? && !AllUnhealthy(health)
  {
    SlotsAtWrap(t);
    forall u: nat | t <= u < t + 3 ensures !Up(health, u) {
      assert u == t || u == t + 1 || u == t + 2;
    }
    ProbeFindsFirst(health, t, 3);
    assert health[2];
  }

  // ---------------------------------------------------------------------
  // Consecutive picks
  // ---------------------------------------------------------------------

  /** The targets of `count` picks made one after the other, starting at ticket `t`. */
  ghost function Picks(health: seq<bool>, t: nat, count: nat): seq<Option<nat>>
    requires health != []
    decreases count
  {
    if count == 0 then []
    else
      var p := PickAlone(health, t);
      [p.target] + Picks(health, t + p.drawn, count - 1)
  }

  /** The healthy targets met by the tickets `[from, end)`, in ticket order. */
  ghost function Hits(health: seq<bool>, from: nat, end: nat): (hits: seq<nat>)
    requires health != [] && from <= end
    decreases end - from
  {
    if from == end then []
    else (if Up(health, from) then [Slot(from, |health|)] else []) + Hits(health, from + 1, end)
  }

  ghost function HealthySet(health: seq<bool>): set<nat> {
    set i: nat | i < |health| && health[i]
  }

  lemma {:induction false} HitsSkip(health: seq<bool>, from: nat, end: nat, u: nat)
    requires health != [] && from <= u <= end && AllDown(health, from, u)
    ensures Hits(health, from, end) == Hits(health, u, end)
    decreases u - from
  {
    hide Up;
    if from == u {
    } else {
      HitsSkip(health, from + 1, end, u);
    }
  }

  ghost function Somes(s: seq<nat>): seq<Option<nat>> {
    seq(|s|, k requires 0 <= k < |s| => Some(s[k]))
  }

  lemma HitsHead(health: seq<bool>, from: nat, end: nat, u: nat)
    requires health != [] && from <= u < end && Up(health, u) && AllDown(health, from, u)
    ensures Hits(health, from, end) == [Slot(u, |health|)] + Hits(health, u + 1, end)
  {
    HitsSkip(health, from, end, u);
    hide Up, AllDown;
  }

  lemma PicksHead(health: seq<bool>, from: nat, count: nat, u: nat)
    requires health != [] && from <= u < from + |health| && Up(health, u) && AllDown(health, from, u) && 0 < count
    ensures Picks(health, from, count) == [Some(Slot(u, |health|))] + Picks(health, u + 1, count - 1)
  {
    hide Up, AllDown, Probe;
    ProbeStopsAt(health, from, |health|, u);
  }

  /** Picks made in a row return the hits of the window in order, as long as hits remain. */
  lemma {:induction false} PicksAreHits(health: seq<bool>, from: nat, end: nat, count: nat)
    requires health != [] && from <= end <= from + |health|
    requires count <= |Hits(health, from, end)|
    ensures Picks(health, from, count) == Somes(Hits(health, from, end)[..count])
    decreases count
  {
    if count == 0 {
    } else {
      hide Up, AllDown, Hits, Picks;
      var u := FirstHit(health, from, end);
      HitsHead(health, from, end, u);
      PicksHead(health, from, count, u);
      PicksAreHits(health, u + 1, end, count - 1);
      var rest := Hits(health, u + 1, end);
      assert Hits(health, from, end)[..count] == [Slot(u, |health|)] + rest[..count - 1];
    }
  }

  lemma {:induction false} FirstHit(health: seq<bool>, from: nat, end: nat) returns (u: nat)
    requires health != [] && from <= end && Hits(health, from, end) != []
    ensures from <= u < end && Up(health, u) && AllDown(health, from, u)
    decreases end - from
  {
    hide Up;
    if Up(health, from) {
      u := from;
    } else {
      u := FirstHit(health, from + 1, end);
    }
  }

  ghost predicate Distinct(s: seq<nat>) {
    forall j, k | 0 <= j < k < |s| :: s[j] != s[k]
  }

  /** Each hit comes from one ticket of the window, and the later hits from later tickets. */
  lemma {:induction false} HitFrom(health: seq<bool>, from: nat, end: nat, h: nat) returns (u: nat)
    requires health != [] && from <= end && h < |Hits(health, from, end)|
    ensures from <= u < end && Up(health, u) && Hits(health, from, end)[h] == Slot(u, |health|)
    ensures Hits(health, u + 1, end) == Hits(health, from, end)[h + 1..]
    decreases end - from
  {
    if Up(health, from) && h == 0 {
      u := from;
    } else {
      u := HitFrom(health, from + 1, end, if Up(health, from) then h - 1 else h);
    }
  }

  lemma {:induction false} HitsContain(health: seq<bool>, from: nat, end: nat, u: nat)
    requires health != [] && from <= u < end && Up(health, u)
    ensures Slot(u, |health|) in Hits(health, from, end)
    decreases u - from
  {
    if from == u {
    } else {
      HitsContain(health, from + 1, end, u);
    }
  }

  lemma LapHitsDistinct(health: seq<bool>, t: nat)
    requires health != [] && Fits(|health|, t, |health|)
    ensures Distinct(Hits(health, t, t + |health|))
  {
    var n := |health|;
    var hits := Hits(health, t, t + n);
    forall x, y | 0 <= x < y < |hits| ensures hits[x] != hits[y] {
      var u := HitFrom(health, t, t + n, x);
      var v := HitFrom(health, u + 1, t + n, y - x - 1);
      if hits[x] == hits[y] { LapInjective(n, t, u - t, v - t); }
    }
  }

  ghost function Elements(s: seq<nat>): set<nat> {
    set i | i in s
  }

  lemma LapHitsAll(health: seq<bool>, t: nat)
    requires health != [] && Fits(|health|, t, |health|)
    ensures Elements(Hits(health, t, t + |health|)) == HealthySet(health)
  {
    var n := |health|;
    var hits := Hits(health, t, t + n);
    forall i | i in hits ensures i in HealthySet(health) {
      var h :| 0 <= h < |hits| && hits[h] == i;
      var u := HitFrom(health, t, t + n, h);
    }
    forall i | i in HealthySet(health) ensures i in hits {
      var k := LapReaches(n, t, i);
      HitsContain(health, t, t + n, t + k);
    }
  }

  lemma {:induction false} DistinctIsSet(s: seq<nat>)
    requires Distinct(s)
    ensures multiset(s) == multiset(Elements(s))
    ensures |s| == |Elements(s)|
  {
    if s == [] {
    } else {
      var init, last := s[..|s| - 1], s[|s| - 1];
      DistinctIsSet(init);
      assert s == init + [last];
      assert Elements(s) == Elements(init) + {last};
      assert last !in init;
    }
  }

  /** `order` lists the healthy targets, each once, and `picks` returns them in that order. */
  ghost predicate RoundOf(health: seq<bool>, picks: seq<Option<nat>>, order: seq<nat>) {
    picks == Somes(order) && multiset(order) == multiset(HealthySet(health))
  }

  /**
   With `h` healthy targets, any `h` picks in a row return every healthy target
   exactly once, unless the counter wraps within the lap.
   */
  lemma HealthyRoundRobin(health: seq<bool>, t: nat)
    requires health != [] && Fits(|health|, t, |health|)
    ensures exists order :: RoundOf(health, Picks(health, t, |HealthySet(health)|), order)
  {
    var order := Hits(health, t, t + |health|);
    LapHitsDistinct(health, t);
    LapHitsAll(health, t);
    DistinctIsSet(order);
    PicksAreHits(health, t, t + |health|, |order|);
    assert order[..|order|] == order;
    assert RoundOf(health, Picks(health, t, |HealthySet(health)|), order);
  }

  /** Wrapping additions add up to the number of tickets drawn. */
  lemma BumpTicket(start: nat, k: nat)
    ensures Bump((start + k) % USIZE) == (start + k + 1) % USIZE
  {
  }

  // ---------------------------------------------------------------------
  // The objects
  // ---------------------------------------------------------------------

  class UpstreamTarget {
    const addr: string
    var healthy: bool

    /** Healthy until the first check proves otherwise. */
    constructor (addr: string)
      ensures this.addr == addr && healthy
    {
      this.addr := addr;
      healthy := true;
    }
  }

  class ProxyRoute {
    const prefix: string
    const targets: seq<UpstreamTarget>
    var counter: usize

    ghost predicate Valid() {
      && |targets| < USIZE
      && forall i, j | 0 <= i < j < |targets| :: targets[i] != targets[j]
    }

    ghost function Health(): (health: seq<bool>)
      reads targets
      ensures |health| == |targets|
    {
      seq(|targets|, i reads targets requires 0 <= i < |targets| => targets[i].healthy)
    }

    /** One entry of `from_config`: fresh targets, all healthy, and a counter at zero. */
    constructor (prefix: string, upstreams: seq<string>)
      requires |upstreams| < USIZE
      ensures Valid() && this.prefix == prefix && counter == 0
      ensures |targets| == |upstreams|
      ensures forall i | 0 <= i < |targets| :: fresh(targets[i]) && targets[i].addr == upstreams[i]
      ensures forall i | 0 <= i < |targets| :: Health()[i]
    {
      var made: seq<UpstreamTarget> := [];
      for k := 0 to |upstreams|
        invariant |made| == k
        invariant forall i | 0 <= i < k :: fresh(made[i]) && made[i].addr == upstreams[i] && made[i].healthy
        invariant forall i, j | 0 <= i < j < k :: made[i] != made[j]
      {
        var target := new UpstreamTarget(upstreams[k]);
        made := made + [target];
      }
      this.prefix := prefix;
      targets := made;
      counter := 0;
    }

    /** The atomic `fetch_add(1)` of the counter: returns the old value, wraps at 2^64. */
    method FetchAdd() returns (before: usize)
      modifies this`counter
      ensures before == old(counter) && counter == Bump(old(counter))
    {
      before := counter;
      counter := Bump(counter);
    }

    /** `pick_upstream` run by one task alone. */
    method PickUpstream() returns (addr: Option<string>)
      requires Valid()
      modifies this`counter
      ensures var p := PickAlone(Health(), old(counter));
              && counter == (old(counter) + p.drawn) % USIZE
              && addr == (if p.target.Some? then Some(targets[p.target.value].addr) else None)
    {
      hide Probe;
      var n := |targets|;
      if n == 0 { return None; }
      ghost var start, health := counter, Health();
      for tried := 0 to n
        invariant counter == (start + tried) % USIZE
        invariant AllDown(health, start, start + tried)
      {
        var ticket := FetchAdd();
        BumpTicket(start, tried);
        var idx := ticket % n;
        if targets[idx].healthy {
          assert Up(health, start + tried);
          ProbeStopsAt(health, start, n, start + tried);
          return Some(targets[idx].addr);
        }
        assert !Up(health, start + tried);
      }
      ProbeFindsFirst(health, start, n);
      return None;
    }

    /**
     One round of the health checker over this route: `reachable[i]` is what the
     connection attempt to target `i` found.
     */
    method CheckTargets(reachable: seq<bool>)
      requires Valid() && |reachable| == |targets|
      modifies targets
      ensures Health() == reachable
      ensures counter == old(counter)
    {
      for i := 0 to |targets|
        invariant forall k | 0 <= k < i :: targets[k].healthy == reachable[k]
      {
        var ok := reachable[i];
        targets[i].healthy := ok;
      }
    }
  }
}
