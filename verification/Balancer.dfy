/**
 Many tasks running `pick_upstream` on one route while the health checker stores
 flags (`src/proxy/mod.rs`). One step is one atomic operation: a `fetch_add`, a
 health load, or a health store. The log of tickets is history: entry `t` says
 who drew ticket `t`, which target it names and what its load found.
 */
module Balancer {
  import opened Arithmetic
  import opened Results
  import opened Tickets
  import opened Upstreams

  datatype Outcome = Pending | Hit | Miss

  datatype Ticket = Ticket(owner: nat, target: nat, outcome: Outcome)

  /** One call of `pick_upstream`, with the tickets it has drawn so far. */
  datatype Call =
    | Ready(tickets: seq<nat>)
    | Drawn(tickets: seq<nat>, idx: nat)
    | Done(tickets: seq<nat>, result: Option<nat>)

  datatype State = State(health: seq<bool>, counter: usize, log: seq<Ticket>, calls: seq<Call>)

  datatype Step =
    | Start
    | Draw(c: nat)
    | Load(c: nat)
    | Store(i: nat, ok: bool)

  ghost predicate Init(s: State) {
    && |s.health| < USIZE && (forall i | 0 <= i < |s.health| :: s.health[i])
    && s.counter == 0 && s.log == [] && s.calls == []
  }

  predicate Enabled(s: State, step: Step) {
    match step
    case Start => true
    case Draw(c) => c < |s.calls| && s.calls[c].Ready? && s.health != []
    case Load(c) =>
      && c < |s.calls| && s.calls[c].Drawn? && s.calls[c].tickets != []
      && s.calls[c].tickets[|s.calls[c].tickets| - 1] < |s.log|
      && s.calls[c].idx < |s.health|
    case Store(i, _) => i < |s.health|
  }

  function Apply(s: State, step: Step): State
    requires Enabled(s, step)
  {
    match step
    case Start =>
      s.(calls := s.calls + [if s.health == [] then Done([], None) else Ready([])])
    case Draw(c) =>
      var idx := s.counter % |s.health|;
      s.(counter := Bump(s.counter),
         log := s.log + [Ticket(c, idx, Pending)],
         calls := s.calls[c := Drawn(s.calls[c].tickets + [|s.log|], idx)])
    case Load(c) =>
      var ts, idx := s.calls[c].tickets, s.calls[c].idx;
      var t := ts[|ts| - 1];
      var hit := s.health[idx];
      s.(log := s.log[t := s.log[t].(outcome := if hit then Hit else Miss)],
         calls := s.calls[c :=
           if hit then Done(ts, Some(idx))
           else if |ts| < |s.health| then Ready(ts)
           else Done(ts, None)])
    case Store(i, ok) =>
      s.(health := s.health[i := ok])
  }

  ghost predicate Next(s: State, s': State) {
    exists step :: Enabled(s, step) && s' == Apply(s, step)
  }

  /** A finite run: any number of calls, any interleaving. */
  ghost predicate Run(tr: seq<State>) {
    && tr != [] && Init(tr[0])
    && forall k | 0 <= k < |tr| - 1 :: Next(tr[k], tr[k + 1])
  }

  // ---------------------------------------------------------------------
  // The invariant
  // ---------------------------------------------------------------------

  ghost predicate Increasing(ts: seq<nat>) {
    forall j, k | 0 <= j < k < |ts| :: ts[j] < ts[k]
  }

  ghost predicate Owns(s: State, c: nat, t: nat) {
    t < |s.log| && s.log[t].owner == c
  }

  ghost predicate CallInv(s: State, c: nat)
    requires c < |s.calls|
  {
    var call := s.calls[c];
    var ts, n := call.tickets, |s.health|;
    && Increasing(ts)
    && (forall k | 0 <= k < |ts| :: Owns(s, c, ts[k]))
    && (forall k | 0 <= k < |ts| - 1 :: s.log[ts[k]].outcome == Miss)
    && match call
       case Ready(_) => |ts| < n && (ts != [] ==> s.log[ts[|ts| - 1]].outcome == Miss)
       case Drawn(_, idx) =>
         && 0 < |ts| <= n
         && s.log[ts[|ts| - 1]].outcome == Pending && s.log[ts[|ts| - 1]].target == idx
       case Done(_, None) => |ts| == n && (ts != [] ==> s.log[ts[|ts| - 1]].outcome == Miss)
       case Done(_, Some(i)) =>
         && 0 < |ts| <= n
         && s.log[ts[|ts| - 1]].outcome == Hit && s.log[ts[|ts| - 1]].target == i
  }

  ghost predicate TicketInv(s: State, t: nat)
    requires t < |s.log| && s.health != []
  {
    var e := s.log[t];
    e.target == Slot(t, |s.health|) && e.owner < |s.calls| && t in s.calls[e.owner].tickets
  }

  ghost predicate Inv(s: State) {
    && |s.health| < USIZE
    && s.counter == |s.log| % USIZE
    && (s.log != [] ==> s.health != [])
    && (forall t | 0 <= t < |s.log| :: TicketInv(s, t))
    && (forall c | 0 <= c < |s.calls| :: CallInv(s, c))
  }

  lemma InvStep(s: State, step: Step)
    requires Inv(s) && Enabled(s, step)
    ensures Inv(Apply(s, step))
  {
    var s' := Apply(s, step);
    match step
    case Start => InvStart(s);
    case Draw(c) => InvDraw(s, c);
    case Load(c) => InvLoad(s, c);
    case Store(i, ok) =>
      forall t | 0 <= t < |s'.log| ensures TicketInv(s', t) { assert TicketInv(s, t); }
      forall c | 0 <= c < |s'.calls| ensures CallInv(s', c) { KeepCall(s, s', c); }
  }

  /** A call keeps its invariant when its own entries of the log do not change. */
  lemma KeepCall(s: State, s': State, c: nat)
    requires c < |s.calls| && CallInv(s, c)
    requires c < |s'.calls| && s'.calls[c] == s.calls[c] && |s'.health| == |s.health|
    requires |s.log| <= |s'.log|
    requires forall t | 0 <= t < |s.log| && s.log[t].owner == c :: s'.log[t] == s.log[t]
    ensures CallInv(s', c)
  {
    var ts := s.calls[c].tickets;
    forall k | 0 <= k < |ts| ensures Owns(s', c, ts[k]) && s'.log[ts[k]] == s.log[ts[k]] {
      assert Owns(s, c, ts[k]);
    }
  }

  lemma InvStart(s: State)
    requires Inv(s)
    ensures Inv(Apply(s, Start))
  {
    var s' := Apply(s, Start);
    forall t | 0 <= t < |s'.log| ensures TicketInv(s', t) { assert TicketInv(s, t); }
    forall c | 0 <= c < |s'.calls| ensures CallInv(s', c) {
      if c < |s.calls| { KeepCall(s, s', c); }
    }
  }

  lemma InvDraw(s: State, c: nat)
    requires Inv(s) && Enabled(s, Draw(c))
    ensures Inv(Apply(s, Draw(c)))
  {
    var s' := Apply(s, Draw(c));
    var ts, n := s.calls[c].tickets, |s.log|;
    var ts' := s'.calls[c].tickets;
    BumpTicket(0, n);
    forall t | 0 <= t < |s'.log| ensures TicketInv(s', t) {
      if t < n {
        assert TicketInv(s, t);
      } else {
        assert ts'[|ts|] == t;
      }
    }
    assert CallInv(s, c);
    forall k | 0 <= k < |ts'| ensures Owns(s', c, ts'[k]) {
      if k < |ts| { assert Owns(s, c, ts[k]); }
    }
    assert CallInv(s', c);
    hide CallInv;
    forall d | 0 <= d < |s'.calls| ensures CallInv(s', d) {
      if d != c { KeepCall(s, s', d); }
    }
  }

  lemma InvLoadOwn(s: State, c: nat)
    requires Inv(s) && Enabled(s, Load(c))
    ensures CallInv(Apply(s, Load(c)), c)
  {
    var s' := Apply(s, Load(c));
    var ts := s.calls[c].tickets;
    assert CallInv(s, c);
    assert forall k | 0 <= k < |ts| :: Owns(s, c, ts[k]) ==> Owns(s', c, ts[k]);
  }

  lemma InvLoad(s: State, c: nat)
    requires Inv(s) && Enabled(s, Load(c))
    ensures Inv(Apply(s, Load(c)))
  {
    var s' := Apply(s, Load(c));
    var ts := s.calls[c].tickets;
    assert CallInv(s, c);
    assert Owns(s, c, ts[|ts| - 1]);
    InvLoadOwn(s, c);
    hide CallInv;
    forall t | 0 <= t < |s'.log| ensures TicketInv(s', t) { assert TicketInv(s, t); }
    forall d | 0 <= d < |s'.calls| ensures CallInv(s', d) {
      if d != c { KeepCall(s, s', d); }
    }
  }

  /** Every state of every run satisfies the invariant. */
  lemma {:induction false} InvRun(tr: seq<State>, k: nat)
    requires Run(tr) && k < |tr|
    ensures Inv(tr[k]) && |tr[k].health| == |tr[0].health|
  {
    if k == 0 {
    } else {
      InvRun(tr, k - 1);
      var step := StepOf(tr, k - 1);
      InvStep(tr[k - 1], step);
    }
  }

  lemma StepOf(tr: seq<State>, k: nat) returns (step: Step)
    requires Run(tr) && k + 1 < |tr|
    ensures Enabled(tr[k], step) && tr[k + 1] == Apply(tr[k], step)
  {
    assert Next(tr[k], tr[k + 1]);
    step :| Enabled(tr[k], step) && tr[k + 1] == Apply(tr[k], step);
  }

  /** A flag is what the checker stored last, and only a store changes it; a store is possible at any time. */
  lemma HealthStep(s: State, step: Step, i: nat)
    requires Enabled(s, step) && i < |s.health|
    ensures var s' := Apply(s, step);
            && |s'.health| == |s.health|
            && (s'.health[i] != s.health[i] <==> step == Store(i, !s.health[i]))
            && (step.Store? ==> s'.log == s.log && s'.calls == s.calls && s'.counter == s.counter)
    ensures forall up :: Enabled(s, Store(i, up))
  {
  }

  /** A pending ticket is the last one of a call that is about to load its flag. */
  lemma PendingOwner(s: State, t: nat)
    requires Inv(s) && t < |s.log| && s.log[t].outcome == Pending
    ensures var c := s.log[t].owner;
            && c < |s.calls| && s.calls[c].Drawn? && s.calls[c].idx == s.log[t].target
            && s.calls[c].tickets != [] && s.calls[c].tickets[|s.calls[c].tickets| - 1] == t && Enabled(s, Load(c))
  {
    assert TicketInv(s, t);
    var c := s.log[t].owner;
    assert CallInv(s, c);
    var ts := s.calls[c].tickets;
    var k :| 0 <= k < |ts| && ts[k] == t;
  }

  /** A ticket that found its target healthy is the last one of a call that returned that target. */
  lemma HitOwner(s: State, t: nat)
    requires Inv(s) && t < |s.log| && s.log[t].outcome == Hit
    ensures var c := s.log[t].owner;
            && c < |s.calls| && s.calls[c].Done? && s.calls[c].result == Some(s.log[t].target)
  {
    assert TicketInv(s, t);
    var c := s.log[t].owner;
    assert CallInv(s, c);
    var ts := s.calls[c].tickets;
    var k :| 0 <= k < |ts| && ts[k] == t;
  }

  // ---------------------------------------------------------------------
  // Fairness
  // ---------------------------------------------------------------------

  /** How many finished calls returned target `i`. */
  ghost function Picked(calls: seq<Call>, i: nat): nat {
    if calls == [] then 0
    else
      var last := calls[|calls| - 1];
      Picked(calls[..|calls| - 1], i) + (if last.Done? && last.result == Some(i) then 1 else 0)
  }

  /** How many tickets for target `i` have outcome `o`. */
  ghost function Logged(log: seq<Ticket>, i: nat, o: Outcome): nat {
    if log == [] then 0
    else
      var last := log[|log| - 1];
      Logged(log[..|log| - 1], i, o) + (if last.target == i && last.outcome == o then 1 else 0)
  }

  lemma {:induction false} PickedUpdate(calls: seq<Call>, c: nat, call: Call, i: nat)
    requires c < |calls|
    ensures Picked(calls[c := call], i) + One(calls[c].Done? && calls[c].result == Some(i))
         == Picked(calls, i) + One(call.Done? && call.result == Some(i))
  {
    var m := |calls| - 1;
    var calls' := calls[c := call];
    if c < m {
      PickedUpdate(calls[..m], c, call, i);
      assert calls'[..m] == calls[..m][c := call];
    } else {
      assert calls'[..m] == calls[..m];
    }
  }

  lemma {:induction false} LoggedUpdate(log: seq<Ticket>, t: nat, e: Ticket, i: nat, o: Outcome)
    requires t < |log|
    ensures Logged(log[t := e], i, o) + One(log[t].target == i && log[t].outcome == o)
         == Logged(log, i, o) + One(e.target == i && e.outcome == o)
  {
    var m := |log| - 1;
    var log' := log[t := e];
    if t < m {
      LoggedUpdate(log[..m], t, e, i, o);
      assert log'[..m] == log[..m][t := e];
    } else {
      assert log'[..m] == log[..m];
    }
  }

  /** Every ticket is counted once, under the target its number names. */
  lemma {:induction false} LoggedTotal(log: seq<Ticket>, n: nat, i: nat)
    requires 0 < n && forall t | 0 <= t < |log| :: log[t].target == Slot(t, n)
    ensures Logged(log, i, Pending) + Logged(log, i, Hit) + Logged(log, i, Miss) == Share(n, 0, |log|, i)
  {
    if log == [] {
    } else {
      LoggedTotal(log[..|log| - 1], n, i);
    }
  }

  lemma CountDraw(s: State, c: nat, i: nat)
    requires Enabled(s, Draw(c))
    ensures var s' := Apply(s, Draw(c));
            && Picked(s'.calls, i) == Picked(s.calls, i)
            && Logged(s'.log, i, Hit) == Logged(s.log, i, Hit)
            && Logged(s'.log, i, Miss) == Logged(s.log, i, Miss)
  {
    var s' := Apply(s, Draw(c));
    var e := s'.log[|s.log|];
    assert s'.calls == s.calls[c := s'.calls[c]];
    PickedUpdate(s.calls, c, s'.calls[c], i);
    assert s'.log == s.log + [e] && s'.log[..|s.log|] == s.log;
  }

  lemma CountLoad(s: State, c: nat, i: nat)
    requires Inv(s) && Enabled(s, Load(c))
    ensures var s' := Apply(s, Load(c));
            var hit, here := s.health[s.calls[c].idx], s.calls[c].idx == i;
            && Picked(s'.calls, i) == Picked(s.calls, i) + One(hit && here)
            && Logged(s'.log, i, Hit) == Logged(s.log, i, Hit) + One(hit && here)
            && Logged(s'.log, i, Miss) == Logged(s.log, i, Miss) + One(!hit && here)
  {
    var s' := Apply(s, Load(c));
    assert CallInv(s, c);
    hide Inv, CallInv, Picked, Logged;
    var ts := s.calls[c].tickets;
    var t := ts[|ts| - 1];
    var e := s'.log[t];
    assert s.log[t].outcome == Pending && s.log[t].target == s.calls[c].idx;
    assert s'.log == s.log[t := e];
    assert s'.calls == s.calls[c := s'.calls[c]];
    PickedUpdate(s.calls, c, s'.calls[c], i);
    LoggedUpdate(s.log, t, e, i, Hit);
    LoggedUpdate(s.log, t, e, i, Miss);
  }

  lemma CountStart(s: State, i: nat)
    ensures Picked(Apply(s, Start).calls, i) == Picked(s.calls, i)
  {
    var calls' := Apply(s, Start).calls;
    assert calls'[..|calls'| - 1] == s.calls;
  }

  /** What one step does to the counts of target `i`. */
  lemma CountStep(s: State, step: Step, i: nat)
    requires Inv(s) && Enabled(s, step)
    requires Picked(s.calls, i) == Logged(s.log, i, Hit)
    ensures var s' := Apply(s, step);
            && Picked(s'.calls, i) == Logged(s'.log, i, Hit)
            && |s.log| <= |s'.log|
            && (i < |s.health| && s.health[i] ==> Logged(s'.log, i, Miss) == Logged(s.log, i, Miss))
  {
    hide Inv, Picked, Logged;
    match step
    case Start => CountStart(s, i);
    case Draw(c) => CountDraw(s, c, i);
    case Load(c) => CountLoad(s, c, i);
    case Store(_, _) =>
  }

  lemma InitialCounts(tr: seq<State>, i: nat)
    requires Run(tr)
    ensures Picked(tr[0].calls, i) == Logged(tr[0].log, i, Hit)
  {
  }

  lemma {:induction false} PickedIsHit(tr: seq<State>, k: nat, i: nat)
    requires Run(tr) && k < |tr|
    ensures Picked(tr[k].calls, i) == Logged(tr[k].log, i, Hit)
  {
    hide Run, Next, Inv, Init, Apply, Enabled, Logged, Picked;
    if k == 0 {
      InitialCounts(tr, i);
    } else {
      PickedIsHit(tr, k - 1, i);
      InvRun(tr, k - 1);
      var step := StepOf(tr, k - 1);
      CountStep(tr[k - 1], step, i);
    }
  }

  ghost predicate HealthyThroughout(tr: seq<State>, a: nat, b: nat, i: nat)
    requires a <= b < |tr|
  {
    forall k | a <= k <= b :: i < |tr[k].health| && tr[k].health[i]
  }

  lemma {:induction false} NoNewMiss(tr: seq<State>, a: nat, b: nat, i: nat)
    requires Run(tr) && a <= b < |tr| && HealthyThroughout(tr, a, b, i)
    ensures Logged(tr[b].log, i, Miss) == Logged(tr[a].log, i, Miss)
    ensures |tr[a].log| <= |tr[b].log|
    decreases b
  {
    hide Run, Next, Inv, Apply, Logged, Picked;
    if a == b {
    } else {
      NoNewMiss(tr, a, b - 1, i);
      InvRun(tr, b - 1);
      PickedIsHit(tr, b - 1, i);
      var step := StepOf(tr, b - 1);
      CountStep(tr[b - 1], step, i);
    }
  }

  /** No task is between its `fetch_add` and its health load. */
  ghost predicate Quiet(s: State) {
    forall c | 0 <= c < |s.calls| :: !s.calls[c].Drawn?
  }

  lemma {:induction false} NonePending(log: seq<Ticket>, i: nat)
    requires forall t | 0 <= t < |log| :: log[t].outcome != Pending
    ensures Logged(log, i, Pending) == 0
  {
    if log == [] {
    } else {
      NonePending(log[..|log| - 1], i);
    }
  }

  lemma QuietHasNonePending(s: State, i: nat)
    requires Inv(s) && Quiet(s)
    ensures Logged(s.log, i, Pending) == 0
  {
    forall t | 0 <= t < |s.log| ensures s.log[t].outcome != Pending {
      if s.log[t].outcome == Pending { PendingOwner(s, t); }
    }
    NonePending(s.log, i);
  }

  /**
   Exact fairness in every reachable state: while target `i` stays healthy, each
   ticket that names it is a finished pick or a load still to run. Nothing is
   assumed about the other flags, about the interleaving, or about calls that fail.
   */
  lemma PicksFollowTickets(tr: seq<State>, a: nat, b: nat, i: nat)
    requires Run(tr) && a <= b < |tr| && HealthyThroughout(tr, a, b, i)
    ensures var n, from, to' := |tr[0].health|, |tr[a].log|, |tr[b].log|;
            && 0 < n && from <= to'
            && Picked(tr[b].calls, i) + Logged(tr[b].log, i, Pending)
            == Picked(tr[a].calls, i) + Logged(tr[a].log, i, Pending) + Share(n, from, to' - from, i)
  {
    var n := |tr[0].health|;
    InvRun(tr, a);
    InvRun(tr, b);
    PickedIsHit(tr, a, i);
    PickedIsHit(tr, b, i);
    NoNewMiss(tr, a, b, i);
    forall k | k == a || k == b
      ensures Logged(tr[k].log, i, Pending) + Logged(tr[k].log, i, Hit) + Logged(tr[k].log, i, Miss)
           == Share(n, 0, |tr[k].log|, i)
    {
      forall t | 0 <= t < |tr[k].log| ensures tr[k].log[t].target == Slot(t, n) {
        assert TicketInv(tr[k], t);
      }
      LoggedTotal(tr[k].log, n, i);
    }
    ShareSplit(n, 0, |tr[a].log|, |tr[b].log| - |tr[a].log|, i);
  }

  /** The picks of target `i` between two states of a run. */
  ghost function PickedBetween(tr: seq<State>, a: nat, b: nat, i: nat): int
    requires a <= b < |tr|
  {
    Picked(tr[b].calls, i) - Picked(tr[a].calls, i)
  }

  /**
   Round robin under any interleaving: between two quiet states, two targets that
   stayed healthy were picked equally often up to one, as long as the counter did
   not wrap in between (or the wrap is harmless).
   */
  lemma FairBetweenQuietStates(tr: seq<State>, a: nat, b: nat, i: nat, j: nat)
    requires Run(tr) && a <= b < |tr|
    requires HealthyThroughout(tr, a, b, i) && HealthyThroughout(tr, a, b, j)
    requires Quiet(tr[a]) && Quiet(tr[b])
    ensures var n, from, to' := |tr[0].health|, |tr[a].log|, |tr[b].log|;
            && 0 < n && from <= to'
            && PickedBetween(tr, a, b, i) == Share(n, from, to' - from, i)
            && (Fits(n, from, to' - from) ==>
                  PickedBetween(tr, a, b, i) <= PickedBetween(tr, a, b, j) + 1)
  {
    PicksFollowTickets(tr, a, b, i);
    PicksFollowTickets(tr, a, b, j);
    InvRun(tr, a);
    InvRun(tr, b);
    forall k | k == i || k == j
      ensures Logged(tr[a].log, k, Pending) == 0 && Logged(tr[b].log, k, Pending) == 0
    {
      QuietHasNonePending(tr[a], k);
      QuietHasNonePending(tr[b], k);
    }
    var n, from, len := |tr[0].health|, |tr[a].log|, |tr[b].log| - |tr[a].log|;
    if Fits(n, from, len) {
      FairWindow(n, from, len, i, j);
    }
  }

  // ---------------------------------------------------------------------
  // Progress behind a failed call
  // ---------------------------------------------------------------------

  /** What one step does to an entry of the log. */
  lemma EntryStep(s: State, step: Step, t: nat)
    requires Inv(s) && Enabled(s, step) && t < |Apply(s, step).log|
    ensures var s' := Apply(s, step);
            && s'.log[t].target < |s.health| && |s.log| <= |s'.log|
            && if t < |s.log| then
                 && s'.log[t].target == s.log[t].target
                 && (|| s'.log[t].outcome == s.log[t].outcome
                     || s'.log[t].outcome == (if s.health[s.log[t].target] then Hit else Miss))
               else s'.log[t].outcome == Pending
  {
    if t < |s.log| { assert TicketInv(s, t); }
    if step.Load? { assert CallInv(s, step.c); }
  }

  /** Target `i` exists and has flag `up` in all the states from `a` to `b`. */
  ghost predicate FlagThroughout(tr: seq<State>, a: nat, b: nat, i: nat, up: bool)
    requires a <= b < |tr|
  {
    forall k | a <= k <= b :: i < |tr[k].health| && tr[k].health[i] == up
  }

  /** Tickets drawn while a target stays healthy, or stays unhealthy, find it so. */
  lemma {:induction false} OutcomesSince(tr: seq<State>, a: nat, b: nat, t: nat, up: bool)
    requires Run(tr) && a <= b < |tr| && |tr[a].log| <= t < |tr[b].log|
    requires FlagThroughout(tr, a, b, tr[b].log[t].target, up)
    ensures tr[b].log[t].outcome == Pending || tr[b].log[t].outcome == (if up then Hit else Miss)
    decreases b
  {
    hide Run, Next, Inv, Apply;
    InvRun(tr, b - 1);
    var step := StepOf(tr, b - 1);
    EntryStep(tr[b - 1], step, t);
    if t < |tr[b - 1].log| {
      OutcomesSince(tr, a, b - 1, t, up);
    }
  }

  /** In a lap that fits, some ticket names target `i`. */
  lemma TicketInLap(s: State, first: nat, i: nat) returns (t: nat)
    requires Inv(s) && i < |s.health| && Fits(|s.health|, first, |s.health|)
    requires first + |s.health| <= |s.log|
    ensures first <= t < first + |s.health| && s.log[t].target == i
  {
    var k := LapReaches(|s.health|, first, i);
    t := first + k;
    assert TicketInv(s, t);
  }

  lemma {:induction false} IncreasingSpan(ts: seq<nat>, k: nat)
    requires Increasing(ts) && k < |ts|
    ensures ts[0] + k <= ts[k]
  {
    if k == 0 {
    } else {
      IncreasingSpan(ts, k - 1);
    }
  }

  /** Ticket `t` went to a task that returns, or is about to return, target `i`. */
  ghost predicate Served(s: State, t: nat, i: nat) {
    && t < |s.log| && s.log[t].target == i && s.log[t].owner < |s.calls|
    && var call := s.calls[s.log[t].owner];
       || (call.Done? && call.result == Some(i))
       || (call.Drawn? && call.idx == i && Enabled(s, Load(s.log[t].owner)))
  }

  /** A call that failed, whose first ticket was drawn after state `a` of the run. */
  ghost predicate FailedSince(tr: seq<State>, a: nat, b: nat, c: nat)
    requires a <= b < |tr|
  {
    && c < |tr[b].calls| && tr[b].calls[c].Done? && tr[b].calls[c].result == None
    && tr[b].calls[c].tickets != [] && |tr[a].log| <= tr[b].calls[c].tickets[0]
  }

  /**
   A call may fail although target `i` was healthy all along, but only because
   another task drew the ticket for `i` in between, and that task returns `i`.
   */
  lemma ProgressBehindFailure(tr: seq<State>, a: nat, b: nat, c: nat, i: nat) returns (t: nat)
    requires Run(tr) && a <= b < |tr| && HealthyThroughout(tr, a, b, i) && FailedSince(tr, a, b, c)
    requires tr[0].health != [] && Fits(|tr[0].health|, tr[b].calls[c].tickets[0], |tr[0].health|)
    ensures var ts := tr[b].calls[c].tickets;
            ts[0] < t < ts[|ts| - 1] && Served(tr[b], t, i) && tr[b].log[t].owner != c
  {
    var s := tr[b];
    var ts, n := s.calls[c].tickets, |s.health|;
    InvRun(tr, b);
    InvRun(tr, a);
    assert CallInv(s, c);
    IncreasingSpan(ts, n - 1);
    assert Owns(s, c, ts[n - 1]) && Owns(s, c, ts[0]);
    t := TicketInLap(s, ts[0], i);
    assert FlagThroughout(tr, a, b, i, true);
    OutcomesSince(tr, a, b, t, true);
    assert TicketInv(s, t);
    if s.log[t].outcome == Pending { PendingOwner(s, t); } else { HitOwner(s, t); }
  }

  /** The load that a served ticket still waits for returns target `i`, if `i` is healthy then. */
  lemma ServedLoadReturns(s: State, t: nat, i: nat)
    requires Served(s, t, i) && i < |s.health| && s.health[i] && s.calls[s.log[t].owner].Drawn?
    ensures var c := s.log[t].owner;
            var call := Apply(s, Load(c)).calls[c];
            call.Done? && call.result == Some(i)
  {
  }

  /** The tickets of the call are consecutive: no other task drew one in between. */
  ghost predicate Uninterrupted(ts: seq<nat>) {
    forall k | 0 <= k < |ts| :: ts[k] == ts[0] + k
  }

  ghost predicate ConstantHealth(tr: seq<State>, a: nat, b: nat)
    requires a <= b < |tr|
  {
    forall k | a <= k <= b :: tr[k].health == tr[a].health
  }

  /**
   A call whose tickets are not interleaved with others returns what the same
   call would return alone: the machine agrees with `Upstreams.PickAlone`.
   */
  lemma UninterruptedIsAlone(tr: seq<State>, a: nat, b: nat, c: nat)
    requires Run(tr) && a <= b < |tr| && ConstantHealth(tr, a, b)
    requires c < |tr[b].calls| && tr[b].calls[c].Done? && tr[b].calls[c].tickets != []
    requires |tr[a].log| <= tr[b].calls[c].tickets[0] && Uninterrupted(tr[b].calls[c].tickets)
    ensures tr[a].health != []
    ensures PickAlone(tr[a].health, tr[b].calls[c].tickets[0])
         == Pick(tr[b].calls[c].result, |tr[b].calls[c].tickets|)
  {
    var s, health := tr[b], tr[a].health;
    var ts, n := s.calls[c].tickets, |health|;
    InvRun(tr, a);
    InvRun(tr, b);
    assert CallInv(s, c);
    forall u: nat | ts[0] <= u < ts[0] + |ts|
      ensures Owns(s, c, u) && Up(health, u) == (s.log[u].outcome == Hit) && s.log[u].target == Slot(u, n)
      ensures u < ts[0] + |ts| - 1 ==> !Up(health, u)
    {
      assert ts[u - ts[0]] == u && Owns(s, c, ts[u - ts[0]]);
      assert TicketInv(s, u);
      var up := health[Slot(u, n)];
      assert FlagThroughout(tr, a, b, Slot(u, n), up);
      OutcomesSince(tr, a, b, u, up);
    }
    var last := ts[0] + |ts| - 1;
    assert ts[|ts| - 1] == last;
    if s.calls[c].result.Some? {
      ProbeStopsAt(health, ts[0], n, last);
    } else {
      ProbeFindsFirst(health, ts[0], n);
    }
  }

  /** Hence such a call fails exactly when every target is unhealthy. */
  lemma UninterruptedFailsIff(tr: seq<State>, a: nat, b: nat, c: nat)
    requires Run(tr) && a <= b < |tr| && ConstantHealth(tr, a, b)
    requires c < |tr[b].calls| && tr[b].calls[c].Done? && tr[b].calls[c].tickets != []
    requires |tr[a].log| <= tr[b].calls[c].tickets[0] && Uninterrupted(tr[b].calls[c].tickets)
    requires tr[a].health != [] && Fits(|tr[a].health|, tr[b].calls[c].tickets[0], |tr[a].health|)
    ensures tr[b].calls[c].result.None? <==> AllUnhealthy(tr[a].health)
  {
    UninterruptedIsAlone(tr, a, b, c);
    LoneNone(tr[a].health, tr[b].calls[c].tickets[0]);
  }

  // ---------------------------------------------------------------------
  // Termination of every call
  // ---------------------------------------------------------------------

  /** Atomic steps that call `c` may still take. */
  ghost function StepsLeft(s: State, c: nat): int
    requires c < |s.calls|
  {
    var n, k := |s.health|, |s.calls[c].tickets|;
    match s.calls[c]
    case Ready(_) => 2 * (n - k)
    case Drawn(_, _) => 2 * (n - k) + 1
    case Done(_, _) => 0
  }

  /** Calls are wait-free: no step of another task, and no health store, delays a call. */
  lemma WaitFree(s: State, step: Step, c: nat)
    requires Inv(s) && Enabled(s, step) && c < |s.calls|
    ensures var s' := Apply(s, step);
            && 0 <= StepsLeft(s', c) <= StepsLeft(s, c) <= 2 * |s.health|
            && ((step == Draw(c) || step == Load(c)) ==> StepsLeft(s', c) < StepsLeft(s, c))
            && (s.calls[c].Done? ==> s'.calls[c] == s.calls[c])
            && (!s.calls[c].Done? ==> Enabled(s, Draw(c)) || Enabled(s, Load(c)))
  {
    assert CallInv(s, c);
    if s.calls[c].Drawn? {
      var ts := s.calls[c].tickets;
      assert Owns(s, c, ts[|ts| - 1]);
      assert TicketInv(s, ts[|ts| - 1]);
    }
  }

  // ---------------------------------------------------------------------
  // When a failure means that every target is unhealthy
  // ---------------------------------------------------------------------

  /** A failed call rules out exactly the targets that its own tickets name. */
  lemma FailureRulesOut(tr: seq<State>, a: nat, b: nat, c: nat, k: nat)
    requires Run(tr) && a <= b < |tr| && ConstantHealth(tr, a, b) && FailedSince(tr, a, b, c)
    requires k < |tr[b].calls[c].tickets|
    ensures var n, t := |tr[a].health|, tr[b].calls[c].tickets[k];
            0 < n && |tr[b].calls[c].tickets| == n && !tr[a].health[Slot(t, n)]
  {
    InvRun(tr, a);
    InvRun(tr, b);
    var s, ts := tr[b], tr[b].calls[c].tickets;
    assert CallInv(s, c);
    assert Owns(s, c, ts[k]) && Owns(s, c, ts[0]);
    assert TicketInv(s, ts[k]);
    var i := s.log[ts[k]].target;
    assert FlagThroughout(tr, a, b, i, tr[a].health[i]);
    assert ts[0] <= ts[k];
    OutcomesSince(tr, a, b, ts[k], tr[a].health[i]);
  }

  ghost predicate Names(ts: seq<nat>, n: nat, i: nat)
    requires 0 < n
  {
    exists k :: 0 <= k < |ts| && Slot(ts[k], n) == i
  }

  /** Every one of the `n` targets is named by one of the tickets. */
  ghost predicate NamesAll(ts: seq<nat>, n: nat)
    requires 0 < n
  {
    forall i: nat | i < n :: Names(ts, n, i)
  }

  /** So a failure is sound when the call's tickets name every target, interleaved or not. */
  lemma FailureNamingAll(tr: seq<State>, a: nat, b: nat, c: nat)
    requires Run(tr) && a <= b < |tr| && ConstantHealth(tr, a, b) && FailedSince(tr, a, b, c)
    requires tr[a].health != [] && NamesAll(tr[b].calls[c].tickets, |tr[a].health|)
    ensures AllUnhealthy(tr[a].health)
  {
    var ts, n := tr[b].calls[c].tickets, |tr[a].health|;
    forall i: nat | i < n ensures !tr[a].health[i] {
      assert Names(ts, n, i);
      var k :| 0 <= k < |ts| && Slot(ts[k], n) == i;
      FailureRulesOut(tr, a, b, c, k);
    }
  }

  /**
   With `n` targets, a call that fails under constant flags proves that every
   target is unhealthy: in every run in which at most `max` tickets are drawn.
   */
  ghost predicate NoFalseFailure(n: nat, max: nat) {
    forall tr: seq<State>, a: nat, b: nat, c: nat |
      && Run(tr) && |tr[0].health| == n && a <= b < |tr| && |tr[b].log| <= max
      && ConstantHealth(tr, a, b) && FailedSince(tr, a, b, c) ::
      AllUnhealthy(tr[a].health)
  }

  /**
   "If every target is unhealthy, none" can be read backwards exactly for routes
   with a single target; with more, `n + 2` tickets are enough for a false failure.
   */
  lemma NoFalseFailureIff(n: nat, max: nat)
    requires n + 2 <= USIZE && n + 2 <= max
    ensures NoFalseFailure(n, max) <==> n <= 1
  {
    if n <= 1 {
      forall tr: seq<State>, a: nat, b: nat, c: nat |
        && Run(tr) && |tr[0].health| == n && a <= b < |tr| && |tr[b].log| <= max
        && ConstantHealth(tr, a, b) && FailedSince(tr, a, b, c)
        ensures AllUnhealthy(tr[a].health)
      {
        InvRun(tr, a);
        FailureRulesOut(tr, a, b, c, 0);
      }
    } else {
      var tr, a := FailsDespiteHealthyTarget(n);
      assert FailedSince(tr, a, |tr| - 1, 0);
      assert tr[a].health[0];
      assert !AllUnhealthy(tr[a].health);
    }
  }

  // The run: one call misses tickets 1 to n - 1, another call draws ticket n, the
  // first one misses ticket n + 1.

  function LastOf(tr: seq<State>): State
    requires tr != []
  {
    tr[|tr| - 1]
  }

  lemma Extend(tr: seq<State>, step: Step) returns (tr': seq<State>)
    requires Run(tr) && Enabled(LastOf(tr), step)
    ensures tr' == tr + [Apply(LastOf(tr), step)] && Run(tr')
  {
    tr' := tr + [Apply(LastOf(tr), step)];
    forall k | 0 <= k < |tr'| - 1 ensures Next(tr'[k], tr'[k + 1]) {
      if k < |tr| - 1 { assert Next(tr[k], tr[k + 1]); }
    }
  }

  /** Only target 0 is healthy. */
  ghost function OnlyFirst(n: nat): seq<bool> {
    seq(n, i => i == 0)
  }

  /** A run that has only target 0 healthy from state `a` on, where no ticket has been drawn. */
  ghost predicate Staged(tr: seq<State>, a: nat, n: nat) {
    && Run(tr) && a < |tr| && tr[a].log == []
    && (forall k | a <= k < |tr| :: tr[k].health == OnlyFirst(n))
    && |tr[0].health| == n && HealthyThroughout(tr, 0, |tr| - 1, 0)
  }

  lemma StagedStep(tr: seq<State>, a: nat, n: nat, step: Step) returns (tr': seq<State>)
    requires Staged(tr, a, n) && Enabled(LastOf(tr), step) && !step.Store?
    ensures Staged(tr', a, n) && LastOf(tr') == Apply(LastOf(tr), step)
  {
    tr' := Extend(tr, step);
  }

  /** The first `m` targets after target 0 are marked unhealthy. */
  lemma {:induction false} MarkDown(n: nat, m: nat) returns (tr: seq<State>)
    requires 0 < n < USIZE && m < n
    ensures Run(tr) && |tr[0].health| == n && HealthyThroughout(tr, 0, |tr| - 1, 0)
    ensures LastOf(tr) == State(seq(n, i => i == 0 || m < i), 0, [], [])
  {
    if m == 0 {
      tr := [State(seq(n, i => true), 0, [], [])];
      assert seq(n, i => true) == seq(n, i => i == 0 || m < i);
    } else {
      var before := MarkDown(n, m - 1);
      tr := Extend(before, Store(m, false));
      assert LastOf(tr).health == seq(n, i => i == 0 || m < i);
    }
  }

  lemma StageReady(n: nat) returns (tr: seq<State>, a: nat)
    requires 2 <= n < USIZE
    ensures Staged(tr, a, n) && LastOf(tr) == State(OnlyFirst(n), 0, [], [Ready([]), Ready([]), Ready([])])
  {
    tr := MarkDown(n, n - 1);
    a := |tr| - 1;
    assert seq(n, i => i == 0 || n - 1 < i) == OnlyFirst(n);
    tr := StagedStep(tr, a, n, Start);
    tr := StagedStep(tr, a, n, Start);
    tr := StagedStep(tr, a, n, Start);
  }

  /** Another call draws the next ticket and does not load yet. */
  lemma OtherDraws(tr: seq<State>, a: nat, n: nat, d: nat) returns (tr': seq<State>)
    requires Staged(tr, a, n) && 0 < n
    requires 0 < d < |LastOf(tr).calls| && LastOf(tr).calls[d] == Ready([])
    ensures Staged(tr', a, n) && |LastOf(tr').log| == |LastOf(tr).log| + 1
    ensures |LastOf(tr').calls| == |LastOf(tr).calls|
    ensures forall e | 0 <= e < |LastOf(tr).calls| && e != d :: LastOf(tr').calls[e] == LastOf(tr).calls[e]
  {
    tr' := StagedStep(tr, a, n, Draw(d));
  }

  lemma DrawFacts(s: State, c: nat)
    requires Enabled(s, Draw(c)) && s.counter == |s.log|
    ensures var s' := Apply(s, Draw(c));
            && |s'.log| == |s.log| + 1 && s'.health == s.health
            && s'.calls == s.calls[c := Drawn(s.calls[c].tickets + [|s.log|], |s.log| % |s.health|)]
  {
  }

  lemma MissFacts(s: State, c: nat, ts: seq<nat>, idx: nat)
    requires c < |s.calls| && s.calls[c] == Drawn(ts, idx) && idx < |s.health| && !s.health[idx]
    requires ts != [] && s.log != [] && ts[|ts| - 1] == |s.log| - 1
    ensures Enabled(s, Load(c))
    ensures var s' := Apply(s, Load(c));
            && |s'.log| == |s.log|
            && s'.calls == s.calls[c := if |ts| < |s.health| then Ready(ts) else Done(ts, None)]
  {
  }

  /** Drawing and loading by call 0, in a state in which the next ticket names an unhealthy target. */
  lemma MissSteps(s: State, n: nat)
    requires 0 < n && s.health == OnlyFirst(n) && s.counter == |s.log| && |s.log| % n != 0
    requires |s.calls| == 3 && s.calls[0].Ready?
    ensures Enabled(s, Draw(0)) && Enabled(Apply(s, Draw(0)), Load(0))
    ensures var s', ts := Apply(Apply(s, Draw(0)), Load(0)), s.calls[0].tickets + [|s.log|];
            && |s'.log| == |s.log| + 1
            && s'.calls == s.calls[0 := if |ts| < n then Ready(ts) else Done(ts, None)]
  {
    DrawFacts(s, 0);
    var d, ts := Apply(s, Draw(0)), s.calls[0].tickets + [|s.log|];
    assert ts[|ts| - 1] == |d.log| - 1;
    hide Apply, Enabled;
    MissFacts(d, 0, ts, |s.log| % n);
    var last := if |ts| < n then Ready(ts) else Done(ts, None);
    assert s.calls[0 := Drawn(ts, |s.log| % n)][0 := last] == s.calls[0 := last];
  }

  lemma StagedLast(tr: seq<State>, a: nat, n: nat)
    requires Staged(tr, a, n) && |LastOf(tr).log| < USIZE
    ensures LastOf(tr).health == OnlyFirst(n) && LastOf(tr).counter == |LastOf(tr).log|
  {
    InvRun(tr, |tr| - 1);
  }

  /** The call draws a ticket for an unhealthy target and finds it so. */
  lemma MissesNext(tr: seq<State>, a: nat, n: nat) returns (tr': seq<State>)
    requires Staged(tr, a, n) && 0 < n && |LastOf(tr).calls| == 3 && LastOf(tr).calls[0].Ready?
    requires |LastOf(tr).log| < USIZE && |LastOf(tr).log| % n != 0
    ensures Staged(tr', a, n) && |LastOf(tr').log| == |LastOf(tr).log| + 1
    ensures var ts := LastOf(tr).calls[0].tickets + [|LastOf(tr).log|];
            LastOf(tr').calls == LastOf(tr).calls[0 := if |ts| < n then Ready(ts) else Done(ts, None)]
  {
    hide Run, Apply, Enabled, OnlyFirst;
    StagedLast(tr, a, n);
    MissSteps(LastOf(tr), n);
    tr' := StagedStep(tr, a, n, Draw(0));
    tr' := StagedStep(tr', a, n, Load(0));
  }

  lemma {:induction false} MissesMany(tr: seq<State>, a: nat, n: nat, m: nat) returns (tr': seq<State>)
    requires Staged(tr, a, n) && |LastOf(tr).log| == 1 && m < n < USIZE - 1
    requires |LastOf(tr).calls| == 3 && LastOf(tr).calls[0] == Ready([])
    ensures Staged(tr', a, n) && |LastOf(tr').log| == m + 1
    ensures |LastOf(tr').calls| == 3 && LastOf(tr').calls[1..] == LastOf(tr).calls[1..]
    ensures LastOf(tr').calls[0].Ready? && |LastOf(tr').calls[0].tickets| == m
  {
    if m == 0 {
      tr' := tr;
    } else {
      var before := MissesMany(tr, a, n, m - 1);
      DivModUnique(m, n, 0, m);
      tr' := MissesNext(before, a, n);
    }
  }

  /**
   For every number of targets above one: a run in which target 0 is healthy
   throughout, `n + 2` tickets are drawn, and a call fails.
   */
  lemma FailsDespiteHealthyTarget(n: nat) returns (tr: seq<State>, a: nat)
    requires 2 <= n && n + 2 <= USIZE
    ensures Run(tr) && |tr[0].health| == n && HealthyThroughout(tr, 0, |tr| - 1, 0)
    ensures a < |tr| && ConstantHealth(tr, a, |tr| - 1) && FailedSince(tr, a, |tr| - 1, 0)
    ensures |tr[|tr| - 1].log| == n + 2
  {
    hide Run, Next, Apply, Enabled, Inv;
    tr, a := StageReady(n);
    tr := OtherDraws(tr, a, n, 1);
    tr := MissesMany(tr, a, n, n - 1);
    tr := OtherDraws(tr, a, n, 2);
    DivModUnique(n + 1, n, 1, 1);
    tr := MissesNext(tr, a, n);
  }
}
