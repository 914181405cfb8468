/**
 The fixed-size thread pool (`src/server/pool.rs`): workers that share one channel
 receiver behind a mutex, and the shutdown protocol of `Drop`. Jobs are numbered in
 the order in which they are given to `execute`. A job may panic, which ends its
 worker's thread; once the last thread is gone, `execute` drops the job it is given.
 */
module Pool {
  import opened Arithmetic

  datatype Worker =
    | Waiting           // wants the receiver's lock
    | Holding           // holds the lock, inside recv
    | Running(job: nat)
    | Exited            // saw the channel closed
    | Dead              // its job panicked

  datatype State = State(
    workers: seq<Worker>,
    open: bool,           // the pool still has its sender
    queue: seq<nat>,
    offered: nat,         // jobs given to `execute`
    sent: nat,            // of these, the ones that reached the channel
    started: seq<nat>,
    finished: seq<nat>,
    panicked: seq<nat>,
    joined: nat)          // threads that Drop has joined

  datatype Step =
    | Execute
    | Acquire(w: nat)
    | Recv(w: nat)
    | Disconnect(w: nat)
    | Finish(w: nat)
    | Panic(w: nat)
    | CloseSender
    | Join

  predicate Stopped(w: Worker) {
    w.Exited? || w.Dead?
  }

  /** The lock is free: no worker is inside `recv`. */
  predicate LockFree(s: State) {
    forall w | 0 <= w < |s.workers| :: !s.workers[w].Holding?
  }

  /** The receiver exists as long as some worker thread does. */
  predicate ReceiverAlive(s: State) {
    exists w :: 0 <= w < |s.workers| && !Stopped(s.workers[w])
  }

  /** A pool of `max(size, 1)` workers. */
  function Init(size: nat): State {
    State(seq(if size == 0 then 1 else size, i => Waiting), true, [], 0, 0, [], [], [], 0)
  }

  predicate Enabled(s: State, step: Step) {
    match step
    case Execute => s.open
    case Acquire(w) => w < |s.workers| && s.workers[w].Waiting? && LockFree(s)
    case Recv(w) => w < |s.workers| && s.workers[w].Holding? && s.queue != []
    case Disconnect(w) => w < |s.workers| && s.workers[w].Holding? && s.queue == [] && !s.open
    case Finish(w) => w < |s.workers| && s.workers[w].Running?
    case Panic(w) => w < |s.workers| && s.workers[w].Running?
    case CloseSender => s.open
    case Join => !s.open && s.joined < |s.workers| && Stopped(s.workers[s.joined])
  }

  function Apply(s: State, step: Step): State
    requires Enabled(s, step)
  {
    match step
    case Execute =>
      // A send to a channel without receiver fails, and the failure is ignored.
      if ReceiverAlive(s) then s.(queue := s.queue + [s.offered], offered := s.offered + 1, sent := s.sent + 1)
      else s.(offered := s.offered + 1)
    case Acquire(w) => s.(workers := s.workers[w := Holding])
    case Recv(w) =>
      s.(workers := s.workers[w := Running(s.queue[0])], queue := s.queue[1..], started := s.started + [s.queue[0]])
    case Disconnect(w) => s.(workers := s.workers[w := Exited])
    case Finish(w) => s.(workers := s.workers[w := Waiting], finished := s.finished + [s.workers[w].job])
    case Panic(w) => s.(workers := s.workers[w := Dead], panicked := s.panicked + [s.workers[w].job])
    case CloseSender => s.(open := false)
    case Join => s.(joined := s.joined + 1)
  }

  ghost predicate Next(s: State, s': State) {
    exists step :: Enabled(s, step) && s' == Apply(s, step)
  }

  ghost predicate Run(size: nat, tr: seq<State>) {
    && tr != [] && tr[0] == Init(size)
    && forall k | 0 <= k < |tr| - 1 :: Next(tr[k], tr[k + 1])
  }

  // ---------------------------------------------------------------------
  // Counting over the workers
  // ---------------------------------------------------------------------

  /** On how many workers job `j` is running. */
  ghost function RunningOf(workers: seq<Worker>, j: nat): nat {
    if workers == [] then 0
    else RunningOf(workers[..|workers| - 1], j) + One(workers[|workers| - 1] == Running(j))
  }

  /** The worker is dead, or will be when its job has panicked: `bad` is the set of jobs that panic. */
  predicate Doomed(bad: set<nat>, w: Worker) {
    w.Dead? || (w.Running? && w.job in bad)
  }

  /** How many workers are doomed; with no bad jobs, how many are dead. */
  ghost function Lost(bad: set<nat>, workers: seq<Worker>): nat {
    if workers == [] then 0
    else Lost(bad, workers[..|workers| - 1]) + One(Doomed(bad, workers[|workers| - 1]))
  }

  lemma {:induction false} RunningUpdate(workers: seq<Worker>, w: nat, new': Worker, j: nat)
    requires w < |workers|
    ensures RunningOf(workers[w := new'], j) + One(workers[w] == Running(j))
         == RunningOf(workers, j) + One(new' == Running(j))
  {
    var n := |workers| - 1;
    var changed := workers[w := new'];
    if w < n {
      RunningUpdate(workers[..n], w, new', j);
      assert changed[..n] == workers[..n][w := new'];
    } else {
      assert changed[..n] == workers[..n];
    }
  }

  lemma {:induction false} LostUpdate(bad: set<nat>, workers: seq<Worker>, w: nat, new': Worker)
    requires w < |workers|
    ensures Lost(bad, workers[w := new']) + One(Doomed(bad, workers[w]))
         == Lost(bad, workers) + One(Doomed(bad, new'))
  {
    var n := |workers| - 1;
    var changed := workers[w := new'];
    if w < n {
      LostUpdate(bad, workers[..n], w, new');
      assert changed[..n] == workers[..n][w := new'];
    } else {
      assert changed[..n] == workers[..n];
    }
  }

  lemma {:induction false} NoneRunning(workers: seq<Worker>, j: nat)
    requires forall w | 0 <= w < |workers| :: !workers[w].Running?
    ensures RunningOf(workers, j) == 0
  {
    if workers == [] {
    } else {
      NoneRunning(workers[..|workers| - 1], j);
    }
  }

  lemma {:induction false} LostBound(bad: set<nat>, workers: seq<Worker>)
    ensures Lost(bad, workers) <= |workers|
    ensures Lost(bad, workers) == |workers| <==> forall w | 0 <= w < |workers| :: Doomed(bad, workers[w])
  {
    if workers == [] {
    } else {
      var n := |workers| - 1;
      LostBound(bad, workers[..n]);
      assert workers == workers[..n] + [workers[n]];
    }
  }

  // ---------------------------------------------------------------------
  // The invariant
  // ---------------------------------------------------------------------

  /** The jobs `0, 1, ..., n - 1` in the order in which they were sent. */
  ghost function UpTo(n: nat): seq<nat> {
    seq(n, i => i)
  }

  /** At most one worker is inside `recv`. */
  ghost predicate LockInv(s: State) {
    forall i, j | 0 <= i < j < |s.workers| :: !(s.workers[i].Holding? && s.workers[j].Holding?)
  }

  /** Jobs are started in send order; the others are still queued. */
  ghost predicate OrderInv(s: State) {
    s.started + s.queue == UpTo(s.sent)
  }

  /** A job that did not reach the channel was offered after the last worker had died. */
  ghost predicate OfferInv(s: State) {
    s.sent <= s.offered && (s.sent < s.offered ==> forall w | 0 <= w < |s.workers| :: s.workers[w].Dead?)
  }

  /** Each start of job `j` is accounted for: running, finished or panicked. */
  ghost predicate Accounted(s: State, j: nat) {
    multiset(s.started)[j] == multiset(s.finished)[j] + multiset(s.panicked)[j] + RunningOf(s.workers, j)
  }

  ghost predicate BagInv(s: State) {
    && (forall j: nat :: Accounted(s, j))
    && |s.panicked| == Lost({}, s.workers)
  }

  /** A worker exits only when the channel is closed and empty. */
  ghost predicate ExitInv(s: State) {
    forall w | 0 <= w < |s.workers| && s.workers[w].Exited? :: !s.open && s.queue == []
  }

  ghost predicate JoinInv(s: State) {
    && (s.open ==> s.joined == 0)
    && s.joined <= |s.workers| && (forall w | 0 <= w < s.joined :: Stopped(s.workers[w]))
  }

  ghost predicate Inv(s: State) {
    s.workers != [] && LockInv(s) && OrderInv(s) && OfferInv(s) && BagInv(s) && ExitInv(s) && JoinInv(s)
  }

  lemma {:induction false} InvInit(size: nat)
    ensures Inv(Init(size))
  {
    var s := Init(size);
    forall j: nat ensures Accounted(s, j) { AllWaiting(s.workers, j); }
    AllWaiting(s.workers, 0);
    assert s.started + s.queue == UpTo(0);
  }

  lemma {:induction false} AllWaiting(workers: seq<Worker>, j: nat)
    requires forall w | 0 <= w < |workers| :: workers[w].Waiting?
    ensures RunningOf(workers, j) == 0 && Lost({}, workers) == 0
  {
    if workers == [] {
    } else {
      AllWaiting(workers[..|workers| - 1], j);
    }
  }

  lemma OrderStep(s: State, step: Step)
    requires OrderInv(s) && OfferInv(s) && Enabled(s, step)
    ensures OrderInv(Apply(s, step))
  {
    var s' := Apply(s, step);
    if step.Execute? {
      assert UpTo(s.sent + 1) == UpTo(s.sent) + [s.sent];
      assert s.started + (s.queue + [s.sent]) == (s.started + s.queue) + [s.sent];
    } else if step.Recv? {
      assert s'.started + s'.queue == s.started + s.queue;
    }
  }

  lemma OfferStep(s: State, step: Step)
    requires OfferInv(s) && ExitInv(s) && Enabled(s, step)
    ensures OfferInv(Apply(s, step))
  {
  }

  lemma {:induction false} CountAppend(q: seq<nat>, x: nat, j: nat)
    ensures multiset(q + [x])[j] == multiset(q)[j] + One(x == j)
  {
  }

  /** A step that only moves worker `w` between states in which no job runs. */
  lemma BagMove(s: State, s': State, w: nat, new': Worker)
    requires BagInv(s) && w < |s.workers|
    requires !s.workers[w].Running? && !new'.Running? && !s.workers[w].Dead? && !new'.Dead?
    requires s'.workers == s.workers[w := new'] && s'.started == s.started
    requires s'.finished == s.finished && s'.panicked == s.panicked
    ensures BagInv(s')
  {
    hide RunningOf, Lost;
    LostUpdate({}, s.workers, w, new');
    forall j: nat ensures Accounted(s', j) {
      assert Accounted(s, j);
      RunningUpdate(s.workers, w, new', j);
    }
  }

  lemma BagRecv(s: State, w: nat)
    requires BagInv(s) && Enabled(s, Recv(w))
    ensures BagInv(Apply(s, Recv(w)))
  {
    hide RunningOf, Lost;
    var job, s' := s.queue[0], Apply(s, Recv(w));
    LostUpdate({}, s.workers, w, Running(job));
    forall j: nat ensures Accounted(s', j) {
      assert Accounted(s, j);
      RunningUpdate(s.workers, w, Running(job), j);
      CountAppend(s.started, job, j);
    }
  }

  lemma BagEnd(s: State, w: nat, step: Step)
    requires BagInv(s) && Enabled(s, step) && (step == Finish(w) || step == Panic(w))
    ensures BagInv(Apply(s, step))
  {
    hide RunningOf, Lost;
    var job, s' := s.workers[w].job, Apply(s, step);
    var new' := if step.Finish? then Waiting else Dead;
    LostUpdate({}, s.workers, w, new');
    forall j: nat ensures Accounted(s', j) {
      assert Accounted(s, j);
      RunningUpdate(s.workers, w, new', j);
      CountAppend(s.finished, job, j);
      CountAppend(s.panicked, job, j);
    }
  }

  lemma BagStep(s: State, step: Step)
    requires BagInv(s) && Enabled(s, step)
    ensures BagInv(Apply(s, step))
  {
    hide BagInv, LockFree, ReceiverAlive;
    match step
    case Execute => BagSame(s, Apply(s, step));
    case Acquire(w) => BagMove(s, Apply(s, step), w, Holding);
    case Recv(w) => BagRecv(s, w);
    case Disconnect(w) => BagMove(s, Apply(s, step), w, Exited);
    case Finish(w) => BagEnd(s, w, step);
    case Panic(w) => BagEnd(s, w, step);
    case CloseSender => BagSame(s, Apply(s, step));
    case Join => BagSame(s, Apply(s, step));
  }

  lemma BagSame(s: State, s': State)
    requires BagInv(s) && s'.workers == s.workers && s'.started == s.started
    requires s'.finished == s.finished && s'.panicked == s.panicked
    ensures BagInv(s')
  {
    forall j: nat ensures Accounted(s', j) { assert Accounted(s, j); }
  }

  /** A closed and empty channel stays so, because nothing can be sent. */
  lemma ExitStep(s: State, step: Step)
    requires ExitInv(s) && Enabled(s, step)
    ensures ExitInv(Apply(s, step))
  {
    var s' := Apply(s, step);
    forall w | 0 <= w < |s'.workers| && s'.workers[w].Exited? ensures !s'.open && s'.queue == [] {
      assert step == Disconnect(w) || s.workers[w].Exited?;
    }
  }

  lemma LockStep(s: State, step: Step)
    requires LockInv(s) && Enabled(s, step)
    ensures LockInv(Apply(s, step))
  {
  }

  lemma JoinStep(s: State, step: Step)
    requires JoinInv(s) && Enabled(s, step)
    ensures JoinInv(Apply(s, step)) && |Apply(s, step).workers| == |s.workers|
  {
    var s' := Apply(s, step);
    assert forall w | 0 <= w < |s.workers| :: Stopped(s.workers[w]) ==> Stopped(s'.workers[w]);
  }

  lemma InvStep(s: State, step: Step)
    requires Inv(s) && Enabled(s, step)
    ensures Inv(Apply(s, step)) && |Apply(s, step).workers| == |s.workers|
  {
    hide LockInv, OrderInv, OfferInv, BagInv, ExitInv, JoinInv, Enabled, Apply;
    LockStep(s, step);
    OrderStep(s, step);
    OfferStep(s, step);
    BagStep(s, step);
    ExitStep(s, step);
    JoinStep(s, step);
  }

  lemma {:induction false} InvRun(size: nat, tr: seq<State>, k: nat)
    requires Run(size, tr) && k < |tr|
    ensures Inv(tr[k]) && |tr[k].workers| == |Init(size).workers|
  {
    if k == 0 {
      InvInit(size);
    } else {
      hide Inv, Apply, Enabled;
      InvRun(size, tr, k - 1);
      assert Next(tr[k - 1], tr[k]);
      var step :| Enabled(tr[k - 1], step) && tr[k] == Apply(tr[k - 1], step);
      InvStep(tr[k - 1], step);
    }
  }

  // ---------------------------------------------------------------------
  // Safety
  // ---------------------------------------------------------------------

  /**
   In every reachable state, whatever panics: the jobs started so far are the
   first ones sent, in send order, each exactly once; every one of them is
   running on exactly one worker, or finished, or panicked; and there are
   `max(size, 1)` workers.
   */
  lemma EachJobOnceInOrder(size: nat, tr: seq<State>, k: nat)
    requires Run(size, tr) && k < |tr|
    ensures var s := tr[k];
            && |s.started| <= s.sent && s.started == UpTo(|s.started|)
            && |s.workers| == (if size == 0 then 1 else size)
            && forall j: nat {:trigger RunningOf(s.workers, j)} ::
                 multiset(s.finished)[j] + multiset(s.panicked)[j] + RunningOf(s.workers, j) == One(j < |s.started|)
  {
    InvRun(size, tr, k);
    var s := tr[k];
    assert s.started == (s.started + s.queue)[..|s.started|];
    assert UpTo(s.sent)[..|s.started|] == UpTo(|s.started|);
    forall j: nat
      ensures multiset(s.finished)[j] + multiset(s.panicked)[j] + RunningOf(s.workers, j) == One(j < |s.started|)
    {
      assert Accounted(s, j);
      UpToOnce(|s.started|, j);
    }
  }

  lemma {:induction false} UpToOnce(n: nat, j: nat)
    ensures multiset(UpTo(n))[j] == One(j < n)
  {
    if n == 0 {
    } else {
      UpToOnce(n - 1, j);
      assert UpTo(n) == UpTo(n - 1) + [n - 1];
    }
  }

  // ---------------------------------------------------------------------
  // Progress and shutdown
  // ---------------------------------------------------------------------

  /** A queued job never waits for a worker that is idle: the lock, or the job, can be taken. */
  lemma IdleWorkerTakesJob(s: State, w: nat)
    requires Inv(s) && s.queue != [] && w < |s.workers| && (s.workers[w].Waiting? || s.workers[w].Holding?)
    ensures exists v: nat :: Enabled(s, Acquire(v)) || Enabled(s, Recv(v))
  {
    if s.workers[w].Holding? {
      assert Enabled(s, Recv(w));
    } else if LockFree(s) {
      assert Enabled(s, Acquire(w));
    } else {
      var v :| 0 <= v < |s.workers| && s.workers[v].Holding?;
      assert Enabled(s, Recv(v));
    }
  }

  /** After the sender is dropped, some thread can always move until Drop is done. */
  lemma NoDeadlock(s: State)
    requires Inv(s) && !s.open && s.joined < |s.workers|
    ensures exists step :: step != Execute && step != CloseSender && Enabled(s, step)
  {
    var w := s.workers[s.joined];
    if Stopped(w) {
      assert Enabled(s, Join);
    } else if w.Running? {
      assert Enabled(s, Finish(s.joined));
    } else if LockFree(s) {
      assert Enabled(s, Acquire(s.joined));
    } else {
      var v :| 0 <= v < |s.workers| && s.workers[v].Holding?;
      assert Enabled(s, Recv(v)) || Enabled(s, Disconnect(v));
    }
  }

  function Weight(w: Worker): nat {
    match w
    case Running(_) => 3
    case Waiting => 2
    case Holding => 1
    case Exited => 0
    case Dead => 0
  }

  ghost function Weights(workers: seq<Worker>): nat {
    if workers == [] then 0
    else Weights(workers[..|workers| - 1]) + Weight(workers[|workers| - 1])
  }

  lemma {:induction false} WeightsUpdate(workers: seq<Worker>, w: nat, new': Worker)
    requires w < |workers|
    ensures Weights(workers[w := new']) + Weight(workers[w]) == Weights(workers) + Weight(new')
  {
    var n := |workers| - 1;
    var changed := workers[w := new'];
    if w < n {
      WeightsUpdate(workers[..n], w, new');
      assert changed[..n] == workers[..n][w := new'];
    } else {
      assert changed[..n] == workers[..n];
    }
  }

  /** An upper bound on the steps that shutdown still takes. */
  ghost function ShutdownMeasure(s: State): int {
    3 * |s.queue| + Weights(s.workers) + |s.workers| - s.joined
  }

  lemma ShutdownShrinks(s: State, step: Step)
    requires JoinInv(s) && !s.open && Enabled(s, step)
    ensures var s' := Apply(s, step);
            !s'.open && ShutdownMeasure(s') < ShutdownMeasure(s)
  {
    hide Weights, LockFree, JoinInv;
    match step
    case Acquire(w) => WeightsUpdate(s.workers, w, Holding);
    case Recv(w) => WeightsUpdate(s.workers, w, Running(s.queue[0]));
    case Disconnect(w) => WeightsUpdate(s.workers, w, Exited);
    case Finish(w) => WeightsUpdate(s.workers, w, Waiting);
    case Panic(w) => WeightsUpdate(s.workers, w, Dead);
    case Join =>
  }

  lemma StepOf(size: nat, tr: seq<State>, k: nat) returns (step: Step)
    requires Run(size, tr) && k + 1 < |tr|
    ensures Inv(tr[k]) && JoinInv(tr[k]) && Enabled(tr[k], step) && tr[k + 1] == Apply(tr[k], step)
  {
    InvRun(size, tr, k);
    assert Next(tr[k], tr[k + 1]);
    step :| Enabled(tr[k], step) && tr[k + 1] == Apply(tr[k], step);
  }

  /** Shutdown ends: a run has at most as many steps after the sender is dropped as the measure says. */
  lemma {:induction false} ShutdownTerminates(size: nat, tr: seq<State>, a: nat, b: nat)
    requires Run(size, tr) && a <= b < |tr| && !tr[a].open
    ensures !tr[b].open && 0 <= ShutdownMeasure(tr[b]) <= ShutdownMeasure(tr[a]) - (b - a)
    decreases b
  {
    hide Run, Inv, ShutdownMeasure, Apply, Enabled;
    MeasureAtLeastZero(size, tr, b);
    if a == b {
    } else {
      ShutdownTerminates(size, tr, a, b - 1);
      var step := StepOf(size, tr, b - 1);
      ShutdownShrinks(tr[b - 1], step);
    }
  }

  lemma MeasureAtLeastZero(size: nat, tr: seq<State>, k: nat)
    requires Run(size, tr) && k < |tr|
    ensures 0 <= ShutdownMeasure(tr[k])
  {
    InvRun(size, tr, k);
  }

  /** The run cannot be continued: Drop has returned. */
  ghost predicate DropDone(s: State) {
    !s.open && s.joined == |s.workers|
  }

  /** A shutdown that can take no further step is complete. */
  lemma StuckMeansDone(s: State)
    requires Inv(s) && !s.open && forall step :: step != Execute && step != CloseSender ==> !Enabled(s, step)
    ensures DropDone(s)
  {
    if s.joined < |s.workers| { NoDeadlock(s); }
  }

  /** When Drop returns no thread is left, and what was started has run to its end or panicked, once. */
  lemma DropStopsEverything(size: nat, tr: seq<State>, k: nat)
    requires Run(size, tr) && k < |tr| && DropDone(tr[k])
    ensures var s := tr[k];
            && (forall w | 0 <= w < |s.workers| :: Stopped(s.workers[w]))
            && multiset(s.started) == multiset(s.finished) + multiset(s.panicked)
  {
    InvRun(size, tr, k);
    var s := tr[k];
    forall j: nat ensures multiset(s.started)[j] == (multiset(s.finished) + multiset(s.panicked))[j] {
      assert Accounted(s, j);
      NoneRunning(s.workers, j);
    }
  }

  // ---------------------------------------------------------------------
  // Which jobs run
  // ---------------------------------------------------------------------

  /** So far `bad` is right about which jobs panic. */
  ghost predicate Faults(bad: set<nat>, s: State) {
    (forall j | j in s.finished :: j !in bad) && (forall j | j in s.panicked :: j in bad)
  }

  /** Every run is a run for some set of bad jobs. */
  lemma SomeFaults(size: nat, tr: seq<State>, k: nat) returns (bad: set<nat>)
    requires Run(size, tr) && k < |tr|
    ensures Faults(bad, tr[k])
  {
    EachJobOnceInOrder(size, tr, k);
    var s := tr[k];
    bad := set j | j in s.panicked;
    forall j | j in s.finished ensures j !in bad {
      var runs := RunningOf(s.workers, j);
      assert multiset(s.finished)[j] > 0;
      assert j in s.panicked ==> multiset(s.panicked)[j] > 0;
    }
  }

  /** How many of the jobs below `n` are bad. */
  ghost function BadBelow(bad: set<nat>, n: nat): nat {
    if n == 0 then 0 else BadBelow(bad, n - 1) + One(n - 1 in bad)
  }

  lemma {:induction false} BadBelowGrows(bad: set<nat>, m: nat, n: nat)
    requires m <= n
    ensures BadBelow(bad, m) <= BadBelow(bad, n)
  {
    if m == n {
    } else {
      BadBelowGrows(bad, m, n - 1);
    }
  }

  /**
   Each bad job that was started has cost a worker or will; and before the last
   start a worker was left.
   */
  ghost predicate FaultInv(bad: set<nat>, s: State) {
    && Lost(bad, s.workers) == BadBelow(bad, |s.started|)
    && (s.started != [] ==> BadBelow(bad, |s.started| - 1) < |s.workers|)
  }

  lemma FaultRecv(bad: set<nat>, s: State, w: nat)
    requires FaultInv(bad, s) && OrderInv(s) && Enabled(s, Recv(w))
    ensures FaultInv(bad, Apply(s, Recv(w)))
  {
    hide Lost, BadBelow;
    var job := s.queue[0];
    assert (s.started + s.queue)[|s.started|] == job;
    LostUpdate(bad, s.workers, w, Running(job));
    LostBound(bad, s.workers);
    assert BadBelow(bad, job + 1) == BadBelow(bad, job) + One(job in bad) by { BadBelowStep(bad, job); }
  }

  lemma BadBelowStep(bad: set<nat>, n: nat)
    ensures BadBelow(bad, n + 1) == BadBelow(bad, n) + One(n in bad)
  {
  }

  lemma FaultStep(bad: set<nat>, s: State, step: Step)
    requires FaultInv(bad, s) && OrderInv(s) && Enabled(s, step) && Faults(bad, Apply(s, step))
    ensures FaultInv(bad, Apply(s, step))
  {
    hide Lost, BadBelow, OrderInv, LockFree, ReceiverAlive;
    var s' := Apply(s, step);
    match step
    case Acquire(w) => LostUpdate(bad, s.workers, w, Holding);
    case Recv(w) => FaultRecv(bad, s, w);
    case Disconnect(w) => LostUpdate(bad, s.workers, w, Exited);
    case Finish(w) =>
      assert s'.finished[|s.finished|] == s.workers[w].job;
      LostUpdate(bad, s.workers, w, Waiting);
    case Panic(w) =>
      assert s'.panicked[|s.panicked|] == s.workers[w].job;
      LostUpdate(bad, s.workers, w, Dead);
    case _ =>
  }

  lemma FaultsBefore(bad: set<nat>, s: State, step: Step)
    requires Enabled(s, step) && Faults(bad, Apply(s, step))
    ensures Faults(bad, s)
  {
    hide LockFree, ReceiverAlive;
    var s' := Apply(s, step);
    assert s.finished == s'.finished[..|s.finished|] && s.panicked == s'.panicked[..|s.panicked|];
  }

  lemma {:induction false} FaultRun(bad: set<nat>, size: nat, tr: seq<State>, k: nat)
    requires Run(size, tr) && k < |tr| && Faults(bad, tr[k])
    ensures FaultInv(bad, tr[k])
  {
    if k == 0 {
      NoneLost(bad, tr[0].workers);
    } else {
      hide Run, Faults, FaultInv, Enabled, Apply;
      var step := StepOf(size, tr, k - 1);
      FaultsBefore(bad, tr[k - 1], step);
      FaultRun(bad, size, tr, k - 1);
      FaultStep(bad, tr[k - 1], step);
    }
  }

  lemma {:induction false} NoneLost(bad: set<nat>, workers: seq<Worker>)
    requires forall w | 0 <= w < |workers| :: workers[w].Waiting?
    ensures Lost(bad, workers) == 0
  {
    if workers == [] {
    } else {
      NoneLost(bad, workers[..|workers| - 1]);
    }
  }

  /** If a job was not started when Drop returns, every worker was lost to a panic. */
  lemma LossMeansAllDied(size: nat, tr: seq<State>, k: nat)
    requires Run(size, tr) && k < |tr| && DropDone(tr[k])
    ensures var s := tr[k];
            && |s.started| <= s.offered
            && (|s.started| < s.offered ==>
                  |s.panicked| == |s.workers| && forall w | 0 <= w < |s.workers| :: s.workers[w].Dead?)
  {
    InvRun(size, tr, k);
    var s := tr[k];
    LostBound({}, s.workers);
    assert |s.started| + |s.queue| == |s.started + s.queue| == s.sent;
    if s.queue != [] {
      assert forall w | 0 <= w < |s.workers| :: !s.workers[w].Exited?;
    }
  }

  /**
   When Drop returns, every job that was ever given to `execute` has run, exactly
   once, exactly when fewer of the jobs before the last one panic than there are
   workers.
   */
  lemma DropRunsEverythingIff(size: nat, bad: set<nat>, tr: seq<State>, k: nat)
    requires Run(size, tr) && k < |tr| && DropDone(tr[k]) && Faults(bad, tr[k])
    ensures var s, n := tr[k], if size == 0 then 1 else size;
            && (|s.started| == s.offered <==> s.offered == 0 || BadBelow(bad, s.offered - 1) < n)
            && (|s.started| == s.offered ==>
                  s.queue == [] && multiset(s.finished) + multiset(s.panicked) == multiset(UpTo(s.offered)))
  {
    InvRun(size, tr, k);
    EachJobOnceInOrder(size, tr, k);
    FaultRun(bad, size, tr, k);
    DropStopsEverything(size, tr, k);
    LossMeansAllDied(size, tr, k);
    var s := tr[k];
    assert |s.started| + |s.queue| == |s.started + s.queue| == s.sent;
    if |s.started| < s.offered {
      LostBound(bad, s.workers);
      BadBelowGrows(bad, |s.started|, s.offered - 1);
    }
  }

  /** Without panics: every job has finished when Drop returns. */
  lemma DropWithoutPanics(size: nat, tr: seq<State>, k: nat)
    requires Run(size, tr) && k < |tr| && DropDone(tr[k]) && tr[k].panicked == []
    ensures multiset(tr[k].finished) == multiset(UpTo(tr[k].offered)) && tr[k].queue == []
  {
    InvRun(size, tr, k);
    LossMeansAllDied(size, tr, k);
    var bad := SomeFaults(size, tr, k);
    DropRunsEverythingIff(size, bad, tr, k);
  }

  /** A run with one worker, which is lost to the first of three jobs. */
  ghost function PanicRun(k: nat): State {
    match k
    case 0 => State([Waiting], true, [], 0, 0, [], [], [], 0)
    case 1 => State([Waiting], true, [0], 1, 1, [], [], [], 0)
    case 2 => State([Waiting], true, [0, 1], 2, 2, [], [], [], 0)
    case 3 => State([Holding], true, [0, 1], 2, 2, [], [], [], 0)
    case 4 => State([Running(0)], true, [1], 2, 2, [0], [], [], 0)
    case 5 => State([Dead], true, [1], 2, 2, [0], [], [0], 0)
    case 6 => State([Dead], true, [1], 3, 2, [0], [], [0], 0)
    case 7 => State([Dead], false, [1], 3, 2, [0], [], [0], 0)
    case _ => State([Dead], false, [1], 3, 2, [0], [], [0], 1)
  }

  ghost function PanicStep(k: nat): Step {
    match k
    case 0 => Execute
    case 1 => Execute
    case 2 => Acquire(0)
    case 3 => Recv(0)
    case 4 => Panic(0)
    case 5 => Execute
    case 6 => CloseSender
    case _ => Join
  }

  lemma PanicRunSteps(k: nat)
    requires k < 8
    ensures Enabled(PanicRun(k), PanicStep(k)) && PanicRun(k + 1) == Apply(PanicRun(k), PanicStep(k))
  {
    var s := PanicRun(k);
    assert k <= 1 ==> !Stopped(s.workers[0]);
  }

  /** The first job panics: the second stays in the queue, and the third never gets there. */
  lemma PanicLosesJobs() returns (tr: seq<State>)
    ensures Run(1, tr) && DropDone(tr[|tr| - 1]) && tr[|tr| - 1].queue == [1] && tr[|tr| - 1].panicked == [0]
    ensures tr[|tr| - 1].offered == 3 && tr[|tr| - 1].sent == 2
  {
    tr := seq(9, k requires 0 <= k < 9 => PanicRun(k));
    assert tr[0].workers == Init(1).workers;
    forall k | 0 <= k < |tr| - 1 ensures Next(tr[k], tr[k + 1]) {
      PanicRunSteps(k);
    }
  }
}
