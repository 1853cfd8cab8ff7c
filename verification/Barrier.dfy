/**
 The barrier as a program over the monitor, for a fixed number of at least one
 participant: a count of the waiting, and a generation that wraps at 64 bits.
 */
module Barrier {
  import opened Basics
  import opened SyncModel
  import opened Monitor
  import opened MonitorProof
  import opened Client

  const CV: Cid := 0
  const U32 := 0x1_0000_0000
  const U64 := 0x1_0000_0000_0000_0000

  /** What a thread does next. `gen` is the generation it read, `round` the number
      of rounds completed before it arrived. */
  datatype Task = Idle | Locking | Arriving | Testing(gen: nat, round: nat) | Sleeping(gen: nat, round: nat)
                | Casting(round: nat) | Leaving(round: nat)

  /** The barrier's fields. `rounds` and `arrivals` count completed rounds and
      arrivals without wrapping; no step reads them. */
  datatype Fields = Fields(num: nat, waiting: nat, generation: nat, rounds: nat, arrivals: nat)

  /** Thread `t` moves from `h` to `k` through monitor event `e`, and the fields
      from `g` to `f`. */
  predicate BarMove(t: Tid, h: Task, g: Fields, e: Event, k: Task, f: Fields) {
    match h
    case Idle => e == Quiet && k == Locking && f == g
    case Locking => e == Enter && k == Arriving && f == g
    case Arriving =>
      var w := (g.waiting + 1) % U32;
      && e == Quiet
      && if w >= g.num
         then k == Casting(g.rounds) && f == Fields(g.num, 0, (g.generation + 1) % U64, g.rounds + 1, g.arrivals + 1)
         else k == Testing(g.generation, g.rounds) && f == Fields(g.num, w, g.generation, g.rounds, g.arrivals + 1)
    case Testing(n, r) =>
      f == g && if n == g.generation then e == WaitOn(CV) && k == Sleeping(n, r) else e == Quiet && k == Leaving(r)
    case Sleeping(n, r) => e == Resume && k == Testing(n, r) && f == g
    case Casting(r) => e == Notify(CV, true) && k == Leaving(r) && f == g
    case Leaving(r) => e == Leave && k == Idle && f == g
  }

  predicate Inside(k: Task) {
    k.Arriving? || k.Testing? || k.Casting? || k.Leaving?
  }

  predicate Acts(t: Tid, l: Task, g: Fields, a: Act<Task, Fields>) {
    BarMove(t, l, g, EventFor(a), a.to, if a.Think? then a.shared else g)
  }

  predicate Asleep(k: Task) { k.Sleeping? }

  function On(k: Task): Cid { CV }

  function Resumed(k: Task): Task { if k.Sleeping? then Testing(k.gen, k.round) else k }

  function BarProgram(): Program<Task, Fields> {
    Program(Idle, Acts, Inside, Asleep, On, Resumed)
  }

  /** Over the monitor, and over the mutex and condition variable themselves. */
  type Bar = High<Task, Fields>
  type Real = Low<Task, Fields>

  function TaskOf(s: Bar, t: Tid): Task { Local(BarProgram(), s.local, t) }

  ghost predicate BarInit(x: Real) {
    LowInit(BarProgram(), x) && 1 <= x.shared.num < U32 && x.shared == Fields(x.shared.num, 0, 0, 0, 0)
  }

  ghost predicate BarNext(x: Real, x': Real) {
    exists t: Tid :: LowStep(BarProgram(), x, t, x')
  }

  ghost predicate Linked(r: seq<Real>, i: nat) {
    i + 1 < |r| ==> BarNext(r[i], r[i + 1])
  }

  ghost predicate BarRun(r: seq<Real>) {
    |r| > 0 && BarInit(r[0]) && forall i: nat :: Linked(r, i)
  }

  // ---- what every run keeps ----

  /** Every arrival is in a completed round or still waits in the current one. */
  ghost predicate CountInv(s: Bar) {
    var g := s.shared;
    && 1 <= g.num < U32 && g.waiting < g.num
    && g.arrivals == g.rounds * g.num + g.waiting && g.generation == g.rounds % U64
  }

  /** What a task remembers. */
  predicate TaskOk(k: Task, rounds: nat) {
    match k
    case Testing(g, r) => g == r % U64 && r <= rounds
    case Sleeping(g, r) => g == r % U64 && r <= rounds
    case Casting(r) => r < rounds
    case Leaving(r) => r < rounds
    case _ => true
  }

  ghost predicate TaskInv(s: Bar) {
    forall t: Tid {:trigger TaskOf(s, t)} :: TaskOk(TaskOf(s, t), s.shared.rounds)
  }

  predicate Stale(s: Bar, t: Tid) {
    TaskOf(s, t).Sleeping? && TaskOf(s, t).gen != s.shared.generation
  }

  /** Only a broadcast still to come explains a sleeper of another generation. */
  ghost predicate SleepInv(s: Bar) {
    forall t: Tid {:trigger TaskOf(s, t)} :: t in Queue(s.mon, CV) && Stale(s, t) ==>
      s.mon.owner.Some? && TaskOf(s, s.mon.owner.value).Casting?
  }

  /** Arrived in round `r` and not yet past the test. */
  predicate InRound(k: Task, r: nat) {
    (k.Testing? || k.Sleeping?) && k.round == r
  }

  function Present(s: Bar): set<Tid> {
    set t | t in s.local && InRound(s.local[t], s.shared.rounds)
  }

  ghost predicate BarInv(s: Bar) {
    HighInv(BarProgram(), s) && CountInv(s) && TaskInv(s) && SleepInv(s) && |Present(s)| == s.shared.waiting
  }

  ghost predicate Moved(s: Bar, t: Tid, k: Task, s': Bar) {
    forall u: Tid {:trigger TaskOf(s', u)} :: TaskOf(s', u) == if u == t then k else TaskOf(s, u)
  }

  lemma KeepCount(s: Bar, t: Tid, e: Event, k: Task, f: Fields, s': Bar)
    requires CountInv(s) && BarMove(t, TaskOf(s, t), s.shared, e, k, f) && s'.shared == f
    ensures CountInv(s')
  {
    NextGeneration(s.shared.rounds);
    NextRound(s.shared.rounds, s.shared.num);
    SmallWait(s.shared.waiting);
  }

  lemma NextGeneration(r: nat)
    ensures (r % U64 + 1) % U64 == (r + 1) % U64
  {
  }

  lemma NextRound(r: nat, num: nat)
    ensures (r + 1) * num == r * num + num
  {
  }

  lemma SmallWait(w: nat)
    requires w + 1 < U32
    ensures (w + 1) % U32 == w + 1
  {
  }

  lemma KeepTask(s: Bar, t: Tid, e: Event, k: Task, f: Fields, s': Bar)
    requires TaskInv(s) && s.shared.generation == s.shared.rounds % U64
    requires BarMove(t, TaskOf(s, t), s.shared, e, k, f) && Moved(s, t, k, s') && s'.shared == f
    ensures TaskInv(s')
  {
  }

  lemma KeepSleep(s: Bar, t: Tid, e: Event, k: Task, f: Fields, s': Bar)
    requires HighInv(BarProgram(), s) && Owning(BarProgram(), s') && SleepInv(s)
    requires BarMove(t, TaskOf(s, t), s.shared, e, k, f)
    requires MonStep(false, s.mon, t, e, s'.mon) && Moved(s, t, k, s') && s'.shared == f
    ensures SleepInv(s')
  {
    forall u: Tid ensures u in Queue(s'.mon, CV) && Stale(s', u) ==>
      s'.mon.owner.Some? && TaskOf(s', s'.mon.owner.value).Casting?
    {
      QueueMember(s.mon, t, e, s'.mon, CV, u);
      assert WaitsAt(BarProgram(), s, u) && WaitsAt(BarProgram(), s, t);
      assert s.mon.owner == Some(t) <==> Inside(TaskOf(s, t));
      assert s'.mon.owner == Some(t) <==> Inside(TaskOf(s', t));
    }
  }

  /** Who is present, after a step that completes no round and after one that does. */
  lemma StillPresent(s: Bar, t: Tid, e: Event, k: Task, f: Fields, s': Bar)
    requires s.shared.generation == s.shared.rounds % U64 && TaskInv(s) && f.rounds == s.shared.rounds
    requires BarMove(t, TaskOf(s, t), s.shared, e, k, f) && Moved(s, t, k, s') && s'.shared == f
    ensures Present(s') == if TaskOf(s, t) == Arriving then Present(s) + {t} else Present(s)
  {
    assert TaskOk(TaskOf(s, t), s.shared.rounds);
    forall u: Tid ensures u in Present(s') <==> u in Present(s) || (u == t && TaskOf(s, t) == Arriving) {
      PresentIs(s, u);
      PresentIs(s', u);
    }
  }

  lemma NonePresent(s: Bar, t: Tid, e: Event, k: Task, f: Fields, s': Bar)
    requires TaskInv(s) && f.rounds != s.shared.rounds
    requires BarMove(t, TaskOf(s, t), s.shared, e, k, f) && Moved(s, t, k, s') && s'.shared == f
    ensures Present(s') == {} && f.waiting == 0
  {
    forall u: Tid ensures u !in Present(s') {
      PresentIs(s', u);
      assert TaskOk(TaskOf(s, u), s.shared.rounds);
    }
  }

  lemma PresentIs(s: Bar, t: Tid)
    ensures t in Present(s) <==> InRound(TaskOf(s, t), s.shared.rounds)
  {
  }

  lemma KeepPresent(s: Bar, t: Tid, e: Event, k: Task, f: Fields, s': Bar)
    requires CountInv(s) && TaskInv(s) && |Present(s)| == s.shared.waiting
    requires BarMove(t, TaskOf(s, t), s.shared, e, k, f) && Moved(s, t, k, s') && s'.shared == f
    ensures |Present(s')| == s'.shared.waiting
  {
    SmallWait(s.shared.waiting);
    PresentIs(s, t);
    if f.rounds == s.shared.rounds {
      StillPresent(s, t, e, k, f, s');
    } else {
      NonePresent(s, t, e, k, f, s');
    }
  }

  lemma BarKeeps(s: Bar, t: Tid, s': Bar)
    requires Disciplined(BarProgram()) && BarInv(s) && HighStep(BarProgram(), s, t, s')
    ensures BarInv(s')
  {
    HighKeeps(BarProgram(), s, t, s');
    var e, k := StepOf(s, t, s');
    KeepCount(s, t, e, k, s'.shared, s');
    KeepTask(s, t, e, k, s'.shared, s');
    KeepSleep(s, t, e, k, s'.shared, s');
    KeepPresent(s, t, e, k, s'.shared, s');
  }

  lemma StepOf(s: Bar, t: Tid, s': Bar) returns (e: Event, k: Task)
    requires HighStep(BarProgram(), s, t, s')
    ensures BarMove(t, TaskOf(s, t), s.shared, e, k, s'.shared)
    ensures MonStep(false, s.mon, t, e, s'.mon) && Moved(s, t, k, s')
  {
    k := TaskOf(s', t);
    if TaskOf(s, t).Sleeping? {
      e := Resume;
    } else {
      var a :| Acts(t, TaskOf(s, t), s.shared, a) &&
        if a.Think? then s' == High(s.mon, a.shared, s.local[t := a.to])
        else MonStep(false, s.mon, t, EventFor(a), s'.mon) && s' == High(s'.mon, s.shared, s.local[t := a.to]);
      e := EventFor(a);
    }
  }

  lemma BarStart(s: Bar)
    requires HighInv(BarProgram(), s) && MonInit(s.mon) && s.local == map[] && 1 <= s.shared.num < U32
    requires s.shared == Fields(s.shared.num, 0, 0, 0, 0)
    ensures BarInv(s)
  {
  }

  lemma BarDisciplined()
    ensures Disciplined(BarProgram())
  {
    var pr := BarProgram();
    forall t: Tid, l: Task, g: Fields, a: Act<Task, Fields> ensures pr.acts(t, l, g, a) ==> Proper(pr, l, g, a) {
      assert pr.acts(t, l, g, a) == Acts(t, l, g, a);
    }
  }

  lemma BarBegins(x: Real)
    requires BarInit(x)
    ensures LowInv(BarProgram(), x) && BarInv(Lift(x))
  {
    BarDisciplined();
    LowStarts(BarProgram(), x);
    BarStart(Lift(x));
  }

  lemma {:induction false} BarReaches(r: seq<Real>, n: nat)
    requires BarRun(r) && n < |r|
    ensures LowInv(BarProgram(), r[n]) && BarInv(Lift(r[n]))
  {
    if n == 0 {
      BarBegins(r[0]);
    } else {
      BarReaches(r, n - 1);
      assert Linked(r, n - 1);
      BarStepped(r[n - 1], r[n]);
    }
  }

  lemma BarStepped(x: Real, x': Real)
    requires LowInv(BarProgram(), x) && BarInv(Lift(x)) && BarNext(x, x')
    ensures LowInv(BarProgram(), x') && BarInv(Lift(x'))
  {
    BarDisciplined();
    var t: Tid :| LowStep(BarProgram(), x, t, x');
    Simulation(BarProgram(), x, t, x');
    if Lift(x') != Lift(x) {
      BarKeeps(Lift(x), t, Lift(x'));
    }
  }

  lemma RoundsFit(g: nat, rounds: nat, num: nat)
    requires g < rounds
    ensures (g + 1) * num <= rounds * num
  {
  }

  /** Arrivals are conserved, as many threads are between arrival and release as
      the barrier counts, and nobody leaves a round before all of its participants
      have arrived. */
  lemma FullRounds(r: seq<Real>, n: nat, t: Tid)
    requires BarRun(r) && n < |r|
    ensures var g := r[n].shared;
            && g.arrivals == g.rounds * g.num + g.waiting && g.waiting < g.num && |Present(Lift(r[n]))| == g.waiting
            && var k := TaskOf(Lift(r[n]), t);
               k.Leaving? ==> (k.round + 1) * g.num <= g.arrivals
  {
    BarReaches(r, n);
    var s := Lift(r[n]);
    assert TaskOk(TaskOf(s, t), s.shared.rounds);
    if TaskOf(s, t).Leaving? {
      RoundsFit(TaskOf(s, t).round, s.shared.rounds, s.shared.num);
    }
  }

  /** With the mutex free, whoever sleeps unnotified recorded the current
      generation; until the generation wraps it is of the current round, and all
      others were notified. */
  lemma SleepersCurrent(r: seq<Real>, n: nat, t: Tid)
    requires BarRun(r) && n < |r| && !r[n].sync.m.locked && TaskOf(Lift(r[n]), t).Sleeping?
    ensures t in Shown(r[n].sync, CV) ==> TaskOf(Lift(r[n]), t).gen == r[n].shared.generation
    ensures t in Shown(r[n].sync, CV) && r[n].shared.rounds < U64 ==> TaskOf(Lift(r[n]), t).round == r[n].shared.rounds
    ensures TaskOf(Lift(r[n]), t).round < r[n].shared.rounds < U64 ==> Returns(r[n].sync, t)
  {
    BarReaches(r, n);
    var s := Lift(r[n]);
    AbsQueue(r[n].sync, CV);
    AbsNotified(r[n].sync, t);
    CurrentSleeper(s, t);
  }

  lemma CurrentSleeper(s: Bar, t: Tid)
    requires BarInv(s) && s.mon.owner == None && TaskOf(s, t).Sleeping?
    ensures t in Queue(s.mon, CV) || t in s.mon.notified
    ensures t in Queue(s.mon, CV) ==> TaskOf(s, t).gen == s.shared.generation
    ensures t in Queue(s.mon, CV) && s.shared.rounds < U64 ==> TaskOf(s, t).round == s.shared.rounds
  {
    assert WaitsAt(BarProgram(), s, t);
    assert TaskOk(TaskOf(s, t), s.shared.rounds);
  }

  // ---- a call arrives ----

  /** The round that a thread at `k` has arrived in. */
  function RoundOf(k: Task): Option<nat> {
    match k
    case Testing(_, r) => Some(r)
    case Sleeping(_, r) => Some(r)
    case Casting(r) => Some(r)
    case Leaving(r) => Some(r)
    case _ => None
  }

  /** In step `m` thread `t` arrives, in a round that is not complete. */
  ghost predicate ArrivesAt(r: seq<Real>, m: nat, t: Tid) {
    && m + 1 < |r| && TaskOf(Lift(r[m]), t) == Arriving && TaskOf(Lift(r[m + 1]), t) != Arriving
    && r[m + 1].shared.arrivals == r[m].shared.arrivals + 1
  }

  /** It has been in that round up to state `n`. */
  ghost predicate ArrivedAt(r: seq<Real>, m: nat, n: nat, t: Tid) {
    && m < n < |r| && ArrivesAt(r, m, t)
    && forall k: nat :: m < k <= n ==> RoundOf(TaskOf(Lift(r[k]), t)) == Some(r[m].shared.rounds)
  }

  lemma RoundStep(s: Bar, u: Tid, s': Bar, t: Tid)
    requires HighStep(BarProgram(), s, u, s') && RoundOf(TaskOf(s', t)).Some?
    ensures RoundOf(TaskOf(s', t)) == RoundOf(TaskOf(s, t)) ||
            (TaskOf(s, t) == Arriving && RoundOf(TaskOf(s', t)) == Some(s.shared.rounds) &&
             s'.shared.arrivals == s.shared.arrivals + 1)
  {
    var e, k := StepOf(s, u, s');
  }

  lemma RoundAt(r: seq<Real>, n: nat, t: Tid)
    requires BarRun(r) && n + 1 < |r| && RoundOf(TaskOf(Lift(r[n + 1]), t)).Some?
    ensures RoundOf(TaskOf(Lift(r[n + 1]), t)) == RoundOf(TaskOf(Lift(r[n]), t)) ||
            (ArrivesAt(r, n, t) && RoundOf(TaskOf(Lift(r[n + 1]), t)) == Some(r[n].shared.rounds))
  {
    BarReaches(r, n);
    assert Linked(r, n);
    BarDisciplined();
    var u: Tid :| LowStep(BarProgram(), r[n], u, r[n + 1]);
    Simulation(BarProgram(), r[n], u, r[n + 1]);
    if Lift(r[n + 1]) != Lift(r[n]) { RoundStep(Lift(r[n]), u, Lift(r[n + 1]), t); }
  }

  lemma {:induction false} Arrived(r: seq<Real>, n: nat, t: Tid)
    requires BarRun(r) && n < |r| && RoundOf(TaskOf(Lift(r[n]), t)).Some?
    ensures exists m: nat :: ArrivedAt(r, m, n, t)
  {
    if n > 0 {
      RoundAt(r, n - 1, t);
      if RoundOf(TaskOf(Lift(r[n - 1]), t)) == RoundOf(TaskOf(Lift(r[n]), t)) {
        Arrived(r, n - 1, t);
        var m: nat :| ArrivedAt(r, m, n - 1, t);
        assert ArrivedAt(r, m, n, t);
      } else {
        assert ArrivedAt(r, n - 1, n, t);
      }
    }
  }

  lemma LeavesFrom(s: Bar, u: Tid, s': Bar, t: Tid)
    requires HighStep(BarProgram(), s, u, s') && TaskOf(s, t) != Idle && TaskOf(s', t) == Idle
    ensures TaskOf(s, t).Leaving?
  {
    var e, k := StepOf(s, u, s');
  }

  /** A wait on the barrier returns only after the caller has arrived, counted once, in
      a round, and that round is complete. */
  lemma ReturnsArrived(r: seq<Real>, n: nat, t: Tid)
    requires BarRun(r) && n + 1 < |r| && TaskOf(Lift(r[n]), t) != Idle && TaskOf(Lift(r[n + 1]), t) == Idle
    ensures exists m: nat :: ArrivedAt(r, m, n, t) && r[m].shared.rounds < r[n].shared.rounds
  {
    BarReaches(r, n);
    assert Linked(r, n);
    BarDisciplined();
    var u: Tid :| LowStep(BarProgram(), r[n], u, r[n + 1]);
    Simulation(BarProgram(), r[n], u, r[n + 1]);
    LeavesFrom(Lift(r[n]), u, Lift(r[n + 1]), t);
    Arrived(r, n, t);
    assert TaskOk(TaskOf(Lift(r[n]), t), r[n].shared.rounds);
  }
}
