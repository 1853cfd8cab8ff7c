/**
 The reader-writer lock as a program over the monitor: a mutex, a condition for
 readers and one for writers, a count of readers and a writer flag.
 */
module Rwlock {
  import opened Basics
  import opened SyncModel
  import opened Monitor
  import opened MonitorProof
  import opened Client

  const RD: Cid := 0
  const WR: Cid := 1

  datatype LockPhase = Locking | Testing | Waiting | Leaving
  datatype UnlockPhase = ULocking | UTesting | UCasting | USignaling | ULeaving

  /** What a thread does next: nothing, a read lock, a write lock, an unlock. */
  datatype Task = Idle | Rd(at: LockPhase) | Wr(at: LockPhase) | Un(un: UnlockPhase)

  /** The lock's fields. `rd` and `wr` are the locks granted and not yet given
      back, by thread; a thread may hold several read locks. No step reads those
      two, except that only holders unlock. */
  datatype Fields = Fields(readers: int, writer: bool, rd: multiset<Tid>, wr: multiset<Tid>)

  /** Thread `t` moves from `h` to `k` through monitor event `e`, and the fields
      from `g` to `f`. */
  predicate RwMove(t: Tid, h: Task, g: Fields, e: Event, k: Task, f: Fields) {
    match h
    case Idle =>
      && e == Quiet && f == g
      && (k == Rd(Locking) || k == Wr(Locking) || (k == Un(ULocking) && (t in g.rd || t in g.wr)))
    case Rd(at) =>
      (match at
       case Locking => e == Enter && k == Rd(Testing) && f == g
       case Testing =>
         if g.writer then e == WaitOn(RD) && k == Rd(Waiting) && f == g
         else e == Quiet && k == Rd(Leaving) && f == g.(readers := g.readers + 1, rd := g.rd + multiset{t})
       case Waiting => e == Resume && k == Rd(Testing) && f == g
       case Leaving => e == Leave && k == Idle && f == g)
    case Wr(at) =>
      (match at
       case Locking => e == Enter && k == Wr(Testing) && f == g
       case Testing =>
         if g.writer || g.readers != 0 then e == WaitOn(WR) && k == Wr(Waiting) && f == g
         else e == Quiet && k == Wr(Leaving) && f == g.(writer := true, wr := g.wr + multiset{t})
       case Waiting => e == Resume && k == Wr(Testing) && f == g
       case Leaving => e == Leave && k == Idle && f == g)
    case Un(at) =>
      (match at
       case ULocking => e == Enter && k == Un(UTesting) && f == g
       case UTesting =>
         && e == Quiet
         && if g.writer then k == Un(UCasting) && f == g.(writer := false, wr := g.wr - multiset{t})
            else k == (if g.readers - 1 == 0 then Un(USignaling) else Un(ULeaving)) &&
                 f == g.(readers := g.readers - 1, rd := g.rd - multiset{t})
       case UCasting => e == Notify(RD, true) && k == Un(USignaling) && f == g
       case USignaling => e == Notify(WR, false) && k == Un(ULeaving) && f == g
       case ULeaving => e == Leave && k == Idle && f == g)
  }

  predicate Inside(k: Task) {
    match k
    case Idle => false
    case Rd(at) => at == Testing || at == Leaving
    case Wr(at) => at == Testing || at == Leaving
    case Un(at) => at != ULocking
  }

  predicate Acts(t: Tid, l: Task, g: Fields, a: Act<Task, Fields>) {
    RwMove(t, l, g, EventFor(a), a.to, if a.Think? then a.shared else g)
  }

  predicate Asleep(k: Task) { k == Rd(Waiting) || k == Wr(Waiting) }

  function On(k: Task): Cid { if k == Rd(Waiting) then RD else WR }

  function Resumed(k: Task): Task { if k == Rd(Waiting) then Rd(Testing) else Wr(Testing) }

  function RwProgram(): Program<Task, Fields> {
    Program(Idle, Acts, Inside, Asleep, On, Resumed)
  }

  /** Over the monitor, and over the mutex and condition variables themselves. */
  type Rw = High<Task, Fields>
  type Real = Low<Task, Fields>

  function TaskOf(s: Rw, t: Tid): Task { Local(RwProgram(), s.local, t) }

  ghost predicate RwInit(x: Real) {
    LowInit(RwProgram(), x) && x.shared == Fields(0, false, multiset{}, multiset{})
  }

  ghost predicate RwNext(x: Real, x': Real) {
    exists t: Tid :: LowStep(RwProgram(), x, t, x')
  }

  ghost predicate Linked(r: seq<Real>, i: nat) {
    i + 1 < |r| ==> RwNext(r[i], r[i + 1])
  }

  ghost predicate RwRun(r: seq<Real>) {
    |r| > 0 && RwInit(r[0]) && forall i: nat :: Linked(r, i)
  }

  // ---- what every run keeps ----

  /** Unlocking, and still holding what it will give back. */
  predicate Unlocking(k: Task) { k == Un(ULocking) || k == Un(UTesting) }

  /** The fields count the locks granted; writers exclude everybody. */
  ghost predicate GrantInv(s: Rw) {
    var g := s.shared;
    && g.readers == |g.rd| && |g.wr| <= 1 && (g.writer <==> |g.wr| == 1) && (g.writer ==> |g.rd| == 0)
    && (forall t: Tid {:trigger TaskOf(s, t)} :: Unlocking(TaskOf(s, t)) ==> t in g.rd || t in g.wr)
  }

  /** Waiting readers are blocked by a writer, or by one on its way to call them. */
  ghost predicate ReaderInv(s: Rw) {
    Queue(s.mon, RD) != [] && !s.shared.writer ==> exists t: Tid :: TaskOf(s, t) == Un(UCasting)
  }

  /** A writer that will test the lock again, or a thread about to signal one. */
  ghost predicate Coming(s: Rw, t: Tid) {
    || (TaskOf(s, t) == Wr(Waiting) && t in s.mon.notified)
    || TaskOf(s, t) == Wr(Testing) || TaskOf(s, t) == Un(UCasting) || TaskOf(s, t) == Un(USignaling)
  }

  ghost predicate WriterInv(s: Rw) {
    Queue(s.mon, WR) != [] && !s.shared.writer && s.shared.readers == 0 ==> exists t: Tid :: Coming(s, t)
  }

  ghost predicate RwInv(s: Rw) {
    HighInv(RwProgram(), s) && GrantInv(s) && ReaderInv(s) && WriterInv(s)
  }

  ghost predicate Moved(s: Rw, t: Tid, k: Task, s': Rw) {
    forall u: Tid {:trigger TaskOf(s', u)} :: TaskOf(s', u) == if u == t then k else TaskOf(s, u)
  }

  lemma GrantCounts(s: Rw, t: Tid, e: Event, k: Task, f: Fields)
    requires GrantInv(s) && RwMove(t, TaskOf(s, t), s.shared, e, k, f)
    ensures f.readers == |f.rd| && |f.wr| <= 1 && (f.writer <==> |f.wr| == 1) && (f.writer ==> |f.rd| == 0)
    ensures k == Un(ULocking) || k == Un(UTesting) ==> t in f.rd || t in f.wr
    ensures forall u: Tid :: u != t && (u in s.shared.rd || u in s.shared.wr) ==> u in f.rd || u in f.wr
  {
    var h := TaskOf(s, t);
    if h == Un(UTesting) {
      assert t in s.shared.rd || t in s.shared.wr;
      assert s.shared.writer ==> s.shared.rd == multiset{};
    }
  }

  lemma KeepGrant(s: Rw, t: Tid, e: Event, k: Task, f: Fields, s': Rw)
    requires GrantInv(s) && RwMove(t, TaskOf(s, t), s.shared, e, k, f) && Moved(s, t, k, s') && s'.shared == f
    ensures GrantInv(s')
  {
    GrantCounts(s, t, e, k, f);
    forall u: Tid ensures Unlocking(TaskOf(s', u)) ==> u in s'.shared.rd || u in s'.shared.wr {
      assert Unlocking(TaskOf(s, u)) ==> u in s.shared.rd || u in s.shared.wr;
    }
  }

  /** Readers stay asleep without a writer only until the broadcast. */
  lemma KeepReader(s: Rw, t: Tid, e: Event, k: Task, f: Fields, s': Rw)
    requires ReaderInv(s) && RwMove(t, TaskOf(s, t), s.shared, e, k, f)
    requires MonStep(false, s.mon, t, e, s'.mon) && Moved(s, t, k, s') && s'.shared == f
    ensures ReaderInv(s')
  {
    if Queue(s'.mon, RD) != [] && !s'.shared.writer {
      if k == Un(UCasting) {
        assert TaskOf(s', t) == Un(UCasting);
      } else {
        assert !s.shared.writer && Queue(s.mon, RD) != [] && TaskOf(s, t) != Un(UCasting);
        var u: Tid :| TaskOf(s, u) == Un(UCasting);
        assert TaskOf(s', u) == Un(UCasting);
      }
    }
  }

  /** The first waiting writer, once signalled, is on its way. */
  lemma SignalsFirst(s: Rw, t: Tid, e: Event, k: Task, f: Fields, s': Rw)
    requires HighInv(RwProgram(), s) && TaskOf(s, t) == Un(USignaling) && Queue(s.mon, WR) != []
    requires RwMove(t, TaskOf(s, t), s.shared, e, k, f) && MonStep(false, s.mon, t, e, s'.mon) && Moved(s, t, k, s')
    ensures Coming(s', Queue(s.mon, WR)[0])
  {
    var w := Queue(s.mon, WR)[0];
    assert WaitsAt(RwProgram(), s, w);
    assert Picked(s.mon, e, WR, w);
    NotifiedMember(s.mon, t, e, s'.mon, w);
  }

  /** A thread other than `t` that was on its way still is. */
  lemma StillComing(s: Rw, t: Tid, e: Event, k: Task, f: Fields, s': Rw, u: Tid)
    requires Coming(s, u) && u != t
    requires RwMove(t, TaskOf(s, t), s.shared, e, k, f) && MonStep(false, s.mon, t, e, s'.mon) && Moved(s, t, k, s')
    ensures Coming(s', u)
  {
  }

  /** A lock that is free after a step of `t` with writers waiting was free, with
      writers waiting, before it, or `t` is about to signal. */
  lemma FreeBefore(s: Rw, t: Tid, e: Event, k: Task, f: Fields, s': Rw)
    requires RwMove(t, TaskOf(s, t), s.shared, e, k, f) && MonStep(false, s.mon, t, e, s'.mon) && s'.shared == f
    requires Queue(s'.mon, WR) != [] && !f.writer && f.readers == 0 && s.shared.readers >= 0
    ensures k == Un(UCasting) || k == Un(USignaling) ||
            (Queue(s.mon, WR) != [] && !s.shared.writer && s.shared.readers == 0)
    ensures TaskOf(s, t) != Wr(Testing)
    ensures TaskOf(s, t) == Wr(Waiting) ==> k == Wr(Testing)
    ensures TaskOf(s, t) == Un(UCasting) ==> k == Un(USignaling)
  {
  }

  lemma KeepWriter(s: Rw, t: Tid, e: Event, k: Task, f: Fields, s': Rw)
    requires HighInv(RwProgram(), s) && WriterInv(s) && s.shared.readers >= 0
    requires RwMove(t, TaskOf(s, t), s.shared, e, k, f)
    requires MonStep(false, s.mon, t, e, s'.mon) && Moved(s, t, k, s') && s'.shared == f
    ensures WriterInv(s')
  {
    if Queue(s'.mon, WR) != [] && !s'.shared.writer && s'.shared.readers == 0 {
      FreeBefore(s, t, e, k, f, s');
      if k == Un(UCasting) || k == Un(USignaling) || k == Wr(Testing) {
        assert Coming(s', t);
      } else {
        var u: Tid :| Coming(s, u);
        if u != t {
          StillComing(s, t, e, k, f, s', u);
        } else {
          SignalsFirst(s, t, e, k, f, s');
        }
      }
    }
  }

  lemma RwKeeps(s: Rw, t: Tid, s': Rw)
    requires Disciplined(RwProgram()) && RwInv(s) && HighStep(RwProgram(), s, t, s')
    ensures RwInv(s')
  {
    HighKeeps(RwProgram(), s, t, s');
    var e, k := StepOf(s, t, s');
    KeepGrant(s, t, e, k, s'.shared, s');
    KeepReader(s, t, e, k, s'.shared, s');
    KeepWriter(s, t, e, k, s'.shared, s');
  }

  lemma StepOf(s: Rw, t: Tid, s': Rw) returns (e: Event, k: Task)
    requires HighStep(RwProgram(), s, t, s')
    ensures RwMove(t, TaskOf(s, t), s.shared, e, k, s'.shared)
    ensures MonStep(false, s.mon, t, e, s'.mon) && Moved(s, t, k, s')
  {
    k := TaskOf(s', t);
    if Asleep(TaskOf(s, t)) {
      e := Resume;
    } else {
      var a :| Acts(t, TaskOf(s, t), s.shared, a) &&
        if a.Think? then s' == High(s.mon, a.shared, s.local[t := a.to])
        else MonStep(false, s.mon, t, EventFor(a), s'.mon) && s' == High(s'.mon, s.shared, s.local[t := a.to]);
      e := EventFor(a);
    }
  }

  lemma RwStart(s: Rw)
    requires HighInv(RwProgram(), s) && MonInit(s.mon) && s.local == map[]
    requires s.shared == Fields(0, false, multiset{}, multiset{})
    ensures RwInv(s)
  {
  }

  lemma RwDisciplined()
    ensures Disciplined(RwProgram())
  {
    var pr := RwProgram();
    forall t: Tid, l: Task, g: Fields, a: Act<Task, Fields> ensures pr.acts(t, l, g, a) ==> Proper(pr, l, g, a) {
      assert pr.acts(t, l, g, a) == Acts(t, l, g, a);
    }
  }

  lemma RwBegins(x: Real)
    requires RwInit(x)
    ensures LowInv(RwProgram(), x) && RwInv(Lift(x))
  {
    RwDisciplined();
    LowStarts(RwProgram(), x);
    RwStart(Lift(x));
  }

  lemma {:induction false} RwReaches(r: seq<Real>, n: nat)
    requires RwRun(r) && n < |r|
    ensures LowInv(RwProgram(), r[n]) && RwInv(Lift(r[n]))
  {
    if n == 0 {
      RwBegins(r[0]);
    } else {
      RwReaches(r, n - 1);
      assert Linked(r, n - 1);
      RwStepped(r[n - 1], r[n]);
    }
  }

  lemma RwStepped(x: Real, x': Real)
    requires LowInv(RwProgram(), x) && RwInv(Lift(x)) && RwNext(x, x')
    ensures LowInv(RwProgram(), x') && RwInv(Lift(x'))
  {
    RwDisciplined();
    var t: Tid :| LowStep(RwProgram(), x, t, x');
    Simulation(RwProgram(), x, t, x');
    if Lift(x') != Lift(x) {
      RwKeeps(Lift(x), t, Lift(x'));
    }
  }

  /** Writers exclude everybody; the count of readers is exact. */
  lemma ReadersOrWriter(r: seq<Real>, n: nat)
    requires RwRun(r) && n < |r|
    ensures var g := r[n].shared;
            && |g.wr| <= 1 && (|g.wr| > 0 ==> |g.rd| == 0)
            && g.readers == |g.rd| && (g.writer <==> |g.wr| == 1)
  {
    RwReaches(r, n);
  }

  /** With the mutex free: sleeping readers mean an active writer, and sleeping
      writers on a free lock mean a signalled writer that has yet to test again,
      so on a free lock some requester is always awake. */
  lemma NobodyStranded(r: seq<Real>, n: nat)
    requires RwRun(r) && n < |r| && !r[n].sync.m.locked
    ensures Shown(r[n].sync, RD) != [] ==> r[n].shared.writer
    ensures Shown(r[n].sync, WR) != [] && !r[n].shared.writer && r[n].shared.readers == 0 ==>
              exists t: Tid :: TaskOf(Lift(r[n]), t) == Wr(Waiting) && Returns(r[n].sync, t)
    ensures forall t: Tid :: TaskOf(Lift(r[n]), t) == Rd(Waiting) ==> Returns(r[n].sync, t) || t in Shown(r[n].sync, RD)
    ensures forall t: Tid :: TaskOf(Lift(r[n]), t) == Wr(Waiting) ==> Returns(r[n].sync, t) || t in Shown(r[n].sync, WR)
  {
    RwReaches(r, n);
    var s := Lift(r[n]);
    Stranded(s);
    AbsQueue(r[n].sync, RD);
    AbsQueue(r[n].sync, WR);
    forall t: Tid ensures WaitsAt(RwProgram(), s, t) && (t in s.mon.notified <==> Returns(r[n].sync, t)) {
      AbsNotified(r[n].sync, t);
    }
  }

  /** The same over the monitor. */
  lemma Stranded(s: Rw)
    requires RwInv(s) && s.mon.owner == None
    ensures Queue(s.mon, RD) != [] ==> s.shared.writer
    ensures Queue(s.mon, WR) != [] && !s.shared.writer && s.shared.readers == 0 ==>
              exists t: Tid :: TaskOf(s, t) == Wr(Waiting) && t in s.mon.notified
  {
  }

  // ---- what a call gives ----

  /** The locks a thread at `k` has, over those it had when it made the call. */
  predicate Given(k: Task, was: Fields, g: Fields, t: Tid) {
    match k
    case Idle => true
    case Rd(at) => g.rd[t] == was.rd[t] + (if at == Leaving then 1 else 0) && g.wr[t] == was.wr[t]
    case Wr(at) => g.wr[t] == was.wr[t] + (if at == Leaving then 1 else 0) && g.rd[t] == was.rd[t]
    case Un(_) => g.rd[t] + g.wr[t] + (if Unlocking(k) then 0 else 1) == was.rd[t] + was.wr[t]
  }

  /** A step of anybody, `t` being in a call before it, or making one from the fields
      `was` on. */
  lemma GivenStep(s: Rw, u: Tid, s': Rw, t: Tid, was: Fields)
    requires GrantInv(s) && HighStep(RwProgram(), s, u, s')
    requires if TaskOf(s, t) == Idle then s.shared == was else Given(TaskOf(s, t), was, s.shared, t)
    ensures TaskOf(s', t) == Idle && TaskOf(s, t) != Idle ==>
              s'.shared.rd[t] == s.shared.rd[t] && s'.shared.wr[t] == s.shared.wr[t]
    ensures Given(TaskOf(s', t), was, s'.shared, t)
  {
    var e, k := StepOf(s, u, s');
    if u != t {
      OthersGrant(s, u, e, k, s'.shared, t);
    } else {
      OwnGrant(s, t, e, k, s'.shared, was);
    }
  }

  lemma OthersGrant(s: Rw, u: Tid, e: Event, k: Task, f: Fields, t: Tid)
    requires RwMove(u, TaskOf(s, u), s.shared, e, k, f) && t != u
    ensures f.rd[t] == s.shared.rd[t] && f.wr[t] == s.shared.wr[t]
  {
  }

  lemma OwnGrant(s: Rw, t: Tid, e: Event, k: Task, f: Fields, was: Fields)
    requires GrantInv(s) && RwMove(t, TaskOf(s, t), s.shared, e, k, f)
    requires if TaskOf(s, t) == Idle then s.shared == was else Given(TaskOf(s, t), was, s.shared, t)
    ensures k == Idle ==> f == s.shared
    ensures Given(k, was, f, t)
  {
    var g := s.shared;
    if TaskOf(s, t) == Un(UTesting) {
      assert Unlocking(TaskOf(s, t));
      if g.writer { assert t !in g.rd; } else { assert t !in g.wr; }
    }
  }

  /** `t` makes a call in step `i` and is in it up to state `n`. */
  ghost predicate InCall(r: seq<Real>, i: nat, n: nat, t: Tid) {
    && i < n < |r| && TaskOf(Lift(r[i]), t) == Idle
    && forall k: nat :: i < k <= n ==> TaskOf(Lift(r[k]), t) != Idle
  }

  lemma GivenAt(r: seq<Real>, n: nat, t: Tid, was: Fields)
    requires RwRun(r) && n + 1 < |r|
    requires if TaskOf(Lift(r[n]), t) == Idle then r[n].shared == was
             else Given(TaskOf(Lift(r[n]), t), was, r[n].shared, t)
    ensures TaskOf(Lift(r[n + 1]), t) == Idle && TaskOf(Lift(r[n]), t) != Idle ==>
              r[n + 1].shared.rd[t] == r[n].shared.rd[t] && r[n + 1].shared.wr[t] == r[n].shared.wr[t]
    ensures Given(TaskOf(Lift(r[n + 1]), t), was, r[n + 1].shared, t)
  {
    RwReaches(r, n);
    assert Linked(r, n);
    RwDisciplined();
    var u: Tid :| LowStep(RwProgram(), r[n], u, r[n + 1]);
    Simulation(RwProgram(), r[n], u, r[n + 1]);
    if Lift(r[n + 1]) != Lift(r[n]) { GivenStep(Lift(r[n]), u, Lift(r[n + 1]), t, was); }
  }

  lemma {:induction false} GivenInCall(r: seq<Real>, i: nat, n: nat, t: Tid)
    requires RwRun(r) && InCall(r, i, n, t)
    ensures Given(TaskOf(Lift(r[n]), t), r[i].shared, r[n].shared, t)
  {
    if i + 1 < n { GivenInCall(r, i, n - 1, t); }
    GivenAt(r, n - 1, t, r[i].shared);
  }

  /** A call that returns has done what it is for: a read lock gave the caller one read
      lock, a write lock one write lock, and an unlock took one lock from it. */
  lemma CallGives(r: seq<Real>, i: nat, n: nat, t: Tid)
    requires RwRun(r) && InCall(r, i, n, t) && n + 1 < |r| && TaskOf(Lift(r[n + 1]), t) == Idle
    ensures var k, was, g := TaskOf(Lift(r[n]), t), r[i].shared, r[n + 1].shared;
            && (k.Rd? ==> g.rd[t] == was.rd[t] + 1 && g.wr[t] == was.wr[t])
            && (k.Wr? ==> g.wr[t] == was.wr[t] + 1 && g.rd[t] == was.rd[t])
            && (k.Un? ==> g.rd[t] + g.wr[t] + 1 == was.rd[t] + was.wr[t])
  {
    GivenInCall(r, i, n, t);
    GivenAt(r, n, t, r[i].shared);
    ReturnsFrom(r, n, t);
  }

  lemma ReturnsFrom(r: seq<Real>, n: nat, t: Tid)
    requires RwRun(r) && n + 1 < |r| && TaskOf(Lift(r[n]), t) != Idle && TaskOf(Lift(r[n + 1]), t) == Idle
    ensures var k := TaskOf(Lift(r[n]), t); k == Rd(Leaving) || k == Wr(Leaving) || k == Un(ULeaving)
  {
    RwReaches(r, n);
    assert Linked(r, n);
    RwDisciplined();
    var u: Tid :| LowStep(RwProgram(), r[n], u, r[n + 1]);
    Simulation(RwProgram(), r[n], u, r[n + 1]);
    var e, k := StepOf(Lift(r[n]), u, Lift(r[n + 1]));
  }

  /** Whom an unlock calls: the last reader one waiting writer; a writer all waiting
      readers and then one waiting writer. */
  lemma UnlockCalls(s: Rw, t: Tid, s': Rw)
    requires HighStep(RwProgram(), s, t, s') && TaskOf(s, t).Un?
    ensures TaskOf(s, t) == Un(UCasting) ==> Queue(s'.mon, RD) == [] && Queue(s'.mon, WR) == Queue(s.mon, WR)
    ensures TaskOf(s, t) == Un(USignaling) ==> Queue(s'.mon, RD) == Queue(s.mon, RD)
    ensures TaskOf(s, t) == Un(USignaling) ==>
              Queue(s'.mon, WR) == if Queue(s.mon, WR) == [] then [] else Queue(s.mon, WR)[1..]
    ensures TaskOf(s, t) == Un(UTesting) ==>
              if s.shared.writer then TaskOf(s', t) == Un(UCasting)
              else (TaskOf(s', t) == Un(USignaling) <==> s'.shared.readers == 0)
  {
    var e, k := StepOf(s, t, s');
  }
}
