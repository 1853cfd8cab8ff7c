/**
 The mutex and condition variables refine the monitor, step by step.
 */
module MonitorProof {
  import opened Basics
  import opened SyncModel
  import opened SyncInv
  import opened Monitor

  /** On the list of `c`, with the mutex not yet released. */
  predicate Entering(p: PC, c: Cid) {
    p.Unlock? && p.uk == Waiter(c) && !p.u.UWake?
  }

  /** Notified and on the way back to the mutex. */
  predicate Returning(p: PC, l: Loc) {
    || (p.Wait? && (p.w == CReady || (p.w == CSleep && l.InHand?)))
    || (p.Lock? && p.lk != User)
  }

  /** The queue of `c` as signalers can see it: a waiter joins when it releases
      the mutex. */
  function Shown(s: State, c: Cid): seq<Tid> {
    var wl := CondOf(s, c).wl;
    if wl != [] && Entering(At(s, wl[|wl| - 1]), c) then wl[..|wl| - 1] else wl
  }

  function Owner(m: Mutex): Option<Tid> { if m.locked then Some(m.owner) else None }
  function Levels(m: Mutex): nat { if m.locked then m.nesting + 1 else 0 }

  ghost predicate Returns(s: State, t: Tid) { Returning(At(s, t), LocOf(s, t)) }

  function Abs(s: State): Mon {
    Mon(Owner(s.m), Levels(s.m),
        map c | c in s.cs && Shown(s, c) != [] :: Shown(s, c),
        set t | t in s.pc && Returning(At(s, t), LocOf(s, t)))
  }

  /** The event of the next step of `t`. */
  function EventOf(s: State, t: Tid): Event {
    match At(s, t)
    case Lock(_, k, LIn) => if !s.m.locked then (if k == User then Enter else Resume)
                            else if s.recursive && s.m.owner == t then Nest else Quiet
    case Unlock(User, UIn) => Leave
    case Unlock(Waiter(c), UIn) => WaitOn(c)
    case Signal(c, all, SIn) => Notify(c, all)
    case _ => Quiet
  }

  lemma AbsQueue(s: State, c: Cid)
    ensures Queue(Abs(s), c) == Shown(s, c)
  {
  }

  lemma AbsNotified(s: State, t: Tid)
    ensures t in Abs(s).notified <==> Returning(At(s, t), LocOf(s, t))
  {
  }

  /** Whoever enters a wait is the last on its list. */
  ghost predicate TailInv(s: State) {
    forall t: Tid, c: Cid {:trigger At(s, t), CondOf(s, c)} :: Entering(At(s, t), c) ==>
      CondOf(s, c).wl != [] && CondOf(s, c).wl[|CondOf(s, c).wl| - 1] == t
  }

  // ---- from pointwise facts to a step of the monitor ----

  ghost predicate SameShown(s: State, s': State) {
    forall c: Cid {:trigger Shown(s', c)} :: Shown(s', c) == Shown(s, c)
  }

  ghost predicate OtherShown(s: State, c: Cid, s': State) {
    forall d: Cid {:trigger Shown(s', d)} :: d != c ==> Shown(s', d) == Shown(s, d)
  }

  lemma FromSame(s: State, s': State)
    requires SameShown(s, s')
    ensures SameQueues(Abs(s), Abs(s'))
  {
    forall c: Cid ensures Queue(Abs(s'), c) == Queue(Abs(s), c) {
      AbsQueue(s, c);
      AbsQueue(s', c);
    }
  }

  lemma FromOther(s: State, d: Cid, s': State)
    requires OtherShown(s, d, s')
    ensures OtherQueues(Abs(s), d, Abs(s')) && Queue(Abs(s), d) == Shown(s, d) && Queue(Abs(s'), d) == Shown(s', d)
  {
    forall c: Cid ensures c != d ==> Queue(Abs(s'), c) == Queue(Abs(s), c) {
      AbsQueue(s, c);
      AbsQueue(s', c);
    }
    AbsQueue(s, d);
    AbsQueue(s', d);
  }

  /** The notified set after a step, from who returns. */
  lemma FromReturns(s: State, out: set<Tid>, more: set<Tid>, s': State)
    requires forall u: Tid {:trigger Returns(s', u)} :: Returns(s', u) <==> (Returns(s, u) && u !in out) || u in more
    ensures Abs(s').notified == Abs(s).notified - out + more
  {
    forall u: Tid ensures u in Abs(s').notified <==> u in Abs(s).notified - out + more {
      AbsNotified(s, u);
      AbsNotified(s', u);
      assert Returns(s', u) <==> (Returns(s, u) && u !in out) || u in more;
    }
  }

  /** The core of the monitor, by event. */
  ghost predicate CoreStep(recursive: bool, m: Mutex, t: Tid, e: Event, m': Mutex) {
    match e
    case Quiet => Owner(m') == Owner(m) && Levels(m') == Levels(m)
    case Enter => Owner(m) == None && Owner(m') == Some(t) && Levels(m') == 1
    case Resume => Owner(m) == None && Owner(m') == Some(t) && Levels(m') == 1
    case Nest => recursive && Owner(m) == Some(t) && Owner(m') == Some(t) && Levels(m') == Levels(m) + 1
    case Leave =>
      && Owner(m) == Some(t) && Levels(m) > 0 && Levels(m') == Levels(m) - 1
      && Owner(m') == if Levels(m) > 1 then Some(t) else None
    case WaitOn(_) => Owner(m) == Some(t) && Levels(m) == 1 && Owner(m') == None && Levels(m') == 0
    case Notify(_, _) => Owner(m') == Owner(m) && Levels(m') == Levels(m)
  }

  /** The queues, by event. */
  ghost predicate ShownStep(s: State, t: Tid, e: Event, s': State) {
    match e
    case WaitOn(c) => OtherShown(s, c, s') && Shown(s', c) == Shown(s, c) + [t]
    case Notify(c, all) =>
      OtherShown(s, c, s') && Shown(s', c) == if all || Shown(s, c) == [] then [] else Shown(s, c)[1..]
    case _ => SameShown(s, s')
  }

  /** Whom a notification of a queue calls. */
  function Called(q: seq<Tid>, all: bool): set<Tid> {
    if all then Members(q) else if q == [] then {} else {q[0]}
  }

  /** Who returns, by event. */
  ghost predicate ReturnStep(s: State, t: Tid, e: Event, s': State) {
    && (e == Resume ==> Returns(s, t)) && (e == Enter ==> !Returns(s, t))
    && forall u: Tid {:trigger Returns(s', u)} :: Returns(s', u) <==>
         (Returns(s, u) && (e == Resume ==> u != t)) ||
         (e.Notify? && u in Called(Shown(s, e.c), e.all))
  }

  lemma MonNotified(s: State, t: Tid, e: Event, s': State)
    requires ReturnStep(s, t, e, s')
    ensures e == Resume ==> t in Abs(s).notified && Abs(s').notified == Abs(s).notified - {t}
    ensures e == Enter ==> t !in Abs(s).notified
    ensures e != Resume && !e.Notify? ==> Abs(s').notified == Abs(s).notified
    ensures e.Notify? ==> Abs(s').notified == Abs(s).notified + Called(Shown(s, e.c), e.all)
  {
    AbsNotified(s, t);
    var out := if e == Resume then {t} else {};
    var more := if e.Notify? then Called(Shown(s, e.c), e.all) else {};
    FromReturns(s, out, more, s');
  }

  lemma MonAssemble(s: State, t: Tid, e: Event, s': State)
    requires CoreStep(s.recursive, s.m, t, e, s'.m) && ShownStep(s, t, e, s') && ReturnStep(s, t, e, s')
    ensures MonStep(s.recursive, Abs(s), t, e, Abs(s'))
  {
    MonNotified(s, t, e, s');
    if e.WaitOn? || e.Notify? { FromOther(s, e.c, s'); } else { FromSame(s, s'); }
  }

  // ---- queues ----

  /** Nobody enters `c`: all of its list is in view. */
  lemma ShownFull(s: State, c: Cid)
    requires LockInv(s) && (forall u: Tid :: CondOf(s, c).slock == Some(u) ==> !Entering(At(s, u), c))
    ensures Shown(s, c) == CondOf(s, c).wl
  {
  }

  lemma ShownCut(s: State, t: Tid, c: Cid)
    requires TailInv(s) && Entering(At(s, t), c)
    ensures CondOf(s, c).wl == Shown(s, c) + [t]
  {
  }

  lemma ShownKeep(s: State, s': State, c: Cid)
    requires CondOf(s', c).wl == CondOf(s, c).wl
    requires forall u: Tid {:trigger At(s', u)} :: Entering(At(s', u), c) <==> Entering(At(s, u), c)
    ensures Shown(s', c) == Shown(s, c)
  {
  }

  /** A step that leaves the lists alone: a waiter comes into view when it stops
      entering, which is when it releases the mutex. */
  lemma StillShown(s: State, t: Tid, p: PC, s': State)
    requires LockInv(s) && LockInv(s') && TailInv(s) && !EventOf(s, t).Notify?
    requires forall u: Tid {:trigger At(s', u)} :: At(s', u) == if u == t then p else At(s, u)
    requires forall c: Cid {:trigger CondOf(s', c)} :: CondOf(s', c) == CondOf(s, c)
    requires forall c: Cid :: Entering(p, c) <==> Entering(At(s, t), c) && EventOf(s, t) != WaitOn(c)
    ensures TailInv(s') && ShownStep(s, t, EventOf(s, t), s')
  {
    forall u: Tid, c: Cid ensures Entering(At(s', u), c) ==>
      CondOf(s', c).wl != [] && CondOf(s', c).wl[|CondOf(s', c).wl| - 1] == u
    {
      assert Entering(At(s, u), c) ==> CondOf(s, c).wl != [] && CondOf(s, c).wl[|CondOf(s, c).wl| - 1] == u;
    }
    forall c: Cid ensures Shown(s', c) == if EventOf(s, t) == WaitOn(c) then Shown(s, c) + [t] else Shown(s, c) {
      if EventOf(s, t) == WaitOn(c) {
        ShownCut(s, t, c);
        assert InCond(At(s, t), c) <==> CondOf(s, c).slock == Some(t);
        ShownFull(s', c);
      } else {
        ShownKeep(s, s', c);
      }
    }
  }

  // ---- steps on the mutex ----

  /** A waiter enters until it releases the mutex. */
  lemma MutexEnters(s: State, t: Tid, p: PC, m: Mutex, h: nat, l: Loc)
    requires MutexMove(s, t, p, m, h, l)
    ensures forall c: Cid :: Entering(p, c) <==> Entering(At(s, t), c) && EventOf(s, t) != WaitOn(c)
    ensures !EventOf(s, t).Notify?
  {
  }

  lemma MutexCore(s: State, t: Tid, p: PC, m: Mutex, h: nat, l: Loc)
    requires OwnerInv(s) && LocInv(s) && MutexMove(s, t, p, m, h, l)
    ensures CoreStep(s.recursive, s.m, t, EventOf(s, t), m)
    ensures Returning(p, l) <==> Returning(At(s, t), LocOf(s, t)) && EventOf(s, t) != Resume
    ensures EventOf(s, t) == Resume ==> Returning(At(s, t), LocOf(s, t))
    ensures EventOf(s, t) == Enter ==> !Returning(At(s, t), LocOf(s, t))
  {
    assert ClaimOk(At(s, t), Held(s, t));
    assert Held(s, t) == if Owns(s.m, t) then s.m.nesting + 1 else 0;
    assert LocOk(At(s, t), LocOf(s, t));
  }

  lemma MonMutex(s: State, t: Tid, p: PC, m: Mutex, h: nat, l: Loc, s': State)
    requires SyncOk(s) && LockInv(s') && TailInv(s) && MutexMove(s, t, p, m, h, l) && Frame(s, t, p, m, h, l, s')
    ensures TailInv(s') && Follows(s, t, s')
  {
    MutexEnters(s, t, p, m, h, l);
    StillShown(s, t, p, s');
    MutexCore(s, t, p, m, h, l);
    MonAssemble(s, t, EventOf(s, t), s');
  }

  // ---- the last level is unlocked with somebody waiting ----

  lemma MonPop(s: State, t: Tid, k: Caller, s': State)
    requires SyncOk(s) && SyncOk(s') && TailInv(s) && PopMove(s, t, k) && s.m.wl != [] && s'.recursive == s.recursive
    requires Takes(s, t, Unlock(k, UWake(s.m.wl[0])), [s.m.wl[0]], s') && s'.m == Mutex(None, false, 0, 0, s.m.wl[1..])
    requires forall c: Cid {:trigger CondOf(s', c)} :: CondOf(s', c) == CondOf(s, c)
    ensures TailInv(s') && Follows(s, t, s')
  {
    StillShown(s, t, Unlock(k, UWake(s.m.wl[0])), s');
    PopReturns(s, t, k, s');
    assert Held(s, t) == if Owns(s.m, t) then s.m.nesting + 1 else 0;
    MonAssemble(s, t, EventOf(s, t), s');
  }

  lemma PopReturns(s: State, t: Tid, k: Caller, s': State)
    requires LockInv(s) && LocInv(s) && ListInv(s) && PopMove(s, t, k) && s.m.wl != []
    requires Takes(s, t, Unlock(k, UWake(s.m.wl[0])), [s.m.wl[0]], s')
    ensures ReturnStep(s, t, EventOf(s, t), s')
  {
    assert InMutex(At(s, t)) <==> s.m.slock == Some(t);
    MutexListSleeps(s, t, s.m.wl[0]);
    forall u: Tid ensures Returns(s', u) <==> Returns(s, u) {
    }
  }

  // ---- steps on a condition variable ----

  lemma CondTail(s: State, t: Tid, c: Cid, p: PC, x: Cond, l: Loc, s': State)
    requires LockInv(s) && TailInv(s) && CondMove(s, t, c, p, x, l) && CondFrame(s, t, c, p, x, l, s')
    ensures TailInv(s')
  {
    CondEnters(s, t, c, p, x, l);
    assert InCond(At(s, t), c) <==> CondOf(s, c).slock == Some(t);
    forall u: Tid, d: Cid ensures Entering(At(s', u), d) ==>
      CondOf(s', d).wl != [] && CondOf(s', d).wl[|CondOf(s', d).wl| - 1] == u
    {
      assert Entering(At(s, u), d) ==> CondOf(s, d).wl != [] && CondOf(s, d).wl[|CondOf(s, d).wl| - 1] == u;
      assert InCond(At(s, u), d) <==> CondOf(s, d).slock == Some(u);
    }
  }

  lemma CondEnters(s: State, t: Tid, c: Cid, p: PC, x: Cond, l: Loc)
    requires CondMove(s, t, c, p, x, l)
    ensures x.wl == if Entering(p, c) then CondOf(s, c).wl + [t] else CondOf(s, c).wl
    ensures forall d: Cid :: !Entering(At(s, t), d) && (d != c ==> !Entering(p, d))
    ensures Entering(p, c) ==> InCond(At(s, t), c)
    ensures EventOf(s, t) == Quiet || (EventOf(s, t).Notify? && EventOf(s, t).c == c && x.wl == [] && p == Out)
  {
  }

  lemma CondShown(s: State, t: Tid, c: Cid, p: PC, x: Cond, l: Loc, s': State)
    requires LockInv(s) && TailInv(s') && CondMove(s, t, c, p, x, l) && CondFrame(s, t, c, p, x, l, s')
    ensures ShownStep(s, t, EventOf(s, t), s')
  {
    CondEnters(s, t, c, p, x, l);
    forall d: Cid ensures Shown(s', d) == Shown(s, d) {
      if d == c && Entering(p, c) {
        assert InCond(At(s, t), c) <==> CondOf(s, c).slock == Some(t);
        ShownFull(s, c);
        assert Entering(At(s', t), c);
        ShownCut(s', t, c);
      } else {
        ShownKeep(s, s', d);
      }
    }
  }

  lemma CondReturns(s: State, t: Tid, c: Cid, p: PC, x: Cond, l: Loc, s': State)
    requires LocInv(s) && CondMove(s, t, c, p, x, l) && CondFrame(s, t, c, p, x, l, s')
    ensures ReturnStep(s, t, EventOf(s, t), s')
  {
    CondEnters(s, t, c, p, x, l);
    assert LocOk(At(s, t), LocOf(s, t));
    assert Returning(p, l) <==> Returning(At(s, t), LocOf(s, t));
    assert EventOf(s, t).Notify? ==> Shown(s, c) == [];
  }

  lemma MonCond(s: State, t: Tid, c: Cid, p: PC, x: Cond, l: Loc, s': State)
    requires SyncOk(s) && TailInv(s) && CondMove(s, t, c, p, x, l) && CondFrame(s, t, c, p, x, l, s')
    ensures TailInv(s') && Follows(s, t, s')
  {
    CondTail(s, t, c, p, x, l, s');
    CondShown(s, t, c, p, x, l, s');
    CondReturns(s, t, c, p, x, l, s');
    CondEnters(s, t, c, p, x, l);
    MonAssemble(s, t, EventOf(s, t), s');
  }

  // ---- signal and broadcast ----

  lemma DetachShown(s: State, t: Tid, c: Cid, all: bool, ws: seq<Tid>, s': State)
    requires LockInv(s) && LockInv(s') && TailInv(s) && DetachMove(s, t, c, all)
    requires ws == CondOf(s, c).wl[..Taken(all, CondOf(s, c).wl)]
    requires Takes(s, t, Signal(c, all, SWake(ws)), ws, s')
    requires CondOf(s', c) == Cond(None, CondOf(s, c).wl[Taken(all, CondOf(s, c).wl)..])
    requires forall d: Cid {:trigger CondOf(s', d)} :: d != c ==> CondOf(s', d) == CondOf(s, d)
    ensures TailInv(s') && ShownStep(s, t, EventOf(s, t), s') && Shown(s, c) == CondOf(s, c).wl
  {
    assert InCond(At(s, t), c) <==> CondOf(s, c).slock == Some(t);
    forall u: Tid, d: Cid ensures Entering(At(s', u), d) ==>
      CondOf(s', d).wl != [] && CondOf(s', d).wl[|CondOf(s', d).wl| - 1] == u
    {
      assert Entering(At(s, u), d) ==> CondOf(s, d).wl != [] && CondOf(s, d).wl[|CondOf(s, d).wl| - 1] == u;
      assert InCond(At(s, u), d) <==> CondOf(s, d).slock == Some(u);
    }
    ShownFull(s, c);
    ShownFull(s', c);
    forall d: Cid | d != c ensures Shown(s', d) == Shown(s, d) {
      ShownKeep(s, s', d);
    }
  }

  lemma DetachReturns(s: State, t: Tid, c: Cid, all: bool, ws: seq<Tid>, s': State)
    requires LockInv(s) && LocInv(s) && ListInv(s) && DetachMove(s, t, c, all) && Shown(s, c) == CondOf(s, c).wl
    requires ws == CondOf(s, c).wl[..Taken(all, CondOf(s, c).wl)]
    requires Takes(s, t, Signal(c, all, SWake(ws)), ws, s')
    ensures ReturnStep(s, t, EventOf(s, t), s')
  {
    assert InCond(At(s, t), c) <==> CondOf(s, c).slock == Some(t);
    forall u: Tid ensures Returns(s', u) <==> Returns(s, u) || u in ws {
      if u in ws {
        CondListSleeps(s, t, c, u);
        assert LocOk(At(s, u), LocOf(s, u));
      }
    }
  }

  lemma MonDetach(s: State, t: Tid, s': State)
    requires SyncOk(s) && SyncOk(s') && TailInv(s) && DetachStep(s, t, s')
    ensures TailInv(s') && Follows(s, t, s')
  {
    var c, all :| DetachMove(s, t, c, all) &&
      var wl := CondOf(s, c).wl; var n := Taken(all, wl);
      s' == s.(cs := s.cs[c := Cond(None, wl[n..])], loc := Assigned(s.loc, wl[..n], InHand(t)),
               pc := s.pc[t := Signal(c, all, SWake(wl[..n]))]);
    var ws := CondOf(s, c).wl[..Taken(all, CondOf(s, c).wl)];
    DetachTakes(s, t, c, all, s');
    DetachShown(s, t, c, all, ws, s');
    DetachReturns(s, t, c, all, ws, s');
    MonAssemble(s, t, EventOf(s, t), s');
  }

  // ---- wakes ----

  lemma MonWake(s: State, t: Tid, w: Tid, s': State)
    requires SyncOk(s) && TailInv(s) && Target(At(s, t)) == Some(w) && w != t && LocOf(s, w) == InHand(t)
    requires Woken(At(s, w)).Some? && Wakes(s, t, w, AfterWake(At(s, t)), Woken(At(s, w)).value, s')
    ensures TailInv(s') && EventOf(s, t) == Quiet && MonStep(s.recursive, Abs(s), t, Quiet, Abs(s'))
  {
    forall u: Tid, c: Cid ensures Entering(At(s', u), c) <==> Entering(At(s, u), c) {
    }
    forall u: Tid, c: Cid ensures Entering(At(s', u), c) ==>
      CondOf(s', c).wl != [] && CondOf(s', c).wl[|CondOf(s', c).wl| - 1] == u
    {
      assert Entering(At(s, u), c) ==> CondOf(s, c).wl != [] && CondOf(s, c).wl[|CondOf(s, c).wl| - 1] == u;
    }
    forall c: Cid ensures Shown(s', c) == Shown(s, c) {
      ShownKeep(s, s', c);
    }
    forall u: Tid ensures Returns(s', u) <==> Returns(s, u) {
    }
    MonAssemble(s, t, Quiet, s');
  }

  // ---- runs ----

  /** The step from `s` to `s'` is the event of `t`. */
  ghost predicate Follows(s: State, t: Tid, s': State) {
    MonStep(s.recursive, Abs(s), t, EventOf(s, t), Abs(s'))
  }

  /** Some thread takes a step, and the monitor the event of that thread's step. */
  ghost predicate Refines(s: State, s': State) {
    exists t: Tid :: StepBy(s, t, s') && Follows(s, t, s')
  }

  lemma MutexFollows(s: State, t: Tid, s': State)
    requires SyncOk(s) && SyncOk(s') && TailInv(s) && MutexStep(s, t, s')
    ensures TailInv(s') && Follows(s, t, s')
  {
    var p, m, h, l :| MutexMove(s, t, p, m, h, l) && s' == Put(s, t, p, m, h, l);
    PutFrame(s, t, p, m, h, l);
    MonMutex(s, t, p, m, h, l, s');
  }

  lemma PopFollows(s: State, t: Tid, s': State)
    requires SyncOk(s) && SyncOk(s') && TailInv(s) && PopStep(s, t, s')
    ensures TailInv(s') && Follows(s, t, s')
  {
    var k :| PopMove(s, t, k) && s' == Popped(s, t, k);
    PopTakes(s, t, k, s');
    MonPop(s, t, k, s');
  }

  lemma CondFollows(s: State, t: Tid, s': State)
    requires SyncOk(s) && TailInv(s) && CondStep(s, t, s')
    ensures TailInv(s') && Follows(s, t, s')
  {
    var c, p, x, l :| CondMove(s, t, c, p, x, l) &&
      s' == s.(cs := s.cs[c := x], loc := s.loc[t := l], pc := s.pc[t := p]);
    CondPut(s, t, c, p, x, l);
    MonCond(s, t, c, p, x, l, s');
  }

  lemma WakeFollows(s: State, t: Tid, s': State)
    requires SyncOk(s) && TailInv(s) && WakeStep(s, t, s')
    ensures TailInv(s') && Follows(s, t, s')
  {
    WakeFinds(s, t);
    var w := Target(At(s, t)).value;
    assert Wakes(s, t, w, AfterWake(At(s, t)), Woken(At(s, w)).value, s');
    MonWake(s, t, w, s');
  }

  lemma MonNext(s: State, s': State)
    requires SyncOk(s) && SyncOk(s') && TailInv(s) && Next(s, s')
    ensures TailInv(s') && Refines(s, s')
  {
    var t :| StepBy(s, t, s');
    StepFollows(s, t, s');
  }

  lemma StepFollows(s: State, t: Tid, s': State)
    requires SyncOk(s) && SyncOk(s') && TailInv(s) && StepBy(s, t, s')
    ensures TailInv(s') && Follows(s, t, s')
  {
    if MutexStep(s, t, s') {
      MutexFollows(s, t, s');
    } else if PopStep(s, t, s') {
      PopFollows(s, t, s');
    } else if CondStep(s, t, s') {
      CondFollows(s, t, s');
    } else if DetachStep(s, t, s') {
      MonDetach(s, t, s');
    } else {
      WakeFollows(s, t, s');
    }
  }

  /** A quiet step leaves the monitor as it is. */
  lemma QuietSame(s: State, t: Tid, s': State)
    requires Follows(s, t, s') && EventOf(s, t) == Quiet
    ensures Abs(s') == Abs(s)
  {
    forall c: Cid ensures c in Abs(s').queue <==> c in Abs(s).queue {
      AbsQueue(s, c);
      AbsQueue(s', c);
      assert Queue(Abs(s'), c) == Queue(Abs(s), c);
    }
    forall c: Cid | c in Abs(s).queue ensures Abs(s').queue[c] == Abs(s).queue[c] {
      assert Queue(Abs(s'), c) == Queue(Abs(s), c);
    }
  }

  lemma {:induction false} TailRun(r: seq<State>, n: nat)
    requires Run(r) && n < |r|
    ensures SyncOk(r[n]) && TailInv(r[n])
  {
    OkRun(r, n);
    if n > 0 {
      TailRun(r, n - 1);
      assert Linked(r, n - 1);
      MonNext(r[n - 1], r[n]);
    }
  }

  lemma MonStart(s: State)
    requires Init(s)
    ensures MonInit(Abs(s))
  {
  }

  /** Every run of the mutex and its condition variables is, seen through `Abs`,
      a run of the monitor, with the events the code's own steps name. */
  lemma MonitorRefined(r: seq<State>, n: nat)
    requires Run(r) && n + 1 < |r|
    ensures MonInit(Abs(r[0])) && Refines(r[n], r[n + 1])
  {
    MonStart(r[0]);
    TailRun(r, n);
    OkRun(r, n + 1);
    assert Linked(r, n);
    MonNext(r[n], r[n + 1]);
  }
}
