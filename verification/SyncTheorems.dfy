/**
 What programs can rely on in every run of a mutex and its condition variables.
 */
module SyncTheorems {
  import opened Basics
  import opened SyncModel
  import opened SyncInv

  /** The record of `w` is in exactly one place: on the mutex's list, on one
      condition's list, or in one waker's hands. */
  ghost predicate OnePlace(s: State, w: Tid) {
    && (w in s.m.wl ==> (forall c: Cid :: w !in CondOf(s, c).wl) && (forall t: Tid :: !Hand(At(s, t), w)))
    && (forall c: Cid {:trigger CondOf(s, c)} ::
          w in CondOf(s, c).wl ==> forall d: Cid :: w in CondOf(s, d).wl ==> d == c)
    && (forall t: Tid {:trigger At(s, t)} :: Hand(At(s, t), w) ==>
          (forall u: Tid :: Hand(At(s, u), w) ==> u == t) && (forall c: Cid :: w !in CondOf(s, c).wl))
    && (w in s.m.wl || (exists c: Cid :: w in CondOf(s, c).wl) || (exists t: Tid :: Hand(At(s, t), w)))
  }

  lemma SleeperPlaced(s: State, w: Tid)
    requires LocInv(s) && ListInv(s) && HandInv(s) && Woken(At(s, w)).Some?
    ensures OnePlace(s, w)
  {
    assert LocOk(At(s, w), LocOf(s, w));
    assert w in s.m.wl <==> LocOf(s, w) == OnMutex;
    assert forall c: Cid :: w in CondOf(s, c).wl <==> LocOf(s, w) == OnCond(c);
    assert forall t: Tid :: Hand(At(s, t), w) <==> LocOf(s, w) == InHand(t);
    match LocOf(s, w)
    case OnMutex =>
    case OnCond(c) => assert w in CondOf(s, c).wl;
    case InHand(t) => assert Hand(At(s, t), w);
  }

  /** Block, then unlock: with the spinlock free, everyone on a list sleeps, once;
      every sleeper has its record in exactly one place; no wake ever failed. */
  lemma Handoff(r: seq<State>, n: nat)
    requires Run(r) && n < |r|
    ensures r[n].m.slock == None ==> forall w: Tid :: w in r[n].m.wl ==> LockSleeps(At(r[n], w))
    ensures forall c: Cid, w: Tid ::
      CondOf(r[n], c).slock == None && w in CondOf(r[n], c).wl ==> At(r[n], w) == Wait(c, CSleep)
    ensures Distinct(r[n].m.wl) && forall c: Cid :: Distinct(CondOf(r[n], c).wl)
    ensures forall w: Tid :: Woken(At(r[n], w)).Some? ==> OnePlace(r[n], w)
    ensures !r[n].failed
  {
    OkRun(r, n);
    var s := r[n];
    if s.m.slock == None {
      forall w: Tid | w in s.m.wl ensures LockSleeps(At(s, w)) {
        assert w in s.m.wl <==> LocOf(s, w) == OnMutex;
        assert LocOk(At(s, w), LocOf(s, w));
        assert InMutex(At(s, w)) <==> s.m.slock == Some(w);
      }
    }
    forall c: Cid, w: Tid | CondOf(s, c).slock == None && w in CondOf(s, c).wl ensures At(s, w) == Wait(c, CSleep) {
      assert w in CondOf(s, c).wl <==> LocOf(s, w) == OnCond(c);
      assert LocOk(At(s, w), LocOf(s, w));
      assert InCond(At(s, w), c) <==> CondOf(s, c).slock == Some(w);
    }
    forall w: Tid | Woken(At(s, w)).Some? ensures OnePlace(s, w) {
      SleeperPlaced(s, w);
    }
  }

  /** Thread `t` holds the record of `w`, wakes it and lets go of the record. */
  ghost predicate WokenBy(s: State, t: Tid, w: Tid, s': State) {
    Hand(At(s, t), w) && Fits(At(s, t), At(s, w)) && !Hand(At(s', t), w) && WakeStep(s, t, s')
  }

  ghost predicate WokenByOne(s: State, w: Tid, s': State) {
    exists t: Tid :: WokenBy(s, t, w, s')
  }

  /** A sleeper leaves its sleep only by a wake, by the one thread that holds its
      record; the wake uses the record up. */
  lemma WokenOnce(r: seq<State>, n: nat, w: Tid)
    requires Run(r) && n + 1 < |r| && Woken(At(r[n], w)).Some? && At(r[n + 1], w) != At(r[n], w)
    ensures WokenByOne(r[n], w, r[n + 1])
    ensures At(r[n + 1], w) == Woken(At(r[n], w)).value && LocOf(r[n + 1], w) == Nowhere
  {
    OkRun(r, n);
    OkRun(r, n + 1);
    assert Linked(r, n);
    var t: Tid :| StepBy(r[n], t, r[n + 1]);
    if WakeStep(r[n], t, r[n + 1]) {
      WakeWakes(r[n], t, w, r[n + 1]);
    } else {
      OnlyOwn(r[n], t, r[n + 1]);
    }
  }

  lemma WakeWakes(s: State, t: Tid, w: Tid, s': State)
    requires SyncOk(s) && SyncOk(s') && WakeStep(s, t, s') && Woken(At(s, w)).Some? && At(s', w) != At(s, w)
    ensures WokenBy(s, t, w, s') && At(s', w) == Woken(At(s, w)).value && LocOf(s', w) == Nowhere
  {
    WakeFinds(s, t);
    assert Hand(At(s, t), w) <==> LocOf(s, w) == InHand(t);
    assert Hand(At(s', t), w) <==> LocOf(s', w) == InHand(t);
  }

  /** Steps other than wakes move only the thread that takes them, which is not asleep. */
  lemma OnlyOwn(s: State, t: Tid, s': State)
    requires MutexStep(s, t, s') || PopStep(s, t, s') || CondStep(s, t, s') || DetachStep(s, t, s')
    ensures Woken(At(s, t)) == None && forall u: Tid :: u != t ==> At(s', u) == At(s, u)
  {
  }

  /** An unlock takes `v` off the mutex's list. */
  ghost predicate TakesOff(s: State, s': State, v: Tid) {
    s.m.wl != [] && s.m.wl[0] == v && exists t: Tid :: PopStep(s, t, s')
  }

  /** Step `m` took `v` off the list, and up to state `n` it has been about to be
      woken or on its way, without having looked at the mutex. */
  ghost predicate TakenAt(r: seq<State>, m: nat, n: nat, v: Tid) {
    && m < n < |r| && TakesOff(r[m], r[m + 1], v)
    && forall s :: s in r[m + 1..n + 1] ==> OnItsWay(At(s, v), LocOf(s, v))
  }

  ghost predicate YetToRetry(r: seq<State>, n: nat, v: Tid) {
    exists m: nat :: TakenAt(r, m, n, v)
  }

  lemma NewlySent(s: State, s': State, v: Tid)
    requires Next(s, s') && v in s'.sent && v !in s.sent
    ensures TakesOff(s, s', v)
  {
    var t: Tid :| StepBy(s, t, s');
    assert PopStep(s, t, s');
  }

  lemma StillTaken(r: seq<State>, m: nat, n: nat, v: Tid)
    requires TakenAt(r, m, n, v) && n + 1 < |r| && OnItsWay(At(r[n + 1], v), LocOf(r[n + 1], v))
    ensures TakenAt(r, m, n + 1, v)
  {
    assert r[m + 1..n + 2] == r[m + 1..n + 1] + [r[n + 1]];
  }

  /** Who was sent is a waiter taken by an unlock that has yet to retry. */
  lemma {:induction false} SentWasTaken(r: seq<State>, n: nat, v: Tid)
    requires Run(r) && n < |r| && v in r[n].sent
    ensures YetToRetry(r, n, v)
  {
    if n > 0 {
      OkRun(r, n);
      assert OnItsWay(At(r[n], v), LocOf(r[n], v));
      if v in r[n - 1].sent {
        SentWasTaken(r, n - 1, v);
        var m: nat :| TakenAt(r, m, n - 1, v);
        StillTaken(r, m, n - 1, v);
      } else {
        assert Linked(r, n - 1);
        NewlySent(r[n - 1], r[n], v);
        assert r[n..n + 1] == [r[n]];
        assert TakenAt(r, n - 1, n, v);
      }
    }
  }

  /** One owner, which must unlock as often as it locked; waiters on a free mutex
      mean that one taken off their list has yet to retry. */
  lemma Exclusive(r: seq<State>, n: nat, t: Tid, u: Tid)
    requires Run(r) && n < |r|
    ensures Held(r[n], t) > 0 && Held(r[n], u) > 0 ==> t == u
    ensures Held(r[n], t) > 0 <==> Owns(r[n].m, t)
    ensures Held(r[n], t) > 0 ==> Held(r[n], t) == r[n].m.nesting + 1
    ensures !r[n].recursive ==> Held(r[n], t) <= 1
    ensures r[n].m.wl != [] && !r[n].m.locked ==> exists v: Tid :: YetToRetry(r, n, v)
  {
    OkRun(r, n);
    assert Held(r[n], t) == if Owns(r[n].m, t) then r[n].m.nesting + 1 else 0;
    assert Held(r[n], u) == if Owns(r[n].m, u) then r[n].m.nesting + 1 else 0;
    if v: Tid :| v in r[n].sent {
      SentWasTaken(r, n, v);
    }
  }

  /** The condition a thread waits for, once it has released the mutex and until it
      is ready again. */
  function WaitsFor(p: PC): Option<Cid> {
    match p
    case Wait(c, w) => if w == CQueued || w == CBlocked || w == CSleep then Some(c) else None
    case Unlock(Waiter(c), UWake(_)) => Some(c)
    case _ => None
  }

  /** A waiter that has released the mutex and has not been taken by a signal is on
      the list, in view of every signal or broadcast that is past its lock point, and
      asleep whenever one is: no signal is missed. */
  lemma NoMissedSignal(r: seq<State>, n: nat, w: Tid, t: Tid, c: Cid)
    requires Run(r) && n < |r| && WaitsFor(At(r[n], w)) == Some(c) && !LocOf(r[n], w).InHand?
    ensures Held(r[n], w) == 0 && w in CondOf(r[n], c).wl
    ensures At(r[n], t).Signal? && At(r[n], t).c == c && At(r[n], t).g == SIn ==> At(r[n], w) == Wait(c, CSleep)
  {
    OkRun(r, n);
    var s := r[n];
    assert LocOk(At(s, w), LocOf(s, w));
    assert w in CondOf(s, c).wl <==> LocOf(s, w) == OnCond(c);
    assert ClaimOk(At(s, w), Held(s, w));
    assert InCond(At(s, w), c) <==> CondOf(s, c).slock == Some(w);
    assert InCond(At(s, t), c) <==> CondOf(s, c).slock == Some(t);
  }

  // ---- how calls end ----

  /** A lock or a spinlock returns with one level more; a trylock returns at its first
      look at the mutex, with one level more unless somebody holds the mutex and the
      caller may not nest, and then as it was. */
  ghost predicate LockEnds(s: State, t: Tid, s': State) {
    At(s, t).Lock? && At(s', t) != At(s, t) ==>
      && (At(s, t).mode == Try && At(s, t).l == LIn ==> At(s', t) == Out)
      && (At(s', t) == Out ==>
            if At(s, t).mode == Try && s.m.locked && !(s.recursive && Held(s, t) > 0)
            then Held(s', t) == Held(s, t) else Held(s', t) == Held(s, t) + 1)
      && (At(s', t) != Out ==> Held(s', t) == Held(s, t))
  }

  /** An unlock gives back one level, in its critical section, and nothing else does. */
  ghost predicate UnlockEnds(s: State, t: Tid, s': State) {
    At(s', t) != At(s, t) && !At(s, t).Lock? ==>
      Held(s, t) - Held(s', t) == if At(s, t).Unlock? && At(s, t).u == UIn then 1 else 0
  }

  /** Only a ULT is BLOCKED with the spinlock still held; an external thread gives it
      back as it begins to spin. */
  ghost predicate BlocksRight(s: State, t: Tid, s': State) {
    At(s', t) != At(s, t) ==>
      && (Blocked(At(s', t)) ==> t !in s.ext)
      && (Woken(At(s', t)).Some? && !Blocked(At(s, t)) ==> t in s.ext)
  }

  predicate Blocked(p: PC) {
    (p.Lock? && p.l == LBlocked) || (p.Wait? && p.w == CBlocked)
  }

  lemma MutexEnds(s: State, t: Tid, s': State)
    requires OwnerInv(s) && MutexStep(s, t, s')
    ensures LockEnds(s, t, s') && UnlockEnds(s, t, s') && BlocksRight(s, t, s')
  {
    var p, m, h, l :| MutexMove(s, t, p, m, h, l) && s' == Put(s, t, p, m, h, l);
    assert At(s', t) == p && Held(s', t) == h;
    assert Held(s, t) == if Owns(s.m, t) then s.m.nesting + 1 else 0;
  }

  lemma OtherEnds(s: State, t: Tid, s': State)
    requires PopStep(s, t, s') || CondStep(s, t, s') || DetachStep(s, t, s')
    ensures LockEnds(s, t, s') && UnlockEnds(s, t, s') && BlocksRight(s, t, s')
  {
  }

  lemma StepEnds(s: State, s': State, t: Tid)
    requires SyncOk(s) && Next(s, s')
    ensures LockEnds(s, t, s') && UnlockEnds(s, t, s') && BlocksRight(s, t, s')
  {
    var x: Tid :| StepBy(s, x, s');
    if WakeStep(s, x, s') {
      WakeEnds(s, x, s', t);
    } else if x != t {
      OnlyOwn(s, x, s');
    } else if MutexStep(s, t, s') {
      MutexEnds(s, t, s');
    } else {
      OtherEnds(s, t, s');
    }
  }

  lemma WakeEnds(s: State, x: Tid, s': State, t: Tid)
    requires SyncOk(s) && WakeStep(s, x, s')
    ensures LockEnds(s, t, s') && UnlockEnds(s, t, s') && BlocksRight(s, t, s')
  {
    WakeFinds(s, x);
    assert Held(s', t) == Held(s, t);
  }

  /** How calls end, in every run. */
  lemma CallsEnd(r: seq<State>, n: nat, t: Tid)
    requires Run(r) && n + 1 < |r|
    ensures LockEnds(r[n], t, r[n + 1]) && UnlockEnds(r[n], t, r[n + 1]) && BlocksRight(r[n], t, r[n + 1])
  {
    OkRun(r, n);
    assert Linked(r, n);
    StepEnds(r[n], r[n + 1], t);
  }
}
