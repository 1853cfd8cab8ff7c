/**
 What every run of the mutex and its condition variables keeps: exclusive
 spinlocks, one wait record per waiting thread, every wake finds its thread
 asleep, one owner at a time, and no waiter forgotten on a free mutex.
 */
module SyncInv {
  import opened Basics
  import opened SyncModel

  /** The thread is inside the mutex's, or a condition's, spinlocked section. */
  predicate InMutex(p: PC) {
    (p.Lock? && (p.l == LIn || p.l == LQueued || p.l == LBlocked)) || (p.Unlock? && p.u == UIn)
  }

  predicate InCond(p: PC, c: Cid) {
    || (p.Wait? && p.c == c && (p.w == CIn || p.w == CQueued || p.w == CBlocked))
    || (p.Unlock? && p.uk == Waiter(c))
    || (p.Signal? && p.c == c && p.g == SIn)
  }

  ghost predicate LockInv(s: State) {
    && (forall t: Tid {:trigger At(s, t)} :: InMutex(At(s, t)) <==> s.m.slock == Some(t))
    && (forall t: Tid, c: Cid {:trigger At(s, t), CondOf(s, c)} ::
          InCond(At(s, t), c) <==> CondOf(s, c).slock == Some(t))
  }

  /** Where the record of a thread at `p` may be. A record can be detached only
      once its thread sleeps with the spinlock released. */
  predicate LocOk(p: PC, l: Loc) {
    match p
    case Lock(mode, _, at) =>
      if at == LQueued || at == LBlocked then l == OnMutex && mode == Block
      else if at == LSleep then (l == OnMutex || l.InHand?) && mode == Block
      else l == Nowhere
    case Unlock(Waiter(c), _) => l == OnCond(c)
    case Wait(c, at) =>
      if at == CQueued || at == CBlocked then l == OnCond(c)
      else if at == CSleep then l == OnCond(c) || l.InHand?
      else l == Nowhere
    case _ => l == Nowhere
  }

  ghost predicate LocInv(s: State) {
    forall t: Tid {:trigger At(s, t)} {:trigger LocOf(s, t)} :: LocOk(At(s, t), LocOf(s, t))
  }

  ghost predicate ListInv(s: State) {
    && Distinct(s.m.wl) && (forall w: Tid {:trigger LocOf(s, w)} :: w in s.m.wl <==> LocOf(s, w) == OnMutex)
    && (forall c: Cid {:trigger CondOf(s, c)} :: Distinct(CondOf(s, c).wl))
    && (forall c: Cid, w: Tid {:trigger CondOf(s, c), LocOf(s, w)} ::
          w in CondOf(s, c).wl <==> LocOf(s, w) == OnCond(c))
  }

  /** The thread at `p` has detached the record of `w` and has yet to wake it. */
  predicate Hand(p: PC, w: Tid) {
    (p.Unlock? && p.u == UWake(w)) || (p.Signal? && p.g.SWake? && w in p.g.ws)
  }

  ghost predicate HandInv(s: State) {
    && (forall t: Tid, w: Tid {:trigger At(s, t), LocOf(s, w)} :: Hand(At(s, t), w) <==> LocOf(s, w) == InHand(t))
    && (forall t: Tid {:trigger At(s, t)} :: At(s, t).Signal? && At(s, t).g.SWake? ==> Distinct(At(s, t).g.ws))
  }

  /** What the position of a thread says about the levels it holds. */
  predicate ClaimOk(p: PC, held: nat) {
    match p
    case Unlock(k, at) => if at.UWake? then k != User ==> held == 0 else if k == User then held > 0 else held == 1
    case Wait(_, at) => if at == CWant || at == CIn then held == 1 else held == 0
    case Lock(mode, k, _) => k != User ==> mode == Block && held == 0
    case _ => true
  }

  predicate Owns(m: Mutex, t: Tid) {
    m.locked && m.owner == t
  }

  /** One owner, holding one level more than it has nested. */
  ghost predicate OwnerInv(s: State) {
    && (forall t: Tid {:trigger Held(s, t)} :: Held(s, t) == if Owns(s.m, t) then s.m.nesting + 1 else 0)
    && (!s.m.locked ==> s.m.nesting == 0) && (s.m.nesting > 0 ==> s.recursive)
    && (forall t: Tid {:trigger At(s, t)} :: ClaimOk(At(s, t), Held(s, t)))
  }

  /** Sent to look at the mutex again: about to be woken, or on its way. */
  predicate OnItsWay(p: PC, l: Loc) {
    p.Lock? && p.mode == Block && (p.l == LReady || p.l == LWant || p.l == LIn || (p.l == LSleep && l.InHand?))
  }

  /** With waiters on a free mutex, a waiter taken off its list has yet to retry. */
  ghost predicate HopeInv(s: State) {
    && (s.m.wl != [] && !s.m.locked ==> s.sent != {})
    && forall w: Tid :: w in s.sent ==> OnItsWay(At(s, w), LocOf(s, w))
  }

  predicate LockSleeps(p: PC) {
    p.Lock? && p.mode == Block && p.l == LSleep
  }

  /** What `p` wakes: an unlocker a thread that sleeps in lock, a signaler one
      that sleeps on the same condition. */
  predicate Fits(p: PC, q: PC) {
    if p.Signal? then q == Wait(p.c, CSleep) else LockSleeps(q)
  }

  ghost predicate WakerInv(s: State) {
    forall t: Tid, w: Tid {:trigger At(s, t), At(s, w)} :: Hand(At(s, t), w) ==> Fits(At(s, t), At(s, w))
  }

  ghost predicate SyncOk(s: State) {
    LockInv(s) && LocInv(s) && ListInv(s) && HandInv(s) && OwnerInv(s) && HopeInv(s) && WakerInv(s) && !s.failed
  }

  /** Only `t` moved, to `p`, and it did not sleep. */
  lemma WakerKeep(s: State, t: Tid, p: PC, s': State)
    requires WakerInv(s) && Woken(At(s, t)) == None
    requires forall u: Tid {:trigger At(s', u)} :: At(s', u) == if u == t then p else At(s, u)
    requires forall w: Tid {:trigger At(s, w)} :: Hand(p, w) ==> Fits(p, At(s, w))
    ensures WakerInv(s')
  {
  }

  // ---- steps on the mutex ----

  /** Everything but thread `t` and the mutex is as before. */
  ghost predicate Frame(s: State, t: Tid, p: PC, m: Mutex, h: nat, l: Loc, s': State) {
    && s'.m == m && s'.recursive == s.recursive && s'.failed == s.failed && s'.sent == Arrived(s, t)
    && (forall u: Tid {:trigger At(s', u)} :: At(s', u) == if u == t then p else At(s, u))
    && (forall u: Tid {:trigger Held(s', u)} :: Held(s', u) == if u == t then h else Held(s, u))
    && (forall u: Tid {:trigger LocOf(s', u)} :: LocOf(s', u) == if u == t then l else LocOf(s, u))
    && (forall c: Cid {:trigger CondOf(s', c)} :: CondOf(s', c) == CondOf(s, c))
  }

  lemma PutFrame(s: State, t: Tid, p: PC, m: Mutex, h: nat, l: Loc)
    ensures Frame(s, t, p, m, h, l, Put(s, t, p, m, h, l))
  {
  }

  lemma MutexLock(s: State, t: Tid, p: PC, m: Mutex, h: nat, l: Loc, s': State)
    requires LockInv(s) && MutexMove(s, t, p, m, h, l) && Frame(s, t, p, m, h, l, s')
    ensures LockInv(s')
  {
    assert InMutex(At(s, t)) <==> s.m.slock == Some(t);
    MutexSpin(s, t, p, m, h, l);
    forall u: Tid ensures InMutex(At(s', u)) <==> s'.m.slock == Some(u) {
      assert InMutex(At(s, u)) <==> s.m.slock == Some(u);
    }
    forall u: Tid, c: Cid ensures InCond(At(s', u), c) <==> CondOf(s', c).slock == Some(u) {
      assert InCond(At(s, u), c) <==> CondOf(s, c).slock == Some(u);
    }
  }

  lemma MutexSpin(s: State, t: Tid, p: PC, m: Mutex, h: nat, l: Loc)
    requires MutexMove(s, t, p, m, h, l) && (InMutex(At(s, t)) <==> s.m.slock == Some(t))
    ensures InMutex(p) <==> m.slock == Some(t)
    ensures m.slock == s.m.slock || m.slock == Some(t) || (m.slock == None && s.m.slock == Some(t))
    ensures m.slock == Some(t) ==> s.m.slock == Some(t) || s.m.slock == None
    ensures forall c: Cid :: InCond(p, c) <==> InCond(At(s, t), c)
  {
  }

  /** The record of `t` stays put, or joins the mutex's list at the back. */
  lemma MutexRecord(s: State, t: Tid, p: PC, m: Mutex, h: nat, l: Loc)
    requires MutexMove(s, t, p, m, h, l) && LocOk(At(s, t), LocOf(s, t))
    ensures LocOk(p, l)
    ensures (m.wl == s.m.wl && l == LocOf(s, t)) || (m.wl == s.m.wl + [t] && l == OnMutex && LocOf(s, t) == Nowhere)
    ensures forall w: Tid :: !Hand(p, w) && !Hand(At(s, t), w)
    ensures Woken(At(s, t)) == None
    ensures !(p.Signal? && p.g.SWake?)
  {
  }

  lemma MutexLists(s: State, t: Tid, p: PC, m: Mutex, h: nat, l: Loc, s': State)
    requires LocInv(s) && ListInv(s) && HandInv(s)
    requires MutexMove(s, t, p, m, h, l) && Frame(s, t, p, m, h, l, s')
    ensures LocInv(s') && ListInv(s') && HandInv(s')
  {
    assert LocOk(At(s, t), LocOf(s, t));
    MutexRecord(s, t, p, m, h, l);
    forall u: Tid ensures LocOk(At(s', u), LocOf(s', u)) { assert LocOk(At(s, u), LocOf(s, u)); }
    forall w: Tid ensures w in s'.m.wl <==> LocOf(s', w) == OnMutex {
      assert w in s.m.wl <==> LocOf(s, w) == OnMutex;
    }
    forall c: Cid, w: Tid ensures w in CondOf(s', c).wl <==> LocOf(s', w) == OnCond(c) {
      assert w in CondOf(s, c).wl <==> LocOf(s, w) == OnCond(c);
    }
    forall u: Tid, w: Tid ensures Hand(At(s', u), w) <==> LocOf(s', w) == InHand(u) {
      assert Hand(At(s, u), w) <==> LocOf(s, w) == InHand(u);
    }
  }

  lemma MutexHolds(s: State, t: Tid, p: PC, m: Mutex, h: nat, l: Loc)
    requires OwnerInv(s) && MutexMove(s, t, p, m, h, l)
    ensures ClaimOk(p, h) && h == (if Owns(m, t) then m.nesting + 1 else 0)
    ensures !m.locked ==> m.nesting == 0
    ensures m.nesting > 0 ==> s.recursive
    ensures forall u: Tid :: u != t ==> (Owns(m, u) <==> Owns(s.m, u)) && (Owns(m, u) ==> m.nesting == s.m.nesting)
  {
    assert ClaimOk(At(s, t), Held(s, t));
    assert Held(s, t) == if Owns(s.m, t) then s.m.nesting + 1 else 0;
  }

  lemma MutexOwner(s: State, t: Tid, p: PC, m: Mutex, h: nat, l: Loc, s': State)
    requires OwnerInv(s) && MutexMove(s, t, p, m, h, l) && Frame(s, t, p, m, h, l, s')
    ensures OwnerInv(s')
  {
    MutexHolds(s, t, p, m, h, l);
    forall u: Tid ensures Held(s', u) == if Owns(s'.m, u) then s'.m.nesting + 1 else 0 {
      assert Held(s, u) == if Owns(s.m, u) then s.m.nesting + 1 else 0;
    }
    forall u: Tid ensures ClaimOk(At(s', u), Held(s', u)) { assert ClaimOk(At(s, u), Held(s, u)); }
  }

  /** Whoever looks at a free mutex takes it, and whoever gives up finds it held. */
  lemma MutexHopes(s: State, t: Tid, p: PC, m: Mutex, h: nat, l: Loc)
    requires MutexMove(s, t, p, m, h, l)
    ensures m.wl != [] && !m.locked ==> s.m.wl != [] && !s.m.locked && Arrived(s, t) == s.sent
    ensures t in Arrived(s, t) && OnItsWay(At(s, t), LocOf(s, t)) ==> OnItsWay(p, l)
  {
  }

  lemma MutexHope(s: State, t: Tid, p: PC, m: Mutex, h: nat, l: Loc, s': State)
    requires HopeInv(s) && MutexMove(s, t, p, m, h, l) && Frame(s, t, p, m, h, l, s')
    ensures HopeInv(s')
  {
    MutexHopes(s, t, p, m, h, l);
    forall w: Tid | w in s'.sent ensures OnItsWay(At(s', w), LocOf(s', w)) {
      assert OnItsWay(At(s, w), LocOf(s, w));
    }
  }

  lemma OkMutex(s: State, t: Tid, s': State)
    requires SyncOk(s) && MutexStep(s, t, s')
    ensures SyncOk(s')
  {
    var p, m, h, l :| MutexMove(s, t, p, m, h, l) && s' == Put(s, t, p, m, h, l);
    PutFrame(s, t, p, m, h, l);
    MutexLock(s, t, p, m, h, l, s');
    MutexLists(s, t, p, m, h, l, s');
    MutexOwner(s, t, p, m, h, l, s');
    MutexHope(s, t, p, m, h, l, s');
    assert LocOk(At(s, t), LocOf(s, t));
    MutexRecord(s, t, p, m, h, l);
    WakerKeep(s, t, p, s');
  }

  // ---- detaching records ----

  /** Thread `t` took the records `ws` off a list and moved to `p`. */
  ghost predicate Takes(s: State, t: Tid, p: PC, ws: seq<Tid>, s': State) {
    && s'.recursive == s.recursive && s'.failed == s.failed
    && (forall u: Tid {:trigger At(s', u)} :: At(s', u) == if u == t then p else At(s, u))
    && (forall u: Tid {:trigger LocOf(s', u)} :: LocOf(s', u) == if u in ws then InHand(t) else LocOf(s, u))
  }

  /** The threads whose records are taken sleep, so they are not `t`. */
  lemma TakenRecords(s: State, t: Tid, p: PC, ws: seq<Tid>, s': State)
    requires LocInv(s) && HandInv(s) && Takes(s, t, p, ws, s') && Distinct(ws)
    requires forall w: Tid :: w in ws ==> Woken(At(s, w)).Some?
    requires forall w: Tid :: w in ws ==> !LocOf(s, w).InHand?
    requires forall w: Tid :: Hand(p, w) <==> w in ws
    requires p.Signal? && p.g.SWake? ==> Distinct(p.g.ws)
    requires forall w: Tid :: !Hand(At(s, t), w)
    requires t !in ws && LocOk(p, LocOf(s, t))
    ensures LocInv(s') && HandInv(s')
  {
  }

  /** A record on a list whose spinlock is held by `t`: its thread sleeps. */
  lemma MutexListSleeps(s: State, t: Tid, w: Tid)
    requires LockInv(s) && LocInv(s) && ListInv(s) && s.m.slock == Some(t) && At(s, t).Unlock? && w in s.m.wl
    ensures w != t && LockSleeps(At(s, w)) && LocOf(s, w) == OnMutex
  {
  }

  lemma CondListSleeps(s: State, t: Tid, c: Cid, w: Tid)
    requires LockInv(s) && LocInv(s) && ListInv(s)
    requires CondOf(s, c).slock == Some(t) && At(s, t).Signal? && w in CondOf(s, c).wl
    ensures w != t && At(s, w) == Wait(c, CSleep) && LocOf(s, w) == OnCond(c)
  {
  }

  lemma PopTakes(s: State, t: Tid, k: Caller, s': State)
    requires PopMove(s, t, k) && s' == Popped(s, t, k)
    ensures Takes(s, t, Unlock(k, UWake(s.m.wl[0])), [s.m.wl[0]], s')
    ensures forall u: Tid {:trigger Held(s', u)} :: Held(s', u) == if u == t then Held(s, t) - 1 else Held(s, u)
    ensures forall c: Cid {:trigger CondOf(s', c)} :: CondOf(s', c) == CondOf(s, c)
  {
  }

  lemma PopLists(s: State, t: Tid, k: Caller, s': State)
    requires LockInv(s) && LocInv(s) && ListInv(s) && HandInv(s) && PopMove(s, t, k) && s.m.wl != []
    requires Takes(s, t, Unlock(k, UWake(s.m.wl[0])), [s.m.wl[0]], s') && s'.m.wl == s.m.wl[1..]
    requires forall c: Cid {:trigger CondOf(s', c)} :: CondOf(s', c) == CondOf(s, c)
    ensures LocInv(s') && ListInv(s') && HandInv(s')
  {
    var w := s.m.wl[0];
    assert InMutex(At(s, t)) <==> s.m.slock == Some(t);
    assert LocOk(At(s, t), LocOf(s, t));
    MutexListSleeps(s, t, w);
    TakenRecords(s, t, Unlock(k, UWake(w)), [w], s');
    forall x: Tid ensures x in s'.m.wl <==> LocOf(s', x) == OnMutex {
      assert x in s.m.wl <==> LocOf(s, x) == OnMutex;
      assert s.m.wl == [w] + s.m.wl[1..];
    }
    forall c: Cid, x: Tid ensures x in CondOf(s', c).wl <==> LocOf(s', x) == OnCond(c) {
      assert x in CondOf(s, c).wl <==> LocOf(s, x) == OnCond(c);
    }
  }

  lemma OkPop(s: State, t: Tid, s': State)
    requires SyncOk(s) && PopStep(s, t, s')
    ensures SyncOk(s')
  {
    var k :| PopMove(s, t, k) && s' == Popped(s, t, k);
    PopTakes(s, t, k, s');
    PopLists(s, t, k, s');
    PopRest(s, t, k, s');
    assert InMutex(At(s, t)) <==> s.m.slock == Some(t);
    MutexListSleeps(s, t, s.m.wl[0]);
    WakerKeep(s, t, Unlock(k, UWake(s.m.wl[0])), s');
    PopHope(s, t, k, s');
  }

  /** The waiter taken off the list is on its way. */
  lemma PopHope(s: State, t: Tid, k: Caller, s': State)
    requires HopeInv(s) && PopMove(s, t, k) && s'.sent == s.sent + {s.m.wl[0]} && LockSleeps(At(s, s.m.wl[0]))
    requires Takes(s, t, Unlock(k, UWake(s.m.wl[0])), [s.m.wl[0]], s')
    ensures HopeInv(s')
  {
    forall w: Tid | w in s'.sent ensures OnItsWay(At(s', w), LocOf(s', w)) {
      assert w in s.sent ==> OnItsWay(At(s, w), LocOf(s, w));
    }
  }

  lemma PopRest(s: State, t: Tid, k: Caller, s': State)
    requires LockInv(s) && OwnerInv(s) && PopMove(s, t, k) && s.m.wl != [] && Held(s, t) > 0
    requires Takes(s, t, Unlock(k, UWake(s.m.wl[0])), [s.m.wl[0]], s') && s'.m == Mutex(None, false, 0, 0, s.m.wl[1..])
    requires forall u: Tid {:trigger Held(s', u)} :: Held(s', u) == if u == t then Held(s, t) - 1 else Held(s, u)
    requires forall c: Cid {:trigger CondOf(s', c)} :: CondOf(s', c) == CondOf(s, c)
    ensures LockInv(s') && OwnerInv(s')
  {
    assert InMutex(At(s, t)) <==> s.m.slock == Some(t);
    forall u: Tid ensures InMutex(At(s', u)) <==> s'.m.slock == Some(u) {
      assert InMutex(At(s, u)) <==> s.m.slock == Some(u);
    }
    forall u: Tid, c: Cid ensures InCond(At(s', u), c) <==> CondOf(s', c).slock == Some(u) {
      assert InCond(At(s, u), c) <==> CondOf(s, c).slock == Some(u);
    }
    assert Held(s, t) == if Owns(s.m, t) then s.m.nesting + 1 else 0;
    forall u: Tid ensures Held(s', u) == 0 {
      assert Held(s, u) == if Owns(s.m, u) then s.m.nesting + 1 else 0;
    }
    forall u: Tid ensures ClaimOk(At(s', u), Held(s', u)) { assert ClaimOk(At(s, u), Held(s, u)); }
  }

  // ---- steps on a condition variable ----

  /** Only thread `t` and condition `c` changed. */
  ghost predicate CondFrame(s: State, t: Tid, c: Cid, p: PC, x: Cond, l: Loc, s': State) {
    && s'.m == s.m && s'.recursive == s.recursive && s'.failed == s.failed && s'.sent == s.sent
    && (forall u: Tid {:trigger At(s', u)} :: At(s', u) == if u == t then p else At(s, u))
    && (forall u: Tid {:trigger Held(s', u)} :: Held(s', u) == Held(s, u))
    && (forall u: Tid {:trigger LocOf(s', u)} :: LocOf(s', u) == if u == t then l else LocOf(s, u))
    && (forall d: Cid {:trigger CondOf(s', d)} :: CondOf(s', d) == if d == c then x else CondOf(s, d))
  }

  lemma CondSpin(s: State, t: Tid, c: Cid, p: PC, x: Cond, l: Loc)
    requires CondMove(s, t, c, p, x, l) && (InCond(At(s, t), c) <==> CondOf(s, c).slock == Some(t))
    ensures InCond(p, c) <==> x.slock == Some(t)
    ensures x.slock == CondOf(s, c).slock || x.slock == Some(t) || (x.slock == None && CondOf(s, c).slock == Some(t))
    ensures x.slock == Some(t) ==> CondOf(s, c).slock == Some(t) || CondOf(s, c).slock == None
    ensures forall d: Cid :: d != c ==> !InCond(p, d) && !InCond(At(s, t), d)
    ensures !InMutex(p) && !InMutex(At(s, t))
  {
  }

  lemma CondLock(s: State, t: Tid, c: Cid, p: PC, x: Cond, l: Loc, s': State)
    requires LockInv(s) && CondMove(s, t, c, p, x, l) && CondFrame(s, t, c, p, x, l, s')
    ensures LockInv(s')
  {
    assert InCond(At(s, t), c) <==> CondOf(s, c).slock == Some(t);
    CondSpin(s, t, c, p, x, l);
    forall u: Tid ensures InMutex(At(s', u)) <==> s'.m.slock == Some(u) {
      assert InMutex(At(s, u)) <==> s.m.slock == Some(u);
    }
    forall u: Tid, d: Cid ensures InCond(At(s', u), d) <==> CondOf(s', d).slock == Some(u) {
      assert InCond(At(s, u), d) <==> CondOf(s, d).slock == Some(u);
    }
  }

  lemma CondRecord(s: State, t: Tid, c: Cid, p: PC, x: Cond, l: Loc)
    requires CondMove(s, t, c, p, x, l) && LocOk(At(s, t), LocOf(s, t))
    ensures LocOk(p, l)
    ensures (x.wl == CondOf(s, c).wl && l == LocOf(s, t)) ||
            (x.wl == CondOf(s, c).wl + [t] && l == OnCond(c) && LocOf(s, t) == Nowhere)
    ensures forall w: Tid :: !Hand(p, w) && !Hand(At(s, t), w)
    ensures Woken(At(s, t)) == None
    ensures !(p.Signal? && p.g.SWake?)
  {
  }

  lemma CondLists(s: State, t: Tid, c: Cid, p: PC, x: Cond, l: Loc, s': State)
    requires LocInv(s) && ListInv(s) && HandInv(s)
    requires CondMove(s, t, c, p, x, l) && CondFrame(s, t, c, p, x, l, s')
    ensures LocInv(s') && ListInv(s') && HandInv(s')
  {
    assert LocOk(At(s, t), LocOf(s, t));
    CondRecord(s, t, c, p, x, l);
    forall u: Tid ensures LocOk(At(s', u), LocOf(s', u)) { assert LocOk(At(s, u), LocOf(s, u)); }
    forall w: Tid ensures w in s'.m.wl <==> LocOf(s', w) == OnMutex {
      assert w in s.m.wl <==> LocOf(s, w) == OnMutex;
    }
    assert t in CondOf(s, c).wl <==> LocOf(s, t) == OnCond(c);
    forall d: Cid ensures Distinct(CondOf(s', d).wl) { assert Distinct(CondOf(s, d).wl); }
    forall d: Cid, w: Tid ensures w in CondOf(s', d).wl <==> LocOf(s', w) == OnCond(d) {
      assert w in CondOf(s, d).wl <==> LocOf(s, w) == OnCond(d);
    }
    forall u: Tid, w: Tid ensures Hand(At(s', u), w) <==> LocOf(s', w) == InHand(u) {
      assert Hand(At(s, u), w) <==> LocOf(s, w) == InHand(u);
    }
  }

  lemma CondClaim(s: State, t: Tid, c: Cid, p: PC, x: Cond, l: Loc)
    requires CondMove(s, t, c, p, x, l) && ClaimOk(At(s, t), Held(s, t))
    ensures ClaimOk(p, Held(s, t)) && !At(s, t).Lock?
  {
  }

  lemma CondRest(s: State, t: Tid, c: Cid, p: PC, x: Cond, l: Loc, s': State)
    requires OwnerInv(s) && HopeInv(s) && CondMove(s, t, c, p, x, l) && CondFrame(s, t, c, p, x, l, s')
    ensures OwnerInv(s') && HopeInv(s')
  {
    assert ClaimOk(At(s, t), Held(s, t));
    CondClaim(s, t, c, p, x, l);
    forall u: Tid ensures Held(s', u) == if Owns(s'.m, u) then s'.m.nesting + 1 else 0 {
      assert Held(s, u) == if Owns(s.m, u) then s.m.nesting + 1 else 0;
    }
    forall u: Tid ensures ClaimOk(At(s', u), Held(s', u)) { assert ClaimOk(At(s, u), Held(s, u)); }
    forall w: Tid | w in s.sent ensures OnItsWay(At(s', w), LocOf(s', w)) {
      assert OnItsWay(At(s, w), LocOf(s, w));
    }
  }

  lemma CondPut(s: State, t: Tid, c: Cid, p: PC, x: Cond, l: Loc)
    ensures CondFrame(s, t, c, p, x, l, s.(cs := s.cs[c := x], loc := s.loc[t := l], pc := s.pc[t := p]))
  {
  }

  lemma OkCond(s: State, t: Tid, s': State)
    requires SyncOk(s) && CondStep(s, t, s')
    ensures SyncOk(s')
  {
    var c, p, x, l :| CondMove(s, t, c, p, x, l) &&
      s' == s.(cs := s.cs[c := x], loc := s.loc[t := l], pc := s.pc[t := p]);
    CondPut(s, t, c, p, x, l);
    CondLock(s, t, c, p, x, l, s');
    CondLists(s, t, c, p, x, l, s');
    CondRest(s, t, c, p, x, l, s');
    assert LocOk(At(s, t), LocOf(s, t));
    CondRecord(s, t, c, p, x, l);
    WakerKeep(s, t, p, s');
  }

  // ---- signal and broadcast ----

  lemma DetachTakes(s: State, t: Tid, c: Cid, all: bool, s': State)
    requires DetachMove(s, t, c, all)
    requires var wl := CondOf(s, c).wl; var n := Taken(all, wl);
             s' == s.(cs := s.cs[c := Cond(None, wl[n..])], loc := Assigned(s.loc, wl[..n], InHand(t)),
                      pc := s.pc[t := Signal(c, all, SWake(wl[..n]))])
    ensures var ws := CondOf(s, c).wl[..Taken(all, CondOf(s, c).wl)]; Takes(s, t, Signal(c, all, SWake(ws)), ws, s')
    ensures forall u: Tid {:trigger Held(s', u)} :: Held(s', u) == Held(s, u)
    ensures forall d: Cid {:trigger CondOf(s', d)} :: d != c ==> CondOf(s', d) == CondOf(s, d)
    ensures CondOf(s', c) == Cond(None, CondOf(s, c).wl[Taken(all, CondOf(s, c).wl)..]) && s'.m == s.m
  {
  }

  lemma DetachLists(s: State, t: Tid, c: Cid, all: bool, ws: seq<Tid>, rest: seq<Tid>, s': State)
    requires LockInv(s) && LocInv(s) && ListInv(s) && HandInv(s) && DetachMove(s, t, c, all)
    requires var wl := CondOf(s, c).wl; ws == wl[..Taken(all, wl)] && rest == wl[Taken(all, wl)..]
    requires Takes(s, t, Signal(c, all, SWake(ws)), ws, s') && s'.m == s.m && CondOf(s', c).wl == rest
    requires forall d: Cid {:trigger CondOf(s', d)} :: d != c ==> CondOf(s', d) == CondOf(s, d)
    ensures LocInv(s') && ListInv(s') && HandInv(s')
  {
    var wl := CondOf(s, c).wl;
    assert InCond(At(s, t), c) <==> CondOf(s, c).slock == Some(t);
    assert LocOk(At(s, t), LocOf(s, t));
    assert Distinct(wl);
    SplitList(wl, Taken(all, wl), t);
    forall w: Tid | w in ws ensures w != t && Woken(At(s, w)).Some? && !LocOf(s, w).InHand? {
      CondListSleeps(s, t, c, w);
    }
    TakenRecords(s, t, Signal(c, all, SWake(ws)), ws, s');
    forall x: Tid ensures x in ws ==> LocOf(s, x) == OnCond(c) {
      assert x in wl <==> LocOf(s, x) == OnCond(c);
    }
    forall x: Tid ensures x in s'.m.wl <==> LocOf(s', x) == OnMutex {
      assert x in s.m.wl <==> LocOf(s, x) == OnMutex;
    }
    forall d: Cid ensures Distinct(CondOf(s', d).wl) { assert Distinct(CondOf(s, d).wl); }
    forall d: Cid, x: Tid ensures x in CondOf(s', d).wl <==> LocOf(s', x) == OnCond(d) {
      assert x in CondOf(s, d).wl <==> LocOf(s, x) == OnCond(d);
      SplitList(wl, Taken(all, wl), x);
    }
  }

  lemma DetachRest(s: State, t: Tid, c: Cid, all: bool, ws: seq<Tid>, s': State)
    requires LockInv(s) && OwnerInv(s) && HopeInv(s) && DetachMove(s, t, c, all)
    requires Takes(s, t, Signal(c, all, SWake(ws)), ws, s')
    requires s'.m == s.m && s'.sent == s.sent && CondOf(s', c).slock == None
    requires forall u: Tid {:trigger Held(s', u)} :: Held(s', u) == Held(s, u)
    requires forall d: Cid {:trigger CondOf(s', d)} :: d != c ==> CondOf(s', d) == CondOf(s, d)
    ensures LockInv(s') && OwnerInv(s') && HopeInv(s')
  {
    assert InCond(At(s, t), c) <==> CondOf(s, c).slock == Some(t);
    forall u: Tid ensures InMutex(At(s', u)) <==> s'.m.slock == Some(u) {
      assert InMutex(At(s, u)) <==> s.m.slock == Some(u);
    }
    forall u: Tid, d: Cid ensures InCond(At(s', u), d) <==> CondOf(s', d).slock == Some(u) {
      assert InCond(At(s, u), d) <==> CondOf(s, d).slock == Some(u);
    }
    forall u: Tid ensures Held(s', u) == if Owns(s'.m, u) then s'.m.nesting + 1 else 0 {
      assert Held(s, u) == if Owns(s.m, u) then s.m.nesting + 1 else 0;
    }
    forall u: Tid ensures ClaimOk(At(s', u), Held(s', u)) { assert ClaimOk(At(s, u), Held(s, u)); }
    forall w: Tid | w in s.sent ensures OnItsWay(At(s', w), LocOf(s', w)) {
      assert OnItsWay(At(s, w), LocOf(s, w));
    }
  }

  lemma OkDetach(s: State, t: Tid, s': State)
    requires SyncOk(s) && DetachStep(s, t, s')
    ensures SyncOk(s')
  {
    var c, all :| DetachMove(s, t, c, all) &&
      var wl := CondOf(s, c).wl; var n := Taken(all, wl);
      s' == s.(cs := s.cs[c := Cond(None, wl[n..])], loc := Assigned(s.loc, wl[..n], InHand(t)),
               pc := s.pc[t := Signal(c, all, SWake(wl[..n]))]);
    var wl := CondOf(s, c).wl;
    DetachTakes(s, t, c, all, s');
    DetachLists(s, t, c, all, wl[..Taken(all, wl)], wl[Taken(all, wl)..], s');
    DetachRest(s, t, c, all, wl[..Taken(all, wl)], s');
    assert InCond(At(s, t), c) <==> CondOf(s, c).slock == Some(t);
    forall w: Tid | w in wl[..Taken(all, wl)] ensures At(s, w) == Wait(c, CSleep) {
      CondListSleeps(s, t, c, w);
    }
    WakerKeep(s, t, Signal(c, all, SWake(wl[..Taken(all, wl)])), s');
  }

  // ---- wakes ----

  /** The waker moved on and the sleeper is ready, its record gone. */
  ghost predicate Wakes(s: State, t: Tid, w: Tid, p: PC, q: PC, s': State) {
    && s'.m == s.m && s'.recursive == s.recursive && s'.failed == s.failed && s'.sent == s.sent
    && (forall u: Tid {:trigger At(s', u)} :: At(s', u) == if u == w then q else if u == t then p else At(s, u))
    && (forall u: Tid {:trigger Held(s', u)} :: Held(s', u) == Held(s, u))
    && (forall u: Tid {:trigger LocOf(s', u)} :: LocOf(s', u) == if u == w then Nowhere else LocOf(s, u))
    && (forall d: Cid {:trigger CondOf(s', d)} :: CondOf(s', d) == CondOf(s, d))
  }

  /** Every wake finds its thread asleep. */
  lemma WakeFinds(s: State, t: Tid)
    requires LocInv(s) && HandInv(s) && Target(At(s, t)).Some?
    ensures var w := Target(At(s, t)).value; w != t && LocOf(s, w) == InHand(t) && Woken(At(s, w)).Some?
  {
  }

  lemma WakeMoves(s: State, t: Tid)
    requires Target(At(s, t)).Some?
    ensures var p := At(s, t); var q := AfterWake(p); InMutex(q) == InMutex(p)
    ensures var p := At(s, t); var q := AfterWake(p); forall c: Cid :: InCond(q, c) <==> InCond(p, c)
    ensures forall h: nat :: ClaimOk(At(s, t), h) ==> ClaimOk(AfterWake(At(s, t)), h)
    ensures forall l: Loc :: LocOk(At(s, t), l) ==> LocOk(AfterWake(At(s, t)), l)
    ensures !(AfterWake(At(s, t)).Unlock? && AfterWake(At(s, t)).u.UWake?)
  {
  }

  lemma SleeperMoves(p: PC)
    requires Woken(p).Some?
    ensures var q := Woken(p).value; InMutex(q) == InMutex(p) && forall c: Cid :: InCond(q, c) <==> InCond(p, c)
    ensures forall h: nat :: ClaimOk(p, h) ==> ClaimOk(Woken(p).value, h)
    ensures LocOk(Woken(p).value, Nowhere)
    ensures forall w: Tid :: !Hand(p, w) && !Hand(Woken(p).value, w)
    ensures LockSleeps(p) ==> OnItsWay(Woken(p).value, Nowhere)
  {
  }

  lemma WakeLocks(s: State, t: Tid, w: Tid, s': State)
    requires LockInv(s) && OwnerInv(s) && Target(At(s, t)) == Some(w) && w != t && Woken(At(s, w)).Some?
    requires Wakes(s, t, w, AfterWake(At(s, t)), Woken(At(s, w)).value, s')
    ensures LockInv(s') && OwnerInv(s')
  {
    WakeMoves(s, t);
    SleeperMoves(At(s, w));
    forall u: Tid ensures InMutex(At(s', u)) <==> s'.m.slock == Some(u) {
      assert InMutex(At(s, u)) <==> s.m.slock == Some(u);
    }
    forall u: Tid, c: Cid ensures InCond(At(s', u), c) <==> CondOf(s', c).slock == Some(u) {
      assert InCond(At(s, u), c) <==> CondOf(s, c).slock == Some(u);
    }
    forall u: Tid ensures Held(s', u) == if Owns(s'.m, u) then s'.m.nesting + 1 else 0 {
      assert Held(s, u) == if Owns(s.m, u) then s.m.nesting + 1 else 0;
    }
    forall u: Tid ensures ClaimOk(At(s', u), Held(s', u)) { assert ClaimOk(At(s, u), Held(s, u)); }
  }

  /** The waker lets go of the record it woke, and of no other. */
  lemma WakeHand(p: PC, w: Tid, x: Tid)
    requires Target(p) == Some(w) && (p.Signal? && p.g.SWake? ==> Distinct(p.g.ws))
    ensures Hand(AfterWake(p), x) <==> Hand(p, x) && x != w
    ensures Hand(p, w)
    ensures var q := AfterWake(p); q.Signal? && q.g.SWake? ==> Distinct(q.g.ws)
  {
  }

  lemma WakeLists(s: State, t: Tid, w: Tid, s': State)
    requires LocInv(s) && ListInv(s) && HandInv(s) && Target(At(s, t)) == Some(w) && w != t && Woken(At(s, w)).Some?
    requires LocOf(s, w) == InHand(t)
    requires Wakes(s, t, w, AfterWake(At(s, t)), Woken(At(s, w)).value, s')
    ensures LocInv(s') && ListInv(s') && HandInv(s')
  {
    WakeMoves(s, t);
    SleeperMoves(At(s, w));
    forall u: Tid ensures LocOk(At(s', u), LocOf(s', u)) { assert LocOk(At(s, u), LocOf(s, u)); }
    forall x: Tid ensures x in s'.m.wl <==> LocOf(s', x) == OnMutex {
      assert x in s.m.wl <==> LocOf(s, x) == OnMutex;
    }
    forall c: Cid ensures Distinct(CondOf(s', c).wl) { assert Distinct(CondOf(s, c).wl); }
    forall c: Cid, x: Tid ensures x in CondOf(s', c).wl <==> LocOf(s', x) == OnCond(c) {
      assert x in CondOf(s, c).wl <==> LocOf(s, x) == OnCond(c);
    }
    forall u: Tid, x: Tid ensures Hand(At(s', u), x) <==> LocOf(s', x) == InHand(u) {
      assert Hand(At(s, u), x) <==> LocOf(s, x) == InHand(u);
      WakeHand(At(s, t), w, x);
    }
    forall u: Tid ensures At(s', u).Signal? && At(s', u).g.SWake? ==> Distinct(At(s', u).g.ws) {
      WakeHand(At(s, t), w, w);
      assert At(s, u).Signal? && At(s, u).g.SWake? ==> Distinct(At(s, u).g.ws);
    }
  }

  lemma WakeHope(s: State, t: Tid, w: Tid, s': State)
    requires HopeInv(s) && WakerInv(s) && HandInv(s) && Target(At(s, t)) == Some(w) && w != t && Woken(At(s, w)).Some?
    requires LocOf(s, w) == InHand(t)
    requires Wakes(s, t, w, AfterWake(At(s, t)), Woken(At(s, w)).value, s')
    ensures HopeInv(s') && WakerInv(s')
  {
    WakeMoves(s, t);
    SleeperMoves(At(s, w));
    forall x: Tid | x in s.sent ensures OnItsWay(At(s', x), LocOf(s', x)) {
      assert OnItsWay(At(s, x), LocOf(s, x));
    }
    assert At(s, t).Signal? && At(s, t).g.SWake? ==> Distinct(At(s, t).g.ws);
    forall u: Tid, x: Tid ensures Hand(At(s', u), x) ==> Fits(At(s', u), At(s', x)) {
      WakeHand(At(s, t), w, x);
      assert Hand(At(s, u), x) ==> Fits(At(s, u), At(s, x));
      assert Hand(At(s, u), w) <==> LocOf(s, w) == InHand(u);
    }
  }

  lemma OkWake(s: State, t: Tid, s': State)
    requires SyncOk(s) && WakeStep(s, t, s')
    ensures SyncOk(s')
  {
    WakeFinds(s, t);
    var w := Target(At(s, t)).value;
    assert Wakes(s, t, w, AfterWake(At(s, t)), Woken(At(s, w)).value, s');
    WakeLocks(s, t, w, s');
    WakeLists(s, t, w, s');
    WakeHope(s, t, w, s');
  }

  // ---- runs ----

  lemma OkInit(s: State)
    requires Init(s)
    ensures SyncOk(s)
  {
  }

  lemma {:induction false} OkRun(r: seq<State>, n: nat)
    requires Run(r) && n < |r|
    ensures SyncOk(r[n])
  {
    if n == 0 {
      OkInit(r[0]);
    } else {
      OkRun(r, n - 1);
      assert Linked(r, n - 1);
      OkNext(r[n - 1], r[n]);
    }
  }

  lemma OkNext(s: State, s': State)
    requires SyncOk(s) && Next(s, s')
    ensures SyncOk(s')
  {
    var t: Tid :| StepBy(s, t, s');
    OkStep(s, t, s');
  }

  lemma OkStep(s: State, t: Tid, s': State)
    requires SyncOk(s) && StepBy(s, t, s')
    ensures SyncOk(s')
  {
    if MutexStep(s, t, s') {
      OkMutex(s, t, s');
    } else if PopStep(s, t, s') {
      OkPop(s, t, s');
    } else if CondStep(s, t, s') {
      OkCond(s, t, s');
    } else if DetachStep(s, t, s') {
      OkDetach(s, t, s');
    } else {
      OkWake(s, t, s');
    }
  }
}
