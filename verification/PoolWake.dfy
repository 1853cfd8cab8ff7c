/**
 No lost wakeup: a PE that parks on the pool publishes itself and then checks
 the pool again, a push makes its unit visible and then looks for sleepers, so
 a parked PE with work queued always has a notification on its way.
 */
module PoolWake {
  import opened Basics
  import opened PoolModel
  import opened PoolChain
  import opened PoolCount

  /** The operation was started by a PE that has registered itself. */
  predicate ByParked(p: PC) {
    match p
    case Push(_, k, _) => k != Ret
    case Wake(k, _) => k != Ret
    case WantPop(k) => k != Ret
    case Popped(_, k) => k != Ret
    case _ => false
  }

  predicate HolderParked(cs: CS) {
    cs.Held? && ((cs.at.Appending? && cs.at.k != Ret) || (cs.at.Popping? && cs.at.k != Ret))
  }

  /** Counted in `nsleepers`. */
  predicate Sleeps(p: PC) {
    ByParked(p) || (p.Park? && !p.at.SetBit? && !p.at.AddSleeper?)
  }

  function Sleeping(pc: map<Actor, PC>): set<Actor> {
    set a | a in pc && Sleeps(pc[a])
  }

  ghost predicate SleepInv(s: State) {
    s.bell.nsleepers == |Sleeping(s.pc)| + if HolderParked(s.cs) then 1 else 0
  }

  /** Present in the sleeper mask. */
  predicate Registered(s: State, a: Actor) {
    || ByParked(At(s, a)) || (HolderParked(s.cs) && s.cs.a == a)
    || (At(s, a).Park? && !At(s, a).at.SetBit? && !At(s, a).at.SubSleeper?)
  }

  ghost predicate MaskInv(s: State) {
    forall a: Actor {:trigger At(s, a)} ::
      (Registered(s, a) ==> a in s.bell.mask && a < RANKS) && (At(s, a).Park? ==> a < RANKS)
  }

  /** A thread at `p` is going to notify PE `a`, if `a` stays registered. */
  predicate WillRing(p: PC, a: Actor) {
    match p
    case Push(_, _, stage) => stage != Marking
    case Wake(_, LoadSleepers) => true
    case Wake(_, LoadWord(w)) => w <= a / 64
    case Wake(_, Notifying(w, m)) => w < a / 64 || (w == a / 64 && a in m)
    case _ => false
  }

  /** A notification for `a` is pending or some push still owes it one. */
  ghost predicate Alerted(s: State, a: Actor) {
    || a in s.bell.note || (s.cs.Held? && s.cs.at.Appending?)
    || exists b: Actor :: WillRing(At(s, b), a)
  }

  /** No queued unit could be run by `a`. */
  ghost predicate NoWork(s: State, a: Actor) {
    forall u :: u in Live(s) ==> PinnedElsewhere(s, a, u)
  }

  /** `a` is parked, or its re-check has just found nothing. */
  predicate Asleep(s: State, a: Actor) {
    || (At(s, a).Park? && At(s, a).at.Waiting?)
    || s.cs == Held(a, Popping(Recheck, Unlocking(None)))
  }

  ghost predicate AsleepInv(s: State) {
    forall a: Actor {:trigger At(s, a)} :: Asleep(s, a) ==> Alerted(s, a) || NoWork(s, a)
  }

  /** A parking PE that put back a pinned unit rings itself. */
  ghost predicate SelfInv(s: State) {
    forall a: Actor {:trigger At(s, a)} ::
      At(s, a).Wake? && At(s, a).k == Recheck ==> WillRing(At(s, a), a) || a in s.bell.note
  }

  /** A re-check that read a null link: either the node was the last one and
      still is, or whoever follows it has yet to look for sleepers. */
  ghost predicate RecheckInv(s: State) {
    s.cs.Held? && s.cs.at.Popping? && s.cs.at.k == Recheck && s.cs.at.pop.ReadTail?
    ==> Alerted(s, s.cs.a) || s.q.hd == |s.q.order| - 1
  }

  ghost predicate WakeInv(s: State) {
    SleepInv(s) && MaskInv(s) && AsleepInv(s) && SelfInv(s) && RecheckInv(s)
  }

  // ---- the sleeper count ----

  lemma SleepingMove(pc: map<Actor, PC>, a: Actor, p: PC)
    ensures |Sleeping(pc[a := p])| ==
            |Sleeping(pc)| - (if a in pc && Sleeps(pc[a]) then 1 else 0) + (if Sleeps(p) then 1 else 0)
  {
    var x := Sleeping(pc);
    Cardinality(x, a);
    if Sleeps(p) { assert Sleeping(pc[a := p]) == x + {a}; } else { assert Sleeping(pc[a := p]) == x - {a}; }
  }

  lemma MoveSleep(s: State, a: Actor, p: PC, n: int, b: Bell)
    requires Move(s, a, p, n, b)
    ensures b.nsleepers - s.bell.nsleepers == (if Sleeps(p) then 1 else 0) - (if Sleeps(At(s, a)) then 1 else 0)
  {
  }

  /** A registered PE keeps the counter positive. */
  lemma SleepersPositive(s: State, a: Actor)
    requires SleepInv(s) && (Sleeps(At(s, a)) || HolderParked(s.cs))
    ensures s.bell.nsleepers > 0
  {
    if Sleeps(At(s, a)) { assert a in Sleeping(s.pc); }
  }

  // ---- the bell rings ----

  /** A step in wake_after_push stops owing `a` a notification only by giving it. */
  lemma RingKept(s: State, b: Actor, p: PC, n: int, bell: Bell, a: Actor)
    requires Move(s, b, p, n, bell) && WillRing(At(s, b), a)
    requires s.bell.nsleepers > 0 && a in s.bell.mask && a < RANKS
    ensures WillRing(p, a) || a in bell.note
  {
  }

  lemma MoveNote(s: State, b: Actor, p: PC, n: int, bell: Bell, a: Actor)
    requires Move(s, b, p, n, bell) && a in s.bell.note && !(a == b && At(s, b).Park? && At(s, b).at.Waiting?)
    ensures a in bell.note
  {
  }

  lemma AlertedKept(s: State, x: Actor, s': State, a: Actor)
    requires Alerted(s, a) && Moved(s, x, s')
    requires a in s.bell.note ==> a in s'.bell.note
    requires WillRing(At(s, x), a) ==>
               WillRing(At(s', x), a) || a in s'.bell.note || (s'.cs.Held? && s'.cs.at.Appending?)
    requires s.cs.Held? && s.cs.at.Appending? ==> (s'.cs.Held? && s'.cs.at.Appending?) || WillRing(At(s', x), a)
    ensures Alerted(s', a)
  {
    if a !in s.bell.note && !(s.cs.Held? && s.cs.at.Appending?) {
      var b: Actor :| WillRing(At(s, b), a);
      assert b != x ==> WillRing(At(s', b), a);
    }
  }

  lemma NoWorkKept(s: State, s': State, a: Actor)
    requires NoWork(s, a) && Live(s') <= Live(s) && s'.primary == s.primary && s'.home == s.home
    ensures NoWork(s', a)
  {
  }

  /** The mask holds whoever is registered, after a step that registers nobody. */
  lemma MaskKept(s: State, x: Actor, s': State)
    requires MaskInv(s) && Moved(s, x, s') && (At(s', x).Park? ==> At(s, x).Park?)
    requires forall c: Actor :: c != x && c in s.bell.mask ==> c in s'.bell.mask
    requires Registered(s', x) ==> Registered(s, x) && x in s'.bell.mask
    requires HolderParked(s'.cs) && s'.cs.a != x ==> HolderParked(s.cs) && s.cs.a == s'.cs.a
    ensures MaskInv(s')
  {
    forall c: Actor
      ensures (Registered(s', c) ==> c in s'.bell.mask && c < RANKS) && (At(s', c).Park? ==> c < RANKS)
    {
      assert Registered(s, c) ==> c in s.bell.mask && c < RANKS by { assert At(s, c) == At(s, c); }
      if c != x { assert At(s', c) == At(s, c); }
    }
  }

  lemma SelfKept(s: State, x: Actor, s': State)
    requires SelfInv(s) && Moved(s, x, s')
    requires forall c: Actor :: c != x && c in s.bell.note ==> c in s'.bell.note
    requires At(s', x).Wake? && At(s', x).k == Recheck ==> WillRing(At(s', x), x) || x in s'.bell.note
    ensures SelfInv(s')
  {
  }

  // ---- steps ----

  lemma PushShape(s: State, a: Actor, s': State) returns (p: PC)
    requires PushStep(s, a, s') && !s'.aborted
    ensures p.Push? && p.stage != Marking && p.k == At(s, a).k
    ensures s'.pc == s.pc[a := p] && s'.cs == s.cs && s'.bell == s.bell
  {
    p := s'.pc[a];
  }

  lemma WakePush(s: State, a: Actor, s': State)
    requires WakeInv(s) && PushStep(s, a, s') && !s'.aborted
    ensures WakeInv(s')
  {
    var p := PushShape(s, a, s');
    SleepingMove(s.pc, a, p);
    assert Moved(s, a, s') && At(s', a) == p;
    forall c: Actor ensures Alerted(s', c) { assert WillRing(At(s', a), c); }
    MaskKept(s, a, s');
    SelfKept(s, a, s');
  }

  lemma WakeEnter(s: State, a: Actor, s': State)
    requires ChainInv(s) && WakeInv(s) && EnterStep(s, a, s')
    ensures WakeInv(s')
  {
    SleepingMove(s.pc, a, Inside);
    GoMoves(s.(cs := Held(a, Wanted(s, At(s, a)).value)), a, Inside);
    forall c: Actor | Asleep(s', c) ensures Alerted(s', c) || NoWork(s', c) {
      assert Asleep(s, c);
      if Alerted(s, c) { AlertedKept(s, a, s', c); } else { NoWorkKept(s, s', c); }
    }
    MaskKept(s, a, s');
    SelfKept(s, a, s');
  }

  /** With the count at zero or below, a live unit means a push not counted. */
  lemma EmptyBySize(s: State, a: Actor)
    requires ChainInv(s) && CountInv(s) && s.count <= 0
    ensures Alerted(s, a) || NoWork(s, a)
  {
    if Live(s) != {} && !(s.cs.Held? && s.cs.at.Appending?) {
      assert |Live(s)| > 0;
      assert |Pushing(s.pc)| > 0;
      var b :| b in Pushing(s.pc);
      assert WillRing(At(s, b), a);
    } else if Live(s) == {} {
      assert NoWork(s, a);
    }
  }

  lemma MoveMask(s: State, a: Actor, p: PC, n: int, b: Bell)
    requires Move(s, a, p, n, b) && MaskInv(s)
    ensures p.Park? ==> a < RANKS
    ensures forall c: Actor :: c != a && c in s.bell.mask ==> c in b.mask
    ensures ByParked(p) || (p.Park? && !p.at.SetBit? && !p.at.SubSleeper?) ==> a in b.mask && a < RANKS
  {
  }

  /** Where a thread falls asleep, and where it owes itself a notification. */
  lemma MoveSelf(s: State, a: Actor, p: PC, n: int, b: Bell)
    requires Move(s, a, p, n, b) && SelfInv(s) && MaskInv(s) && SleepInv(s)
    ensures p.Wake? && p.k == Recheck ==> WillRing(p, a) || a in b.note
    ensures p == Park(Waiting(true)) ==> s.count <= 0
    ensures p == Park(Waiting(false)) ==> a in b.note
  {
    assert Registered(s, a) ==> a in s.bell.mask && a < RANKS by { assert At(s, a) == At(s, a); }
    if At(s, a).Wake? && At(s, a).k == Recheck {
      SleepersPositive(s, a);
    }
  }

  lemma MoveAlerted(s: State, a: Actor, p: PC, n: int, b: Bell, s': State, c: Actor)
    requires Move(s, a, p, n, b) && s' == Put(s, a, p, n, b) && SleepInv(s) && MaskInv(s)
    requires Alerted(s, c) && c != a && Registered(s, c) && (Sleeps(At(s, c)) || HolderParked(s.cs))
    ensures Alerted(s', c)
  {
    SleepersPositive(s, c);
    assert c in s.bell.mask && c < RANKS by { assert At(s, c) == At(s, c); }
    if WillRing(At(s, a), c) { RingKept(s, a, p, n, b, c); }
    if c in s.bell.note { MoveNote(s, a, p, n, b, c); }
    AlertedKept(s, a, s', c);
  }

  lemma FallAsleep(s: State, a: Actor, p: PC, n: int, b: Bell, s': State)
    requires ChainInv(s) && CountInv(s) && WakeInv(s)
    requires Move(s, a, p, n, b) && s' == Put(s, a, p, n, b) && p.Park? && p.at.Waiting?
    ensures Alerted(s', a) || NoWork(s', a)
  {
    MoveSelf(s, a, p, n, b);
    if p == Park(Waiting(true)) {
      EmptyBySize(s, a);
      if Alerted(s, a) {
        if a in s.bell.note { MoveNote(s, a, p, n, b, a); }
        AlertedKept(s, a, s', a);
      } else {
        assert Live(s') == Live(s);
      }
    }
  }

  lemma MoveAsleep(s: State, a: Actor, p: PC, n: int, b: Bell, s': State, c: Actor)
    requires ChainInv(s) && CountInv(s) && WakeInv(s)
    requires Move(s, a, p, n, b) && s' == Put(s, a, p, n, b) && Asleep(s', c)
    ensures Alerted(s', c) || NoWork(s', c)
  {
    MoveIs(s, a, p, n, b);
    assert Live(s') == Live(s);
    if c == a {
      FallAsleep(s, a, p, n, b, s');
    } else {
      assert At(s', c) == At(s, c);
      if Alerted(s, c) { MoveAlerted(s, a, p, n, b, s', c); }
    }
  }

  lemma WakeMoves(s: State, a: Actor, s': State)
    requires ChainInv(s) && CountInv(s) && WakeInv(s) && MoveStep(s, a, s')
    ensures WakeInv(s')
  {
    var p, n, b :| Move(s, a, p, n, b) && s' == Put(s, a, p, n, b);
    MoveIs(s, a, p, n, b);
    MoveSleep(s, a, p, n, b);
    SleepingMove(s.pc, a, p);
    MoveMask(s, a, p, n, b);
    MoveSelf(s, a, p, n, b);
    forall c: Actor | Asleep(s', c) ensures Alerted(s', c) || NoWork(s', c) {
      MoveAsleep(s, a, p, n, b, s', c);
    }
    forall c: Actor | c != a && c in s.bell.note ensures c in s'.bell.note { MoveNote(s, a, p, n, b, c); }
    SelfKept(s, a, s');
    MoveMaskInv(s, a, p, n, b, s');
    MoveRecheck(s, a, p, n, b, s');
  }

  lemma MoveMaskInv(s: State, a: Actor, p: PC, n: int, b: Bell, s': State)
    requires ChainInv(s) && Move(s, a, p, n, b) && s' == Put(s, a, p, n, b) && MaskInv(s)
    ensures MaskInv(s')
  {
    MoveIs(s, a, p, n, b);
    MoveMask(s, a, p, n, b);
    forall c: Actor
      ensures (Registered(s', c) ==> c in s'.bell.mask && c < RANKS) && (At(s', c).Park? ==> c < RANKS)
    {
      assert Registered(s, c) ==> c in s.bell.mask && c < RANKS by { assert At(s, c) == At(s, c); }
      if c != a { assert At(s', c) == At(s, c); }
    }
  }

  lemma MoveRecheck(s: State, a: Actor, p: PC, n: int, b: Bell, s': State)
    requires ChainInv(s) && WakeInv(s) && Move(s, a, p, n, b) && s' == Put(s, a, p, n, b)
    ensures RecheckInv(s')
  {
    MoveIs(s, a, p, n, b);
    if HolderParked(s.cs) && Alerted(s, s.cs.a) { MoveAlerted(s, a, p, n, b, s', s.cs.a); }
  }

  // ---- the consumer finds nothing ----

  /** The front link is missing: its producer has yet to look for sleepers. */
  lemma GapAlerts(s: State, a: Actor)
    requires ChainInv(s) && s.q.hd < |s.q.order| - 1 && s.q.head !in s.q.next
    requires s.cs.Held? && s.cs.at.Popping? && !s.cs.at.pop.StubLink?
    ensures Alerted(s, a)
  {
  }

  /** A live unit that is not linked yet has its producer in flight. */
  lemma UnlinkedAlerts(s: State, a: Actor, u: Unit)
    requires PlacedInv(s) && u in Live(s) && !Stored(CoreOf(s), u)
    ensures Alerted(s, a)
  {
  }

  lemma NullRead(s: State, at: PopStage, q: Chain, a: Actor, k: Kont)
    requires ChainInv(s) && PlacedInv(s) && s.cs == Held(a, Popping(k, at))
    requires ReadMove(s.q, at, q, Unlocking(None)) && RecheckInv(s) && k == Recheck
    ensures Alerted(s, a) || NoWork(s, a)
  {
    if s.q.hd == |s.q.order| - 1 {
      forall u | u in Live(s) ensures Alerted(s, a) {
        assert at.ReadHead?;
        assert Absent(s.q, N(u));
        UnlinkedAlerts(s, a, u);
      }
    } else if at.ReadHead? || at.Reload? {
      GapAlerts(s, a);
    }
  }

  lemma NullList(s: State, a: Actor)
    requires ChainInv(s) && PlacedInv(s) && !s.single && ListPick(s, a) == None
    ensures Alerted(s, a) || NoWork(s, a)
  {
  }

  /** The holder moved on inside the critical section. */
  lemma WakeHold(s: State, s': State)
    requires ChainInv(s) && WakeInv(s) && s.cs.Held? && !s.cs.at.Appending?
    requires s'.cs.Held? && s'.cs.a == s.cs.a && HolderParked(s'.cs) == HolderParked(s.cs)
    requires s'.pc == s.pc && s'.bell == s.bell && s'.primary == s.primary && s'.home == s.home
    requires Live(s') <= Live(s)
    requires Asleep(s', s.cs.a) ==> Alerted(s, s.cs.a) || NoWork(s, s.cs.a)
    requires RecheckInv(s')
    ensures WakeInv(s')
  {
    assert forall c: Actor :: At(s', c) == At(s, c);
    forall c: Actor | Asleep(s', c) ensures Alerted(s', c) || NoWork(s', c) {
      if c != s.cs.a { assert Asleep(s, c); }
      if Alerted(s, c) { AlertedKept(s, s.cs.a, s', c); } else { NoWorkKept(s, s', c); }
    }
    MaskKept(s, s.cs.a, s');
    SelfKept(s, s.cs.a, s');
  }

  lemma WakeRead(s: State, k: Kont, at: PopStage, s': State)
    requires ChainInv(s) && PlacedInv(s) && WakeInv(s) && s.cs.Held? && s.cs.at == Popping(k, at)
    requires ReadStep(s, s.cs.a, k, at, s')
    ensures WakeInv(s')
  {
    var q, at' :| ReadMove(s.q, at, q, at') && s' == Crits(s.(q := q), s.cs.a, Popping(k, at'));
    ReadHolds(s, k, at, s');
    if k == Recheck && at' == Unlocking(None) { NullRead(s, at, q, s.cs.a, k); }
    if k == Recheck && at'.ReadTail? && s.q.hd < |s.q.order| - 1 {
      GapAlerts(s, s.cs.a);
      AlertedKept(s, s.cs.a, s', s.cs.a);
    }
    WakeHold(s, s');
  }

  /** Releasing the spinlock. */
  lemma WakeLeave(s: State, p: PC, s': State)
    requires ChainInv(s) && WakeInv(s) && s.cs.Held? && s' == Leave(s.(lst := s'.lst), s.cs.a, p)
    requires Live(s') <= Live(s) && Sleeps(p) == HolderParked(s.cs) && (p.Park? ==> Sleeps(p))
    requires !p.Wake? && p != Park(SubSleeper)
    requires s.cs.at.Appending? ==> p.Push? && p.stage == Counting
    requires p.Park? && p.at.Waiting? ==> Asleep(s, s.cs.a)
    ensures WakeInv(s')
  {
    var a := s.cs.a;
    SleepingMove(s.pc, a, p);
    assert Moved(s, a, s') && At(s', a) == p;
    forall c: Actor | Asleep(s', c) ensures Alerted(s', c) || NoWork(s', c) {
      assert Asleep(s, c);
      if Alerted(s, c) { AlertedKept(s, a, s', c); } else { NoWorkKept(s, s', c); }
    }
    LeaveMask(s, p, s');
    SelfKept(s, a, s');
  }

  lemma LeaveMask(s: State, p: PC, s': State)
    requires ChainInv(s) && MaskInv(s) && s.cs.Held? && s' == Leave(s.(lst := s'.lst), s.cs.a, p)
    requires Sleeps(p) == HolderParked(s.cs) && (p.Park? ==> Sleeps(p)) && p != Park(SubSleeper)
    ensures MaskInv(s')
  {
    forall c: Actor
      ensures (Registered(s', c) ==> c in s'.bell.mask && c < RANKS) && (At(s', c).Park? ==> c < RANKS)
    {
      assert Registered(s, c) ==> c in s.bell.mask && c < RANKS by { assert At(s, c) == At(s, c); }
      if c != s.cs.a { assert At(s', c) == At(s, c); }
    }
  }

  lemma WakeListPop(s: State, k: Kont, s': State)
    requires ChainInv(s) && PlacedInv(s) && WakeInv(s) && s.cs.Held? && s.cs.at == Popping(k, ListPop)
    requires TakeStep(s, s.cs.a, k, ListPop, s')
    ensures WakeInv(s')
  {
    if ListPick(s, s.cs.a) == None { NullList(s, s.cs.a); }
    WakeHold(s, s');
  }

  lemma WakeTake(s: State, k: Kont, at: PopStage, s': State)
    requires ChainInv(s) && PlacedInv(s) && WakeInv(s) && s.cs.Held? && s.cs.at == Popping(k, at)
    requires TakeStep(s, s.cs.a, k, at, s')
    ensures WakeInv(s')
  {
    match at {
      case Taking(h, n) => WakeHold(s, s');
      case Flagging(u) => WakeHold(s, s');
      case ListPop => WakeListPop(s, k, s');
      case Unlocking(r) => WakeLeave(s, if r == None then AfterNull(k) else Popped(r.value, k), s');
      case _ =>
    }
  }

  lemma WakeRemove(s: State, u: Unit, at: RemStage, s': State)
    requires ChainInv(s) && WakeInv(s) && s.cs.Held? && s.cs.at == Removing(u, at)
    requires RemoveStep(s, s.cs.a, u, at, s') && !s'.raced
    ensures WakeInv(s')
  {
    match at {
      case Check => WakeHold(s, s');
      case Flag => WakeHold(s, s');
      case Unlock(hit) => WakeLeave(s, if hit then Removed else Idle, s');
    }
  }

  /** Nothing changed but notifications: more are pending, or that of idle `x` is gone. */
  lemma WakeFrame(s: State, x: Actor, s': State)
    requires WakeInv(s) && CoreOf(s') == CoreOf(s) && s'.removed == s.removed && s'.cs == s.cs && s'.pc == s.pc
    requires s'.primary == s.primary && s'.home == s.home && (s.cs.Held? ==> At(s, s.cs.a) == Inside)
    requires forall c: Actor :: c in s.bell.note ==> c in s'.bell.note || (c == x && At(s, x) == Idle)
    requires s'.bell.mask == s.bell.mask && s'.bell.nsleepers == s.bell.nsleepers
    ensures WakeInv(s')
  {
    assert forall c: Actor :: At(s', c) == At(s, c);
    forall c: Actor | Asleep(s', c) ensures Alerted(s', c) || NoWork(s', c) {
      assert Asleep(s, c);
      if Alerted(s, c) { AlertedKept(s, c, s', c); } else { NoWorkKept(s, s', c); }
    }
    MaskKept(s, x, s');
    SelfKept(s, x, s');
    if s.cs.Held? && Alerted(s, s.cs.a) { AlertedKept(s, 0, s', s.cs.a); }
  }

  lemma WakeSpurious(s: State, s': State)
    requires HolderInv(s) && WakeInv(s) && Spurious(s, s')
    ensures WakeInv(s')
  {
    var x, b :| Elsewhere(s, x, b) && s' == s.(bell := b);
    WakeFrame(s, x, s');
  }

  lemma WakeInit(s: State)
    requires Init(s)
    ensures WakeInv(s)
  {
    forall a: Actor ensures At(s, a) == Idle && !Registered(s, a) && !Asleep(s, a) {
    }
    assert Sleeping(s.pc) == {};
  }

  lemma WakeCrit(s: State, s': State)
    requires ChainInv(s) && PlacedInv(s) && WakeInv(s) && CritStep(s, s') && !s'.raced
    ensures WakeInv(s')
  {
    match s.cs.at
    case Appending(u, k) => WakeLeave(s, Push(u, k, Counting), s');
    case Popping(k, at) =>
      if ReadStep(s, s.cs.a, k, at, s') { WakeRead(s, k, at, s'); } else { WakeTake(s, k, at, s'); }
    case Removing(u, at) => WakeRemove(s, u, at, s');
  }

  lemma WakeNext(s: State, s': State)
    requires ChainInv(s) && Conserved(s) && WakeInv(s) && Next(s, s') && !s'.raced
    ensures WakeInv(s')
  {
    if CritStep(s, s') {
      WakeCrit(s, s');
    } else if Spurious(s, s') {
      WakeSpurious(s, s');
    } else {
      var a :| OpenStep(s, a, s');
      if PushStep(s, a, s') {
        if s'.aborted { WakeFrame(s, a, s'); } else { WakePush(s, a, s'); }
      } else if EnterStep(s, a, s') {
        WakeEnter(s, a, s');
      } else {
        WakeMoves(s, a, s');
      }
    }
  }

  lemma RunStep(r: seq<State>, n: nat)
    requires Run(r) && 0 < n < |r|
    ensures Next(r[n - 1], r[n]) && !r[n - 1].raced
  {
    assert Linked(r, n - 1);
  }

  lemma {:induction false} WakeRun(r: seq<State>, n: nat)
    requires Run(r) && n < |r| && !r[n].raced
    ensures WakeInv(r[n])
  {
    if n == 0 {
      WakeInit(r[0]);
    } else {
      RunStep(r, n);
      WakeRun(r, n - 1);
      RunInv(r, n - 1);
      WakeNext(r[n - 1], r[n]);
    }
  }

  /** A PE parked with no notification pending, while a live unit it may run is
      queued: some push of that pool has not finished looking for sleepers, and
      will notify this PE. */
  lemma NoLostWakeup(r: seq<State>, n: nat, a: Actor, u: Unit)
    requires Run(r) && n < |r| && !r[n].raced
    requires At(r[n], a).Park? && At(r[n], a).at.Waiting? && a !in r[n].bell.note
    requires u in Live(r[n]) && !PinnedElsewhere(r[n], a, u)
    ensures (r[n].cs.Held? && r[n].cs.at.Appending?) || exists b: Actor :: WillRing(At(r[n], b), a)
  {
    WakeRun(r, n);
    assert Asleep(r[n], a);
  }
}
