/** What the steps of the pool machine leave alone. */
module PoolSteps {
  import opened Basics
  import opened PoolModel
  import opened PoolChain

  predicate SameSetup(s: State, s': State) {
    s'.single == s.single && s'.primary == s.primary && s'.home == s.home
  }

  // ---- outside the critical section ----

  /** No unit leaves, neither storage nor tombstones. */
  ghost predicate Outside(s: State, b: Actor, s': State) {
    SameSetup(s, s') && s'.lst == s.lst && s'.removed == s.removed && s.inPool <= s'.inPool && Moved(s, b, s')
  }

  lemma PushOnly(s: State, b: Actor, s': State)
    requires PushStep(s, b, s')
    ensures Outside(s, b, s') && s'.cs == s.cs && s'.bell == s.bell
    ensures At(s', b).Push? && At(s', b).k == At(s, b).k
  {
    if s'.aborted != s.aborted || s'.pc == s.pc {
    } else {
      PushGoes(s, b, s');
    }
  }

  lemma PushGoes(s: State, b: Actor, s': State)
    requires PushStep(s, b, s') && s'.aborted == s.aborted
    ensures b in s'.pc && s' == Go(s.(q := s'.q, inPool := s'.inPool), b, s'.pc[b]) && s.inPool <= s'.inPool
    ensures s'.pc[b].Push? && s'.pc[b].k == At(s, b).k
  {
  }

  lemma MoveOnly(s: State, b: Actor, s': State)
    requires MoveStep(s, b, s')
    ensures Outside(s, b, s') && s'.cs == s.cs && s'.inPool == s.inPool && !At(s', b).Popped?
  {
    var p, n, x :| Move(s, b, p, n, x) && s' == Put(s, b, p, n, x);
    assert !p.Popped?;
  }

  lemma EnterOnly(s: State, b: Actor, s': State)
    requires EnterStep(s, b, s')
    ensures Outside(s, b, s') && s.cs == Free && s'.bell == s.bell && s'.inPool == s.inPool && At(s', b) == Inside
    ensures s'.cs.Held? && s'.cs.a == b && Entered(At(s, b), s'.cs.at)
  {
  }

  predicate Entered(p: PC, at: Crit) {
    match at
    case Appending(u, k) => p.Push? && p.u == u && p.k == k
    case Popping(k, pop) => p == WantPop(k) && (pop == ReadHead || pop == ListPop)
    case Removing(u, rem) => p == WantRemove(u) && rem == Check
  }

  lemma OpenShape(s: State, b: Actor, s': State)
    requires OpenStep(s, b, s')
    ensures Outside(s, b, s') && !At(s', b).Popped?
    ensures s'.cs == s.cs || (s.cs == Free && s'.cs.Held? && s'.cs.a == b && Entered(At(s, b), s'.cs.at))
  {
    if MoveStep(s, b, s') { MoveOnly(s, b, s'); }
    else if PushStep(s, b, s') { PushOnly(s, b, s'); }
    else { EnterOnly(s, b, s'); }
  }

  // ---- in the critical section ----

  /** The operation goes on, or leaves for `p`. */
  predicate SameOp(at: Crit, at': Crit) {
    match at
    case Appending(u, k) => at' == at
    case Popping(k, _) => at'.Popping? && at'.k == k
    case Removing(u, _) => at'.Removing? && at'.u == u
  }

  predicate Exit(at: Crit, p: PC) {
    match at
    case Appending(u, k) => p == Push(u, k, Counting)
    case Popping(k, pop) => pop.Unlocking? && p == if pop.r == None then AfterNull(k) else Popped(pop.r.value, k)
    case Removing(_, rem) => rem.Unlock? && p == if rem.hit then Removed else Idle
  }

  /** The holder's step. */
  ghost predicate Within(s: State, s': State) {
    && SameSetup(s, s') && s'.bell == s.bell && s.cs.Held? && Moved(s, s.cs.a, s') && s'.aborted == s.aborted
    && if s'.cs.Held? then s'.pc == s.pc && s'.cs.a == s.cs.a && SameOp(s.cs.at, s'.cs.at)
       else Exit(s.cs.at, At(s', s.cs.a))
  }

  lemma ReadOnly(s: State, k: Kont, at: PopStage, s': State)
    requires s.cs.Held? && s.cs.at == Popping(k, at) && ReadStep(s, s.cs.a, k, at, s')
    ensures Within(s, s')
  {
    var q, at' :| ReadMove(s.q, at, q, at') && s' == Crits(s.(q := q), s.cs.a, Popping(k, at'));
  }

  lemma TakeOnly(s: State, k: Kont, at: PopStage, s': State)
    requires s.cs.Held? && s.cs.at == Popping(k, at) && TakeStep(s, s.cs.a, k, at, s')
    ensures Within(s, s')
  {
    if at.Unlocking? {
      LeaveOnly(s, if at.r == None then AfterNull(k) else Popped(at.r.value, k), s');
    } else {
      TakeStays(s, k, at, s');
      StayOnly(s, s');
    }
  }

  lemma TakeStays(s: State, k: Kont, at: PopStage, s': State)
    requires s.cs.Held? && s.cs.at == Popping(k, at) && TakeStep(s, s.cs.a, k, at, s') && !at.Unlocking?
    ensures s' == s.(q := s'.q, lst := s'.lst, inPool := s'.inPool, removed := s'.removed,
                     fault := s'.fault, cs := s'.cs)
    ensures s'.cs.Held? && s'.cs.a == s.cs.a && SameOp(s.cs.at, s'.cs.at)
  {
  }

  lemma StayOnly(s: State, s': State)
    requires SameSetup(s, s') && s'.bell == s.bell && s'.pc == s.pc && s'.aborted == s.aborted
    requires s.cs.Held? && s'.cs.Held? && s'.cs.a == s.cs.a && SameOp(s.cs.at, s'.cs.at)
    ensures Within(s, s')
  {
  }

  lemma RemoveOnly(s: State, u: Unit, at: RemStage, s': State)
    requires s.cs.Held? && s.cs.at == Removing(u, at) && RemoveStep(s, s.cs.a, u, at, s')
    ensures Within(s, s')
  {
    if at.Unlock? { LeaveOnly(s, if at.hit then Removed else Idle, s'); } else { StayOnly(s, s'); }
  }

  lemma LeaveOnly(s: State, p: PC, s': State)
    requires s.cs.Held? && s' == Leave(s.(lst := s'.lst), s.cs.a, p) && Exit(s.cs.at, p)
    ensures Within(s, s')
  {
  }

  lemma CritShape(s: State, s': State)
    requires CritStep(s, s')
    ensures Within(s, s')
  {
    match s.cs.at
    case Appending(u, k) => LeaveOnly(s, Push(u, k, Counting), s');
    case Popping(k, at) =>
      if ReadStep(s, s.cs.a, k, at, s') { ReadOnly(s, k, at, s'); } else { TakeOnly(s, k, at, s'); }
    case Removing(u, at) => RemoveOnly(s, u, at, s');
  }

  lemma Configured(s: State, s': State)
    requires Next(s, s')
    ensures SameSetup(s, s') && !s.raced
  {
    if CritStep(s, s') { CritShape(s, s'); }
    else if b :| OpenStep(s, b, s') { OpenShape(s, b, s'); }
  }

  /** Only its holder changes the spinlock while it is held. */
  lemma HolderMoves(s: State, s': State)
    requires Next(s, s') && s.cs.Held? && s'.cs != s.cs
    ensures CritStep(s, s')
  {
    if a :| OpenStep(s, a, s') { OpenShape(s, a, s'); }
  }
}
