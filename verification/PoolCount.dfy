/**
 The separate `count` of a pool: it is raised and lowered outside the step that
 changes the storage, so it is exact only up to the operations in flight.
 */
module PoolCount {
  import opened Basics
  import opened PoolModel
  import opened PoolChain

  /** The unit is physically in the storage. */
  ghost predicate Stored(c: Core, u: Unit) {
    if c.single then !Absent(c.q, N(u)) else u in c.lst
  }

  /** A push has flagged the unit as queued and not inserted it yet. */
  ghost predicate Pending(s: State, u: Unit) {
    Appends(s.cs, u) || exists a: Actor :: Marked(At(s, a)) && At(s, a).u == u
  }

  /** Every unit flagged as queued is in the storage or about to be. */
  ghost predicate PlacedInv(s: State) {
    forall u :: u in s.inPool ==> Stored(CoreOf(s), u) || Pending(s, u)
  }

  /** The unit the consumer has detached and is about to check for a tombstone. */
  function Flagged(cs: CS): set<Unit> {
    if cs.Held? && cs.at.Popping? && cs.at.pop.Flagging? then {cs.at.pop.u} else {}
  }

  ghost predicate TombInv(s: State) {
    s.removed <= s.inPool + Flagged(s.cs) && (!s.single ==> s.removed == {})
  }

  /** The live queued units: flagged as queued, no tombstone. */
  function Live(s: State): set<Unit> {
    s.inPool - (s.removed - Flagged(s.cs))
  }

  predicate Uncounted(p: PC) {
    p.Push? && !p.stage.Marking?
  }

  predicate Overcounted(p: PC) {
    p.Popped? || p.Removed?
  }

  /** The holder's own pending change: a push not counted yet, or a unit taken
      off and still counted. */
  function HolderDelta(s: State): int {
    if !s.cs.Held? then 0
    else match s.cs.at
      case Appending(_, _) => 1
      case Popping(_, Flagging(u)) => if u in s.removed then 0 else -1
      case Popping(_, Unlocking(Some(_))) => -1
      case Removing(_, Unlock(true)) => -1
      case _ => 0
  }

  /** Pushes not counted yet, and pops and removals still counted. */
  function Pushing(pc: map<Actor, PC>): set<Actor> {
    set a | a in pc && Uncounted(pc[a])
  }

  function Leaving(pc: map<Actor, PC>): set<Actor> {
    set a | a in pc && Overcounted(pc[a])
  }

  function Balance(pc: map<Actor, PC>): int {
    |Pushing(pc)| - |Leaving(pc)|
  }

  function Weight(p: PC): int {
    if Uncounted(p) then 1 else if Overcounted(p) then -1 else 0
  }

  lemma Cardinality(x: set<Actor>, a: Actor)
    ensures |x + {a}| == |x| + if a in x then 0 else 1
    ensures |x - {a}| == |x| - if a in x then 1 else 0
  {
  }

  lemma PushingMove(pc: map<Actor, PC>, a: Actor, p: PC)
    ensures |Pushing(pc[a := p])| ==
            |Pushing(pc)| - (if a in pc && Uncounted(pc[a]) then 1 else 0) + (if Uncounted(p) then 1 else 0)
  {
    var x := Pushing(pc);
    Cardinality(x, a);
    if Uncounted(p) { assert Pushing(pc[a := p]) == x + {a}; } else { assert Pushing(pc[a := p]) == x - {a}; }
  }

  lemma LeavingMove(pc: map<Actor, PC>, a: Actor, p: PC)
    ensures |Leaving(pc[a := p])| ==
            |Leaving(pc)| - (if a in pc && Overcounted(pc[a]) then 1 else 0) + (if Overcounted(p) then 1 else 0)
  {
    var x := Leaving(pc);
    Cardinality(x, a);
    if Overcounted(p) { assert Leaving(pc[a := p]) == x + {a}; } else { assert Leaving(pc[a := p]) == x - {a}; }
  }

  lemma BalanceMove(pc: map<Actor, PC>, a: Actor, p: PC)
    ensures Balance(pc[a := p]) == Balance(pc) - (if a in pc then Weight(pc[a]) else 0) + Weight(p)
  {
    PushingMove(pc, a, p);
    LeavingMove(pc, a, p);
  }

  /** `count`, plus the pushes not counted yet, minus the pops and removals not
      uncounted yet, is the number of live queued units. */
  ghost predicate CountInv(s: State) {
    s.count + Balance(s.pc) + HolderDelta(s) == |Live(s)|
  }

  ghost predicate Conserved(s: State) {
    PlacedInv(s) && TombInv(s) && CountInv(s)
  }

  // ---- placement ----

  lemma PendingKept(s: State, a: Actor, s': State, u: Unit)
    requires Pending(s, u) && Moved(s, a, s')
    requires Marked(At(s, a)) && At(s, a).u == u ==> Marked(At(s', a)) && At(s', a).u == u
    requires Appends(s.cs, u) ==> Appends(s'.cs, u)
    ensures Pending(s', u)
  {
    if !Appends(s.cs, u) {
      var b: Actor :| Marked(At(s, b)) && At(s, b).u == u;
      assert Marked(At(s', b)) && At(s', b).u == u;
    }
  }

  /** The step of `a` touches unit `u` only. */
  lemma PlacedStep(s: State, a: Actor, u: Unit, s': State)
    requires PlacedInv(s) && Moved(s, a, s')
    requires Marked(At(s, a)) ==> At(s, a).u == u
    requires forall v :: v != u && Appends(s.cs, v) ==> Appends(s'.cs, v)
    requires forall v :: v != u && v in s'.inPool ==> v in s.inPool
    requires forall v :: v != u && v in s'.inPool && Stored(CoreOf(s), v) ==> Stored(CoreOf(s'), v)
    requires u in s'.inPool ==> Stored(CoreOf(s'), u) || Pending(s', u)
    ensures PlacedInv(s')
  {
    forall v | v in s'.inPool ensures Stored(CoreOf(s'), v) || Pending(s', v) {
      if v != u && !Stored(CoreOf(s), v) { PendingKept(s, a, s', v); }
    }
  }

  lemma PlacedPush(s: State, a: Actor, s': State)
    requires ChainInv(s) && PlacedInv(s) && PushStep(s, a, s') && !s'.aborted
    ensures PlacedInv(s')
  {
    var u := At(s, a).u;
    assert Moved(s, a, s');
    if At(s, a).stage.Exchanging? {
      assert s'.q.order[|s.q.order|] == N(u);
      assert forall i :: 0 <= i < |s.q.order| ==> s'.q.order[i] == s.q.order[i];
    }
    if Marked(At(s', a)) { assert Pending(s', u); }
    PlacedStep(s, a, u, s');
  }

  lemma PlacedEnter(s: State, a: Actor, s': State)
    requires ChainInv(s) && PlacedInv(s) && EnterStep(s, a, s')
    ensures PlacedInv(s')
  {
    var u := if At(s, a).Push? then At(s, a).u else 0;
    assert Moved(s, a, s');
    if !At(s, a).Push? && u in s.inPool && !Stored(CoreOf(s), u) { PendingKept(s, a, s', u); }
    PlacedStep(s, a, u, s');
  }

  lemma PlacedMove(s: State, a: Actor, s': State)
    requires ChainInv(s) && PlacedInv(s) && MoveStep(s, a, s')
    ensures PlacedInv(s')
  {
    var p, n, b :| Move(s, a, p, n, b) && s' == Put(s, a, p, n, b);
    MoveIs(s, a, p, n, b);
    forall v | v in s'.inPool && !Stored(CoreOf(s), v) ensures Pending(s', v) {
      PendingKept(s, a, s', v);
    }
  }

  lemma StoredRead(s: State, k: Kont, at: PopStage, s': State, v: Unit)
    requires ChainInv(s) && s.cs.Held? && s.cs.at == Popping(k, at) && ReadStep(s, s.cs.a, k, at, s')
    ensures s'.inPool == s.inPool && s'.pc == s.pc && s'.lst == s.lst && s'.single == s.single && !s'.cs.at.Appending?
    ensures Stored(CoreOf(s), v) ==> Stored(CoreOf(s'), v)
  {
    if at.StubXchg? {
      assert forall i :: 0 <= i < |s.q.order| ==> s'.q.order[i] == s.q.order[i];
    }
  }

  lemma PlacedRead(s: State, k: Kont, at: PopStage, s': State)
    requires ChainInv(s) && PlacedInv(s) && s.cs.Held? && s.cs.at == Popping(k, at)
    requires ReadStep(s, s.cs.a, k, at, s')
    ensures PlacedInv(s')
  {
    forall v | v in s'.inPool ensures Stored(CoreOf(s'), v) || Pending(s', v) {
      StoredRead(s, k, at, s', v);
      if !Stored(CoreOf(s), v) { PendingKept(s, s.cs.a, s', v); }
    }
  }

  lemma StoredTake(s: State, k: Kont, at: PopStage, s': State, v: Unit)
    requires ChainInv(s) && s.cs.Held? && s.cs.at == Popping(k, at) && TakeStep(s, s.cs.a, k, at, s')
    requires Stored(CoreOf(s), v) && v in s'.inPool
    ensures Stored(CoreOf(s'), v)
  {
    if at.ListPop? && ListPick(s, s.cs.a).Some? { WithoutKeeps(s.lst, ListPick(s, s.cs.a).value, v); }
  }

  lemma PlacedTake(s: State, k: Kont, at: PopStage, s': State)
    requires ChainInv(s) && PlacedInv(s) && s.cs.Held? && s.cs.at == Popping(k, at)
    requires TakeStep(s, s.cs.a, k, at, s')
    ensures PlacedInv(s')
  {
    assert Moved(s, s.cs.a, s');
    forall v | v in s'.inPool ensures Stored(CoreOf(s'), v) || Pending(s', v) {
      if Stored(CoreOf(s), v) { StoredTake(s, k, at, s', v); } else { PendingKept(s, s.cs.a, s', v); }
    }
  }

  lemma PlacedRemove(s: State, u: Unit, at: RemStage, s': State)
    requires ChainInv(s) && PlacedInv(s) && s.cs.Held? && s.cs.at == Removing(u, at)
    requires RemoveStep(s, s.cs.a, u, at, s') && !s'.raced
    ensures PlacedInv(s')
  {
    assert Moved(s, s.cs.a, s');
    forall v | v in s'.inPool ensures Stored(CoreOf(s'), v) || Pending(s', v) {
      if at == Flag && !s.single { WithoutKeeps(s.lst, u, v); }
      if !Stored(CoreOf(s), v) { PendingKept(s, s.cs.a, s', v); }
    }
  }

  lemma PlacedAppend(s: State, u: Unit, k: Kont, s': State)
    requires ChainInv(s) && PlacedInv(s) && s.cs.Held? && s.cs.at == Appending(u, k)
    requires s' == Leave(s.(lst := s.lst + [u]), s.cs.a, Push(u, k, Counting))
    ensures PlacedInv(s')
  {
    PlacedStep(s, s.cs.a, u, s');
  }

  // ---- count ----

  /** How the number of live units changes: flag, detach, tombstone. */
  lemma LiveMark(i: set<Unit>, r: set<Unit>, f: set<Unit>, u: Unit)
    requires u !in i && r <= i + f
    ensures |(i + {u}) - (r - f)| == |i - (r - f)| + 1
  {
  }

  lemma LiveDetach(i: set<Unit>, r: set<Unit>, u: Unit)
    requires u in i
    ensures |(i - {u}) - (r - {u})| == |i - r| - if u in r then 0 else 1
  {
    Cardinality(i - r, u);
    if u in r { assert (i - {u}) - (r - {u}) == i - r; } else { assert (i - {u}) - (r - {u}) == (i - r) - {u}; }
  }

  lemma LiveTomb(i: set<Unit>, r: set<Unit>, u: Unit)
    requires u in i
    ensures |i - (r + {u})| == |i - r| - if u in r then 0 else 1
  {
    Cardinality(i - r, u);
    if u in r { assert r + {u} == r; } else { assert i - (r + {u}) == (i - r) - {u}; }
  }

  lemma CountMark(s: State, a: Actor, u: Unit, k: Kont, stage: PushStage, s': State)
    requires TombInv(s) && CountInv(s) && At(s, a) == Push(u, k, Marking) && u !in s.inPool && stage != Marking
    requires s' == Go(s.(inPool := s.inPool + {u}), a, Push(u, k, stage))
    ensures CountInv(s')
  {
    assert HolderDelta(s') == HolderDelta(s) && Flagged(s'.cs) == Flagged(s.cs);
    BalanceMove(s.pc, a, Push(u, k, stage));
    LiveMark(s.inPool, s.removed, Flagged(s.cs), u);
  }

  lemma CountInsert(s: State, a: Actor, u: Unit, k: Kont, stage: PushStage, q: Chain, s': State)
    requires TombInv(s) && CountInv(s) && At(s, a).Push? && At(s, a).stage != Marking && stage != Marking
    requires s' == Go(s.(q := q), a, Push(u, k, stage))
    ensures TombInv(s') && CountInv(s')
  {
    BalanceMove(s.pc, a, Push(u, k, stage));
  }

  lemma CountPush(s: State, a: Actor, s': State)
    requires TombInv(s) && CountInv(s) && PushStep(s, a, s') && !s'.aborted
    ensures TombInv(s') && CountInv(s')
  {
    var Push(u, k, stage) := At(s, a);
    if stage == Marking {
      CountMark(s, a, u, k, if s.single then Clearing else WantAppend, s');
      assert s.inPool <= s'.inPool;
    }
    else { CountInsert(s, a, u, k, s'.pc[a].stage, s'.q, s'); }
  }

  /** A push that takes the lock carries its pending count inside. */
  lemma EnterDelta(s: State, a: Actor, s': State)
    requires EnterStep(s, a, s')
    ensures HolderDelta(s) == 0 && HolderDelta(s') == Weight(At(s, a)) && Flagged(s'.cs) == {} == Flagged(s.cs)
    ensures Weight(Inside) == 0
  {
  }

  lemma CountEnter(s: State, a: Actor, s': State)
    requires TombInv(s) && CountInv(s) && EnterStep(s, a, s')
    ensures TombInv(s') && CountInv(s')
  {
    EnterDelta(s, a, s');
    assert Live(s') == Live(s);
    BalanceMove(s.pc, a, Inside);
  }

  lemma MoveCount(s: State, a: Actor, p: PC, n: int, b: Bell)
    requires Move(s, a, p, n, b)
    ensures n == s.count + Weight(At(s, a)) && Weight(p) == 0
  {
  }

  lemma CountMove(s: State, a: Actor, s': State)
    requires TombInv(s) && CountInv(s) && MoveStep(s, a, s')
    ensures TombInv(s') && CountInv(s')
  {
    var p, n, b :| Move(s, a, p, n, b) && s' == Put(s, a, p, n, b);
    MoveCount(s, a, p, n, b);
    BalanceMove(s.pc, a, p);
  }

  /** The holder moved on; queue, flags and its pending change are as before. */
  lemma CountHold(s: State, s': State)
    requires TombInv(s) && CountInv(s) && s'.pc == s.pc && s'.count == s.count
    requires s'.inPool == s.inPool && s'.removed == s.removed && s'.single == s.single
    requires Flagged(s'.cs) == Flagged(s.cs) == {} && HolderDelta(s') == HolderDelta(s)
    ensures TombInv(s') && CountInv(s')
  {
  }

  lemma ReadHolds(s: State, k: Kont, at: PopStage, s': State)
    requires s.cs.Held? && s.cs.at == Popping(k, at) && ReadStep(s, s.cs.a, k, at, s')
    ensures s'.pc == s.pc && s'.count == s.count && s'.single == s.single
    ensures s'.inPool == s.inPool && s'.removed == s.removed
    ensures Flagged(s'.cs) == Flagged(s.cs) == {} && HolderDelta(s') == HolderDelta(s)
  {
  }

  lemma CountRead(s: State, k: Kont, at: PopStage, s': State)
    requires TombInv(s) && CountInv(s) && s.cs.Held? && s.cs.at == Popping(k, at)
    requires ReadStep(s, s.cs.a, k, at, s')
    ensures TombInv(s') && CountInv(s')
  {
    ReadHolds(s, k, at, s');
    CountHold(s, s');
  }

  lemma CountDetach(s: State, k: Kont, u: Unit, n: Node, s': State)
    requires CountInv(s) && s.cs.Held? && s.cs.at == Popping(k, Taking(N(u), n)) && u in s.inPool
    requires s' == Crits(s.(q := s'.q, inPool := s.inPool - {u}), s.cs.a, Popping(k, Flagging(u)))
    ensures CountInv(s')
  {
    LiveDetach(s.inPool, s.removed, u);
    assert s.removed - {} == s.removed;
    assert HolderDelta(s') == if u in s.removed then 0 else -1;
  }

  lemma TombDetach(s: State, k: Kont, u: Unit, n: Node, s': State)
    requires TombInv(s) && s.single && s.cs.Held? && s.cs.at == Popping(k, Taking(N(u), n))
    requires s' == Crits(s.(q := s'.q, inPool := s.inPool - {u}), s.cs.a, Popping(k, Flagging(u)))
    ensures TombInv(s')
  {
  }

  lemma CountFlag(s: State, k: Kont, u: Unit, at: PopStage, s': State)
    requires TombInv(s) && CountInv(s) && s.cs.Held? && s.cs.at == Popping(k, Flagging(u)) && s.single
    requires at == if u in s.removed then ReadHead else Unlocking(Some(u))
    requires s' == Crits(s.(removed := s.removed - {u}), s.cs.a, Popping(k, at))
    ensures TombInv(s') && CountInv(s')
  {
    assert Flagged(s.cs) == {u} && Flagged(s'.cs) == {} && HolderDelta(s') == HolderDelta(s);
    assert (s.removed - {u}) - {} == s.removed - {u};
  }

  lemma CountUnlink(s: State, u: Unit, at: Crit, s': State)
    requires TombInv(s) && CountInv(s) && s.cs.Held? && u in s.inPool && !s.single
    requires HolderDelta(s) == 0 && HolderDelta(s') == -1 && Flagged(s.cs) == Flagged(s'.cs) == {}
    requires s' == Crits(s.(lst := Without(s.lst, u), inPool := s.inPool - {u}), s.cs.a, at)
    ensures TombInv(s') && CountInv(s')
  {
  }

  lemma CountLeave(s: State, p: PC, s': State)
    requires TombInv(s) && CountInv(s) && s.cs.Held? && Flagged(s.cs) == {} && At(s, s.cs.a) == Inside
    requires Weight(p) == HolderDelta(s)
    requires s' == Leave(s.(lst := s'.lst), s.cs.a, p)
    ensures TombInv(s') && CountInv(s')
  {
    BalanceMove(s.pc, s.cs.a, p);
  }

  /** What the consumer is about to take is queued. */
  predicate Takes(s: State, at: PopStage) {
    match at
    case Taking(h, _) => s.single && h != Stub && h.u in s.inPool
    case Flagging(_) => s.single
    case ListPop => !s.single && (s.cs.Held? && ListPick(s, s.cs.a).Some? ==> ListPick(s, s.cs.a).value in s.inPool)
    case _ => true
  }

  lemma TakesQueued(s: State, k: Kont, at: PopStage)
    requires ChainInv(s) && s.cs.Held? && s.cs.at == Popping(k, at)
    ensures Takes(s, at) && At(s, s.cs.a) == Inside
  {
  }

  lemma CountFront(s: State, k: Kont, at: PopStage, s': State)
    requires Takes(s, at) && TombInv(s) && CountInv(s) && s.cs.Held?
    requires s.cs.at == Popping(k, at) && At(s, s.cs.a) == Inside
    requires TakeStep(s, s.cs.a, k, at, s')
    requires at.Taking? || at.Flagging?
    ensures TombInv(s') && CountInv(s')
  {
    if at.Taking? {
      CountDetach(s, k, at.h.u, at.n, s');
      TombDetach(s, k, at.h.u, at.n, s');
    } else {
      if at.u !in s.removed { assert s.removed - {at.u} == s.removed; }
      CountFlag(s, k, at.u, s'.cs.at.pop, s');
    }
  }

  lemma CountPicked(s: State, k: Kont, r: Option<Unit>, s': State)
    requires TombInv(s) && CountInv(s) && s.cs.Held? && s.cs.at == Popping(k, ListPop) && !s.single
    requires r.Some? ==> r.value in s.inPool
    requires s' == Crits(if r == None then s else s.(lst := Without(s.lst, r.value), inPool := s.inPool - {r.value}),
                         s.cs.a, Popping(k, Unlocking(r)))
    ensures TombInv(s') && CountInv(s')
  {
    if r == None { CountHold(s, s'); } else { CountUnlink(s, r.value, Popping(k, Unlocking(r)), s'); }
  }

  lemma CountTake(s: State, k: Kont, at: PopStage, s': State)
    requires Takes(s, at) && TombInv(s) && CountInv(s) && s.cs.Held?
    requires s.cs.at == Popping(k, at) && At(s, s.cs.a) == Inside
    requires TakeStep(s, s.cs.a, k, at, s')
    ensures TombInv(s') && CountInv(s')
  {
    match at {
      case Taking(_, _) => CountFront(s, k, at, s');
      case Flagging(_) => CountFront(s, k, at, s');
      case ListPop => CountPicked(s, k, ListPick(s, s.cs.a), s');
      case Unlocking(r) => CountLeave(s, if r == None then AfterNull(k) else Popped(r.value, k), s');
      case _ =>
    }
  }

  lemma CountTombstone(s: State, u: Unit, s': State)
    requires TombInv(s) && CountInv(s) && s.cs.Held? && s.cs.at == Removing(u, Flag) && u in s.inPool && s.single
    requires s' == Crits(s.(removed := s.removed + {u}), s.cs.a, Removing(u, Unlock(u !in s.removed)))
    ensures TombInv(s') && CountInv(s')
  {
    LiveTomb(s.inPool, s.removed, u);
    assert Live(s) == s.inPool - s.removed && Live(s') == s.inPool - (s.removed + {u});
  }

  lemma CountRemove(s: State, u: Unit, at: RemStage, s': State)
    requires ChainInv(s) && TombInv(s) && CountInv(s) && s.cs.Held? && s.cs.at == Removing(u, at)
    requires RemoveStep(s, s.cs.a, u, at, s') && !s'.raced
    ensures TombInv(s') && CountInv(s')
  {
    match at {
      case Check => CountHold(s, s');
      case Flag => if s.single { CountTombstone(s, u, s'); } else { CountUnlink(s, u, s'.cs.at, s'); }
      case Unlock(hit) => CountLeave(s, if hit then Removed else Idle, s');
    }
  }

  // ---- every step, every run ----

  lemma ConservedFrame(s: State, s': State)
    requires Conserved(s) && CoreOf(s') == CoreOf(s) && s'.cs == s.cs && s'.pc == s.pc
    requires s'.removed == s.removed && s'.count == s.count
    ensures Conserved(s')
  {
    assert HolderDelta(s') == HolderDelta(s) && Live(s') == Live(s);
    PlacedFrame(s, s');
  }

  lemma PlacedFrame(s: State, s': State)
    requires PlacedInv(s) && CoreOf(s') == CoreOf(s) && s'.cs == s.cs && s'.pc == s.pc
    ensures PlacedInv(s')
  {
    forall v | v in s'.inPool && !Stored(CoreOf(s), v) ensures Pending(s', v) { PendingKept(s, 0, s', v); }
  }

  lemma ConservedSpurious(s: State, s': State)
    requires Conserved(s) && Spurious(s, s')
    ensures Conserved(s')
  {
    ConservedFrame(s, s');
  }

  lemma ConservedCrit(s: State, s': State)
    requires ChainInv(s) && Conserved(s) && CritStep(s, s') && !s'.raced
    ensures Conserved(s')
  {
    match s.cs.at
    case Appending(u, k) => PlacedAppend(s, u, k, s'); CountLeave(s, Push(u, k, Counting), s');
    case Popping(k, at) =>
      if ReadStep(s, s.cs.a, k, at, s') { PlacedRead(s, k, at, s'); CountRead(s, k, at, s'); }
      else { PlacedTake(s, k, at, s'); TakesQueued(s, k, at); CountTake(s, k, at, s'); }
    case Removing(u, at) => PlacedRemove(s, u, at, s'); CountRemove(s, u, at, s');
  }

  lemma ConservedNext(s: State, s': State)
    requires ChainInv(s) && Conserved(s) && Next(s, s') && !s'.raced
    ensures Conserved(s')
  {
    if CritStep(s, s') {
      ConservedCrit(s, s');
    } else if Spurious(s, s') {
      ConservedSpurious(s, s');
    } else {
      var a :| OpenStep(s, a, s');
      if PushStep(s, a, s') {
        if s'.aborted { ConservedFrame(s, s'); } else { PlacedPush(s, a, s'); CountPush(s, a, s'); }
      } else if EnterStep(s, a, s') {
        PlacedEnter(s, a, s'); CountEnter(s, a, s');
      } else {
        PlacedMove(s, a, s'); CountMove(s, a, s');
      }
    }
  }

  lemma {:induction false} RunInv(r: seq<State>, n: nat)
    requires Run(r) && n < |r| && !r[n].raced
    ensures ChainInv(r[n]) && Conserved(r[n])
  {
    if n == 0 {
      ChainInit(r[0]);
      assert Pushing(r[0].pc) == {} && Leaving(r[0].pc) == {} && Live(r[0]) == {};
    } else {
      assert Linked(r, n - 1);
      RunInv(r, n - 1);
      ChainRun(r, n);
      ConservedNext(r[n - 1], r[n]);
    }
  }

  // ---- main results ----

  /** In every state of every run the count differs from the number of live
      queued units by the operations in flight only. */
  lemma Conservation(r: seq<State>, n: nat)
    requires Run(r) && n < |r| && !r[n].raced
    ensures var s := r[n];
            s.count + |Pushing(s.pc)| - |Leaving(s.pc)| + HolderDelta(s) == |Live(s)|
  {
    RunInv(r, n);
  }

  /** With no push, pop or removal in flight, whoever is parked, the count is exact,
      and the units it counts are those linked in the storage without a tombstone. */
  lemma Quiescent(r: seq<State>, n: nat)
    requires Run(r) && n < |r| && !r[n].raced && r[n].cs == Free
    requires forall a: Actor :: !Uncounted(At(r[n], a)) && !Overcounted(At(r[n], a))
    ensures r[n].count == |Live(r[n])| >= 0
    ensures forall u :: u in Live(r[n]) <==> Stored(CoreOf(r[n]), u) && u !in r[n].removed
  {
    RunInv(r, n);
    var s := r[n];
    assert forall a: Actor :: !Marked(At(s, a));
    assert forall a: Actor :: a in s.pc ==> s.pc[a] == At(s, a);
    assert Pushing(s.pc) == {} && Leaving(s.pc) == {};
  }
}
