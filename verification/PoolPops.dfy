/**
 What pops and removals return, over every undamaged run and in both storages:
 which unit, to whom, and when nothing.
 */
module PoolPops {
  import opened Basics
  import opened PoolModel
  import opened PoolChain
  import opened PoolCount
  import opened PoolSteps
  import opened PoolOrder

  /** The primary ULT can be resumed by its home PE only. */
  predicate CanRun(s: State, a: Actor, u: Unit) {
    u == s.primary ==> a == s.home
  }

  // ---- the pick of a list pool ----

  /** The pop of `a` finds nothing exactly when no queued unit can run there; else it
      takes the first one that can, and nothing else moves. */
  ghost predicate PicksFirst(s: State, a: Actor, found: Option<Unit>, s': State) {
    match found
    case None => s'.lst == s.lst && s'.inPool == s.inPool && forall u :: u in s.lst ==> !CanRun(s, a, u)
    case Some(u) =>
      CanRun(s, a, u) && exists k: nat :: TakesAt(s, a, k, u, s')
  }

  ghost predicate TakesAt(s: State, a: Actor, k: nat, u: Unit, s': State) {
    && k < |s.lst| && s.lst[k] == u && (forall j :: 0 <= j < k ==> !CanRun(s, a, s.lst[j]))
    && s'.lst == DropAt(s.lst, k) && s'.inPool == s.inPool - {u}
  }

  lemma PickStep(s: State, k: Kont, s': State)
    requires ChainInv(s) && s.cs.Held? && s.cs.at == Popping(k, ListPop) && Next(s, s') && s'.cs != s.cs
    ensures s'.cs.Held? && s'.cs.a == s.cs.a && s'.cs.at.Popping? && s'.cs.at.k == k && s'.cs.at.pop.Unlocking?
    ensures PicksFirst(s, s.cs.a, s'.cs.at.pop.r, s')
  {
    var a := s.cs.a;
    assert CritStep(s, s') by { HolderMoves(s, s'); }
    var found := s'.cs.at.pop.r;
    if found.Some? {
      var i := WithoutIs(s.lst, found.value);
      assert TakesAt(s, a, i, found.value, s');
    }
  }

  /** The pop of a list pool, in every run. */
  lemma PopsFirst(r: seq<State>, n: nat, k: Kont)
    requires Run(r) && n + 1 < |r| && r[n].cs.Held? && r[n].cs.at == Popping(k, ListPop) && r[n + 1].cs != r[n].cs
    ensures var s, s' := r[n], r[n + 1];
            && !s.single && s'.cs.Held? && s'.cs.a == s.cs.a && s'.cs.at.Popping? && s'.cs.at.pop.Unlocking?
            && PicksFirst(s, s.cs.a, s'.cs.at.pop.r, s')
  {
    ChainRun(r, n);
    assert Linked(r, n);
    PickStep(r[n], k, r[n + 1]);
  }

  // ---- what a pop hands over ----

  /** Thread `a` has taken `u` in a pop and not handed it over yet. */
  ghost predicate Has(s: State, a: Actor, u: Unit) {
    || (s.cs.Held? && s.cs.a == a && s.cs.at.Popping? && s.cs.at.pop == Flagging(u) && u !in s.removed)
    || (s.cs.Held? && s.cs.a == a && s.cs.at.Popping? && s.cs.at.pop == Unlocking(Some(u)))
    || (At(s, a).Popped? && At(s, a).u == u)
  }

  /** In step `i` the pop of `a` took `u`, a live unit, out of the pool, and has had it
      in hand up to state `n`. */
  ghost predicate TookAt(r: seq<State>, i: nat, n: nat, a: Actor, u: Unit) {
    && i < n < |r| && r[i].cs.Held? && r[i].cs.a == a && r[i].cs.at.Popping?
    && u in Live(r[i]) && u !in r[i + 1].inPool
    && HasThrough(r, i + 1, n, a, u)
  }

  ghost predicate HasThrough(r: seq<State>, i: nat, n: nat, a: Actor, u: Unit) {
    i <= n < |r| && forall s :: s in r[i..n + 1] ==> Has(s, a, u)
  }

  lemma StillHas(r: seq<State>, i: nat, n: nat, a: Actor, u: Unit)
    requires HasThrough(r, i, n, a, u) && n + 1 < |r| && Has(r[n + 1], a, u)
    ensures HasThrough(r, i, n + 1, a, u)
  {
    assert r[i..n + 2] == r[i..n + 1] + [r[n + 1]];
  }

  /** A unit gets into a thread's hands only by its pop taking it. */
  lemma NewlyHas(s: State, s': State, a: Actor, u: Unit)
    requires ChainInv(s) && TombInv(s) && Next(s, s') && Has(s', a, u) && !Has(s, a, u)
    ensures s.cs.Held? && s.cs.a == a && s.cs.at.Popping? && u in Live(s) && u !in s'.inPool
  {
    if CritStep(s, s') {
      if s.cs.at.Popping? {
        TakesQueued(s, s.cs.at.k, s.cs.at.pop);
        if !ReadStep(s, s.cs.a, s.cs.at.k, s.cs.at.pop, s') { TakesIt(s, s.cs.at.k, s.cs.at.pop, s', a, u); }
      }
    } else if b :| OpenStep(s, b, s') {
      OpenHas(s, b, s', a, u);
      assert false;
    }
  }

  lemma TakesIt(s: State, k: Kont, at: PopStage, s': State, a: Actor, u: Unit)
    requires HolderInv(s) && TombInv(s) && s.cs.Held? && s.cs.at == Popping(k, at) && TakeStep(s, s.cs.a, k, at, s')
    requires Takes(s, at) && Has(s', a, u) && !Has(s, a, u)
    ensures s.cs.a == a && u in Live(s) && u !in s'.inPool
  {
    match at {
      case Unlocking(found) => Leaves(s, k, found, s', a, u);
      case _ =>
    }
  }

  /** Leaving the critical section hands nothing over that was not in hand. */
  lemma Leaves(s: State, k: Kont, found: Option<Unit>, s': State, a: Actor, u: Unit)
    requires s.cs.Held? && s.cs.at == Popping(k, Unlocking(found)) && TakeStep(s, s.cs.a, k, Unlocking(found), s')
    ensures Has(s', a, u) ==> Has(s, a, u)
  {
  }

  lemma OpenHas(s: State, b: Actor, s': State, a: Actor, u: Unit)
    requires OpenStep(s, b, s') && Has(s', a, u)
    ensures Has(s, a, u)
  {
    OpenShape(s, b, s');
  }

  lemma {:induction false} Took(r: seq<State>, n: nat, a: Actor, u: Unit)
    requires Run(r) && n < |r| && !r[n].raced && Has(r[n], a, u)
    ensures exists i: nat :: TookAt(r, i, n, a, u)
  {
    if n > 0 {
      Unraced(r, n - 1);
      if Has(r[n - 1], a, u) {
        Took(r, n - 1, a, u);
        var i: nat :| TookAt(r, i, n - 1, a, u);
        StillTook(r, i, n - 1, a, u);
      } else {
        JustTook(r, n - 1, a, u);
      }
    }
  }

  lemma StillTook(r: seq<State>, i: nat, n: nat, a: Actor, u: Unit)
    requires TookAt(r, i, n, a, u) && n + 1 < |r| && Has(r[n + 1], a, u)
    ensures TookAt(r, i, n + 1, a, u)
  {
    StillHas(r, i + 1, n, a, u);
  }

  lemma JustTook(r: seq<State>, n: nat, a: Actor, u: Unit)
    requires Run(r) && n + 1 < |r| && Has(r[n + 1], a, u) && !Has(r[n], a, u)
    ensures TookAt(r, n, n + 1, a, u)
  {
    var s, s' := r[n], r[n + 1];
    assert Linked(r, n);
    RunInv(r, n);
    NewlyHas(s, s', a, u);
    assert r[n + 1..n + 2] == [s'];
  }

  /** In a list pool, what a pop has in hand can run on its PE. */
  ghost predicate HandInv(s: State) {
    !s.single ==> forall a: Actor, u: Unit :: Has(s, a, u) ==> CanRun(s, a, u)
  }

  lemma KeepHand(s: State, s': State)
    requires ChainInv(s) && TombInv(s) && Next(s, s') && HandInv(s)
    ensures HandInv(s')
  {
    Configured(s, s');
    if !s.single {
      forall a: Actor, u: Unit | Has(s', a, u) ensures CanRun(s', a, u) {
        if !Has(s, a, u) {
          NewlyHas(s, s', a, u);
          HasPicked(s, s', a, u);
        }
      }
    }
  }

  lemma HasPicked(s: State, s': State, a: Actor, u: Unit)
    requires ChainInv(s) && Next(s, s') && !s.single && Has(s', a, u) && !Has(s, a, u)
    requires s.cs.Held? && s.cs.a == a && s.cs.at.Popping? && u in s.inPool && u !in s'.inPool
    ensures CanRun(s, a, u)
  {
    if s.cs.at.pop == ListPop && s'.cs != s.cs {
      PickStep(s, s.cs.at.k, s');
    } else {
      if b :| OpenStep(s, b, s') { OpenHas(s, b, s', a, u); }
    }
  }

  lemma {:induction false} HandRun(r: seq<State>, n: nat)
    requires Run(r) && n < |r| && !r[n].raced
    ensures HandInv(r[n])
  {
    if n > 0 {
      assert Linked(r, n - 1);
      HandRun(r, n - 1);
      RunInv(r, n - 1);
      ChainRun(r, n - 1);
      KeepHand(r[n - 1], r[n]);
    }
  }

  /** A pop hands over what it took: a unit that was live when this pop took it off the
      pool and that can run on the popping PE. Exactly the primary ULT popped from an
      MPSC pool by a foreign PE is put back instead. With a unit in hand nobody waits. */
  lemma HandsOver(r: seq<State>, n: nat, a: Actor)
    requires Run(r) && n + 1 < |r| && At(r[n], a).Popped? && At(r[n + 1], a) != At(r[n], a)
    ensures var u := At(r[n], a).u;
            && (exists i: nat :: TookAt(r, i, n, a, u))
            && (At(r[n + 1], a).Push? <==> r[n].single && !CanRun(r[n], a, u))
            && (At(r[n + 1], a).Push? ==> At(r[n + 1], a).u == u && At(r[n + 1], a).stage == Marking)
            && (!At(r[n + 1], a).Push? ==> CanRun(r[n], a, u))
            && !(At(r[n + 1], a).Park? && At(r[n + 1], a).at.Waiting?)
  {
    var u := At(r[n], a).u;
    assert Linked(r, n);
    assert Has(r[n], a, u);
    Took(r, n, a, u);
    HandRun(r, n);
    ChainRun(r, n);
    PoppedMoves(r[n], r[n + 1], a);
  }

  lemma PoppedMoves(s: State, s': State, a: Actor)
    requires ChainInv(s) && Next(s, s') && At(s, a).Popped? && At(s', a) != At(s, a)
    ensures At(s', a).Push? <==> s.single && !CanRun(s, a, At(s, a).u)
    ensures At(s', a).Push? ==> At(s', a).u == At(s, a).u && At(s', a).stage == Marking
    ensures !(At(s', a).Park? && At(s', a).at.Waiting?)
  {
    if CritStep(s, s') {
      CritShape(s, s');
      assert false;
    } else {
      var b :| OpenStep(s, b, s');
      OpenShape(s, b, s');
      PoppedStep(s, s', a);
    }
  }

  lemma PoppedStep(s: State, s': State, a: Actor)
    requires OpenStep(s, a, s') && At(s, a).Popped?
    ensures At(s', a).Push? <==> s.single && !CanRun(s, a, At(s, a).u)
    ensures At(s', a).Push? ==> At(s', a).u == At(s, a).u && At(s', a).stage == Marking
    ensures !(At(s', a).Park? && At(s', a).at.Waiting?)
  {
    var p, n, b :| Move(s, a, p, n, b) && s' == Put(s, a, p, n, b);
  }

  // ---- removal ----

  /** Thread `a` is in the critical section of its removal of `u`. */
  predicate Removes(s: State, a: Actor, u: Unit) {
    s.cs.Held? && s.cs.a == a && s.cs.at.Removing? && s.cs.at.u == u
  }

  ghost predicate RemovesAt(r: seq<State>, k: nat, a: Actor, u: Unit) {
    k < |r| && Removes(r[k], a, u)
  }

  /** What a removal that was to hit, or to miss, still has to show for it. */
  predicate Decided(s: State, hits: bool) {
    && s.cs.Held? && s.cs.at.Removing?
    && match s.cs.at.rem
       case Check => false
       case Flag => hits <==> s.cs.at.u in Live(s)
       case Unlock(hit) => hit == hits
  }

  lemma Decides(s: State, s': State, a: Actor, u: Unit)
    requires ChainInv(s) && TombInv(s) && Next(s, s') && Removes(s, a, u) && Removes(s', a, u)
    ensures s.cs.at.rem == Check && s'.cs != s.cs ==> Decided(s', u in Live(s))
    ensures forall hits: bool :: Decided(s, hits) ==> Decided(s', hits)
  {
    if !CritStep(s, s') { Undecided(s, s', a, u); }
  }

  /** While it has the spinlock, nobody else changes what it will decide. */
  lemma Undecided(s: State, s': State, a: Actor, u: Unit)
    requires ChainInv(s) && Next(s, s') && !CritStep(s, s') && Removes(s, a, u)
    ensures s'.cs == s.cs && (s.cs.at.rem == Flag ==> (u in Live(s') <==> u in Live(s)))
  {
    if b :| OpenStep(s, b, s') {
      OpenShape(s, b, s');
    }
  }

  lemma {:induction false} StaysDecided(r: seq<State>, i: nat, n: nat, a: Actor, u: Unit)
    requires Run(r) && i < n < |r| && !r[n].raced && forall k: nat :: i <= k <= n ==> RemovesAt(r, k, a, u)
    requires r[i].cs == Held(a, Removing(u, Check)) && r[i + 1].cs != r[i].cs
    ensures Decided(r[n], u in Live(r[i]))
  {
    assert RemovesAt(r, n, a, u) && RemovesAt(r, n - 1, a, u);
    if i + 1 < n { Unraced(r, n - 1); StaysDecided(r, i, n - 1, a, u); }
    DecidesAt(r, n - 1, a, u);
  }

  lemma Unraced(r: seq<State>, n: nat)
    requires Run(r) && n + 1 < |r|
    ensures !r[n].raced
  {
    assert Linked(r, n);
  }

  lemma DecidesAt(r: seq<State>, n: nat, a: Actor, u: Unit)
    requires Run(r) && n + 1 < |r| && Removes(r[n], a, u) && Removes(r[n + 1], a, u)
    ensures r[n].cs.at.rem == Check && r[n + 1].cs != r[n].cs ==> Decided(r[n + 1], u in Live(r[n]))
    ensures forall hits: bool :: Decided(r[n], hits) ==> Decided(r[n + 1], hits)
  {
    assert Linked(r, n);
    RunInv(r, n);
    Decides(r[n], r[n + 1], a, u);
  }

  /** A removal hits exactly when the unit is live as it checks. */
  lemma RemovesExactly(r: seq<State>, i: nat, n: nat, a: Actor, u: Unit, hit: bool)
    requires Run(r) && i < n < |r| && !r[n].raced && forall k: nat :: i <= k <= n ==> RemovesAt(r, k, a, u)
    requires r[i].cs == Held(a, Removing(u, Check)) && r[i + 1].cs != r[i].cs
    requires r[n].cs == Held(a, Removing(u, Unlock(hit)))
    ensures hit <==> u in Live(r[i])
  {
    StaysDecided(r, i, n, a, u);
  }

  /** The step that decides takes the unit, and nothing else, out of the live ones if
      the removal hits, and nothing if it misses. */
  lemma RemovalTakes(r: seq<State>, n: nat, a: Actor, u: Unit, hit: bool)
    requires Run(r) && n + 1 < |r| && Removes(r[n], a, u) && r[n + 1].cs == Held(a, Removing(u, Unlock(hit)))
    requires r[n].cs != r[n + 1].cs
    ensures Live(r[n + 1]) == if hit then Live(r[n]) - {u} else Live(r[n])
    ensures hit ==> u in Live(r[n])
  {
    assert Linked(r, n);
    RunInv(r, n);
    HolderMoves(r[n], r[n + 1]);
    HitStep(r[n], u, r[n].cs.at.rem, r[n + 1], hit);
  }

  lemma HitStep(s: State, u: Unit, at: RemStage, s': State, hit: bool)
    requires HolderInv(s) && TombInv(s) && s.cs.Held? && s.cs.at == Removing(u, at) && RemoveStep(s, s.cs.a, u, at, s')
    requires s'.cs == Held(s.cs.a, Removing(u, Unlock(hit)))
    ensures Live(s') == (if hit then Live(s) - {u} else Live(s)) && (hit ==> u in Live(s))
  {
  }

  // ---- the abort ----

  ghost predicate DoublePush(s: State, b: Actor) {
    At(s, b).Push? && At(s, b).stage == Marking && At(s, b).u in s.inPool
  }

  lemma OpenAborts(s: State, b: Actor, s': State)
    requires OpenStep(s, b, s') && !s.aborted
    ensures s'.aborted <==> DoublePush(s, b)
  {
    if PushStep(s, b, s') {
    } else if MoveStep(s, b, s') {
      var p, n, x :| Move(s, b, p, n, x) && s' == Put(s, b, p, n, x);
    }
  }

  /** A step aborts the process exactly when a push begins to insert a unit that is
      already queued; a push that goes on found it not queued. */
  lemma AbortsOnDouble(r: seq<State>, n: nat)
    requires Run(r) && n + 1 < |r|
    ensures r[n + 1].aborted ==> exists b: Actor :: DoublePush(r[n], b)
    ensures forall b: Actor :: DoublePush(r[n], b) ==> At(r[n + 1], b) == At(r[n], b)
  {
    var s, s' := r[n], r[n + 1];
    assert Linked(r, n);
    ChainRun(r, n);
    if CritStep(s, s') {
      CritShape(s, s');
      assert At(s, s.cs.a) == Inside;
    } else if a :| OpenStep(s, a, s') {
      OpenAborts(s, a, s');
      OpenShape(s, a, s');
      if DoublePush(s, a) { DoubleStays(s, a, s'); }
    }
  }

  lemma DoubleStays(s: State, a: Actor, s': State)
    requires OpenStep(s, a, s') && DoublePush(s, a)
    ensures At(s', a) == At(s, a)
  {
    assert PushStep(s, a, s');
  }

  // ---- when an MPSC pop finds nothing ----

  predicate Pops(s: State, a: Actor) {
    s.cs.Held? && s.cs.a == a && s.cs.at.Popping?
  }

  /** A producer has exchanged behind the front node and not linked. */
  ghost predicate Gap(s: State) {
    s.q.hd < |s.q.order| - 1 && exists b: Actor :: Owes(At(s, b), s.q.hd)
  }

  /** There was such a gap at state `m` of this critical section. */
  ghost predicate GapSeen(r: seq<State>, m: nat, n: nat, a: Actor) {
    m <= n < |r| && Gap(r[m]) && forall s :: s in r[m..n + 1] ==> Pops(s, a)
  }

  ghost predicate SawGap(r: seq<State>, n: nat, a: Actor) {
    exists m: nat :: GapSeen(r, m, n, a)
  }

  lemma StillSeen(r: seq<State>, n: nat, a: Actor)
    requires SawGap(r, n, a) && n + 1 < |r| && Pops(r[n + 1], a)
    ensures SawGap(r, n + 1, a)
  {
    var m: nat :| GapSeen(r, m, n, a);
    assert r[m..n + 2] == r[m..n + 1] + [r[n + 1]];
    assert GapSeen(r, m, n + 1, a);
  }

  lemma NowSeen(r: seq<State>, n: nat, a: Actor)
    requires n < |r| && Gap(r[n]) && Pops(r[n], a)
    ensures SawGap(r, n, a)
  {
    assert r[n..n + 1] == [r[n]];
    assert GapSeen(r, n, n, a);
  }

  /** The front node is the last one. */
  predicate Lonely(q: Chain) {
    q.hd == |q.order| - 1
  }

  /** A missing link behind the front node is a producer's, unless the consumer is
      appending the stub. */
  lemma MissingFront(s: State)
    requires ChainInv(s) && s.single && s.q.head !in s.q.next && !(exists i :: StubOwes(s.cs, i))
    ensures Lonely(s.q) || Gap(s)
  {
    if !Lonely(s.q) {
      assert s.q.order[s.q.hd] !in s.q.next;
      assert Owed(s, s.q.hd);
    }
  }

  predicate AtTail(s: State, a: Actor) {
    Pops(s, a) && s.cs.at.pop.ReadTail?
  }

  lemma IntoTail(s: State, s': State, a: Actor)
    requires ChainInv(s) && Next(s, s') && AtTail(s', a) && !AtTail(s, a)
    ensures s'.q.head !in s'.q.next
  {
    if CritStep(s, s') {
      var k, at := s.cs.at.k, s.cs.at.pop;
      if ReadStep(s, s.cs.a, k, at, s') {
        var q, at' :| ReadMove(s.q, at, q, at') && s' == Crits(s.(q := q), s.cs.a, Popping(k, at'));
      }
    } else if b :| OpenStep(s, b, s') {
      OpenShape(s, b, s');
    }
  }

  /** Nobody links behind the only node. */
  lemma InTail(s: State, s': State, a: Actor)
    requires ChainInv(s) && Next(s, s') && AtTail(s, a) && AtTail(s', a) && Lonely(s.q)
    ensures s'.q.head !in s'.q.next
  {
    if CritStep(s, s') {
      TailMoves(s, s', a);
      assert false;
    } else if b :| OpenStep(s, b, s') {
      if PushStep(s, b, s') { TailPush(s, b, s'); }
    }
  }

  lemma TailMoves(s: State, s': State, a: Actor)
    requires AtTail(s, a) && CritStep(s, s')
    ensures !AtTail(s', a)
  {
  }

  lemma TailPush(s: State, b: Actor, s': State)
    requires ChainInv(s) && s.single && PushStep(s, b, s') && Lonely(s.q)
    ensures s'.q.head !in s'.q.next
  {
    assert PushOk(CoreOf(s), At(s, b).u, At(s, b).stage);
  }

  lemma Single(s: State, a: Actor)
    requires ChainInv(s) && AtTail(s, a)
    ensures s.single
  {
  }

  lemma {:induction false} TailHistory(r: seq<State>, n: nat, a: Actor)
    requires Run(r) && n < |r| && !r[n].raced && AtTail(r[n], a)
    ensures Lonely(r[n].q) || SawGap(r, n, a)
  {
    if n > 0 {
      Unraced(r, n - 1);
      if AtTail(r[n - 1], a) { TailHistory(r, n - 1, a); }
      if AtTail(r[n - 1], a) && !Lonely(r[n - 1].q) {
        StillSeen(r, n - 1, a);
      } else {
        TailFrontAt(r, n - 1, a);
        if Gap(r[n]) { NowSeen(r, n, a); }
      }
    }
  }

  lemma TailFrontAt(r: seq<State>, n: nat, a: Actor)
    requires Run(r) && n + 1 < |r| && !r[n + 1].raced && AtTail(r[n + 1], a) && (AtTail(r[n], a) ==> Lonely(r[n].q))
    ensures Lonely(r[n + 1].q) || Gap(r[n + 1])
  {
    var s, s' := r[n], r[n + 1];
    ChainsAt(r, n);
    TailFront(s, s', a);
  }

  lemma ChainsAt(r: seq<State>, n: nat)
    requires Run(r) && n + 1 < |r| && !r[n + 1].raced
    ensures Next(r[n], r[n + 1]) && ChainInv(r[n]) && ChainInv(r[n + 1])
  {
    Unraced(r, n);
    ChainOk(r, n);
    ChainOk(r, n + 1);
    assert Linked(r, n);
  }

  lemma ChainOk(r: seq<State>, n: nat)
    requires Run(r) && n < |r| && !r[n].raced
    ensures ChainInv(r[n])
  {
    ChainRun(r, n);
  }

  lemma TailFront(s: State, s': State, a: Actor)
    requires ChainInv(s) && ChainInv(s') && Next(s, s') && AtTail(s', a) && (AtTail(s, a) ==> Lonely(s.q))
    ensures Lonely(s'.q) || Gap(s')
  {
    Single(s', a);
    if AtTail(s, a) { InTail(s, s', a); } else { IntoTail(s, s', a); }
    MissingFront(s');
  }

  lemma NothingStep(s: State, s': State, a: Actor)
    requires ChainInv(s) && s.single && Next(s, s') && Pops(s, a) && s'.cs != s.cs
    requires s'.cs == Held(a, Popping(s.cs.at.k, Unlocking(None)))
    ensures if AtTail(s, a) then !Lonely(s.q)
            else (s.q.head !in s.q.next && !(exists i :: StubOwes(s.cs, i)) && (Lonely(s.q) ==> s.q.head == Stub))
  {
    HolderMoves(s, s');
    var k, at := s.cs.at.k, s.cs.at.pop;
    if ReadStep(s, a, k, at, s') {
      var q, at' :| ReadMove(s.q, at, q, at') && s' == Crits(s.(q := q), a, Popping(k, at'));
    }
  }

  /** A pop of an MPSC pool finds nothing only if no unit is in the queue, or if at some
      moment of its critical section a producer had exchanged right behind the front
      node and not linked. */
  lemma FindsNothing(r: seq<State>, n: nat, a: Actor)
    requires Run(r) && n + 1 < |r| && r[n].single && Pops(r[n], a) && r[n + 1].cs != r[n].cs
    requires r[n + 1].cs == Held(a, Popping(r[n].cs.at.k, Unlocking(None)))
    ensures r[n].q.hd < |r[n].q.order| && (Units(r[n].q.order[r[n].q.hd..]) == [] || SawGap(r, n, a))
  {
    Unraced(r, n);
    RunInv(r, n);
    assert Linked(r, n);
    NothingStep(r[n], r[n + 1], a);
    if AtTail(r[n], a) {
      TailHistory(r, n, a);
    } else {
      MissingFront(r[n]);
      if Gap(r[n]) { NowSeen(r, n, a); } else { assert r[n].q.order[r[n].q.hd..] == [Stub]; }
    }
  }
}
