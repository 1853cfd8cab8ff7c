/**
 How a PE parks on a pool: whom the sleeper mask holds, and when a parked PE leaves.
 */
module PoolPark {
  import opened PoolModel
  import opened PoolChain
  import opened PoolCount
  import opened PoolWake
  import opened PoolSteps

  // ---- the sleeper mask ----

  /** Only registered PEs are in the mask. */
  predicate MaskOk(s: State, c: Actor) {
    c in s.bell.mask ==> Registered(s, c)
  }

  lemma MaskCrit(s: State, s': State, c: Actor)
    requires HolderInv(s) && CritStep(s, s') && MaskOk(s, c)
    ensures MaskOk(s', c)
  {
    CritShape(s, s');
  }

  lemma MaskMove(s: State, a: Actor, s': State, c: Actor)
    requires HolderInv(s) && MoveStep(s, a, s') && MaskOk(s, c)
    ensures MaskOk(s', c)
  {
    var p, n, b :| Move(s, a, p, n, b) && s' == Put(s, a, p, n, b);
    MoveMaskOf(s, a, p, n, b);
  }

  lemma MoveMaskOf(s: State, a: Actor, p: PC, n: int, b: Bell)
    requires Move(s, a, p, n, b)
    ensures forall c: Actor :: c != a && c in b.mask ==> c in s.bell.mask
    ensures a in b.mask ==> a in s.bell.mask || p == Park(AddSleeper)
    ensures At(s, a) == Park(ClearBit) ==> a !in b.mask
    ensures ByParked(At(s, a)) ==> ByParked(p) || (p.Park? && !p.at.SetBit? && !p.at.SubSleeper?)
    ensures At(s, a).Park? && !At(s, a).at.SetBit? && !At(s, a).at.ClearBit? && !At(s, a).at.SubSleeper? ==>
              ByParked(p) || (p.Park? && !p.at.SetBit? && !p.at.SubSleeper?)
  {
  }

  lemma MaskNext(s: State, s': State, c: Actor)
    requires ChainInv(s) && ChainInv(s') && Next(s, s') && MaskOk(s, c)
    ensures MaskOk(s', c)
  {
    if CritStep(s, s') {
      MaskCrit(s, s', c);
    } else if a :| OpenStep(s, a, s') {
      if MoveStep(s, a, s') { MaskMove(s, a, s', c); } else if PushStep(s, a, s') { MaskPush(s, a, s', c); }
    }
  }

  lemma MaskPush(s: State, a: Actor, s': State, c: Actor)
    requires PushStep(s, a, s') && MaskOk(s, c)
    ensures MaskOk(s', c)
  {
    PushOnly(s, a, s');
  }

  /** The mask holds exactly the PEs between setting and clearing their bit, and
      `nsleepers` counts those between raising and lowering it. */
  lemma {:induction false} MaskExact(r: seq<State>, n: nat, c: Actor)
    requires Run(r) && n < |r| && !r[n].raced
    ensures c in r[n].bell.mask <==> Registered(r[n], c)
    ensures SleepInv(r[n])
  {
    WakeRun(r, n);
    assert At(r[n], c) == At(r[n], c);
    if n > 0 {
      RunStep(r, n);
      MaskExact(r, n - 1, c);
      RunInv(r, n - 1);
      RunInv(r, n);
      MaskNext(r[n - 1], r[n], c);
    }
  }

  // ---- leaving ----

  /** `a` waited at state `m` and has been registered up to state `n`. */
  ghost predicate WaitedAt(r: seq<State>, m: nat, n: nat, a: Actor) {
    && m <= n < |r| && At(r[m], a).Park? && At(r[m], a).at.Waiting?
    && forall s :: s in r[m..n + 1] ==> Registered(s, a)
  }

  ghost predicate HasWaited(r: seq<State>, n: nat, a: Actor) {
    exists m: nat :: WaitedAt(r, m, n, a)
  }

  /** In the pop that follows the wait. */
  predicate LastPop(s: State, a: Actor) {
    || (s.cs.Held? && s.cs.a == a && s.cs.at.Popping? && s.cs.at.k == Last)
    || (s.cs.Held? && s.cs.a == a && s.cs.at.Appending? && s.cs.at.k == Last)
    || match At(s, a)
       case Push(_, k, _) => k == Last
       case Wake(k, _) => k == Last
       case WantPop(k) => k == Last
       case Popped(_, k) => k == Last
       case _ => false
  }

  lemma NewlyLast(s: State, s': State, a: Actor)
    requires HolderInv(s) && Next(s, s') && LastPop(s', a) && !LastPop(s, a)
    ensures At(s, a) == Park(Waiting(false))
  {
    if CritStep(s, s') {
      LastCrit(s, s', a);
      assert false;
    } else if b :| OpenStep(s, b, s') {
      LastOpen(s, b, s', a);
    }
  }

  lemma LastCrit(s: State, s': State, a: Actor)
    requires HolderInv(s) && CritStep(s, s') && LastPop(s', a)
    ensures LastPop(s, a)
  {
    CritShape(s, s');
  }

  lemma LastOpen(s: State, b: Actor, s': State, a: Actor)
    requires OpenStep(s, b, s') && LastPop(s', a) && !LastPop(s, a)
    ensures At(s, a) == Park(Waiting(false))
  {
    if MoveStep(s, b, s') {
      LastMove(s, b, s', a);
    } else if PushStep(s, b, s') {
      PushOnly(s, b, s');
    } else {
      EnterOnly(s, b, s');
    }
  }

  lemma LastMove(s: State, b: Actor, s': State, a: Actor)
    requires MoveStep(s, b, s') && LastPop(s', a) && !LastPop(s, a)
    ensures At(s, a) == Park(Waiting(false))
  {
    var p, n, x :| Move(s, b, p, n, x) && s' == Put(s, b, p, n, x);
  }

  lemma {:induction false} LastWaited(r: seq<State>, n: nat, a: Actor)
    requires Run(r) && n < |r| && !r[n].raced && LastPop(r[n], a)
    ensures HasWaited(r, n, a)
  {
    if n > 0 {
      RunStep(r, n);
      RunInv(r, n - 1);
      if LastPop(r[n - 1], a) {
        LastWaited(r, n - 1, a);
      } else {
        NewlyLast(r[n - 1], r[n], a);
        WaitsNow(r, n - 1, a);
      }
      StillWaited(r, n - 1, a);
    }
  }

  lemma WaitsNow(r: seq<State>, n: nat, a: Actor)
    requires n < |r| && At(r[n], a).Park? && At(r[n], a).at.Waiting?
    ensures HasWaited(r, n, a)
  {
    assert r[n..n + 1] == [r[n]];
    assert WaitedAt(r, n, n, a);
  }

  lemma StillWaited(r: seq<State>, n: nat, a: Actor)
    requires HasWaited(r, n, a) && n + 1 < |r| && Registered(r[n + 1], a)
    ensures HasWaited(r, n + 1, a)
  {
    var m: nat :| WaitedAt(r, m, n, a);
    assert r[m..n + 2] == r[m..n + 1] + [r[n + 1]];
    assert WaitedAt(r, m, n + 1, a);
  }

  lemma BeforeClear(s: State, s': State, a: Actor)
    requires ChainInv(s) && Next(s, s') && At(s', a) == Park(ClearBit) && At(s, a) != At(s', a)
    ensures At(s, a).Popped? || At(s, a) == Park(CheckSize) || At(s, a) == Park(Waiting(true)) || LastPop(s, a)
  {
    if CritStep(s, s') {
      ClearCrit(s, s', a);
    } else if b :| OpenStep(s, b, s') {
      OpenShape(s, b, s');
      ClearOpen(s, a, s');
    }
  }

  lemma ClearCrit(s: State, s': State, a: Actor)
    requires HolderInv(s) && CritStep(s, s') && At(s', a) == Park(ClearBit) && At(s, a) != At(s', a)
    ensures LastPop(s, a)
  {
    CritShape(s, s');
  }

  lemma ClearOpen(s: State, a: Actor, s': State)
    requires OpenStep(s, a, s') && At(s', a) == Park(ClearBit)
    ensures At(s, a).Popped? || At(s, a) == Park(CheckSize) || At(s, a) == Park(Waiting(true)) || LastPop(s, a)
  {
    if PushStep(s, a, s') { PushOnly(s, a, s'); }
    if MoveStep(s, a, s') {
      var p, n, x :| Move(s, a, p, n, x) && s' == Put(s, a, p, n, x);
    }
  }

  /** A registered PE takes itself off only with a unit in hand, after a size check
      that did not make it wait, or after it has waited. */
  lemma LeavesAfterWait(r: seq<State>, n: nat, a: Actor)
    requires Run(r) && n + 1 < |r| && At(r[n + 1], a) == Park(ClearBit) && At(r[n], a) != At(r[n + 1], a)
    ensures At(r[n], a).Popped? || At(r[n], a) == Park(CheckSize) || HasWaited(r, n, a)
  {
    assert Linked(r, n);
    RunInv(r, n);
    BeforeClear(r[n], r[n + 1], a);
    if LastPop(r[n], a) { LastWaited(r, n, a); }
    if At(r[n], a) == Park(Waiting(true)) { WaitsNow(r, n, a); }
  }

  /** A wait uses up the notification, and a PE that had looked by a pop pops again. */
  lemma WaitEnds(r: seq<State>, n: nat, a: Actor, bySize: bool)
    requires Run(r) && n + 1 < |r| && At(r[n], a) == Park(Waiting(bySize)) && At(r[n + 1], a) != At(r[n], a)
    ensures a !in r[n + 1].bell.note && (At(r[n + 1], a).WantPop? <==> !bySize)
  {
    assert Linked(r, n);
    RunInv(r, n);
    WaitStep(r[n], r[n + 1], a, bySize);
  }

  lemma WaitStep(s: State, s': State, a: Actor, bySize: bool)
    requires ChainInv(s) && Next(s, s') && At(s, a) == Park(Waiting(bySize)) && At(s', a) != At(s, a)
    ensures a !in s'.bell.note && (At(s', a).WantPop? <==> !bySize)
  {
    if CritStep(s, s') {
      CritShape(s, s');
      assert false;
    } else if b :| OpenStep(s, b, s') {
      OpenShape(s, b, s');
      var p, n, x :| Move(s, a, p, n, x) && s' == Put(s, a, p, n, x);
    }
  }

  /** By a size check a PE can go on to wait exactly when the count is not positive. */
  lemma WaitsBySize(s: State, a: Actor)
    requires ChainInv(s) && !s.aborted && !s.raced && At(s, a) == Park(CheckSize)
    ensures (exists s' :: Next(s, s') && At(s', a) == Park(Waiting(true))) <==> s.count <= 0
  {
    if s.count <= 0 {
      var s' := Put(s, a, Park(Waiting(true)), s.count, s.bell);
      assert Move(s, a, Park(Waiting(true)), s.count, s.bell);
      assert OpenStep(s, a, s');
      assert Next(s, s') && At(s', a) == Park(Waiting(true));
    } else if s' :| Next(s, s') && At(s', a) == Park(Waiting(true)) {
      NotBySize(s, a, s');
    }
  }

  lemma NotBySize(s: State, a: Actor, s': State)
    requires ChainInv(s) && At(s, a) == Park(CheckSize) && s.count > 0 && Next(s, s')
    ensures At(s', a) != Park(Waiting(true))
  {
    if CritStep(s, s') {
      CritShape(s, s');
    } else if b :| OpenStep(s, b, s') {
      OpenShape(s, b, s');
      if b == a {
        var p, n, x :| Move(s, a, p, n, x) && s' == Put(s, a, p, n, x);
      }
    }
  }
}
