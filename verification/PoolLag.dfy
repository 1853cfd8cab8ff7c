/**
 What a read of a pool's size misses: a push is counted after its unit is in the
 storage, so a pool can read as empty while it holds units.
 */
module PoolLag {
  import opened Basics
  import opened PoolModel
  import opened PoolChain
  import opened PoolCount
  import opened PoolRace

  /** Pushes that have flagged their unit and not counted it. */
  function InFlight(s: State): nat {
    |Pushing(s.pc)| + if s.cs.Held? && s.cs.at.Appending? then 1 else 0
  }

  /** Pops and removals that have taken their unit and not uncounted it. */
  function Outgoing(s: State): int {
    InFlight(s) - Balance(s.pc) - HolderDelta(s)
  }

  /** The pool reads as empty exactly when at least as many pushes are in flight as
      units are live or on their way out; with none in flight it is right. */
  lemma SizeMisses(s: State)
    requires Conserved(s)
    ensures s.count <= 0 <==> |Live(s)| + Outgoing(s) <= InFlight(s)
    ensures Outgoing(s) >= 0
    ensures s.count <= 0 ==> |Live(s)| <= InFlight(s)
    ensures s.count <= 0 && InFlight(s) == 0 ==> Live(s) == {}
  {
  }

  /** Only a push makes a unit live. */
  lemma LiveStep(s: State, s': State)
    requires Next(s, s')
    ensures Live(s') <= Live(s) + (s'.inPool - s.inPool)
  {
    if CritStep(s, s') {
      LiveCrit(s, s');
    } else if a :| OpenStep(s, a, s') {
      LiveOpen(s, a, s');
    }
  }

  lemma LiveOpen(s: State, a: Actor, s': State)
    requires OpenStep(s, a, s')
    ensures Live(s') <= Live(s) + (s'.inPool - s.inPool)
  {
    if PushStep(s, a, s') {
    } else if EnterStep(s, a, s') {
      EnterDelta(s, a, s');
    } else {
      LiveMove(s, a, s');
    }
  }

  lemma LiveMove(s: State, a: Actor, s': State)
    requires MoveStep(s, a, s')
    ensures Live(s') == Live(s)
  {
    var p, n, b :| Move(s, a, p, n, b) && s' == Put(s, a, p, n, b);
  }

  /** A step unflags units or flags one. */
  lemma OneFlag(s: State, s': State)
    requires Next(s, s')
    ensures s'.inPool <= s.inPool || exists u: Unit :: u !in s.inPool && s'.inPool == s.inPool + {u}
  {
    if CritStep(s, s') {
      LiveCrit(s, s');
    } else if a :| OpenStep(s, a, s') {
      FlagsOne(s, a, s');
    }
  }

  lemma FlagsOne(s: State, a: Actor, s': State)
    requires OpenStep(s, a, s')
    ensures s'.inPool <= s.inPool || exists u: Unit :: u !in s.inPool && s'.inPool == s.inPool + {u}
  {
    if s'.inPool != s.inPool {
      var u := At(s, a).u;
      assert u !in s.inPool && s'.inPool == s.inPool + {u};
    }
  }

  lemma LiveCrit(s: State, s': State)
    requires CritStep(s, s')
    ensures Live(s') <= Live(s) && s'.inPool <= s.inPool
  {
    match s.cs.at
    case Appending(_, _) =>
    case Popping(k, at) =>
      if ReadStep(s, s.cs.a, k, at, s') { ReadHolds(s, k, at, s'); } else { LiveTake(s, k, at, s'); }
    case Removing(u, at) => LiveRemove(s, u, at, s');
  }

  lemma LiveTake(s: State, k: Kont, at: PopStage, s': State)
    requires s.cs.Held? && s.cs.at == Popping(k, at) && TakeStep(s, s.cs.a, k, at, s')
    ensures Live(s') <= Live(s) && s'.inPool <= s.inPool
  {
  }

  lemma LiveRemove(s: State, u: Unit, at: RemStage, s': State)
    requires s.cs.Held? && s.cs.at == Removing(u, at) && RemoveStep(s, s.cs.a, u, at, s')
    ensures Live(s') <= Live(s) && s'.inPool <= s.inPool
  {
  }

  // ---- a run in which a finished push is missed ----

  /** Continues the run of PoolRace from where unit 7 is linked and not counted and
      unit 8 is flagged: the push of 8 is completed, then a pop takes 7. */
  function Lagging(): seq<State> {
    var done := map[0 := Push(7, Ret, Counting)];
    var both := done[1 := Push(8, Ret, WantAppend)];
    var pushed := done[1 := Idle];
    Racing()[..7] +
    [ Base([7], {7, 8}, Held(1, Appending(8, Ret)), both[1 := Inside], false),
      Base([7, 8], {7, 8}, Free, done[1 := Push(8, Ret, Counting)], false),
      Base([7, 8], {7, 8}, Free, done[1 := Wake(Ret, LoadSleepers)], false).(count := 1),
      Base([7, 8], {7, 8}, Free, pushed, false).(count := 1),
      Base([7, 8], {7, 8}, Free, pushed[2 := WantPop(Ret)], false).(count := 1),
      Base([7, 8], {7, 8}, Held(2, Popping(Ret, ListPop)), pushed[2 := Inside], false).(count := 1),
      Base([8], {8}, Held(2, Popping(Ret, Unlocking(Some(7)))), pushed[2 := Inside], false).(count := 1),
      Base([8], {8}, Free, pushed[2 := Popped(7, Ret)], false).(count := 1),
      Base([8], {8}, Free, pushed[2 := Idle], false) ]
  }

  lemma MovesTo(s: State, a: Actor, p: PC, n: int, s': State)
    requires Move(s, a, p, n, s.bell) && s' == Put(s, a, p, n, s.bell) && !s.aborted && !s.raced
    ensures Next(s, s')
  {
    assert OpenStep(s, a, s');
  }

  lemma LaggingEnter(r: seq<State>)
    requires r == Lagging()
    ensures Next(r[6], r[7])
  {
    assert r[7] == Go(r[6].(cs := Held(1, Appending(8, Ret))), 1, Inside);
    assert OpenStep(r[6], 1, r[7]);
  }

  lemma LaggingPush(r: seq<State>)
    requires r == Lagging()
    ensures Next(r[7], r[8])
  {
    assert r[8] == Leave(r[7].(lst := [7] + [8]), 1, Push(8, Ret, Counting));
  }

  lemma LaggingCount(r: seq<State>)
    requires r == Lagging()
    ensures Next(r[8], r[9])
  {
    MovesTo(r[8], 1, Wake(Ret, LoadSleepers), 1, r[9]);
  }

  lemma LaggingReturn(r: seq<State>)
    requires r == Lagging()
    ensures Next(r[9], r[10])
  {
    MovesTo(r[9], 1, Idle, 1, r[10]);
  }

  lemma LaggingPop(r: seq<State>)
    requires r == Lagging()
    ensures Next(r[10], r[11])
  {
    MovesTo(r[10], 2, WantPop(Ret), 1, r[11]);
  }

  lemma LaggingLock(r: seq<State>)
    requires r == Lagging()
    ensures Next(r[11], r[12])
  {
    assert r[12] == Go(r[11].(cs := Held(2, Popping(Ret, ListPop))), 2, Inside);
    assert OpenStep(r[11], 2, r[12]);
  }

  lemma LaggingTake(r: seq<State>)
    requires r == Lagging()
    ensures Next(r[12], r[13])
  {
    assert Without([7, 8], 7) == [8] && {7, 8} - {7} == {8};
    assert r[13] == Crits(r[12].(lst := [8], inPool := {8}), 2, Popping(Ret, Unlocking(Some(7))));
  }

  lemma LaggingUnlock(r: seq<State>)
    requires r == Lagging()
    ensures Next(r[13], r[14])
  {
    assert r[14] == Leave(r[13], 2, Popped(7, Ret));
  }

  lemma LaggingUncount(r: seq<State>)
    requires r == Lagging()
    ensures Next(r[14], r[15])
  {
    MovesTo(r[14], 2, Idle, 0, r[15]);
  }

  lemma LaggingStarts(r: seq<State>, i: nat)
    requires r == Lagging() && i < 6
    ensures Linked(r, i)
  {
    RacingLinked(Racing(), i);
    assert Linked(Racing(), i) && r[i] == Racing()[i] && r[i + 1] == Racing()[i + 1];
  }

  lemma LaggingLinked(r: seq<State>, i: nat)
    requires r == Lagging() && i + 1 < |r|
    ensures Linked(r, i)
  {
    if i < 6 { LaggingStarts(r, i); }
    else if i == 6 { LaggingEnter(r); }
    else if i == 7 { LaggingPush(r); }
    else if i == 8 { LaggingCount(r); }
    else if i == 9 { LaggingReturn(r); }
    else if i == 10 { LaggingPop(r); }
    else if i == 11 { LaggingLock(r); }
    else if i == 12 { LaggingTake(r); }
    else if i == 13 { LaggingUnlock(r); }
    else { LaggingUncount(r); }
  }

  /** The pool reads as empty and holds unit 8, whose own push is complete: the push in
      flight is that of a unit already gone. */
  lemma LagHappens(r: seq<State>)
    requires r == Lagging()
    ensures Run(r) && r[15].count == 0 && Live(r[15]) == {8} && r[15].lst == [8] && r[15].cs == Free
    ensures forall a: Actor :: At(r[15], a) == if a == 0 then Push(7, Ret, Counting) else Idle
  {
    forall i: nat ensures Linked(r, i) {
      if i + 1 < |r| { LaggingLinked(r, i); }
    }
    assert r[0] == Racing()[0];
  }
}
