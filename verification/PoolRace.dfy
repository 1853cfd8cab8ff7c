/**
 Removing a unit from a list pool while another thread is pushing it: the unit
 is flagged as queued before it is linked, and the unlink trusts the flag.
 */
module PoolRace {
  import opened PoolModel
  import opened PoolChain
  import opened PoolCount

  /** The step unlinks from the list. */
  ghost predicate Unlinks(s: State, u: Unit) {
    !s.single && s.cs.Held? && s.cs.at == Removing(u, Flag)
  }

  lemma PendingIsUnlinked(s: State, u: Unit)
    requires ChainInv(s) && PlacedInv(s) && Unlinks(s, u)
    ensures Pending(s, u) <==> u !in s.lst
  {
  }

  /** A step of a run damages the list exactly when it unlinks a unit whose push
      has flagged it and not linked it yet. */
  lemma DamagedExactly(r: seq<State>, n: nat)
    requires Run(r) && n + 1 < |r|
    ensures r[n + 1].raced <==> exists u :: Unlinks(r[n], u) && Pending(r[n], u) && CritStep(r[n], r[n + 1])
  {
    assert Linked(r, n);
    RunInv(r, n);
    var s, s' := r[n], r[n + 1];
    if u :| Unlinks(s, u) {
      PendingIsUnlinked(s, u);
    }
    if s'.raced {
      RacedStep(s, s');
    }
  }

  lemma RacedStep(s: State, s': State)
    requires Next(s, s') && s'.raced
    ensures CritStep(s, s') && s.cs.Held? && s.cs.at.Removing? && Unlinks(s, s.cs.at.u) && s.cs.at.u !in s.lst
  {
  }

  /** What the damage is: the list is emptied, and every unit that was on it stays
      flagged as queued while it is nowhere. */
  lemma DamageLoses(r: seq<State>, n: nat, v: Unit)
    requires Run(r) && n + 1 < |r| && r[n + 1].raced && v in r[n].lst
    ensures r[n + 1].lst == [] && v in r[n + 1].inPool && !Stored(CoreOf(r[n + 1]), v)
  {
    assert Linked(r, n);
    RunInv(r, n);
    RacedStep(r[n], r[n + 1]);
  }

  // ---- a run that gets there ----

  function Base(lst: seq<Unit>, inPool: set<Unit>, cs: CS, pc: map<Actor, PC>, raced: bool): State {
    State(false, 99, 0, Chain(map[], Stub, Stub, [Stub], 0, []), lst, inPool, {}, 0, Bell({}, 0, {}), cs, pc,
          false, false, raced)
  }

  function Racing(): seq<State> {
    var done := map[0 := Push(7, Ret, Counting)];
    var both := done[1 := Push(8, Ret, WantAppend)];
    [ Base([], {}, Free, map[], false),
      Base([], {}, Free, map[0 := Push(7, Ret, Marking)], false),
      Base([], {7}, Free, map[0 := Push(7, Ret, WantAppend)], false),
      Base([], {7}, Held(0, Appending(7, Ret)), map[0 := Inside], false),
      Base([7], {7}, Free, done, false),
      Base([7], {7}, Free, done[1 := Push(8, Ret, Marking)], false),
      Base([7], {7, 8}, Free, both, false),
      Base([7], {7, 8}, Free, both[2 := WantRemove(8)], false),
      Base([7], {7, 8}, Held(2, Removing(8, Check)), both[2 := Inside], false),
      Base([7], {7, 8}, Held(2, Removing(8, Flag)), both[2 := Inside], false),
      Base([], {7}, Held(2, Removing(8, Unlock(true))), both[2 := Inside], true) ]
  }

  lemma RacingMark(r: seq<State>)
    requires r == Racing()
    ensures MoveStep(r[0], 0, r[1]) && PushStep(r[1], 0, r[2])
  {
    assert Move(r[0], 0, Push(7, Ret, Marking), 0, r[0].bell);
    assert r[1] == Put(r[0], 0, Push(7, Ret, Marking), 0, r[0].bell);
    assert r[2] == Go(r[1].(inPool := {7}), 0, Push(7, Ret, WantAppend));
  }

  lemma RacingAppend(r: seq<State>)
    requires r == Racing()
    ensures EnterStep(r[2], 0, r[3]) && CritStep(r[3], r[4])
  {
    assert r[3] == Go(r[2].(cs := Held(0, Appending(7, Ret))), 0, Inside);
    assert r[4] == Leave(r[3].(lst := [7]), 0, Push(7, Ret, Counting));
  }

  lemma RacingFlag(r: seq<State>)
    requires r == Racing()
    ensures MoveStep(r[4], 1, r[5]) && PushStep(r[5], 1, r[6])
  {
    assert Move(r[4], 1, Push(8, Ret, Marking), 0, r[4].bell);
    assert r[5] == Put(r[4], 1, Push(8, Ret, Marking), 0, r[4].bell);
    assert r[6] == Go(r[5].(inPool := {7} + {8}), 1, Push(8, Ret, WantAppend));
  }

  lemma RacingRemoves(r: seq<State>)
    requires r == Racing()
    ensures MoveStep(r[6], 2, r[7]) && EnterStep(r[7], 2, r[8]) && CritStep(r[8], r[9]) && CritStep(r[9], r[10])
  {
    assert Move(r[6], 2, WantRemove(8), 0, r[6].bell) && r[7] == Put(r[6], 2, WantRemove(8), 0, r[6].bell);
    assert r[8] == Go(r[7].(cs := Held(2, Removing(8, Check))), 2, Inside);
    assert r[9] == Crits(r[8], 2, Removing(8, Flag));
    assert r[10] == Crits(r[9].(lst := [], inPool := {7, 8} - {8}, raced := true), 2, Removing(8, Unlock(true)));
  }

  lemma RacingLinked(r: seq<State>, i: nat)
    requires r == Racing() && i + 1 < |r|
    ensures Linked(r, i)
  {
    if i < 2 {
      RacingMark(r);
      assert OpenStep(r[i], 0, r[i + 1]);
    } else if i < 4 {
      RacingAppend(r);
      assert i == 2 ==> OpenStep(r[i], 0, r[i + 1]);
    } else if i < 6 {
      RacingFlag(r);
      assert OpenStep(r[i], 1, r[i + 1]);
    } else {
      RacingRemoves(r);
      assert i < 8 ==> OpenStep(r[i], 2, r[i + 1]);
    }
  }

  /** Three threads are enough: unit 7 is pushed, unit 8 is flagged by its push,
      and its removal empties the list. */
  lemma DamageHappens()
    ensures exists r: seq<State> :: Run(r) && r[|r| - 1].raced && r[|r| - 1].lst == [] && 7 in r[|r| - 1].inPool
  {
    var r := Racing();
    forall i: nat ensures Linked(r, i) {
      if i + 1 < |r| { RacingLinked(r, i); }
    }
    assert Run(r);
  }
}
