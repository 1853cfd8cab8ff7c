/**
 Schedulers and the pools they share: creation counts every slot that names a
 pool, destruction gives the slots back one by one and frees an automatic pool at
 its last slot.
 */
module SchedRefs {
  import opened Basics

  const DEFAULT := 0
  const PRIO := 2
  const BASIC_WAIT := 4

  datatype Error = InvalidPredef | InvalidArg

  datatype Outcome = Made(sched: Sched) | Failed(error: Error)

  /** A pool: how many scheduler slots name it, whether it goes with its last one,
      and what it holds. `freed` is set when it is destroyed. */
  class PoolRec {
    var numScheds: int
    const automatic: bool
    var size: int
    var blocked: int
    ghost var freed: bool

    constructor (automatic: bool)
      ensures this.automatic == automatic && numScheds == 0 && size == 0 && blocked == 0 && !freed
    {
      this.automatic := automatic;
      numScheds, size, blocked, freed := 0, 0, 0, false;
    }
  }

  class Sched {
    const pools: seq<PoolRec>

    constructor (pools: seq<PoolRec>)
      ensures this.pools == pools
    {
      this.pools := pools;
    }
  }

  /** Every slot of every scheduler. */
  ghost function Slots(ss: seq<Sched>): multiset<PoolRec> {
    if ss == [] then multiset{} else multiset(ss[0].pools) + Slots(ss[1..])
  }

  lemma {:induction false} SlotsAppend(ss: seq<Sched>, s: Sched)
    ensures Slots(ss + [s]) == Slots(ss) + multiset(s.pools)
  {
    if ss == [] {
      assert ss + [s] == [s];
    } else {
      SlotsAppend(ss[1..], s);
      assert (ss + [s])[1..] == ss[1..] + [s];
    }
  }

  lemma {:induction false} SlotsRemove(ss: seq<Sched>, k: nat)
    requires k < |ss|
    ensures Slots(ss) == Slots(ss[..k] + ss[k + 1..]) + multiset(ss[k].pools)
  {
    if k == 0 {
      assert ss[..0] + ss[1..] == ss[1..];
    } else {
      SlotsRemove(ss[1..], k - 1);
      assert ss[1..][..k - 1] + ss[1..][k..] == (ss[..k] + ss[k + 1..])[1..];
    }
  }

  /** Each pool counts its slots, and no freed pool has one. */
  ghost predicate Counted(all: set<PoolRec>, slots: multiset<PoolRec>)
    reads all
  {
    forall p: PoolRec :: p in all ==> p.numScheds == slots[p] && (slots[p] > 0 ==> !p.freed)
  }

  /** A pool goes with its last slot if it is automatic and empty. */
  predicate Disposable(p: PoolRec)
    reads p
  {
    p.automatic && p.size == 0 && p.blocked == 0
  }

  lemma TakeNext(q: seq<PoolRec>, i: nat)
    requires i < |q|
    ensures multiset(q[..i + 1]) == multiset(q[..i]) + multiset{q[i]}
    ensures multiset(q) == multiset(q[..i]) + multiset(q[i..]) && q[i] in multiset(q[i..])
  {
    assert q[..i + 1] == q[..i] + [q[i]];
    assert q == q[..i] + q[i..];
    assert q[i..] == [q[i]] + q[i + 1..];
  }

  /** The increments of a creation. */
  method AddSlots(pools: seq<PoolRec>, ghost all: set<PoolRec>, ghost slots: multiset<PoolRec>)
    requires Counted(all, slots) && forall p :: p in pools ==> p in all && !p.freed
    modifies set p | p in pools
    ensures Counted(all, slots + multiset(pools))
    ensures forall p :: p in all ==> p.size == old(p.size) && p.blocked == old(p.blocked) && p.freed == old(p.freed)
  {
    var i := 0;
    while i < |pools|
      invariant i <= |pools| && Counted(all, slots + multiset(pools[..i]))
      invariant forall p :: p in all ==> p.size == old(p.size) && p.blocked == old(p.blocked) && p.freed == old(p.freed)
    {
      TakeNext(pools, i);
      pools[i].numScheds := pools[i].numScheds + 1;
      i := i + 1;
    }
    assert pools[..i] == pools;
  }

  /** A pool as the library makes it: automatic and empty. */
  ghost predicate Blank(p: PoolRec)
    reads p
  {
    p.automatic && p.size == 0 && p.blocked == 0 && !p.freed
  }

  /** The pools asked for are in their slots, and each null entry got a blank pool of
      its own. */
  ghost predicate Fills(given: seq<PoolRec?>, pools: seq<PoolRec>)
    reads pools
  {
    && |pools| == |given|
    && (forall i :: 0 <= i < |given| ==> if given[i] != null then pools[i] == given[i] else Blank(pools[i]))
    && (forall i, j :: 0 <= i < j < |given| && given[i] == null == given[j] ==> pools[i] != pools[j])
  }

  /** The slots of a scheduler that is given pools. */
  method FillSlots(given: seq<PoolRec?>) returns (pools: seq<PoolRec>)
    ensures Fills(given, pools)
    ensures forall i :: 0 <= i < |given| && given[i] == null ==> fresh(pools[i]) && pools[i].numScheds == 0
  {
    pools := [];
    while |pools| < |given|
      invariant |pools| <= |given| && Fills(given[..|pools|], pools)
      invariant forall i :: 0 <= i < |pools| && given[i] == null ==> fresh(pools[i]) && pools[i].numScheds == 0
    {
      var g := given[|pools|];
      if g == null {
        var p := new PoolRec(true);
        pools := pools + [p];
      } else {
        pools := pools + [g];
      }
    }
  }

  /** New pools for a scheduler that is given none: three for the priority scheduler
      and one for any other. */
  method NewSlots(predef: int) returns (pools: seq<PoolRec>)
    ensures |pools| == (if predef == PRIO then 3 else 1) && Distinct(pools)
    ensures forall p :: p in pools ==> Blank(p) && fresh(p) && p.numScheds == 0
  {
    pools := FillSlots(if predef == PRIO then [null, null, null] else [null]);
  }

  /** One slot is given back; the pool, not freed so far, goes with its last one. */
  method DropSlot(p: PoolRec, ghost all: set<PoolRec>, ghost slots: multiset<PoolRec>)
    requires Counted(all, slots) && p in all && p in slots
    modifies p`numScheds, p`freed
    ensures !old(p.freed) && Counted(all, slots - multiset{p})
    ensures p.freed <==> slots[p] == 1 && Disposable(p)
  {
    p.numScheds := p.numScheds - 1;
    if p.numScheds == 0 && p.automatic && p.size == 0 && p.blocked == 0 {
      p.freed := true;
    }
  }

  /** Slots `q`, given back so far, were the last ones of `p`. */
  predicate Last(p: PoolRec, q: seq<PoolRec>, slots: multiset<PoolRec>) {
    p in q && slots[p] == multiset(q)[p]
  }

  lemma LastNext(p: PoolRec, q: seq<PoolRec>, x: PoolRec, slots: multiset<PoolRec>)
    requires multiset(q + [x]) <= slots
    ensures p != x ==> (Last(p, q + [x], slots) <==> Last(p, q, slots))
    ensures p == x ==> (Last(p, q + [x], slots) <==> (slots - multiset(q))[p] == 1)
  {
  }

  lemma DropFacts(pools: seq<PoolRec>, i: nat, slots: multiset<PoolRec>)
    requires i < |pools| && multiset(pools) <= slots
    ensures var left := slots - multiset(pools[..i]);
            pools[i] in left && left - multiset{pools[i]} == slots - multiset(pools[..i + 1]) &&
            (Last(pools[i], pools[..i + 1], slots) <==> left[pools[i]] == 1)
    ensures forall p :: p != pools[i] ==> (Last(p, pools[..i + 1], slots) <==> Last(p, pools[..i], slots))
  {
    TakeNext(pools, i);
    assert pools[..i + 1] == pools[..i] + [pools[i]];
    TakenLess(pools, i + 1, slots);
    LastNext(pools[i], pools[..i], pools[i], slots);
    forall p | p != pools[i] ensures Last(p, pools[..i + 1], slots) <==> Last(p, pools[..i], slots) {
      LastNext(p, pools[..i], pools[i], slots);
    }
  }

  lemma TakenLess(pools: seq<PoolRec>, i: nat, slots: multiset<PoolRec>)
    requires i <= |pools| && multiset(pools) <= slots
    ensures multiset(pools[..i]) <= slots
  {
    assert pools == pools[..i] + pools[i..];
  }

  /** The destroy loop: a pool is freed exactly when no slot of any scheduler names
      it any more and it is disposable, and no freed pool is touched. */
  method DropSlots(pools: seq<PoolRec>, ghost all: set<PoolRec>, ghost slots: multiset<PoolRec>)
    requires Counted(all, slots) && multiset(pools) <= slots && forall p :: p in pools ==> p in all
    modifies (set p | p in pools)`numScheds, (set p | p in pools)`freed
    ensures Counted(all, slots - multiset(pools))
    ensures forall p :: p in all ==> (p.freed <==> old(p.freed) || (Last(p, pools, slots) && Disposable(p)))
  {
    var i := 0;
    while i < |pools|
      invariant i <= |pools| && Counted(all, slots - multiset(pools[..i]))
      invariant forall p :: p in all ==> (p.freed <==> old(p.freed) || (Last(p, pools[..i], slots) && Disposable(p)))
    {
      DropFacts(pools, i, slots);
      DropSlot(pools[i], all, slots - multiset(pools[..i]));
      i := i + 1;
    }
    assert pools[..i] == pools;
  }

  /** All schedulers alive and all pools ever seen. */
  class Registry {
    var scheds: seq<Sched>
    ghost var all: set<PoolRec>

    ghost predicate Valid()
      reads this, all
    {
      Counted(all, Slots(scheds)) && forall s, p :: s in scheds && p in s.pools ==> p in all
    }

    constructor ()
      ensures Valid() && scheds == [] && all == {}
    {
      scheds, all := [], {};
    }

    /** A scheduler over `pools`, which may name one pool several times. */
    method Install(pools: seq<PoolRec>) returns (s: Sched)
      requires Valid() && forall p :: p in pools ==> !p.freed && (p !in all ==> p.numScheds == 0)
      modifies this, set p | p in pools
      ensures Valid() && s.pools == pools && scheds == old(scheds) + [s] && all == old(all) + set p | p in pools
      ensures forall p :: p in all ==> p.size == old(p.size) && p.blocked == old(p.blocked) && p.freed == old(p.freed)
    {
      ghost var was := Slots(scheds);
      SlotsKnown(scheds, all);
      all := all + set p | p in pools;
      AddSlots(pools, all, was);
      s := new Sched(pools);
      SlotsAppend(scheds, s);
      scheds := scheds + [s];
    }

    /** A scheduler over the pools given, or over new ones. */
    method Create(predef: int, numPools: int, given: Option<seq<PoolRec?>>) returns (r: Outcome)
      requires Valid() && (given.Some? && numPools >= 0 ==> |given.value| == numPools)
      requires given.Some? ==> forall p: PoolRec :: p in given.value ==> !p.freed && (p !in all ==> p.numScheds == 0)
      modifies this, set p: PoolRec | given.Some? && p in given.value
      ensures Valid()
      ensures r == Failed(InvalidPredef) <==> predef < DEFAULT || predef > BASIC_WAIT
      ensures r == Failed(InvalidArg) <==> DEFAULT <= predef <= BASIC_WAIT && numPools < 0
      ensures r.Failed? ==> unchanged(this)
      ensures r.Failed? && given.Some? ==> forall p: PoolRec :: p in given.value ==> unchanged(p)
      ensures r.Made? ==> scheds == old(scheds) + [r.sched]
      ensures r.Made? ==> |r.sched.pools| == if given.Some? then numPools else if predef == PRIO then 3 else 1
      ensures r.Made? && given.Some? ==> Fills(given.value, r.sched.pools)
      ensures r.Made? && given.Some? ==>
        forall i :: 0 <= i < |r.sched.pools| && given.value[i] == null ==> fresh(r.sched.pools[i])
      ensures r.Made? && given == None ==>
        Distinct(r.sched.pools) && forall p :: p in r.sched.pools ==> Blank(p) && fresh(p)
    {
      if predef < DEFAULT || predef > BASIC_WAIT {
        return Failed(InvalidPredef);
      }
      if numPools < 0 {
        return Failed(InvalidArg);
      }
      if given.Some? {
        var pools := FillSlots(given.value);
        var s := Install(pools);
        forall i | 0 <= i < |pools| && given.value[i] == null ensures Blank(pools[i]) {
          assert pools[i] in all;
        }
        return Made(s);
      } else {
        var pools := NewSlots(predef);
        var s := Install(pools);
        forall p | p in pools ensures Blank(p) && fresh(p) {
          assert p in all;
        }
        return Made(s);
      }
    }

    method Destroy(k: nat)
      requires Valid() && k < |scheds|
      modifies this`scheds, all
      ensures Valid() && scheds == old(scheds)[..k] + old(scheds)[k + 1..]
      ensures forall p :: p in all ==>
        (p.freed <==> old(p.freed) || (p in old(scheds[k]).pools && p !in Slots(scheds) && Disposable(p)))
    {
      var s := scheds[k];
      SlotsRemove(scheds, k);
      DropSlots(s.pools, all, Slots(scheds));
      scheds := scheds[..k] + scheds[k + 1..];
    }
  }

  lemma {:induction false} SlotsKnown(ss: seq<Sched>, all: set<PoolRec>)
    requires forall s, p :: s in ss && p in s.pools ==> p in all
    ensures forall p :: p in Slots(ss) ==> p in all
  {
    if ss != [] {
      SlotsKnown(ss[1..], all);
    }
  }
}
