/**
 The two storages of a built-in pool as mutable structures, for histories in
 which one operation at a time runs: both are refinements of one sequence of
 units, popped from the front, pushed at the back, with removal anywhere.
 */
module PoolSeq {
  import opened Basics

  /** The pool-related fields of a work unit. The link of the MPSC storage is
      embedded in the unit (`qnext`), so the unit stands for its link node; a
      pool's stub is a node of its own, with no unit around it. */
  class Ult {
    var lprev: Ult?
    var lnext: Ult?
    var qnext: Ult?
    var inPool: bool
    var removed: bool
    var pool: object?
    const stub: bool
    const primary: bool
    const home: nat

    constructor (stub: bool, primary: bool, home: nat)
      ensures !inPool && !removed && lprev == null && lnext == null && qnext == null && pool == null
      ensures this.stub == stub && this.primary == primary && this.home == home
    {
      this.stub, this.primary, this.home := stub, primary, home;
      inPool, removed, lprev, lnext, qnext, pool := false, false, null, null, null, null;
    }

    /** The primary ULT can only be resumed by its home PE. */
    predicate PinnedElsewhere(rank: nat) {
      primary && home != rank
    }
  }

  // ---- the sequence both storages stand for ----

  /** Which position the list pop takes, if any: the front, or the one behind
      it when the front is the primary ULT of another PE. */
  function Pick(q: seq<Ult>, rank: nat): int {
    if q == [] then -1
    else if !q[0].PinnedElsewhere(rank) then 0
    else if |q| > 1 then 1 else -1
  }

  /** At most one unit is the primary one, so the unit picked can run here. */
  lemma PickIsRunnable(q: seq<Ult>, rank: nat)
    requires forall i, j :: 0 <= i < |q| && 0 <= j < |q| && q[i].primary && q[j].primary ==> i == j
    ensures Pick(q, rank) >= 0 ==> Pick(q, rank) < |q| && !q[Pick(q, rank)].PinnedElsewhere(rank)
    ensures Pick(q, rank) < 0 <==> forall i :: 0 <= i < |q| ==> q[i].PinnedElsewhere(rank)
    ensures forall i :: 0 <= i < Pick(q, rank) ==> q[i].PinnedElsewhere(rank)
  {
  }

  // ---- the doubly linked list ----

  class ListPool {
    var lhead: Ult?
    var ltail: Ult?
    var count: int
    ghost var units: seq<Ult>

    ghost predicate Linked(i: nat)
      requires i < |units|
      reads this, units
    {
      && units[i].inPool && units[i].pool == this
      && units[i].lprev == (if i == 0 then null else units[i - 1])
      && units[i].lnext == (if i == |units| - 1 then null else units[i + 1])
    }

    ghost predicate Valid()
      reads this, units
    {
      && Distinct(units) && count == |units|
      && lhead == (if units == [] then null else units[0])
      && ltail == (if units == [] then null else units[|units| - 1])
      && forall i :: 0 <= i < |units| ==> Linked(i)
    }

    constructor ()
      ensures Valid() && units == []
    {
      lhead, ltail, count, units := null, null, 0, [];
    }

    /** push: the unit is last, whatever the list held. */
    method Push(t: Ult)
      requires Valid() && !t.inPool && t.pool == this
      modifies this, ltail, t
      ensures Valid() && units == old(units) + [t] && t.inPool
    {
      forall i | 0 <= i < |units| ensures units[i] != t {
        assert Linked(i);
      }
      t.inPool := true;
      t.lnext := null;
      t.lprev := ltail;
      if ltail != null { ltail.lnext := t; } else { lhead := t; }
      ltail := t;
      count := count + 1;
      units := units + [t];
      ghost var n := |old(units)|;
      forall i | 0 <= i < |units| ensures Linked(i) {
        if i < n {
          assert old(Linked(i)) && units[i] == old(units)[i];
          assert i < n - 1 ==> units[i] != units[n - 1];
          assert units[i] != t;
        }
      }
    }

    /** The list is cut off: both its ends are null, and every unit that was on it is
        still flagged and linked to its neighbours. */
    ghost predicate CutOff()
      reads this, units
    {
      lhead == null == ltail && count == |units| - 1 && forall i :: 0 <= i < |units| ==> Linked(i)
    }

    /** list_unlink and the flag store that follows it, under the spinlock: of the unit
        at `k`, or, for a negative `k`, of a unit that is not linked. */
    method Unlink(t: Ult, ghost k: int)
      requires Valid() && k < |units|
      requires if k >= 0 then units[k] == t else t !in units && t.pool == this && t.lprev == null == t.lnext
      modifies this, units, t
      ensures if k >= 0 then Valid() && units == DropAt(old(units), k) else CutOff() && units == old(units)
      ensures !t.inPool && t.lprev == null && t.lnext == null && t.pool == this
    {
      assert k >= 0 ==> Linked(k);
      if t.lprev != null { t.lprev.lnext := t.lnext; } else { lhead := t.lnext; }
      if t.lnext != null { t.lnext.lprev := t.lprev; } else { ltail := t.lprev; }
      t.lprev, t.lnext := null, null;
      t.inPool := false;
      count := count - 1;
      if k >= 0 {
        units := DropAt(units, k);
      }
      ghost var was := old(units);
      forall i | 0 <= i < |units| ensures Linked(i) {
        var j := if k < 0 || i < k then i else i + 1;
        assert units[i] == was[j] && old(Linked(j));
      }
    }

    /** pop_list on the PE of this rank. */
    method Pop(rank: nat) returns (t: Ult?)
      requires Valid()
      modifies this, units
      ensures Valid()
      ensures var k := Pick(old(units), rank);
              if k < 0 then t == null && units == old(units)
              else k < |old(units)| && t == old(units)[k] && units == DropAt(old(units), k) && !t.inPool
    {
      assert units != [] ==> Linked(0);
      t := lhead;
      if t != null && t.PinnedElsewhere(rank) { t := t.lnext; }
      if t != null { Unlink(t, Pick(units, rank)); }
    }

    /** remove_unit: a hit exactly when the unit is flagged as queued here. If it is on
        the list, it alone leaves; if its push has yet to link it, the list is cut off. */
    method Remove(t: Ult) returns (hit: bool)
      requires Valid() && (t !in units ==> t.lprev == null == t.lnext)
      modifies this, units, t
      ensures hit <==> old(t.inPool && t.pool == this)
      ensures !hit ==> Valid() && units == old(units) && t !in units
      ensures hit && t !in old(units) ==> CutOff() && units == old(units)
      ensures hit && t in old(units) ==> Valid() && t !in units
      ensures hit && t in old(units) ==>
        exists k :: 0 <= k < |old(units)| && old(units)[k] == t && units == DropAt(old(units), k)
      ensures hit ==> !t.inPool
    {
      hit := false;
      if t in units { assert exists i :: 0 <= i < |units| && units[i] == t && Linked(i); }
      if t.inPool && t.pool == this {
        ghost var k := -1;
        if t in units { k :| 0 <= k < |units| && units[k] == t; }
        Unlink(t, k);
        hit := true;
      }
    }

    /** for_each_unit visits every queued unit, in order. */
    method ForEach() returns (seen: seq<Ult>)
      requires Valid()
      ensures seen == units
    {
      seen := [];
      var t := lhead;
      while t != null
        invariant |seen| <= |units| && seen == units[..|seen|]
        invariant t == (if |seen| == |units| then null else units[|seen|])
        decreases |units| - |seen|
      {
        assert Linked(|seen|);
        seen := seen + [t];
        t := t.lnext;
      }
    }
  }

  // ---- the MPSC queue ----

  /** The live units of a chain, in order: no stub, no tombstone. */
  ghost function LiveOf(c: seq<Ult>, tombs: set<Ult>): seq<Ult> {
    if c == [] then [] else One(c[0], tombs) + LiveOf(c[1..], tombs)
  }

  ghost function One(u: Ult, tombs: set<Ult>): seq<Ult> {
    if u.stub || u in tombs then [] else [u]
  }

  lemma {:induction false} LiveAppend(c: seq<Ult>, d: seq<Ult>, tombs: set<Ult>)
    ensures LiveOf(c + d, tombs) == LiveOf(c, tombs) + LiveOf(d, tombs)
  {
    if c == [] {
      assert c + d == d;
    } else {
      LiveAppend(c[1..], d, tombs);
      assert (c + d)[1..] == c[1..] + d && (c + d)[0] == c[0];
      var x, y, z := One(c[0], tombs), LiveOf(c[1..], tombs), LiveOf(d, tombs);
      assert x + (y + z) == (x + y) + z;
    }
  }

  /** Only the chain's own units matter. */
  lemma {:induction false} LiveFrame(c: seq<Ult>, x: set<Ult>, y: set<Ult>)
    requires forall u :: u in c ==> (u in x <==> u in y)
    ensures LiveOf(c, x) == LiveOf(c, y)
  {
    if c != [] { LiveFrame(c[1..], x, y); }
  }

  lemma {:induction false} LiveMember(c: seq<Ult>, tombs: set<Ult>, u: Ult)
    ensures u in LiveOf(c, tombs) <==> u in c && !u.stub && u !in tombs
  {
    if c != [] { LiveMember(c[1..], tombs, u); }
  }

  lemma LiveSplit(c: seq<Ult>, tombs: set<Ult>, k: nat)
    requires k < |c|
    ensures LiveOf(c, tombs) == LiveOf(c[..k], tombs) + One(c[k], tombs) + LiveOf(c[k + 1..], tombs)
  {
    var a, b := c[..k], c[k..];
    assert c == a + b && b[0] == c[k] && b[1..] == c[k + 1..];
    LiveAppend(a, b, tombs);
    var x, y, z := LiveOf(a, tombs), One(c[k], tombs), LiveOf(c[k + 1..], tombs);
    assert x + (y + z) == (x + y) + z;
  }

  /** A tombstone takes one unit out of the middle. */
  lemma LiveTomb(c: seq<Ult>, tombs: set<Ult>, k: nat)
    requires Distinct(c) && k < |c| && !c[k].stub && c[k] !in tombs
    ensures var n := |LiveOf(c[..k], tombs)|; var q := LiveOf(c, tombs);
            n < |q| && q[n] == c[k] && LiveOf(c, tombs + {c[k]}) == DropAt(q, n)
  {
    var a, b, t := c[..k], c[k + 1..], tombs + {c[k]};
    LiveFrame(a, tombs, t);
    LiveFrame(b, tombs, t);
    LiveSplit(c, tombs, k);
    LiveSplit(c, t, k);
  }

  lemma LiveStub(s: Ult, tombs: set<Ult>)
    ensures LiveOf([s], tombs) == One(s, tombs)
  {
  }

  class MpscPool {
    const stub: Ult
    var head: Ult
    var tail: Ult
    var count: int
    ghost var chain: seq<Ult>
    ghost var tombs: set<Ult>
    ghost var repr: set<Ult>

    /** The chain runs from `head` to `tail`; every unit in it is flagged. */
    ghost predicate Shape()
      reads this, repr
    {
      && |chain| > 0 && Distinct(chain) && head == chain[0] && tail == chain[|chain| - 1]
      && stub in repr && (forall u :: u in chain ==> u in repr)
      && (forall i :: 0 <= i < |chain| - 1 ==> chain[i].qnext == chain[i + 1]) && tail.qnext == null
      && stub.stub && (forall u :: u in chain && u.stub ==> u == stub)
      && (forall u :: u in chain && !u.stub ==> u.inPool && u.pool == this && (u.removed <==> u in tombs))
    }

    ghost predicate Valid()
      reads this, repr
    {
      Shape() && count == |Units()|
    }

    /** The sequence this pool stands for. */
    ghost function Units(): seq<Ult>
      reads this
    {
      LiveOf(chain, tombs)
    }

    constructor ()
      ensures Valid() && Units() == [] && fresh(repr)
    {
      var s := new Ult(true, false, 0);
      stub, head, tail, count, chain, tombs, repr := s, s, s, 0, [s], {}, {s};
      new;
      LiveStub(stub, {});
    }

    /** Clear the node's link, exchange the tail, link the predecessor. */
    method Append(n: Ult)
      requires Shape() && n !in chain && n in repr && (n.stub ==> n == stub)
      requires !n.stub ==> n.inPool && n.pool == this && (n.removed <==> n in tombs)
      modifies this`tail, this`chain, repr`qnext
      ensures Shape() && chain == old(chain) + [n]
    {
      n.qnext := null;
      var prev := tail;
      tail := n;
      prev.qnext := n;
      chain := chain + [n];
    }

    method Push(t: Ult)
      requires Valid() && !t.inPool && t.pool == this && !t.stub && !t.removed
      modifies this, repr`qnext, t
      ensures Valid() && Units() == old(Units()) + [t] && t.inPool && !t.removed
      ensures chain == old(chain) + [t] && repr == old(repr) + {t}
    {
      assert t !in chain;
      assert LiveOf(chain + [t], tombs - {t}) == Units() + [t] by {
        LiveAppend(chain, [t], tombs - {t});
        LiveFrame(chain, tombs - {t}, tombs);
        LiveStub(t, tombs - {t});
      }
      t.inPool := true;
      tombs, repr := tombs - {t}, repr + {t};
      Append(t);
      count := count + 1;
    }

    /** The unit at `k` of the chain is marked removed and no longer counted. */
    method Tombstone(t: Ult, ghost k: nat)
      requires Valid() && k < |chain| && chain[k] == t && !t.stub && !t.removed
      modifies this`tombs, this`count, t`removed
      ensures Valid() && chain == old(chain)
      ensures var n := |LiveOf(chain[..k], old(tombs))|; var q := old(Units());
              n < |q| && q[n] == t && Units() == DropAt(q, n)
    {
      LiveTomb(chain, tombs, k);
      t.removed := true;
      tombs := tombs + {t};
      count := count - 1;
    }

    /** remove_unit leaves a tombstone; the unit stays linked until a pop. */
    method Remove(t: Ult) returns (hit: bool)
      requires Valid() && !t.stub && (t.inPool && t.pool == this ==> t in chain)
      modifies this, t
      ensures Valid() && chain == old(chain) && repr == old(repr) && (hit <==> t in old(Units()))
      ensures !hit ==> Units() == old(Units())
      ensures hit ==> exists k :: 0 <= k < |old(Units())| && old(Units())[k] == t && Units() == DropAt(old(Units()), k)
    {
      hit := false;
      LiveMember(chain, tombs, t);
      if t.inPool && t.pool == this {
        if !t.removed {
          ghost var k :| 0 <= k < |chain| && chain[k] == t;
          Tombstone(t, k);
          hit := true;
        }
      }
    }

    /** Step over the stub at the front. */
    method Skip()
      requires Shape() && |chain| > 1 && head == stub
      modifies this`head, this`chain
      ensures Shape() && chain == old(chain)[1..] && stub !in chain
    {
      assert chain[0].qnext == chain[1];
      head := head.qnext;
      chain := chain[1..];
    }

    /** Detach the front unit, clearing its flag. */
    method Detach() returns (t: Ult)
      requires Shape() && |chain| > 1 && !head.stub
      modifies this`head, this`chain, head`inPool
      ensures Shape() && t == old(head) && chain == old(chain)[1..] && !t.inPool && t !in chain
    {
      assert chain[0].qnext == chain[1];
      t := head;
      head := t.qnext;
      t.inPool := false;
      chain := chain[1..];
    }

    /** One round of the walk: the front unit is detached, tombstone or not,
        after re-appending the stub if it was the last node. */
    method TakeFront() returns (t: Ult?)
      requires Shape()
      modifies this`head, this`tail, this`chain, repr`qnext, repr`inPool
      ensures Shape()
      ensures t == null ==> Units() == old(Units()) == [] && chain == old(chain)
      ensures t != null ==> t in repr && t !in chain && !t.stub && !t.inPool && t.pool == this
      ensures t != null ==> (t.removed <==> t in tombs) && old(Units()) == One(t, tombs) + Units()
      ensures t != null ==> old(LiveOf(chain, {})) == [t] + LiveOf(chain, {})
    {
      t := null;
      assert |chain| > 1 ==> chain[0].qnext == chain[1];
      if head == stub {
        if head.qnext == null {
          assert chain == [stub];
          LiveStub(stub, tombs);
          return;
        }
        Skip();
        assert [] + Units() == Units();
      }
      assert Units() == old(Units()) && LiveOf(chain, {}) == old(LiveOf(chain, {}));
      assert |chain| > 1 ==> chain[0].qnext == chain[1];
      if head.qnext == null {
        if head != tail { assert false; return; }
        /* the front node is the last one: re-append the stub behind it */
        LiveAppend(chain, [stub], tombs);
        LiveAppend(chain, [stub], {});
        LiveStub(stub, tombs);
        LiveStub(stub, {});
        Append(stub);
        assert Units() == old(Units()) && LiveOf(chain, {}) == old(LiveOf(chain, {}));
      }
      t := Detach();
    }

    /** The walk: tombstones at the front are dropped, their flags reset, until
        a live unit is detached or the chain is down to the stub. */
    method TakeLive() returns (t: Ult?)
      requires Shape()
      modifies this`head, this`tail, this`chain, this`tombs, repr
      ensures Shape()
      ensures t == null ==> Units() == old(Units()) == []
      ensures t != null ==> old(Units()) == [t] + Units()
      ensures t != null ==> t in repr && !t.stub && !t.inPool && !t.removed && t.pool == this
    {
      while true
        invariant Shape() && Units() == old(Units())
        decreases |LiveOf(chain, {})|
      {
        t := TakeFront();
        if t == null || !t.removed { return; }
        assert [] + Units() == Units();
        Forget(t);
      }
    }

    /** The flag of a tombstone that was taken off the chain is reset. */
    method Forget(t: Ult)
      requires Shape() && t !in chain && t != stub
      modifies this`tombs, t`removed
      ensures Shape() && Units() == old(Units()) && !t.removed
    {
      LiveFrame(chain, tombs, tombs - {t});
      t.removed := false;
      tombs := tombs - {t};
    }

    /** pop_mpsc on the PE of this rank: the first live unit, put back behind
        the others if it is pinned to another PE. */
    method Pop(rank: nat) returns (t: Ult?)
      requires Valid()
      modifies this, repr
      ensures Valid()
      ensures var q := old(Units());
              if q == [] then t == null && Units() == []
              else if q[0].PinnedElsewhere(rank) then t == null && Units() == q[1..] + [q[0]]
              else t == q[0] && Units() == q[1..] && !t.inPool && !t.removed
    {
      t := TakeLive();
      if t == null { return; }
      assert old(Units())[1..] == Units();
      count := count - 1;
      if t.PinnedElsewhere(rank) {
        Push(t);
        t := null;
      }
    }

    /** for_each_unit starts behind the front node. */
    method ForEach() returns (seen: seq<Ult>)
      requires Valid()
      ensures seen == LiveOf(chain[1..], tombs)
      ensures seen == Units() <==> head.stub || head.removed
    {
      seen := [];
      var n := head.qnext;
      ghost var i := 1;
      while n != null
        invariant 1 <= i <= |chain| && n == (if i == |chain| then null else chain[i])
        invariant seen == LiveOf(chain[1..i], tombs)
        decreases |chain| - i
      {
        LiveAppend(chain[1..i], [n], tombs);
        LiveStub(n, tombs);
        assert chain[1..i + 1] == chain[1..i] + [n];
        if !n.stub && !n.removed { seen := seen + [n]; }
        n := n.qnext;
        i := i + 1;
      }
      assert chain[1..i] == chain[1..];
    }
  }
}
