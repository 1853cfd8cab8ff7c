/**
 The order of a list pool over every run, and which unit a pop picks from it.
 Runs are followed as long as the list is undamaged.
 */
module PoolOrder {
  import opened Basics
  import opened PoolModel
  import opened PoolChain
  import opened PoolSteps

  /** Step `i` appends unit `u`: its push, holding the spinlock, lets go of it. */
  ghost predicate AppendsAt(r: seq<State>, i: nat, u: Unit) {
    i + 1 < |r| && Appends(r[i].cs, u) && r[i + 1].cs == Free
  }

  /** Appended in step `i`, the unit has not left the pool up to state `n`. */
  ghost predicate InSince(r: seq<State>, i: nat, n: nat, u: Unit) {
    i < n < |r| && AppendsAt(r, i, u) && forall s :: s in r[i + 1..n + 1] ==> u in s.inPool
  }

  ghost predicate IsIn(r: seq<State>, n: nat, u: Unit) {
    exists i: nat :: InSince(r, i, n, u)
  }

  // ---- what a step does to the list ----

  ghost predicate AppendStep(s: State, s': State) {
    s.cs.Held? && s.cs.at.Appending? && s'.cs == Free
  }

  /** The unit at `k` leaves the list and the pool. */
  ghost predicate DropStep(s: State, k: nat, s': State) {
    k < |s.lst| && s'.lst == DropAt(s.lst, k) && s'.inPool == s.inPool - {s.lst[k]} && s'.cs != Free
  }

  lemma {:induction false} WithoutIs(q: seq<Unit>, u: Unit) returns (k: nat)
    requires u in q
    ensures k < |q| && q[k] == u && Without(q, u) == DropAt(q, k)
  {
    if q[0] == u {
      k := 0;
    } else {
      var i := WithoutIs(q[1..], u);
      k := i + 1;
      assert [q[0]] + DropAt(q[1..], i) == DropAt(q, k);
    }
  }

  /** One unit is appended, one leaves, or the list stays and no unit leaves. */
  lemma ListStep(s: State, s': State)
    requires ChainInv(s) && Next(s, s') && !s.single && !s'.raced
    ensures AppendStep(s, s') ==> s'.lst == s.lst + [s.cs.at.u] && s'.inPool == s.inPool && s.cs.at.u !in s.lst
    ensures !AppendStep(s, s') ==> (s'.lst == s.lst && s.inPool <= s'.inPool) || exists k: nat :: DropStep(s, k, s')
  {
    if CritStep(s, s') {
      if s.cs.at.Popping? {
        PopList(s, s.cs.at.k, s.cs.at.pop, s');
      } else if s.cs.at.Removing? {
        RemoveList(s, s.cs.at.u, s.cs.at.rem, s');
      }
    } else if a :| OpenStep(s, a, s') {
      OpenShape(s, a, s');
    }
  }

  lemma PopList(s: State, k: Kont, at: PopStage, s': State)
    requires ChainInv(s) && !s.single && s.cs.Held? && s.cs.at == Popping(k, at)
    requires ReadStep(s, s.cs.a, k, at, s') || TakeStep(s, s.cs.a, k, at, s')
    ensures (s'.lst == s.lst && s'.inPool == s.inPool) || exists i: nat :: DropStep(s, i, s')
  {
    if at == ListPop && ListPick(s, s.cs.a).Some? {
      var i := WithoutIs(s.lst, ListPick(s, s.cs.a).value);
      assert DropStep(s, i, s');
    }
  }

  lemma RemoveList(s: State, u: Unit, at: RemStage, s': State)
    requires !s.single && s.cs.Held? && RemoveStep(s, s.cs.a, u, at, s') && !s'.raced
    ensures (s'.lst == s.lst && s'.inPool == s.inPool) || exists i: nat :: DropStep(s, i, s')
  {
    if at == Flag {
      var i := WithoutIs(s.lst, u);
      assert DropStep(s, i, s');
    }
  }

  // ---- the order over runs ----

  /** The list holds exactly the units appended and not gone since, in the order in
      which they were appended. */
  ghost predicate Ordered(r: seq<State>, n: nat)
    requires n < |r|
  {
    var q := r[n].lst;
    && (forall u :: u in q <==> IsIn(r, n, u))
    && (forall j, k :: 0 <= j < k < |q| ==> Earlier(r, n, q[j], q[k]))
  }

  ghost predicate Earlier(r: seq<State>, n: nat, u: Unit, v: Unit) {
    forall a: nat, b: nat :: InSince(r, a, n, u) && InSince(r, b, n, v) ==> a < b
  }

  /** A step that does not append `u` and keeps it in the pool. */
  lemma SameSince(r: seq<State>, i: nat, n: nat, u: Unit)
    requires n + 1 < |r| && u in r[n + 1].inPool && !AppendsAt(r, n, u)
    ensures InSince(r, i, n + 1, u) <==> InSince(r, i, n, u)
  {
    if i < n {
      var now, was := r[i + 1..n + 2], r[i + 1..n + 1];
      assert now == was + [r[n + 1]];
      forall s | s in was ensures s in now {
      }
    }
  }

  lemma SameIn(r: seq<State>, n: nat, u: Unit)
    requires n + 1 < |r| && u in r[n + 1].inPool && !AppendsAt(r, n, u)
    ensures IsIn(r, n + 1, u) <==> IsIn(r, n, u)
  {
    var n' := n + 1;
    if i: nat :| InSince(r, i, n', u) {
      SameSince(r, i, n, u);
    }
    if i: nat :| InSince(r, i, n, u) {
      SameSince(r, i, n, u);
      assert InSince(r, i, n', u);
    }
  }

  lemma InPoolSince(r: seq<State>, n: nat, u: Unit)
    requires IsIn(r, n, u)
    ensures n < |r| && u in r[n].inPool
  {
    var i: nat :| InSince(r, i, n, u);
    assert r[i + 1..n + 1][n - i - 1] == r[n];
  }

  lemma KeepAppend(r: seq<State>, n: nat, u: Unit)
    requires n + 1 < |r| && Ordered(r, n) && AppendsAt(r, n, u) && u !in r[n].lst && u in r[n].inPool
    requires r[n + 1].lst == r[n].lst + [u] && r[n + 1].inPool == r[n].inPool
    ensures Ordered(r, n + 1)
  {
    var q, q' := r[n].lst, r[n + 1].lst;
    assert r[n + 1..n + 2] == [r[n + 1]];
    assert InSince(r, n, n + 1, u);
    forall v ensures v in q' <==> IsIn(r, n + 1, v) {
      if v != u {
        if v in q { InPoolSince(r, n, v); }
        if IsIn(r, n + 1, v) { InPoolSince(r, n + 1, v); }
        if v in r[n + 1].inPool { SameIn(r, n, v); }
      }
    }
    forall j, k | 0 <= j < k < |q'| ensures Earlier(r, n + 1, q'[j], q'[k]) {
      assert q'[j] == q[j] && q[j] in q;
      if k < |q| {
        assert q'[k] == q[k] && q[k] in q;
        StillEarlier(r, n, q[j], q[k]);
      } else {
        NowLater(r, n, q[j], u);
      }
    }
  }

  lemma StillEarlier(r: seq<State>, n: nat, u: Unit, v: Unit)
    requires n + 1 < |r| && Earlier(r, n, u, v) && u in r[n + 1].inPool && v in r[n + 1].inPool
    requires !AppendsAt(r, n, u) && !AppendsAt(r, n, v)
    ensures Earlier(r, n + 1, u, v)
  {
    var n' := n + 1;
    forall a: nat, b: nat | InSince(r, a, n', u) && InSince(r, b, n', v) ensures a < b {
      SameSince(r, a, n, u);
      SameSince(r, b, n, v);
    }
  }

  /** A unit that is not on the list was appended by no earlier step. */
  lemma NowLater(r: seq<State>, n: nat, u: Unit, v: Unit)
    requires n + 1 < |r| && !AppendsAt(r, n, u) && !IsIn(r, n, v)
    ensures Earlier(r, n + 1, u, v)
  {
    var n' := n + 1;
    forall a: nat, b: nat | InSince(r, a, n', u) && InSince(r, b, n', v) ensures a < b {
      if b < n { WasIn(r, b, n, v); }
    }
  }

  lemma WasIn(r: seq<State>, b: nat, n: nat, v: Unit)
    requires InSince(r, b, n + 1, v) && b < n
    ensures IsIn(r, n, v)
  {
    var now, was := r[b + 1..n + 2], r[b + 1..n + 1];
    assert now == was + [r[n + 1]];
    forall s | s in was ensures s in now {
    }
    assert InSince(r, b, n, v);
  }

  lemma KeepSame(r: seq<State>, n: nat)
    requires n + 1 < |r| && Ordered(r, n) && r[n + 1].lst == r[n].lst && r[n].inPool <= r[n + 1].inPool
    requires forall u :: !AppendsAt(r, n, u)
    ensures Ordered(r, n + 1)
  {
    var q := r[n].lst;
    forall v ensures v in q <==> IsIn(r, n + 1, v) {
      if v in q { InPoolSince(r, n, v); }
      if IsIn(r, n + 1, v) { InPoolSince(r, n + 1, v); }
      if v in r[n + 1].inPool { SameIn(r, n, v); }
    }
    forall j, k | 0 <= j < k < |q| ensures Earlier(r, n + 1, q[j], q[k]) {
      assert q[j] in q && q[k] in q;
      StillEarlier(r, n, q[j], q[k]);
    }
  }

  lemma KeepDrop(r: seq<State>, n: nat, x: nat)
    requires n + 1 < |r| && Ordered(r, n) && DropStep(r[n], x, r[n + 1]) && Distinct(r[n].lst)
    ensures Ordered(r, n + 1)
  {
    var q, q' := r[n].lst, r[n + 1].lst;
    forall v ensures v in q' <==> IsIn(r, n + 1, v) {
      DropIn(r, n, x, v);
    }
    forall j, k | 0 <= j < k < |q'| ensures Earlier(r, n + 1, q'[j], q'[k]) {
      DropIn(r, n, x, q'[j]);
      DropIn(r, n, x, q'[k]);
      DropEarlier(r, n, x, j, k);
    }
  }

  lemma DropIn(r: seq<State>, n: nat, x: nat, v: Unit)
    requires n + 1 < |r| && Ordered(r, n) && DropStep(r[n], x, r[n + 1]) && Distinct(r[n].lst)
    ensures v in r[n + 1].lst <==> IsIn(r, n + 1, v)
    ensures v in r[n + 1].lst ==> v in r[n + 1].inPool
  {
    DropMember(r[n].lst, x, v);
    StillIn(r, n, v);
    if v in r[n].lst { InPoolSince(r, n, v); }
  }

  lemma DropEarlier(r: seq<State>, n: nat, x: nat, j: nat, k: nat)
    requires n + 1 < |r| && Ordered(r, n) && DropStep(r[n], x, r[n + 1]) && j < k < |r[n + 1].lst|
    requires r[n + 1].lst[j] in r[n + 1].inPool && r[n + 1].lst[k] in r[n + 1].inPool
    ensures Earlier(r, n + 1, r[n + 1].lst[j], r[n + 1].lst[k])
  {
    var q, q' := r[n].lst, r[n + 1].lst;
    var j', k' := if j < x then j else j + 1, if k < x then k else k + 1;
    assert q'[j] == q[j'] && q'[k] == q[k'];
    StillEarlier(r, n, q[j'], q[k']);
  }

  /** Nothing is appended: who is in was in, and has not left. */
  lemma StillIn(r: seq<State>, n: nat, v: Unit)
    requires n + 1 < |r| && !AppendsAt(r, n, v)
    ensures IsIn(r, n + 1, v) <==> IsIn(r, n, v) && v in r[n + 1].inPool
  {
    if IsIn(r, n + 1, v) { InPoolSince(r, n + 1, v); }
    if v in r[n + 1].inPool { SameIn(r, n, v); }
  }

  lemma DropMember(q: seq<Unit>, x: nat, v: Unit)
    requires Distinct(q) && x < |q|
    ensures v in DropAt(q, x) <==> v in q && v != q[x]
  {
    var d := DropAt(q, x);
    if v in q && v != q[x] {
      var i :| 0 <= i < |q| && q[i] == v;
      assert d[if i < x then i else i - 1] == v;
    }
  }

  lemma KeepOrder(r: seq<State>, n: nat)
    requires n + 1 < |r| && ChainInv(r[n]) && Next(r[n], r[n + 1]) && !r[n].single && !r[n + 1].raced && Ordered(r, n)
    ensures Ordered(r, n + 1)
  {
    var s, s' := r[n], r[n + 1];
    ListStep(s, s');
    if AppendStep(s, s') {
      KeepAppend(r, n, s.cs.at.u);
    } else if x: nat :| DropStep(s, x, s') {
      KeepDrop(r, n, x);
    } else {
      KeepSame(r, n);
    }
  }

  /** In every undamaged state of every run, the list is the log of appends without
      the units that have left, in that order. */
  lemma {:induction false} ListOrder(r: seq<State>, n: nat)
    requires Run(r) && n < |r| && !r[n].single && !r[n].raced
    ensures Ordered(r, n) && Distinct(r[n].lst)
  {
    ChainRun(r, n);
    if n > 0 {
      assert Linked(r, n - 1);
      Configured(r[n - 1], r[n]);
      ListOrder(r, n - 1);
      ChainRun(r, n - 1);
      KeepOrder(r, n - 1);
    }
  }
}
