/**
 Who comes first: waiters on the mutex and on a condition leave in the order in which
 they joined.
 */
module SyncOrder {
  import opened Basics
  import opened Fifo
  import opened SyncModel
  import opened SyncInv
  import opened Monitor
  import opened MonitorProof

  // ---- the mutex ----

  ghost function Lockers(r: seq<State>): seq<seq<Tid>> {
    seq(|r|, k requires 0 <= k < |r| => r[k].m.wl)
  }

  lemma MutexList(s: State, t: Tid, s': State)
    requires MutexStep(s, t, s')
    ensures s'.m.wl == s.m.wl || s'.m.wl == s.m.wl + [t]
  {
    var p, m, h, l :| MutexMove(s, t, p, m, h, l) && s' == Put(s, t, p, m, h, l);
  }

  lemma LockerStep(s: State, s': State)
    requires Next(s, s')
    ensures QueueStep(s.m.wl, s'.m.wl)
  {
    var t: Tid :| StepBy(s, t, s');
    if MutexStep(s, t, s') {
      MutexList(s, t, s');
      assert s'.m.wl == s.m.wl ==> s'.m.wl == s.m.wl[0..];
    } else if PopStep(s, t, s') {
      assert s'.m.wl == s.m.wl[1..];
    } else {
      assert s'.m.wl == s.m.wl[0..];
    }
  }

  lemma LockerAt(r: seq<State>, n: nat)
    requires Run(r) && n + 1 < |r|
    ensures QueueStep(r[n].m.wl, r[n + 1].m.wl)
  {
    assert Linked(r, n);
    LockerStep(r[n], r[n + 1]);
  }

  lemma LockersDistinct(r: seq<State>, n: nat)
    requires Run(r) && n < |r|
    ensures Distinct(r[n].m.wl)
  {
    OkRun(r, n);
  }

  /** Of two threads that wait for the mutex, the one that enlisted first is taken off
      the list first. */
  lemma FirstLockerFirst(r: seq<State>, i: nat, n: nat, u: Tid, v: Tid)
    requires Run(r) && JoinedFirst(Lockers(r), i, n, u, v) && n + 1 < |r|
    ensures v !in r[n + 1].m.wl ==> u !in r[n + 1].m.wl
  {
    var h := Lockers(r);
    forall k: nat ensures Served(h, k) {
      if k + 1 < |h| { LockerAt(r, k); }
    }
    forall k: nat | k < |h| ensures Distinct(h[k]) {
      LockersDistinct(r, k);
    }
    if v !in h[n + 1] { FirstLeavesFirst(h, i, n, u, v); }
  }

  // ---- a condition ----

  /** The waiters on `c` that have released the mutex, from state to state. */
  ghost function Waiters(r: seq<State>, c: Cid): seq<seq<Tid>> {
    seq(|r|, k requires 0 <= k < |r| => Queue(Abs(r[k]), c))
  }

  lemma WaiterStep(recursive: bool, a: Mon, t: Tid, e: Event, a': Mon, c: Cid)
    requires MonStep(recursive, a, t, e, a')
    ensures QueueStep(Queue(a, c), Queue(a', c))
  {
    var q, q' := Queue(a, c), Queue(a', c);
    if q' == [] {
      assert q' == q[|q|..];
    } else if e.Notify? && e.c == c {
      assert q' == q[1..];
    } else if e != WaitOn(c) {
      assert q' == q[0..];
    }
  }

  lemma WaitersServed(r: seq<State>, c: Cid)
    requires Run(r)
    ensures History(Waiters(r, c))
  {
    var h := Waiters(r, c);
    forall k: nat ensures Served(h, k) {
      WaitersAt(r, k, c);
    }
    forall k: nat | k < |h| ensures Distinct(h[k]) {
      WaitersDistinct(r, k, c);
    }
  }

  lemma WaitersAt(r: seq<State>, k: nat, c: Cid)
    requires Run(r)
    ensures Served(Waiters(r, c), k)
  {
    if k + 1 < |r| { WaiterAt(r, k, c); }
  }

  lemma WaiterAt(r: seq<State>, n: nat, c: Cid)
    requires Run(r) && n + 1 < |r|
    ensures QueueStep(Queue(Abs(r[n]), c), Queue(Abs(r[n + 1]), c))
  {
    MonitorRefined(r, n);
    var s, s' := r[n], r[n + 1];
    var t: Tid :| StepBy(s, t, s') && Follows(s, t, s');
    WaiterStep(s.recursive, Abs(s), t, EventOf(s, t), Abs(s'), c);
  }

  lemma WaitersDistinct(r: seq<State>, n: nat, c: Cid)
    requires Run(r) && n < |r|
    ensures Distinct(Queue(Abs(r[n]), c))
  {
    OkRun(r, n);
    AbsQueue(r[n], c);
    assert Distinct(CondOf(r[n], c).wl);
  }

  /** Of two threads that wait on one condition, the one that joined first is notified
      first: nothing notifies the other alone, and no signal notifies it at all as
      long as the first is waiting. */
  lemma FirstWaiterFirst(r: seq<State>, i: nat, n: nat, c: Cid, u: Tid, v: Tid)
    requires Run(r) && JoinedFirst(Waiters(r, c), i, n, u, v) && n + 1 < |r|
    ensures v !in Queue(Abs(r[n + 1]), c) ==> u !in Queue(Abs(r[n + 1]), c)
    ensures forall t: Tid :: StepBy(r[n], t, r[n + 1]) && EventOf(r[n], t) == Notify(c, false) ==>
              v in Queue(Abs(r[n + 1]), c)
  {
    JoinedAhead(r, i, n, c, u, v);
    forall t: Tid | StepBy(r[n], t, r[n + 1]) && EventOf(r[n], t) == Notify(c, false)
      ensures v in Queue(Abs(r[n + 1]), c)
    {
      SignalTakesOne(r, n, t, c, u, v);
    }
  }

  lemma JoinedAhead(r: seq<State>, i: nat, n: nat, c: Cid, u: Tid, v: Tid)
    requires Run(r) && JoinedFirst(Waiters(r, c), i, n, u, v) && n + 1 < |r|
    ensures Ahead(Queue(Abs(r[n]), c), u, v)
    ensures v !in Queue(Abs(r[n + 1]), c) ==> u !in Queue(Abs(r[n + 1]), c)
  {
    var h := Waiters(r, c);
    WaitersServed(r, c);
    AheadOverTime(h, i, n, u, v);
    if v !in h[n + 1] { FirstLeavesFirst(h, i, n, u, v); }
  }

  lemma SignalTakesOne(r: seq<State>, n: nat, t: Tid, c: Cid, u: Tid, v: Tid)
    requires Run(r) && n + 1 < |r| && StepBy(r[n], t, r[n + 1]) && EventOf(r[n], t) == Notify(c, false)
    requires Ahead(Queue(Abs(r[n]), c), u, v)
    ensures v in Queue(Abs(r[n + 1]), c)
  {
    FollowsAt(r, n, t);
    OneTaken(r[n].recursive, Abs(r[n]), t, c, Abs(r[n + 1]), u, v);
  }

  lemma FollowsAt(r: seq<State>, n: nat, t: Tid)
    requires Run(r) && n + 1 < |r| && StepBy(r[n], t, r[n + 1])
    ensures MonStep(r[n].recursive, Abs(r[n]), t, EventOf(r[n], t), Abs(r[n + 1]))
  {
    TailRun(r, n);
    OkRun(r, n + 1);
    StepFollows(r[n], t, r[n + 1]);
  }

  lemma OneTaken(recursive: bool, a: Mon, t: Tid, c: Cid, a': Mon, u: Tid, v: Tid)
    requires MonStep(recursive, a, t, Notify(c, false), a') && Ahead(Queue(a, c), u, v)
    ensures v in Queue(a', c)
  {
    var q := Queue(a, c);
    var x, y :| 0 <= x < y < |q| && q[x] == u && q[y] == v;
    assert q[1..][y - 1] == v;
  }
}
