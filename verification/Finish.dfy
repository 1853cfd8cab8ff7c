/**
 How an execution stream with a predefined scheduler finishes: once asked to, its
 idle PE checks that nothing is left, one read at a time, and gives up its lease.
 The pools are those of PoolModel, so a size is the count, which lags; the ULTs that
 block and wake meanwhile are those of Blocked.
 */
module Finish {
  import opened Basics
  import opened PoolLag
  import B = Blocked
  import P = PoolModel
  import C = PoolChain
  import N = PoolCount
  import R = PoolRace

  /** A pool of the scheduler, and whether other schedulers have it too. */
  datatype Pool = Pool(q: P.State, shared: bool)

  /** The PE runs units, or checks pool `i`: its size first, then its blocked
      ULTs; it is sure once it is through; then the stream is finished. */
  datatype Pos = Working | Sizes(i: nat) | Blockeds(i: nat) | Sure | Finished

  /** Unit `t` of the pools is ULT `t` of `b`, and pool `j` of `b` is `pools[j]`. */
  datatype State = State(pools: seq<Pool>, b: B.State, held: bool, finishing: bool, pos: Pos)

  ghost predicate Init(s: State) {
    s.pos == Working && B.Init(s.b) && forall j: nat :: j < |s.pools| ==> P.Init(s.pools[j].q)
  }

  ghost predicate Flagged(s: State, u: P.Unit) {
    exists i: nat :: i < |s.pools| && u in s.pools[i].q.inPool
  }

  /** Any thread, this PE included, takes a step of its operation on pool `j`. */
  ghost predicate PoolStep(s: State, j: nat, q: P.State, s': State) {
    && j < |s.pools| && P.Next(s.pools[j].q, q) && q.inPool <= s.pools[j].q.inPool
    && s' == s.(pools := s.pools[j := s.pools[j].(q := q)])
  }

  /** Who may be pushed into pool `j`: a ULT being made ready there, a unit that was
      taken off a pool, a tasklet. */
  predicate MayPush(u: B.Ult, j: nat) {
    u.phase.Absent? || u.phase.Queued? || (u.phase.Pushing? && u.pool == j)
  }

  function Enqueued(b: B.State, u: Tid, j: nat): B.State {
    if B.UltOf(b, u).phase.Absent? then b else b.(ults := b.ults[u := B.UltOf(b, u).(phase := B.Queued(j))])
  }

  /** The step of a push that flags its unit. */
  ghost predicate PushStep(s: State, j: nat, q: P.State, u: Tid, s': State) {
    && j < |s.pools| && P.Next(s.pools[j].q, q) && q.inPool == s.pools[j].q.inPool + {u}
    && !Flagged(s, u) && MayPush(B.UltOf(s.b, u), j)
    && s' == s.(pools := s.pools[j := s.pools[j].(q := q)], b := Enqueued(s.b, u, j))
  }

  /** Any ULT goes on in its life. A queued one runs only once it is off its pool, and
      the push of one made ready is that of the pool, if it is one of these. */
  ghost predicate UltStep(s: State, t: Tid, v: B.Ult, p: B.Pool, d: int, b: B.State, s': State) {
    && B.Step(s.b, t, v, p, d, b) && s' == s.(b := b)
    && var k := B.UltOf(s.b, t).phase;
       v.phase != k ==>
         (k.Pushing? ==> B.UltOf(s.b, t).pool >= |s.pools|) && (k.Absent? || k.Queued? ==> !Flagged(s, t))
  }

  /** A direct switch parks a unit, or the parked one is dispatched. */
  ghost predicate WorkStep(s: State, s': State) {
    s.pos == Working && s' == s.(held := s'.held)
  }

  /** The idle hook: finishing and pools_drained. */
  ghost predicate CheckStep(s: State, s': State) {
    match s.pos
    case Working => s.finishing && !s.held && s' == s.(pos := Sizes(0))
    case Sizes(i) =>
      if i >= |s.pools| then s' == s.(pos := Sure)
      else s' == s.(pos := if s.pools[i].q.count > 0 then Working
                           else if s.pools[i].shared then Sizes(i + 1) else Blockeds(i))
    case Blockeds(i) => i < |s.pools| && s' == s.(pos := if B.CountOf(s.b, i) != 0 then Working else Sizes(i + 1))
    case Sure => s' == s.(pos := Finished)
    case Finished => false
  }

  /** Somebody joins. */
  ghost predicate AskStep(s: State, s': State) {
    s' == s.(finishing := true)
  }

  ghost predicate Next(s: State, s': State) {
    || WorkStep(s, s') || CheckStep(s, s') || AskStep(s, s')
    || (exists j, q :: PoolStep(s, j, q, s')) || (exists j, q, u :: PushStep(s, j, q, u, s'))
    || (exists t, v, p, d, b :: UltStep(s, t, v, p, d, b, s'))
  }

  ghost predicate Linked(r: seq<State>, i: nat) {
    i + 1 < |r| ==> Next(r[i], r[i + 1])
  }

  ghost predicate Run(r: seq<State>) {
    |r| > 0 && Init(r[0]) && forall i: nat :: Linked(r, i)
  }

  // ---- what every run keeps ----

  /** How many pools the check has passed. */
  function Passed(s: State): nat {
    match s.pos
    case Working => 0
    case Sizes(i) => i
    case Blockeds(i) => i
    case Sure => |s.pools|
    case Finished => |s.pools|
  }

  /** The pool's own invariants, up to an unlink that damaged its list. */
  ghost predicate PoolOk(q: P.State) {
    q.raced || (C.ChainInv(q) && N.Conserved(q))
  }

  ghost predicate PoolsOk(s: State) {
    forall j: nat :: j < |s.pools| ==> PoolOk(s.pools[j].q)
  }

  ghost predicate CheckInv(s: State) {
    && (s.pos != Working ==> s.finishing && !s.held) && Passed(s) <= |s.pools|
    && (s.pos.Blockeds? ==> s.pos.i < |s.pools| && !s.pools[s.pos.i].shared)
  }

  /** A flagged unit is queued, or a tasklet. */
  ghost predicate QueueInv(s: State) {
    forall t: Tid {:trigger B.UltOf(s.b, t)} ::
      Flagged(s, t) ==> B.UltOf(s.b, t).phase.Absent? || B.UltOf(s.b, t).phase.Queued?
  }

  lemma PoolKeeps(q: P.State, q': P.State)
    requires PoolOk(q) && P.Next(q, q')
    ensures PoolOk(q')
  {
    if !q'.raced {
      C.ChainNext(q, q');
      N.ConservedNext(q, q');
    }
  }

  /** What a step does to pool `j`: nothing, or one step of the pool. */
  lemma PoolOf(s: State, s': State, j: nat)
    requires Next(s, s') && j < |s.pools|
    ensures |s'.pools| == |s.pools| && s'.pools[j].shared == s.pools[j].shared
    ensures s'.pools[j].q == s.pools[j].q || P.Next(s.pools[j].q, s'.pools[j].q)
  {
  }

  lemma SameSize(s: State, s': State)
    requires Next(s, s')
    ensures |s'.pools| == |s.pools|
  {
  }

  lemma KeepPools(s: State, s': State)
    requires PoolsOk(s) && Next(s, s')
    ensures PoolsOk(s')
  {
    SameSize(s, s');
    forall j: nat | j < |s.pools| ensures PoolOk(s'.pools[j].q) {
      PoolOf(s, s', j);
      if s'.pools[j].q != s.pools[j].q { PoolKeeps(s.pools[j].q, s'.pools[j].q); }
    }
  }

  lemma KeepCheck(s: State, s': State)
    requires CheckInv(s) && Next(s, s')
    ensures CheckInv(s')
  {
  }

  /** Being queued is neither a block nor a wake. */
  lemma EnqueuedKeeps(b: B.State, u: Tid, j: nat)
    requires B.Inv(b) && MayPush(B.UltOf(b, u), j)
    ensures B.Inv(Enqueued(b, u, j))
    ensures forall t: Tid :: B.Charge(B.UltOf(Enqueued(b, u, j), t)) == B.Charge(B.UltOf(b, t))
  {
    var x, b' := B.UltOf(b, u), Enqueued(b, u, j);
    assert B.UltOk(x);
    forall t: Tid ensures B.UltOk(B.UltOf(b', t)) {
      assert B.UltOk(B.UltOf(b, t));
    }
    forall p: B.Pool ensures B.CountOf(b', p) == |B.Charged(b', p)| {
      assert B.CountOf(b, p) == |B.Charged(b, p)|;
      B.Recharged(b.ults, u, x.(phase := B.Queued(j)), p);
    }
  }

  lemma KeepUlts(s: State, s': State)
    requires B.Inv(s.b) && Next(s, s')
    ensures B.Inv(s'.b)
  {
    if s'.b != s.b {
      if j, q, u :| PushStep(s, j, q, u, s') {
        EnqueuedKeeps(s.b, u, j);
      } else {
        var t, v, p, d, b :| UltStep(s, t, v, p, d, b, s');
        B.Keeps(s.b, b);
      }
    }
  }

  lemma KeepQueue(s: State, s': State)
    requires QueueInv(s) && Next(s, s')
    ensures QueueInv(s')
  {
    forall t: Tid | Flagged(s', t) ensures B.UltOf(s'.b, t).phase.Absent? || B.UltOf(s'.b, t).phase.Queued? {
      var was := B.UltOf(s.b, t);
      if j, q, u :| PushStep(s, j, q, u, s') {
        FlaggedBefore(s, s', j, t);
      } else if j, q :| PoolStep(s, j, q, s') {
        FlaggedBefore(s, s', j, t);
      } else {
        StaysQueued(s, s', t);
      }
    }
  }

  /** Only pool `j` has changed. */
  lemma FlaggedBefore(s: State, s': State, j: nat, t: Tid)
    requires j < |s.pools| == |s'.pools| && s'.pools == s.pools[j := s'.pools[j]] && Flagged(s', t)
    ensures Flagged(s, t) || t in s'.pools[j].q.inPool - s.pools[j].q.inPool
  {
    var i: nat :| i < |s'.pools| && t in s'.pools[i].q.inPool;
    if i != j { assert t in s.pools[i].q.inPool; }
  }

  lemma StaysQueued(s: State, s': State, t: Tid)
    requires QueueInv(s) && Next(s, s') && s'.pools == s.pools && Flagged(s, t)
    ensures B.UltOf(s'.b, t).phase.Absent? || B.UltOf(s'.b, t).phase.Queued?
  {
    var x := B.UltOf(s.b, t);
  }

  ghost predicate Inv(s: State) {
    PoolsOk(s) && CheckInv(s) && B.Inv(s.b) && QueueInv(s)
  }

  lemma {:induction false} Reaches(r: seq<State>, n: nat)
    requires Run(r) && n < |r|
    ensures Inv(r[n])
  {
    if n == 0 {
      assert B.Run([r[0].b]);
      B.Reaches([r[0].b], 0);
      forall j: nat | j < |r[0].pools| ensures PoolOk(r[0].pools[j].q) {
        Starts(r[0].pools[j].q);
      }
    } else {
      Reaches(r, n - 1);
      assert Linked(r, n - 1);
      KeepPools(r[n - 1], r[n]);
      KeepCheck(r[n - 1], r[n]);
      KeepUlts(r[n - 1], r[n]);
      KeepQueue(r[n - 1], r[n]);
    }
  }

  lemma Starts(q: P.State)
    requires P.Init(q)
    ensures PoolOk(q)
  {
    assert P.Run([q]);
    N.RunInv([q], 0);
  }

  // ---- what is left ----

  /** Unit `u` was pushed into pool `j` at a step from `k` to `n`. */
  ghost predicate PushedSince(r: seq<State>, k: nat, n: nat, j: nat, u: P.Unit) {
    exists m: nat :: PushedAt(r, k, m, n, j, u)
  }

  ghost predicate PushedAt(r: seq<State>, k: nat, m: nat, n: nat, j: nat, u: P.Unit) {
    && k <= m < n < |r| && j < |r[m].pools| && j < |r[m + 1].pools|
    && u !in r[m].pools[j].q.inPool && u in r[m + 1].pools[j].q.inPool
  }

  lemma StillPushed(r: seq<State>, k: nat, n: nat, j: nat, u: P.Unit)
    requires PushedSince(r, k, n, j, u) && n + 1 < |r|
    ensures PushedSince(r, k, n + 1, j, u)
  {
    var m: nat :| PushedAt(r, k, m, n, j, u);
    assert PushedAt(r, k, m, n + 1, j, u);
  }

  lemma {:induction false} LiveSince(r: seq<State>, k: nat, n: nat, j: nat, u: P.Unit)
    requires Run(r) && k <= n < |r| && j < |r[n].pools| && u in N.Live(r[n].pools[j].q)
    ensures j < |r[k].pools| && (u in N.Live(r[k].pools[j].q) || PushedSince(r, k, n, j, u))
  {
    if k < n {
      assert Linked(r, n - 1);
      SameSize(r[n - 1], r[n]);
      PoolOf(r[n - 1], r[n], j);
      var q, q' := r[n - 1].pools[j].q, r[n].pools[j].q;
      if q' != q { LiveStep(q, q'); }
      if u in N.Live(q) {
        LiveSince(r, k, n - 1, j, u);
        if PushedSince(r, k, n - 1, j, u) { StillPushed(r, k, n - 1, j, u); }
      } else {
        assert PushedAt(r, k, n - 1, n, j, u);
        SizesKept(r, k, n);
      }
    }
  }

  lemma {:induction false} SizesKept(r: seq<State>, k: nat, n: nat)
    requires Run(r) && k <= n < |r|
    ensures |r[k].pools| == |r[n].pools|
  {
    if k < n {
      SizesKept(r, k, n - 1);
      assert Linked(r, n - 1);
      SameSize(r[n - 1], r[n]);
    }
  }

  /** The check is past the size of pool `j`. */
  predicate Beyond(s: State, j: nat) {
    j < Passed(s) || s.pos == Blockeds(j)
  }

  /** At state `k` the check read the size of pool `j`, found it empty and has been
      past it up to state `n`. */
  ghost predicate ReadEmpty(r: seq<State>, k: nat, n: nat, j: nat) {
    && k < n < |r| && j < |r[k].pools| && r[k].pos == Sizes(j) && r[k].pools[j].q.count <= 0
    && forall s :: s in r[k + 1..n + 1] ==> Beyond(s, j)
  }

  ghost predicate WasRead(r: seq<State>, n: nat, j: nat) {
    exists k: nat :: ReadEmpty(r, k, n, j)
  }

  lemma BeyondStep(s: State, s': State, j: nat)
    requires CheckInv(s) && Next(s, s') && Beyond(s', j) && !Beyond(s, j)
    ensures j < |s.pools| && s.pos == Sizes(j) && s.pools[j].q.count <= 0
  {
  }

  lemma StillRead(r: seq<State>, n: nat, j: nat)
    requires WasRead(r, n, j) && n + 1 < |r| && Beyond(r[n + 1], j)
    ensures WasRead(r, n + 1, j)
  {
    var k: nat :| ReadEmpty(r, k, n, j);
    assert r[k + 1..n + 2] == r[k + 1..n + 1] + [r[n + 1]];
    assert ReadEmpty(r, k, n + 1, j);
  }

  lemma {:induction false} Checked(r: seq<State>, n: nat, j: nat)
    requires Run(r) && n < |r| && Beyond(r[n], j)
    ensures WasRead(r, n, j)
  {
    if n > 0 {
      if Beyond(r[n - 1], j) {
        Checked(r, n - 1, j);
        StillRead(r, n - 1, j);
      } else {
        Reaches(r, n - 1);
        assert Linked(r, n - 1);
        BeyondStep(r[n - 1], r[n], j);
        assert r[n..n + 1] == [r[n]];
        assert ReadEmpty(r, n - 1, n, j);
      }
    }
  }

  /** At state `m` the check read the blocked ULTs of pool `j`, found none, and has
      been past the pool up to state `n`. */
  ghost predicate ReadUnblocked(r: seq<State>, m: nat, n: nat, j: nat) {
    && m < n < |r| && r[m].pos == Blockeds(j) && B.CountOf(r[m].b, j) == 0
    && forall s :: s in r[m + 1..n + 1] ==> j < Passed(s)
  }

  ghost predicate WasUnblocked(r: seq<State>, n: nat, j: nat) {
    exists m: nat :: ReadUnblocked(r, m, n, j)
  }

  lemma PassedStep(s: State, s': State, j: nat)
    requires CheckInv(s) && Next(s, s') && j < Passed(s') && Passed(s) <= j < |s.pools| && !s.pools[j].shared
    ensures s.pos == Blockeds(j) && B.CountOf(s.b, j) == 0
  {
  }

  lemma StillUnblocked(r: seq<State>, n: nat, j: nat)
    requires WasUnblocked(r, n, j) && n + 1 < |r| && j < Passed(r[n + 1])
    ensures WasUnblocked(r, n + 1, j)
  {
    var m: nat :| ReadUnblocked(r, m, n, j);
    assert r[m + 1..n + 2] == r[m + 1..n + 1] + [r[n + 1]];
    assert ReadUnblocked(r, m, n + 1, j);
  }

  lemma JustUnblocked(r: seq<State>, n: nat, j: nat)
    requires Run(r) && n + 1 < |r| && Passed(r[n]) <= j < Passed(r[n + 1])
    requires j < |r[n].pools| && !r[n].pools[j].shared
    ensures WasUnblocked(r, n + 1, j)
  {
    Reaches(r, n);
    assert Linked(r, n);
    PassedStep(r[n], r[n + 1], j);
    assert r[n + 1..n + 2] == [r[n + 1]];
    assert ReadUnblocked(r, n, n + 1, j);
  }

  lemma StillOwn(r: seq<State>, n: nat, j: nat)
    requires Run(r) && n + 1 < |r| && j < |r[n + 1].pools|
    ensures j < |r[n].pools| && r[n].pools[j].shared == r[n + 1].pools[j].shared
  {
    assert Linked(r, n);
    SameSize(r[n], r[n + 1]);
    PoolOf(r[n], r[n + 1], j);
  }

  lemma {:induction false} CheckedUlts(r: seq<State>, n: nat, j: nat)
    requires Run(r) && n < |r| && j < Passed(r[n]) && j < |r[n].pools| && !r[n].pools[j].shared
    ensures WasUnblocked(r, n, j)
  {
    if n > 0 {
      StillOwn(r, n - 1, j);
      if j < Passed(r[n - 1]) {
        CheckedUlts(r, n - 1, j);
        StillUnblocked(r, n - 1, j);
      } else {
        JustUnblocked(r, n - 1, j);
      }
    }
  }

  /** ULT `t` is charged to pool `j`: it is blocked there, or on its way into or out
      of the block. */
  predicate BlockedIn(s: State, t: Tid, j: nat) {
    B.Charge(B.UltOf(s.b, t)) == Some(j)
  }

  /** `t` blocked in pool `j` at a step from `m` to `n`. */
  ghost predicate BlockedSince(r: seq<State>, m: nat, n: nat, t: Tid, j: nat) {
    exists i: nat :: BlocksAt(r, m, i, n, t, j)
  }

  ghost predicate BlocksAt(r: seq<State>, m: nat, i: nat, n: nat, t: Tid, j: nat) {
    m <= i < n < |r| && !BlockedIn(r[i], t, j) && BlockedIn(r[i + 1], t, j)
  }

  lemma {:induction false} Blocks(r: seq<State>, m: nat, n: nat, t: Tid, j: nat)
    requires m <= n < |r| && !BlockedIn(r[m], t, j) && BlockedIn(r[n], t, j)
    ensures BlockedSince(r, m, n, t, j)
  {
    if BlockedIn(r[n - 1], t, j) {
      Blocks(r, m, n - 1, t, j);
      var i: nat :| BlocksAt(r, m, i, n - 1, t, j);
      assert BlocksAt(r, m, i, n, t, j);
    } else {
      assert BlocksAt(r, m, n - 1, n, t, j);
    }
  }

  /** `t` was woken out of pool `j` at a step from `i` to `m`. */
  ghost predicate WokenBy(r: seq<State>, i: nat, m: nat, t: Tid, j: nat) {
    exists k: nat :: WakesAt(r, i, k, m, t, j)
  }

  ghost predicate WakesAt(r: seq<State>, i: nat, k: nat, m: nat, t: Tid, j: nat) {
    && i <= k < m < |r| && BlockedIn(r[k], t, j) && !BlockedIn(r[k + 1], t, j)
    && B.CountOf(r[k + 1].b, j) == B.CountOf(r[k].b, j) - 1
  }

  lemma Wakes(s: State, s': State, t: Tid, j: nat)
    requires B.Inv(s.b) && Next(s, s') && BlockedIn(s, t, j) && !BlockedIn(s', t, j)
    ensures B.CountOf(s'.b, j) == B.CountOf(s.b, j) - 1
  {
    if g, q, u :| PushStep(s, g, q, u, s') {
      EnqueuedKeeps(s.b, u, g);
    } else {
      var x, v, p, d, b :| UltStep(s, x, v, p, d, b, s');
      assert B.UltOk(B.UltOf(s.b, x));
      B.ChargeMoves(B.UltOf(s.b, x), v, p, d);
    }
  }

  lemma {:induction false} Woken(r: seq<State>, i: nat, m: nat, t: Tid, j: nat)
    requires Run(r) && i <= m < |r| && BlockedIn(r[i], t, j) && !BlockedIn(r[m], t, j)
    ensures WokenBy(r, i, m, t, j)
  {
    if BlockedIn(r[m - 1], t, j) {
      Reaches(r, m - 1);
      assert Linked(r, m - 1);
      Wakes(r[m - 1], r[m], t, j);
      assert WakesAt(r, i, m - 1, m, t, j);
    } else {
      Woken(r, i, m - 1, t, j);
      var k: nat :| WakesAt(r, i, k, m - 1, t, j);
      assert WakesAt(r, i, k, m, t, j);
    }
  }

  /** Nobody was blocked in the pool when the check read that. */
  lemma Unblocked(r: seq<State>, m: nat, n: nat, j: nat, t: Tid)
    requires Run(r) && ReadUnblocked(r, m, n, j)
    ensures !BlockedIn(r[m], t, j)
  {
    Reaches(r, m);
    assert B.CountOf(r[m].b, j) == |B.Charged(r[m].b, j)|;
    assert t !in B.Charged(r[m].b, j);
  }

  /** A blocked ULT is in no pool. */
  lemma NotLive(s: State, t: Tid, j: nat, g: nat)
    requires Inv(s) && BlockedIn(s, t, j) && g < |s.pools|
    ensures t !in s.pools[g].q.inPool && t !in N.Live(s.pools[g].q)
  {
    assert B.UltOk(B.UltOf(s.b, t));
    if t in s.pools[g].q.inPool { assert Flagged(s, t); }
  }

  // ---- main results ----

  /** What the read at `k` accounts for: it missed at most as many units as pushes of
      the pool were in flight, and whatever is live at `n` it missed or was pushed
      since; with no push in flight it missed nothing. A pool whose list was damaged
      is no longer counted. */
  ghost predicate Accounts(r: seq<State>, k: nat, n: nat, j: nat)
    requires ReadEmpty(r, k, n, j) && j < |r[n].pools|
  {
    var q, left := r[k].pools[j].q, N.Live(r[n].pools[j].q);
    && (forall u :: u in left ==> u in N.Live(q) || PushedSince(r, k, n, j, u))
    && (!q.raced ==> |N.Live(q)| <= InFlight(q))
    && (!q.raced && InFlight(q) == 0 ==> forall u :: u in left ==> PushedSince(r, k, n, j, u))
  }

  /** A finished stream was asked to finish and leaves no parked unit, and in each
      pool only what the last read of its size accounts for. */
  lemma NothingLeft(r: seq<State>, n: nat, j: nat)
    requires Run(r) && n < |r| && r[n].pos == Finished && j < |r[n].pools|
    ensures r[n].finishing && !r[n].held
    ensures exists k: nat :: ReadEmpty(r, k, n, j) && Accounts(r, k, n, j)
  {
    Reaches(r, n);
    Checked(r, n, j);
    var k: nat :| ReadEmpty(r, k, n, j);
    Reaches(r, k);
    Read(r[k].pools[j].q);
    forall u | u in N.Live(r[n].pools[j].q) ensures u in N.Live(r[k].pools[j].q) || PushedSince(r, k, n, j, u) {
      LiveSince(r, k, n, j, u);
    }
    assert Accounts(r, k, n, j);
  }

  /** What the two reads of a pool of its own, the size at `k` and the blocked ULTs at
      `m`, say about the ULTs that block there: whoever is blocked at `n` has blocked
      since the second read, and whoever was blocked at any state up to it was woken
      by then, and is live in a pool only if it was pushed since. */
  ghost predicate AccountsUlts(r: seq<State>, k: nat, m: nat, n: nat, j: nat) {
    && k < m < n < |r|
    && (forall t: Tid :: BlockedIn(r[n], t, j) ==> BlockedSince(r, m, n, t, j))
    && (forall t: Tid, i: nat :: i <= m && BlockedIn(r[i], t, j) ==> WokenBy(r, i, m, t, j))
    && (forall t: Tid, i: nat, g: nat :: i <= m && BlockedIn(r[i], t, j) && LiveIn(r[n], t, g) ==>
          PushedSince(r, i, n, g, t))
  }

  ghost predicate LiveIn(s: State, t: Tid, g: nat) {
    g < |s.pools| && t in N.Live(s.pools[g].q)
  }

  /** So a finished stream leaves no ULT blocked in a pool of its own but those that
      have blocked there since the check. */
  lemma NobodyBlocked(r: seq<State>, n: nat, j: nat)
    requires Run(r) && n < |r| && r[n].pos == Finished && j < |r[n].pools| && !r[n].pools[j].shared
    ensures exists k: nat, m: nat :: ReadEmpty(r, k, n, j) && ReadUnblocked(r, m, n, j) && AccountsUlts(r, k, m, n, j)
  {
    Checked(r, n, j);
    CheckedUlts(r, n, j);
    var k: nat :| ReadEmpty(r, k, n, j);
    var m: nat :| ReadUnblocked(r, m, n, j);
    ReadsInOrder(r, k, m, n, j);
    forall t: Tid | BlockedIn(r[n], t, j) ensures BlockedSince(r, m, n, t, j) {
      Unblocked(r, m, n, j, t);
      Blocks(r, m, n, t, j);
    }
    forall t: Tid, i: nat | i <= m && BlockedIn(r[i], t, j) ensures WokenBy(r, i, m, t, j) {
      Unblocked(r, m, n, j, t);
      Woken(r, i, m, t, j);
    }
    forall t: Tid, i: nat, g: nat | i <= m && BlockedIn(r[i], t, j) && LiveIn(r[n], t, g)
      ensures PushedSince(r, i, n, g, t)
    {
      LiveSince(r, i, n, g, t);
      Reaches(r, i);
      NotLive(r[i], t, j, g);
    }
    assert AccountsUlts(r, k, m, n, j);
  }

  lemma ReadsInOrder(r: seq<State>, k: nat, m: nat, n: nat, j: nat)
    requires ReadEmpty(r, k, n, j) && ReadUnblocked(r, m, n, j)
    ensures k < m
  {
    assert Passed(r[k]) == j && k != m;
  }

  lemma Read(q: P.State)
    requires PoolOk(q) && q.count <= 0
    ensures !q.raced ==> |N.Live(q)| <= InFlight(q)
    ensures !q.raced && InFlight(q) == 0 ==> N.Live(q) == {}
  {
    if !q.raced { SizeMisses(q); }
  }

  /** State `k` of a run in which a stream with one pool of its own lives through `p`
      and then finishes. */
  function Closing(p: seq<P.State>, k: nat): State
    requires |p| > 0
  {
    var n := |p|;
    var s := State([Pool(p[if k < n then k else n - 1], false)], B.State(map[], map[]), false, k >= n, Working);
    if k <= n then s
    else if k == n + 1 then s.(pos := Sizes(0))
    else if k == n + 2 then s.(pos := Blockeds(0))
    else if k == n + 3 then s.(pos := Sizes(1))
    else if k == n + 4 then s.(pos := Sure)
    else s.(pos := Finished)
  }

  function ClosingRun(p: seq<P.State>): seq<State>
    requires |p| > 0
  {
    seq(|p| + 6, k requires k >= 0 => Closing(p, k))
  }

  /** Among tasklets and units that are in no other pool, every step of a pool is one
      of the stream's. */
  lemma PoolMoves(s: State, j: nat, q: P.State, s': State)
    requires j < |s.pools| && P.Next(s.pools[j].q, q) && s.b.ults == map[]
    requires forall i: nat :: i < |s.pools| && i != j ==> s.pools[i].q.inPool == {}
    requires s' == s.(pools := s.pools[j := s.pools[j].(q := q)])
    ensures Next(s, s')
  {
    var was := s.pools[j].q.inPool;
    OneFlag(s.pools[j].q, q);
    if q.inPool <= was {
      assert PoolStep(s, j, q, s');
    } else {
      var u: P.Unit :| u !in was && q.inPool == was + {u};
      assert PushStep(s, j, q, u, s');
    }
  }

  lemma ClosingStep(p: seq<P.State>, k: nat)
    requires P.Run(p) && p[|p| - 1].count <= 0 && k < |p| + 5
    ensures Next(Closing(p, k), Closing(p, k + 1))
  {
    var s, s' := Closing(p, k), Closing(p, k + 1);
    if k + 1 < |p| {
      assert P.Linked(p, k);
      PoolMoves(s, 0, p[k + 1], s');
    } else if k + 1 == |p| {
      assert AskStep(s, s');
    } else {
      assert CheckStep(s, s');
    }
  }

  /** Exactly the pools that read as empty can be left behind: whatever state a run of
      the pool ends in with a count of zero or less, a stream finishes over it. */
  lemma CanBeLeft(p: seq<P.State>)
    requires P.Run(p) && p[|p| - 1].count <= 0
    ensures var r := ClosingRun(p);
            Run(r) && r[|r| - 1].pos == Finished && r[|r| - 1].pools == [Pool(p[|p| - 1], false)]
  {
    var r := ClosingRun(p);
    forall i: nat ensures Linked(r, i) {
      if i + 1 < |r| { ClosingStep(p, i); }
    }
  }

  /** So a stream can finish over a live unit that was pushed, link, count and all,
      before its check began: the push in flight is that of a unit gone by then. */
  lemma UnitLeft()
    ensures exists r: seq<State> :: Run(r) && LeavesEight(r)
  {
    var p := Lagging();
    LagHappens(p);
    CanBeLeft(p);
    var r := ClosingRun(p);
    assert r[|p|].pools[0].q == p[15];
    assert LeavesEight(r);
  }

  ghost predicate LeavesEight(r: seq<State>) {
    && |r| > 6
    && var s, s' := r[|r| - 6], r[|r| - 1];
       && s.pos == Working && s'.pos == Finished && |s.pools| == 1 == |s'.pools|
       && var q := s'.pools[0].q;
       && s.pools[0].q == q && N.Live(q) == {8} && q.lst == [8]
       && forall a: P.Actor :: !(P.At(q, a).Push? && P.At(q, a).u == 8)
  }

  // ---- a ULT woken between the two reads ----

  /** ULT 7 starts, blocks in pool 0, is woken and pushed back. */
  function Sleeper(k: nat): B.Ult {
    if k == 1 then B.Ult(B.Running, 0, 0, false, None)
    else if k == 2 then B.Ult(B.Adding, 0, 0, false, None)
    else if k == 3 then B.Ult(B.Noting(0), 0, 0, false, None)
    else if k == 4 then B.Ult(B.Flagging(0), 0, 0, false, None)
    else if k == 5 then B.Ult(B.Suspending, 0, 0, true, None)
    else if k < 10 then B.Ult(B.Asleep, 0, 0, true, None)
    else if k == 10 then B.Ult(B.Unflagging, 0, 0, true, None)
    else if k == 11 then B.Ult(B.Subtracting, 0, 0, false, None)
    else if k < 16 then B.Ult(B.Moving, 0, 0, false, None)
    else if k < 18 then B.Ult(B.Pushing, 0, 0, false, None)
    else B.Ult(B.Queued(0), 0, 0, false, None)
  }

  function Sleeping(k: nat): B.State {
    if k == 0 then B.State(map[], map[])
    else B.State(map[7 := Sleeper(k)], map[0 := if 3 <= k < 12 then 1 else 0])
  }

  function CheckAt(k: nat): Pos {
    if k < 8 then Working
    else if k == 8 then Sizes(0)
    else if k < 13 then Blockeds(0)
    else if k == 13 then Sizes(1)
    else if k == 14 then Sure
    else Finished
  }

  /** The states of an empty pool into which 7 is pushed, up to its flag. */
  ghost predicate PushesSeven(p: seq<P.State>) {
    && |p| == 3 && P.Init(p[0]) && P.Next(p[0], p[1]) && P.Next(p[1], p[2])
    && p[1].inPool == {} && p[2].inPool == {7} && N.Live(p[2]) == {7} && InFlight(p[0]) == 0
  }

  lemma SevenPushed(p: seq<P.State>)
    requires p == R.Racing()[..3]
    ensures PushesSeven(p)
  {
    R.RacingLinked(R.Racing(), 0);
    R.RacingLinked(R.Racing(), 1);
  }

  /** State `k` of a run of a stream with one pool, in which 7 sleeps while the check
      reads the size of the pool and is woken before it reads the blocked ULTs. */
  function Waking(p: seq<P.State>, k: nat): State
    requires |p| == 3
  {
    var q := p[if k < 17 then 0 else if k == 17 then 1 else 2];
    State([Pool(q, false)], Sleeping(k), false, k >= 7, CheckAt(k))
  }

  lemma WakingUlt(p: seq<P.State>, k: nat)
    requires |p| == 3 && p[0].inPool == {} && (k < 6 || 9 <= k < 12 || k == 15)
    ensures Next(Waking(p, k), Waking(p, k + 1))
  {
    var d := if k == 2 then 1 else if k == 11 then -1 else 0;
    var s, s' := Waking(p, k), Waking(p, k + 1);
    SleeperMoves(k, d);
    assert UltStep(s, 7, Sleeper(k + 1), 0, d, s'.b, s');
  }

  lemma SleeperMoves(k: nat, d: int)
    requires (k < 6 || 9 <= k < 12 || k == 15) && d == if k == 2 then 1 else if k == 11 then -1 else 0
    ensures B.Step(Sleeping(k), 7, Sleeper(k + 1), 0, d, Sleeping(k + 1))
  {
    assert B.Move(B.UltOf(Sleeping(k), 7), Sleeper(k + 1), 0, d);
    assert Sleeping(k + 1).ults == Sleeping(k).ults[7 := Sleeper(k + 1)];
    assert Sleeping(k + 1).blocked == Sleeping(k).blocked[0 := B.CountOf(Sleeping(k), 0) + d];
  }

  lemma WakingCheck(p: seq<P.State>, k: nat)
    requires |p| == 3 && p[0].count == 0 && (k == 7 || k == 8 || 12 <= k < 15)
    ensures CheckStep(Waking(p, k), Waking(p, k + 1))
  {
  }

  lemma WakingPush(p: seq<P.State>)
    requires |p| == 3 && p[1].inPool == {}
    ensures var s := Waking(p, 17);
            && !Flagged(s, 7) && MayPush(B.UltOf(s.b, 7), 0)
            && Waking(p, 18) == s.(pools := [Pool(p[2], false)], b := Enqueued(s.b, 7, 0))
  {
    assert Sleeping(18) == Enqueued(Sleeping(17), 7, 0);
  }

  lemma WakingMark(p: seq<P.State>)
    requires PushesSeven(p)
    ensures PoolStep(Waking(p, 16), 0, p[1], Waking(p, 17))
  {
  }

  lemma WakingFlag(p: seq<P.State>)
    requires PushesSeven(p)
    ensures PushStep(Waking(p, 17), 0, p[2], 7, Waking(p, 18))
  {
    WakingPush(p);
  }

  lemma WakingStep(p: seq<P.State>, k: nat)
    requires PushesSeven(p) && k < 18
    ensures Next(Waking(p, k), Waking(p, k + 1))
  {
    if k < 6 || 9 <= k < 12 || k == 15 {
      WakingUlt(p, k);
    } else if k == 6 {
      assert AskStep(Waking(p, 6), Waking(p, 7));
    } else if k < 15 {
      WakingCheck(p, k);
    } else if k == 16 {
      WakingMark(p);
    } else {
      WakingFlag(p);
    }
  }

  function WakingRun(p: seq<P.State>): seq<State>
    requires |p| == 3
  {
    seq(19, k requires k >= 0 => Waking(p, k))
  }

  lemma WakingRuns(p: seq<P.State>)
    requires PushesSeven(p)
    ensures Run(WakingRun(p))
  {
    forall i: nat ensures Linked(WakingRun(p), i) {
      if i < 18 { WakingStep(p, i); }
    }
  }

  /** At `k`, with no push of the only pool in flight, the check reads that the pool is
      empty while `t` sleeps in it, and at `n` the stream is finished and `t` is live. */
  ghost predicate LeavesWoken(r: seq<State>, k: nat, n: nat, t: Tid) {
    && k < n < |r| && |r[k].pools| == 1 == |r[n].pools| && r[k].pos == Sizes(0) && r[n].pos == Finished
    && InFlight(r[k].pools[0].q) == 0 && !r[k].pools[0].shared && B.SleepsIn(B.UltOf(r[k].b, t), 0)
    && LiveIn(r[n], t, 0)
  }

  lemma SevenLeft(p: seq<P.State>)
    requires |p| == 3 && InFlight(p[0]) == 0 && N.Live(p[2]) == {7}
    ensures LeavesWoken(WakingRun(p), 8, 18, 7)
  {
  }

  /** So a ULT that is blocked all through the read of the size can be left: the code
      reads the size first, and the wake can fall between its two reads. */
  lemma WokenLeft()
    ensures exists r: seq<State>, k: nat, n: nat, t: Tid :: Run(r) && LeavesWoken(r, k, n, t)
  {
    var p := R.Racing()[..3];
    SevenPushed(p);
    WakingRuns(p);
    SevenLeft(p);
    var r, k, n, t := WakingRun(p), 8, 18, 7;
    assert Run(r) && LeavesWoken(r, k, n, t);
  }
}
