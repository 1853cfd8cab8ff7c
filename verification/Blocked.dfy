/**
 Blocked accounting: ULTs block, are woken, created, migrated and re-associated,
 one access at a time in any interleaving, and every pool counts the ULTs blocked
 in it.
 */
module Blocked {
  import opened Basics

  type Pool = nat

  /** Where a ULT is in its life. A suspending ULT raises the count of its pool
      (Adding), notes the pool (Noting) and the charge (Flagging), and suspends;
      whoever makes it ready takes the charge (Unflagging), lowers the count
      (Subtracting), applies a migration (Moving) and pushes (Pushing). */
  datatype Phase = Absent | Running | Adding | Noting(p: Pool) | Flagging(p: Pool) | Suspending | Asleep
                 | Unflagging | Subtracting | Moving | Pushing | Queued(q: Pool) | Done

  /** `pool`, `blocked_pool`, `blocked_counted` and `migrate_to` of a ULT. */
  datatype Ult = Ult(phase: Phase, pool: Pool, bpool: Pool, counted: bool, mig: Option<Pool>)

  datatype State = State(ults: map<Tid, Ult>, blocked: map<Pool, int>)

  function UltOf(s: State, t: Tid): Ult {
    if t in s.ults then s.ults[t] else Ult(Absent, 0, 0, false, None)
  }

  function CountOf(s: State, p: Pool): int { if p in s.blocked then s.blocked[p] else 0 }

  ghost predicate Init(s: State) { s == State(map[], map[]) }

  /** One access: the ULT goes from `u` to `v`, and pool `p`'s count changes by `d`. */
  ghost predicate Move(u: Ult, v: Ult, p: Pool, d: int) {
    match u.phase
    case Absent => d == 0 && (v.phase == Asleep || v.phase == Running) && !v.counted && v.mig == None
    case Running => d == 0 && (v == u.(phase := Adding) || v == u.(phase := Unflagging) || v == u.(phase := Done))
    case Adding => p == u.pool && d == 1 && v == u.(phase := Noting(p))
    case Noting(q) => d == 0 && v == u.(bpool := q, phase := Flagging(q))
    case Flagging(_) => d == 0 && v == u.(counted := true, phase := Suspending)
    case Suspending => d == 0 && v == u.(phase := Asleep)
    case Asleep => d == 0 && v == u.(phase := Unflagging)
    case Unflagging => d == 0 && v == u.(counted := false, phase := if u.counted then Subtracting else Moving)
    case Subtracting => p == u.bpool && d == -1 && v == u.(phase := Moving)
    case Moving => d == 0 && v == u.(pool := if u.mig.Some? then u.mig.value else u.pool, mig := None, phase := Pushing)
    case Pushing => d == 0 && v == u.(phase := Queued(u.pool))
    case Queued(_) => d == 0 && v == u.(phase := Running)
    case Done => false
  }

  /** Requests that reach a ULT at any time: another pool at once, or at its next wake. */
  ghost predicate Request(u: Ult, v: Ult, p: Pool, d: int) {
    d == 0 && u.phase != Absent && (v == u.(pool := p) || v == u.(mig := Some(p)))
  }

  ghost predicate Step(s: State, t: Tid, v: Ult, p: Pool, d: int, s': State) {
    && (Move(UltOf(s, t), v, p, d) || Request(UltOf(s, t), v, p, d))
    && s' == State(s.ults[t := v], s.blocked[p := CountOf(s, p) + d])
  }

  ghost predicate Next(s: State, s': State) {
    exists t, v, p, d :: Step(s, t, v, p, d, s')
  }

  ghost predicate Linked(r: seq<State>, i: nat) {
    i + 1 < |r| ==> Next(r[i], r[i + 1])
  }

  ghost predicate Run(r: seq<State>) {
    |r| > 0 && Init(r[0]) && forall i: nat :: Linked(r, i)
  }

  // ---- charges ----

  /** The pool a ULT is charged to: from the step that raised a count to the one
      that lowers it. */
  function Charge(u: Ult): Option<Pool> {
    match u.phase
    case Noting(p) => Some(p)
    case Flagging(p) => Some(p)
    case Subtracting => Some(u.bpool)
    case _ => if u.counted then Some(u.bpool) else None
  }

  /** Only a ULT on its way to sleep, asleep or just made ready is flagged. */
  predicate UltOk(u: Ult) {
    && (u.counted ==> u.phase == Suspending || u.phase == Asleep || u.phase == Unflagging)
    && (u.phase.Flagging? ==> u.bpool == u.phase.p) && (u.phase == Suspending ==> u.counted)
  }

  function Charged(s: State, p: Pool): set<Tid> {
    set t | t in s.ults && Charge(s.ults[t]) == Some(p)
  }

  ghost predicate Inv(s: State) {
    && (forall t: Tid {:trigger UltOf(s, t)} :: UltOk(UltOf(s, t)))
    && (forall p: Pool {:trigger CountOf(s, p)} :: CountOf(s, p) == |Charged(s, p)|)
  }

  /** A step moves a charge only together with the count of the same pool, and the
      charge is laid to the pool the ULT is of and lifted from that same pool. */
  lemma ChargeMoves(u: Ult, v: Ult, p: Pool, d: int)
    requires UltOk(u) && (Move(u, v, p, d) || Request(u, v, p, d))
    ensures UltOk(v)
    ensures d == 0 ==> Charge(v) == Charge(u)
    ensures d == 1 ==> Charge(u) == None && Charge(v) == Some(p) && p == u.pool
    ensures d == -1 ==> Charge(u) == Some(p) && Charge(v) == None
    ensures d == 0 || d == 1 || d == -1
  {
  }

  lemma ChargedMoves(s: State, t: Tid, v: Ult, p: Pool, d: int, s': State, q: Pool)
    requires Step(s, t, v, p, d, s') && UltOk(UltOf(s, t))
    ensures |Charged(s', q)| == |Charged(s, q)| + if q == p then d else 0
  {
    ChargeMoves(UltOf(s, t), v, p, d);
    Recharged(s.ults, t, v, q);
  }

  /** One ULT's record changes. */
  lemma Recharged(us: map<Tid, Ult>, t: Tid, v: Ult, q: Pool)
    ensures var was := if t in us then Charge(us[t]) else None;
            var x, y := State(us, map[]), State(us[t := v], map[]);
            |Charged(y, q)| ==
              |Charged(x, q)| - (if was == Some(q) then 1 else 0) + (if Charge(v) == Some(q) then 1 else 0)
  {
    var x, y := Charged(State(us, map[]), q), Charged(State(us[t := v], map[]), q);
    assert x - {t} == y - {t};
    assert t in x ==> |x - {t}| == |x| - 1;
    assert t in y ==> |y - {t}| == |y| - 1;
    assert t !in x ==> x - {t} == x;
    assert t !in y ==> y - {t} == y;
  }

  lemma Keeps(s: State, s': State)
    requires Inv(s) && Next(s, s')
    ensures Inv(s')
  {
    var t, v, p, d :| Step(s, t, v, p, d, s');
    assert UltOk(UltOf(s, t));
    ChargeMoves(UltOf(s, t), v, p, d);
    forall u: Tid ensures UltOk(UltOf(s', u)) {
      assert UltOk(UltOf(s, u));
    }
    forall q: Pool ensures CountOf(s', q) == |Charged(s', q)| {
      assert CountOf(s, q) == |Charged(s, q)|;
      ChargedMoves(s, t, v, p, d, s', q);
    }
  }

  lemma {:induction false} Reaches(r: seq<State>, n: nat)
    requires Run(r) && n < |r|
    ensures Inv(r[n])
  {
    if n == 0 {
      forall p: Pool ensures Charged(r[0], p) == {} {
      }
    } else {
      Reaches(r, n - 1);
      assert Linked(r, n - 1);
      Keeps(r[n - 1], r[n]);
    }
  }

  // ---- main results ----

  /** Between two phases of neither a block nor a wake. */
  predicate AtRest(u: Ult) {
    u.phase.Absent? || u.phase.Running? || u.phase.Asleep? || u.phase.Queued? || u.phase.Done?
  }

  predicate SleepsIn(u: Ult, p: Pool) {
    u.phase == Asleep && u.counted && u.bpool == p
  }

  /** In every state, a pool's count is the number of ULTs charged to it, so it is
      never negative; with no ULT between two phases of a block or a wake, it is
      the number of ULTs that blocked in it and sleep. */
  lemma CountsCharges(r: seq<State>, n: nat, p: Pool)
    requires Run(r) && n < |r|
    ensures CountOf(r[n], p) == |Charged(r[n], p)| >= 0
    ensures (forall t: Tid :: AtRest(UltOf(r[n], t))) ==>
              forall t: Tid :: t in Charged(r[n], p) <==> SleepsIn(UltOf(r[n], t), p)
  {
    Reaches(r, n);
    assert CountOf(r[n], p) == |Charged(r[n], p)|;
    forall t: Tid ensures UltOk(UltOf(r[n], t)) && (t in Charged(r[n], p) <==> Charge(UltOf(r[n], t)) == Some(p)) {
    }
  }

  /** The ULT has no pending charge of an earlier block at `i` and is charged at
      every state from `i` on. */
  ghost predicate ChargedThrough(r: seq<State>, t: Tid, i: nat, j: nat) {
    i <= j < |r| && forall k :: i <= k <= j ==> Charge(UltOf(r[k], t)).Some?
  }

  lemma ChargeKept(s: State, s': State, t: Tid)
    requires Inv(s) && Next(s, s') && Charge(UltOf(s, t)).Some? && Charge(UltOf(s', t)).Some?
    ensures Charge(UltOf(s', t)) == Charge(UltOf(s, t))
  {
  }

  /** Whatever migrations and re-associations reach it meanwhile, a blocked ULT
      stays charged to the pool it blocked in, and is uncharged from that pool. */
  lemma {:induction false} UnchargedWhereBlocked(r: seq<State>, t: Tid, i: nat, j: nat)
    requires Run(r) && ChargedThrough(r, t, i, j)
    ensures Charge(UltOf(r[j], t)) == Charge(UltOf(r[i], t))
    ensures i > 0 && Charge(UltOf(r[i - 1], t)) == None ==> Charge(UltOf(r[i], t)) == Some(UltOf(r[i - 1], t).pool)
    ensures j + 1 < |r| && Charge(UltOf(r[j + 1], t)) == None ==>
              var p := Charge(UltOf(r[j], t)).value; CountOf(r[j + 1], p) == CountOf(r[j], p) - 1
  {
    if i < j {
      UnchargedWhereBlocked(r, t, i, j - 1);
      Reaches(r, j - 1);
      assert Linked(r, j - 1);
      ChargeKept(r[j - 1], r[j], t);
    }
    if i > 0 && i == j && Charge(UltOf(r[i - 1], t)) == None {
      Reaches(r, i - 1);
      assert Linked(r, i - 1);
      LaidTo(r[i - 1], r[i], t);
    }
    if j + 1 < |r| {
      Reaches(r, j);
      assert Linked(r, j);
      LiftedFrom(r[j], r[j + 1], t);
    }
  }

  lemma LaidTo(s: State, s': State, t: Tid)
    requires Inv(s) && Next(s, s') && Charge(UltOf(s, t)) == None && Charge(UltOf(s', t)).Some?
    ensures Charge(UltOf(s', t)) == Some(UltOf(s, t).pool)
  {
  }

  lemma LiftedFrom(s: State, s': State, t: Tid)
    requires Inv(s) && Next(s, s') && Charge(UltOf(s, t)).Some?
    ensures var p := Charge(UltOf(s, t)).value;
            Charge(UltOf(s', t)) == None ==> CountOf(s', p) == CountOf(s, p) - 1
  {
  }

  // ---- where a woken ULT goes ----

  /** No request reaches `t`: unless it goes on in its life, its pool and its pending
      migration stay. */
  predicate Undisturbed(s: State, t: Tid, s': State) {
    var u, v := UltOf(s, t), UltOf(s', t);
    v.phase == u.phase ==> v.pool == u.pool && v.mig == u.mig
  }

  ghost predicate UndisturbedAt(r: seq<State>, t: Tid, k: nat) {
    k + 1 < |r| ==> Undisturbed(r[k], t, r[k + 1])
  }

  /** The pool that the next push of the ULT will put it in. */
  function Bound(u: Ult): Pool {
    if u.mig.Some? then u.mig.value else u.pool
  }

  lemma BoundKept(s: State, t: Tid, s': State)
    requires Next(s, s') && Undisturbed(s, t, s') && UltOf(s, t).phase != Absent
    requires UltOf(s, t).phase == Pushing ==> UltOf(s, t).mig == None
    ensures Bound(UltOf(s', t)) == Bound(UltOf(s, t)) && UltOf(s', t).phase != Absent
    ensures UltOf(s', t).phase == Pushing ==> UltOf(s', t).mig == None
  {
  }

  lemma {:induction false} BoundThrough(r: seq<State>, t: Tid, i: nat, n: nat)
    requires Run(r) && i <= n < |r| && UltOf(r[i], t).phase != Pushing && UltOf(r[i], t).phase != Absent
    requires forall k: nat :: i <= k < n ==> UndisturbedAt(r, t, k)
    ensures Bound(UltOf(r[n], t)) == Bound(UltOf(r[i], t)) && UltOf(r[n], t).phase != Absent
    ensures UltOf(r[n], t).phase == Pushing ==> UltOf(r[n], t).mig == None
  {
    if i < n {
      BoundThrough(r, t, i, n - 1);
      assert Linked(r, n - 1) && UndisturbedAt(r, t, n - 1);
      BoundKept(r[n - 1], t, r[n]);
    }
  }

  lemma Pushed(s: State, t: Tid, s': State)
    requires Next(s, s') && UltOf(s', t).phase.Queued? && !UltOf(s, t).phase.Queued?
    ensures UltOf(s, t).phase == Pushing && UltOf(s', t) == UltOf(s, t).(phase := Queued(UltOf(s, t).pool))
  {
  }

  /** Migration takes effect: a ULT that is at state `i` not already past the point
      where a wake applies it, and that no further request reaches, is pushed by its
      next wake into the pool it was told to migrate to, and with no migration pending
      into the pool it is of; the request is then used up. */
  lemma WokenInto(r: seq<State>, t: Tid, i: nat, j: nat)
    requires Run(r) && i <= j && j + 1 < |r| && UltOf(r[i], t).phase != Pushing && UltOf(r[i], t).phase != Absent
    requires forall k: nat :: i <= k <= j ==> UndisturbedAt(r, t, k)
    requires UltOf(r[j + 1], t).phase.Queued? && !UltOf(r[j], t).phase.Queued?
    ensures var u, v := UltOf(r[i], t), UltOf(r[j + 1], t);
            var p := if u.mig.Some? then u.mig.value else u.pool;
            v.phase == Queued(p) && v.pool == p && v.mig == None
  {
    BoundThrough(r, t, i, j);
    assert Linked(r, j);
    Pushed(r[j], t, r[j + 1]);
  }

  // ---- the life of a ULT ----

  /** At no state up to `n` has the ULT run. */
  ghost predicate Unstarted(r: seq<State>, t: Tid, n: nat) {
    n < |r| && forall s :: s in r[..n + 1] ==> UltOf(s, t).phase == Absent || UltOf(s, t).phase == Asleep
  }

  predicate SleepsUncounted(u: Ult) {
    u.phase == Asleep && !u.counted
  }

  lemma BeforeSleep(s: State, t: Tid, s': State)
    requires Inv(s) && Next(s, s') && (UltOf(s', t).phase == Absent || SleepsUncounted(UltOf(s', t)))
    ensures UltOf(s, t).phase == Absent || SleepsUncounted(UltOf(s, t))
  {
    assert UltOk(UltOf(s, t));
  }

  lemma StartsRunning(s: State, t: Tid, s': State)
    requires Next(s, s')
    ensures UltOf(s', t).phase == Running ==>
              UltOf(s, t).phase.Running? || UltOf(s, t).phase.Queued? || UltOf(s, t).phase.Absent?
    ensures UltOf(s', t).phase == Done ==> UltOf(s, t).phase.Running? || UltOf(s, t).phase.Done?
  {
  }

  lemma {:induction false} SleepsUnstarted(r: seq<State>, t: Tid, n: nat)
    requires Run(r) && n < |r| && (UltOf(r[n], t).phase == Absent || SleepsUncounted(UltOf(r[n], t)))
    ensures Unstarted(r, t, n)
  {
    if n > 0 {
      Reaches(r, n - 1);
      assert Linked(r, n - 1);
      BeforeSleep(r[n - 1], t, r[n]);
      SleepsUnstarted(r, t, n - 1);
      assert r[..n + 1] == r[..n] + [r[n]];
    }
  }

  /** A ULT runs only once it was queued, but for the one that starts running, and ends
      only as it runs; asleep, it is charged to the pool it blocked in, unless it never
      ran. */
  lemma QueuedToRun(r: seq<State>, n: nat, t: Tid)
    requires Run(r) && n < |r|
    ensures UltOf(r[n], t).phase == Asleep ==> Charge(UltOf(r[n], t)).Some? || Unstarted(r, t, n)
    ensures n + 1 < |r| && UltOf(r[n + 1], t).phase == Running ==>
              UltOf(r[n], t).phase.Running? || UltOf(r[n], t).phase.Queued? || UltOf(r[n], t).phase.Absent?
    ensures n + 1 < |r| && UltOf(r[n + 1], t).phase == Done ==>
              UltOf(r[n], t).phase.Running? || UltOf(r[n], t).phase.Done?
  {
    Reaches(r, n);
    assert UltOk(UltOf(r[n], t));
    if SleepsUncounted(UltOf(r[n], t)) { SleepsUnstarted(r, t, n); }
    if n + 1 < |r| {
      assert Linked(r, n);
      StartsRunning(r[n], t, r[n + 1]);
    }
  }
}
