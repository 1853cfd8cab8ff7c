/**
 What a call on the mutex or on a condition has done when it returns, over every run.
 */
module SyncCalls {
  import opened Basics
  import opened SyncModel
  import opened SyncInv
  import opened SyncTheorems

  datatype Call = NoCall | LockCall(mode: LockMode) | UnlockCall | WaitCall(c: Cid) | SignalCall(c: Cid, all: bool)

  /** The call that a thread at `p` is in. */
  function CallOf(p: PC): Call {
    match p
    case Out => NoCall
    case Lock(mode, k, _) => if k == User then LockCall(mode) else WaitCall(k.c)
    case Unlock(k, _) => if k == User then UnlockCall else WaitCall(k.c)
    case Wait(c, _) => WaitCall(c)
    case Signal(c, all, _) => SignalCall(c, all)
  }

  /** It has given a level of the mutex back and not got it again. */
  predicate Released(p: PC) {
    match p
    case Unlock(_, u) => u.UWake?
    case Wait(_, w) => w != CWant && w != CIn
    case Lock(_, k, _) => k != User
    case _ => false
  }

  /** It was woken from its wait on the condition. */
  predicate Notified(p: PC) {
    (p.Wait? && p.w == CReady) || (p.Lock? && p.lk != User)
  }

  /** It is past its critical section. */
  predicate Detached(p: PC) {
    p.Signal? && p.g.SWake?
  }

  /** `t` made its call in step `i` and is in it up to state `n`. */
  ghost predicate InCall(r: seq<State>, i: nat, n: nat, t: Tid) {
    i < n < |r| && At(r[i], t) == Out && forall k: nat :: i < k <= n ==> At(r[k], t) != Out
  }

  // ---- one step of a call ----

  predicate Goes(p: PC, h: nat, p': PC, h': nat) {
    && (p == Out ==> h' == h && !Released(p') && !Notified(p') && !Detached(p'))
    && (p != Out && p' != Out ==>
          && CallOf(p') == CallOf(p) && h + (if Released(p) then 1 else 0) == h' + (if Released(p') then 1 else 0)
          && (Notified(p') && !Notified(p) ==> p.Wait? && p.w == CSleep && p' == Wait(p.c, CReady))
          && (Detached(p') && !Detached(p) ==> p.Signal? && p.g == SIn))
  }

  /** The last step of a call. */
  predicate Ends(p: PC, h: nat, h': nat) {
    match CallOf(p)
    case NoCall => true
    case LockCall(mode) => h' == h + 1 || (mode == Try && h' == h)
    case UnlockCall => h + (if Released(p) then 1 else 0) == h' + 1
    case WaitCall(_) => Notified(p) && h' == h + 1
    case SignalCall(_, _) => h' == h && (Detached(p) || p.g == SIn)
  }

  lemma MutexGoes(s: State, t: Tid, s': State)
    requires OwnerInv(s) && LocInv(s) && MutexStep(s, t, s')
    ensures Goes(At(s, t), Held(s, t), At(s', t), Held(s', t))
    ensures At(s', t) == Out ==> Ends(At(s, t), Held(s, t), Held(s', t))
  {
    var p, m, h, l :| MutexMove(s, t, p, m, h, l) && s' == Put(s, t, p, m, h, l);
    assert At(s', t) == p && Held(s', t) == h;
    assert ClaimOk(At(s, t), Held(s, t));
  }

  lemma OtherGoes(s: State, t: Tid, s': State)
    requires PopStep(s, t, s') || CondStep(s, t, s') || DetachStep(s, t, s')
    ensures Goes(At(s, t), Held(s, t), At(s', t), Held(s', t))
    ensures At(s', t) == Out ==> Ends(At(s, t), Held(s, t), Held(s', t))
  {
  }

  lemma WakeGoes(s: State, x: Tid, s': State, t: Tid)
    requires SyncOk(s) && WakeStep(s, x, s')
    ensures Goes(At(s, t), Held(s, t), At(s', t), Held(s', t))
    ensures At(s', t) == Out ==> Ends(At(s, t), Held(s, t), Held(s', t))
  {
    WakeFinds(s, x);
    assert Held(s', t) == Held(s, t);
  }

  lemma StepGoes(s: State, s': State, t: Tid)
    requires SyncOk(s) && Next(s, s')
    ensures Goes(At(s, t), Held(s, t), At(s', t), Held(s', t))
    ensures At(s', t) == Out && At(s, t) != Out ==> Ends(At(s, t), Held(s, t), Held(s', t))
  {
    var x: Tid :| StepBy(s, x, s');
    if WakeStep(s, x, s') {
      WakeGoes(s, x, s', t);
    } else if x != t {
      OnlyOwn(s, x, s');
      OthersHeld(s, x, s', t);
    } else if MutexStep(s, t, s') {
      MutexGoes(s, t, s');
    } else {
      OtherGoes(s, t, s');
    }
  }

  lemma OthersHeld(s: State, x: Tid, s': State, t: Tid)
    requires StepBy(s, x, s') && t != x
    ensures Held(s', t) == Held(s, t)
  {
  }

  lemma GoesAt(r: seq<State>, n: nat, t: Tid)
    requires Run(r) && n + 1 < |r|
    ensures Goes(At(r[n], t), Held(r[n], t), At(r[n + 1], t), Held(r[n + 1], t))
    ensures At(r[n + 1], t) == Out && At(r[n], t) != Out ==> Ends(At(r[n], t), Held(r[n], t), Held(r[n + 1], t))
  {
    OkRun(r, n);
    assert Linked(r, n);
    StepGoes(r[n], r[n + 1], t);
  }

  // ---- whole calls ----

  lemma {:induction false} Through(r: seq<State>, i: nat, n: nat, t: Tid)
    requires Run(r) && InCall(r, i, n, t)
    ensures CallOf(At(r[n], t)) == CallOf(At(r[i + 1], t))
    ensures Held(r[n], t) + (if Released(At(r[n], t)) then 1 else 0) == Held(r[i], t)
  {
    GoesAt(r, n - 1, t);
    if i + 1 < n { Through(r, i, n - 1, t); }
  }

  /** During the call, `t` was woken from its wait on `c`. */
  ghost predicate WokenIn(r: seq<State>, i: nat, n: nat, t: Tid) {
    exists m: nat :: i < m < n && WakesFrom(r, m, t)
  }

  ghost predicate WakesFrom(r: seq<State>, m: nat, t: Tid) {
    m + 1 < |r| && At(r[m], t).Wait? && At(r[m], t).w == CSleep && At(r[m + 1], t) == Wait(At(r[m], t).c, CReady)
  }

  lemma {:induction false} WasNotified(r: seq<State>, i: nat, n: nat, t: Tid)
    requires Run(r) && InCall(r, i, n, t) && Notified(At(r[n], t))
    ensures WokenIn(r, i, n, t)
  {
    GoesAt(r, n - 1, t);
    if i + 1 < n {
      if Notified(At(r[n - 1], t)) { WasNotified(r, i, n - 1, t); } else { assert WakesFrom(r, n - 1, t); }
    }
  }

  /** During the call, `t` went through its critical section on the condition. */
  ghost predicate SignalsIn(r: seq<State>, i: nat, n: nat, t: Tid) {
    exists m: nat :: i < m <= n && SignalsFrom(r, m, t)
  }

  ghost predicate SignalsFrom(r: seq<State>, m: nat, t: Tid) {
    m + 1 < |r| && At(r[m], t).Signal? && At(r[m], t).g == SIn && At(r[m + 1], t) != At(r[m], t)
  }

  lemma {:induction false} WasDetached(r: seq<State>, i: nat, n: nat, t: Tid)
    requires Run(r) && InCall(r, i, n, t) && Detached(At(r[n], t))
    ensures SignalsIn(r, i, n, t)
  {
    GoesAt(r, n - 1, t);
    if i + 1 < n {
      if Detached(At(r[n - 1], t)) { WasDetached(r, i, n - 1, t); } else { assert SignalsFrom(r, n - 1, t); }
    }
  }

  /** A call that returns is the call that was made and has done what it is for: a lock
      got a level, a trylock got one or nothing, an unlock gave one back, a wait was
      woken from its sleep on the condition and has the level it came with, a signal
      or broadcast went through its critical section. */
  lemma CallGives(r: seq<State>, i: nat, n: nat, t: Tid)
    requires Run(r) && InCall(r, i, n, t) && n + 1 < |r| && At(r[n + 1], t) == Out
    ensures var was, now := Held(r[i], t), Held(r[n + 1], t);
            match CallOf(At(r[i + 1], t))
            case NoCall => false
            case LockCall(mode) => now == was + 1 || (mode == Try && now == was)
            case UnlockCall => now + 1 == was
            case WaitCall(_) => now == was && WokenIn(r, i, n, t)
            case SignalCall(_, _) => now == was && SignalsIn(r, i, n, t)
  {
    Through(r, i, n, t);
    GoesAt(r, n, t);
    if Notified(At(r[n], t)) { WasNotified(r, i, n, t); }
    if Detached(At(r[n], t)) { WasDetached(r, i, n, t); }
    if At(r[n], t).Signal? && !Detached(At(r[n], t)) { assert SignalsFrom(r, n, t); }
  }
}
