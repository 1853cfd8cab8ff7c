/**
 A mutex and the condition variables used with it, as a step machine over any
 number of ULTs and external threads: one step per acquisition of a spinlock,
 per critical section, per change of a thread between running and BLOCKED, and
 per wake. Waits are untimed.
 */
module SyncModel {
  import opened Basics

  /** A condition variable. */
  type Cid = nat

  /** `ABT_mutex_lock`, `ABT_mutex_spinlock`, `ABT_mutex_trylock`. */
  datatype LockMode = Block | Spin | Try

  /** Called by the program, or as the tail or the head of a cond wait. */
  datatype Caller = User | Waiter(c: Cid)

  datatype LockAt = LWant | LIn | LQueued | LBlocked | LSleep | LReady
  datatype UnlockAt = UWant | UIn | UWake(w: Tid)
  datatype WaitAt = CWant | CIn | CQueued | CBlocked | CSleep | CReady
  datatype SignalAt = SWant | SIn | SWake(ws: seq<Tid>)

  /** What a thread does next. A waiter is QUEUED once its record is on the list,
      BLOCKED while its unlock callback has yet to run, and then sleeps. */
  datatype PC =
    | Out
    | Lock(mode: LockMode, lk: Caller, l: LockAt)
    | Unlock(uk: Caller, u: UnlockAt)
    | Wait(c: Cid, w: WaitAt)
    | Signal(c: Cid, all: bool, g: SignalAt)

  /** The mutex: spinlock, fields, wait list. */
  datatype Mutex = Mutex(slock: Option<Tid>, locked: bool, owner: Tid, nesting: nat, wl: seq<Tid>)

  datatype Cond = Cond(slock: Option<Tid>, wl: seq<Tid>)

  /** Where a thread's wait record is: nowhere, on the mutex's list, on a
      condition variable's list, or detached by a thread about to wake it. */
  datatype Loc = Nowhere | OnMutex | OnCond(c: Cid) | InHand(who: Tid)

  /** `holds` counts lock returns minus unlocks per thread, `loc` locates the
      records, `sent` are the waiters an unlock took off the mutex's list that have
      not looked at the mutex again, and `failed` notes a wake that found nobody
      asleep: history that no step of the library reads, except that only holders
      unlock or wait. */
  datatype State = State(
    recursive: bool, ext: set<Tid>, m: Mutex, cs: map<Cid, Cond>,
    holds: map<Tid, nat>, loc: map<Tid, Loc>, sent: set<Tid>, pc: map<Tid, PC>, failed: bool)

  function At(s: State, t: Tid): PC { if t in s.pc then s.pc[t] else Out }
  function Held(s: State, t: Tid): nat { if t in s.holds then s.holds[t] else 0 }
  function LocOf(s: State, t: Tid): Loc { if t in s.loc then s.loc[t] else Nowhere }
  function CondOf(s: State, c: Cid): Cond { if c in s.cs then s.cs[c] else Cond(None, []) }

  ghost predicate Init(s: State) {
    s.m == Mutex(None, false, 0, 0, []) && s.cs == map[] && s.holds == map[] && s.loc == map[] &&
    s.sent == {} && s.pc == map[] && !s.failed
  }

  /** Where an unlock returns to. */
  function AfterUnlock(k: Caller): PC {
    match k case User => Out case Waiter(c) => Wait(c, CQueued)
  }

  /** A program starts an operation. It unlocks, or waits on a condition, only
      what it holds, and waits holding one level only. */
  predicate Begins(held: nat, p: PC) {
    match p
    case Lock(_, k, l) => k == User && l == LWant
    case Unlock(k, u) => k == User && u == UWant && held > 0
    case Wait(_, w) => w == CWant && held == 1
    case Signal(_, _, g) => g == SWant
    case Out => false
  }

  /** A step of `t` on the mutex: its fields, `t`'s count of holds and the place
      of its own record. */
  ghost predicate MutexMove(s: State, t: Tid, p: PC, m: Mutex, h: nat, l: Loc) {
    var free := s.m.(slock := None);
    var held := Held(s, t);
    match At(s, t)
    case Out => Begins(held, p) && m == s.m && h == held && l == LocOf(s, t)
    case Lock(mode, k, at) =>
      (match at
       case LWant =>
         && s.m.slock == None && m == s.m.(slock := Some(t)) && h == held && l == LocOf(s, t)
         && p == Lock(mode, k, LIn)
       case LIn =>
         if !s.m.locked then
           m == free.(locked := true, owner := t, nesting := 0) && h == held + 1 && l == LocOf(s, t) && p == Out
         else if s.recursive && s.m.owner == t then
           m == free.(nesting := s.m.nesting + 1) && h == held + 1 && l == LocOf(s, t) && p == Out
         else if mode == Block then
           m == s.m.(wl := s.m.wl + [t]) && h == held && l == OnMutex && p == Lock(mode, k, LQueued)
         else m == free && h == held && l == LocOf(s, t) && p == if mode == Spin then Lock(mode, k, LWant) else Out
       case LQueued =>
         && h == held && l == LocOf(s, t)
         && (if t in s.ext then m == free && p == Lock(mode, k, LSleep) else m == s.m && p == Lock(mode, k, LBlocked))
       case LBlocked => m == free && h == held && l == LocOf(s, t) && p == Lock(mode, k, LSleep)
       case LSleep => false
       case LReady => m == s.m && h == held && l == LocOf(s, t) && p == Lock(mode, k, LWant))
    case Unlock(k, at) =>
      (match at
       case UWant =>
         && s.m.slock == None && m == s.m.(slock := Some(t)) && h == held && l == LocOf(s, t)
         && p == Unlock(k, UIn)
       case UIn =>
         && held > 0 && h == held - 1 && l == LocOf(s, t)
         && (if s.m.nesting > 0 then m == free.(nesting := s.m.nesting - 1) && p == AfterUnlock(k)
             else s.m.wl == [] && m == free.(locked := false, owner := 0) && p == AfterUnlock(k))
       case UWake(w) => false)
    case _ => false
  }

  /** The last level is unlocked with somebody waiting: the first record is
      detached under the spinlock and woken after it. */
  ghost predicate PopMove(s: State, t: Tid, k: Caller) {
    At(s, t) == Unlock(k, UIn) && Held(s, t) > 0 && s.m.nesting == 0 && s.m.wl != []
  }

  /** A step of `t` on condition variable `c`. */
  ghost predicate CondMove(s: State, t: Tid, c: Cid, p: PC, x: Cond, l: Loc) {
    var b := CondOf(s, c);
    match At(s, t)
    case Wait(c', at) =>
      && c' == c
      && (match at
          case CWant => b.slock == None && x == b.(slock := Some(t)) && l == LocOf(s, t) && p == Wait(c, CIn)
          case CIn => x == b.(wl := b.wl + [t]) && l == OnCond(c) && p == Unlock(Waiter(c), UWant)
          case CQueued =>
            && l == LocOf(s, t)
            && (if t in s.ext then x == b.(slock := None) && p == Wait(c, CSleep) else x == b && p == Wait(c, CBlocked))
          case CBlocked => x == b.(slock := None) && l == LocOf(s, t) && p == Wait(c, CSleep)
          case CSleep => false
          case CReady => x == b && l == LocOf(s, t) && p == Lock(Block, Waiter(c), LWant))
    case Signal(c', all, at) =>
      && c' == c && l == LocOf(s, t)
      && (match at
          case SWant => b.slock == None && x == b.(slock := Some(t)) && p == Signal(c, all, SIn)
          case SIn => b.wl == [] && x == b.(slock := None) && p == Out
          case SWake(ws) => ws == [] && x == b && p == Out)
    case _ => false
  }

  /** How many records a signal or a broadcast detaches. */
  function Taken(all: bool, wl: seq<Tid>): nat {
    if all || wl == [] then |wl| else 1
  }

  ghost predicate DetachMove(s: State, t: Tid, c: Cid, all: bool) {
    At(s, t) == Signal(c, all, SIn) && CondOf(s, c).wl != []
  }

  /** The thread about to be woken by `t`, and where `t` goes on after that. */
  function Target(p: PC): Option<Tid> {
    match p
    case Unlock(_, UWake(w)) => Some(w)
    case Signal(_, _, SWake(ws)) => if ws == [] then None else Some(ws[0])
    case _ => None
  }

  function AfterWake(p: PC): PC {
    match p
    case Unlock(k, UWake(_)) => AfterUnlock(k)
    case Signal(c, all, SWake(ws)) => if ws == [] then Out else Signal(c, all, SWake(ws[1..]))
    case _ => Out
  }

  /** CthAwakenIfBlocked, or the flag an external waiter spins on. */
  function Woken(p: PC): Option<PC> {
    match p
    case Lock(mode, k, LSleep) => Some(Lock(mode, k, LReady))
    case Wait(c, CSleep) => Some(Wait(c, CReady))
    case _ => None
  }

  /** `t` looks at the mutex: if it was sent there, it has arrived. */
  function Arrived(s: State, t: Tid): set<Tid> {
    if At(s, t).Lock? && At(s, t).l == LIn then s.sent - {t} else s.sent
  }

  function Put(s: State, t: Tid, p: PC, m: Mutex, h: nat, l: Loc): State {
    s.(m := m, holds := s.holds[t := h], loc := s.loc[t := l], sent := Arrived(s, t), pc := s.pc[t := p])
  }

  ghost predicate MutexStep(s: State, t: Tid, s': State) {
    exists p, m, h, l :: MutexMove(s, t, p, m, h, l) && s' == Put(s, t, p, m, h, l)
  }

  /** The state after an unlock that takes the first waiter off the list. */
  function Popped(s: State, t: Tid, k: Caller): State
    requires s.m.wl != [] && Held(s, t) > 0
  {
    s.(m := Mutex(None, false, 0, 0, s.m.wl[1..]), holds := s.holds[t := Held(s, t) - 1],
       loc := Assigned(s.loc, [s.m.wl[0]], InHand(t)), sent := s.sent + {s.m.wl[0]},
       pc := s.pc[t := Unlock(k, UWake(s.m.wl[0]))])
  }

  ghost predicate PopStep(s: State, t: Tid, s': State) {
    exists k :: PopMove(s, t, k) && s' == Popped(s, t, k)
  }

  ghost predicate CondStep(s: State, t: Tid, s': State) {
    exists c, p, x, l :: CondMove(s, t, c, p, x, l) &&
      s' == s.(cs := s.cs[c := x], loc := s.loc[t := l], pc := s.pc[t := p])
  }

  ghost predicate DetachStep(s: State, t: Tid, s': State) {
    exists c, all :: DetachMove(s, t, c, all) &&
      var wl := CondOf(s, c).wl; var n := Taken(all, wl);
      s' == s.(cs := s.cs[c := Cond(None, wl[n..])], loc := Assigned(s.loc, wl[..n], InHand(t)),
               pc := s.pc[t := Signal(c, all, SWake(wl[..n]))])
  }

  /** wake: the record leaves the waker's hands. */
  ghost predicate WakeStep(s: State, t: Tid, s': State) {
    && Target(At(s, t)).Some?
    && var w := Target(At(s, t)).value;
       if Woken(At(s, w)) == None then s' == s.(failed := true)
       else s' == s.(loc := s.loc[w := Nowhere],
                     pc := s.pc[t := AfterWake(At(s, t))][w := Woken(At(s, w)).value])
  }

  ghost predicate StepBy(s: State, t: Tid, s': State) {
    MutexStep(s, t, s') || PopStep(s, t, s') || CondStep(s, t, s') || DetachStep(s, t, s') || WakeStep(s, t, s')
  }

  ghost predicate Next(s: State, s': State) {
    exists t: Tid :: StepBy(s, t, s')
  }

  ghost predicate Linked(r: seq<State>, i: nat) {
    i + 1 < |r| ==> Next(r[i], r[i + 1])
  }

  ghost predicate Run(r: seq<State>) {
    |r| > 0 && Init(r[0]) && forall i: nat :: Linked(r, i)
  }
}
