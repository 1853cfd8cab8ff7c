/**
 Programs over a mutex and its condition variables. A program that keeps to the
 discipline of a monitor behaves, over the mutex and condition variables as they
 are, like the same program over the monitor.
 */
module Client {
  import opened Basics
  import opened SyncModel
  import opened SyncInv
  import opened Monitor
  import opened MonitorProof

  /** The next action of a thread: change its own and the shared state, or call an
      operation; `to` is its own state after that. */
  datatype Act<L, S> =
    | Think(to: L, shared: S)
    | LockIt(to: L)
    | UnlockIt(to: L)
    | WaitFor(c: Cid, to: L)
    | Tell(c: Cid, all: bool, to: L)

  /** Threads start at `idle`. A waiting thread is at an `asleep` state, waits for
      condition `on` of it and goes on at `resumes` of it; `inside` are the states in
      which a thread has the mutex. */
  datatype Program<!L, !S> = Program(
    idle: L, acts: (Tid, L, S, Act<L, S>) -> bool,
    inside: L -> bool, asleep: L -> bool, on: L -> Cid, resumes: L -> L)

  /** An action kept to the discipline: lock from outside, and from inside only
      unlock, wait, signal and touch the shared state. */
  predicate Proper<L, S(==)>(pr: Program<L, S>, l: L, s: S, a: Act<L, S>) {
    && !pr.asleep(l)
    && match a
       case Think(l', s') => !pr.asleep(l') && pr.inside(l') == pr.inside(l) && (s' != s ==> pr.inside(l))
       case LockIt(l') => !pr.inside(l) && pr.inside(l') && !pr.asleep(l')
       case UnlockIt(l') => pr.inside(l) && !pr.inside(l') && !pr.asleep(l')
       case WaitFor(c, l') => pr.inside(l) && !pr.inside(l') && pr.asleep(l') && pr.on(l') == c
       case Tell(_, _, l') => pr.inside(l) && pr.inside(l') && !pr.asleep(l')
  }

  ghost predicate Disciplined<L(!new), S(!new)>(pr: Program<L, S>) {
    && !pr.inside(pr.idle) && !pr.asleep(pr.idle)
    && (forall l: L :: pr.asleep(l) ==> !pr.inside(l) && pr.inside(pr.resumes(l)) && !pr.asleep(pr.resumes(l)))
    && (forall t: Tid, l: L, s: S, a: Act<L, S> :: pr.acts(t, l, s, a) ==> Proper(pr, l, s, a))
    && (forall t: Tid, l: L, s: S, s': S, l': L
          {:trigger pr.acts(t, l, s, LockIt(l')), pr.acts(t, l, s', LockIt(l'))} ::
          pr.acts(t, l, s, LockIt(l')) ==> pr.acts(t, l, s', LockIt(l')))
  }

  // ---- over the monitor ----

  datatype High<L, S> = High(mon: Mon, shared: S, local: map<Tid, L>)

  function EventFor<L, S>(a: Act<L, S>): Event {
    match a
    case Think(_, _) => Quiet
    case LockIt(_) => Enter
    case UnlockIt(_) => Leave
    case WaitFor(c, _) => WaitOn(c)
    case Tell(c, all, _) => Notify(c, all)
  }

  function Local<L, S>(pr: Program<L, S>, local: map<Tid, L>, t: Tid): L {
    if t in local then local[t] else pr.idle
  }

  /** One step of `t` over the monitor. */
  ghost predicate HighStep<L(!new), S(!new)>(pr: Program<L, S>, x: High<L, S>, t: Tid, x': High<L, S>) {
    var l := Local(pr, x.local, t);
    if pr.asleep(l) then
      MonStep(false, x.mon, t, Resume, x'.mon) && x' == High(x'.mon, x.shared, x.local[t := pr.resumes(l)])
    else
      exists a :: pr.acts(t, l, x.shared, a) &&
        if a.Think? then x' == High(x.mon, a.shared, x.local[t := a.to])
        else MonStep(false, x.mon, t, EventFor(a), x'.mon) && x' == High(x'.mon, x.shared, x.local[t := a.to])
  }

  /** A thread is inside exactly when it owns the monitor. */
  ghost predicate Owning<L(!new), S(!new)>(pr: Program<L, S>, x: High<L, S>) {
    && (forall t: Tid {:trigger Local(pr, x.local, t)} :: x.mon.owner == Some(t) <==> pr.inside(Local(pr, x.local, t)))
    && x.mon.levels == (if x.mon.owner == None then 0 else 1)
  }

  /** A thread is asleep exactly when it is on the queue it waits on, or notified. */
  ghost predicate WaitsAt<L(!new), S(!new)>(pr: Program<L, S>, x: High<L, S>, t: Tid) {
    var l := Local(pr, x.local, t);
    && (t in x.mon.notified ==> pr.asleep(l))
    && (pr.asleep(l) ==> (t in x.mon.notified <==> t !in Queue(x.mon, pr.on(l))))
    && (forall c: Cid :: t in Queue(x.mon, c) ==> pr.asleep(l) && pr.on(l) == c)
  }

  ghost predicate HighInv<L(!new), S(!new)>(pr: Program<L, S>, x: High<L, S>) {
    && Owning(pr, x) && (forall t: Tid :: WaitsAt(pr, x, t))
    && forall c: Cid {:trigger Queue(x.mon, c)} :: Distinct(Queue(x.mon, c))
  }

  /** A disciplined move from `l` to `l'` by event `e`. */
  predicate Moves<L, S>(pr: Program<L, S>, l: L, e: Event, l': L) {
    && (e == Resume <==> pr.asleep(l)) && (e.WaitOn? <==> pr.asleep(l')) && e != Nest
    && (e.WaitOn? ==> pr.on(l') == e.c)
    && (e == Enter || e == Resume ==> !pr.inside(l) && pr.inside(l'))
    && (e == Leave || e.WaitOn? ==> pr.inside(l) && !pr.inside(l'))
    && (e == Quiet || e.Notify? ==> pr.inside(l') == pr.inside(l))
  }

  /** The event of a step, and that it keeps the discipline. */
  lemma HighEvent<L(!new), S(!new)>(pr: Program<L, S>, x: High<L, S>, t: Tid, x': High<L, S>) returns (e: Event)
    requires Disciplined(pr) && HighStep(pr, x, t, x')
    ensures MonStep(false, x.mon, t, e, x'.mon) && Moves(pr, Local(pr, x.local, t), e, Local(pr, x'.local, t))
    ensures forall u: Tid :: u != t ==> Local(pr, x'.local, u) == Local(pr, x.local, u)
  {
    var l := Local(pr, x.local, t);
    if pr.asleep(l) {
      e := Resume;
    } else {
      var a :| pr.acts(t, l, x.shared, a) &&
        if a.Think? then x' == High(x.mon, a.shared, x.local[t := a.to])
        else MonStep(false, x.mon, t, EventFor(a), x'.mon) && x' == High(x'.mon, x.shared, x.local[t := a.to]);
      assert Proper(pr, l, x.shared, a);
      e := EventFor(a);
    }
  }

  lemma OwningKept<L(!new), S(!new)>(pr: Program<L, S>, x: High<L, S>, t: Tid, e: Event, x': High<L, S>)
    requires Owning(pr, x) && MonStep(false, x.mon, t, e, x'.mon)
    requires Moves(pr, Local(pr, x.local, t), e, Local(pr, x'.local, t))
    requires forall u: Tid :: u != t ==> Local(pr, x'.local, u) == Local(pr, x.local, u)
    ensures Owning(pr, x')
  {
    assert x.mon.owner == Some(t) <==> pr.inside(Local(pr, x.local, t));
    forall u: Tid ensures x'.mon.owner == Some(u) <==> pr.inside(Local(pr, x'.local, u)) {
      assert x.mon.owner == Some(u) <==> pr.inside(Local(pr, x.local, u));
    }
  }

  lemma WaitingKept<L(!new), S(!new)>(pr: Program<L, S>, x: High<L, S>, t: Tid, e: Event, x': High<L, S>, u: Tid)
    requires WaitsAt(pr, x, t) && WaitsAt(pr, x, u) && MonStep(false, x.mon, t, e, x'.mon)
    requires forall c: Cid {:trigger Queue(x.mon, c)} :: Distinct(Queue(x.mon, c))
    requires Moves(pr, Local(pr, x.local, t), e, Local(pr, x'.local, t))
    requires u != t ==> Local(pr, x'.local, u) == Local(pr, x.local, u)
    ensures WaitsAt(pr, x', u)
  {
    forall c: Cid
      ensures u in Queue(x'.mon, c) <==> (e == WaitOn(c) && u == t) || (u in Queue(x.mon, c) && !Picked(x.mon, e, c, u))
      ensures Picked(x.mon, e, c, u) ==> u in Queue(x.mon, c)
    {
      QueueMember(x.mon, t, e, x'.mon, c, u);
    }
    NotifiedMember(x.mon, t, e, x'.mon, u);
  }

  /** Every step of a disciplined program over the monitor keeps this. */
  lemma HighKeeps<L(!new), S(!new)>(pr: Program<L, S>, x: High<L, S>, t: Tid, x': High<L, S>)
    requires Disciplined(pr) && HighInv(pr, x) && HighStep(pr, x, t, x')
    ensures HighInv(pr, x')
  {
    var e := HighEvent(pr, x, t, x');
    OwningKept(pr, x, t, e, x');
    assert WaitsAt(pr, x, t);
    forall u: Tid ensures WaitsAt(pr, x', u) {
      assert WaitsAt(pr, x, u);
      WaitingKept(pr, x, t, e, x', u);
    }
    forall c: Cid ensures Distinct(Queue(x'.mon, c)) {
      StillDistinct(x.mon, t, e, x'.mon, c);
    }
  }

  lemma HighStarts<L(!new), S(!new)>(pr: Program<L, S>, x: High<L, S>)
    requires Disciplined(pr) && MonInit(x.mon) && x.local == map[]
    ensures HighInv(pr, x)
  {
  }

  // ---- over the mutex and the condition variables ----

  /** `after` is where a thread goes once the operation it called takes effect. */
  datatype Low<L, S> = Low(sync: State, shared: S, local: map<Tid, L>, after: map<Tid, L>)

  function Start<L, S>(a: Act<L, S>): PC {
    match a
    case Think(_, _) => Out
    case LockIt(_) => Lock(Block, User, LWant)
    case UnlockIt(_) => Unlock(User, UWant)
    case WaitFor(c, _) => Wait(c, CWant)
    case Tell(c, all, _) => Signal(c, all, SWant)
  }

  function Calling(s: State, t: Tid, p: PC): State {
    Put(s, t, p, s.m, Held(s, t), LocOf(s, t))
  }

  ghost predicate ThinkStep<L(!new), S(!new)>(pr: Program<L, S>, x: Low<L, S>, t: Tid, a: Act<L, S>, x': Low<L, S>) {
    && At(x.sync, t) == Out && a.Think? && pr.acts(t, Local(pr, x.local, t), x.shared, a)
    && x' == x.(shared := a.shared, local := x.local[t := a.to])
  }

  /** A thread between operations calls the next one. */
  ghost predicate CallStep<L(!new), S(!new)>(pr: Program<L, S>, x: Low<L, S>, t: Tid, a: Act<L, S>, x': Low<L, S>) {
    && At(x.sync, t) == Out && !a.Think? && pr.acts(t, Local(pr, x.local, t), x.shared, a)
    && x' == x.(sync := Calling(x.sync, t, Start(a)), after := x.after[t := a.to])
  }

  /** A thread goes on inside an operation. */
  ghost predicate WorkStep<L(!new), S(!new)>(pr: Program<L, S>, x: Low<L, S>, t: Tid, x': Low<L, S>) {
    && At(x.sync, t) != Out && StepBy(x.sync, t, x'.sync)
    && var e := EventOf(x.sync, t);
       var l := Local(pr, x.local, t);
       x' == x.(sync := x'.sync,
                local := if e == Quiet then x.local else x.local[t := Moved(pr, e, l, Local(pr, x.after, t))])
  }

  ghost predicate LowStep<L(!new), S(!new)>(pr: Program<L, S>, x: Low<L, S>, t: Tid, x': Low<L, S>) {
    || (exists a :: ThinkStep(pr, x, t, a, x')) || (exists a :: CallStep(pr, x, t, a, x')) || WorkStep(pr, x, t, x')
  }

  function Lift<L, S>(x: Low<L, S>): High<L, S> {
    High(Abs(x.sync), x.shared, x.local)
  }

  // ---- what every run keeps ----

  /** A thread at `p` that holds `h` levels is at state `l`, bound for `n`. */
  ghost predicate OpOk<L, S>(pr: Program<L, S>, t: Tid, p: PC, h: nat, l: L, n: L, s: S) {
    && h == (if pr.inside(l) then 1 else 0)
    && match p
       case Out => !pr.asleep(l)
       case Lock(mode, k, _) => mode == Block && if k == User then pr.acts(t, l, s, LockIt(n)) else pr.asleep(l)
       case Unlock(User, u) => if u.UWake? then !pr.asleep(l) else pr.acts(t, l, s, UnlockIt(n))
       case Unlock(Waiter(c), u) => if u.UWake? then pr.asleep(l) else pr.acts(t, l, s, WaitFor(c, n))
       case Wait(c, w) => if w == CWant || w == CIn then pr.acts(t, l, s, WaitFor(c, n)) else pr.asleep(l)
       case Signal(c, all, g) => if g.SWake? then !pr.asleep(l) else pr.acts(t, l, s, Tell(c, all, n))
  }

  ghost predicate OpAt<L, S>(pr: Program<L, S>, x: Low<L, S>, t: Tid) {
    OpOk(pr, t, At(x.sync, t), Held(x.sync, t), Local(pr, x.local, t), Local(pr, x.after, t), x.shared)
  }

  ghost predicate LowInv<L(!new), S(!new)>(pr: Program<L, S>, x: Low<L, S>) {
    && SyncOk(x.sync) && TailInv(x.sync) && !x.sync.recursive
    && forall t: Tid {:trigger At(x.sync, t)} :: OpAt(pr, x, t)
  }

  /** Where the thread goes by event `e`. */
  function Moved<L, S>(pr: Program<L, S>, e: Event, l: L, n: L): L {
    if e == Quiet then l else if e == Resume then pr.resumes(l) else n
  }

  lemma MutexOp<L(!new), S(!new)>(
    pr: Program<L, S>, s: State, t: Tid, p: PC, m: Mutex, h: nat, c: Loc, l: L, n: L, g: S)
    requires Disciplined(pr) && !s.recursive && At(s, t) != Out && OpOk(pr, t, At(s, t), Held(s, t), l, n, g)
    requires MutexMove(s, t, p, m, h, c)
    ensures OpOk(pr, t, p, h, Moved(pr, EventOf(s, t), l, n), n, g)
  {
    Obliged(pr, t, l, n, g);
  }

  /** What the discipline says about the operation a thread is in. */
  lemma Obliged<L(!new), S(!new)>(pr: Program<L, S>, t: Tid, l: L, n: L, g: S)
    requires Disciplined(pr)
    ensures pr.asleep(l) ==> !pr.inside(l) && pr.inside(pr.resumes(l)) && !pr.asleep(pr.resumes(l))
    ensures pr.acts(t, l, g, LockIt(n)) ==> !pr.inside(l) && pr.inside(n) && !pr.asleep(n)
    ensures pr.acts(t, l, g, UnlockIt(n)) ==> pr.inside(l) && !pr.inside(n) && !pr.asleep(n)
    ensures forall c: Cid :: pr.acts(t, l, g, WaitFor(c, n)) ==> pr.inside(l) && !pr.inside(n) && pr.asleep(n)
    ensures forall c: Cid, all: bool ::
      pr.acts(t, l, g, Tell(c, all, n)) ==> pr.inside(l) && pr.inside(n) && !pr.asleep(n)
  {
  }

  lemma CondOp<L(!new), S(!new)>(pr: Program<L, S>, s: State, t: Tid, c: Cid, p: PC, x: Cond, k: Loc, l: L, n: L, g: S)
    requires Disciplined(pr) && OpOk(pr, t, At(s, t), Held(s, t), l, n, g) && CondMove(s, t, c, p, x, k)
    ensures OpOk(pr, t, p, Held(s, t), Moved(pr, EventOf(s, t), l, n), n, g)
  {
    Obliged(pr, t, l, n, g);
  }

  lemma ReleaseOp<L(!new), S(!new)>(pr: Program<L, S>, s: State, t: Tid, s': State, l: L, n: L, g: S)
    requires Disciplined(pr) && OpOk(pr, t, At(s, t), Held(s, t), l, n, g)
    requires PopStep(s, t, s') || DetachStep(s, t, s')
    ensures OpOk(pr, t, At(s', t), Held(s', t), Moved(pr, EventOf(s, t), l, n), n, g)
  {
    Obliged(pr, t, l, n, g);
  }

  lemma WakeOp<L, S>(pr: Program<L, S>, s: State, t: Tid, s': State, l: L, n: L, g: S)
    requires OpOk(pr, t, At(s, t), Held(s, t), l, n, g)
    requires WakeStep(s, t, s') && !s'.failed && Target(At(s, t)).value != t
    ensures OpOk(pr, t, At(s', t), Held(s', t), Moved(pr, EventOf(s, t), l, n), n, g)
  {
  }

  /** A step of `t` itself. */
  lemma OwnOp<L(!new), S(!new)>(pr: Program<L, S>, s: State, t: Tid, s': State, l: L, n: L, g: S)
    requires Disciplined(pr) && SyncOk(s) && SyncOk(s') && !s.recursive
    requires At(s, t) != Out && OpOk(pr, t, At(s, t), Held(s, t), l, n, g) && StepBy(s, t, s')
    ensures OpOk(pr, t, At(s', t), Held(s', t), Moved(pr, EventOf(s, t), l, n), n, g)
  {
    if MutexStep(s, t, s') {
      var p, m, h, c :| MutexMove(s, t, p, m, h, c) && s' == Put(s, t, p, m, h, c);
      MutexOp(pr, s, t, p, m, h, c, l, n, g);
    } else if CondStep(s, t, s') {
      var c, p, x, k :| CondMove(s, t, c, p, x, k) &&
        s' == s.(cs := s.cs[c := x], loc := s.loc[t := k], pc := s.pc[t := p]);
      CondOp(pr, s, t, c, p, x, k, l, n, g);
    } else if WakeStep(s, t, s') {
      WakeFinds(s, t);
      WakeOp(pr, s, t, s', l, n, g);
    } else {
      ReleaseOp(pr, s, t, s', l, n, g);
    }
  }

  /** A step of `t`, as another thread sees it. */
  ghost predicate Seen(s: State, s': State, u: Tid) {
    && Held(s', u) == Held(s, u) && s'.recursive == s.recursive
    && (At(s', u) == At(s, u) || (Woken(At(s, u)).Some? && At(s', u) == Woken(At(s, u)).value))
  }

  lemma OtherOp(s: State, t: Tid, s': State, u: Tid)
    requires StepBy(s, t, s') && u != t
    ensures Seen(s, s', u)
  {
    if MutexStep(s, t, s') {
      var p, m, h, c :| MutexMove(s, t, p, m, h, c) && s' == Put(s, t, p, m, h, c);
      PutFrame(s, t, p, m, h, c);
    } else if CondStep(s, t, s') {
      var c, p, x, k :| CondMove(s, t, c, p, x, k) &&
        s' == s.(cs := s.cs[c := x], loc := s.loc[t := k], pc := s.pc[t := p]);
      CondPut(s, t, c, p, x, k);
    } else if !WakeStep(s, t, s') {
      OtherRelease(s, t, s', u);
    }
  }

  lemma OtherRelease(s: State, t: Tid, s': State, u: Tid)
    requires (PopStep(s, t, s') || DetachStep(s, t, s')) && u != t
    ensures Seen(s, s', u)
  {
  }

  lemma WokenOp<L, S>(pr: Program<L, S>, t: Tid, p: PC, h: nat, l: L, n: L, g: S)
    requires OpOk(pr, t, p, h, l, n, g) && Woken(p).Some?
    ensures OpOk(pr, t, Woken(p).value, h, l, n, g)
  {
  }

  lemma WorkOp<L(!new), S(!new)>(pr: Program<L, S>, x: Low<L, S>, t: Tid, x': Low<L, S>, u: Tid)
    requires Disciplined(pr) && SyncOk(x.sync) && SyncOk(x'.sync)
    requires !x.sync.recursive && WorkStep(pr, x, t, x') && OpAt(pr, x, u)
    ensures OpAt(pr, x', u)
  {
    var s, s' := x.sync, x'.sync;
    if u == t {
      OwnOp(pr, s, t, s', Local(pr, x.local, t), Local(pr, x.after, t), x.shared);
    } else {
      OtherOp(s, t, s', u);
      if At(s', u) != At(s, u) {
        WokenOp(pr, u, At(s, u), Held(s, u), Local(pr, x.local, u), Local(pr, x.after, u), x.shared);
      }
    }
  }

  /** What the program over the monitor does, or nothing. */
  ghost predicate Mirrors<L(!new), S(!new)>(pr: Program<L, S>, x: Low<L, S>, t: Tid, x': Low<L, S>) {
    Lift(x') == Lift(x) || HighStep(pr, Lift(x), t, Lift(x'))
  }

  lemma WorkMirrors<L(!new), S(!new)>(pr: Program<L, S>, x: Low<L, S>, t: Tid, x': Low<L, S>)
    requires Disciplined(pr) && LowInv(pr, x) && WorkStep(pr, x, t, x') && SyncOk(x'.sync)
    ensures TailInv(x'.sync) && Mirrors(pr, x, t, x')
  {
    StepFollows(x.sync, t, x'.sync);
    assert OpAt(pr, x, t);
    if EventOf(x.sync, t) == Quiet { QuietSame(x.sync, t, x'.sync); } else { CallMirrors(pr, x, t, x'); }
  }

  lemma CallMirrors<L(!new), S(!new)>(pr: Program<L, S>, x: Low<L, S>, t: Tid, x': Low<L, S>)
    requires Disciplined(pr) && OpAt(pr, x, t) && Follows(x.sync, t, x'.sync) && !x.sync.recursive
    requires WorkStep(pr, x, t, x') && EventOf(x.sync, t) != Quiet
    ensures HighStep(pr, Lift(x), t, Lift(x'))
  {
    var n := Local(pr, x.after, t);
    match EventOf(x.sync, t)
    case Resume =>
    case Nest =>
    case Enter => HighCall(pr, x, t, LockIt(n), x');
    case Leave => HighCall(pr, x, t, UnlockIt(n), x');
    case WaitOn(c) => HighCall(pr, x, t, WaitFor(c, n), x');
    case Notify(c, all) => HighCall(pr, x, t, Tell(c, all, n), x');
  }

  lemma HighCall<L(!new), S(!new)>(pr: Program<L, S>, x: Low<L, S>, t: Tid, a: Act<L, S>, x': Low<L, S>)
    requires Disciplined(pr) && pr.acts(t, Local(pr, x.local, t), x.shared, a) && !a.Think?
    requires MonStep(false, Abs(x.sync), t, EventFor(a), Abs(x'.sync))
    requires x'.shared == x.shared && x'.local == x.local[t := a.to]
    ensures HighStep(pr, Lift(x), t, Lift(x'))
  {
  }

  lemma KeepWork<L(!new), S(!new)>(pr: Program<L, S>, x: Low<L, S>, t: Tid, x': Low<L, S>)
    requires Disciplined(pr) && LowInv(pr, x) && WorkStep(pr, x, t, x')
    ensures LowInv(pr, x') && Mirrors(pr, x, t, x')
  {
    OkStep(x.sync, t, x'.sync);
    WorkMirrors(pr, x, t, x');
    OtherOp(x.sync, t, x'.sync, t + 1);
    forall u: Tid ensures OpAt(pr, x', u) {
      assert OpAt(pr, x, u);
      WorkOp(pr, x, t, x', u);
    }
  }

  /** The discipline is what the mutex asks of its callers. */
  lemma CallIsStep<L(!new), S(!new)>(pr: Program<L, S>, x: Low<L, S>, t: Tid, a: Act<L, S>)
    requires Disciplined(pr) && OpAt(pr, x, t) && At(x.sync, t) == Out && !a.Think?
    requires pr.acts(t, Local(pr, x.local, t), x.shared, a)
    ensures MutexStep(x.sync, t, Calling(x.sync, t, Start(a))) && EventOf(x.sync, t) == Quiet
  {
    assert Proper(pr, Local(pr, x.local, t), x.shared, a);
    assert MutexMove(x.sync, t, Start(a), x.sync.m, Held(x.sync, t), LocOf(x.sync, t));
  }

  lemma KeepCall<L(!new), S(!new)>(pr: Program<L, S>, x: Low<L, S>, t: Tid, a: Act<L, S>, x': Low<L, S>)
    requires Disciplined(pr) && LowInv(pr, x) && CallStep(pr, x, t, a, x')
    ensures LowInv(pr, x') && Lift(x') == Lift(x)
  {
    assert OpAt(pr, x, t);
    CallIsStep(pr, x, t, a);
    OkStep(x.sync, t, x'.sync);
    StepFollows(x.sync, t, x'.sync);
    QuietSame(x.sync, t, x'.sync);
    forall u: Tid ensures OpAt(pr, x', u) {
      assert OpAt(pr, x, u);
      CallOp(pr, x, t, a, x', u);
    }
  }

  lemma CallOp<L(!new), S(!new)>(pr: Program<L, S>, x: Low<L, S>, t: Tid, a: Act<L, S>, x': Low<L, S>, u: Tid)
    requires CallStep(pr, x, t, a, x') && OpAt(pr, x, u)
    ensures OpAt(pr, x', u)
  {
  }

  /** Another thread's operation does not mind a change of the shared state. */
  lemma ThinkOp<L(!new), S(!new)>(pr: Program<L, S>, x: Low<L, S>, t: Tid, a: Act<L, S>, u: Tid)
    requires Disciplined(pr) && OwnerInv(x.sync) && OpAt(pr, x, t) && OpAt(pr, x, u) && u != t && a.Think?
    requires pr.acts(t, Local(pr, x.local, t), x.shared, a)
    ensures OpOk(pr, u, At(x.sync, u), Held(x.sync, u), Local(pr, x.local, u), Local(pr, x.after, u), a.shared)
  {
  }

  lemma KeepThink<L(!new), S(!new)>(pr: Program<L, S>, x: Low<L, S>, t: Tid, a: Act<L, S>, x': Low<L, S>)
    requires Disciplined(pr) && LowInv(pr, x) && ThinkStep(pr, x, t, a, x')
    ensures LowInv(pr, x') && HighStep(pr, Lift(x), t, Lift(x'))
  {
    assert OpAt(pr, x, t);
    assert Proper(pr, Local(pr, x.local, t), x.shared, a);
    forall u: Tid ensures OpAt(pr, x', u) {
      assert OpAt(pr, x, u);
      if u != t { ThinkOp(pr, x, t, a, u); }
    }
  }

  ghost predicate LowInit<L(!new), S(!new)>(pr: Program<L, S>, x: Low<L, S>) {
    Init(x.sync) && !x.sync.recursive && x.local == map[] && x.after == map[]
  }

  lemma LowStarts<L(!new), S(!new)>(pr: Program<L, S>, x: Low<L, S>)
    requires Disciplined(pr) && LowInit(pr, x)
    ensures LowInv(pr, x) && MonInit(Lift(x).mon) && HighInv(pr, Lift(x))
  {
    OkInit(x.sync);
    MonStart(x.sync);
    HighStarts(pr, Lift(x));
    forall t: Tid ensures OpAt(pr, x, t) {
    }
  }

  /** Each step of a disciplined program over the mutex and its condition variables
      is a step of the same program over the monitor, or none. */
  lemma Simulation<L(!new), S(!new)>(pr: Program<L, S>, x: Low<L, S>, t: Tid, x': Low<L, S>)
    requires Disciplined(pr) && LowInv(pr, x) && LowStep(pr, x, t, x')
    ensures LowInv(pr, x') && Mirrors(pr, x, t, x')
  {
    if WorkStep(pr, x, t, x') {
      KeepWork(pr, x, t, x');
    } else if a :| ThinkStep(pr, x, t, a, x') {
      KeepThink(pr, x, t, a, x');
    } else {
      var a :| CallStep(pr, x, t, a, x');
      KeepCall(pr, x, t, a, x');
    }
  }
}
