/**
 The built-in pool as a step machine: any number of threads push, pop and
 remove units and park on one pool, one step per atomic access, in every
 interleaving of a sequentially consistent memory.

 Plain accesses made while the pool spinlock is held (`head`, `lhead`, `ltail`)
 belong to the atomic access that follows them.
 */
module PoolModel {
  import opened Basics

  /** The identity of a work unit; its associated pool is this one. */
  type Unit = nat

  /** A thread of the process; a PE's rank is its number. */
  type Actor = nat

  /** An intrusive queue node: the pool's stub, or the one embedded in a unit. */
  datatype Node = Stub | N(u: Unit)

  /** Who asked for a pop: a plain caller, a parking PE re-checking the pool,
      or that PE after its wait. */
  datatype Kont = Ret | Recheck | Last

  /** The next access of a thread outside the pool's critical section. */
  datatype PC =
    | Idle
    | Inside                                    // holds the spinlock: see CS
    | Push(u: Unit, k: Kont, stage: PushStage)
    | Wake(k: Kont, bell: BellStage)            // wake_after_push
    | WantPop(k: Kont)
    | Popped(u: Unit, k: Kont)                  // about to lower the count
    | WantRemove(u: Unit)
    | Removed                                   // about to lower the count
    | Park(at: ParkStage)

  datatype PushStage =
    | Marking
    | Clearing
    | Exchanging
    | Linking(prev: Node, i: int)
    | WantAppend
    | Counting

  datatype BellStage =
    | LoadSleepers
    | LoadWord(w: nat)
    | Notifying(w: nat, m: set<Actor>)

  datatype ParkStage =
    | SetBit
    | AddSleeper
    | CheckSize
    | Waiting(bySize: bool)
    | ClearBit
    | SubSleeper

  /** The spinlock `lk`, with the position of the thread that holds it. */
  datatype CS = Free | Held(a: Actor, at: Crit)

  datatype Crit =
    | Appending(u: Unit, k: Kont)
    | Popping(k: Kont, pop: PopStage)
    | Removing(u: Unit, rem: RemStage)

  datatype PopStage =
    | ReadHead
    | ReadNext(h: Node)
    | ReadTail(h: Node)
    | StubClear(h: Node)
    | StubXchg(h: Node)
    | StubLink(h: Node, prev: Node, i: int)
    | Reload(h: Node)
    | Taking(h: Node, n: Node)
    | Flagging(u: Unit)
    | ListPop
    | Unlocking(r: Option<Unit>)

  datatype RemStage = Check | Flag | Unlock(hit: bool)

  /** The MPSC storage. `order` logs the tail exchanges, `hd` counts the nodes
      the consumer has moved past and `taken` logs the units it took: history
      that no step reads back. A null `next` is an absent key. */
  datatype Chain = Chain(next: map<Node, Node>, head: Node, tail: Node,
                         order: seq<Node>, hd: nat, taken: seq<Unit>)

  /** `n->next = nullptr` */
  function Reset(q: Chain, n: Node): Chain {
    q.(next := q.next - {n})
  }

  /** `tail.exchange(n)` */
  function Exchange(q: Chain, n: Node): Chain {
    q.(tail := n, order := q.order + [n])
  }

  /** `m->next = n` */
  function Join(q: Chain, m: Node, n: Node): Chain {
    q.(next := q.next[m := n])
  }

  /** `head = n` */
  function Advance(q: Chain, n: Node): Chain {
    q.(head := n, hd := q.hd + 1)
  }

  /** The sleeper mask (one bit per rank), its counter, and the notifications
      that no wait has consumed yet. */
  datatype Bell = Bell(mask: set<Actor>, nsleepers: int, note: set<Actor>)

  datatype State = State(
    single: bool, primary: Unit, home: Actor,
    q: Chain, lst: seq<Unit>, inPool: set<Unit>, removed: set<Unit>, count: int,
    bell: Bell, cs: CS, pc: map<Actor, PC>,
    aborted: bool, fault: bool, raced: bool)

  const WORDS := 4
  const RANKS := 256

  function At(s: State, a: Actor): PC {
    if a in s.pc then s.pc[a] else Idle
  }

  function Go(s: State, a: Actor, p: PC): State {
    s.(pc := s.pc[a := p])
  }

  /** The primary ULT can only be resumed by its home PE. */
  predicate PinnedElsewhere(s: State, a: Actor, u: Unit) {
    u == s.primary && a != s.home
  }

  /** Where a thread goes when its pop returned NULL, or returned a unit. */
  function AfterNull(k: Kont): PC {
    match k case Ret => Idle case Recheck => Park(Waiting(false)) case Last => Park(ClearBit)
  }

  function AfterUnit(k: Kont): PC {
    match k case Ret => Idle case Recheck => Park(ClearBit) case Last => Park(ClearBit)
  }

  function Word(m: set<Actor>, w: nat): set<Actor> {
    set r | r in m && r / 64 == w
  }

  function Without(q: seq<Unit>, u: Unit): seq<Unit> {
    if q == [] then [] else if q[0] == u then q[1..] else [q[0]] + Without(q[1..], u)
  }

  /** pop_list's choice: the head, or the one behind it when the head is pinned. */
  function ListPick(s: State, a: Actor): Option<Unit> {
    if s.lst == [] then None
    else if !PinnedElsewhere(s, a, s.lst[0]) then Some(s.lst[0])
    else if |s.lst| > 1 then Some(s.lst[1]) else None
  }

  ghost predicate Init(s: State) {
    && s.q == Chain(map[], Stub, Stub, [Stub], 0, []) && s.lst == []
    && s.inPool == {} && s.removed == {} && s.count == 0
    && s.bell == Bell({}, 0, {}) && s.cs == Free && s.pc == map[]
    && !s.aborted && !s.fault && !s.raced
  }

  /** push, up to the link: a unit already queued ends the process. */
  ghost predicate PushStep(s: State, a: Actor, s': State) {
    && At(s, a).Push?
    && var Push(u, k, stage) := At(s, a);
       match stage
       case Marking =>
         if u in s.inPool then s' == s.(aborted := true)
         else s' == Go(s.(inPool := s.inPool + {u}), a, Push(u, k, if s.single then Clearing else WantAppend))
       case Clearing =>
         s' == Go(s.(q := Reset(s.q, N(u))), a, Push(u, k, Exchanging))
       case Exchanging =>
         s' == Go(s.(q := Exchange(s.q, N(u))), a,
                  Push(u, k, Linking(s.q.tail, |s.q.order| - 1)))
       case Linking(prev, _) =>
         s' == Go(s.(q := Join(s.q, prev, N(u))), a, Push(u, k, Counting))
       case _ => false
  }

  /** What a thread waiting for the spinlock will do with it. */
  function Wanted(s: State, p: PC): Option<Crit> {
    match p
    case Push(u, k, WantAppend) => Some(Appending(u, k))
    case WantPop(k) => Some(Popping(k, if s.single then ReadHead else ListPop))
    case WantRemove(u) => Some(Removing(u, Check))
    case _ => None
  }

  ghost predicate EnterStep(s: State, a: Actor, s': State) {
    && s.cs == Free && Wanted(s, At(s, a)).Some?
    && s' == Go(s.(cs := Held(a, Wanted(s, At(s, a)).value)), a, Inside)
  }

  /** wake_after_push: the counter, then the four mask words one by one. A push
      made inside a pop (a pinned unit put back) lets that pop return NULL. */
  ghost predicate WakeMove(b: Bell, k: Kont, at: BellStage, p: PC, b': Bell) {
    match at
    case LoadSleepers => b' == b && p == if b.nsleepers > 0 then Wake(k, LoadWord(0)) else AfterNull(k)
    case LoadWord(w) => b' == b && p == if w < WORDS then Wake(k, Notifying(w, Word(b.mask, w))) else AfterNull(k)
    case Notifying(w, m) =>
      if m == {} then b' == b && p == Wake(k, LoadWord(w + 1))
      else exists r :: r in m && b' == Ring(b, r) && p == Wake(k, Notifying(w, m - {r}))
  }

  /** CsdIdleNotify: sticky, consumed by the next wait of PE `r`. */
  function Ring(b: Bell, r: Actor): Bell {
    b.(note := b.note + {r})
  }

  /** A PE parking on the pool. Once registered it checks the pool again, by a
      pop (the idle hook of a basic-wait scheduler) or by its size (a stacked
      scheduler, which may find another of its pools ready). The wait ends by a
      notification or by its timeout. */
  ghost predicate ParkMove(b: Bell, count: int, a: Actor, at: ParkStage, p: PC, b': Bell) {
    match at
    case SetBit => b' == b.(mask := b.mask + {a}) && p == Park(AddSleeper)
    case AddSleeper => b' == b.(nsleepers := b.nsleepers + 1) && (p == WantPop(Recheck) || p == Park(CheckSize))
    case CheckSize => b' == b && (p == Park(ClearBit) || (count <= 0 && p == Park(Waiting(true))))
    case Waiting(bySize) => b' == b.(note := b.note - {a}) && p == if bySize then Park(ClearBit) else WantPop(Last)
    case ClearBit => b' == b.(mask := b.mask - {a}) && p == Park(SubSleeper)
    case SubSleeper => b' == b.(nsleepers := b.nsleepers - 1) && p == Idle
  }

  /** The accesses that leave the storage and the spinlock alone: thread `a`
      goes on at `p` with the count at `n` and the bell at `b`. A
      single-consumer pool hands a pinned unit back and reports empty. */
  ghost predicate Move(s: State, a: Actor, p: PC, n: int, b: Bell) {
    match At(s, a)
    case Push(u, k, stage) => stage == Counting && n == s.count + 1 && b == s.bell && p == Wake(k, LoadSleepers)
    case Wake(k, at) => n == s.count && WakeMove(s.bell, k, at, p, b)
    case Park(at) => n == s.count && ParkMove(s.bell, s.count, a, at, p, b)
    case Popped(u, k) =>
      && n == s.count - 1 && b == s.bell
      && p == if s.single && PinnedElsewhere(s, a, u) then Push(u, k, Marking) else AfterUnit(k)
    case Removed => n == s.count - 1 && b == s.bell && p == Idle
    case Idle => n == s.count && b == s.bell && Begins(a, p)
    case _ => false
  }

  /** An idle thread starts an operation; only a PE parks. */
  predicate Begins(a: Actor, p: PC) {
    (p.Push? && p.k == Ret && p.stage == Marking) || p == WantPop(Ret) || p.WantRemove? ||
    (p == Park(SetBit) && a < RANKS)
  }

  function Put(s: State, a: Actor, p: PC, n: int, b: Bell): State {
    s.(count := n, bell := b, pc := s.pc[a := p])
  }

  ghost predicate MoveStep(s: State, a: Actor, s': State) {
    exists p, n, b :: Move(s, a, p, n, b) && s' == Put(s, a, p, n, b)
  }

  function Crits(s: State, a: Actor, c: Crit): State {
    s.(cs := Held(a, c))
  }

  /** Releasing the spinlock. */
  function Leave(s: State, a: Actor, p: PC): State {
    Go(s.(cs := Free), a, p)
  }

  /** After reading `next` of the front node `h`. */
  function AfterRead(q: Chain, h: Node): PopStage {
    if h in q.next then Taking(h, q.next[h]) else ReadTail(h)
  }

  /** The consumer's walk: over the stub, to the last node, re-appending the
      stub there. */
  ghost predicate ReadMove(q: Chain, at: PopStage, q': Chain, at': PopStage) {
    match at
    case ReadHead =>
      if q.head != Stub then q' == q && at' == AfterRead(q, q.head)
      else if Stub in q.next then q' == Advance(q, q.next[Stub]) && at' == ReadNext(q.next[Stub])
      else q' == q && at' == Unlocking(None)
    case ReadNext(h) => q' == q && at' == AfterRead(q, h)
    case ReadTail(h) => q' == q && at' == if h != q.tail then Unlocking(None) else StubClear(h)
    case StubClear(h) => q' == Reset(q, Stub) && at' == StubXchg(h)
    case StubXchg(h) => q' == Exchange(q, Stub) && at' == StubLink(h, q.tail, |q.order| - 1)
    case StubLink(h, prev, _) => q' == Join(q, prev, Stub) && at' == Reload(h)
    case Reload(h) => q' == q && at' == if h in q.next then Taking(h, q.next[h]) else Unlocking(None)
    case _ => false
  }

  ghost predicate ReadStep(s: State, a: Actor, k: Kont, at: PopStage, s': State) {
    exists q, at' :: ReadMove(s.q, at, q, at') && s' == Crits(s.(q := q), a, Popping(k, at'))
  }

  /** Detaching the front unit, skipping a tombstone. The stub has no owner. */
  ghost predicate TakeStep(s: State, a: Actor, k: Kont, at: PopStage, s': State) {
    match at
    case Taking(h, n) =>
      if h == Stub then s' == s.(fault := true)
      else s' == Crits(s.(q := Advance(s.q, n).(taken := s.q.taken + [h.u]),
                          inPool := s.inPool - {h.u}), a, Popping(k, Flagging(h.u)))
    case Flagging(u) =>
      if u in s.removed then s' == Crits(s.(removed := s.removed - {u}), a, Popping(k, ReadHead))
      else s' == Crits(s, a, Popping(k, Unlocking(Some(u))))
    case ListPop =>
      var r := ListPick(s, a);
      if r == None then s' == Crits(s, a, Popping(k, Unlocking(None)))
      else s' == Crits(s.(lst := Without(s.lst, r.value), inPool := s.inPool - {r.value}), a,
                       Popping(k, Unlocking(r)))
    case Unlocking(r) =>
      s' == Leave(s, a, if r == None then AfterNull(k) else Popped(r.value, k))
    case _ => false
  }

  /** remove_unit: a tombstone on the MPSC path, a physical unlink on the list.
      Unlinking a unit that is not linked yet finds both its links null, so it
      overwrites `lhead` and `ltail` with null. */
  ghost predicate RemoveStep(s: State, a: Actor, u: Unit, at: RemStage, s': State) {
    match at
    case Check => s' == Crits(s, a, Removing(u, if u in s.inPool then Flag else Unlock(false)))
    case Flag =>
      if s.single then s' == Crits(s.(removed := s.removed + {u}), a, Removing(u, Unlock(u !in s.removed)))
      else if u in s.lst then
        s' == Crits(s.(lst := Without(s.lst, u), inPool := s.inPool - {u}), a, Removing(u, Unlock(true)))
      else s' == Crits(s.(lst := [], inPool := s.inPool - {u}, raced := true), a, Removing(u, Unlock(true)))
    case Unlock(hit) => s' == Leave(s, a, if hit then Removed else Idle)
  }

  /** One access of the thread that holds the spinlock. */
  ghost predicate CritStep(s: State, s': State) {
    && s.cs.Held?
    && match s.cs.at
       case Appending(u, k) => s' == Leave(s.(lst := s.lst + [u]), s.cs.a, Push(u, k, Counting))
       case Popping(k, at) => ReadStep(s, s.cs.a, k, at, s') || TakeStep(s, s.cs.a, k, at, s')
       case Removing(u, at) => RemoveStep(s, s.cs.a, u, at, s')
  }

  ghost predicate OpenStep(s: State, a: Actor, s': State) {
    PushStep(s, a, s') || EnterStep(s, a, s') || MoveStep(s, a, s')
  }

  /** A PE idle here waits elsewhere and consumes its notification. */
  function Hush(b: Bell, r: Actor): Bell {
    b.(note := b.note - {r})
  }

  /** Another pool's push notifies a PE that sleeps there too, or a PE waits there. */
  ghost predicate Elsewhere(s: State, a: Actor, b: Bell) {
    b == Ring(s.bell, a) || (At(s, a) == Idle && b == Hush(s.bell, a))
  }

  ghost predicate Spurious(s: State, s': State) {
    exists a, b :: Elsewhere(s, a, b) && s' == s.(bell := b)
  }

  /** One atomic access of some thread. Nothing runs after an abort, and a run
      is not followed past an unlink of a unit that is not linked: from there on
      the list no longer holds the units it lost. */
  ghost predicate Next(s: State, s': State) {
    && !s.aborted && !s.raced
    && (CritStep(s, s') || (exists a :: OpenStep(s, a, s')) || Spurious(s, s'))
  }

  ghost predicate Linked(r: seq<State>, i: nat) {
    i + 1 < |r| ==> Next(r[i], r[i + 1])
  }

  /** A run: any interleaving of the threads, from the empty pool. */
  ghost predicate Run(r: seq<State>) {
    |r| > 0 && Init(r[0]) && forall i: nat :: Linked(r, i)
  }
}
