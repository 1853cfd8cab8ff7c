/**
 The linked chain of the lock-free MPSC storage under every interleaving: which
 links are missing and who owes them, when a node may be recycled, and what the
 consumer has taken. The list storage's sequence is covered alongside.
 */
module PoolChain {
  import opened Basics
  import opened PoolModel

  /** Node `n` is not in the part of the chain the consumer still has to walk. */
  ghost predicate Absent(q: Chain, n: Node) {
    forall i :: q.hd <= i < |q.order| ==> q.order[i] != n
  }

  /** The link from position `i` to the next one, which holds `n`, is missing. */
  ghost predicate Missing(q: Chain, i: int, prev: Node, n: Node) {
    q.hd <= i < |q.order| - 1 && q.order[i] == prev && q.order[i + 1] == n && prev !in q.next
  }

  /** The chain the consumer still has to walk: from `head` to `tail`, no node
      twice, every unit in it flagged as queued, every link that is set correct. */
  ghost predicate Shape(q: Chain, inPool: set<Unit>) {
    && q.hd < |q.order|
    && q.head == q.order[q.hd] && q.tail == q.order[|q.order| - 1] && q.tail !in q.next
    && (forall i, j :: q.hd <= i < j < |q.order| ==> q.order[i] != q.order[j])
    && (forall i :: q.hd <= i < |q.order| && q.order[i].N? ==> q.order[i].u in inPool)
    && (forall i :: q.hd <= i < |q.order| - 1 && q.order[i] in q.next ==> q.next[q.order[i]] == q.order[i + 1])
  }

  /** What is shared by the two storages' structure. */
  datatype Core = Core(single: bool, q: Chain, lst: seq<Unit>, inPool: set<Unit>)

  function CoreOf(s: State): Core {
    Core(s.single, s.q, s.lst, s.inPool)
  }

  ghost predicate PushOk(c: Core, u: Unit, stage: PushStage) {
    match stage
    case Clearing => c.single && u in c.inPool && Absent(c.q, N(u))
    case Exchanging => c.single && u in c.inPool && Absent(c.q, N(u)) && N(u) !in c.q.next
    case Linking(prev, i) => c.single && Missing(c.q, i, prev, N(u))
    case WantAppend => !c.single && u in c.inPool && u !in c.lst
    case _ => true
  }

  ghost predicate Front(c: Core, h: Node) {
    c.single && h == c.q.head && h.N?
  }

  ghost predicate PopOk(c: Core, at: PopStage) {
    match at
    case ReadHead => c.single
    case ReadNext(h) => Front(c, h)
    case ReadTail(h) => Front(c, h)
    case StubClear(h) => Front(c, h) && Absent(c.q, Stub)
    case StubXchg(h) => Front(c, h) && Absent(c.q, Stub) && Stub !in c.q.next
    case StubLink(h, prev, i) => Front(c, h) && Missing(c.q, i, prev, Stub)
    case Reload(h) => Front(c, h) && c.q.hd < |c.q.order| - 1
    case Taking(h, n) => Front(c, h) && h in c.q.next && c.q.next[h] == n
    case Flagging(u) => c.single
    case ListPop => !c.single
    case Unlocking(r) => true
  }

  ghost predicate CritOk(c: Core, at: Crit) {
    match at
    case Appending(u, _) => !c.single && u in c.inPool && u !in c.lst
    case Popping(_, pop) => PopOk(c, pop)
    case Removing(u, rem) => rem == Flag ==> u in c.inPool
  }

  /** The thread has exchanged the tail and still owes the link out of
      position `i` of the exchange order. */
  predicate Owes(p: PC, i: int) {
    p.Push? && p.stage.Linking? && p.stage.i == i
  }

  predicate StubOwes(cs: CS, i: int) {
    cs.Held? && cs.at.Popping? && cs.at.pop.StubLink? && cs.at.pop.i == i
  }

  /** The unit that a stage of push has flagged as queued but not inserted. */
  predicate Marked(p: PC) {
    p.Push? && (p.stage.Clearing? || p.stage.Exchanging? || p.stage.WantAppend?)
  }

  predicate Appends(cs: CS, u: Unit) {
    cs.Held? && cs.at.Appending? && cs.at.u == u
  }

  ghost predicate HolderInv(s: State) {
    s.cs.Held? ==> At(s, s.cs.a) == Inside && CritOk(CoreOf(s), s.cs.at)
  }

  ghost predicate PushInv(s: State) {
    forall a: Actor {:trigger At(s, a)} :: At(s, a).Push? ==> PushOk(CoreOf(s), At(s, a).u, At(s, a).stage)
  }

  /** No link is owed twice, no unit is being inserted twice. */
  ghost predicate PairInv(s: State) {
    && (forall a: Actor, b: Actor {:trigger At(s, a), At(s, b)} :: a != b ==> Apart(At(s, a), At(s, b)))
    && (forall a: Actor {:trigger At(s, a)} :: Alone(s.cs, At(s, a)))
  }

  predicate Apart(p: PC, r: PC) {
    && (p.Push? && p.stage.Linking? ==> !Owes(r, p.stage.i))
    && (Marked(p) && Marked(r) ==> p.u != r.u)
  }

  predicate Alone(cs: CS, p: PC) {
    && (p.Push? && p.stage.Linking? ==> !StubOwes(cs, p.stage.i))
    && (Marked(p) ==> !Appends(cs, p.u))
  }

  /** Some thread owes the link out of position `i`. */
  ghost predicate Owed(s: State, i: int) {
    StubOwes(s.cs, i) || exists a: Actor :: Owes(At(s, a), i)
  }

  ghost predicate GapInv(s: State) {
    forall i :: s.q.hd <= i < |s.q.order| - 1 && s.q.order[i] !in s.q.next ==> Owed(s, i)
  }

  /** The units among `q`, in order. */
  function Units(q: seq<Node>): seq<Unit> {
    if q == [] then []
    else Units(q[..|q| - 1]) + (if q[|q| - 1].N? then [q[|q| - 1].u] else [])
  }

  ghost predicate TakenInv(q: Chain) {
    q.hd <= |q.order| && q.taken == Units(q.order[..q.hd])
  }

  /** The structure of the storage in use. */
  ghost predicate CoreInv(c: Core) {
    && Shape(c.q, c.inPool) && TakenInv(c.q)
    && Distinct(c.lst) && (forall u :: u in c.lst ==> u in c.inPool)
    && (c.single ==> c.lst == [])
    && (!c.single ==> c.q.order == [Stub] && c.q.hd == 0)
  }

  ghost predicate ChainInv(s: State) {
    CoreInv(CoreOf(s)) && !s.fault && HolderInv(s) && PushInv(s) && PairInv(s) && GapInv(s)
  }

  // ---- the chain alone ----

  lemma ShapeReset(q: Chain, n: Node, inPool: set<Unit>)
    requires Shape(q, inPool) && Absent(q, n)
    ensures Shape(Reset(q, n), inPool)
  {
  }

  lemma ShapeExchange(q: Chain, n: Node, inPool: set<Unit>)
    requires Shape(q, inPool) && Absent(q, n) && n !in q.next && (n.N? ==> n.u in inPool)
    ensures Shape(Exchange(q, n), inPool)
    ensures Missing(Exchange(q, n), |q.order| - 1, q.tail, n)
  {
  }

  lemma ShapeJoin(q: Chain, i: int, prev: Node, n: Node, inPool: set<Unit>)
    requires Shape(q, inPool) && Missing(q, i, prev, n)
    ensures Shape(Join(q, prev, n), inPool)
  {
  }

  lemma ShapeAdvance(q: Chain, n: Node, inPool: set<Unit>)
    requires Shape(q, inPool) && q.head in q.next && n == q.next[q.head]
    ensures q.hd + 1 < |q.order| && n == q.order[q.hd + 1]
    ensures Shape(Advance(q, n), inPool)
    ensures q.head.N? ==> Shape(Advance(q, n), inPool - {q.head.u})
    ensures Absent(Advance(q, n), q.head)
  {
  }

  lemma TakenAdvance(q: Chain, n: Node)
    requires TakenInv(q) && q.hd < |q.order| && q.head == q.order[q.hd]
    ensures q.head == Stub ==> TakenInv(Advance(q, n))
    ensures q.head.N? ==> TakenInv(Advance(q, n).(taken := q.taken + [q.head.u]))
  {
    assert q.order[..q.hd + 1][..q.hd] == q.order[..q.hd];
  }

  lemma TakenExchange(q: Chain, n: Node)
    requires TakenInv(q)
    ensures TakenInv(Exchange(q, n))
  {
    assert (q.order + [n])[..q.hd] == q.order[..q.hd];
  }

  // ---- what the other threads see of a change to the chain ----

  predicate Inserting(stage: PushStage) {
    stage.Clearing? || stage.Exchanging? || stage.WantAppend?
  }

  lemma CoreReset(c: Core, n: Node, c': Core)
    requires CoreInv(c) && Absent(c.q, n) && c' == c.(q := Reset(c.q, n)) && c.single
    ensures CoreInv(c')
    ensures forall u, stage :: PushOk(c, u, stage) ==> PushOk(c', u, stage)
    ensures forall at :: CritOk(c, at) ==> CritOk(c', at)
  {
    ShapeReset(c.q, n, c.inPool);
  }

  lemma CoreExchange(c: Core, n: Node, c': Core)
    requires CoreInv(c) && Absent(c.q, n) && n !in c.q.next && (n.N? ==> n.u in c.inPool)
    requires c' == c.(q := Exchange(c.q, n)) && c.single
    ensures CoreInv(c') && Missing(c'.q, |c.q.order| - 1, c.q.tail, n)
  {
    ShapeExchange(c.q, n, c.inPool);
    TakenExchange(c.q, n);
  }

  /** An exchange of one node leaves the holder where it is. */
  lemma CritGrows(c: Core, u: Unit, c': Core, at: Crit)
    requires c' == c.(q := Exchange(c.q, N(u))) && CritOk(c, at)
    ensures CritOk(c', at)
  {
  }

  lemma CoreJoin(c: Core, j: int, prev: Node, n: Node, c': Core)
    requires CoreInv(c) && Missing(c.q, j, prev, n) && c' == c.(q := Join(c.q, prev, n)) && c.single
    ensures CoreInv(c')
    ensures forall u, stage :: PushOk(c, u, stage) && !(stage.Linking? && stage.i == j) ==> PushOk(c', u, stage)
    ensures forall at :: CritOk(c, at) && !(at.Popping? && at.pop.StubLink? && at.pop.i == j) ==> CritOk(c', at)
  {
    ShapeJoin(c.q, j, prev, n, c.inPool);
  }

  /** The front node leaves the chain: its unit may be queued again at once. */
  lemma CoreAdvance(c: Core, n: Node, c': Core)
    requires CoreInv(c) && c.single && c.q.head in c.q.next && n == c.q.next[c.q.head]
    requires if c.q.head == Stub then c' == c.(q := Advance(c.q, n))
             else c' == c.(q := Advance(c.q, n).(taken := c.q.taken + [c.q.head.u]), inPool := c.inPool - {c.q.head.u})
    ensures CoreInv(c') && n == c.q.order[c.q.hd + 1] && Absent(c'.q, c.q.head)
    ensures forall u, stage :: PushOk(c, u, stage) ==> PushOk(c', u, stage)
  {
    ShapeAdvance(c.q, n, c.inPool);
    TakenAdvance(c.q, n);
  }

  /** Only thread `a` moved. */
  ghost predicate Moved(s: State, a: Actor, s': State) {
    forall b: Actor {:trigger At(s', b)} :: b != a ==> At(s', b) == At(s, b)
  }

  lemma GoMoves(s: State, a: Actor, p: PC)
    ensures Moved(s, a, Go(s, a, p)) && At(Go(s, a, p), a) == p
  {
  }

  lemma OwedKept(s: State, a: Actor, s': State, i: int)
    requires Owed(s, i) && Moved(s, a, s')
    requires !Owes(At(s, a), i) || Owes(At(s', a), i)
    requires StubOwes(s.cs, i) ==> StubOwes(s'.cs, i)
    ensures Owed(s', i)
  {
    if !StubOwes(s.cs, i) {
      var b: Actor :| Owes(At(s, b), i);
      assert Owes(At(s', b), i);
    }
  }

  /** Thread `a` moved to `p`; the others' obligations still hold, and `p`
      clashes with none of them. */
  lemma Assemble(s: State, a: Actor, s': State)
    requires ChainInv(s) && Moved(s, a, s') && CoreInv(CoreOf(s')) && !s'.fault && HolderInv(s') && GapInv(s')
    requires forall b: Actor :: b != a && At(s, b).Push? ==> PushOk(CoreOf(s'), At(s, b).u, At(s, b).stage)
    requires At(s', a).Push? ==> PushOk(CoreOf(s'), At(s', a).u, At(s', a).stage)
    requires forall b: Actor {:trigger At(s, b)} :: b != a ==> Apart(At(s', a), At(s, b)) && Apart(At(s, b), At(s', a))
    requires forall b: Actor {:trigger At(s, b)} :: b != a ==> Alone(s'.cs, At(s, b))
    requires Alone(s'.cs, At(s', a))
    ensures ChainInv(s')
  {
  }

  /** The chain is untouched, and `a` owed no link. */
  lemma GapSame(s: State, a: Actor, s': State)
    requires GapInv(s) && Moved(s, a, s') && s'.q == s.q
    requires forall i :: StubOwes(s.cs, i) ==> StubOwes(s'.cs, i)
    requires !(At(s, a).Push? && At(s, a).stage.Linking?)
    ensures GapInv(s')
  {
    forall i | s.q.hd <= i < |s.q.order| - 1 && s.q.order[i] !in s.q.next ensures Owed(s', i) {
      OwedKept(s, a, s', i);
    }
  }

  // ---- push ----

  lemma ChainMark(s: State, a: Actor, u: Unit, k: Kont, stage: PushStage, s': State)
    requires ChainInv(s) && At(s, a) == Push(u, k, Marking) && u !in s.inPool
    requires stage == if s.single then Clearing else WantAppend
    requires s' == Go(s.(inPool := s.inPool + {u}), a, Push(u, k, stage))
    ensures ChainInv(s')
  {
    GoMoves(s.(inPool := s.inPool + {u}), a, Push(u, k, stage));
    MarkOthers(s, u, stage, CoreOf(s'));
    MarkApart(s, u, k, stage);
    GapSame(s, a, s');
    Assemble(s, a, s');
  }

  /** A unit that was not queued is flagged: everybody keeps its place. */
  lemma MarkOthers(s: State, u: Unit, stage: PushStage, c: Core)
    requires CoreInv(CoreOf(s)) && HolderInv(s) && PushInv(s) && u !in s.inPool
    requires stage == if s.single then Clearing else WantAppend
    requires c == CoreOf(s).(inPool := s.inPool + {u})
    ensures CoreInv(c) && PushOk(c, u, stage) && (s.cs.Held? ==> CritOk(c, s.cs.at))
    ensures forall b: Actor :: At(s, b).Push? ==> PushOk(c, At(s, b).u, At(s, b).stage)
  {
    forall b: Actor | At(s, b).Push? ensures PushOk(c, At(s, b).u, At(s, b).stage) {
      assert PushOk(CoreOf(s), At(s, b).u, At(s, b).stage);
    }
  }

  /** Nobody else inserts it. */
  lemma MarkApart(s: State, u: Unit, k: Kont, stage: PushStage)
    requires HolderInv(s) && PushInv(s) && u !in s.inPool && (stage == Clearing || stage == WantAppend)
    ensures Alone(s.cs, Push(u, k, stage))
    ensures forall b: Actor {:trigger At(s, b)} ::
      Apart(Push(u, k, stage), At(s, b)) && Apart(At(s, b), Push(u, k, stage))
  {
    forall b: Actor ensures Apart(Push(u, k, stage), At(s, b)) && Apart(At(s, b), Push(u, k, stage)) {
      assert At(s, b).Push? ==> PushOk(CoreOf(s), At(s, b).u, At(s, b).stage);
    }
  }

  lemma ChainClear(s: State, a: Actor, u: Unit, k: Kont, s': State)
    requires ChainInv(s) && At(s, a) == Push(u, k, Clearing)
    requires s' == Go(s.(q := Reset(s.q, N(u))), a, Push(u, k, Exchanging))
    ensures ChainInv(s')
  {
    GoMoves(s.(q := Reset(s.q, N(u))), a, Push(u, k, Exchanging));
    CoreReset(CoreOf(s), N(u), CoreOf(s'));
    GapKept(s, a, s');
    Assemble(s, a, s');
  }

  /** No link was removed from the part still to walk, and `a` owed none. */
  lemma GapKept(s: State, a: Actor, s': State)
    requires GapInv(s) && Moved(s, a, s') && s'.q.order == s.q.order && s'.q.hd >= s.q.hd
    requires forall i :: s.q.hd <= i < |s.q.order| - 1 && s.q.order[i] in s.q.next ==> s.q.order[i] in s'.q.next
    requires forall i :: s.q.hd <= i < |s.q.order| - 1 && s.q.order[i] !in s'.q.next ==> !Owes(At(s, a), i)
    requires forall i :: StubOwes(s.cs, i) && s.q.hd <= i < |s.q.order| - 1 && s.q.order[i] !in s'.q.next
                         ==> StubOwes(s'.cs, i)
    ensures GapInv(s')
  {
    forall i | s'.q.hd <= i < |s'.q.order| - 1 && s'.q.order[i] !in s'.q.next ensures Owed(s', i) {
      OwedKept(s, a, s', i);
    }
  }

  predicate Inserts(p: PC, n: Node) {
    p.Push? && Inserting(p.stage) && n == N(p.u)
  }

  lemma PushesGrow(s: State, a: Actor, n: Node, c: Core)
    requires PushInv(s) && c == CoreOf(s).(q := Exchange(s.q, n))
    requires forall b: Actor {:trigger At(s, b)} :: b != a ==> !Inserts(At(s, b), n)
    ensures forall b: Actor {:trigger At(s, b)} :: b != a && At(s, b).Push? ==> PushOk(c, At(s, b).u, At(s, b).stage)
  {
  }

  lemma ExchangeAlone(s: State, a: Actor, u: Unit, k: Kont)
    requires PairInv(s) && At(s, a) == Push(u, k, Exchanging)
    ensures forall b: Actor {:trigger At(s, b)} :: b != a ==> !Inserts(At(s, b), N(u))
  {
  }

  lemma ExchangeOthers(s: State, a: Actor, u: Unit, k: Kont, c: Core)
    requires CoreInv(CoreOf(s)) && HolderInv(s) && PushInv(s) && PairInv(s) && At(s, a) == Push(u, k, Exchanging)
    requires c == CoreOf(s).(q := Exchange(s.q, N(u)))
    ensures CoreInv(c) && PushOk(c, u, Linking(s.q.tail, |s.q.order| - 1))
    ensures s.cs.Held? ==> CritOk(c, s.cs.at)
    ensures forall b: Actor :: b != a && At(s, b).Push? ==> PushOk(c, At(s, b).u, At(s, b).stage)
  {
    assert PushOk(CoreOf(s), u, Exchanging);
    CoreExchange(CoreOf(s), N(u), c);
    if s.cs.Held? { CritGrows(CoreOf(s), u, c, s.cs.at); }
    ExchangeAlone(s, a, u, k);
    PushesGrow(s, a, N(u), c);
  }

  /** Nobody owes the link that the next exchange will create. */
  lemma FreshDebt(s: State)
    requires CoreInv(CoreOf(s)) && HolderInv(s) && PushInv(s) && s.single
    ensures forall b: Actor :: !Owes(At(s, b), |s.q.order| - 1)
    ensures forall i :: StubOwes(s.cs, i) ==> i != |s.q.order| - 1
  {
  }

  /** So the producer that creates it is apart from everybody else. */
  lemma FreshApart(s: State, u: Unit, k: Kont, n: Node)
    requires forall b: Actor :: !Owes(At(s, b), |s.q.order| - 1)
    ensures var p := Push(u, k, Linking(n, |s.q.order| - 1));
            forall b: Actor {:trigger At(s, b)} :: Apart(p, At(s, b)) && Apart(At(s, b), p)
  {
  }

  lemma ChainExchange(s: State, a: Actor, u: Unit, k: Kont, s': State)
    requires ChainInv(s) && At(s, a) == Push(u, k, Exchanging)
    requires s' == Go(s.(q := Exchange(s.q, N(u))), a, Push(u, k, Linking(s.q.tail, |s.q.order| - 1)))
    ensures ChainInv(s')
  {
    GoMoves(s.(q := Exchange(s.q, N(u))), a, Push(u, k, Linking(s.q.tail, |s.q.order| - 1)));
    ExchangeOthers(s, a, u, k, CoreOf(s'));
    FreshDebt(s);
    FreshApart(s, u, k, s.q.tail);
    assert Owes(At(s', a), |s.q.order| - 1);
    GapGrown(s, a, s', N(u));
    Assemble(s, a, s');
  }

  /** One exchange adds one missing link, owed by the thread that exchanged. */
  lemma GapGrown(s: State, a: Actor, s': State, n: Node)
    requires GapInv(s) && Moved(s, a, s') && s'.q == Exchange(s.q, n) && s.q.hd < |s.q.order|
    requires forall i :: !Owes(At(s, a), i)
    requires forall i :: StubOwes(s.cs, i) ==> StubOwes(s'.cs, i)
    requires Owed(s', |s.q.order| - 1)
    ensures GapInv(s')
  {
    forall i | s'.q.hd <= i < |s'.q.order| - 1 && s'.q.order[i] !in s'.q.next ensures Owed(s', i) {
      if i != |s.q.order| - 1 {
        assert s'.q.order[i] == s.q.order[i];
        OwedKept(s, a, s', i);
      }
    }
  }

  lemma ChainLink(s: State, a: Actor, u: Unit, k: Kont, prev: Node, j: int, s': State)
    requires ChainInv(s) && At(s, a) == Push(u, k, Linking(prev, j))
    requires s' == Go(s.(q := Join(s.q, prev, N(u))), a, Push(u, k, Counting))
    ensures ChainInv(s')
  {
    GoMoves(s.(q := Join(s.q, prev, N(u))), a, Push(u, k, Counting));
    CoreJoin(CoreOf(s), j, prev, N(u), CoreOf(s'));
    forall b: Actor | b != a && At(s, b).Push? ensures PushOk(CoreOf(s'), At(s, b).u, At(s, b).stage) {
      assert Apart(At(s, a), At(s, b));
    }
    assert Alone(s.cs, At(s, a));
    GapKept(s, a, s');
    Assemble(s, a, s');
  }

  /** Taking the spinlock. */
  lemma ChainEnter(s: State, a: Actor, at: Crit, s': State)
    requires ChainInv(s) && s.cs == Free && CritOk(CoreOf(s), at) && s' == Go(s.(cs := Held(a, at)), a, Inside)
    requires at.Popping? ==> !at.pop.StubLink?
    requires if at.Appending? then At(s, a) == Push(at.u, at.k, WantAppend) else !At(s, a).Push?
    ensures ChainInv(s')
  {
    GoMoves(s.(cs := Held(a, at)), a, Inside);
    GapSame(s, a, s');
    forall b: Actor | b != a ensures Alone(s'.cs, At(s, b)) {
      assert Apart(At(s, a), At(s, b));
    }
    Assemble(s, a, s');
  }

  /** Every other step of a thread outside the critical section. */
  lemma ChainOutside(s: State, a: Actor, p: PC, s': State)
    requires ChainInv(s) && At(s, a) != Inside && (p.Push? ==> p.stage.Marking?)
    requires At(s, a).Push? ==> At(s, a).stage.Counting?
    requires CoreOf(s') == CoreOf(s) && s'.cs == s.cs && s'.pc == s.pc[a := p] && s'.fault == s.fault
    ensures ChainInv(s')
  {
    GapSame(s, a, s');
    Assemble(s, a, s');
  }

  // ---- the thread that holds the spinlock ----

  /** A step of the holder that leaves the storage alone. */
  lemma ChainHold(s: State, at: Crit, s': State)
    requires ChainInv(s) && s.cs.Held? && CritOk(CoreOf(s), at) && !at.Appending?
    requires at.Popping? ==> !at.pop.StubLink?
    requires s.cs.at.Popping? ==> !s.cs.at.pop.StubLink?
    requires CoreOf(s') == CoreOf(s) && s'.pc == s.pc && s'.cs == Held(s.cs.a, at) && !s'.fault
    ensures ChainInv(s')
  {
    GapSame(s, s.cs.a, s');
    Assemble(s, s.cs.a, s');
  }

  lemma ChainSkip(s: State, k: Kont, s': State)
    requires ChainInv(s) && s.cs.Held? && s.cs.at == Popping(k, ReadHead) && s.q.head == Stub && Stub in s.q.next
    requires s' == Crits(s.(q := Advance(s.q, s.q.next[Stub])), s.cs.a, Popping(k, ReadNext(s.q.next[Stub])))
    ensures ChainInv(s')
  {
    CoreAdvance(CoreOf(s), s.q.next[Stub], CoreOf(s'));
    assert s.q.order[s.q.hd + 1] != Stub;
    GapKept(s, s.cs.a, s');
    Assemble(s, s.cs.a, s');
  }

  /** The front node is the last one and is not the stub: no stub is left. */
  lemma LastMeansNoStub(q: Chain, inPool: set<Unit>)
    requires Shape(q, inPool) && q.head == q.tail && q.head != Stub
    ensures Absent(q, Stub)
  {
  }

  lemma ChainStubClear(s: State, k: Kont, h: Node, s': State)
    requires ChainInv(s) && s.cs.Held? && s.cs.at == Popping(k, StubClear(h))
    requires s' == Crits(s.(q := Reset(s.q, Stub)), s.cs.a, Popping(k, StubXchg(h)))
    ensures ChainInv(s')
  {
    CoreReset(CoreOf(s), Stub, CoreOf(s'));
    GapKept(s, s.cs.a, s');
    Assemble(s, s.cs.a, s');
  }

  /** The popper appends the stub; every producer keeps its place. */
  lemma StubOthers(s: State, k: Kont, h: Node, c: Core)
    requires CoreInv(CoreOf(s)) && HolderInv(s) && PushInv(s) && s.cs.Held? && s.cs.at == Popping(k, StubXchg(h))
    requires c == CoreOf(s).(q := Exchange(s.q, Stub))
    ensures CoreInv(c) && CritOk(c, Popping(k, StubLink(h, s.q.tail, |s.q.order| - 1)))
    ensures forall b: Actor :: b != s.cs.a && At(s, b).Push? ==> PushOk(c, At(s, b).u, At(s, b).stage)
  {
    CoreExchange(CoreOf(s), Stub, c);
    PushesGrow(s, s.cs.a, Stub, c);
  }

  lemma ChainStubXchg(s: State, k: Kont, h: Node, s': State)
    requires ChainInv(s) && s.cs.Held? && s.cs.at == Popping(k, StubXchg(h))
    requires s' == Crits(s.(q := Exchange(s.q, Stub)), s.cs.a, Popping(k, StubLink(h, s.q.tail, |s.q.order| - 1)))
    ensures ChainInv(s')
  {
    StubOthers(s, k, h, CoreOf(s'));
    FreshDebt(s);
    assert StubOwes(s'.cs, |s.q.order| - 1);
    GapGrown(s, s.cs.a, s', Stub);
    Assemble(s, s.cs.a, s');
  }

  lemma ChainStubLink(s: State, k: Kont, h: Node, prev: Node, j: int, s': State)
    requires ChainInv(s) && s.cs.Held? && s.cs.at == Popping(k, StubLink(h, prev, j))
    requires s' == Crits(s.(q := Join(s.q, prev, Stub)), s.cs.a, Popping(k, Reload(h)))
    ensures ChainInv(s')
  {
    CoreJoin(CoreOf(s), j, prev, Stub, CoreOf(s'));
    forall b: Actor | At(s, b).Push? ensures PushOk(CoreOf(s'), At(s, b).u, At(s, b).stage) {
      assert Alone(s.cs, At(s, b));
    }
    GapKept(s, s.cs.a, s');
    Assemble(s, s.cs.a, s');
  }

  lemma ChainTake(s: State, k: Kont, u: Unit, n: Node, s': State)
    requires ChainInv(s) && s.cs.Held? && s.cs.at == Popping(k, Taking(N(u), n))
    requires s' == Crits(s.(q := Advance(s.q, n).(taken := s.q.taken + [u]), inPool := s.inPool - {u}),
                         s.cs.a, Popping(k, Flagging(u)))
    ensures ChainInv(s')
  {
    CoreAdvance(CoreOf(s), n, CoreOf(s'));
    GapKept(s, s.cs.a, s');
    Assemble(s, s.cs.a, s');
  }

  /** Releasing the spinlock, after an append or with the storage untouched. */
  lemma ChainLeave(s: State, p: PC, s': State)
    requires ChainInv(s) && s.cs.Held? && (p.Push? ==> p.stage.Counting?)
    requires if s.cs.at.Appending? then CoreOf(s') == CoreOf(s).(lst := s.lst + [s.cs.at.u])
             else CoreOf(s') == CoreOf(s)
    requires s.cs.at.Popping? ==> !s.cs.at.pop.StubLink?
    requires s'.cs == Free && s'.pc == s.pc[s.cs.a := p] && !s'.fault
    ensures ChainInv(s')
  {
    forall b: Actor | At(s, b).Push? ensures PushOk(CoreOf(s'), At(s, b).u, At(s, b).stage) {
      assert Alone(s.cs, At(s, b));
    }
    GapSame(s, s.cs.a, s');
    Assemble(s, s.cs.a, s');
  }

  lemma {:induction false} WithoutKeeps(q: seq<Unit>, u: Unit, v: Unit)
    requires Distinct(q)
    ensures v in Without(q, u) <==> v in q && v != u
  {
    if q != [] {
      WithoutKeeps(q[1..], u, v);
      assert q == [q[0]] + q[1..];
    }
  }

  lemma {:induction false} WithoutDistinct(q: seq<Unit>, u: Unit)
    requires Distinct(q)
    ensures Distinct(Without(q, u))
  {
    if q != [] && q[0] != u {
      WithoutDistinct(q[1..], u);
      WithoutKeeps(q[1..], u, q[0]);
    }
  }

  /** A linked unit leaves the list. */
  lemma ChainUnlink(s: State, u: Unit, at: Crit, s': State)
    requires ChainInv(s) && s.cs.Held? && u in s.lst && !at.Appending? && !s.cs.at.Appending?
    requires at.Popping? ==> at.pop.Unlocking?
    requires at.Removing? ==> at.rem.Unlock?
    requires s' == Crits(s.(lst := Without(s.lst, u), inPool := s.inPool - {u}), s.cs.a, at)
    ensures ChainInv(s')
  {
    WithoutDistinct(s.lst, u);
    forall v ensures v in s'.lst <==> v in s.lst && v != u { WithoutKeeps(s.lst, u, v); }
    GapSame(s, s.cs.a, s');
    Assemble(s, s.cs.a, s');
  }

  // ---- every step keeps the invariant ----

  lemma ChainPush(s: State, a: Actor, s': State)
    requires ChainInv(s) && PushStep(s, a, s')
    ensures ChainInv(s')
  {
    var Push(u, k, stage) := At(s, a);
    match stage {
      case Marking =>
        if u in s.inPool { ChainFrame(s, s'); }
        else { ChainMark(s, a, u, k, if s.single then Clearing else WantAppend, s'); }
      case Clearing => ChainClear(s, a, u, k, s');
      case Exchanging => ChainExchange(s, a, u, k, s');
      case Linking(prev, j) => ChainLink(s, a, u, k, prev, j, s');
      case _ =>
    }
  }

  lemma MoveIs(s: State, a: Actor, p: PC, n: int, b: Bell)
    requires Move(s, a, p, n, b)
    ensures At(s, a) != Inside && (At(s, a).Push? ==> At(s, a).stage == Counting)
    ensures p != Inside && (p.Push? ==> p.stage == Marking)
  {
  }

  lemma ChainMove(s: State, a: Actor, s': State)
    requires ChainInv(s) && MoveStep(s, a, s')
    ensures ChainInv(s')
  {
    var p, n, b :| Move(s, a, p, n, b) && s' == Put(s, a, p, n, b);
    MoveIs(s, a, p, n, b);
    ChainOutside(s, a, p, s');
  }

  lemma ChainRead(s: State, k: Kont, at: PopStage, s': State)
    requires ChainInv(s) && s.cs.Held? && s.cs.at == Popping(k, at) && ReadStep(s, s.cs.a, k, at, s')
    ensures ChainInv(s')
  {
    var q, at' :| ReadMove(s.q, at, q, at') && s' == Crits(s.(q := q), s.cs.a, Popping(k, at'));
    if at == ReadHead && s.q.head == Stub && Stub in s.q.next { ChainSkip(s, k, s'); }
    else if at.StubClear? { ChainStubClear(s, k, at.h, s'); }
    else if at.StubXchg? { ChainStubXchg(s, k, at.h, s'); }
    else if at.StubLink? { ChainStubLink(s, k, at.h, at.prev, at.i, s'); }
    else {
      if at.ReadTail? && at.h == s.q.tail { LastMeansNoStub(s.q, s.inPool); }
      ChainHold(s, Popping(k, at'), s');
    }
  }

  lemma ChainTaking(s: State, k: Kont, at: PopStage, s': State)
    requires ChainInv(s) && s.cs.Held? && s.cs.at == Popping(k, at) && TakeStep(s, s.cs.a, k, at, s')
    ensures ChainInv(s')
  {
    match at
    case Taking(h, n) => ChainTake(s, k, h.u, n, s');
    case Flagging(u) => ChainHold(s, s'.cs.at, s');
    case ListPop =>
      var r := ListPick(s, s.cs.a);
      if r == None { ChainHold(s, Popping(k, Unlocking(None)), s'); }
      else { ChainUnlink(s, r.value, Popping(k, Unlocking(r)), s'); }
    case Unlocking(r) => ChainLeave(s, if r == None then AfterNull(k) else Popped(r.value, k), s');
  }

  lemma ChainRemove(s: State, u: Unit, at: RemStage, s': State)
    requires ChainInv(s) && s.cs.Held? && s.cs.at == Removing(u, at) && RemoveStep(s, s.cs.a, u, at, s')
    ensures ChainInv(s') || (s'.raced && !s'.single)
  {
    match at
    case Check => ChainHold(s, s'.cs.at, s');
    case Flag =>
      if s.single { ChainHold(s, s'.cs.at, s'); }
      else if u in s.lst { ChainUnlink(s, u, Removing(u, Unlock(true)), s'); }
    case Unlock(hit) => ChainLeave(s, if hit then Removed else Idle, s');
  }

  lemma ChainCrit(s: State, s': State)
    requires ChainInv(s) && CritStep(s, s')
    ensures ChainInv(s') || (s'.raced && !s'.single)
  {
    match s.cs.at
    case Appending(u, k) => ChainLeave(s, Push(u, k, Counting), s');
    case Popping(k, at) =>
      if ReadStep(s, s.cs.a, k, at, s') { ChainRead(s, k, at, s'); } else { ChainTaking(s, k, at, s'); }
    case Removing(u, at) => ChainRemove(s, u, at, s');
  }

  lemma ChainFrame(s: State, s': State)
    requires ChainInv(s) && CoreOf(s') == CoreOf(s) && s'.cs == s.cs && s'.pc == s.pc && s'.fault == s.fault
    ensures ChainInv(s')
  {
    assert forall a: Actor :: At(s', a) == At(s, a);
    forall i | s.q.hd <= i < |s.q.order| - 1 && s.q.order[i] !in s.q.next ensures Owed(s', i) {
      OwedKept(s, 0, s', i);
    }
  }

  lemma ChainNext(s: State, s': State)
    requires ChainInv(s) && Next(s, s')
    ensures ChainInv(s') || (s'.raced && !s'.single)
  {
    if CritStep(s, s') {
      ChainCrit(s, s');
    } else if Spurious(s, s') {
      ChainFrame(s, s');
    } else {
      var a :| OpenStep(s, a, s');
      if PushStep(s, a, s') { ChainPush(s, a, s'); }
      else if EnterStep(s, a, s') { ChainEnter(s, a, Wanted(s, At(s, a)).value, s'); }
      else { ChainMove(s, a, s'); }
    }
  }

  lemma ChainInit(s: State)
    requires Init(s)
    ensures ChainInv(s)
  {
  }

  /** In every state of every run, as long as no unlinked unit was unlinked. */
  lemma {:induction false} ChainRun(r: seq<State>, n: nat)
    requires Run(r) && n < |r|
    ensures ChainInv(r[n]) || (r[n].raced && !r[n].single)
  {
    if n == 0 {
      ChainInit(r[0]);
    } else {
      ChainRun(r, n - 1);
      assert Linked(r, n - 1);
      ChainNext(r[n - 1], r[n]);
    }
  }

  // ---- main results ----

  /** Nothing lost, duplicated or reordered: the units exchanged into the queue
      are the units taken so far, in that order, then the units still in it. */
  lemma FifoOverRuns(r: seq<State>, n: nat)
    requires Run(r) && n < |r| && r[n].single
    ensures var q := r[n].q;
            q.hd < |q.order| && Units(q.order) == q.taken + Units(q.order[q.hd..])
    ensures forall i, j :: r[n].q.hd <= i < j < |r[n].q.order| ==> r[n].q.order[i] != r[n].q.order[j]
  {
    ChainRun(r, n);
    UnitsSplit(r[n].q.order, r[n].q.hd);
  }

  lemma {:induction false} UnitsSplit(q: seq<Node>, i: nat)
    requires i <= |q|
    ensures Units(q) == Units(q[..i]) + Units(q[i..])
    decreases |q|
  {
    if i == |q| {
      assert q[..i] == q && q[i..] == [];
    } else {
      UnitsSplit(q[..|q| - 1], i);
      assert q[..|q| - 1][..i] == q[..i];
      assert q[i..][..|q[i..]| - 1] == q[..|q| - 1][i..];
    }
  }

  /** The log of exchanges only grows, and what was taken stays taken. */
  lemma LogGrows(s: State, s': State)
    requires Next(s, s')
    ensures s.q.order <= s'.q.order && s.q.taken <= s'.q.taken
  {
    if CritStep(s, s') {
      if s.cs.at.Popping? {
        var k, at := s.cs.at.k, s.cs.at.pop;
        if ReadStep(s, s.cs.a, k, at, s') { ReadLog(s, k, at, s'); } else { TakeLog(s, k, at, s'); }
      }
    } else if !Spurious(s, s') {
      var a :| OpenStep(s, a, s');
    }
  }

  lemma ReadLog(s: State, k: Kont, at: PopStage, s': State)
    requires s.cs.Held? && ReadStep(s, s.cs.a, k, at, s')
    ensures s.q.order <= s'.q.order && s.q.taken <= s'.q.taken
  {
  }

  lemma TakeLog(s: State, k: Kont, at: PopStage, s': State)
    requires s.cs.Held? && TakeStep(s, s.cs.a, k, at, s')
    ensures s.q.order <= s'.q.order && s.q.taken <= s'.q.taken
  {
  }

  /** Every missing link of the chain is owed by exactly one thread: a producer
      between its exchange and its link, or the consumer appending the stub. */
  lemma OneDebtor(r: seq<State>, n: nat, i: int)
    requires Run(r) && n < |r| && r[n].single
    requires r[n].q.hd <= i < |r[n].q.order| - 1
    ensures var s := r[n];
            && (s.q.order[i] !in s.q.next <==> Owed(s, i))
            && (forall a: Actor, b: Actor :: Owes(At(s, a), i) && Owes(At(s, b), i) ==> a == b)
            && (StubOwes(s.cs, i) ==> forall a: Actor :: !Owes(At(s, a), i))
  {
    ChainRun(r, n);
    var s := r[n];
    assert forall a: Actor, b: Actor :: a != b ==> Apart(At(s, a), At(s, b));
    assert forall a: Actor :: Alone(s.cs, At(s, a));
  }

  /** A thread in flight holds `n` as the predecessor it will write to. */
  predicate Predecessor(s: State, a: Actor, n: Node) {
    (At(s, a).Push? && At(s, a).stage.Linking? && At(s, a).stage.prev == n)
  }

  /** Recycling is safe: only a node of the chain is anybody's predecessor, so
      neither a unit being pushed again nor the stub being appended again has a
      write to its `next` outstanding; the stub is in the chain at most once,
      and not at all when it is appended. */
  lemma Recycling(r: seq<State>, n: nat, a: Actor)
    requires Run(r) && n < |r| && r[n].single
    ensures var s := r[n];
            && (forall m :: Absent(s.q, m) ==> !Predecessor(s, a, m))
            && (forall b: Actor :: Marked(At(s, b)) ==> Absent(s.q, N(At(s, b).u)) && !Predecessor(s, a, N(At(s, b).u)))
            && (s.cs.Held? && s.cs.at.Popping? && (s.cs.at.pop.StubClear? || s.cs.at.pop.StubXchg?)
                ==> Absent(s.q, Stub) && !Predecessor(s, a, Stub))
  {
    ChainRun(r, n);
  }

  /** When the consumer detaches a unit, nobody will write to its node. */
  lemma DetachedIsFree(s: State, s': State, a: Actor)
    requires ChainInv(s) && s.cs.Held? && s.cs.at.Popping? && s.cs.at.pop.Taking? && CritStep(s, s')
    ensures !s'.fault && !Predecessor(s', a, s.cs.at.pop.h)
    ensures s'.q.taken == s.q.taken + [s.cs.at.pop.h.u] && Absent(s'.q, s.cs.at.pop.h)
  {
    var Popping(k, Taking(h, n)) := s.cs.at;
    ChainTake(s, k, h.u, n, s');
    CoreAdvance(CoreOf(s), n, CoreOf(s'));
  }
}
