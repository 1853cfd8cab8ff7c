/**
 Joining a ULT or an execution stream: a flag, a mutex and a list of joiners. One
 terminator publishes the flag and wakes the joiners; any number of threads join.
 */
module Join {
  import opened Basics
  import opened Records
  import opened Fifo

  datatype Result = Success | InvalidSelf

  /** Where a thread is. ULTs lock, look again, enlist, and release the mutex once
      BLOCKED; threads that cannot block poll the flag. */
  datatype Pos =
    | Away
    | Look
    | WantLock
    | LookAgain
    | Enlist
    | Blocking
    | Asleep
    | Polling
    | Joined(res: Result)

  datatype EndPos = Alive | WantEnd | Ending | Waking(ws: seq<Tid>) | Ended

  /** `own` is the ULT being joined or the threads on the stream being joined, and
      `ext` are the threads that cannot block. `place` locates the joiners' entries
      and `failed` notes a wake that found nobody asleep: history that no step reads. */
  datatype State = State(stream: bool, own: set<Tid>, ext: set<Tid>, ended: bool, lock: Option<Tid>, joiners: seq<Tid>,
                         end: EndPos, place: map<Tid, Place>, pos: map<Tid, Pos>, failed: bool)

  /** The terminator's name on the mutex; joiners are named from 1 on. */
  const ENDER: Tid := 0

  function At(s: State, t: Tid): Pos { if t in s.pos then s.pos[t] else Away }
  function PlaceOf(s: State, t: Tid): Place { PlaceIn(s.place, t) }

  ghost predicate Init(s: State) {
    !s.ended && s.lock == None && s.joiners == [] && s.end == Alive && s.place == map[] && s.pos == map[] && !s.failed
  }

  /** A step of joiner `t`: its position, the mutex, the list and its own entry. */
  ghost predicate JoinMove(s: State, t: Tid, p: Pos, lock: Option<Tid>, js: seq<Tid>, l: Place) {
    match At(s, t)
    case Away => p == Look && lock == s.lock && js == s.joiners && l == PlaceOf(s, t)
    case Look =>
      && lock == s.lock && js == s.joiners && l == PlaceOf(s, t)
      && p == (if s.stream && t in s.own then Joined(InvalidSelf)
               else if s.ended then Joined(Success)
               else if t in s.own then Joined(InvalidSelf)
               else if t in s.ext then Polling else WantLock)
    case WantLock => s.lock == None && lock == Some(t) && js == s.joiners && l == PlaceOf(s, t) && p == LookAgain
    case LookAgain =>
      && js == s.joiners && l == PlaceOf(s, t)
      && if s.ended then lock == None && p == Joined(Success) else lock == s.lock && p == Enlist
    case Enlist => lock == s.lock && js == s.joiners + [t] && l == Listed && p == Blocking
    case Blocking => lock == None && js == s.joiners && l == PlaceOf(s, t) && p == Asleep
    case Asleep => false
    case Polling =>
      && lock == s.lock && js == s.joiners && l == PlaceOf(s, t)
      && p == if s.ended then Joined(Success) else Polling
    case Joined(_) => p == Away && lock == s.lock && js == s.joiners && l == PlaceOf(s, t)
  }

  ghost predicate JoinStep(s: State, t: Tid, s': State) {
    exists p, lock, js, l :: t != ENDER && JoinMove(s, t, p, lock, js, l) &&
      s' == s.(lock := lock, joiners := js, place := s.place[t := l], pos := s.pos[t := p])
  }

  /** The flag is published and the whole list taken, under the mutex. */
  function Published(s: State): State {
    s.(ended := true, joiners := [], lock := None, end := Waking(s.joiners),
       place := Assigned(s.place, s.joiners, InHand(ENDER)))
  }

  /** The terminator: lock; publish, take the whole list and unlock; wake them all. */
  ghost predicate EndStep(s: State, s': State) {
    match s.end
    case Alive => s' == s.(end := WantEnd)
    case WantEnd => s.lock == None && s' == s.(lock := Some(ENDER), end := Ending)
    case Ending => s' == Published(s)
    case Waking(ws) =>
      if ws == [] then s' == s.(end := Ended)
      else if At(s, ws[0]) != Asleep then s' == s.(failed := true)
      else s' == s.(end := Waking(ws[1..]), place := s.place[ws[0] := Nowhere], pos := s.pos[ws[0] := Joined(Success)])
    case Ended => false
  }

  ghost predicate Next(s: State, s': State) {
    EndStep(s, s') || exists t :: JoinStep(s, t, s')
  }

  ghost predicate Linked(r: seq<State>, i: nat) {
    i + 1 < |r| ==> Next(r[i], r[i + 1])
  }

  ghost predicate Run(r: seq<State>) {
    |r| > 0 && Init(r[0]) && forall i: nat :: Linked(r, i)
  }

  // ---- what every run keeps ----

  predicate Locked(p: Pos) {
    p == LookAgain || p == Enlist || p == Blocking
  }

  /** Where the entry of a thread at `p` is; one that is about to enlist does so
      before the flag is published. */
  predicate PosOk(p: Pos, l: Place, ended: bool) {
    && (if p == Blocking then l == Listed else if p == Asleep then l == Listed || l == InHand(ENDER) else l == Nowhere)
    && (p == Enlist ==> !ended) && (p == Joined(Success) ==> ended)
  }

  predicate Held(e: EndPos, w: Tid) {
    e.Waking? && w in e.ws
  }

  ghost predicate LockInv(s: State) {
    && (forall t: Tid {:trigger At(s, t)} :: Locked(At(s, t)) <==> s.lock == Some(t) && t != ENDER)
    && (s.end == Ending <==> s.lock == Some(ENDER))
    && (s.ended <==> s.end.Waking? || s.end.Ended?)
  }

  ghost predicate PlaceInv(s: State) {
    && (forall t: Tid {:trigger At(s, t)} :: PosOk(At(s, t), PlaceOf(s, t), s.ended))
    && Distinct(s.joiners) && (s.ended ==> s.joiners == [])
    && (forall w: Tid {:trigger PlaceOf(s, w)} :: w in s.joiners <==> PlaceOf(s, w) == Listed)
    && (forall w: Tid {:trigger PlaceOf(s, w)} :: Held(s.end, w) <==> PlaceOf(s, w) == InHand(ENDER))
    && (s.end.Waking? ==> Distinct(s.end.ws)) && At(s, ENDER) == Away
  }

  ghost predicate Inv(s: State) {
    LockInv(s) && PlaceInv(s) && !s.failed
  }

  lemma MoveFacts(s: State, t: Tid, p: Pos, lock: Option<Tid>, js: seq<Tid>, l: Place)
    requires JoinMove(s, t, p, lock, js, l) && t != ENDER && (Locked(At(s, t)) <==> s.lock == Some(t))
    requires PosOk(At(s, t), PlaceOf(s, t), s.ended)
    ensures Locked(p) <==> lock == Some(t)
    ensures lock == s.lock || lock == Some(t) || (lock == None && s.lock == Some(t))
    ensures lock == Some(t) ==> s.lock == Some(t) || s.lock == None
    ensures PosOk(p, l, s.ended) && PlaceOf(s, t) != InHand(ENDER)
    ensures (js == s.joiners && l == PlaceOf(s, t)) ||
            (js == s.joiners + [t] && l == Listed && PlaceOf(s, t) == Nowhere && !s.ended)
  {
  }

  lemma KeepJoin(s: State, t: Tid, s': State)
    requires Inv(s) && JoinStep(s, t, s')
    ensures Inv(s')
  {
    var p, lock, js, l :| t != ENDER && JoinMove(s, t, p, lock, js, l) &&
      s' == s.(lock := lock, joiners := js, place := s.place[t := l], pos := s.pos[t := p]);
    assert Locked(At(s, t)) <==> s.lock == Some(t) && t != ENDER;
    assert PosOk(At(s, t), PlaceOf(s, t), s.ended);
    MoveFacts(s, t, p, lock, js, l);
    forall u: Tid
      ensures At(s', u) == (if u == t then p else At(s, u)) && PlaceOf(s', u) == if u == t then l else PlaceOf(s, u)
    {
    }
    KeepLock(s, t, p, s');
    KeepPlace(s, t, p, l, s');
  }

  lemma KeepLock(s: State, t: Tid, p: Pos, s': State)
    requires LockInv(s) && t != ENDER && s'.end == s.end && s'.ended == s.ended && (Locked(p) <==> s'.lock == Some(t))
    requires forall u: Tid {:trigger At(s', u)} :: At(s', u) == if u == t then p else At(s, u)
    requires s'.lock == s.lock || s'.lock == Some(t) || (s'.lock == None && s.lock == Some(t))
    requires s'.lock == Some(t) ==> s.lock == Some(t) || s.lock == None
    ensures LockInv(s')
  {
  }

  lemma KeepPlace(s: State, t: Tid, p: Pos, l: Place, s': State)
    requires PlaceInv(s) && t != ENDER && s'.end == s.end
    requires s'.ended == s.ended && PosOk(p, l, s.ended) && PlaceOf(s, t) != InHand(ENDER)
    requires forall u: Tid {:trigger At(s', u)} :: At(s', u) == if u == t then p else At(s, u)
    requires forall u: Tid {:trigger PlaceOf(s', u)} :: PlaceOf(s', u) == if u == t then l else PlaceOf(s, u)
    requires (s'.joiners == s.joiners && l == PlaceOf(s, t)) ||
             (s'.joiners == s.joiners + [t] && l == Listed && PlaceOf(s, t) == Nowhere && !s.ended)
    ensures PlaceInv(s')
  {
  }

  /** With the mutex in the terminator's hands, everyone on the list sleeps. */
  lemma ListSleeps(s: State, w: Tid)
    requires LockInv(s) && PlaceInv(s) && s.lock == Some(ENDER) && w in s.joiners
    ensures At(s, w) == Asleep
  {
  }

  lemma KeepPublish(s: State, s': State)
    requires Inv(s) && s.end == Ending
    requires s' == Published(s)
    ensures Inv(s')
  {
    forall u: Tid ensures Locked(At(s', u)) <==> s'.lock == Some(u) && u != ENDER {
      assert Locked(At(s, u)) <==> s.lock == Some(u) && u != ENDER;
    }
    forall w: Tid ensures PlaceOf(s', w) == if w in s.joiners then InHand(ENDER) else PlaceOf(s, w) {
    }
    forall u: Tid ensures PosOk(At(s', u), PlaceOf(s', u), true) {
      assert PosOk(At(s, u), PlaceOf(s, u), s.ended);
      assert Locked(At(s, u)) <==> s.lock == Some(u) && u != ENDER;
      if u in s.joiners { ListSleeps(s, u); }
    }
    forall w: Tid ensures w in s'.joiners <==> PlaceOf(s', w) == Listed {
      assert w in s.joiners <==> PlaceOf(s, w) == Listed;
    }
    forall w: Tid ensures Held(s'.end, w) <==> PlaceOf(s', w) == InHand(ENDER) {
      assert Held(s.end, w) <==> PlaceOf(s, w) == InHand(ENDER);
    }
  }

  lemma WakeFinds(s: State)
    requires PlaceInv(s) && s.end.Waking? && s.end.ws != []
    ensures At(s, s.end.ws[0]) == Asleep && PlaceOf(s, s.end.ws[0]) == InHand(ENDER)
  {
  }

  lemma KeepWake(s: State, s': State)
    requires Inv(s) && s.end.Waking? && s.end.ws != [] && EndStep(s, s')
    ensures Inv(s')
  {
    WakeFinds(s);
    var w := s.end.ws[0];
    assert s.end.ws == [w] + s.end.ws[1..];
    forall u: Tid ensures Locked(At(s', u)) <==> s'.lock == Some(u) && u != ENDER {
      assert Locked(At(s, u)) <==> s.lock == Some(u) && u != ENDER;
    }
    forall u: Tid ensures PosOk(At(s', u), PlaceOf(s', u), s'.ended) { assert PosOk(At(s, u), PlaceOf(s, u), s.ended); }
    forall x: Tid ensures x in s'.joiners <==> PlaceOf(s', x) == Listed {
      assert x in s.joiners <==> PlaceOf(s, x) == Listed;
    }
    forall x: Tid ensures Held(s'.end, x) <==> PlaceOf(s', x) == InHand(ENDER) {
      assert Held(s.end, x) <==> PlaceOf(s, x) == InHand(ENDER);
    }
  }

  lemma KeepEnd(s: State, s': State)
    requires Inv(s) && EndStep(s, s')
    ensures Inv(s')
  {
    if s.end == Ending {
      KeepPublish(s, s');
    } else if s.end.Waking? && s.end.ws != [] {
      KeepWake(s, s');
    } else {
      forall u: Tid ensures At(s', u) == At(s, u) && PlaceOf(s', u) == PlaceOf(s, u) {
      }
      forall u: Tid ensures Locked(At(s', u)) <==> s'.lock == Some(u) && u != ENDER {
        assert Locked(At(s, u)) <==> s.lock == Some(u) && u != ENDER;
      }
      forall x: Tid ensures Held(s'.end, x) <==> PlaceOf(s', x) == InHand(ENDER) {
        assert Held(s.end, x) <==> PlaceOf(s, x) == InHand(ENDER);
      }
    }
  }

  lemma {:induction false} Reaches(r: seq<State>, n: nat)
    requires Run(r) && n < |r|
    ensures Inv(r[n])
  {
    if n == 0 {
      forall t: Tid ensures At(r[0], t) == Away && PlaceOf(r[0], t) == Nowhere {
      }
    } else {
      Reaches(r, n - 1);
      assert Linked(r, n - 1);
      if EndStep(r[n - 1], r[n]) {
        KeepEnd(r[n - 1], r[n]);
      } else {
        var t :| JoinStep(r[n - 1], t, r[n]);
        KeepJoin(r[n - 1], t, r[n]);
      }
    }
  }

  // ---- main results ----

  /** Join succeeds only after the flag is published, nobody is on the list once it
      is, no wake fails, and when the terminator is done nobody sleeps. */
  lemma JoinSound(r: seq<State>, n: nat, t: Tid)
    requires Run(r) && n < |r|
    ensures At(r[n], t) == Joined(Success) ==> r[n].ended
    ensures r[n].ended ==> r[n].joiners == []
    ensures r[n].end == Ended ==> At(r[n], t) != Asleep && At(r[n], t) != Blocking
    ensures !r[n].failed
  {
    Reaches(r, n);
    assert PosOk(At(r[n], t), PlaceOf(r[n], t), r[n].ended);
    assert t in r[n].joiners <==> PlaceOf(r[n], t) == Listed;
    assert Held(r[n].end, t) <==> PlaceOf(r[n], t) == InHand(ENDER);
  }

  /** The flag stays; a joiner enlists only before it. */
  lemma NoLateJoiner(r: seq<State>, n: nat)
    requires Run(r) && n + 1 < |r| && r[n].ended
    ensures r[n + 1].ended && r[n + 1].joiners == []
  {
    Reaches(r, n);
    Reaches(r, n + 1);
    assert Linked(r, n);
  }

  /** Every enlisted joiner leaves its sleep by one wake of the terminator, after
      the flag is published. */
  lemma WokenOnce(r: seq<State>, n: nat, t: Tid)
    requires Run(r) && n + 1 < |r| && At(r[n], t) == Asleep
    ensures t in r[n].joiners || Held(r[n].end, t)
    ensures At(r[n + 1], t) != Asleep ==> At(r[n + 1], t) == Joined(Success) && r[n].ended && Held(r[n].end, t)
    ensures At(r[n + 1], t) != Asleep ==> !Held(r[n + 1].end, t) && t !in r[n + 1].joiners
  {
    Reaches(r, n);
    Reaches(r, n + 1);
    assert Linked(r, n);
    SleeperPlace(r[n], t);
    if At(r[n + 1], t) != Asleep { WakeLeaves(r[n], r[n + 1], t); }
  }

  lemma SleeperPlace(s: State, t: Tid)
    requires Inv(s) && At(s, t) == Asleep
    ensures t in s.joiners || Held(s.end, t)
  {
    assert PosOk(At(s, t), PlaceOf(s, t), s.ended);
    assert t in s.joiners <==> PlaceOf(s, t) == Listed;
    assert Held(s.end, t) <==> PlaceOf(s, t) == InHand(ENDER);
  }

  /** A sleeper leaves only as the first of those the terminator is waking. */
  lemma WakeLeaves(s: State, s': State, t: Tid)
    requires Inv(s) && Inv(s') && Next(s, s') && At(s, t) == Asleep && At(s', t) != Asleep
    ensures At(s', t) == Joined(Success) && s.ended && Held(s.end, t)
    ensures !Held(s'.end, t) && t !in s'.joiners
  {
    if EndStep(s, s') {
      if s.end.Waking? && s.end.ws != [] { WakeFinds(s); }
    }
    assert PosOk(At(s', t), PlaceOf(s', t), s'.ended);
    assert t in s'.joiners <==> PlaceOf(s', t) == Listed;
    assert Held(s'.end, t) <==> PlaceOf(s', t) == InHand(ENDER);
  }

  // ---- how a join ends ----

  /** Only threads that cannot block poll and only the others enlist; a thread being
      joined, or on the stream being joined, does neither. */
  predicate RoleOk(s: State, t: Tid) {
    match At(s, t)
    case Polling => t in s.ext && t !in s.own
    case Away => true
    case Look => true
    case Joined(res) => true
    case _ => t !in s.ext && t !in s.own
  }

  lemma KeepRole(s: State, s': State, t: Tid)
    requires PlaceInv(s) && RoleOk(s, t) && Next(s, s')
    ensures RoleOk(s', t)
  {
    if EndStep(s, s') {
      if s.end.Waking? && s.end.ws != [] { WakeFinds(s); }
    } else {
      var u :| JoinStep(s, u, s');
      if u == t { OwnRole(s, t, s'); }
    }
  }

  lemma OwnRole(s: State, t: Tid, s': State)
    requires RoleOk(s, t) && JoinStep(s, t, s')
    ensures RoleOk(s', t)
  {
    var p, lock, js, l :| t != ENDER && JoinMove(s, t, p, lock, js, l) &&
      s' == s.(lock := lock, joiners := js, place := s.place[t := l], pos := s.pos[t := p]);
  }

  lemma {:induction false} Role(r: seq<State>, n: nat, t: Tid)
    requires Run(r) && n < |r|
    ensures RoleOk(r[n], t)
  {
    if n > 0 {
      Role(r, n - 1, t);
      Reaches(r, n - 1);
      assert Linked(r, n - 1);
      KeepRole(r[n - 1], r[n], t);
    }
  }

  /** A join that ends in a step from `s` is refused exactly for a thread joining
      itself, or its own stream, and on a ULT only while that has not ended; it
      succeeds only once the flag is published. */
  ghost predicate EndsRight(s: State, t: Tid, s': State) {
    && (At(s', t) == Away ==> At(s, t) == Away || At(s, t).Joined?)
    && (At(s', t).Joined? && At(s', t) != At(s, t) ==>
      && (At(s', t).res == InvalidSelf <==> t in s.own && (s.stream || !s.ended))
      && (At(s', t).res == Success ==> s.ended))
  }

  /** Whoever looks at the flag after it was published returns, and so does whoever
      may not join; everybody else goes on, polling or enlisting. */
  ghost predicate LooksRight(s: State, t: Tid, s': State) {
    JoinStep(s, t, s') && (At(s, t) == Look || At(s, t) == LookAgain || At(s, t) == Polling) ==>
      if s.ended || t in s.own then At(s', t).Joined?
      else if t in s.ext then At(s', t) == Polling
      else At(s', t) == if At(s, t) == Look then WantLock else Enlist
  }

  lemma EndsStep(s: State, s': State, t: Tid)
    requires Inv(s) && RoleOk(s, t) && Next(s, s')
    ensures EndsRight(s, t, s') && LooksRight(s, t, s')
  {
    if EndStep(s, s') && s.end.Waking? && s.end.ws != [] { WakeFinds(s); }
  }

  lemma JoinEnds(r: seq<State>, n: nat, t: Tid)
    requires Run(r) && n + 1 < |r|
    ensures EndsRight(r[n], t, r[n + 1]) && LooksRight(r[n], t, r[n + 1])
    ensures At(r[n], t) == Polling ==> t in r[n].ext
    ensures At(r[n], t) == Asleep ==> t !in r[n].ext
  {
    Reaches(r, n);
    Role(r, n, t);
    assert Linked(r, n);
    EndsStep(r[n], r[n + 1], t);
  }

  // ---- who is woken first ----

  ghost function Lists(r: seq<State>): seq<seq<Tid>> {
    seq(|r|, k requires 0 <= k < |r| => r[k].joiners)
  }

  lemma ListStep(s: State, s': State)
    requires Next(s, s')
    ensures QueueStep(s.joiners, s'.joiners)
  {
    if s'.joiners == [] {
      assert s'.joiners == s.joiners[|s.joiners|..];
    } else if s'.joiners == s.joiners {
      assert s'.joiners == s.joiners[0..];
    }
  }

  lemma ListAt(r: seq<State>, n: nat)
    requires Run(r) && n + 1 < |r|
    ensures QueueStep(r[n].joiners, r[n + 1].joiners)
  {
    assert Linked(r, n);
    ListStep(r[n], r[n + 1]);
  }

  lemma ListDistinct(r: seq<State>, n: nat)
    requires Run(r) && n < |r|
    ensures Distinct(r[n].joiners)
  {
    Reaches(r, n);
  }

  /** The list holds the joiners in the order in which they enlisted. */
  lemma EnlistedFirst(r: seq<State>, i: nat, n: nat, u: Tid, v: Tid)
    requires Run(r) && JoinedFirst(Lists(r), i, n, u, v)
    ensures Ahead(r[n].joiners, u, v)
  {
    var h := Lists(r);
    forall k: nat ensures Served(h, k) {
      if k + 1 < |h| { ListAt(r, k); }
    }
    forall k: nat | k < |h| ensures Distinct(h[k]) {
      ListDistinct(r, k);
    }
    AheadOverTime(h, i, n, u, v);
  }

  /** Publishing takes the whole list, and the wakes follow it from the front. */
  lemma WokenInOrder(s: State, s': State)
    requires Inv(s) && EndStep(s, s')
    ensures s.end == Ending ==> s'.end == Waking(s.joiners)
    ensures s.end.Waking? && s.end.ws != [] ==>
              s'.end == Waking(s.end.ws[1..]) && At(s', s.end.ws[0]) == Joined(Success)
  {
    if s.end.Waking? && s.end.ws != [] { WakeFinds(s); }
  }
}
