/**
 The eventual as a step machine over any number of threads: a spinlock, a ready
 flag, a buffer and a wait list, with untimed waits, sets, tests and resets.
 */
module Eventual {
  import opened Basics
  import opened Records
  import opened Fifo

  type Byte = b: nat | b < 256

  datatype WaitStage = WWant | WIn | WQueued | WBlocked | WSleep | WReady
  datatype SetStage = SetWant | SetIn | SetWake(ws: seq<Tid>)
  datatype Stage = Want | Within

  /** The size and the bytes given to a set; no bytes for a null buffer. */
  datatype Arg = Arg(n: int, data: Option<seq<Byte>>)

  datatype Pos = Away | Waits(w: WaitStage) | Sets(arg: Arg, g: SetStage) | Tests(at: Stage) | Resets(at: Stage)

  /** `place` locates the wait records and `failed` notes a wake that found nobody
      asleep; no step reads them. */
  datatype Ev = Ev(nbytes: nat, ext: set<Tid>, slock: Option<Tid>, ready: bool, value: seq<Byte>, wl: seq<Tid>,
                   place: map<Tid, Place>, pos: map<Tid, Pos>, failed: bool)

  function At(s: Ev, t: Tid): Pos { if t in s.pos then s.pos[t] else Away }
  function PlaceOf(s: Ev, t: Tid): Place { PlaceIn(s.place, t) }

  ghost predicate EvInit(s: Ev) {
    && s.slock == None && !s.ready && s.value == seq(s.nbytes, i => 0) && s.wl == []
    && s.place == map[] && s.pos == map[] && !s.failed
  }

  /** What a set does to an eventual that is not ready: fail for a value that is
      too large, else copy. */
  predicate Accepted(s: Ev, a: Arg) {
    !s.ready && a.n <= s.nbytes
  }

  /** The caller's buffer holds as many bytes as it says. */
  predicate GoodArg(a: Arg) {
    a.n > 0 && a.data.Some? ==> |a.data.value| == a.n
  }

  function Copied(s: Ev, a: Arg): seq<Byte>
    requires GoodArg(a) && a.n <= s.nbytes && |s.value| == s.nbytes
  {
    if a.n > 0 && a.data.Some? then a.data.value + s.value[a.n..] else s.value
  }

  /** The lock and the list, as a step of one thread changes them. */
  datatype Core = Core(slock: Option<Tid>, ready: bool, wl: seq<Tid>)

  function CoreOf(s: Ev): Core { Core(s.slock, s.ready, s.wl) }

  ghost predicate EvMove(s: Ev, t: Tid, p: Pos, x: Core, l: Place) {
    var c := CoreOf(s);
    var free := c.(slock := None);
    match At(s, t)
    case Away =>
      && x == c && l == PlaceOf(s, t)
      && (p == Waits(WWant) || (p.Sets? && p.g == SetWant && GoodArg(p.arg)) || p == Tests(Want) || p == Resets(Want))
    case Waits(w) =>
      (match w
       case WWant => s.slock == None && x == c.(slock := Some(t)) && l == PlaceOf(s, t) && p == Waits(WIn)
       case WIn => if s.ready then x == free && l == PlaceOf(s, t) && p == Away
                   else x == c.(wl := s.wl + [t]) && l == Listed && p == Waits(WQueued)
       case WQueued =>
         && l == PlaceOf(s, t)
         && if t in s.ext then x == free && p == Waits(WSleep) else x == c && p == Waits(WBlocked)
       case WBlocked => x == free && l == PlaceOf(s, t) && p == Waits(WSleep)
       case WSleep => false
       case WReady => x == c && l == PlaceOf(s, t) && p == Away)
    case Sets(a, g) =>
      && l == PlaceOf(s, t)
      && (match g
          case SetWant => s.slock == None && x == c.(slock := Some(t)) && p == Sets(a, SetIn)
          case SetIn => !Accepted(s, a) && x == free && p == Away
          case SetWake(ws) => ws == [] && x == c && p == Away)
    case Tests(at) =>
      && l == PlaceOf(s, t)
      && if at == Want then s.slock == None && x == c.(slock := Some(t)) && p == Tests(Within)
         else x == free && p == Away
    case Resets(at) =>
      && l == PlaceOf(s, t)
      && if at == Want then s.slock == None && x == c.(slock := Some(t)) && p == Resets(Within)
         else x == free.(ready := false) && p == Away
  }

  ghost predicate PlainStep(s: Ev, t: Tid, s': Ev) {
    exists p, x, l :: EvMove(s, t, p, x, l) &&
      s' == s.(slock := x.slock, ready := x.ready, wl := x.wl, place := s.place[t := l], pos := s.pos[t := p])
  }

  ghost predicate SetMove(s: Ev, t: Tid, a: Arg) {
    At(s, t) == Sets(a, SetIn) && Accepted(s, a) && GoodArg(a) && |s.value| == s.nbytes
  }

  /** A successful set: copy, publish, take the whole list. */
  ghost predicate SetStep(s: Ev, t: Tid, s': Ev) {
    exists a :: SetMove(s, t, a) &&
      s' == s.(slock := None, ready := true, value := Copied(s, a), wl := [],
               place := Assigned(s.place, s.wl, InHand(t)), pos := s.pos[t := Sets(a, SetWake(s.wl))])
  }

  ghost predicate WakesNext(p: Pos) {
    p.Sets? && p.g.SetWake? && p.g.ws != []
  }

  ghost predicate WakeStep(s: Ev, t: Tid, s': Ev) {
    && WakesNext(At(s, t))
    && var Sets(a, g) := At(s, t);
       var w := g.ws[0];
       if At(s, w) != Waits(WSleep) then s' == s.(failed := true)
       else s' == s.(place := s.place[w := Nowhere], pos := s.pos[t := Sets(a, SetWake(g.ws[1..]))][w := Waits(WReady)])
  }

  ghost predicate EvStep(s: Ev, t: Tid, s': Ev) {
    PlainStep(s, t, s') || SetStep(s, t, s') || WakeStep(s, t, s')
  }

  ghost predicate EvNext(s: Ev, s': Ev) {
    exists t: Tid :: EvStep(s, t, s')
  }

  ghost predicate Linked(r: seq<Ev>, i: nat) {
    i + 1 < |r| ==> EvNext(r[i], r[i + 1])
  }

  ghost predicate EvRun(r: seq<Ev>) {
    |r| > 0 && EvInit(r[0]) && forall i: nat :: Linked(r, i)
  }

  // ---- what every run keeps ----

  predicate Locked(p: Pos) {
    match p
    case Away => false
    case Waits(w) => w == WIn || w == WQueued || w == WBlocked
    case Sets(_, g) => g == SetIn
    case Tests(at) => at == Within
    case Resets(at) => at == Within
  }

  predicate PlaceOk(p: Pos, l: Place) {
    if p == Waits(WQueued) || p == Waits(WBlocked) then l == Listed
    else if p == Waits(WSleep) then l != Nowhere
    else l == Nowhere
  }

  predicate Hand(p: Pos, w: Tid) {
    p.Sets? && p.g.SetWake? && w in p.g.ws
  }

  ghost predicate LockInv(s: Ev) {
    forall t: Tid {:trigger At(s, t)} :: Locked(At(s, t)) <==> s.slock == Some(t)
  }

  ghost predicate PlaceInv(s: Ev) {
    && (forall t: Tid {:trigger At(s, t)} {:trigger PlaceOf(s, t)} :: PlaceOk(At(s, t), PlaceOf(s, t)))
    && Distinct(s.wl) && (forall w: Tid {:trigger PlaceOf(s, w)} :: w in s.wl <==> PlaceOf(s, w) == Listed)
    && (forall t: Tid, w: Tid {:trigger At(s, t), PlaceOf(s, w)} :: Hand(At(s, t), w) <==> PlaceOf(s, w) == InHand(t))
    && (forall t: Tid {:trigger At(s, t)} :: At(s, t).Sets? && At(s, t).g.SetWake? ==> Distinct(At(s, t).g.ws))
  }

  /** A queue forms only while the eventual is not ready. */
  ghost predicate ReadyInv(s: Ev) {
    && (s.ready ==> s.wl == []) && |s.value| == s.nbytes
    && forall t: Tid {:trigger At(s, t)} :: At(s, t).Sets? ==> GoodArg(At(s, t).arg)
  }

  ghost predicate EvInv(s: Ev) {
    LockInv(s) && PlaceInv(s) && ReadyInv(s) && !s.failed
  }

  ghost predicate Moved(s: Ev, t: Tid, p: Pos, l: Place, s': Ev) {
    && (forall u: Tid {:trigger At(s', u)} :: At(s', u) == if u == t then p else At(s, u))
    && (forall u: Tid {:trigger PlaceOf(s', u)} :: PlaceOf(s', u) == if u == t then l else PlaceOf(s, u))
  }

  lemma MoveFacts(s: Ev, t: Tid, p: Pos, x: Core, l: Place)
    requires EvMove(s, t, p, x, l) && (Locked(At(s, t)) <==> s.slock == Some(t)) && PlaceOk(At(s, t), PlaceOf(s, t))
    ensures Locked(p) <==> x.slock == Some(t)
    ensures x.slock == s.slock || x.slock == Some(t) || (x.slock == None && s.slock == Some(t))
    ensures x.slock == Some(t) ==> s.slock == Some(t) || s.slock == None
    ensures PlaceOk(p, l) && forall w: Tid :: !Hand(p, w) && !Hand(At(s, t), w)
    ensures !(p.Sets? && p.g.SetWake?)
    ensures (x.wl == s.wl && l == PlaceOf(s, t)) ||
            (x.wl == s.wl + [t] && l == Listed && PlaceOf(s, t) == Nowhere && !s.ready)
    ensures x.ready ==> s.ready
  {
  }

  lemma KeepPlain(s: Ev, t: Tid, s': Ev)
    requires EvInv(s) && PlainStep(s, t, s')
    ensures EvInv(s')
  {
    var p, x, l :| EvMove(s, t, p, x, l) &&
      s' == s.(slock := x.slock, ready := x.ready, wl := x.wl, place := s.place[t := l], pos := s.pos[t := p]);
    assert Moved(s, t, p, l, s');
    assert PlaceOk(At(s, t), PlaceOf(s, t)) && (Locked(At(s, t)) <==> s.slock == Some(t));
    MoveFacts(s, t, p, x, l);
    KeepLock(s, t, p, l, s');
    KeepPlaces(s, t, p, l, s');
    KeepArgs(s, t, p, x, l, s');
  }

  lemma KeepArgs(s: Ev, t: Tid, p: Pos, x: Core, l: Place, s': Ev)
    requires ReadyInv(s) && EvMove(s, t, p, x, l) && Moved(s, t, p, l, s')
    ensures forall u: Tid {:trigger At(s', u)} :: At(s', u).Sets? ==> GoodArg(At(s', u).arg)
  {
    assert At(s, t).Sets? ==> GoodArg(At(s, t).arg);
    forall u: Tid ensures At(s', u).Sets? ==> GoodArg(At(s', u).arg) {
      assert At(s, u).Sets? ==> GoodArg(At(s, u).arg);
    }
  }

  lemma KeepLock(s: Ev, t: Tid, p: Pos, l: Place, s': Ev)
    requires LockInv(s) && Moved(s, t, p, l, s') && (Locked(p) <==> s'.slock == Some(t))
    requires s'.slock == s.slock || s'.slock == Some(t) || (s'.slock == None && s.slock == Some(t))
    requires s'.slock == Some(t) ==> s.slock == Some(t) || s.slock == None
    ensures LockInv(s')
  {
  }

  lemma KeepPlaces(s: Ev, t: Tid, p: Pos, l: Place, s': Ev)
    requires PlaceInv(s) && Moved(s, t, p, l, s') && PlaceOk(p, l)
    requires forall w: Tid :: !Hand(p, w) && !Hand(At(s, t), w)
    requires !(p.Sets? && p.g.SetWake?)
    requires (s'.wl == s.wl && l == PlaceOf(s, t)) || (s'.wl == s.wl + [t] && l == Listed && PlaceOf(s, t) == Nowhere)
    ensures PlaceInv(s')
  {
    assert t in s.wl <==> PlaceOf(s, t) == Listed;
    forall u: Tid ensures PlaceOk(At(s', u), PlaceOf(s', u)) { assert PlaceOk(At(s, u), PlaceOf(s, u)); }
    forall w: Tid ensures w in s'.wl <==> PlaceOf(s', w) == Listed { assert w in s.wl <==> PlaceOf(s, w) == Listed; }
    forall u: Tid, w: Tid ensures Hand(At(s', u), w) <==> PlaceOf(s', w) == InHand(u) {
      assert Hand(At(s, u), w) <==> PlaceOf(s, w) == InHand(u);
    }
  }

  /** Whoever is on the list while another thread has the lock sleeps. */
  lemma ListSleeps(s: Ev, t: Tid, w: Tid)
    requires LockInv(s) && PlaceInv(s) && s.slock == Some(t) && !At(s, t).Waits? && w in s.wl
    ensures w != t && At(s, w) == Waits(WSleep) && PlaceOf(s, w) == Listed
  {
  }

  lemma SetPlaces(s: Ev, t: Tid, p: Pos, s': Ev)
    requires LockInv(s) && PlaceInv(s) && s.slock == Some(t) && At(s, t).Sets? && At(s, t).g == SetIn && s'.wl == []
    requires p.Sets? && p.g == SetWake(s.wl)
    requires forall u: Tid {:trigger At(s', u)} :: At(s', u) == if u == t then p else At(s, u)
    requires forall u: Tid {:trigger PlaceOf(s', u)} :: PlaceOf(s', u) == if u in s.wl then InHand(t) else PlaceOf(s, u)
    ensures PlaceInv(s')
  {
  }

  lemma KeepSet(s: Ev, t: Tid, s': Ev)
    requires EvInv(s) && SetStep(s, t, s')
    ensures EvInv(s')
  {
    var a :| SetMove(s, t, a) &&
      s' == s.(slock := None, ready := true, value := Copied(s, a), wl := [],
               place := Assigned(s.place, s.wl, InHand(t)), pos := s.pos[t := Sets(a, SetWake(s.wl))]);
    assert Locked(At(s, t)) <==> s.slock == Some(t);
    forall u: Tid ensures PlaceOf(s', u) == if u in s.wl then InHand(t) else PlaceOf(s, u) {
    }
    SetPlaces(s, t, Sets(a, SetWake(s.wl)), s');
    forall u: Tid ensures Locked(At(s', u)) <==> s'.slock == Some(u) {
      assert Locked(At(s, u)) <==> s.slock == Some(u);
    }
    forall u: Tid ensures At(s', u).Sets? ==> GoodArg(At(s', u).arg) {
      assert At(s, u).Sets? ==> GoodArg(At(s, u).arg);
    }
  }

  /** Every wake finds its thread asleep. */
  lemma WakeFinds(s: Ev, t: Tid)
    requires PlaceInv(s) && WakesNext(At(s, t))
    ensures var w := At(s, t).g.ws[0]; w != t && At(s, w) == Waits(WSleep) && PlaceOf(s, w) == InHand(t)
  {
  }

  lemma WakePlaces(s: Ev, t: Tid, w: Tid, p: Pos, s': Ev)
    requires PlaceInv(s) && WakesNext(At(s, t)) && w == At(s, t).g.ws[0] && s'.wl == s.wl
    requires w != t && At(s, w) == Waits(WSleep) && PlaceOf(s, w) == InHand(t)
    requires p.Sets? && p.g == SetWake(At(s, t).g.ws[1..])
    requires forall u: Tid {:trigger At(s', u)} ::
      At(s', u) == if u == w then Waits(WReady) else if u == t then p else At(s, u)
    requires forall u: Tid {:trigger PlaceOf(s', u)} :: PlaceOf(s', u) == if u == w then Nowhere else PlaceOf(s, u)
    ensures PlaceInv(s')
  {
    var ws := At(s, t).g.ws;
    assert ws == [w] + ws[1..] && Distinct(ws);
    forall u: Tid ensures PlaceOk(At(s', u), PlaceOf(s', u)) { assert PlaceOk(At(s, u), PlaceOf(s, u)); }
    forall x: Tid ensures x in s'.wl <==> PlaceOf(s', x) == Listed { assert x in s.wl <==> PlaceOf(s, x) == Listed; }
    forall u: Tid, x: Tid ensures Hand(At(s', u), x) <==> PlaceOf(s', x) == InHand(u) {
      assert Hand(At(s, u), x) <==> PlaceOf(s, x) == InHand(u);
    }
    forall u: Tid ensures At(s', u).Sets? && At(s', u).g.SetWake? ==> Distinct(At(s', u).g.ws) {
      assert At(s, u).Sets? && At(s, u).g.SetWake? ==> Distinct(At(s, u).g.ws);
    }
  }

  lemma KeepWake(s: Ev, t: Tid, s': Ev)
    requires EvInv(s) && WakeStep(s, t, s')
    ensures EvInv(s')
  {
    WakeFinds(s, t);
    WakePlaces(s, t, At(s, t).g.ws[0], At(s', t), s');
    forall u: Tid ensures Locked(At(s', u)) <==> s'.slock == Some(u) {
      assert Locked(At(s, u)) <==> s.slock == Some(u);
    }
    forall u: Tid ensures At(s', u).Sets? ==> GoodArg(At(s', u).arg) {
      assert At(s, u).Sets? ==> GoodArg(At(s, u).arg);
    }
  }

  lemma EvStart(s: Ev)
    requires EvInit(s)
    ensures EvInv(s)
  {
  }

  lemma {:induction false} EvRunInv(r: seq<Ev>, n: nat)
    requires EvRun(r) && n < |r|
    ensures EvInv(r[n])
  {
    if n == 0 {
      EvStart(r[0]);
    } else {
      EvRunInv(r, n - 1);
      assert Linked(r, n - 1);
      EvKeeps(r[n - 1], r[n]);
    }
  }

  lemma EvKeeps(s: Ev, s': Ev)
    requires EvInv(s) && EvNext(s, s')
    ensures EvInv(s')
  {
    var t: Tid :| EvStep(s, t, s');
    if PlainStep(s, t, s') {
      KeepPlain(s, t, s');
    } else if SetStep(s, t, s') {
      KeepSet(s, t, s');
    } else {
      KeepWake(s, t, s');
    }
  }

  // ---- what programs rely on ----

  /** Nobody is queued on a ready eventual; a waiter on the list of an unlocked
      eventual sleeps; no wake ever failed. */
  lemma ReadyMeansDrained(r: seq<Ev>, n: nat)
    requires EvRun(r) && n < |r|
    ensures r[n].ready ==> r[n].wl == []
    ensures r[n].slock == None ==> forall w: Tid :: w in r[n].wl ==> At(r[n], w) == Waits(WSleep)
    ensures !r[n].failed
  {
    EvRunInv(r, n);
    var s := r[n];
    if s.slock == None {
      forall w: Tid | w in s.wl ensures At(s, w) == Waits(WSleep) {
        assert w in s.wl <==> PlaceOf(s, w) == Listed;
        assert PlaceOk(At(s, w), PlaceOf(s, w));
        assert Locked(At(s, w)) <==> s.slock == Some(w);
      }
    }
  }

  /** A set is rejected, returning at once, exactly on a ready eventual or for too
      many bytes, and then changes neither value, readiness nor list. */
  ghost predicate SetOutcome(s: Ev, t: Tid, s': Ev) {
    At(s, t).Sets? && At(s, t).g == SetIn && At(s', t) != At(s, t) ==>
      if s.ready || At(s, t).arg.n > s.nbytes
      then At(s', t) == Away && s'.value == s.value && s'.ready == s.ready && s'.wl == s.wl
      else At(s', t).Sets? && At(s', t).g == SetWake(s.wl)
  }

  /** The value changes only in a successful set, which needs an eventual that is
      not ready; only a reset makes it so; a rejected set changes nothing. */
  lemma ValueStep(s: Ev, s': Ev)
    requires EvInv(s) && EvNext(s, s')
    ensures forall t: Tid :: SetOutcome(s, t, s')
    ensures s.ready ==> s'.value == s.value
    ensures s'.value != s.value || (s'.ready && !s.ready) ==> !s.ready && s'.ready && exists t: Tid :: SetStep(s, t, s')
    ensures s.ready && !s'.ready ==> exists t: Tid :: At(s, t) == Resets(Within) && At(s', t) == Away
  {
  }

  /** From a successful set until a reset, the value stays what was set. */
  lemma {:induction false} ValueHeld(r: seq<Ev>, i: nat, j: nat)
    requires EvRun(r) && i <= j < |r|
    requires forall k :: i <= k < j ==> r[k].ready
    ensures r[j].value == r[i].value
  {
    if i < j {
      ValueHeld(r, i, j - 1);
      EvRunInv(r, j - 1);
      assert Linked(r, j - 1);
      ValueStep(r[j - 1], r[j]);
    }
  }

  /** A set leaves the first bytes given, the rest of the buffer as it was, and
      takes exactly the waiters queued at that moment, in order. */
  lemma SetTakesAll(s: Ev, t: Tid, s': Ev)
    requires EvInv(s) && SetStep(s, t, s')
    ensures var a := At(s, t).arg;
            && s'.ready && |s'.value| == s.nbytes
            && if a.n > 0 && a.data.Some? then s'.value[..a.n] == a.data.value && s'.value[a.n..] == s.value[a.n..]
               else s'.value == s.value
    ensures s'.wl == [] && At(s', t).Sets? && At(s', t).g == SetWake(s.wl)
    ensures forall w: Tid :: w in s.wl ==> At(s', w) == Waits(WSleep) && PlaceOf(s', w) == InHand(t)
  {
    assert Locked(At(s, t)) <==> s.slock == Some(t);
    forall w: Tid | w in s.wl ensures At(s', w) == Waits(WSleep) && PlaceOf(s', w) == InHand(t) {
      ListSleeps(s, t, w);
    }
  }

  /** A waiter taken by a set leaves its sleep by that setter's wake, once. */
  lemma WokenBySetter(r: seq<Ev>, n: nat, w: Tid)
    requires EvRun(r) && n + 1 < |r| && At(r[n], w) == Waits(WSleep) && At(r[n + 1], w) != At(r[n], w)
    ensures exists t: Tid :: Hand(At(r[n], t), w) && !Hand(At(r[n + 1], t), w) && PlaceOf(r[n], w) == InHand(t)
    ensures At(r[n + 1], w) == Waits(WReady) && PlaceOf(r[n + 1], w) == Nowhere
  {
    EvRunInv(r, n);
    EvRunInv(r, n + 1);
    assert Linked(r, n);
    var t: Tid :| EvStep(r[n], t, r[n + 1]);
    if WakeStep(r[n], t, r[n + 1]) {
      WakeFinds(r[n], t);
      assert Hand(At(r[n], t), w) <==> PlaceOf(r[n], w) == InHand(t);
      assert Hand(At(r[n + 1], t), w) <==> PlaceOf(r[n + 1], w) == InHand(t);
    }
  }

  // ---- when a wait returns ----

  /** Setter `u` takes `t` off the list and makes the eventual ready. */
  ghost predicate TakesOff(s: Ev, u: Tid, t: Tid, s': Ev) {
    SetStep(s, u, s') && t in s.wl && t !in s'.wl && !s.ready && s'.ready
  }

  /** Taken by `u` in step `m`, `t` sleeps in its hands up to state `n`. */
  ghost predicate HeldSince(r: seq<Ev>, m: nat, n: nat, u: Tid, t: Tid) {
    && m < n < |r| && TakesOff(r[m], u, t, r[m + 1])
    && forall s :: s in r[m + 1..n + 1] ==> At(s, t) == Waits(WSleep) && PlaceOf(s, t) == InHand(u)
  }

  /** Taken by `u` in step `m` and woken by it in step `w`, `t` is awake in the same
      wait at state `n`. */
  ghost predicate WokenAt(r: seq<Ev>, m: nat, w: nat, n: nat, u: Tid, t: Tid) {
    && w < n < |r| && HeldSince(r, m, w, u, t) && Hand(At(r[w], u), t) && !Hand(At(r[w + 1], u), t)
    && ReadyThrough(r, w + 1, n, t)
  }

  ghost predicate ReadyThrough(r: seq<Ev>, i: nat, n: nat, t: Tid) {
    i <= n < |r| && forall s :: s in r[i..n + 1] ==> At(s, t) == Waits(WReady)
  }

  lemma StillReady(r: seq<Ev>, i: nat, n: nat, t: Tid)
    requires ReadyThrough(r, i, n, t) && n + 1 < |r| && At(r[n + 1], t) == Waits(WReady)
    ensures ReadyThrough(r, i, n + 1, t)
  {
    assert r[i..n + 2] == r[i..n + 1] + [r[n + 1]];
  }

  /** A step that puts `t` in the hands of `u`. */
  lemma NewlyHeld(s: Ev, s': Ev, u: Tid, t: Tid)
    requires EvInv(s) && EvNext(s, s') && PlaceOf(s', t) == InHand(u) && PlaceOf(s, t) != InHand(u)
    ensures TakesOff(s, u, t, s')
  {
    var x: Tid :| EvStep(s, x, s');
    assert SetStep(s, x, s');
  }

  lemma {:induction false} Held(r: seq<Ev>, n: nat, u: Tid, t: Tid)
    requires EvRun(r) && n < |r| && PlaceOf(r[n], t) == InHand(u)
    ensures exists m: nat :: HeldSince(r, m, n, u, t)
  {
    EvRunInv(r, n);
    assert PlaceOk(At(r[n], t), PlaceOf(r[n], t));
    if n > 0 {
      EvRunInv(r, n - 1);
      assert Linked(r, n - 1);
      if PlaceOf(r[n - 1], t) == InHand(u) {
        Held(r, n - 1, u, t);
        var m: nat :| HeldSince(r, m, n - 1, u, t);
        StillHeld(r, m, n - 1, u, t);
      } else {
        NewlyHeld(r[n - 1], r[n], u, t);
        assert r[n..n + 1] == [r[n]];
        assert HeldSince(r, n - 1, n, u, t);
      }
    }
  }

  lemma StillHeld(r: seq<Ev>, m: nat, n: nat, u: Tid, t: Tid)
    requires HeldSince(r, m, n, u, t) && n + 1 < |r|
    requires At(r[n + 1], t) == Waits(WSleep) && PlaceOf(r[n + 1], t) == InHand(u)
    ensures HeldSince(r, m, n + 1, u, t)
  {
    assert r[m + 1..n + 2] == r[m + 1..n + 1] + [r[n + 1]];
  }

  ghost predicate WasWoken(r: seq<Ev>, n: nat, t: Tid) {
    exists m: nat, w: nat, u: Tid :: WokenAt(r, m, w, n, u, t)
  }

  lemma JustWoken(r: seq<Ev>, n: nat, t: Tid)
    requires EvRun(r) && n + 1 < |r| && At(r[n + 1], t) == Waits(WReady) && At(r[n], t) == Waits(WSleep)
    ensures WasWoken(r, n + 1, t)
  {
    WokenBySetter(r, n, t);
    var u: Tid :| Hand(At(r[n], u), t) && !Hand(At(r[n + 1], u), t) && PlaceOf(r[n], t) == InHand(u);
    Held(r, n, u, t);
    var m: nat :| HeldSince(r, m, n, u, t);
    assert r[n + 1..n + 2] == [r[n + 1]];
    assert WokenAt(r, m, n, n + 1, u, t);
  }

  lemma StillWoken(r: seq<Ev>, n: nat, t: Tid)
    requires WasWoken(r, n, t) && n + 1 < |r| && At(r[n + 1], t) == Waits(WReady)
    ensures WasWoken(r, n + 1, t)
  {
    var m: nat, w: nat, u: Tid :| WokenAt(r, m, w, n, u, t);
    StillReady(r, w + 1, n, t);
    assert WokenAt(r, m, w, n + 1, u, t);
  }

  lemma ReadyBefore(s: Ev, s': Ev, t: Tid)
    requires EvInv(s) && EvNext(s, s') && At(s', t) == Waits(WReady)
    ensures At(s, t) == Waits(WReady) || At(s, t) == Waits(WSleep)
  {
    var x: Tid :| EvStep(s, x, s');
    if WakeStep(s, x, s') { WakeFinds(s, x); }
  }

  lemma {:induction false} Woken(r: seq<Ev>, n: nat, t: Tid)
    requires EvRun(r) && n < |r| && At(r[n], t) == Waits(WReady)
    ensures WasWoken(r, n, t)
  {
    if n > 0 {
      EvRunInv(r, n - 1);
      assert Linked(r, n - 1);
      ReadyBefore(r[n - 1], r[n], t);
      if At(r[n - 1], t) == Waits(WReady) {
        Woken(r, n - 1, t);
        StillWoken(r, n - 1, t);
      } else {
        JustWoken(r, n - 1, t);
      }
    }
  }

  lemma Returns(s: Ev, s': Ev, t: Tid)
    requires EvInv(s) && EvNext(s, s') && At(s, t).Waits? && At(s', t) == Away
    ensures At(s, t) == Waits(WReady) || (s.ready && s.slock == Some(t))
  {
    assert Locked(At(s, t)) <==> s.slock == Some(t);
    var x: Tid :| EvStep(s, x, s');
    if WakeStep(s, x, s') { WakeFinds(s, x); }
  }

  /** A wait returns only from an eventual that is ready while the caller has its
      spinlock, or after a set made it ready, took the caller off the list and woke
      it, all during this wait. */
  lemma ReturnsReady(r: seq<Ev>, n: nat, t: Tid)
    requires EvRun(r) && n + 1 < |r| && At(r[n], t).Waits? && At(r[n + 1], t) == Away
    ensures (r[n].ready && r[n].slock == Some(t)) || WasWoken(r, n, t)
  {
    EvRunInv(r, n);
    assert Linked(r, n);
    Returns(r[n], r[n + 1], t);
    if At(r[n], t) == Waits(WReady) { Woken(r, n, t); }
  }

  /** The call has not had the spinlock yet. */
  predicate Unserved(p: Pos) {
    match p
    case Away => false
    case Waits(w) => w == WWant
    case Sets(_, g) => g == SetWant
    case Tests(at) => at == Want
    case Resets(at) => at == Want
  }

  /** How calls end. No call returns without having had the spinlock; a wait asks for
      it once and never starts over, and only a ULT is BLOCKED before it gives the
      spinlock back; a reset that returns leaves the eventual not ready, with its value
      and its list; a test that returns changes nothing but the spinlock. */
  lemma CallsEnd(r: seq<Ev>, n: nat, t: Tid)
    requires EvRun(r) && n + 1 < |r| && At(r[n + 1], t) != At(r[n], t)
    ensures At(r[n + 1], t) == Away ==> !Unserved(At(r[n], t))
    ensures At(r[n], t).Waits? ==> At(r[n + 1], t) != Waits(WWant)
    ensures At(r[n + 1], t) == Waits(WBlocked) ==> t !in r[n].ext
    ensures At(r[n], t) == Waits(WQueued) && At(r[n + 1], t) == Waits(WSleep) ==> t in r[n].ext
    ensures At(r[n], t) == Resets(Within) ==>
              At(r[n + 1], t) == Away && !r[n + 1].ready && r[n + 1].value == r[n].value && r[n + 1].wl == r[n].wl
    ensures At(r[n], t) == Tests(Within) ==>
              At(r[n + 1], t) == Away && r[n + 1] == r[n].(slock := None, place := r[n + 1].place, pos := r[n + 1].pos)
  {
    EvRunInv(r, n);
    assert Linked(r, n);
    CallStep(r[n], r[n + 1], t);
  }

  lemma CallStep(s: Ev, s': Ev, t: Tid)
    requires EvInv(s) && EvNext(s, s') && At(s', t) != At(s, t)
    ensures At(s', t) == Away ==> !Unserved(At(s, t))
    ensures At(s, t).Waits? ==> At(s', t) != Waits(WWant)
    ensures At(s', t) == Waits(WBlocked) ==> t !in s.ext
    ensures At(s, t) == Waits(WQueued) && At(s', t) == Waits(WSleep) ==> t in s.ext
    ensures At(s, t) == Resets(Within) ==> At(s', t) == Away && !s'.ready && s'.value == s.value && s'.wl == s.wl
    ensures At(s, t) == Tests(Within) ==>
              At(s', t) == Away && s' == s.(slock := None, place := s'.place, pos := s'.pos)
  {
    var x: Tid :| EvStep(s, x, s');
    if WakeStep(s, x, s') {
      WakeFinds(s, x);
    } else if PlainStep(s, x, s') {
      PlainCall(s, x, s', t);
    }
  }

  lemma PlainCall(s: Ev, x: Tid, s': Ev, t: Tid)
    requires PlainStep(s, x, s') && At(s', t) != At(s, t)
    ensures At(s', t) == Away ==> !Unserved(At(s, t))
    ensures At(s, t).Waits? ==> At(s', t) != Waits(WWant)
    ensures At(s', t) == Waits(WBlocked) ==> t !in s.ext
    ensures At(s, t) == Waits(WQueued) && At(s', t) == Waits(WSleep) ==> t in s.ext
    ensures At(s, t) == Resets(Within) ==> At(s', t) == Away && !s'.ready && s'.value == s.value && s'.wl == s.wl
    ensures At(s, t) == Tests(Within) ==>
              At(s', t) == Away && s' == s.(slock := None, place := s'.place, pos := s'.pos)
  {
    var p, c, l :| EvMove(s, x, p, c, l) &&
      s' == s.(slock := c.slock, ready := c.ready, wl := c.wl, place := s.place[x := l], pos := s.pos[x := p]);
    assert x == t;
  }

  // ---- who is woken first ----

  ghost function Lists(r: seq<Ev>): seq<seq<Tid>> {
    seq(|r|, k requires 0 <= k < |r| => r[k].wl)
  }

  lemma ListStep(s: Ev, s': Ev)
    requires EvNext(s, s')
    ensures QueueStep(s.wl, s'.wl)
  {
    if s'.wl == [] {
      assert s'.wl == s.wl[|s.wl|..];
    } else if s'.wl == s.wl {
      assert s'.wl == s.wl[0..];
    }
  }

  lemma ListAt(r: seq<Ev>, n: nat)
    requires EvRun(r) && n + 1 < |r|
    ensures QueueStep(r[n].wl, r[n + 1].wl)
  {
    assert Linked(r, n);
    ListStep(r[n], r[n + 1]);
  }

  lemma ListDistinct(r: seq<Ev>, n: nat)
    requires EvRun(r) && n < |r|
    ensures Distinct(r[n].wl)
  {
    EvRunInv(r, n);
  }

  /** Waiters are taken, and so woken, in the order in which they enlisted. */
  lemma EnlistedFirst(r: seq<Ev>, i: nat, n: nat, u: Tid, v: Tid)
    requires EvRun(r) && JoinedFirst(Lists(r), i, n, u, v)
    ensures Ahead(r[n].wl, u, v)
  {
    var h := Lists(r);
    forall k: nat ensures Served(h, k) {
      if k + 1 < |h| { ListAt(r, k); }
    }
    forall k: nat | k < |h| ensures Distinct(h[k]) {
      ListDistinct(r, k);
    }
    AheadOverTime(h, i, n, u, v);
  }
}
