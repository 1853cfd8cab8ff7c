/**
 Direct switching chooses what the plain scheduler loop chooses: after every unit
 the loop restarts at the first pool, and takes the head of the first pool it
 finds non-empty. Pools count the parked unit as head of its own pool, and a
 yielding ULT as tail of the pool it goes back to.
 */
module DirectPlain {
  import opened Basics
  import opened DirectSwitch

  /** The plain loop: the pools, the yielding ULT whose push is under way (at the
      tail of pool `at`), the next pool to look at, and the unit running. */
  datatype Plain = Plain(view: seq<seq<Unit>>, coming: Option<Unit>, at: nat, scan: nat, running: Option<Unit>)

  /** An outside push: behind everything but a push under way. */
  ghost predicate PlainPush(p: Plain, i: nat, u: Unit, p': Plain) {
    && i < |p.view| && (p.coming.Some? && p.at == i ==> p.view[i] != [])
    && p' == p.(view := p.view[i := if p.coming.Some? && p.at == i
                                    then p.view[i][..|p.view[i]| - 1] + [u] + p.view[i][|p.view[i]| - 1..]
                                    else p.view[i] + [u]])
  }

  /** The pool under the scan is empty: on to the next. */
  ghost predicate PlainLook(p: Plain, p': Plain) {
    p.running == None && p.scan < |p.view| && p.view[p.scan] == [] && p' == p.(scan := p.scan + 1)
  }

  ghost predicate PlainRestart(p: Plain, p': Plain) {
    p.running == None && p' == p.(scan := 0)
  }

  /** The head of the pool under the scan runs, unless its push is under way. */
  ghost predicate PlainRun(p: Plain, p': Plain) {
    && p.running == None && p.scan < |p.view| && p.view[p.scan] != []
    && !(p.coming.Some? && p.at == p.scan && |p.view[p.scan]| == 1)
    && p' == p.(view := p.view[p.scan := p.view[p.scan][1..]], running := Some(p.view[p.scan][0]), scan := 0)
  }

  /** The running unit gives the PE back; a yielding one joins the tail of pool `i`. */
  ghost predicate PlainStop(p: Plain, again: bool, i: nat, p': Plain) {
    && p.running.Some? && p.coming == None
    && p' == if again && i < |p.view|
             then Plain(p.view[i := p.view[i] + [p.running.value]], Some(p.running.value), i, 0, None)
             else p.(scan := 0, running := None)
  }

  /** The push under way is done. */
  ghost predicate PlainSettle(p: Plain, p': Plain) {
    p' == p.(coming := None, at := 0)
  }

  ghost predicate PlainStep(p: Plain, p': Plain) {
    || p' == p || PlainLook(p, p') || PlainRestart(p, p') || PlainRun(p, p') || PlainSettle(p, p')
    || (exists i, u :: PlainPush(p, i, u, p')) || (exists again, i :: PlainStop(p, again, i, p'))
  }

  // ---- what the direct machine looks like ----

  /** The yielding ULT whose push back is under way. */
  function Pending(s: PE): Option<Susp> {
    match s.pc
    case Choose(x) => if x.isYield && x.li < |s.pools| then Some(x) else None
    case ChooseScan(x, _) => if x.isYield && x.li < |s.pools| then Some(x) else None
    case Land(x, _) => if x.isYield && x.li < |s.pools| then Some(x) else None
    case _ => None
  }

  function View(s: PE, j: nat): seq<Unit>
    requires j < |s.pools|
  {
    (if s.held.Some? && s.hp == j then [s.held.value] else []) + s.pools[j] +
    (if Pending(s).Some? && Pending(s).value.li == j then [Pending(s).value.me] else [])
  }

  function Scan(s: PE): nat {
    match s.pc
    case PollScan(i, _) => i
    case ChooseScan(x, i) => if Pending(s).Some? && x.li < i then x.li else i
    case _ => 0
  }

  function Running(s: PE): Option<Unit> {
    match s.pc
    case Run(u) => Some(u)
    case Land(_, ToUnit(t)) => Some(t)
    case _ => None
  }

  function Abs(s: PE): Plain {
    Plain(seq(|s.pools|, j requires 0 <= j < |s.pools| => View(s, j)),
          if Pending(s).Some? then Some(Pending(s).value.me) else None,
          if Pending(s).Some? then Pending(s).value.li else 0, Scan(s), Running(s))
  }

  /** The ULT does not go back to a pool above its own: no migration to a pool of
      higher priority takes effect with this yield. */
  predicate Tame(x: Susp, n: nat) {
    x.isYield && x.li < n ==> x.mi <= x.li || n - 1 <= x.li
  }

  // ---- each step of the direct machine is a step of the plain loop, or none ----

  /** Two machines with the same pools in view. */
  lemma SameView(s: PE, s': PE)
    requires |s'.pools| == |s.pools| && forall j: nat :: j < |s.pools| ==> View(s', j) == View(s, j)
    ensures Abs(s').view == Abs(s).view
  {
  }

  /** The pools in view differ in pool `i` only. */
  lemma OneView(s: PE, i: nat, q: seq<Unit>, s': PE)
    requires |s'.pools| == |s.pools| && i < |s.pools| && View(s', i) == q
    requires forall j: nat :: j < |s.pools| && j != i ==> View(s', j) == View(s, j)
    ensures Abs(s').view == Abs(s).view[i := q]
  {
  }

  lemma SimDispatch(s: PE, s': PE)
    requires ChainInv(s) && PollStep(s, s') && s'.pc.Run?
    ensures PlainRun(Abs(s), Abs(s'))
  {
    OneView(s, s.pc.i, View(s, s.pc.i)[1..], s');
  }

  lemma SimPollScan(s: PE, s': PE)
    requires ChainInv(s) && PollStep(s, s') && s.pc.PollScan? && !s'.pc.Run?
    ensures PlainLook(Abs(s), Abs(s')) || PlainRestart(Abs(s), Abs(s'))
  {
    SameView(s, s');
  }

  lemma SimPoll(s: PE, s': PE)
    requires ChainInv(s) && PollStep(s, s')
    ensures PlainStep(Abs(s), Abs(s'))
  {
    if s'.pc.Run? {
      SimDispatch(s, s');
    } else if s.pc.PollScan? {
      SimPollScan(s, s');
    } else {
      SameView(s, s');
    }
  }

  lemma SimHook(s: PE, s': PE)
    requires ChainInv(s) && HookStep(s, s')
    ensures PlainStep(Abs(s), Abs(s'))
  {
    if s'.pc.Run? {
      OneView(s, 0, View(s, 0)[1..], s');
      assert PlainRun(Abs(s), Abs(s'));
    } else {
      SameView(s, s');
    }
  }

  lemma SimStop(s: PE, x: Susp, s': PE)
    requires StopStep(s, x, s')
    ensures PlainStep(Abs(s), Abs(s'))
  {
    if x.isYield && x.li < |s.pools| {
      OneView(s, x.li, View(s, x.li) + [x.me], s');
    } else {
      SameView(s, s');
    }
    assert PlainStop(Abs(s), x.isYield, x.li, Abs(s'));
  }

  lemma SimDirect(s: PE, s': PE)
    requires ChainInv(s) && ChooseStep(s, s') && Switches(s, s') && Tame(s.pc.x, |s.pools|)
    ensures PlainRun(Abs(s), Abs(s'))
  {
    var i := s.pc.i;
    OneView(s, i, View(s, i)[1..], s');
  }

  lemma SimScan(s: PE, s': PE)
    requires ChainInv(s) && ChooseStep(s, s') && s.pc.ChooseScan? && s'.pc.ChooseScan?
    ensures PlainStep(Abs(s), Abs(s'))
  {
    SameView(s, s');
    assert Scan(s') != Scan(s) ==> PlainLook(Abs(s), Abs(s'));
  }

  lemma SimChoose(s: PE, s': PE)
    requires ChainInv(s) && ChooseStep(s, s') && !Switches(s, s')
    ensures PlainStep(Abs(s), Abs(s'))
  {
    if s.pc.ChooseScan? && s'.pc.ChooseScan? {
      SimScan(s, s');
    } else {
      SameView(s, s');
      assert PlainRestart(Abs(s), Abs(s'));
    }
  }

  lemma SimLand(s: PE, s': PE)
    requires ChainInv(s) && LandStep(s, s')
    ensures PlainStep(Abs(s), Abs(s'))
  {
    SameView(s, s');
    assert PlainSettle(Abs(s), Abs(s'));
  }

  lemma SimPush(s: PE, i: nat, u: Unit, s': PE)
    requires ChainInv(s) && PushStep(s, i, u, s')
    ensures PlainStep(Abs(s), Abs(s'))
  {
    var q := if Pending(s).Some? && Pending(s).value.li == i
             then View(s, i)[..|View(s, i)| - 1] + [u] + View(s, i)[|View(s, i)| - 1..]
             else View(s, i) + [u];
    OneView(s, i, q, s');
    assert PlainPush(Abs(s), i, u, Abs(s'));
  }

  ghost predicate TameAt(s: PE) {
    s.pc.ChooseScan? ==> Tame(s.pc.x, |s.pools|)
  }

  lemma SimStep(s: PE, s': PE)
    requires ChainInv(s) && TameAt(s) && Next(s, s')
    ensures PlainStep(Abs(s), Abs(s'))
  {
    if PollStep(s, s') {
      SimPoll(s, s');
    } else if HookStep(s, s') {
      SimHook(s, s');
    } else if ChooseStep(s, s') {
      if Switches(s, s') { SimDirect(s, s'); } else { SimChoose(s, s'); }
    } else if LandStep(s, s') {
      SimLand(s, s');
    } else if x :| StopStep(s, x, s') {
      SimStop(s, x, s');
    } else {
      var i, u :| PushStep(s, i, u, s');
      SimPush(s, i, u, s');
    }
  }

  // ---- main results ----

  /** Direct switching refines the plain loop, whatever is pushed meanwhile and
      however stale the yielding flag is. */
  lemma RefinesPlain(r: seq<PE>, n: nat)
    requires RunOf(r) && n + 1 < |r| && TameAt(r[n])
    ensures PlainStep(Abs(r[n]), Abs(r[n + 1]))
  {
    ChainRun(r, n);
    StepOf(r, n + 1);
    SimStep(r[n], r[n + 1]);
  }

  /** Pool `j` was seen empty at state `m`, since when the scan has been past it. */
  ghost predicate SeenEmpty(r: seq<PE>, n: nat, j: nat, m: nat) {
    && m < n < |r| && j < |r[m].pools| && View(r[m], j) == []
    && forall k :: m < k <= n ==> Scan(r[k]) > j
  }

  ghost predicate WasEmpty(r: seq<PE>, n: nat, j: nat) {
    exists m: nat :: SeenEmpty(r, n, j, m)
  }

  lemma {:induction false} Seen(r: seq<PE>, n: nat, j: nat)
    requires RunOf(r) && n < |r| && j < Scan(r[n]) && forall k :: 0 <= k < n ==> TameAt(r[k])
    ensures WasEmpty(r, n, j)
  {
    if n > 0 {
      RefinesPlain(r, n - 1);
      if Scan(r[n - 1]) > j {
        Seen(r, n - 1, j);
        var m: nat :| SeenEmpty(r, n - 1, j, m);
        assert SeenEmpty(r, n, j, m);
      } else {
        assert SeenEmpty(r, n, j, n - 1);
      }
    }
  }

  /** Every dispatched unit is the head of the first non-empty pool: each pool
      above it was seen empty in the scan that found it. */
  lemma FirstNonEmpty(r: seq<PE>, n: nat, t: Unit)
    requires RunOf(r) && n + 1 < |r| && forall k :: 0 <= k <= n ==> TameAt(r[k])
    requires Running(r[n]) == None && Running(r[n + 1]) == Some(t)
    ensures Scan(r[n]) < |r[n].pools| && View(r[n], Scan(r[n])) != [] && View(r[n], Scan(r[n]))[0] == t
    ensures forall j: nat :: j < Scan(r[n]) ==> WasEmpty(r, n, j)
  {
    RefinesPlain(r, n);
    assert PlainRun(Abs(r[n]), Abs(r[n + 1]));
    forall j: nat | j < Scan(r[n]) ensures WasEmpty(r, n, j) {
      Seen(r, n, j);
    }
  }

  // ---- exactly the tame yields ----

  /** The pool a wild yield is served from: the last one the choice does not park. */
  function Found(x: Susp, n: nat): nat
    requires n > 0
  {
    if x.mi < n then x.mi else n - 1
  }

  /** Pools that are empty but for `q` in pool `i`. */
  function One(n: nat, i: nat, q: seq<Unit>): seq<seq<Unit>> {
    seq(n, j => if j == i then q else [])
  }

  /** State `k` of a run in which the ULT `x.me`, queued in pool `i` with another one
      behind it, is dispatched and yields as `x`. */
  function Wild(x: Susp, n: nat, i: nat, k: nat): PE {
    var t := x.me + 1;
    var s := PE(1, false, {x.me, t}, One(n, i, [x.me, t]), None, 0, 0, 0, false, 0, 0, Poll);
    var run := s.(pools := One(n, i, [t]), pc := Run(x.me));
    if k == 0 then s
    else if k < i + 2 then s.(pc := PollScan(k - 1, n))
    else if k == i + 2 then run
    else if k == i + 3 then run.(pc := Choose(x))
    else if k < 2 * i + 5 then run.(pc := ChooseScan(x, k - i - 4))
    else run.(pools := One(n, i, []), count := 1, made := 1, pc := Land(x, ToUnit(t)))
  }

  function WildRun(x: Susp, n: nat, i: nat): seq<PE> {
    seq(2 * i + 6, k requires k >= 0 => Wild(x, n, i, k))
  }

  lemma WildPops(x: Susp, n: nat, i: nat)
    requires i < n
    ensures var t := x.me + 1; Pop(One(n, i, [x.me, t]), i) == One(n, i, [t]) && Pop(One(n, i, [t]), i) == One(n, i, [])
  {
    assert [x.me, x.me + 1][1..] == [x.me + 1] && [x.me + 1][1..] == [];
  }

  lemma WildPolls(x: Susp, n: nat, i: nat, k: nat)
    requires i < n && k < i + 2
    ensures PollStep(Wild(x, n, i, k), Wild(x, n, i, k + 1))
  {
    WildPops(x, n, i);
  }

  lemma WildChooses(x: Susp, n: nat, i: nat, k: nat)
    requires x.isYield && x.flag && i < n && i <= x.mi && i + 3 <= k < 2 * i + 5
    ensures ChooseStep(Wild(x, n, i, k), Wild(x, n, i, k + 1))
  {
    WildPops(x, n, i);
  }

  lemma WildStep(x: Susp, n: nat, i: nat, k: nat)
    requires x.isYield && x.flag && i < n && i <= x.mi && k < 2 * i + 5
    ensures Next(Wild(x, n, i, k), Wild(x, n, i, k + 1))
  {
    if k < i + 2 {
      WildPolls(x, n, i, k);
    } else if k == i + 2 {
      assert StopStep(Wild(x, n, i, k), x, Wild(x, n, i, k + 1));
    } else {
      WildChooses(x, n, i, k);
    }
  }

  lemma WildRuns(x: Susp, n: nat, i: nat)
    requires x.isYield && x.flag && i < n && i <= x.mi
    ensures RunOf(WildRun(x, n, i))
  {
    var r := WildRun(x, n, i);
    forall k: nat ensures Linked(r, k) {
      if k + 1 < |r| { WildStep(x, n, i, k); }
    }
  }

  /** The plain loop would have found the yielding ULT before pool `i`. */
  lemma WildView(x: Susp, n: nat, i: nat)
    requires x.isYield && x.flag && x.li < i < n
    ensures !PlainStep(Abs(Wild(x, n, i, 2 * i + 4)), Abs(Wild(x, n, i, 2 * i + 5)))
  {
    var s := Wild(x, n, i, 2 * i + 4);
    assert View(s, x.li) == [x.me];
    assert Abs(s).view[x.li][0] == x.me && Abs(s).scan == x.li;
  }

  /** The step from `s` to `s'` is a direct switch in yield `x` over `n` pools that the
      plain loop does not allow. */
  ghost predicate Differs(s: PE, s': PE, x: Susp, n: nat) {
    s.pc.ChooseScan? && s.pc.x == x && |s.pools| == n && Switches(s, s') && !PlainStep(Abs(s), Abs(s'))
  }

  /** In run `r`, whose units are of the pools they are queued in, the ULT of yield `x`
      is dispatched from its own pool, if the scheduler has it, and switches so. */
  ghost predicate DiffersIn(r: seq<PE>, x: Susp, n: nat) {
    && RunOf(r) && |r| > 1 && Differs(r[|r| - 2], r[|r| - 1], x, n)
    && (x.mi < n ==> x.mi < |r[0].pools| && r[0].pools[x.mi] != [] && r[0].pools[x.mi][0] == x.me)
  }

  /** For any other yield there is a run in which it switches to a unit that the plain
      loop would not have chosen, since it would have found the yielding ULT first. */
  lemma WildDiffers(x: Susp, n: nat)
    requires x.isYield && x.flag && x.li < n && !Tame(x, n)
    ensures exists r: seq<PE> :: DiffersIn(r, x, n)
  {
    var i := Found(x, n);
    var r := WildRun(x, n, i);
    WildRuns(x, n, i);
    WildView(x, n, i);
    WildSwitches(x, n, i);
    assert DiffersIn(r, x, n);
  }

  lemma WildSwitches(x: Susp, n: nat, i: nat)
    requires i < n
    ensures var s, s' := Wild(x, n, i, 2 * i + 4), Wild(x, n, i, 2 * i + 5);
            s.pc.ChooseScan? && s.pc.x == x && |s.pools| == n && Switches(s, s')
    ensures var s := Wild(x, n, i, 0); |s.pools| == n && s.pools[i] == [x.me, x.me + 1]
  {
  }

  /** Such as the yield of a ULT of the second pool that asked to migrate to the first. */
  lemma UpwardDiffers(me: Unit)
    ensures exists r: seq<PE> :: DiffersIn(r, Susp(me, true, 1, 0, true), 2)
  {
    WildDiffers(Susp(me, true, 1, 0, true), 2);
  }
}
