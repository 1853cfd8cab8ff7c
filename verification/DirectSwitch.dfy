/**
 One PE running a predefined scheduler other than the random work-stealing one:
 polls of the scheduling thread, and suspending ULTs that switch directly to the
 next unit. Pools are scanned one pop at a time and anybody may push in between.
 */
module DirectSwitch {
  import opened Basics

  type Unit = nat

  /** A suspending ULT: whether it yields, the index of its pool, the index of the
      pool it is pushed back to (another one after a migration request; either is
      past the end when the scheduler does not have that pool), and the flag that
      says a yield is under way, which may be stale. */
  datatype Susp = Susp(me: Unit, isYield: bool, mi: nat, li: nat, flag: bool)

  datatype Goal = ToSched | ToUnit(t: Unit)

  /** What the PE does next. A suspended ULT is pushed back by whoever runs after it.
      The idle hook of a basic-wait scheduler pops the first pool, waits, and pops it
      again. */
  datatype Pc =
    | Poll
    | PollScan(i: nat, hi: nat)
    | Hook(again: bool)
    | Run(u: Unit)
    | Choose(x: Susp)
    | ChooseScan(x: Susp, i: nat)
    | Land(x: Susp, goal: Goal)

  /** `waits` says a basic-wait scheduler; `ults` are the units that can be switched
      to; `held` is the parked unit, of pool `hp`; `hooked` says that the idle hook
      dispatched last. `made` counts the direct switches since the last dispatch, and
      `ret` is what the last poll returned: history no step reads. */
  datatype PE = PE(burst: nat, waits: bool, ults: set<Unit>, pools: seq<seq<Unit>>, held: Option<Unit>, hp: nat,
                   count: nat, last: nat, hooked: bool, made: nat, ret: nat, pc: Pc)

  ghost predicate Init(s: PE) {
    s.held == None && s.count == 0 && s.last == 0 && !s.hooked && s.made == 0 && s.ret == 0 && s.pc == Poll
  }

  /** Without the first unit of pool `i`. */
  function Pop(pools: seq<seq<Unit>>, i: nat): seq<seq<Unit>>
    requires i < |pools| && pools[i] != []
  {
    pools[i := pools[i][1..]]
  }

  function Append(pools: seq<seq<Unit>>, i: nat, u: Unit): seq<seq<Unit>> {
    if i < |pools| then pools[i := pools[i] + [u]] else pools
  }

  /** Control goes to the scheduling thread: the chain is reported and reset. */
  function ToScheduler(s: PE, x: Susp): PE {
    s.(last := s.count, count := 0, pc := Land(x, ToSched))
  }

  /** The choice of a suspending ULT that popped `t` from pool `i`. */
  function Decide(s: PE, x: Susp, i: nat, t: Unit): PE {
    if (x.flag && i > x.mi) || t !in s.ults then ToScheduler(s.(held := Some(t), hp := i), x)
    else s.(count := s.count + 1, made := s.made + 1, pc := Land(x, ToUnit(t)))
  }

  /** A poll hands the PE to `u`. */
  function Dispatch(s: PE, u: Unit): PE {
    s.(last := 0, hooked := false, made := 0, pc := Run(u))
  }

  /** So does the idle hook, which is no poll and resets no chain. */
  function Dispatched(s: PE, u: Unit): PE {
    s.(hooked := true, made := 0, pc := Run(u))
  }

  ghost predicate PollStep(s: PE, s': PE) {
    match s.pc
    case Poll => s' == s.(pc := PollScan(0, if s.held.Some? then s.hp else |s.pools|))
    case PollScan(i, hi) =>
      if i < hi then
        && i < |s.pools|
        && if s.pools[i] == [] then s' == s.(pc := PollScan(i + 1, hi))
           else s' == Dispatch(s.(pools := Pop(s.pools, i)), s.pools[i][0])
      else if s.held.Some? then s' == Dispatch(s.(held := None), s.held.value)
      else s' == s.(ret := 0, pc := Poll) || (s.waits && |s.pools| > 0 && s' == s.(ret := 0, pc := Hook(false)))
    case _ => false
  }

  ghost predicate HookStep(s: PE, s': PE) {
    && s.pc.Hook? && |s.pools| > 0
    && if s.held.Some? then s' == Dispatched(s.(held := None), s.held.value)
       else if s.pools[0] == [] then s' == s.(pc := if s.pc.again then Poll else Hook(true))
       else s' == Dispatched(s.(pools := Pop(s.pools, 0)), s.pools[0][0])
  }

  /** A running unit suspends or ends. One that cannot be switched to was resumed
      by the poll and returns there. */
  ghost predicate StopStep(s: PE, x: Susp, s': PE) {
    && s.pc == Run(x.me) && (x.isYield ==> x.flag)
    && s' == s.(pc := if x.me in s.ults then Choose(x) else Land(x, ToSched))
  }

  /** The direct switch may always be declined: when finishing, or off. */
  ghost predicate ChooseStep(s: PE, s': PE) {
    match s.pc
    case Choose(x) =>
      s' == ToScheduler(s, x) || (s.held == None && s.count < s.burst && s' == s.(pc := ChooseScan(x, 0)))
    case ChooseScan(x, i) =>
      if i >= |s.pools| then s' == ToScheduler(s, x)
      else if s.pools[i] == [] then s' == s.(pc := ChooseScan(x, i + 1))
      else s' == Decide(s.(pools := Pop(s.pools, i)), x, i, s.pools[i][0])
    case _ => false
  }

  ghost predicate LandStep(s: PE, s': PE) {
    && s.pc.Land?
    && var x := s.pc.x;
       var back := s.(pools := if x.isYield then Append(s.pools, x.li, x.me) else s.pools);
       if s.pc.goal.ToUnit? then s' == back.(pc := Run(s.pc.goal.t))
       else s' == back.(ret := if s.hooked then s.ret else 1 + s.last, pc := Poll)
  }

  /** Anybody pushes a unit into one of the pools. */
  ghost predicate PushStep(s: PE, i: nat, u: Unit, s': PE) {
    i < |s.pools| && s' == s.(pools := Append(s.pools, i, u))
  }

  ghost predicate Next(s: PE, s': PE) {
    || PollStep(s, s') || HookStep(s, s') || ChooseStep(s, s') || LandStep(s, s')
    || (exists x :: StopStep(s, x, s')) || (exists i, u :: PushStep(s, i, u, s'))
  }

  ghost predicate Linked(r: seq<PE>, i: nat) {
    i + 1 < |r| ==> Next(r[i], r[i + 1])
  }

  ghost predicate RunOf(r: seq<PE>) {
    |r| > 0 && Init(r[0]) && forall i: nat :: Linked(r, i)
  }

  // ---- the chain of direct switches ----

  ghost predicate ChainInv(s: PE) {
    && s.made <= s.burst && (s.held.Some? ==> s.hp < |s.pools|)
    && match s.pc
       case Poll => s.count == 0
       case PollScan(i, hi) => s.count == 0 && hi == (if s.held.Some? then s.hp else |s.pools|) && i <= hi
       case Hook(_) => s.count == 0 && s.held == None
       case Run(u) => s.count == s.made && (u !in s.ults ==> s.made == 0 && (!s.hooked ==> s.last == 0))
       case Choose(x) => s.count == s.made && (x.isYield ==> x.flag)
       case ChooseScan(x, i) =>
         s.count == s.made && s.held == None && s.count < s.burst && i <= |s.pools| && (x.isYield ==> x.flag)
       case Land(_, ToSched) => s.count == 0 && (!s.hooked ==> s.last == s.made)
       case Land(_, ToUnit(t)) => s.count == s.made && s.held == None && t in s.ults
  }

  lemma PollKeeps(s: PE, s': PE)
    requires ChainInv(s) && (PollStep(s, s') || HookStep(s, s'))
    ensures ChainInv(s') && |s'.pools| == |s.pools|
  {
  }

  lemma ChooseKeeps(s: PE, s': PE)
    requires ChainInv(s) && ChooseStep(s, s')
    ensures ChainInv(s') && |s'.pools| == |s.pools|
  {
  }

  lemma LandKeeps(s: PE, s': PE)
    requires ChainInv(s)
    requires (LandStep(s, s') || (exists x :: StopStep(s, x, s')) || (exists i, u :: PushStep(s, i, u, s')))
    ensures ChainInv(s') && |s'.pools| == |s.pools|
  {
  }

  lemma ChainKeeps(s: PE, s': PE)
    requires ChainInv(s) && Next(s, s')
    ensures ChainInv(s') && |s'.pools| == |s.pools|
  {
    if PollStep(s, s') || HookStep(s, s') {
      PollKeeps(s, s');
    } else if ChooseStep(s, s') {
      ChooseKeeps(s, s');
    } else {
      LandKeeps(s, s');
    }
  }

  lemma StepOf(r: seq<PE>, n: nat)
    requires RunOf(r) && 0 < n < |r|
    ensures Next(r[n - 1], r[n])
  {
    assert Linked(r, n - 1);
  }

  lemma {:induction false} ChainRun(r: seq<PE>, n: nat)
    requires RunOf(r) && n < |r|
    ensures ChainInv(r[n])
  {
    if n > 0 {
      ChainRun(r, n - 1);
      StepOf(r, n);
      ChainKeeps(r[n - 1], r[n]);
    }
  }

  /** The step switches directly from one ULT to another. */
  ghost predicate Switches(s: PE, s': PE) {
    s.pc.ChooseScan? && s'.pc.Land? && s'.pc.goal.ToUnit?
  }

  /** How many direct switches are made between states `i` and `j`. */
  ghost function Made(r: seq<PE>, i: nat, j: nat): nat
    requires i <= j < |r|
  {
    if i == j then 0 else Made(r, i, j - 1) + if Switches(r[j - 1], r[j]) then 1 else 0
  }

  /** The scheduling thread scans, or its idle hook does. */
  predicate Dispatches(pc: Pc) { pc.PollScan? || pc.Hook? }

  lemma MadeStep(s: PE, s': PE)
    requires ChainInv(s) && Next(s, s') && !Dispatches(s.pc)
    ensures s'.made == s.made + (if Switches(s, s') then 1 else 0) && s'.hooked == s.hooked
  {
  }

  lemma MadeNext(r: seq<PE>, j: nat)
    requires RunOf(r) && 0 < j < |r| && !Dispatches(r[j - 1].pc)
    ensures r[j].made == r[j - 1].made + (if Switches(r[j - 1], r[j]) then 1 else 0) && r[j].hooked == r[j - 1].hooked
  {
    ChainRun(r, j - 1);
    StepOf(r, j);
    MadeStep(r[j - 1], r[j]);
  }

  /** From a dispatch at `i` on, as long as nothing else is dispatched. */
  lemma {:induction false} MadeIs(r: seq<PE>, i: nat, j: nat)
    requires RunOf(r) && i <= j < |r| && r[i].made == 0
    requires forall k :: i <= k < j ==> !Dispatches(r[k].pc)
    ensures r[j].made == Made(r, i, j) && r[j].hooked == r[i].hooked
  {
    if i < j {
      MadeIs(r, i, j - 1);
      MadeNext(r, j);
    }
  }

  /** At most `burst` direct switches between returns to the scheduling thread, and
      a chain counter of zero at every poll. */
  lemma BoundedChain(r: seq<PE>, i: nat, j: nat)
    requires RunOf(r) && 0 < i <= j < |r| && Dispatches(r[i - 1].pc) && r[i].pc.Run?
    requires forall k :: i <= k < j ==> !Dispatches(r[k].pc)
    ensures Made(r, i, j) <= r[j].burst
    ensures r[j].pc.Poll? || Dispatches(r[j].pc) ==> r[j].count == 0
  {
    StepOf(r, i);
    MadeIs(r, i, j);
    ChainRun(r, j);
  }

  /** A poll that dispatched a unit returns one plus the direct switches made. */
  lemma ExactReport(r: seq<PE>, i: nat, j: nat)
    requires RunOf(r) && 0 < i <= j && j + 1 < |r| && r[i - 1].pc.PollScan? && r[i].pc.Run?
    requires forall k :: i <= k <= j ==> !Dispatches(r[k].pc) && !r[k].pc.Poll?
    requires r[j + 1].pc == Poll
    ensures r[j + 1].ret == 1 + Made(r, i, j + 1)
  {
    StepOf(r, i);
    MadeIs(r, i, j);
    ChainRun(r, j);
    StepOf(r, j + 1);
    assert r[j].pc.Land?;
  }

  /** A poll that finds nothing, neither a unit in any pool it looks at nor a parked
      one, returns zero; the switches made before it do not count again. */
  lemma EmptyReport(r: seq<PE>, n: nat)
    requires RunOf(r) && n + 1 < |r| && r[n].pc.PollScan? && (r[n + 1].pc == Poll || r[n + 1].pc.Hook?)
    ensures r[n + 1].ret == 0 && r[n].held == None && r[n].pc.i >= |r[n].pools| && r[n + 1].pools == r[n].pools
  {
    ChainRun(r, n);
    StepOf(r, n + 1);
  }

  /** The idle hook looked at the first pool at state `m`, found it empty and has been
      waiting to look again up to state `n`. */
  ghost predicate LookedAt(r: seq<PE>, m: nat, n: nat) {
    && m < n < |r| && r[m].pc == Hook(false) && |r[m].pools| > 0 && r[m].pools[0] == [] && r[m].held == None
    && forall s :: s in r[m + 1..n + 1] ==> s.pc == Hook(true)
  }

  ghost predicate LookedBefore(r: seq<PE>, n: nat) {
    exists m: nat :: LookedAt(r, m, n)
  }

  lemma SecondLook(s: PE, s': PE)
    requires ChainInv(s) && Next(s, s') && s'.pc == Hook(true)
    ensures s.pc == Hook(true) || (s.pc == Hook(false) && |s.pools| > 0 && s.pools[0] == [] && s.held == None)
  {
  }

  lemma {:induction false} Looked(r: seq<PE>, n: nat)
    requires RunOf(r) && n < |r| && r[n].pc == Hook(true)
    ensures LookedBefore(r, n)
  {
    if n > 0 {
      ChainRun(r, n - 1);
      StepOf(r, n);
      SecondLook(r[n - 1], r[n]);
      if r[n - 1].pc == Hook(true) {
        Looked(r, n - 1);
        var m: nat :| LookedAt(r, m, n - 1);
        assert r[m + 1..n + 1] == r[m + 1..n] + [r[n]];
        assert LookedAt(r, m, n);
      } else {
        assert r[n..n + 1] == [r[n]];
        assert LookedAt(r, n - 1, n);
      }
    }
  }

  /** The idle hook gives up only after it has looked twice at an empty first pool. */
  lemma HookLooksTwice(r: seq<PE>, n: nat)
    requires RunOf(r) && n + 1 < |r| && r[n].pc.Hook? && r[n + 1].pc == Poll
    ensures LookedBefore(r, n) && |r[n].pools| > 0 && r[n].pools[0] == []
  {
    ChainRun(r, n);
    StepOf(r, n + 1);
    Looked(r, n);
  }

  /** Only a ULT that can be switched to chooses its successor. */
  predicate ChooserOk(s: PE) {
    match s.pc
    case Choose(x) => x.me in s.ults
    case ChooseScan(x, _) => x.me in s.ults
    case _ => true
  }

  lemma KeepChooser(s: PE, s': PE)
    requires ChooserOk(s) && Next(s, s')
    ensures ChooserOk(s')
  {
  }

  lemma {:induction false} Choosers(r: seq<PE>, n: nat)
    requires RunOf(r) && n < |r|
    ensures ChooserOk(r[n])
  {
    if n > 0 {
      Choosers(r, n - 1);
      StepOf(r, n);
      KeepChooser(r[n - 1], r[n]);
    }
  }

  /** A direct switch goes from one ULT to another, never from or to a unit that must
      be resumed by the scheduling thread. */
  lemma SwitchesUlts(r: seq<PE>, n: nat)
    requires RunOf(r) && n + 1 < |r| && Switches(r[n], r[n + 1])
    ensures r[n].pc.x.me in r[n].ults && r[n + 1].pc.goal.t in r[n].ults
  {
    Choosers(r, n);
    StepOf(r, n + 1);
  }

  lemma RetStep(s: PE, s': PE)
    requires ChainInv(s) && Next(s, s') && s.hooked && !s.pc.PollScan?
    ensures s'.ret == s.ret
  {
  }

  lemma {:induction false} RetKept(r: seq<PE>, i: nat, j: nat)
    requires RunOf(r) && i <= j < |r| && r[i].hooked && r[i].made == 0
    requires forall k :: i <= k < j ==> !Dispatches(r[k].pc)
    ensures r[j].ret == r[i].ret
  {
    if i < j {
      RetKept(r, i, j - 1);
      MadeIs(r, i, j - 1);
      ChainRun(r, j - 1);
      StepOf(r, j);
      RetStep(r[j - 1], r[j]);
    }
  }

  /** The idle hook is no poll: whatever the unit it dispatched did, what the last poll
      returned stands until the next one. */
  lemma HookSilent(r: seq<PE>, i: nat, j: nat)
    requires RunOf(r) && 0 < i <= j < |r| && r[i - 1].pc.Hook? && r[i].pc.Run?
    requires forall k :: i <= k < j ==> !Dispatches(r[k].pc)
    ensures r[j].ret == r[i - 1].ret
  {
    StepOf(r, i);
    RetKept(r, i, j);
  }
}
