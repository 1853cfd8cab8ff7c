/**
 A monitor: what the mutex and its condition variables look like from above.
 One owner with a number of levels, a first-in first-out queue of waiters per
 condition, and the set of waiters that were notified and have yet to get the
 monitor back.
 */
module Monitor {
  import opened Basics
  import opened SyncModel

  datatype Mon = Mon(owner: Option<Tid>, levels: nat, queue: map<Cid, seq<Tid>>, notified: set<Tid>)

  datatype Event = Quiet | Enter | Nest | Leave | WaitOn(c: Cid) | Notify(c: Cid, all: bool) | Resume

  function Queue(a: Mon, c: Cid): seq<Tid> { if c in a.queue then a.queue[c] else [] }

  function Members(q: seq<Tid>): set<Tid> { set w | w in q }

  ghost predicate MonInit(a: Mon) {
    a.owner == None && a.levels == 0 && a.notified == {} && forall c: Cid {:trigger Queue(a, c)} :: Queue(a, c) == []
  }

  ghost predicate SameQueues(a: Mon, a': Mon) {
    forall c: Cid {:trigger Queue(a', c)} :: Queue(a', c) == Queue(a, c)
  }

  ghost predicate OtherQueues(a: Mon, c: Cid, a': Mon) {
    forall d: Cid {:trigger Queue(a', d)} :: d != c ==> Queue(a', d) == Queue(a, d)
  }

  /** Thread `t` takes the monitor through event `e`. Entering is open to threads
      that are not waiting, resuming to notified waiters, and each needs a free
      monitor; releasing the monitor and joining a queue is one step; a
      notification of an empty queue does nothing, one for all takes everybody, one
      for a single waiter takes the first, and nobody else ever leaves a queue. */
  ghost predicate MonStep(recursive: bool, a: Mon, t: Tid, e: Event, a': Mon) {
    match e
    case Quiet => SameQueues(a, a') && a'.(queue := a.queue) == a
    case Enter =>
      a.owner == None && t !in a.notified && SameQueues(a, a') && a' == Mon(Some(t), 1, a'.queue, a.notified)
    case Resume =>
      a.owner == None && t in a.notified && SameQueues(a, a') && a' == Mon(Some(t), 1, a'.queue, a.notified - {t})
    case Nest =>
      recursive && a.owner == Some(t) && SameQueues(a, a') && a' == Mon(Some(t), a.levels + 1, a'.queue, a.notified)
    case Leave =>
      && a.owner == Some(t) && a.levels > 0 && SameQueues(a, a')
      && a' == Mon(if a.levels > 1 then Some(t) else None, a.levels - 1, a'.queue, a.notified)
    case WaitOn(c) =>
      && a.owner == Some(t) && a.levels == 1 && OtherQueues(a, c, a') && Queue(a', c) == Queue(a, c) + [t]
      && a' == Mon(None, 0, a'.queue, a.notified)
    case Notify(c, all) =>
      var q := Queue(a, c);
      && OtherQueues(a, c, a')
      && if q == [] then Queue(a', c) == [] && a' == a.(queue := a'.queue)
         else if all then Queue(a', c) == [] && a' == a.(queue := a'.queue, notified := a.notified + Members(q))
         else Queue(a', c) == q[1..] && a' == a.(queue := a'.queue, notified := a.notified + {q[0]})
  }

  /** Event `e` takes `u` off the queue of `c`. */
  ghost predicate Picked(a: Mon, e: Event, c: Cid, u: Tid) {
    e.Notify? && e.c == c && u in Queue(a, c) && (e.all || u == Queue(a, c)[0])
  }

  lemma QueueMember(a: Mon, t: Tid, e: Event, a': Mon, c: Cid, u: Tid)
    requires MonStep(false, a, t, e, a') && Distinct(Queue(a, c))
    ensures u in Queue(a', c) <==> (e == WaitOn(c) && u == t) || (u in Queue(a, c) && !Picked(a, e, c, u))
    ensures Picked(a, e, c, u) ==> u in Queue(a, c)
  {
  }

  lemma NotifiedMember(a: Mon, t: Tid, e: Event, a': Mon, u: Tid)
    requires MonStep(false, a, t, e, a')
    ensures u in a'.notified <==> (u in a.notified && !(e == Resume && u == t)) || (e.Notify? && Picked(a, e, e.c, u))
  {
  }

  lemma StillDistinct(a: Mon, t: Tid, e: Event, a': Mon, c: Cid)
    requires MonStep(false, a, t, e, a') && Distinct(Queue(a, c)) && (e == WaitOn(c) ==> t !in Queue(a, c))
    ensures Distinct(Queue(a', c))
  {
  }
}
