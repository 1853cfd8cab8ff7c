/** A queue observed over time: who joined first leaves first. */
module Fifo {
  import opened Basics

  /** Some leave at the front, or one joins behind. */
  ghost predicate QueueStep<T>(q: seq<T>, q': seq<T>) {
    || (exists d: nat :: d <= |q| && q' == q[d..])
    || (q' != [] && q' == q + [q'[|q'| - 1]])
  }

  ghost predicate Served<T>(h: seq<seq<T>>, k: nat) {
    k + 1 < |h| ==> QueueStep(h[k], h[k + 1])
  }

  /** The contents of a queue, from state to state. */
  ghost predicate History<T>(h: seq<seq<T>>) {
    (forall k: nat :: Served(h, k)) && forall k: nat :: k < |h| ==> Distinct(h[k])
  }

  ghost predicate Ahead<T>(q: seq<T>, u: T, v: T) {
    exists i, j :: 0 <= i < j < |q| && q[i] == u && q[j] == v
  }

  /** `u` is queued when `v` joins, and both stay queued up to `n`. */
  ghost predicate JoinedFirst<T>(h: seq<seq<T>>, i: nat, n: nat, u: T, v: T) {
    && i < n < |h| && u in h[i] && v !in h[i]
    && forall k: nat :: i < k <= n ==> u in h[k] && v in h[k]
  }

  lemma StillAhead<T>(q: seq<T>, q': seq<T>, u: T, v: T)
    requires QueueStep(q, q') && u in q && u in q' && v in q' && (v in q ==> Ahead(q, u, v))
    requires Distinct(q) && u != v
    ensures Ahead(q', u, v)
  {
    if d: nat :| d <= |q| && q' == q[d..] {
      AheadLater(q, d, u, v);
    } else if v in q {
      var a, b :| 0 <= a < b < |q| && q[a] == u && q[b] == v;
      assert q'[a] == u && q'[b] == v;
    } else {
      var a :| 0 <= a < |q| && q[a] == u;
      assert q'[a] == u && q'[|q'| - 1] == v;
    }
  }

  lemma AheadLater<T>(q: seq<T>, d: nat, u: T, v: T)
    requires d <= |q| && Distinct(q) && Ahead(q, u, v) && u in q[d..]
    ensures Ahead(q[d..], u, v)
  {
    var a, b :| 0 <= a < b < |q| && q[a] == u && q[b] == v;
    var i :| 0 <= i < |q[d..]| && q[d..][i] == u;
    assert q[d + i] == u;
    assert q[d..][a - d] == u && q[d..][b - d] == v;
  }

  lemma {:induction false} AheadOverTime<T>(h: seq<seq<T>>, i: nat, n: nat, u: T, v: T)
    requires History(h) && JoinedFirst(h, i, n, u, v)
    ensures Ahead(h[n], u, v)
  {
    assert Served(h, n - 1);
    if n > i + 1 { AheadOverTime(h, i, n - 1, u, v); }
    StillAhead(h[n - 1], h[n], u, v);
  }

  /** Nobody leaves before those ahead of it. */
  lemma LeavesAfter<T>(q: seq<T>, q': seq<T>, u: T, v: T)
    requires QueueStep(q, q') && Distinct(q) && Ahead(q, u, v) && u in q'
    ensures v in q'
  {
    if d: nat :| d <= |q| && q' == q[d..] {
      AheadLater(q, d, u, v);
    } else {
      var a, b :| 0 <= a < b < |q| && q[a] == u && q[b] == v;
      assert q'[b] == v;
    }
  }

  /** The one that joined first leaves no later than the other. */
  lemma FirstLeavesFirst<T>(h: seq<seq<T>>, i: nat, n: nat, u: T, v: T)
    requires History(h) && JoinedFirst(h, i, n, u, v) && n + 1 < |h| && v !in h[n + 1]
    ensures u !in h[n + 1]
  {
    AheadOverTime(h, i, n, u, v);
    assert Served(h, n);
    if u in h[n + 1] { LeavesAfter(h[n], h[n + 1], u, v); }
  }
}
