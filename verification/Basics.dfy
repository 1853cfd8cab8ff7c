/** Shared by the models of threads: optional values, thread names, lists. */
module Basics {

  datatype Option<T> = None | Some(value: T)

  /** A thread, ULT or external. */
  type Tid = nat

  ghost predicate Distinct<T>(q: seq<T>) {
    forall i, j :: 0 <= i < j < |q| ==> q[i] != q[j]
  }

  /** Everything but the item at `i`. */
  function DropAt<T>(q: seq<T>, i: nat): seq<T>
    requires i < |q|
  {
    q[..i] + q[i + 1..]
  }

  /** The threads `ws` now have `v`. */
  function Assigned<T>(m: map<Tid, T>, ws: seq<Tid>, v: T): map<Tid, T> {
    map w | w in m.Keys + (set x | x in ws) :: if w in ws then v else m[w]
  }

  /** Both ends of a list without repetitions are such lists, and share nothing. */
  lemma SplitList<T>(q: seq<T>, n: nat, x: T)
    requires Distinct(q) && n <= |q|
    ensures Distinct(q[..n]) && Distinct(q[n..])
    ensures x in q <==> x in q[..n] || x in q[n..]
    ensures !(x in q[..n] && x in q[n..])
  {
  }
}
