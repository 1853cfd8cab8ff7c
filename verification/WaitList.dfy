/**
 The singly linked list of wait records that every synchronization object keeps
 under its spinlock, and the sequence it stands for.
 */
module WaitList {
  import opened Basics

  class Waiter {
    var next: Waiter?

    constructor ()
      ensures next == null
    {
      next := null;
    }
  }

  /** What follows the record at `i`. */
  function Link(q: seq<Waiter>, i: nat): Waiter? {
    if i + 1 < |q| then q[i + 1] else null
  }

  lemma DropLinks(q: seq<Waiter>, k: nat, i: nat)
    requires Distinct(q) && k < |q| && i < |q| - 1
    ensures |DropAt(q, k)| == |q| - 1 && Distinct(DropAt(q, k)) && DropAt(q, k)[i] == q[if i < k then i else i + 1]
    ensures Link(DropAt(q, k), i) == if i == k - 1 then Link(q, k) else Link(q, if i < k then i else i + 1)
  {
  }

  /** A chain of records that ends in null. */
  ghost predicate Chain(first: Waiter?, q: seq<Waiter>)
    reads q
  {
    && (first == if q == [] then null else q[0])
    && forall i :: 0 <= i < |q| ==> q[i].next == Link(q, i)
  }

  class List {
    var head: Waiter?
    var tail: Waiter?
    ghost var items: seq<Waiter>

    ghost predicate Valid()
      reads this, items
    {
      && Distinct(items)
      && (items == [] ==> head == null && tail == null)
      && (items != [] ==> head == items[0] && tail == items[|items| - 1])
      && (forall i :: 0 <= i < |items| ==> items[i].next == Link(items, i))
    }

    constructor ()
      ensures Valid() && items == []
    {
      head, tail, items := null, null, [];
    }

    method Push(w: Waiter)
      requires Valid() && w !in items
      modifies this, items, w
      ensures Valid() && items == old(items) + [w]
    {
      w.next := null;
      if tail != null {
        tail.next := w;
      } else {
        head := w;
      }
      tail := w;
      items := items + [w];
    }

    method Pop() returns (w: Waiter?)
      requires Valid()
      modifies this
      ensures Valid()
      ensures old(items) == [] ==> w == null && items == []
      ensures old(items) != [] ==> w == old(items)[0] && items == old(items)[1..]
    {
      w := head;
      if w == null {
        return;
      }
      head := w.next;
      if head == null {
        tail := null;
      }
      items := items[1..];
    }

    /** Record `c`, behind `prev`, is taken out of the chain. */
    method Unlink(prev: Waiter?, c: Waiter, ghost k: nat)
      requires Valid() && k < |items| && c == items[k] && prev == if k > 0 then items[k - 1] else null
      modifies this, if prev != null then {prev} else {}
      ensures Valid() && items == DropAt(old(items), k)
    {
      if prev != null {
        prev.next := c.next;
      } else {
        head := c.next;
      }
      if tail == c {
        tail := prev;
      }
      forall i: nat | i < |items| - 1 ensures DropAt(items, k)[i].next == Link(DropAt(items, k), i) {
        DropLinks(items, k, i);
        var j := if i < k then i else i + 1;
        assert old(items[j].next) == Link(items, j) && (j != k - 1 ==> items[j] != prev);
      }
      if |items| > 1 {
        DropLinks(items, k, 0);
        DropLinks(items, k, |items| - 2);
      }
      items := DropAt(items, k);
    }

    /** The record, wherever it is, and nothing else. */
    method Remove(w: Waiter) returns (found: bool)
      requires Valid()
      modifies this, items
      ensures Valid() && (found <==> w in old(items))
      ensures !found ==> items == old(items)
      ensures found ==> exists k: nat :: k < |old(items)| && old(items)[k] == w && items == DropAt(old(items), k)
    {
      var prev: Waiter? := null;
      var c := head;
      ghost var k := 0;
      while c != null
        invariant 0 <= k <= |items| && items == old(items) && Valid()
        invariant c == if k < |items| then items[k] else null
        invariant prev == if k > 0 then items[k - 1] else null
        invariant w !in items[..k]
        decreases |items| - k
      {
        if c == w {
          Unlink(prev, c, k);
          return true;
        }
        assert items[..k + 1] == items[..k] + [items[k]];
        prev, c := c, c.next;
        k := k + 1;
      }
      assert items[..k] == items;
      return false;
    }

    /** Broadcast takes the whole chain at once and leaves the list empty. */
    method TakeAll() returns (first: Waiter?)
      requires Valid()
      modifies this
      ensures Valid() && items == [] && Chain(first, old(items))
    {
      first := head;
      head, tail, items := null, null, [];
    }
  }

  /** The loop of a broadcast meets every record of the chain once, in order. */
  method Walk(first: Waiter?, ghost q: seq<Waiter>) returns (met: seq<Waiter>)
    requires Chain(first, q)
    ensures met == q
  {
    met := [];
    var list := first;
    while list != null
      invariant |met| <= |q| && met == q[..|met|]
      invariant list == if |met| < |q| then q[|met|] else null
      decreases |q| - |met|
    {
      var n := list.next;
      assert q[..|met| + 1] == q[..|met|] + [q[|met|]];
      met := met + [list];
      list := n;
    }
  }
}
