/**
  The intrusive doubly linked wait list, each method proved against the sequence of nodes that
  the list stands for. `Semaphore` and `AsyncMutex` build on that sequence.
 */
module WaitList {
  import opened Wrappers
  import opened Lists

  class Waiter {
    var prev: Waiter?
    var next: Waiter?
    var inList: bool

    constructor ()
      ensures prev == null && next == null && !inList
    {
      prev, next, inList := null, null, false;
    }
  }

  class WaitList {
    var head: Waiter?
    var tail: Waiter?
    var count: nat
    ghost var nodes: seq<Waiter>

    /** Node `i` is linked to both its neighbours. */
    ghost predicate Linked(i: nat)
      requires i < |nodes|
      reads this, nodes
    {
      && nodes[i].inList
      && nodes[i].prev == (if i == 0 then null else nodes[i - 1])
      && nodes[i].next == (if i + 1 == |nodes| then null else nodes[i + 1])
    }

    ghost predicate Valid()
      reads this, nodes
    {
      && count == |nodes| && Distinct(nodes)
      && head == (if nodes == [] then null else nodes[0])
      && tail == (if nodes == [] then null else nodes[|nodes| - 1])
      && forall i | 0 <= i < |nodes| :: Linked(i)
    }

    constructor ()
      ensures Valid() && nodes == []
    {
      head, tail, count, nodes := null, null, 0, [];
    }

    method PushLocked(w: Waiter)
      requires Valid() && w !in nodes
      modifies this, w, nodes
      ensures Valid() && nodes == old(nodes) + [w]
    {
      w.prev := tail;
      w.next := null;
      if tail != null {
        tail.next := w;
      } else {
        head := w;
      }
      tail := w;
      w.inList := true;
      count := count + 1;
      nodes := nodes + [w];
      forall i | 0 <= i < |nodes| ensures Linked(i) {
        assert i < |old(nodes)| ==> old(Linked(i));
      }
    }

    method PopFrontLocked() returns (w: Waiter?)
      requires Valid()
      modifies this, nodes
      ensures Valid()
      ensures old(nodes) == [] ==> w == null && nodes == []
      ensures old(nodes) != [] ==> w == old(nodes)[0] && nodes == old(nodes)[1..] && !w.inList && w.prev == w.next == null
    {
      w := head;
      if w == null {
        return;
      }
      assert Linked(0);
      assert |nodes| > 1 ==> Linked(1);
      head := w.next;
      if head != null {
        head.prev := null;
      } else {
        tail := null;
      }
      w.prev := null;
      w.next := null;
      w.inList := false;
      count := count - 1;
      nodes := nodes[1..];
      forall i | 0 <= i < |nodes| ensures Linked(i) {
        assert old(Linked(i + 1));
      }
    }

    /** The loop under the lock of a notifier that owes `k` wake-ups: the first waiters go, in order. */
    method WakeUpTo(k: nat) returns (woken: seq<Waiter>)
      requires Valid()
      modifies this, nodes
      ensures Valid()
      ensures var n := Min(k, |old(nodes)|); woken == old(nodes)[..n] && nodes == old(nodes)[n..]
      ensures forall w | w in woken :: !w.inList
    {
      ghost var all := nodes;
      woken := [];
      var left := k;
      while left > 0
        invariant Valid() && 0 <= left <= k && |woken| == k - left <= |all|
        invariant woken == all[..|woken|] && nodes == all[|woken|..] && Distinct(all)
        invariant forall w | w in woken :: !w.inList
      {
        ghost var before := woken;
        var w := PopFrontLocked();
        if w == null {
          break;
        }
        woken := woken + [w];
        left := left - 1;
        assert all[..|before|] + [w] == all[..|woken|] && all[|before|..][1..] == all[|woken|..];
      }
    }

    /** Removes a node in constant time; a node that is not listed is left alone. */
    method RemoveLocked(w: Waiter) returns (r: bool)
      requires Valid() && (w.inList ==> w in nodes)
      modifies this, w, nodes
      ensures Valid() && r == old(w in nodes)
      ensures nodes == if r then Remove(old(nodes), w) else old(nodes)
      ensures !w.inList && (r ==> w.prev == w.next == null)
    {
      hide Remove;
      if !w.inList {
        assert forall i | 0 <= i < |nodes| :: Linked(i) ==> nodes[i] != w;
        return false;
      }
      ghost var k := IndexOf(nodes, w);
      RemoveAt(nodes, w, k);
      Unlink(w, k);
      return true;
    }

    method Unlink(w: Waiter, ghost k: nat)
      requires Valid() && k < |nodes| && nodes[k] == w
      modifies this, nodes
      ensures Valid() && nodes == Without(old(nodes), k) && !w.inList && w.prev == w.next == null
    {
      assert Linked(k);
      assert k > 0 ==> Linked(k - 1);
      assert k + 1 < |nodes| ==> Linked(k + 1);
      if w.prev != null {
        w.prev.next := w.next;
      } else {
        head := w.next;
      }
      if w.next != null {
        w.next.prev := w.prev;
      } else {
        tail := w.prev;
      }
      w.prev := null;
      w.next := null;
      w.inList := false;
      count := count - 1;
      nodes := Without(nodes, k);
      forall i | 0 <= i < |nodes| ensures Linked(i) {
        var j := if i < k then i else i + 1;
        assert old(Linked(j)) && nodes[i] == old(nodes)[j];
      }
    }
  }

  ghost function IndexOf<T>(list: seq<T>, x: T): (k: nat)
    requires x in list
    ensures k < |list| && list[k] == x
  {
    if list[0] == x then 0 else 1 + IndexOf(list[1..], x)
  }

  /** Removing the only occurrence is cutting it out. */
  lemma {:induction false} RemoveAt<T>(list: seq<T>, x: T, k: nat)
    requires Distinct(list) && k < |list| && list[k] == x
    ensures Remove(list, x) == Without(list, k)
  {
    if k > 0 {
      RemoveAt(list[1..], x, k - 1);
      assert Without(list, k) == [list[0]] + Without(list[1..], k - 1);
    }
  }
}
