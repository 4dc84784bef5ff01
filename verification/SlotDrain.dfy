/**
  The drain loop of `processSlot` on one bucket, as a function on the bucket's expiries.

  The loop always looks at the front, fires it or files it again, and then swap-pops the
  front. It ends exactly when no timer of the bucket is filed back into the same bucket,
  and a timer is filed back exactly when it was filed past the horizon `Near`.
 */
module SlotDrain {
  import opened TimerPlacement

  /** `swap_pop_at(0)`: the last element takes the place of the first. */
  function SwapPopFront<T>(b: seq<T>): (r: seq<T>)
    requires b != []
    ensures multiset(r) == multiset(b) - multiset{b[0]}
  {
    if |b| == 1 then
      []
    else
      var last := |b| - 1;
      assert b == [b[0]] + b[1..last] + [b[last]];
      [b[last]] + b[1..last]
  }

  /** The timer is not due and its new place is the bucket being drained. */
  predicate FilesBack(t: nat, level: nat, slot: nat, expiry: nat) {
    t < expiry && PlaceLevel(t, expiry) == level && PlaceSlot(t, expiry) == slot
  }

  /** One round of the loop. */
  function DrainOnce(t: nat, level: nat, slot: nat, b: seq<nat>): seq<nat> {
    if b == [] then b
    else if FilesBack(t, level, slot, b[0]) then SwapPopFront(b + [b[0]])
    else SwapPopFront(b)
  }

  function Drain(t: nat, level: nat, slot: nat, b: seq<nat>, rounds: nat): seq<nat>
    decreases rounds
  {
    if rounds == 0 then b else Drain(t, level, slot, DrainOnce(t, level, slot, b), rounds - 1)
  }

  lemma SwapPopKeepsMembers(b: seq<nat>)
    requires b != []
    ensures |SwapPopFront(b)| == |b| - 1
    ensures forall e | e in SwapPopFront(b) :: e in b
  {
  }

  lemma {:induction false} ShrinksWhenNoneFilesBack(t: nat, level: nat, slot: nat, b: seq<nat>)
    requires forall e | e in b :: !FilesBack(t, level, slot, e)
    ensures Drain(t, level, slot, b, |b|) == []
    decreases |b|
  {
    if b != [] {
      var rest := DrainOnce(t, level, slot, b);
      SwapPopKeepsMembers(b);
      ShrinksWhenNoneFilesBack(t, level, slot, rest);
    }
  }

  /** Filing the front back and swap-popping it leaves the bucket exactly as it was. */
  lemma FiledBackFrontIsStuck(t: nat, level: nat, slot: nat, b: seq<nat>)
    requires b != [] && FilesBack(t, level, slot, b[0])
    ensures DrainOnce(t, level, slot, b) == b
  {
    var grown := b + [b[0]];
    assert [grown[|grown| - 1]] + grown[1..|grown| - 1] == b;
  }

  lemma {:induction false} FiledBackStays(t: nat, level: nat, slot: nat, b: seq<nat>, e: nat, rounds: nat)
    requires e in b && FilesBack(t, level, slot, e)
    ensures e in Drain(t, level, slot, b, rounds)
    decreases rounds
  {
    if rounds > 0 {
      var rest := DrainOnce(t, level, slot, b);
      if FilesBack(t, level, slot, b[0]) {
        FiledBackFrontIsStuck(t, level, slot, b);
      } else {
        var before, after: multiset<nat> := multiset(b), multiset(rest);
        assert e in before && after == before - multiset{b[0]} && e in after;
      }
      FiledBackStays(t, level, slot, rest, e, rounds - 1);
    }
  }

  /** The loop empties its bucket if and only if no timer is filed back into it. */
  lemma DrainEndsIff(t: nat, level: nat, slot: nat, b: seq<nat>)
    ensures (exists rounds: nat :: Drain(t, level, slot, b, rounds) == [])
            <==> forall e | e in b :: !FilesBack(t, level, slot, e)
  {
    if e :| e in b && FilesBack(t, level, slot, e) {
      forall rounds: nat ensures Drain(t, level, slot, b, rounds) != [] {
        FiledBackStays(t, level, slot, b, e, rounds);
      }
    } else {
      ShrinksWhenNoneFilesBack(t, level, slot, b);
    }
  }

  // ---- Which timers are filed back ------------------------------------------------------

  /** The top-level block that holds time `t`. */
  function Block(t: nat): nat { t / 16777216 }

  /** The first block after `from` that has the slot of block `to`. */
  function FirstBlock(from: nat, to: nat): nat
    requires from < to
  {
    from + 1 + (to - from - 1) % 256
  }

  /** The first time after `t` at which the top level visits the slot of `expiry`. */
  function FirstVisit(t: nat, expiry: nat): nat
    requires Block(t) < Block(expiry)
  {
    FirstBlock(Block(t), Block(expiry)) * 16777216
  }

  lemma FirstBlockIsFirst(from: nat, to: nat)
    requires from < to
    ensures from < FirstBlock(from, to) <= to && FirstBlock(from, to) % 256 == to % 256
    ensures FirstBlock(from, to) == to <==> to <= from + 256
    ensures forall w: nat :: from < w < FirstBlock(from, to) ==> w % 256 != to % 256
  {
    var rounds := (to - from - 1) / 256;
    assert to == FirstBlock(from, to) + 256 * rounds;
  }

  lemma BlockStart(k: nat)
    ensures Block(k * 16777216) == k && (k * 16777216) % 16777216 == 0
  {
  }

  lemma FirstVisitIsFirst(t: nat, expiry: nat)
    requires Block(t) < Block(expiry)
    ensures t < FirstVisit(t, expiry) <= expiry
    ensures Visited(FirstVisit(t, expiry), 3, Block(expiry) % SLOTS)
    ensures forall u: nat :: t < u < FirstVisit(t, expiry) ==> !Visited(u, 3, Block(expiry) % SLOTS)
  {
    var k := FirstBlock(Block(t), Block(expiry));
    FirstBlockIsFirst(Block(t), Block(expiry));
    BlockStart(k);
    forall u: nat | t < u < FirstVisit(t, expiry) ensures !Visited(u, 3, Block(expiry) % SLOTS) {
      if u % 16777216 == 0 {
        assert u == Block(u) * 16777216;
        assert Block(t) < Block(u) < k;
      }
    }
  }

  /**
    A timer filed at level 3 is filed back into its own bucket at the first visit, so that
    `advance()` never returns, if and only if it was filed past the horizon.
   */
  lemma HangsIffPastHorizon(t: nat, expiry: nat)
    requires t < expiry && PlaceLevel(t, expiry) == 3
    ensures Block(t) < Block(expiry)
    ensures FilesBack(FirstVisit(t, expiry), 3, PlaceSlot(t, expiry), expiry) <==> !Near(t, expiry)
  {
    var k := FirstBlock(Block(t), Block(expiry));
    FirstBlockIsFirst(Block(t), Block(expiry));
    BlockStart(k);
    FirstVisitIsFirst(t, expiry);
    if k < Block(expiry) {
      assert Block(expiry) >= k + 256;
    }
  }

  /** A concrete failing input: a timer 257 top-level slots ahead, filed at time 1. */
  lemma HorizonWitness()
    ensures !Near(1, 257 * 16777216)
    ensures FirstVisit(1, 257 * 16777216) == 16777216
    ensures FilesBack(16777216, 3, PlaceSlot(1, 257 * 16777216), 257 * 16777216)
  {
  }
}
