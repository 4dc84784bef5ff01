/**
  The loop that both reclamation schemes use on a list of retired entries: entries that must
  stay move to the front, in place; the others are handed to their deleters.
 */
module Compaction {

  function Kept<T>(list: seq<T>, keep: T -> bool): seq<T> {
    if list == [] then []
    else
      var n := |list| - 1;
      Kept(list[..n], keep) + if keep(list[n]) then [list[n]] else []
  }

  function Not<T>(keep: T -> bool): T -> bool {
    x => !keep(x)
  }

  function Dropped<T>(list: seq<T>, keep: T -> bool): seq<T> {
    Kept(list, Not(keep))
  }

  lemma KeptOneMore<T>(list: seq<T>, i: nat, keep: T -> bool)
    requires i < |list|
    ensures Kept(list[..i + 1], keep) == Kept(list[..i], keep) + if keep(list[i]) then [list[i]] else []
  {
    assert list[..i + 1][..i] == list[..i];
  }

  /** Nothing is lost and nothing doubled: every entry is kept or dropped. */
  lemma {:induction false} KeptAndDropped<T>(list: seq<T>, keep: T -> bool)
    ensures multiset(Kept(list, keep)) + multiset(Dropped(list, keep)) == multiset(list)
    ensures forall x :: x in Kept(list, keep) <==> x in list && keep(x)
  {
    if list != [] {
      var n := |list| - 1;
      KeptAndDropped(list[..n], keep);
      assert list == list[..n] + [list[n]];
    }
  }

  method Compact<T>(a: array<T>, keep: T -> bool) returns (w: nat, dropped: seq<T>)
    modifies a
    ensures w <= a.Length && a[..w] == Kept(old(a[..]), keep)
    ensures dropped == Dropped(old(a[..]), keep)
  {
    hide Kept;
    ghost var list := a[..];
    w, dropped := 0, [];
    KeptNothing(keep);
    for i := 0 to a.Length
      invariant w <= i && a[i..] == list[i..]
      invariant a[..w] == Kept(list[..i], keep)
      invariant dropped == Dropped(list[..i], keep)
    {
      KeptOneMore(list, i, keep);
      KeptOneMore(list, i, Not(keep));
      assert a[i] == list[i];
      if keep(a[i]) {
        ghost var front := a[..w];
        a[w] := a[i];
        w := w + 1;
        assert a[..w] == front + [list[i]];
      } else {
        dropped := dropped + [a[i]];
      }
      assert list[i..][1..] == list[i + 1..];
    }
    assert list[..a.Length] == list;
  }

  lemma KeptNothing<T>(keep: T -> bool)
    ensures Kept([], keep) == [] && Dropped([], keep) == []
  {
  }
}
