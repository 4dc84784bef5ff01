/**
  How addresses found by a resolve join the list that a connection race works through:
  section 4 of RFC 8305 wants the two families to alternate.
 */
module AddressWeave {
  import opened Wrappers

  datatype Addr = Addr(ip: string, v6: bool)

  /** The two lists alternating, beginning with the first; the longer one's rest at the end. */
  function Interleave<T>(a: seq<T>, b: seq<T>): seq<T>
    decreases |a| + |b|
  {
    if a == [] then b else [a[0]] + Interleave(b, a[1..])
  }

  function Upto<T>(s: seq<T>, n: nat): seq<T> {
    if |s| <= n then s else s[..n]
  }

  /** The launched addresses stay in place; the others alternate with the newly found ones. */
  function Woven(addrs: seq<Addr>, launched: nat, maxAttempts: nat, found: seq<Addr>, foundFirst: bool): seq<Addr>
    requires launched <= |addrs|
  {
    var rest := if foundFirst then Interleave(found, addrs[launched..]) else Interleave(addrs[launched..], found);
    if maxAttempts == 0 then addrs[..launched] + rest
    else Upto(addrs[..launched] + rest, Max(maxAttempts, launched))
  }

  lemma {:induction false} InterleaveSize<T>(a: seq<T>, b: seq<T>)
    ensures |Interleave(a, b)| == |a| + |b|
    decreases |a| + |b|
  {
    if a != [] {
      InterleaveSize(b, a[1..]);
    }
  }

  lemma {:induction false} InterleaveContents<T>(a: seq<T>, b: seq<T>)
    ensures multiset(Interleave(a, b)) == multiset(a) + multiset(b)
    decreases |a| + |b|
  {
    if a != [] {
      InterleaveContents(b, a[1..]);
      assert a == [a[0]] + a[1..];
    }
  }

  /** As long as both lists last, element `k` of each stands at `2k` and `2k + 1`. */
  lemma {:induction false} InterleaveAlternates<T>(a: seq<T>, b: seq<T>, k: nat)
    requires k < |a| && k < |b|
    ensures |Interleave(a, b)| == |a| + |b|
    ensures Interleave(a, b)[2 * k] == a[k] && Interleave(a, b)[2 * k + 1] == b[k]
    decreases k
  {
    InterleaveSize(a, b);
    var rest := Interleave(a[1..], b[1..]);
    assert Interleave(b, a[1..]) == [b[0]] + rest;
    assert Interleave(a, b) == [a[0], b[0]] + rest;
    if k > 0 {
      InterleaveAlternates(a[1..], b[1..], k - 1);
    }
  }

  function From<T>(s: seq<T>, i: nat): seq<T> {
    if i <= |s| then s[i..] else []
  }

  function At<T>(s: seq<T>, i: nat): seq<T> {
    if i < |s| then [s[i]] else []
  }

  /** One round of the loop takes the front off what is still to be interleaved. */
  lemma InterleaveRound<T>(a: seq<T>, b: seq<T>, i: nat)
    requires i < |a| || i < |b|
    ensures Interleave(From(a, i), From(b, i)) == At(a, i) + At(b, i) + Interleave(From(a, i + 1), From(b, i + 1))
  {
    var x, y := From(a, i), From(b, i);
    if x != [] && y != [] {
      assert Interleave(y, x[1..]) == [y[0]] + Interleave(x[1..], y[1..]);
      assert x[1..] == From(a, i + 1) && y[1..] == From(b, i + 1);
    } else if x != [] {
      InterleaveNil(x);
      InterleaveNil(x[1..]);
      assert x[1..] == From(a, i + 1);
    } else {
      assert y[1..] == From(b, i + 1);
    }
  }

  lemma InterleaveNil<T>(a: seq<T>)
    ensures Interleave(a, []) == a
  {
    if a != [] {
      assert Interleave([], a[1..]) == a[1..];
    }
  }

  lemma CappedPush<T>(full: seq<T>, s: seq<T>, i: nat, cap: nat)
    ensures var w := Upto(full, cap);
            Upto(full + At(s, i), cap) == if i < |s| && |w| < cap then w + [s[i]] else w
  {
  }

  lemma RoundJoins<T>(full: seq<T>, x: seq<T>, y: seq<T>, rest: seq<T>)
    ensures full + x + y + rest == full + (x + y + rest)
  {
  }

  method WeaveTail(addrs: seq<Addr>, launched: nat, maxAttempts: nat, found: seq<Addr>, foundFirst: bool)
    returns (woven: seq<Addr>)
    requires launched <= |addrs|
    ensures woven == Woven(addrs, launched, maxAttempts, found, foundFirst)
  {
    hide Interleave;
    var tail := addrs[launched..];
    var cap := if maxAttempts == 0 then launched + |tail| + |found| else Max(maxAttempts, launched);
    if foundFirst {
      InterleaveSize(found, tail);
      woven := Weave(addrs[..launched], found, tail, cap);
    } else {
      InterleaveSize(tail, found);
      woven := Weave(addrs[..launched], tail, found, cap);
    }
  }

  /** The loop of `weave_tail`: nothing is appended past `cap`. */
  method Weave(launched: seq<Addr>, first: seq<Addr>, second: seq<Addr>, cap: nat) returns (woven: seq<Addr>)
    requires |launched| <= cap
    ensures woven == Upto(launched + Interleave(first, second), cap)
  {
    hide Interleave, Upto, At, From;
    woven := launched;
    ghost var full := launched;
    WeaveStarts(launched, first, second, cap);
    var i := 0;
    while i < |first| || i < |second|
      invariant full + Interleave(From(first, i), From(second, i)) == launched + Interleave(first, second)
      invariant woven == Upto(full, cap)
      decreases |first| + |second| - i
    {
      InterleaveRound(first, second, i);
      RoundJoins(full, At(first, i), At(second, i), Interleave(From(first, i + 1), From(second, i + 1)));
      CappedPush(full, first, i, cap);
      CappedPush(full + At(first, i), second, i, cap);
      if i < |first| && |woven| < cap {
        woven := woven + [first[i]];
      }
      if i < |second| && |woven| < cap {
        woven := woven + [second[i]];
      }
      full := full + At(first, i) + At(second, i);
      i := i + 1;
    }
    WeaveEnds(full, first, second, i);
  }

  lemma WeaveStarts(launched: seq<Addr>, first: seq<Addr>, second: seq<Addr>, cap: nat)
    requires |launched| <= cap
    ensures From(first, 0) == first && From(second, 0) == second && Upto(launched, cap) == launched
  {
  }

  lemma WeaveEnds(full: seq<Addr>, first: seq<Addr>, second: seq<Addr>, i: nat)
    requires i >= |first| && i >= |second|
    ensures full + Interleave(From(first, i), From(second, i)) == full
  {
  }

  /** Weaving moves no launched address, loses none below the cap, and never exceeds the cap. */
  lemma WovenFacts(addrs: seq<Addr>, launched: nat, maxAttempts: nat, found: seq<Addr>, foundFirst: bool)
    requires launched <= |addrs|
    ensures var w := Woven(addrs, launched, maxAttempts, found, foundFirst);
            && launched <= |w| <= |addrs| + |found| && w[..launched] == addrs[..launched]
            && (maxAttempts == 0 ==> multiset(w) == multiset(addrs) + multiset(found))
            && (maxAttempts > 0 ==> |w| <= Max(maxAttempts, launched))
            && (maxAttempts > 0 && |addrs| + |found| > maxAttempts ==> |w| == Max(maxAttempts, launched))
            && (maxAttempts > 0 && |addrs| + |found| <= maxAttempts ==> multiset(w) == multiset(addrs) + multiset(found))
  {
    hide Interleave;
    var tail := addrs[launched..];
    var a, b := if foundFirst then found else tail, if foundFirst then tail else found;
    InterleaveSize(a, b);
    InterleaveContents(a, b);
    assert addrs == addrs[..launched] + tail;
    var whole := addrs[..launched] + Interleave(a, b);
    assert multiset(whole) == multiset(addrs[..launched]) + multiset(a) + multiset(b);
    assert multiset(addrs) == multiset(addrs[..launched]) + multiset(tail);
  }

  lemma WovenBounds(addrs: seq<Addr>, launched: nat, maxAttempts: nat, found: seq<Addr>, foundFirst: bool)
    requires launched <= |addrs|
    ensures var w := Woven(addrs, launched, maxAttempts, found, foundFirst);
            launched <= |w| <= |addrs| + |found| && w[..launched] == addrs[..launched]
            && (maxAttempts > 0 ==> |w| <= Max(maxAttempts, launched))
  {
    hide Woven;
    WovenFacts(addrs, launched, maxAttempts, found, foundFirst);
  }

  /** After the launched part the two families alternate, the newly found addresses first or second as told. */
  lemma WovenAlternates(addrs: seq<Addr>, launched: nat, maxAttempts: nat, found: seq<Addr>, foundFirst: bool, k: nat)
    requires launched <= |addrs| && k < |addrs| - launched && k < |found|
    ensures var w := Woven(addrs, launched, maxAttempts, found, foundFirst);
            && (launched + 2 * k < |w| ==>
                  w[launched + 2 * k] == if foundFirst then found[k] else addrs[launched + k])
            && (launched + 2 * k + 1 < |w| ==>
                  w[launched + 2 * k + 1] == if foundFirst then addrs[launched + k] else found[k])
  {
    hide Interleave;
    var tail := addrs[launched..];
    var a, b := if foundFirst then found else tail, if foundFirst then tail else found;
    InterleaveAlternates(a, b, k);
    var whole := addrs[..launched] + Interleave(a, b);
    assert whole[launched + 2 * k] == a[k] && whole[launched + 2 * k + 1] == b[k];
  }
}
