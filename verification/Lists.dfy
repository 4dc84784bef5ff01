/** Sequences without duplicates, and sums: what the wait-list protocols need. */
module Lists {

  function Remove<T(==)>(list: seq<T>, t: T): seq<T> {
    if list == [] then [] else if list[0] == t then list[1..] else [list[0]] + Remove(list[1..], t)
  }

  function Without<T>(list: seq<T>, i: nat): seq<T>
    requires i < |list|
  {
    list[..i] + list[i + 1..]
  }

  function Elements<T>(list: seq<T>): set<T> {
    set i | 0 <= i < |list| :: list[i]
  }

  function Sum(list: seq<nat>): nat {
    if list == [] then 0 else list[0] + Sum(list[1..])
  }

  ghost predicate Distinct<T>(list: seq<T>) {
    forall i, j | 0 <= i < j < |list| :: list[i] != list[j]
  }

  lemma {:induction false} RemoveFacts<T>(list: seq<T>, t: T)
    requires Distinct(list) && t in list
    ensures Distinct(Remove(list, t)) && forall x :: x in Remove(list, t) <==> x in list && x != t
  {
    var tail := list[1..];
    assert forall x :: x in list <==> x == list[0] || x in tail;
    assert list[0] !in tail && Distinct(tail);
    if list[0] != t {
      RemoveFacts(tail, t);
      var r := Remove(tail, t);
      assert forall x :: x in [list[0]] + r <==> x == list[0] || x in r;
      assert forall j | 0 < j < |r| + 1 :: ([list[0]] + r)[j] == r[j - 1] && r[j - 1] in r;
    }
  }

  lemma DistinctPrepend<T>(x: T, list: seq<T>)
    requires Distinct(list) && x !in list
    ensures Distinct([x] + list) && forall y :: y in [x] + list <==> y == x || y in list
  {
    assert forall j | 0 < j < |list| + 1 :: ([x] + list)[j] == list[j - 1] && list[j - 1] in list;
  }

  lemma {:induction false} SumAppend(list: seq<nat>, k: nat)
    ensures Sum(list + [k]) == Sum(list) + k
  {
    if list == [] {
      assert list + [k] == [k];
    } else {
      assert (list + [k])[1..] == list[1..] + [k];
      SumAppend(list[1..], k);
    }
  }

  lemma {:induction false} SumWithout(list: seq<nat>, i: nat)
    requires i < |list|
    ensures Sum(Without(list, i)) == Sum(list) - list[i]
  {
    if i == 0 {
      assert Without(list, i) == list[1..];
    } else {
      assert Without(list, i) == [list[0]] + Without(list[1..], i - 1);
      SumWithout(list[1..], i - 1);
    }
  }

  lemma {:induction false} ElementsSize<T>(list: seq<T>)
    requires Distinct(list)
    ensures |Elements(list)| == |list|
  {
    if list != [] {
      var n := |list| - 1;
      ElementsSize(list[..n]);
      assert Elements(list) == Elements(list[..n]) + {list[n]};
    }
  }

  ghost predicate Increasing(list: seq<nat>) {
    forall i, j | 0 <= i < j < |list| :: list[i] < list[j]
  }

  lemma IncreasingAppend(list: seq<nat>, t: nat)
    requires Increasing(list) && forall x | x in list :: x < t
    ensures Increasing(list + [t]) && forall x :: x in list + [t] <==> x in list || x == t
  {
    forall i | 0 <= i < |list| ensures list[i] < t {
      assert list[i] in list;
    }
  }

  lemma IncreasingPrepend(t: nat, list: seq<nat>)
    requires Increasing(list) && forall x | x in list :: t < x
    ensures Increasing([t] + list)
  {
    assert forall i | 0 < i < |list| + 1 :: ([t] + list)[i] == list[i - 1] && list[i - 1] in list;
  }

  lemma IncreasingTail(list: seq<nat>)
    requires Increasing(list) && list != []
    ensures Increasing(list[1..]) && forall x | x in list[1..] :: list[0] < x
    ensures forall x :: x in list <==> x == list[0] || x in list[1..]
  {
    assert list == [list[0]] + list[1..];
  }

  lemma {:induction false} RemoveFromIncreasing(list: seq<nat>, t: nat)
    requires Increasing(list) && t in list
    ensures Increasing(Remove(list, t)) && forall x :: x in Remove(list, t) <==> x in list && x != t
  {
    RemoveFacts(list, t);
    IncreasingTail(list);
    if list[0] != t {
      RemoveFromIncreasing(list[1..], t);
      IncreasingPrepend(list[0], Remove(list[1..], t));
    }
  }
}
