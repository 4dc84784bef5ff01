/**
  The cancellation tree: `request_cancel` marks a state and walks its children under the
  state's tree lock, recursively, while other threads link new children, unlink dead ones and
  request cancellation elsewhere. One exchange or one locked list operation per step.
 */
module CancelTree {
  import opened Wrappers
  import opened Lists

  /**
    A call of `request_cancel` on the state. `nested` calls come from the parent's walk, which
    waits for them. While a call walks or waits it holds the state's tree lock.
   */
  datatype Call =
    | Inactive
    | Marked(nested: bool)                      // requested is set, children are next
    | Walking(rest: seq<nat>, nested: bool)     // children still to be visited
    | Waiting(rest: seq<nat>, nested: bool)     // for the nested call on rest[0]

  datatype Node = Node(parent: Option<nat>, linked: bool, requested: bool, children: seq<nat>, call: Call)

  type Tree = seq<Node>

  datatype Step = NewRoot | Link(p: nat) | Unlink(c: nat) | Request(n: nat) | Lock(n: nat) | Visit(n: nat) | Return(n: nat)

  predicate HoldsLock(call: Call) { call.Walking? || call.Waiting? }

  predicate Enabled(t: Tree, step: Step) {
    match step
    case NewRoot => true
    case Link(p) => p < |t| && !HoldsLock(t[p].call)
    case Unlink(c) =>
      // the last reference is gone: no children, and no call by anybody who holds a reference
      && c < |t| && t[c].linked && t[c].parent.Some? && t[c].parent.value < |t|
      && t[c].children == [] && t[c].call.Inactive? && !HoldsLock(t[t[c].parent.value].call)
    case Request(n) => n < |t|
    case Lock(n) => n < |t| && t[n].call.Marked?
    case Visit(n) => n < |t| && t[n].call.Walking? && t[n].call.rest != [] && t[n].call.rest[0] < |t|
    case Return(n) =>
      && n < |t| && t[n].call.Walking? && t[n].call.rest == []
      && (t[n].call.nested ==> t[n].parent.Some? && t[n].parent.value < n && t[t[n].parent.value].call.Waiting?
                               && t[t[n].parent.value].call.rest != [])
  }

  function Do(t: Tree, step: Step): Tree
    requires Enabled(t, step)
  {
    match step
    case NewRoot => t + [Node(None, false, false, [], Inactive)]
    case Link(p) =>
      t[p := t[p].(children := [|t|] + t[p].children)] + [Node(Some(p), true, t[p].requested, [], Inactive)]
    case Unlink(c) =>
      var p := t[c].parent.value;
      t[p := t[p].(children := Remove(t[p].children, c))][c := t[c].(linked := false)]
    case Request(n) => if t[n].requested then t else t[n := t[n].(requested := true, call := Marked(false))]
    case Lock(n) => t[n := t[n].(call := Walking(t[n].children, t[n].call.nested))]
    case Visit(n) =>
      var rest, nested := t[n].call.rest, t[n].call.nested;
      var c := rest[0];
      if t[c].requested then t[n := t[n].(call := Walking(rest[1..], nested))]
      else t[n := t[n].(call := Waiting(rest, nested))][c := t[c].(requested := true, call := Marked(true))]
    case Return(n) =>
      var t' := t[n := t[n].(call := Inactive)];
      if !t[n].call.nested then t'
      else
        var p := t[n].parent.value;
        t'[p := t[p].(call := Walking(t[p].call.rest[1..], t[p].call.nested))]
  }

  // ---- Invariant ---------------------------------------------------------------------------

  predicate IsChild(t: Tree, n: nat, c: nat) {
    c < |t| && t[c].parent == Some(n) && t[c].linked
  }

  /** The walk on `n` still has to come to child `c`. */
  predicate Expects(call: Call, c: nat) {
    call.Marked? || (HoldsLock(call) && c in call.rest)
  }

  /** Parents are older than their children, and the child lists say the same as the parents. */
  ghost predicate ShapeOk(t: Tree, n: nat)
    requires n < |t|
  {
    && (t[n].parent.Some? ==> t[n].parent.value < n)
    && (t[n].linked ==> t[n].parent.Some?)
    && Distinct(t[n].children)
    && (forall c: nat :: c in t[n].children <==> IsChild(t, n, c))
  }

  predicate CalledFrom(call: Call, c: nat) {
    call.Waiting? && call.rest != [] && call.rest[0] == c
  }

  ghost predicate CallOk(t: Tree, n: nat)
    requires n < |t|
  {
    && (!t[n].call.Inactive? ==> t[n].requested)
    && (HoldsLock(t[n].call) ==> forall c | c in t[n].call.rest :: c in t[n].children)
    && (!t[n].call.Inactive? && t[n].call.nested ==>
          && t[n].linked && t[n].parent.Some? && t[n].parent.value < n
          && CalledFrom(t[t[n].parent.value].call, n))
    && (t[n].call.Waiting? ==>
          t[n].call.rest != [] && t[n].call.rest[0] < |t| && NestedCall(t[t[n].call.rest[0]].call))
  }

  predicate NestedCall(call: Call) { !call.Inactive? && call.nested }

  /** A requested state has requested children, except for those that its walk has yet to visit. */
  ghost predicate Closed(t: Tree) {
    forall n: nat, c: nat | n < |t| && t[n].requested && IsChild(t, n, c) && !t[c].requested :: Expects(t[n].call, c)
  }

  ghost predicate Inv(t: Tree) {
    && (forall n | 0 <= n < |t| :: ShapeOk(t, n))
    && (forall n | 0 <= n < |t| :: CallOk(t, n))
    && Closed(t)
  }

  predicate SameShape(t: Tree, t': Tree) {
    |t'| == |t| && forall n | 0 <= n < |t| ::
      t'[n].parent == t[n].parent && t'[n].linked == t[n].linked && t'[n].children == t[n].children
  }

  lemma ShapeKeeps(t: Tree, t': Tree)
    requires SameShape(t, t') && forall n | 0 <= n < |t| :: ShapeOk(t, n)
    ensures forall n | 0 <= n < |t'| :: ShapeOk(t', n)
    ensures forall n, c :: IsChild(t', n, c) <==> IsChild(t, n, c)
  {
    assert forall n, c :: IsChild(t', n, c) <==> IsChild(t, n, c);
    forall n | 0 <= n < |t'| ensures ShapeOk(t', n) {
      assert ShapeOk(t, n);
    }
  }

  lemma RequestKeeps(t: Tree, n: nat)
    requires Inv(t) && Enabled(t, Request(n))
    ensures Inv(Do(t, Request(n)))
  {
    var t' := Do(t, Request(n));
    ShapeKeeps(t, t');
    hide ShapeOk;
    forall m | 0 <= m < |t'| ensures CallOk(t', m) {
      assert CallOk(t, m) && CallOk(t, n);
    }
  }

  lemma LockKeeps(t: Tree, n: nat)
    requires Inv(t) && Enabled(t, Lock(n))
    ensures Inv(Do(t, Lock(n)))
  {
    var t' := Do(t, Lock(n));
    ShapeKeeps(t, t');
    forall m | 0 <= m < |t'| ensures CallOk(t', m) {
      assert CallOk(t, m) && CallOk(t, n);
    }
    forall m: nat, c: nat | m < |t'| && t'[m].requested && IsChild(t', m, c) && !t'[c].requested
      ensures Expects(t'[m].call, c)
    {
      assert IsChild(t, m, c) && ShapeOk(t, m);
    }
  }

  lemma VisitKeeps(t: Tree, n: nat)
    requires Inv(t) && Enabled(t, Visit(n))
    ensures Inv(Do(t, Visit(n)))
  {
    var t', c := Do(t, Visit(n)), t[n].call.rest[0];
    assert CallOk(t, n) && c in t[n].call.rest && ShapeOk(t, n) && IsChild(t, n, c) && ShapeOk(t, c);
    ShapeKeeps(t, t');
    hide ShapeOk;
    forall m | 0 <= m < |t'| ensures CallOk(t', m) {
      assert CallOk(t, m) && CallOk(t, c);
    }
    forall m: nat, d: nat | m < |t'| && t'[m].requested && IsChild(t', m, d) && !t'[d].requested
      ensures Expects(t'[m].call, d)
    {
      assert IsChild(t, m, d);
    }
  }

  lemma ReturnKeeps(t: Tree, n: nat)
    requires Inv(t) && Enabled(t, Return(n))
    ensures Inv(Do(t, Return(n)))
  {
    var t' := Do(t, Return(n));
    assert CallOk(t, n);
    ShapeKeeps(t, t');
    forall m | 0 <= m < |t'| ensures CallOk(t', m) {
      assert CallOk(t, m) && ShapeOk(t, m);
      if t[m].call.Waiting? {
        assert IsChild(t, m, t[m].call.rest[0]);
      }
    }
    forall m: nat, d: nat | m < |t'| && t'[m].requested && IsChild(t', m, d) && !t'[d].requested
      ensures Expects(t'[m].call, d)
    {
      assert IsChild(t, m, d);
    }
  }

  lemma NewRootKeeps(t: Tree)
    requires Inv(t)
    ensures Inv(Do(t, NewRoot))
  {
    var t' := Do(t, NewRoot);
    assert forall n, c :: IsChild(t', n, c) <==> IsChild(t, n, c);
    forall m | 0 <= m < |t'| ensures ShapeOk(t', m) && CallOk(t', m) {
      if m < |t| {
        assert ShapeOk(t, m) && CallOk(t, m);
      } else {
        assert forall c | 0 <= c < |t| :: ShapeOk(t, c) ==> !IsChild(t, m, c);
      }
    }
  }

  /** A child linked under a requested parent is born requested. */
  lemma LinkKeeps(t: Tree, p: nat)
    requires Inv(t) && Enabled(t, Link(p))
    ensures Inv(Do(t, Link(p)))
  {
    var t' := Do(t, Link(p));
    assert ShapeOk(t, p);
    DistinctPrepend(|t|, t[p].children);
    assert forall n, c :: IsChild(t', n, c) <==> IsChild(t, n, c) || (n == p && c == |t|);
    forall c: nat ensures !IsChild(t', |t|, c) {
      assert c < |t| ==> ShapeOk(t, c);
    }
    forall m | 0 <= m < |t'| ensures ShapeOk(t', m) && CallOk(t', m) {
      if m < |t| {
        assert ShapeOk(t, m) && CallOk(t, m);
      }
    }
  }

  lemma UnlinkKeeps(t: Tree, c: nat)
    requires Inv(t) && Enabled(t, Unlink(c))
    ensures Inv(Do(t, Unlink(c)))
  {
    var t', p := Do(t, Unlink(c)), t[c].parent.value;
    assert ShapeOk(t, p) && ShapeOk(t, c) && IsChild(t, p, c);
    RemoveFacts(t[p].children, c);
    assert forall n, d :: IsChild(t', n, d) <==> IsChild(t, n, d) && d != c;
    hide Remove;
    forall m | 0 <= m < |t'| ensures ShapeOk(t', m) && CallOk(t', m) {
      assert ShapeOk(t, m) && CallOk(t, m);
    }
  }

  lemma StepKeepsInv(t: Tree, step: Step)
    requires Inv(t) && Enabled(t, step)
    ensures Inv(Do(t, step))
  {
    hide Inv, Enabled, Do;
    match step
    case NewRoot => NewRootKeeps(t);
    case Link(p) => LinkKeeps(t, p);
    case Unlink(c) => UnlinkKeeps(t, c);
    case Request(n) => RequestKeeps(t, n);
    case Lock(n) => LockKeeps(t, n);
    case Visit(n) => VisitKeeps(t, n);
    case Return(n) => ReturnKeeps(t, n);
  }

  /** A walk can always go on to its next child, or return to the walk that called it. */
  lemma NeverStuck(t: Tree, n: nat)
    requires Inv(t) && n < |t| && t[n].call.Walking?
    ensures if t[n].call.rest == [] then Enabled(t, Return(n)) else Enabled(t, Visit(n))
  {
    assert CallOk(t, n) && ShapeOk(t, n);
    if t[n].call.rest != [] {
      assert t[n].call.rest[0] in t[n].call.rest && IsChild(t, n, t[n].call.rest[0]);
    }
  }

  // ---- Whole runs ----------------------------------------------------------------------------

  ghost predicate Run(steps: seq<Step>, trees: seq<Tree>) {
    && |trees| == |steps| + 1 && trees[0] == []
    && forall i | 0 <= i < |steps| :: Enabled(trees[i], steps[i]) && trees[i + 1] == Do(trees[i], steps[i])
  }

  lemma {:induction false} RunKeepsInv(steps: seq<Step>, trees: seq<Tree>, k: nat)
    requires Run(steps, trees) && k < |trees|
    ensures Inv(trees[k])
  {
    hide Enabled, Do;
    if k > 0 {
      RunKeepsInv(steps, trees, k - 1);
      StepKeepsInv(trees[k - 1], steps[k - 1]);
    }
  }

  predicate NobodyCancelling(t: Tree) {
    forall n | 0 <= n < |t| :: t[n].call.Inactive?
  }

  /** `path` leads from a state down to one of its descendants. */
  predicate Path(t: Tree, path: seq<nat>) {
    && path != [] && path[0] < |t|
    && forall i | 0 <= i < |path| - 1 :: IsChild(t, path[i], path[i + 1])
  }

  /** Linking makes the new state a child, requested like its parent, and unlinking takes exactly one out. */
  lemma LinkAndUnlink(t: Tree, p: nat, c: nat)
    requires Inv(t)
    ensures Do(t, NewRoot) == t + [Node(None, false, false, [], Inactive)]
    ensures Enabled(t, Link(p)) ==>
              var t' := Do(t, Link(p));
              && t'[|t|].requested == t[p].requested
              && forall n, d :: IsChild(t', n, d) <==> IsChild(t, n, d) || (n == p && d == |t|)
    ensures Enabled(t, Unlink(c)) ==>
              forall n, d :: IsChild(Do(t, Unlink(c)), n, d) <==> IsChild(t, n, d) && d != c
  {
  }

  /** When no `request_cancel` is running, everything below a requested state is requested. */
  lemma RequestedIsClosedDownward(steps: seq<Step>, trees: seq<Tree>, k: nat, path: seq<nat>)
    requires Run(steps, trees) && k < |trees| && NobodyCancelling(trees[k])
    requires Path(trees[k], path) && trees[k][path[0]].requested
    ensures path[|path| - 1] < |trees[k]| && trees[k][path[|path| - 1]].requested
  {
    RunKeepsInv(steps, trees, k);
    ClosedAlong(trees[k], path);
  }

  /** Requests are never taken back. */
  lemma RequestedStays(t: Tree, step: Step, n: nat)
    requires Inv(t) && Enabled(t, step) && n < |t| && t[n].requested
    ensures n < |Do(t, step)| && Do(t, step)[n].requested
  {
  }

  /** A walk that waits, waits for a nested call on its own child. */
  lemma NestedCallIsTheParents(steps: seq<Step>, trees: seq<Tree>, k: nat, n: nat)
    requires Run(steps, trees) && k < |trees| && n < |trees[k]| && trees[k][n].call.Waiting?
    ensures trees[k][n].call.rest != []
    ensures var c := trees[k][n].call.rest[0];
            c < |trees[k]| && IsChild(trees[k], n, c) && NestedCall(trees[k][c].call) && trees[k][c].requested
  {
    RunKeepsInv(steps, trees, k);
    var t := trees[k];
    assert CallOk(t, n) && ShapeOk(t, n);
    assert t[n].call.rest[0] in t[n].call.rest && CallOk(t, t[n].call.rest[0]);
  }

  /**
    Two calls never work on the same state: while one is under way, no step begins another,
    since whoever finds the state requested leaves at once.
   */
  lemma NoSecondCall(steps: seq<Step>, trees: seq<Tree>, k: nat, n: nat)
    requires Run(steps, trees) && k < |steps| && n < |trees[k]| && !trees[k][n].call.Inactive?
    ensures n < |trees[k + 1]|
    ensures trees[k + 1][n].call.Inactive? ==> steps[k] == Return(n)
    ensures trees[k + 1][n].call.Marked? ==> trees[k + 1][n].call == trees[k][n].call
    ensures !trees[k + 1][n].call.Inactive? ==> trees[k + 1][n].call.nested == trees[k][n].call.nested
  {
    RunKeepsInv(steps, trees, k);
    assert CallOk(trees[k], n);
  }

  lemma {:induction false} RequestedStaysInRun(steps: seq<Step>, trees: seq<Tree>, i: nat, k: nat, n: nat)
    requires Run(steps, trees) && i <= k < |trees| && n < |trees[i]| && trees[i][n].requested
    ensures n < |trees[k]| && trees[k][n].requested
    decreases k
  {
    hide Enabled, Do;
    if i < k {
      RequestedStaysInRun(steps, trees, i, k - 1, n);
      RunKeepsInv(steps, trees, k - 1);
      RequestedStays(trees[k - 1], steps[k - 1], n);
    }
  }

  /**
    A call has its effect: after `request_cancel` on a state, and whenever later no call is under
    way, the state and everything that is below it then are requested.
   */
  lemma RequestTakesEffect(steps: seq<Step>, trees: seq<Tree>, i: nat, k: nat, path: seq<nat>)
    requires Run(steps, trees) && i < k < |trees| && path != [] && steps[i] == Request(path[0])
    requires NobodyCancelling(trees[k]) && Path(trees[k], path)
    ensures path[|path| - 1] < |trees[k]| && trees[k][path[|path| - 1]].requested
  {
    RequestedStaysInRun(steps, trees, i + 1, k, path[0]);
    RequestedIsClosedDownward(steps, trees, k, path);
  }

  // ---- A call that nobody disturbs --------------------------------------------------------------

  /** `steps` lead from `t` to `t'`. */
  ghost predicate Leads(t: Tree, steps: seq<Step>, t': Tree)
    decreases |steps|
  {
    if steps == [] then t' == t else Enabled(t, steps[0]) && Leads(Do(t, steps[0]), steps[1..], t')
  }

  lemma {:induction false} LeadsOn(a: Tree, first: seq<Step>, b: Tree, second: seq<Step>, c: Tree)
    requires Leads(a, first, b) && Leads(b, second, c)
    ensures Leads(a, first + second, c)
    decreases |first|
  {
    if first == [] {
      assert first + second == second;
    } else {
      assert (first + second)[1..] == first[1..] + second;
      LeadsOn(Do(a, first[0]), first[1..], b, second, c);
    }
  }

  lemma OneStep(t: Tree, step: Step)
    requires Enabled(t, step)
    ensures Leads(t, [step], Do(t, step))
  {
    assert [step][1..] == [];
    assert Leads(Do(t, step), [], Do(t, step));
  }

  /** The same tree with the same calls, but for the one on `n`. */
  ghost predicate OnlyCallOf(t: Tree, t': Tree, n: nat) {
    SameShape(t, t') && forall m | 0 <= m < |t| && m != n :: t'[m].call == t[m].call
  }

  /** The walk on `n` visits one child more, with all that is below it. */
  lemma {:induction false} VisitFinishes(t: Tree, n: nat) returns (steps: seq<Step>, t': Tree)
    requires Inv(t) && n < |t| && t[n].call.Walking? && t[n].call.rest != []
    ensures Leads(t, steps, t') && Inv(t') && OnlyCallOf(t, t', n)
    ensures t'[n].call == Walking(t[n].call.rest[1..], t[n].call.nested)
    decreases |t| - n, 0
  {
    hide Leads, Inv;
    var c := t[n].call.rest[0];
    NextChild(t, n);
    var t1 := Do(t, Visit(n));
    StepKeepsInv(t, Visit(n));
    OneStep(t, Visit(n));
    if t[c].requested {
      return [Visit(n)], t1;
    }
    var more, t2 := WalkFinishes(t1, c);
    LeadsOn(t, [Visit(n)], t1, more, t2);
    assert Enabled(t2, Return(c));
    StepKeepsInv(t2, Return(c));
    OneStep(t2, Return(c));
    t' := Do(t2, Return(c));
    LeadsOn(t, [Visit(n)] + more, t2, [Return(c)], t');
    steps := [Visit(n)] + more + [Return(c)];
  }

  lemma NextChild(t: Tree, n: nat)
    requires Inv(t) && n < |t| && t[n].call.Walking? && t[n].call.rest != []
    ensures var c := t[n].call.rest[0];
            Enabled(t, Visit(n)) && n < c < |t| && t[c].parent == Some(n) && (t[c].requested || t[c].call.Inactive?)
  {
    var c := t[n].call.rest[0];
    assert CallOk(t, n) && c in t[n].call.rest && ShapeOk(t, n) && IsChild(t, n, c) && ShapeOk(t, c) && CallOk(t, c);
  }

  /** A call that has marked its state, or is walking, gets to the end of its children. */
  lemma {:induction false} WalkFinishes(t: Tree, n: nat) returns (steps: seq<Step>, t': Tree)
    requires Inv(t) && n < |t| && (t[n].call.Marked? || t[n].call.Walking?)
    ensures Leads(t, steps, t') && Inv(t') && OnlyCallOf(t, t', n)
    ensures t'[n].call == Walking([], t[n].call.nested)
    decreases |t| - n, if t[n].call.Marked? then |t[n].children| + 2 else |t[n].call.rest| + 1
  {
    hide Leads, Inv;
    if t[n].call.Marked? {
      var t1 := Do(t, Lock(n));
      OneStep(t, Lock(n));
      StepKeepsInv(t, Lock(n));
      var more;
      more, t' := WalkFinishes(t1, n);
      LeadsOn(t, [Lock(n)], t1, more, t');
      steps := [Lock(n)] + more;
    } else if t[n].call.rest == [] {
      Stay(t);
      return [], t;
    } else {
      var first, t1 := VisitFinishes(t, n);
      var more;
      more, t' := WalkFinishes(t1, n);
      LeadsOn(t, first, t1, more, t');
      steps := first + more;
    }
  }

  lemma Stay(t: Tree)
    ensures Leads(t, [], t)
  {
  }

  /**
    A call on a state not yet requested that nobody disturbs returns after finitely many steps
    of its own, and leaves the calls of others as they were. If there are none, everything below
    the state is requested then.
   */
  lemma CallReturns(t: Tree, n: nat) returns (steps: seq<Step>, t': Tree)
    requires Inv(t) && n < |t| && !t[n].requested
    ensures Leads(t, [Request(n)] + steps, t') && Inv(t') && SameShape(t, t') && t'[n].requested
    ensures forall m | 0 <= m < |t| :: t'[m].call == t[m].call
    ensures NobodyCancelling(t) ==>
              forall path | Path(t', path) && path[0] == n ::
                path[|path| - 1] < |t'| && t'[path[|path| - 1]].requested
  {
    hide Leads;
    assert CallOk(t, n);
    var t1 := Do(t, Request(n));
    OneStep(t, Request(n));
    StepKeepsInv(t, Request(n));
    var walk, t2 := WalkFinishes(t1, n);
    OneStep(t2, Return(n));
    StepKeepsInv(t2, Return(n));
    t' := Do(t2, Return(n));
    LeadsOn(t, [Request(n)], t1, walk, t2);
    LeadsOn(t, [Request(n)] + walk, t2, [Return(n)], t');
    steps := walk + [Return(n)];
    assert [Request(n)] + walk + [Return(n)] == [Request(n)] + steps;
    assert CallOk(t2, n);
    if NobodyCancelling(t) {
      forall path | Path(t', path) && path[0] == n
        ensures path[|path| - 1] < |t'| && t'[path[|path| - 1]].requested
      {
        ClosedAlong(t', path);
      }
    }
  }

  lemma {:induction false} ClosedAlong(t: Tree, path: seq<nat>)
    requires Inv(t) && NobodyCancelling(t) && Path(t, path) && t[path[0]].requested
    ensures path[|path| - 1] < |t| && t[path[|path| - 1]].requested
    decreases |path|
  {
    if |path| > 1 {
      assert IsChild(t, path[0], path[1]);
      ClosedAlong(t, path[1..]);
    }
  }
}
