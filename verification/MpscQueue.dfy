/**
  The intrusive multi-producer single-consumer queue as a state machine: every atomic
  operation of `push` and `pop` is one step, and steps of any number of pushes interleave
  freely with those of the one popper.

  A node's null `next` is a missing key of the map. A push in progress is known by its node.
 */
module MpscQueue {
  import opened Lists

  type Node = nat

  const STUB: Node := 0

  /** Where the popper stands: the atomic operation that it performs next. */
  datatype PopPc = Idle | LoadSecond | LoadTail | ClearStub | SwapStub | LinkStub | LoadLast

  datatype State = State(
    next: map<Node, Node>,
    head: Node,
    tail: Node,
    pc: PopPc,
    cleared: set<Node>,         // pushes that are about to exchange the tail
    linking: map<Node, Node>,   // pushed node -> previous tail, not linked yet
    chain: seq<Node>,           // history: the nodes from head to tail
    pushed: seq<Node>,          // history: in the order of the tail exchanges
    popped: seq<Node>,          // history: what pop returned
    sawGap: bool                // history: has the current pop seen a gap?
  )

  datatype Step = PushClear(n: Node) | PushSwap(n: Node) | PushLink(n: Node) | Pop

  function Init(): State {
    State(map[], STUB, STUB, Idle, {}, map[], [STUB], [], [], false)
  }

  /** A push may begin with any node that is not in the queue already. */
  predicate Enabled(s: State, step: Step) {
    match step
    case PushClear(n) => n != STUB && n !in s.cleared && n !in s.chain
    case PushSwap(n) => n in s.cleared
    case PushLink(n) => n in s.linking && n != STUB
    case Pop => s.chain != [] && (s.pc.LinkStub? ==> STUB in s.linking)   // always so, see RunKeepsInv
  }

  /** Move the head on and return the node it was. */
  function Return(s: State): State
    requires s.head in s.next && s.chain != []
  {
    s.(head := s.next[s.head], pc := Idle, chain := s.chain[1..], popped := s.popped + [s.head])
  }

  function PopStep(s: State): State
    requires Enabled(s, Pop)
  {
    match s.pc
    case Idle =>
      if s.head == STUB then
        if STUB !in s.next then s
        else s.(head := s.next[STUB], pc := LoadSecond, chain := s.chain[1..])
      else if s.head in s.next then Return(s)
      else s.(pc := LoadTail)
    case LoadSecond => if s.head in s.next then Return(s) else s.(pc := LoadTail)
    case LoadTail => s.(pc := if s.tail != s.head then Idle else ClearStub)
    case ClearStub => s.(next := s.next - {STUB}, pc := SwapStub)
    case SwapStub =>
      s.(tail := STUB, linking := s.linking[STUB := s.tail], chain := s.chain + [STUB], pc := LinkStub)
    case LinkStub =>
      s.(next := s.next[s.linking[STUB] := STUB], linking := s.linking - {STUB}, pc := LoadLast)
    case LoadLast => if s.head in s.next then Return(s) else s.(pc := Idle)
  }

  /** Does this step make pop return, and return null? */
  predicate ReturnsNull(s: State, step: Step)
    requires Enabled(s, step)
  {
    step.Pop? && PopStep(s).pc.Idle? && PopStep(s).popped == s.popped
  }

  function Effect(s: State, step: Step): State
    requires Enabled(s, step)
  {
    match step
    case PushClear(n) => s.(next := s.next - {n}, cleared := s.cleared + {n})
    case PushSwap(n) =>
      s.(tail := n, cleared := s.cleared - {n}, linking := s.linking[n := s.tail], chain := s.chain + [n],
         pushed := s.pushed + [n])
    case PushLink(n) => s.(next := s.next[s.linking[n] := n], linking := s.linking - {n})
    case Pop => PopStep(s)
  }

  /** The nodes in the queue proper. */
  function NonStub(chain: seq<Node>): seq<Node> {
    if chain == [] then []
    else NonStub(chain[..|chain| - 1]) + if chain[|chain| - 1] == STUB then [] else [chain[|chain| - 1]]
  }

  predicate Unlinked(s: State) {
    exists n :: n in s.linking && n != STUB
  }

  predicate Empty(s: State) {
    NonStub(s.chain) == []
  }

  predicate Gap(s: State) {
    Empty(s) || Unlinked(s)
  }

  function Do(s: State, step: Step): State
    requires Enabled(s, step)
  {
    var s' := Effect(s, step);
    s'.(sawGap := (if step.Pop? && s.pc.Idle? then Gap(s) else s.sawGap) || Gap(s'))
  }

  // ---- Invariant ---------------------------------------------------------------------------

  /** Neighbours are linked, or the later one is a push that has yet to link itself. */
  ghost predicate Joined(s: State, i: nat)
    requires i + 1 < |s.chain|
  {
    var a, b := s.chain[i], s.chain[i + 1];
    if b in s.linking then s.linking[b] == a && a !in s.next
    else a in s.next && s.next[a] == b
  }

  ghost predicate Chained(s: State) {
    && s.chain != [] && s.chain[0] == s.head && s.chain[|s.chain| - 1] == s.tail
    && s.tail !in s.next
    && Distinct(s.chain)
    && (forall i: nat | i + 1 < |s.chain| :: Joined(s, i))
    && (forall n | n in s.linking :: n in s.chain && n != s.head)
  }

  ghost predicate PopperOk(s: State) {
    && (STUB in s.linking <==> s.pc.LinkStub?)
    && (!s.pc.Idle? ==> s.head != STUB)
    && (s.pc.LoadSecond? || s.pc.ClearStub? || s.pc.SwapStub? ==> STUB !in s.chain)
    && (s.pc.SwapStub? ==> STUB !in s.next)
    && (s.pc.LoadLast? ==> STUB in s.chain)
    && (s.pc.LoadTail? ==> s.sawGap || s.chain == [s.head])
  }

  ghost predicate Inv(s: State) {
    && Chained(s) && PopperOk(s)
    && (forall n | n in s.cleared :: n != STUB && n !in s.chain && n !in s.next)
    && s.pushed == s.popped + NonStub(s.chain) && STUB !in s.pushed
  }

  lemma NonStubPush(chain: seq<Node>, n: Node)
    ensures NonStub(chain + [n]) == NonStub(chain) + if n == STUB then [] else [n]
  {
    assert (chain + [n])[..|chain|] == chain;
  }

  lemma StubAlone()
    ensures NonStub([STUB]) == []
  {
    NonStubPush([], STUB);
    assert [] + [STUB] == [STUB];
  }

  lemma {:induction false} NonStubPop(chain: seq<Node>)
    requires chain != []
    ensures NonStub(chain) == (if chain[0] == STUB then [] else [chain[0]]) + NonStub(chain[1..])
  {
    var last := |chain| - 1;
    if last > 0 {
      NonStubPop(chain[..last]);
      assert chain[..last][1..] == chain[1..][..last - 1];
    }
  }

  lemma PushClearKeeps(s: State, n: Node)
    requires Inv(s) && Enabled(s, PushClear(n))
    ensures Inv(Do(s, PushClear(n)))
  {
    var s' := Do(s, PushClear(n));
    forall i: nat | i + 1 < |s'.chain| ensures Joined(s', i) {
      assert Joined(s, i) && s.chain[i] != n;
    }
  }

  lemma PushSwapKeeps(s: State, n: Node)
    requires Inv(s) && Enabled(s, PushSwap(n))
    ensures Inv(Do(s, PushSwap(n)))
  {
    var s' := Do(s, PushSwap(n));
    NonStubPush(s.chain, n);
    assert n in s'.linking;
    forall i: nat | i + 1 < |s'.chain| ensures Joined(s', i) {
      if i + 1 < |s.chain| {
        assert Joined(s, i) && s.chain[i + 1] in s.chain;
      }
    }
  }

  lemma LinkKeepsJoined(s: State, s': State, n: Node)
    requires Chained(s) && n in s.linking && s'.chain == s.chain && s'.head == s.head && s'.tail == s.tail
    requires s'.next == s.next[s.linking[n] := n] && s'.linking == s.linking - {n}
    ensures Chained(s')
  {
    var k :| 0 <= k < |s.chain| && s.chain[k] == n;
    assert Joined(s, k - 1);
    forall i: nat | i + 1 < |s'.chain| ensures Joined(s', i) {
      assert Joined(s, i);
    }
  }

  lemma PushLinkKeeps(s: State, n: Node)
    requires Inv(s) && Enabled(s, PushLink(n))
    ensures Inv(Do(s, PushLink(n)))
  {
    var s' := Do(s, PushLink(n));
    LinkKeepsJoined(s, s', n);
    var k :| 0 <= k < |s.chain| && s.chain[k] == n;
    assert Joined(s, k - 1) && s.linking[n] in s.chain;
  }

  /** The head may move on once its successor is linked. */
  lemma AdvanceKeepsChained(s: State, s': State)
    requires Chained(s) && s.head in s.next
    requires s'.chain == s.chain[1..] && s'.head == s.next[s.head] && s'.tail == s.tail
    requires s'.next == s.next && s'.linking == s.linking
    ensures Chained(s') && |s.chain| > 1
  {
    assert |s.chain| > 1 && Joined(s, 0);
    forall i: nat | i + 1 < |s'.chain| ensures Joined(s', i) {
      assert Joined(s, i + 1);
    }
    forall n | n in s'.linking ensures n in s'.chain && n != s'.head {
      var k :| 0 <= k < |s.chain| && s.chain[k] == n;
      assert s'.chain[k - 1] == n;
    }
  }

  lemma ReturnKeeps(s: State)
    requires Inv(s) && s.head in s.next && s.head != STUB && !s.pc.LinkStub?
    ensures forall gap :: Inv(Return(s).(sawGap := gap))
  {
    NonStubPop(s.chain);
    forall gap ensures Inv(Return(s).(sawGap := gap)) {
      AdvanceKeepsChained(s, Return(s).(sawGap := gap));
    }
  }

  /** A node without successor is the last one, or the next push is not linked yet. */
  lemma NullMeansGap(s: State)
    requires Chained(s) && s.head !in s.next && !s.pc.LinkStub? && PopperOk(s)
    ensures s.chain == [s.head] || Unlinked(s)
  {
    if |s.chain| > 1 {
      assert Joined(s, 0);
      assert s.chain[1] in s.linking && s.chain[1] != STUB;
    }
  }

  lemma SameChain(s: State, s': State)
    requires Chained(s) && s'.next == s.next && s'.head == s.head && s'.tail == s.tail
    requires s'.linking == s.linking && s'.chain == s.chain
    ensures Chained(s')
  {
    assert forall i: nat | i + 1 < |s'.chain| :: Joined(s, i) ==> Joined(s', i);
  }

  lemma LoadHeadKeeps(s: State)
    requires Inv(s) && s.pc.Idle?
    ensures Inv(Do(s, Pop))
  {
    var s' := Do(s, Pop);
    if s.head in s.next {
      if s.head == STUB {
        NonStubPop(s.chain);
        AdvanceKeepsChained(s, s');
        assert STUB !in s'.chain;
      } else {
        ReturnKeeps(s);
      }
    } else {
      SameChain(s, s');
      NullMeansGap(s);
    }
  }

  lemma LoadNextKeeps(s: State)
    requires Inv(s) && (s.pc.LoadSecond? || s.pc.LoadLast?)
    ensures Inv(Do(s, Pop))
  {
    if s.head in s.next {
      ReturnKeeps(s);
    } else {
      SameChain(s, Do(s, Pop));
      NullMeansGap(s);
    }
  }

  lemma LoadTailKeeps(s: State)
    requires Inv(s) && s.pc.LoadTail?
    ensures Inv(Do(s, Pop))
  {
    SameChain(s, Do(s, Pop));
    assert s.tail == s.head ==> |s.chain| == 1;
  }

  lemma ClearStubKeeps(s: State)
    requires Inv(s) && s.pc.ClearStub?
    ensures Inv(Do(s, Pop))
  {
    var s' := Do(s, Pop);
    forall i: nat | i + 1 < |s'.chain| ensures Joined(s', i) {
      assert Joined(s, i) && s.chain[i] in s.chain;
    }
  }

  lemma LinkStubKeeps(s: State)
    requires Inv(s) && s.pc.LinkStub?
    ensures Inv(Do(s, Pop))
  {
    LinkKeepsJoined(s, Do(s, Pop), STUB);
    var k :| 0 <= k < |s.chain| && s.chain[k] == STUB;
    assert Joined(s, k - 1) && s.linking[STUB] in s.chain;
  }

  lemma PopKeeps(s: State)
    requires Inv(s)
    ensures Inv(Do(s, Pop))
  {
    hide *;
    match s.pc
    case Idle => LoadHeadKeeps(s);
    case LoadSecond => LoadNextKeeps(s);
    case LoadTail => LoadTailKeeps(s);
    case ClearStub => ClearStubKeeps(s);
    case SwapStub => SwapStubKeeps(s);
    case LinkStub => LinkStubKeeps(s);
    case LoadLast => LoadNextKeeps(s);
  }

  lemma SwapStubKeeps(s: State)
    requires Inv(s) && s.pc.SwapStub?
    ensures Inv(Do(s, Pop))
  {
    var s' := Do(s, Pop);
    NonStubPush(s.chain, STUB);
    forall i: nat | i + 1 < |s'.chain| ensures Joined(s', i) {
      if i + 1 < |s.chain| {
        assert Joined(s, i) && s.chain[i + 1] in s.chain;
      }
    }
  }

  /** When pop returns null, its head has no successor, or has one that was pushed meanwhile. */
  lemma NullSawGap(s: State)
    requires Inv(s) && Enabled(s, Pop) && ReturnsNull(s, Pop)
    ensures Do(s, Pop).sawGap
  {
    if !s.pc.LoadTail? {
      NullMeansGap(s);
      StubAlone();
    }
  }

  lemma StepKeepsInv(s: State, step: Step)
    requires Inv(s) && Enabled(s, step)
    ensures Inv(Do(s, step))
    ensures ReturnsNull(s, step) ==> Do(s, step).sawGap
  {
    match step
    case PushClear(n) => PushClearKeeps(s, n);
    case PushSwap(n) => PushSwapKeeps(s, n);
    case PushLink(n) => PushLinkKeeps(s, n);
    case Pop =>
      PopKeeps(s);
      if ReturnsNull(s, step) {
        NullSawGap(s);
      }
  }

  // ---- Whole runs ----------------------------------------------------------------------------

  ghost predicate Run(steps: seq<Step>, states: seq<State>) {
    && |states| == |steps| + 1 && states[0] == Init()
    && forall i | 0 <= i < |steps| :: Enabled(states[i], steps[i]) && states[i + 1] == Do(states[i], steps[i])
  }

  lemma {:induction false} RunKeepsInv(steps: seq<Step>, states: seq<State>, k: nat)
    requires Run(steps, states) && k < |states|
    ensures Inv(states[k]) && Enabled(states[k], Pop)
  {
    if k == 0 {
      StubAlone();
    } else {
      RunKeepsInv(steps, states, k - 1);
      StepKeepsInv(states[k - 1], steps[k - 1]);
    }
  }

  /**
    In every interleaving: what was popped is a prefix of what was pushed, in tail-exchange
    order; the stub is never returned and never twice in the chain; and what has not been
    popped is what the chain holds.
   */
  lemma PoppedIsPrefixOfPushed(steps: seq<Step>, states: seq<State>, k: nat)
    requires Run(steps, states) && k < |states|
    ensures states[k].popped <= states[k].pushed
    ensures states[k].pushed[|states[k].popped|..] == NonStub(states[k].chain)
    ensures STUB !in states[k].popped
    ensures forall i, j | 0 <= i < j < |states[k].chain| :: !(states[k].chain[i] == states[k].chain[j] == STUB)
  {
    RunKeepsInv(steps, states, k);
  }

  predicate PoppingFrom(s: State, step: Step) {
    step.Pop? && s.pc.Idle?
  }

  lemma {:induction false} SawGapMeansGap(steps: seq<Step>, states: seq<State>, k: nat) returns (g: nat)
    requires Run(steps, states) && k < |states| && states[k].sawGap
    ensures g <= k && Gap(states[g])
    ensures forall i | g < i < k :: !PoppingFrom(states[i], steps[i])
    decreases k
  {
    hide NonStub, Effect, Enabled;
    if Gap(states[k]) {
      return k;
    }
    assert states[0] == Init() && !states[0].sawGap;
    if PoppingFrom(states[k - 1], steps[k - 1]) {
      return k - 1;
    }
    g := SawGapMeansGap(steps, states, k - 1);
  }

  /**
    If pop returns null at step `k`, then at some instant `g` of that pop (no pop begins after
    it) the queue was empty or a push was between its exchange and its link.
   */
  lemma NullMeansEmptyOrUnlinked(steps: seq<Step>, states: seq<State>, k: nat) returns (g: nat)
    requires Run(steps, states) && k < |steps| && ReturnsNull(states[k], steps[k])
    ensures g <= k + 1 && (Empty(states[g]) || Unlinked(states[g]))
    ensures forall i | g < i <= k :: !PoppingFrom(states[i], steps[i])
  {
    RunKeepsInv(steps, states, k);
    StepKeepsInv(states[k], steps[k]);
    g := SawGapMeansGap(steps, states, k + 1);
  }

  /** Without a gap at the very moment of the return, null comes from the tail check alone. */
  lemma NullWithoutGapIff(s: State)
    requires Inv(s) && !Gap(s) && Enabled(s, Pop)
    ensures ReturnsNull(s, Pop) <==> s.pc.LoadTail? && s.tail != s.head
  {
    StubAlone();
    if ReturnsNull(s, Pop) && !s.pc.LoadTail? {
      NullMeansGap(s);
    }
  }

  /** A push that nobody disturbs appends its node. */
  lemma WholePush(s: State, n: Node)
    requires Enabled(s, PushClear(n)) && n !in s.linking
    ensures var s1 := Do(s, PushClear(n));
            && Enabled(s1, PushSwap(n))
            && var s2 := Do(s1, PushSwap(n));
            && Enabled(s2, PushLink(n))
            && Do(s2, PushLink(n))
               == s.(next := (s.next - {n})[s.tail := n], tail := n, chain := s.chain + [n], pushed := s.pushed + [n],
                     sawGap := true)
  {
    hide NonStub;
    var s2 := Do(Do(s, PushClear(n)), PushSwap(n));
    assert n in s2.linking && Unlinked(s2);
    assert s2.linking - {n} == s.linking && s.cleared + {n} - {n} == s.cleared;
  }

  lemma Extend(steps: seq<Step>, states: seq<State>, step: Step) returns (steps': seq<Step>, states': seq<State>)
    requires Run(steps, states) && Enabled(states[|steps|], step)
    ensures steps' == steps + [step] && states' == states + [Do(states[|steps|], step)] && Run(steps', states')
  {
    steps', states' := steps + [step], states + [Do(states[|steps|], step)];
  }

  lemma ExtendByPush(steps: seq<Step>, states: seq<State>, n: Node) returns (steps': seq<Step>, states': seq<State>)
    requires Run(steps, states) && Enabled(states[|steps|], PushClear(n)) && n !in states[|steps|].linking
    ensures Run(steps', states') && |steps'| == |steps| + 3
    ensures var s := states[|steps|];
            states'[|steps'|] == s.(next := (s.next - {n})[s.tail := n], tail := n, chain := s.chain + [n],
                                    pushed := s.pushed + [n], sawGap := true)
  {
    WholePush(states[|steps|], n);
    hide Do;
    steps', states' := Extend(steps, states, PushClear(n));
    steps', states' := Extend(steps', states', PushSwap(n));
    steps', states' := Extend(steps', states', PushLink(n));
  }

  /** One push overtakes the popper: null, although two linked nodes are waiting. */
  lemma NullDespiteLinkedNodes() returns (steps: seq<Step>, states: seq<State>)
    ensures Run(steps, states) && |steps| == 9
    ensures ReturnsNull(states[8], steps[8]) && states[8].chain == [1, 2] && states[8].linking == map[]
  {
    hide Gap;
    steps, states := ExtendByPush([], [Init()], 1);
    assert states[3].next == map[0 := 1] && states[3].chain == [0, 1];
    steps, states := Extend(steps, states, Pop);
    assert states[4].head == 1 && states[4].chain == [1];
    steps, states := Extend(steps, states, Pop);
    steps, states := ExtendByPush(steps, states, 2);
    steps, states := Extend(steps, states, Pop);
  }

  // ---- A pop that nobody disturbs ------------------------------------------------------------------

  /** `n` steps of the popper lead from `s` to `s'`, and none of them returns null. */
  ghost predicate Pops(s: State, n: nat, s': State)
    decreases n
  {
    if n == 0 then s' == s else Enabled(s, Pop) && !ReturnsNull(s, Pop) && Pops(Do(s, Pop), n - 1, s')
  }

  lemma OnePop(s: State, n: nat, s': State)
    requires Enabled(s, Pop) && !ReturnsNull(s, Pop) && Pops(Do(s, Pop), n, s')
    ensures Pops(s, n + 1, s')
  {
  }

  lemma NoPop(s: State)
    ensures Pops(s, 0, s)
  {
  }

  /** The last node is returned once the stub is behind it again. */
  lemma LastNodeIsReturned(s: State) returns (s': State)
    requires Inv(s) && s.pc.LoadTail? && s.chain == [s.head] && s.linking == map[]
    ensures Pops(s, 5, s') && s'.pc.Idle? && s'.popped == s.popped + [s.head]
  {
    var s1 := Do(s, Pop);
    var s2 := Do(s1, Pop);
    var s3 := Do(s2, Pop);
    var s4 := Do(s3, Pop);
    s' := Do(s4, Pop);
    hide Pops;
    NoPop(s');
    OnePop(s4, 0, s');
    OnePop(s3, 1, s');
    OnePop(s2, 2, s');
    OnePop(s1, 3, s');
    OnePop(s, 4, s');
  }

  /** From a head that is a node proper: it is returned. */
  lemma NodeIsReturned(s: State) returns (n: nat, s': State)
    requires Inv(s) && (s.pc.Idle? || s.pc.LoadSecond?) && s.head != STUB && s.linking == map[]
    ensures Pops(s, n, s') && s'.pc.Idle? && s'.popped == s.popped + [s.head]
  {
    hide Pops, NonStub;
    var s1 := Do(s, Pop);
    if s.head in s.next {
      s' := s1;
      NoPop(s1);
      OnePop(s, 0, s1);
      return 1, s1;
    }
    NullMeansGap(s);
    StepKeepsInv(s, Pop);
    s' := LastNodeIsReturned(s1);
    OnePop(s, 5, s');
    n := 6;
  }

  /** If the queue holds a node and no push is half linked, a pop returns the first one. */
  lemma PopReturnsFirst(s: State) returns (n: nat, s': State)
    requires Inv(s) && s.pc.Idle? && !Empty(s) && !Unlinked(s)
    ensures Pops(s, n, s') && s'.pc.Idle? && NonStub(s.chain) != [] && s'.popped == s.popped + [NonStub(s.chain)[0]]
  {
    assert s.linking == map[] by {
      assert forall x | x in s.linking :: x == STUB;
      assert STUB !in s.linking;
    }
    NonStubPop(s.chain);
    hide Pops;
    if s.head != STUB {
      n, s' := NodeIsReturned(s);
    } else {
      StubAlone();
      assert |s.chain| > 1 by {
        assert |s.chain| == 1 ==> s.chain == [STUB];
      }
      assert Joined(s, 0);
      NonStubPop(s.chain[1..]);
      assert s.chain[1] != STUB;
      var s1 := Do(s, Pop);
      StepKeepsInv(s, Pop);
      n, s' := NodeIsReturned(s1);
      OnePop(s, n, s');
      n := n + 1;
    }
  }
}
