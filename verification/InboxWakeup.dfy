/**
  Handing a coroutine to another worker: the inbox queue, the `is_added_new_` flag, and the
  poller's eventfd with its coalescing `wake_pending` flag, step by step. The queue is the
  state machine of `MpscQueue`; producers past their link are counted by the operation that
  they perform next, since they differ in nothing else.
 */
module InboxWakeup {
  import Q = MpscQueue

  /** Where the worker stands: the operation that it performs next. */
  datatype Worker =
    | Boot        // set_poller
    | Poll        // top of the loop up to epoll_wait
    | ReadFd      // read of the eventfd, wake event delivered
    | ClearWake   // wake_pending := false
    | TakeFlag    // exchange of is_added_new_
    | Draining    // one step of pop
    | Unset       // poller_ := null
    | Spinning    // wait for wake_inflight_ to be 0
    | Detached

  datatype State = State(
    q: Q.State,
    flag: bool,          // is_added_new_
    poller: bool,        // poller_ is not null
    inflight: nat,       // wake_inflight_
    wakePending: bool,
    counter: nat,        // of the eventfd
    edge: bool,          // edge-triggered entry on the ready list
    worker: Worker,
    toFlag: nat,         // producers about to set the flag
    toEnter: nat,        // ... to increment wake_inflight_
    toLoad: nat,         // ... to load poller_
    toSwap: nat,         // ... to exchange wake_pending
    toWrite: nat,        // ... to write the eventfd
    toLeave: nat         // ... to decrement wake_inflight_
  )

  datatype Step =
    | Push(q: Q.Step) | SetFlag | Kick | Enter | LoadPoller | SwapPending | Write | Leave   // producers
    | SetPoller | WakeEvent | DropEdge | OtherEvent | Read | Clear | SwapFlag | PopOne | Stop | StoreNull | SeeZero

  function Init(): State {
    State(Q.Init(), false, false, 0, false, 0, false, Boot, 0, 0, 0, 0, 0, 0)
  }

  predicate Event(s: State) {
    s.edge && s.counter > 0
  }

  predicate Enabled(s: State, step: Step) {
    match step
    case Push(p) => !p.Pop? && Q.Enabled(s.q, p)
    case SetFlag => s.toFlag > 0
    case Kick => true
    case Enter => s.toEnter > 0
    case LoadPoller => s.toLoad > 0
    case SwapPending => s.toSwap > 0
    case Write => s.toWrite > 0
    case Leave => s.toLeave > 0 && s.inflight > 0
    case SetPoller => s.worker.Boot?
    case WakeEvent => s.worker.Poll? && Event(s)
    case DropEdge => s.worker.Poll? && s.edge && s.counter == 0
    case OtherEvent => s.worker.Poll?
    case Read => s.worker.ReadFd?
    case Clear => s.worker.ClearWake?
    case SwapFlag => s.worker.TakeFlag?
    case PopOne => s.worker.Draining? && Q.Enabled(s.q, Q.Pop)
    case Stop => s.worker.Poll?
    case StoreNull => s.worker.Unset?
    case SeeZero => s.worker.Spinning? && s.inflight == 0
  }

  function Do(s: State, step: Step): State
    requires Enabled(s, step)
  {
    match step
    case Push(p) => s.(q := Q.Do(s.q, p), toFlag := if p.PushLink? then s.toFlag + 1 else s.toFlag)
    case SetFlag => s.(flag := true, toFlag := s.toFlag - 1, toEnter := s.toEnter + 1)
    case Kick => s.(toEnter := s.toEnter + 1)
    case Enter => s.(inflight := s.inflight + 1, toEnter := s.toEnter - 1, toLoad := s.toLoad + 1)
    case LoadPoller =>
      if s.poller then s.(toLoad := s.toLoad - 1, toSwap := s.toSwap + 1)
      else s.(toLoad := s.toLoad - 1, toLeave := s.toLeave + 1)
    case SwapPending =>
      if s.wakePending then s.(toSwap := s.toSwap - 1, toLeave := s.toLeave + 1)
      else s.(wakePending := true, toSwap := s.toSwap - 1, toWrite := s.toWrite + 1)
    case Write => s.(counter := s.counter + 1, edge := true, toWrite := s.toWrite - 1, toLeave := s.toLeave + 1)
    case Leave => s.(inflight := s.inflight - 1, toLeave := s.toLeave - 1)
    case SetPoller => s.(poller := true, worker := TakeFlag)
    case WakeEvent => s.(edge := false, worker := ReadFd)
    case DropEdge => s.(edge := false)
    case OtherEvent => s.(worker := TakeFlag)
    case Read => s.(counter := 0, worker := ClearWake)
    case Clear => s.(wakePending := false, worker := TakeFlag)
    case SwapFlag => s.(flag := false, worker := if s.flag then Draining else Poll)
    case PopOne => s.(q := Q.Do(s.q, Q.Pop), worker := if Q.ReturnsNull(s.q, Q.Pop) then Poll else Draining)
    case Stop => s.(worker := Unset)
    case StoreNull => s.(poller := false, worker := Spinning)
    case SeeZero => s.(worker := Detached)
  }

  // ---- Invariant ---------------------------------------------------------------------------

  /** Whoever pushed what the popper may have missed has set the flag or is going to. */
  predicate Announced(s: State) {
    s.flag || s.toFlag > 0 || Q.Unlinked(s.q)
  }

  predicate InboxOk(s: State) {
    && (!s.worker.Draining? ==> s.q.pc.Idle? && (Q.Empty(s.q) || Announced(s)))
    && (s.q.pc.LoadTail? ==> s.q.chain == [s.q.head] || Announced(s))
  }

  /** A set `wake_pending` promises an event. */
  predicate PendingOk(s: State) {
    && (s.wakePending ==> Event(s) || s.toWrite > 0 || s.worker.ReadFd? || s.worker.ClearWake?)
    && (s.counter > 0 && !s.worker.ReadFd? ==> s.edge)
  }

  /** A set flag promises a look at the inbox. */
  predicate FlagOk(s: State) {
    s.flag ==>
      || Event(s) || s.toEnter + s.toLoad + s.toSwap + s.toWrite > 0
      || !(s.worker.Poll? || s.worker.Draining?)
  }

  predicate PollerOk(s: State) {
    && (s.poller <==> !(s.worker.Boot? || s.worker.Spinning? || s.worker.Detached?))
    && s.inflight == s.toLoad + s.toSwap + s.toWrite + s.toLeave
    && (s.worker.Boot? || s.worker.Detached? ==> s.toSwap == s.toWrite == 0)
  }

  ghost predicate Inv(s: State) {
    Q.Inv(s.q) && InboxOk(s) && PendingOk(s) && FlagOk(s) && PollerOk(s)
  }

  lemma PushKeeps(s: State, p: Q.Step)
    requires Inv(s) && Enabled(s, Push(p))
    ensures Inv(Do(s, Push(p)))
  {
    hide Q.Inv, Q.NonStub;
    var q' := Q.Do(s.q, p);
    Q.StepKeepsInv(s.q, p);
    assert p.PushSwap? ==> p.n in q'.linking && (p.n != Q.STUB ==> Q.Unlinked(q'));
    PushedIsNotStub(s.q, p);
    if Q.Unlinked(s.q) && !p.PushLink? {
      var n :| n in s.q.linking && n != Q.STUB;
      assert n in q'.linking;
    }
  }

  lemma PushedIsNotStub(q: Q.State, p: Q.Step)
    requires Q.Inv(q) && Q.Enabled(q, p) && !p.Pop?
    ensures p.n != Q.STUB
  {
  }

  /** When pop returns null, the inbox is empty or what is left has been announced. */
  lemma PopKeeps(s: State)
    requires Inv(s) && Enabled(s, PopOne)
    ensures Inv(Do(s, PopOne))
  {
    var s' := Do(s, PopOne);
    Q.StepKeepsInv(s.q, Q.Pop);
    AnnouncedStays(s);
    if s.q.head !in s.q.next && !s.q.pc.LinkStub? {
      Q.NullMeansGap(s.q);
      Q.StubAlone();
    }
  }

  lemma AnnouncedStays(s: State)
    requires Inv(s) && Enabled(s, PopOne)
    ensures Announced(s) ==> Announced(Do(s, PopOne))
  {
    hide Q.Inv, Q.Unlinked, InboxOk, PendingOk, FlagOk, PollerOk, Q.ReturnsNull, Q.Do;
    PopKeepsUnlinked(s.q);
  }

  lemma PopKeepsUnlinked(q: Q.State)
    requires Q.Enabled(q, Q.Pop)
    ensures Q.Unlinked(q) ==> Q.Unlinked(Q.Do(q, Q.Pop))
  {
    hide Q.NonStub, Q.Gap;
    if Q.Unlinked(q) {
      var n :| n in q.linking && n != Q.STUB;
      assert n in Q.Do(q, Q.Pop).linking;
    }
  }

  lemma StepKeepsInv(s: State, step: Step)
    requires Inv(s) && Enabled(s, step)
    ensures Inv(Do(s, step))
  {
    hide Inv, Do, Enabled;
    match step
    case Push(p) => PushKeeps(s, p);
    case PopOne => PopKeeps(s);
    case _ => OtherKeeps(s, step);
  }

  lemma OtherKeeps(s: State, step: Step)
    requires Inv(s) && Enabled(s, step) && !step.Push? && !step.PopOne?
    ensures Inv(Do(s, step))
  {
    hide Q.Inv, Q.Empty, Q.Unlinked;
  }

  /** The worker can always go on with a pop, and `wake_inflight_` is never taken below 0. */
  lemma NeverStuck(s: State)
    requires Inv(s)
    ensures s.toLeave > 0 ==> Enabled(s, Leave)
    ensures s.worker.Draining? ==> Enabled(s, PopOne)
  {
    hide Q.NonStub;
  }

  // ---- Whole runs ----------------------------------------------------------------------------

  ghost predicate Run(steps: seq<Step>, states: seq<State>) {
    && |states| == |steps| + 1 && states[0] == Init()
    && forall i | 0 <= i < |steps| :: Enabled(states[i], steps[i]) && states[i + 1] == Do(states[i], steps[i])
  }

  lemma {:induction false} RunKeepsInv(steps: seq<Step>, states: seq<State>, k: nat)
    requires Run(steps, states) && k < |states|
    ensures Inv(states[k])
  {
    if k == 0 {
      Q.StubAlone();
    } else {
      RunKeepsInv(steps, states, k - 1);
      StepKeepsInv(states[k - 1], steps[k - 1]);
    }
  }

  /** No producer is between its tail exchange and its eventfd write. */
  predicate NoProducerInWindow(s: State) {
    !Q.Unlinked(s.q) && s.toFlag == s.toEnter == s.toLoad == s.toSwap == s.toWrite == 0
  }

  /** A worker that sleeps with no event pending has an empty inbox. */
  lemma NoLostWakeup(steps: seq<Step>, states: seq<State>, k: nat)
    requires Run(steps, states) && k < |states|
    requires states[k].worker.Poll? && !Event(states[k]) && NoProducerInWindow(states[k])
    ensures Q.NonStub(states[k].q.chain) == [] && states[k].q.popped == states[k].q.pushed
  {
    RunKeepsInv(steps, states, k);
  }

  /** The producers that hold the poller's address. */
  function Holders(s: State): nat {
    s.toSwap + s.toWrite
  }

  /** Once `unset_poller` has returned nobody holds the poller, now or later. */
  lemma NobodyHoldsUnsetPoller(steps: seq<Step>, states: seq<State>, k: nat)
    requires Run(steps, states) && k < |states| && states[k].worker.Detached?
    ensures Holders(states[k]) == 0
  {
    RunKeepsInv(steps, states, k);
  }

  // ---- A hand-over that nobody disturbs --------------------------------------------------------------

  /** A push to a worker with nothing announced: the node is linked, the flag set, an event pending. */
  lemma PushAnnounces(s: State, n: Q.Node)
    requires s.poller && !s.wakePending && Q.Enabled(s.q, Q.PushClear(n)) && n !in s.q.linking
    ensures var s1 := Do(s, Push(Q.PushClear(n)));
            && Enabled(s1, Push(Q.PushSwap(n)))
            && var s2 := Do(s1, Push(Q.PushSwap(n)));
            && Enabled(s2, Push(Q.PushLink(n)))
            && var s3 := Do(s2, Push(Q.PushLink(n)));
            && s3 == s.(q := s3.q, toFlag := s.toFlag + 1)
            && s3.q == s.q.(next := (s.q.next - {n})[s.q.tail := n], tail := n, chain := s.q.chain + [n],
                            pushed := s.q.pushed + [n], sawGap := true)
  {
    hide Q.NonStub, Q.Gap;
    Q.WholePush(s.q, n);
  }

  lemma FlagAndWake(s: State)
    requires s.poller && !s.wakePending && s.toFlag > 0
    ensures var s1 := Do(s, SetFlag);
            && Enabled(s1, Enter)
            && var s2 := Do(s1, Enter);
            && Enabled(s2, LoadPoller)
            && var s3 := Do(s2, LoadPoller);
            && Enabled(s3, SwapPending)
            && var s4 := Do(s3, SwapPending);
            && Enabled(s4, Write)
            && var s5 := Do(s4, Write);
            && Enabled(s5, Leave)
            && var s6 := Do(s5, Leave);
               Event(s6) && s6 == s.(flag := true, wakePending := true, counter := s.counter + 1, edge := true,
                                     toFlag := s.toFlag - 1)
  {
  }

  /** A sleeping worker with an event and a set flag gets to draining its inbox. */
  lemma EventLeadsToDrain(s: State)
    requires s.worker.Poll? && Event(s) && s.flag
    ensures var s1 := Do(s, WakeEvent);
            && Enabled(s1, Read)
            && var s2 := Do(s1, Read);
            && Enabled(s2, Clear)
            && var s3 := Do(s2, Clear);
            && Enabled(s3, SwapFlag)
            && Do(s3, SwapFlag) == s.(edge := false, counter := 0, wakePending := false, flag := false, worker := Draining)
  {
  }

  /** `n` steps of the draining worker lead from `s` to `s'`. */
  ghost predicate Drains(s: State, n: nat, s': State)
    decreases n
  {
    if n == 0 then s' == s else Enabled(s, PopOne) && Drains(Do(s, PopOne), n - 1, s')
  }

  lemma {:induction false} DrainsAsItPops(s: State, n: nat, q: Q.State)
    requires s.worker.Draining? && Q.Pops(s.q, n, q)
    ensures Drains(s, n, s.(q := q))
    decreases n
  {
    hide Q.Do, Q.ReturnsNull, Q.Enabled;
    if n > 0 {
      DrainsAsItPops(Do(s, PopOne), n - 1, q);
    }
  }

  /** And a draining worker delivers the first node of its inbox, unless a push is half linked. */
  lemma DrainDelivers(s: State) returns (n: nat, s': State)
    requires Inv(s) && s.worker.Draining? && s.q.pc.Idle? && !Q.Empty(s.q) && !Q.Unlinked(s.q)
    ensures Drains(s, n, s') && s'.worker.Draining? && s'.q.pc.Idle?
    ensures Q.NonStub(s.q.chain) != [] && s'.q.popped == s.q.popped + [Q.NonStub(s.q.chain)[0]]
  {
    hide Drains, Q.Pops, Q.NonStub;
    var q;
    n, q := Q.PopReturnsFirst(s.q);
    DrainsAsItPops(s, n, q);
    s' := s.(q := q);
  }

  /** A kick by itself wakes the worker, too. */
  lemma KickWakes(s: State)
    requires s.poller && !s.wakePending
    ensures var s1 := Do(s, Kick);
            && Enabled(s1, Enter)
            && var s2 := Do(s1, Enter);
            && Enabled(s2, LoadPoller)
            && var s3 := Do(s2, LoadPoller);
            && Enabled(s3, SwapPending)
            && var s4 := Do(s3, SwapPending);
            && Enabled(s4, Write)
            && var s5 := Do(s4, Write);
            && Enabled(s5, Leave)
            && Do(s5, Leave) == s.(wakePending := true, counter := s.counter + 1, edge := true)
  {
  }

  /**
    The worker's round: from its start, or from any event, it looks at the flag; with the flag
    clear it goes to sleep, and so it does after a drain, when its inbox is empty.
   */
  lemma WorkerGoesRound(s: State)
    requires Inv(s)
    ensures s.worker.Boot? ==> Do(s, SetPoller) == s.(poller := true, worker := TakeFlag)
    ensures s.worker.Poll? ==> Do(s, OtherEvent) == s.(worker := TakeFlag)
    ensures s.worker.TakeFlag? && !s.flag ==> Do(s, SwapFlag) == s.(worker := Poll)
    ensures s.worker.Draining? && s.q.pc.Idle? && s.q.chain == [Q.STUB] ==>
              Enabled(s, PopOne) && Do(s, PopOne).worker.Poll? && Do(s, PopOne).q.popped == s.q.popped
    ensures s.worker.Poll? && s.edge && s.counter == 0 ==> !Do(s, DropEdge).edge
  {
    hide Q.NonStub;
  }

  /** A worker that stops takes its poller back: with no producer on the way it is detached at once. */
  lemma StopDetaches(s: State)
    requires s.worker.Poll? && s.inflight == 0
    ensures var s1 := Do(s, Stop);
            && Enabled(s1, StoreNull)
            && var s2 := Do(s1, StoreNull);
            && !s2.poller && Enabled(s2, SeeZero)
            && Do(s2, SeeZero) == s.(poller := false, worker := Detached)
  {
  }
}
