/**
  `AsyncMutex`: a lock word, a wait list, hand-off of the locked mutex to the first waiter, and
  cancellation racing the hand-off. A waiter's ticket is its place in the order of arrival at
  the wait list; tasks that have not got there differ in nothing and are counted.
 */
module AsyncMutex {
  import opened Wrappers
  import opened Lists

  type Ticket = nat

  /** What a task in or past the wait list does next. */
  datatype Pc = Arm | Parked | Finished(guard: bool)

  /** Where its node is: in the list, popped by an unlock, or taken out by a cancellation. */
  datatype Place = Queued | Popped | Out

  datatype Waiter = Waiter(pc: Pc, place: Place)

  datatype State = State(
    locked: bool,            // state_
    list: seq<Ticket>,
    guards: nat,             // Guard objects that own the lock
    atReady: nat,            // lock(): await_ready
    atSuspend: nat,          // lock(): await_suspend
    waiters: seq<Waiter>,    // by ticket
    handedOff: set<Ticket>,  // popped by unlock, not resumed yet
    grants: seq<Ticket>      // history: hand-offs in order
  )

  datatype Step =
    | TryLock | Lock | Ready | Suspend(cancelled: bool) | ArmCancel(t: Ticket, cancelled: bool)
    | Resume(t: Ticket) | OnCancel(t: Ticket) | Unlock

  function Init(): State {
    State(false, [], 0, 0, 0, [], {}, [])
  }

  predicate At(s: State, t: Ticket, pc: Pc) {
    t < |s.waiters| && s.waiters[t].pc == pc
  }

  predicate Enabled(s: State, step: Step) {
    match step
    case TryLock => true
    case Lock => true
    case Ready => s.atReady > 0
    case Suspend(_) => s.atSuspend > 0
    case ArmCancel(t, _) => At(s, t, Arm)
    case Resume(t) => At(s, t, Parked) && t in s.handedOff
    case OnCancel(t) => At(s, t, Parked)
    case Unlock => s.guards > 0 && (s.list != [] ==> s.list[0] < |s.waiters|)
  }

  function SetPc(s: State, t: Ticket, pc: Pc): State
    requires t < |s.waiters|
  {
    s.(waiters := s.waiters[t := s.waiters[t].(pc := pc)])
  }

  /** Cancellation takes the waiter out of the list; a popped one stays as it is. */
  function Withdrawn(s: State, t: Ticket): State
    requires t < |s.waiters|
  {
    s.(list := Remove(s.list, t), waiters := s.waiters[t := Waiter(Finished(false), Out)])
  }

  function Do(s: State, step: Step): State
    requires Enabled(s, step)
  {
    match step
    case TryLock => if s.locked then s else s.(locked := true, guards := s.guards + 1)
    case Lock => s.(atReady := s.atReady + 1)
    case Ready =>
      var n := s.(atReady := s.atReady - 1);
      if s.locked then n.(atSuspend := s.atSuspend + 1) else n.(locked := true, guards := s.guards + 1)
    case Suspend(cancelled) =>
      var n := s.(atSuspend := s.atSuspend - 1);
      if cancelled then n
      else if !s.locked then n.(locked := true, guards := s.guards + 1)
      else n.(list := s.list + [|s.waiters|], waiters := s.waiters + [Waiter(Arm, Queued)])
    case ArmCancel(t, cancelled) => if cancelled && t in s.list then Withdrawn(s, t) else SetPc(s, t, Parked)
    case Resume(t) =>
      SetPc(s, t, Finished(true)).(handedOff := s.handedOff - {t}, guards := s.guards + 1)
    case OnCancel(t) => if t in s.list then Withdrawn(s, t) else s
    case Unlock =>
      var n := s.(guards := s.guards - 1);
      if s.list == [] then n.(locked := false)
      else
        var t := s.list[0];
        n.(list := s.list[1..], handedOff := s.handedOff + {t}, grants := s.grants + [t],
           waiters := s.waiters[t := s.waiters[t].(place := Popped)])
  }

  // ---- Invariant ---------------------------------------------------------------------------

  /** One guard or one hand-off under way, exactly while the lock word is set. */
  predicate OwnerOk(s: State) {
    && s.guards + |s.handedOff| == Bit(s.locked)
    && (s.list != [] ==> s.locked)
  }

  /** Served and waiting tickets are in order of arrival. */
  ghost predicate OrderOk(list: seq<Ticket>, grants: seq<Ticket>) {
    Increasing(grants) && Increasing(list) && forall g, t | g in grants && t in list :: g < t
  }

  /** Every ticket is in one place: waiting, handed the lock, or cancelled. */
  ghost predicate PlacesOk(s: State) {
    && (forall t: Ticket :: t in s.list <==> t < |s.waiters| && s.waiters[t].place.Queued?)
    && (forall t: Ticket :: t in s.grants <==> t < |s.waiters| && s.waiters[t].place.Popped?)
    && (forall t: Ticket :: t in s.handedOff <==>
          t < |s.waiters| && s.waiters[t].place.Popped? && !s.waiters[t].pc.Finished?)
    && (forall t | 0 <= t < |s.waiters| :: WaiterOk(s.waiters[t]))
  }

  predicate WaiterOk(w: Waiter) {
    match w.place
    case Queued => !w.pc.Finished?
    case Popped => w.pc != Finished(false)
    case Out => w.pc == Finished(false)
  }

  ghost predicate Inv(s: State) {
    OwnerOk(s) && OrderOk(s.list, s.grants) && PlacesOk(s)
  }

  lemma LockKeeps(s: State, step: Step)
    requires Inv(s) && Enabled(s, step) && (step.TryLock? || step.Lock? || step.Ready?)
    ensures Inv(Do(s, step))
  {
  }

  lemma SuspendKeeps(s: State, cancelled: bool)
    requires Inv(s) && Enabled(s, Suspend(cancelled))
    ensures Inv(Do(s, Suspend(cancelled)))
  {
    hide Increasing;
    var s' := Do(s, Suspend(cancelled));
    if s'.list != s.list {
      IncreasingAppend(s.list, |s.waiters|);
    }
  }

  lemma WithdrawKeeps(s: State, t: Ticket)
    requires Inv(s) && t < |s.waiters| && t in s.list
    ensures Inv(Withdrawn(s, t))
  {
    hide Remove, Increasing;
    RemoveFromIncreasing(s.list, t);
  }

  lemma ParkKeeps(s: State, step: Step)
    requires Inv(s) && Enabled(s, step) && (step.ArmCancel? || step.OnCancel?)
    ensures Inv(Do(s, step))
  {
    hide Withdrawn;
    if step.t in s.list {
      WithdrawKeeps(s, step.t);
    }
  }

  lemma ResumeKeeps(s: State, t: Ticket)
    requires Inv(s) && Enabled(s, Resume(t))
    ensures Inv(Do(s, Resume(t)))
  {
    assert |s.handedOff - {t}| == |s.handedOff| - 1;
  }

  lemma UnlockKeeps(s: State)
    requires Inv(s) && Enabled(s, Unlock)
    ensures Inv(Do(s, Unlock))
  {
    hide Increasing;
    if s.list != [] {
      IncreasingTail(s.list);
      assert s.list[0] in s.list;
      IncreasingAppend(s.grants, s.list[0]);
      assert s.list[0] !in s.handedOff;
    }
  }

  lemma StepKeepsInv(s: State, step: Step)
    requires Inv(s) && Enabled(s, step)
    ensures Inv(Do(s, step))
  {
    hide Inv, Enabled, Do;
    match step
    case TryLock | Lock | Ready => LockKeeps(s, step);
    case Suspend(cancelled) => SuspendKeeps(s, cancelled);
    case ArmCancel(_, _) => ParkKeeps(s, step);
    case OnCancel(_) => ParkKeeps(s, step);
    case Resume(t) => ResumeKeeps(s, t);
    case Unlock => UnlockKeeps(s);
  }

  /** Whoever has a guard can unlock. */
  lemma NeverStuck(s: State)
    requires Inv(s) && s.guards > 0
    ensures Enabled(s, Unlock)
  {
    assert s.list != [] ==> s.list[0] in s.list;
  }

  // ---- Whole runs ----------------------------------------------------------------------------

  ghost predicate Run(steps: seq<Step>, states: seq<State>) {
    && |states| == |steps| + 1 && states[0] == Init()
    && forall i | 0 <= i < |steps| :: Enabled(states[i], steps[i]) && states[i + 1] == Do(states[i], steps[i])
  }

  lemma {:induction false} RunKeepsInv(steps: seq<Step>, states: seq<State>, k: nat)
    requires Run(steps, states) && k < |states|
    ensures Inv(states[k])
  {
    if k > 0 {
      RunKeepsInv(steps, states, k - 1);
      StepKeepsInv(states[k - 1], steps[k - 1]);
    }
  }

  /** At most one guard or hand-off exists, and the lock word says whether one does. */
  lemma MutualExclusion(steps: seq<Step>, states: seq<State>, k: nat)
    requires Run(steps, states) && k < |states|
    ensures states[k].guards + |states[k].handedOff| <= 1
    ensures states[k].locked <==> states[k].guards + |states[k].handedOff| == 1
    ensures states[k].list != [] ==> states[k].locked
  {
    RunKeepsInv(steps, states, k);
  }

  /**
    Waiters get the lock in order of arrival: those served before those waiting, both in ticket
    order, and a ticket that is in neither list was cancelled and got no guard.
   */
  lemma FirstComeFirstServed(steps: seq<Step>, states: seq<State>, k: nat)
    requires Run(steps, states) && k < |states|
    ensures Increasing(states[k].grants + states[k].list)
    ensures forall t: Ticket | t < |states[k].waiters| && t !in states[k].grants + states[k].list ::
              states[k].waiters[t].pc == Finished(false)
    ensures forall t: Ticket | t < |states[k].waiters| && states[k].waiters[t].pc == Finished(true) ::
              t in states[k].grants
  {
    RunKeepsInv(steps, states, k);
    var s := states[k];
    assert forall i | 0 <= i < |s.grants| :: s.grants[i] in s.grants;
    assert forall i | 0 <= i < |s.list| :: s.list[i] in s.list;
  }

  /** Nobody overtakes the wait list: the lock word can be taken only when no one waits. */
  lemma NoBarging(steps: seq<Step>, states: seq<State>, k: nat)
    requires Run(steps, states) && k < |steps| && states[k].list != []
    requires states[k + 1].guards > states[k].guards
    ensures steps[k].Resume? && steps[k].t in states[k].grants
  {
    RunKeepsInv(steps, states, k);
  }

  /**
    Whatever way cancellation and hand-off cross: a waiter still in `lock()` is in the list or
    owns the hand-off, and one that returned without a guard was never handed the lock.
   */
  lemma CancelNeverLosesTheLock(steps: seq<Step>, states: seq<State>, k: nat, t: Ticket)
    requires Run(steps, states) && k < |states| && t < |states[k].waiters|
    ensures !states[k].waiters[t].pc.Finished? ==> (t in states[k].list <==> t !in states[k].handedOff)
    ensures states[k].waiters[t].pc == Finished(false) ==> t !in states[k].grants && t !in states[k].handedOff
  {
    RunKeepsInv(steps, states, k);
    assert WaiterOk(states[k].waiters[t]);
  }

  // ---- Every call is accounted for -----------------------------------------------------------------

  function Locks(steps: seq<Step>): nat {
    if steps == [] then 0 else Locks(steps[..|steps| - 1]) + Bit(steps[|steps| - 1].Lock?)
  }

  function Unlocks(steps: seq<Step>): nat {
    if steps == [] then 0 else Unlocks(steps[..|steps| - 1]) + Bit(steps[|steps| - 1].Unlock?)
  }

  /** The `lock` calls that were cancelled before they came to the wait list. */
  function GivenUp(steps: seq<Step>): nat {
    if steps == [] then 0 else GivenUp(steps[..|steps| - 1]) + Bit(steps[|steps| - 1] == Suspend(true))
  }

  /** The `try_lock` calls among the first `k` steps that found the mutex free. */
  function TriesWon(steps: seq<Step>, states: seq<State>, k: nat): nat
    requires k <= |steps| && |states| == |steps| + 1
  {
    if k == 0 then 0 else TriesWon(steps, states, k - 1) + Bit(steps[k - 1].TryLock? && !states[k - 1].locked)
  }

  /** The waiters that have no guard: parked, about to park, or cancelled. */
  function Unserved(waiters: seq<Waiter>): nat {
    if waiters == [] then 0
    else Unserved(waiters[..|waiters| - 1]) + Bit(waiters[|waiters| - 1].pc != Finished(true))
  }

  lemma {:induction false} WaiterMoves(waiters: seq<Waiter>, t: Ticket, w: Waiter)
    requires t < |waiters|
    ensures Unserved(waiters[t := w]) + Bit(waiters[t].pc != Finished(true))
            == Unserved(waiters) + Bit(w.pc != Finished(true))
    decreases |waiters|
  {
    var n := |waiters| - 1;
    if t == n {
      assert waiters[t := w][..n] == waiters[..n];
    } else {
      assert waiters[t := w][..n] == waiters[..n][t := w];
      WaiterMoves(waiters[..n], t, w);
    }
  }

  lemma WaiterArrives(waiters: seq<Waiter>, w: Waiter)
    ensures Unserved(waiters + [w]) == Unserved(waiters) + Bit(w.pc != Finished(true))
  {
    assert (waiters + [w])[..|waiters|] == waiters;
  }

  /** The calls inside `lock`, or back from the wait list without a guard. */
  function WithoutGuard(s: State): nat {
    s.atReady + s.atSuspend + Unserved(s.waiters)
  }

  lemma WaiterStepAccounts(s: State, step: Step)
    requires Inv(s) && Enabled(s, step) && (step.ArmCancel? || step.OnCancel? || step.Resume? || step.Unlock?)
    ensures WithoutGuard(Do(s, step)) + Do(s, step).guards + Bit(step.Unlock?) == WithoutGuard(s) + s.guards
  {
    hide Unserved, Remove;
    var s' := Do(s, step);
    if step.Unlock? {
      if s.list != [] {
        WaiterMoves(s.waiters, s.list[0], s'.waiters[s.list[0]]);
      }
    } else {
      WaiterMoves(s.waiters, step.t, s'.waiters[step.t]);
      assert s.waiters[step.t := s'.waiters[step.t]] == s'.waiters;
    }
  }

  lemma StepAccounts(s: State, step: Step)
    requires Inv(s) && Enabled(s, step)
    ensures WithoutGuard(Do(s, step)) + Do(s, step).guards + Bit(step == Suspend(true)) + Bit(step.Unlock?)
            == WithoutGuard(s) + s.guards + Bit(step.Lock?) + Bit(step.TryLock? && !s.locked)
  {
    hide Unserved, Remove, Inv;
    if step.ArmCancel? || step.OnCancel? || step.Resume? || step.Unlock? {
      WaiterStepAccounts(s, step);
    } else {
      WaiterArrives(s.waiters, Waiter(Arm, Queued));
    }
  }

  /**
    Every `lock` call is still inside, was cancelled, or got a guard: calls and won `try_lock`s
    are the calls without a guard plus the guards there are and those that were unlocked.
   */
  lemma {:induction false} EveryCallIsAccountedFor(steps: seq<Step>, states: seq<State>, k: nat)
    requires Run(steps, states) && k <= |steps|
    ensures Locks(steps[..k]) + TriesWon(steps, states, k)
            == WithoutGuard(states[k]) + GivenUp(steps[..k]) + states[k].guards + Unlocks(steps[..k])
  {
    hide Inv, Enabled, Do;
    if k > 0 {
      EveryCallIsAccountedFor(steps, states, k - 1);
      RunKeepsInv(steps, states, k - 1);
      hide WithoutGuard;
      StepAccounts(states[k - 1], steps[k - 1]);
      assert steps[..k][..k - 1] == steps[..k - 1];
    }
  }

  /** An unlock hands the mutex to the first waiter, which gets the guard. */
  lemma UnlockServesFirst(s: State, t: Ticket)
    requires Inv(s) && s.guards > 0 && s.list != [] && s.list[0] == t && At(s, t, Parked)
    ensures var s1 := Do(s, Unlock);
            && s1.list == s.list[1..] && Enabled(s1, Resume(t))
            && var s2 := Do(s1, Resume(t));
               s2.guards == 1 && At(s2, t, Finished(true)) && s2.locked && s2.handedOff == {}
  {
    assert s.handedOff == {};
  }

  /** Cancellation takes a waiter out of the list and ends its call; the others keep their order. */
  lemma CancelEndsWait(s: State, t: Ticket)
    requires Inv(s) && Enabled(s, OnCancel(t)) && t in s.list
    ensures At(Do(s, OnCancel(t)), t, Finished(false))
    ensures Do(s, OnCancel(t)).list == Remove(s.list, t) && Increasing(Remove(s.list, t))
    ensures forall u :: u in Do(s, OnCancel(t)).list <==> u in s.list && u != t
  {
    RemoveFromIncreasing(s.list, t);
  }

  /** A `lock` that nobody disturbs takes a free mutex at once, and otherwise parks at the end of the list. */
  lemma LockTakesOrParks(s: State)
    requires Inv(s)
    ensures var s1 := Do(s, Lock);
            && Enabled(s1, Ready)
            && var s2 := Do(s1, Ready);
               if !s.locked then s2 == s.(locked := true, guards := s.guards + 1)
               else
                 && Enabled(s2, Suspend(false))
                 && var s3, t := Do(s2, Suspend(false)), |s.waiters|;
                 && Enabled(s3, ArmCancel(t, false))
                 && var s4 := Do(s3, ArmCancel(t, false));
                    At(s4, t, Parked) && s4.list == s.list + [t] && s4.atReady == s.atReady && s4.atSuspend == s.atSuspend
  {
  }

  /** Cancellation while the hook is being armed ends the call of a waiter that is still listed. */
  lemma CancelEndsArming(s: State, t: Ticket)
    requires Inv(s) && At(s, t, Arm) && t in s.list
    ensures At(Do(s, ArmCancel(t, true)), t, Finished(false)) && t !in Do(s, ArmCancel(t, true)).list
  {
    RemoveFromIncreasing(s.list, t);
  }
}
