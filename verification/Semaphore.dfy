/**
  `AsyncSemaphore` used through `acquire()`: permits, a first-in-first-out wait list, barging
  `try_acquire` calls and cancellation, one atomic operation or one locked section per step.
 */
module Semaphore {
  import opened Wrappers
  import opened Lists

  type Task = nat

  /** What an acquirer does next. */
  datatype Pc =
    | Load              // try_acquire: read the count
    | Swap(seen: int)   // try_acquire: compare-and-swap
    | Suspend           // await_suspend: is cancellation requested?
    | Push              // attach: enter the wait list
    | Recheck           // attach: read the count again
    | Undo              // attach failed: leave the wait list
    | Arm               // arm the cancel hook
    | Parked
    | Done(ok: bool)

  datatype State = State(
    count: int,
    list: seq<Task>,
    pcs: map<Task, Pc>,
    checking: seq<nat>,     // releases that have added k permits and look at the list's length next
    locking: seq<nat>,      // releases that are about to wake up to k waiters
    woken: set<Task>,       // history: popped by a release, retry not over yet
    initial: int
  )

  datatype Step =
    | Begin(t: Task) | TryLoad(t: Task) | TrySwap(t: Task, spurious: bool) | TrySuspend(t: Task, cancelled: bool)
    | Attach(t: Task) | ReadAgain(t: Task) | Leave(t: Task) | ArmCancel(t: Task, cancelled: bool)
    | Resume(t: Task) | OnCancel(t: Task)
    | Barge
    | ReleaseAdd(k: nat) | ReleaseCheck(i: nat) | ReleaseWake(i: nat)

  function Init(permits: int): State {
    State(permits, [], map[], [], [], {}, permits)
  }

  predicate At(s: State, t: Task, pc: Pc) {
    t in s.pcs && s.pcs[t] == pc
  }

  predicate Enabled(s: State, step: Step) {
    match step
    case Begin(t) => t !in s.pcs
    case TryLoad(t) => At(s, t, Load)
    case TrySwap(t, _) => t in s.pcs && s.pcs[t].Swap?
    case TrySuspend(t, _) => At(s, t, Suspend)
    case Attach(t) => At(s, t, Push)
    case ReadAgain(t) => At(s, t, Recheck)
    case Leave(t) => At(s, t, Undo)
    case ArmCancel(t, _) => At(s, t, Arm)
    case Resume(t) => At(s, t, Parked) && t !in s.list
    case OnCancel(t) => At(s, t, Parked) && t in s.list
    case Barge => s.count > 0
    case ReleaseAdd(_) => true
    case ReleaseCheck(i) => i < |s.checking|
    case ReleaseWake(i) => i < |s.locking|
  }

  function SetPc(s: State, t: Task, pc: Pc): State {
    s.(pcs := s.pcs[t := pc])
  }

  /** A try with the count seen: give up, or go for the swap. */
  function Tried(s: State, t: Task, seen: int): State {
    if seen <= 0 then SetPc(s, t, Suspend).(woken := s.woken - {t}) else SetPc(s, t, Swap(seen))
  }

  function Do(s: State, step: Step): State
    requires Enabled(s, step)
  {
    match step
    case Begin(t) => SetPc(s, t, Load)
    case TryLoad(t) => Tried(s, t, s.count)
    case TrySwap(t, spurious) =>
      if s.count == s.pcs[t].seen && !spurious then
        SetPc(s, t, Done(true)).(count := s.count - 1, woken := s.woken - {t})
      else Tried(s, t, s.count)
    case TrySuspend(t, cancelled) => SetPc(s, t, if cancelled then Done(false) else Push)
    case Attach(t) => SetPc(s, t, Recheck).(list := s.list + [t])
    case ReadAgain(t) => SetPc(s, t, if s.count <= 0 then Arm else Undo)
    case Leave(t) => if t in s.list then SetPc(s, t, Load).(list := Remove(s.list, t)) else SetPc(s, t, Parked)
    case ArmCancel(t, cancelled) =>
      if cancelled && t in s.list then SetPc(s, t, Done(false)).(list := Remove(s.list, t)) else SetPc(s, t, Parked)
    case Resume(t) => SetPc(s, t, Load)
    case OnCancel(t) => SetPc(s, t, Done(false)).(list := Remove(s.list, t))
    case Barge => s.(count := s.count - 1)
    case ReleaseAdd(k) => s.(count := s.count + k, checking := s.checking + [k])
    case ReleaseCheck(i) =>
      var n := s.(checking := Without(s.checking, i));
      if s.list == [] then n else n.(locking := s.locking + [s.checking[i]])
    case ReleaseWake(i) =>
      var n := Min(s.locking[i], |s.list|);
      s.(list := s.list[n..], woken := s.woken + Elements(s.list[..n]), locking := Without(s.locking, i))
  }

  // ---- Invariant ---------------------------------------------------------------------------

  /** Wake-ups still owed by running releases. */
  function Owed(s: State): nat {
    Sum(s.checking) + Sum(s.locking)
  }

  predicate PastRecheck(pc: Pc) { pc.Arm? || pc.Parked? }

  /** Some acquirer has gone to sleep after its recheck and nobody has woken it. */
  ghost predicate Sleeper(s: State) {
    exists t :: t in s.list && t in s.pcs && PastRecheck(s.pcs[t])
  }

  ghost predicate ListOk(s: State) {
    && Distinct(s.list)
    && (forall t | t in s.list :: t in s.pcs && InListPc(s.pcs[t]) && t !in s.woken)
    && (forall t | t in s.pcs && InListPc(s.pcs[t]) && t !in s.list :: t in s.woken)
    && (forall t | t in s.woken :: t in s.pcs && (InListPc(s.pcs[t]) || s.pcs[t].Load? || s.pcs[t].Swap?))
  }

  predicate InListPc(pc: Pc) { pc.Recheck? || pc.Undo? || pc.Arm? || pc.Parked? }

  ghost predicate Inv(s: State) {
    && ListOk(s)
    && (s.initial >= 0 ==> s.count >= 0)
    && (Sleeper(s) ==> s.count <= |s.woken| + Owed(s))
    && (forall t | t in s.pcs && s.pcs[t].Swap? :: s.pcs[t].seen > 0)
  }

  lemma SameSleeper(s: State, s': State)
    requires Sleeper(s')
    requires forall t | t in s'.list && t in s'.pcs && PastRecheck(s'.pcs[t]) ::
               t in s.list && t in s.pcs && PastRecheck(s.pcs[t])
    ensures Sleeper(s)
  {
  }

  lemma TaskKeeps(s: State, step: Step)
    requires Inv(s) && Enabled(s, step)
    requires step.Begin? || step.TrySuspend? || step.ReadAgain? || step.Resume? || step.Barge?
    ensures Inv(Do(s, step))
  {
    var s' := Do(s, step);
    if Sleeper(s') && s'.count > 0 {
      SameSleeper(s, s');
    }
  }

  lemma TryKeepsList(s: State, step: Step)
    requires ListOk(s) && Enabled(s, step) && (step.TryLoad? || step.TrySwap?)
    ensures ListOk(Do(s, step)) && step.t !in s.list
  {
  }

  lemma TryKeeps(s: State, step: Step)
    requires Inv(s) && Enabled(s, step) && (step.TryLoad? || step.TrySwap?)
    ensures Inv(Do(s, step))
  {
    hide ListOk;
    TryKeepsList(s, step);
    var s' := Do(s, step);
    if Sleeper(s') && s'.count > 0 {
      SameSleeper(s, s');
    }
    if step.t in s.woken {
      assert |s.woken - {step.t}| == |s.woken| - 1;
    }
  }

  lemma AttachKeeps(s: State, t: Task)
    requires Inv(s) && Enabled(s, Attach(t))
    ensures Inv(Do(s, Attach(t)))
  {
    var s' := Do(s, Attach(t));
    assert t !in s.list && forall x :: x in s'.list <==> x == t || x in s.list;
    if Sleeper(s') {
      SameSleeper(s, s');
    }
  }

  lemma LeaveKeeps(s: State, step: Step)
    requires Inv(s) && Enabled(s, step) && (step.Leave? || step.ArmCancel? || step.OnCancel?)
    ensures Inv(Do(s, step))
  {
    hide Remove;
    var s' := Do(s, step);
    if step.t in s.list {
      RemoveFacts(s.list, step.t);
    }
    if Sleeper(s') {
      SameSleeper(s, s');
    }
  }

  lemma ReleaseKeeps(s: State, step: Step)
    requires Inv(s) && Enabled(s, step) && (step.ReleaseAdd? || step.ReleaseCheck?)
    ensures Inv(Do(s, step))
  {
    var s' := Do(s, step);
    if Sleeper(s') {
      SameSleeper(s, s');
    }
    match step
    case ReleaseAdd(k) => SumAppend(s.checking, k);
    case ReleaseCheck(i) =>
      SumWithout(s.checking, i);
      SumAppend(s.locking, s.checking[i]);
  }

  /** Cut `n` off the front: who is in which part, and how many they are. */
  lemma FrontFacts(list: seq<Task>, n: nat, woken: set<Task>)
    requires Distinct(list) && n <= |list| && forall t | t in list :: t !in woken
    ensures Distinct(list[n..]) && |woken + Elements(list[..n])| == |woken| + n
    ensures forall t :: t in list <==> t in list[n..] || t in Elements(list[..n])
    ensures forall t | t in list[n..] :: t !in Elements(list[..n])
  {
    var front, back := list[..n], list[n..];
    assert list == front + back;
    ElementsSize(front);
    assert Elements(front) !! woken;
    assert forall t :: t in front <==> t in Elements(front);
  }

  lemma WakeKeepsList(s: State, i: nat)
    requires ListOk(s) && Enabled(s, ReleaseWake(i))
    ensures ListOk(Do(s, ReleaseWake(i)))
    ensures var n := Min(s.locking[i], |s.list|);
            |s.woken + Elements(s.list[..n])| == |s.woken| + n && forall t | t in s.list[n..] :: t in s.list
  {
    hide Elements;
    FrontFacts(s.list, Min(s.locking[i], |s.list|), s.woken);
  }

  /** Waking `n` waiters pays for `n` of the permits. */
  lemma WakeKeeps(s: State, i: nat)
    requires Inv(s) && Enabled(s, ReleaseWake(i))
    ensures Inv(Do(s, ReleaseWake(i)))
  {
    hide ListOk, Elements;
    var s' := Do(s, ReleaseWake(i));
    WakeKeepsList(s, i);
    SumWithout(s.locking, i);
    if Sleeper(s') {
      SameSleeper(s, s');
    }
  }

  lemma StepKeepsInv(s: State, step: Step)
    requires Inv(s) && Enabled(s, step)
    ensures Inv(Do(s, step))
  {
    hide Inv, Enabled, Do;
    match step
    case TryLoad(_) => TryKeeps(s, step);
    case TrySwap(_, _) => TryKeeps(s, step);
    case Attach(t) => AttachKeeps(s, t);
    case Leave(_) => LeaveKeeps(s, step);
    case ArmCancel(_, _) => LeaveKeeps(s, step);
    case OnCancel(_) => LeaveKeeps(s, step);
    case ReleaseAdd(_) => ReleaseKeeps(s, step);
    case ReleaseCheck(_) => ReleaseKeeps(s, step);
    case ReleaseWake(i) => WakeKeeps(s, i);
    case _ => TaskKeeps(s, step);
  }

  // ---- Whole runs ----------------------------------------------------------------------------

  ghost predicate Run(steps: seq<Step>, states: seq<State>) {
    && |states| == |steps| + 1 && states[0] == Init(states[0].initial)
    && forall i | 0 <= i < |steps| :: Enabled(states[i], steps[i]) && states[i + 1] == Do(states[i], steps[i])
  }

  lemma {:induction false} RunKeepsInv(steps: seq<Step>, states: seq<State>, k: nat)
    requires Run(steps, states) && k < |states|
    ensures Inv(states[k])
  {
    if k > 0 {
      RunKeepsInv(steps, states, k - 1);
      StepKeepsInv(states[k - 1], steps[k - 1]);
    }
  }

  /**
    No stranded permit: while somebody sleeps past its recheck, every permit that is there is
    matched by a woken acquirer that has yet to retry, or by a wake-up that a running release
    still owes. So when everything has settled, a sleeper means that there is no permit.
   */
  lemma NoStrandedPermit(steps: seq<Step>, states: seq<State>, k: nat)
    requires Run(steps, states) && k < |states| && Sleeper(states[k])
    ensures states[k].count <= |states[k].woken| + Owed(states[k])
    ensures states[k].woken == {} && states[k].checking == [] && states[k].locking == [] ==> states[k].count <= 0
  {
    RunKeepsInv(steps, states, k);
  }

  /** A woken acquirer is on its way to a retry: nobody else can resume, cancel or forget it. */
  lemma WokenWillRetry(steps: seq<Step>, states: seq<State>, k: nat, t: Task)
    requires Run(steps, states) && k < |states| && t in states[k].pcs
    ensures t in states[k].woken ==> t !in states[k].list && !states[k].pcs[t].Done?
    ensures states[k].pcs[t].Parked? ==> t in states[k].list || t in states[k].woken
  {
    RunKeepsInv(steps, states, k);
  }

  // ---- Permits are conserved ---------------------------------------------------------------------

  /** The acquirers that have returned with a permit. */
  function WinnersOf(pcs: map<Task, Pc>): set<Task> {
    set t | t in pcs && pcs[t] == Done(true)
  }

  function Winners(s: State): set<Task> { WinnersOf(s.pcs) }

  lemma MoveKeepsWinners(pcs: map<Task, Pc>, t: Task, pc: Pc)
    requires t in pcs ==> pcs[t] != Done(true)
    ensures pc != Done(true) ==> WinnersOf(pcs[t := pc]) == WinnersOf(pcs)
    ensures |WinnersOf(pcs[t := Done(true)])| == |WinnersOf(pcs)| + 1
  {
    assert WinnersOf(pcs[t := Done(true)]) == WinnersOf(pcs) + {t};
  }

  /** The `try_acquire` calls of the run that succeeded. */
  function Barges(steps: seq<Step>): nat {
    if steps == [] then 0 else Barges(steps[..|steps| - 1]) + Bit(steps[|steps| - 1].Barge?)
  }

  /** The permits that the releases of the run have given. */
  function Given(steps: seq<Step>): nat {
    if steps == [] then 0
    else Given(steps[..|steps| - 1]) + if steps[|steps| - 1].ReleaseAdd? then steps[|steps| - 1].k else 0
  }

  lemma StepBalances(s: State, step: Step)
    requires Enabled(s, step)
    ensures Do(s, step).initial == s.initial
    ensures Do(s, step).count + |Winners(Do(s, step))| + Bit(step.Barge?)
            == s.count + |Winners(s)| + if step.ReleaseAdd? then step.k else 0
  {
    hide WinnersOf, Remove, Without, Elements;
    var s' := Do(s, step);
    match step
    case Begin(t) => MoveKeepsWinners(s.pcs, t, Load);
    case Barge =>
    case ReleaseAdd(_) =>
    case ReleaseCheck(_) =>
    case ReleaseWake(_) =>
    case _ => MoveKeepsWinners(s.pcs, step.t, s'.pcs[step.t]);
  }

  /**
    Permits are neither made nor lost: those there, those that acquirers have returned with and
    those that successful `try_acquire` calls have taken are the initial ones and the released
    ones. So there are never more successes than permits.
   */
  lemma {:induction false} PermitsAreConserved(steps: seq<Step>, states: seq<State>, k: nat)
    requires Run(steps, states) && k <= |steps|
    ensures states[k].initial == states[0].initial
    ensures states[k].count + |Winners(states[k])| + Barges(steps[..k]) == states[0].initial + Given(steps[..k])
    ensures states[0].initial >= 0 ==>
              states[k].count >= 0 && |Winners(states[k])| + Barges(steps[..k]) <= states[0].initial + Given(steps[..k])
  {
    hide Enabled, Do, Winners;
    if k == 0 {
      NobodyYet(states[0]);
    } else {
      PermitsAreConserved(steps, states, k - 1);
      StepBalances(states[k - 1], steps[k - 1]);
      assert steps[..k][..k - 1] == steps[..k - 1];
    }
    RunKeepsInv(steps, states, k);
  }

  lemma NobodyYet(s: State)
    requires s == Init(s.initial)
    ensures Winners(s) == {} && s.count == s.initial
  {
  }

  // ---- Calls that nobody disturbs ----------------------------------------------------------------

  /** A try with a permit there takes it. */
  lemma TryTakes(s: State, t: Task)
    requires At(s, t, Load) && s.count > 0
    ensures var s1 := Do(s, TryLoad(t));
            && Enabled(s1, TrySwap(t, false))
            && var s2 := Do(s1, TrySwap(t, false));
               At(s2, t, Done(true)) && s2.count == s.count - 1 && s2.list == s.list
  {
  }

  /** So does an `acquire` from its beginning. */
  lemma AcquireTakes(s: State, t: Task)
    requires t !in s.pcs && s.count > 0
    ensures var s1 := Do(s, Begin(t));
            && Enabled(s1, TryLoad(t))
            && var s2 := Do(s1, TryLoad(t));
            && Enabled(s2, TrySwap(t, false))
            && var s3 := Do(s2, TrySwap(t, false));
               At(s3, t, Done(true)) && s3.count == s.count - 1
  {
  }

  /** A release hands its permit to the first sleeper: it wakes that one, which is then at its try. */
  lemma ReleaseWakesFirst(s: State, t: Task)
    requires Inv(s) && s.list != [] && s.list[0] == t && At(s, t, Parked)
    ensures var s1 := Do(s, ReleaseAdd(1));
            && Enabled(s1, ReleaseCheck(|s.checking|))
            && var s2 := Do(s1, ReleaseCheck(|s.checking|));
            && Enabled(s2, ReleaseWake(|s.locking|))
            && var s3 := Do(s2, ReleaseWake(|s.locking|));
            && s3.list == s.list[1..] && Enabled(s3, Resume(t))
            && var s4 := Do(s3, Resume(t));
               At(s4, t, Load) && s4.count == s.count + 1 && s4.checking == s.checking && s4.locking == s.locking
  {
    hide Elements, Sum;
    var s1 := Do(s, ReleaseAdd(1));
    var s2 := Do(s1, ReleaseCheck(|s.checking|));
    assert s2.locking == s.locking + [1] && s2.checking == s.checking;
    var s3 := Do(s2, ReleaseWake(|s.locking|));
    assert s3.list == s.list[1..] && t !in s3.list && s3.locking == s.locking;
  }

  /** Cancellation takes a sleeper out of the list and ends its call. */
  lemma CancelEndsSleep(s: State, t: Task)
    requires Inv(s) && Enabled(s, OnCancel(t))
    ensures At(Do(s, OnCancel(t)), t, Done(false)) && t !in Do(s, OnCancel(t)).list
    ensures forall u | u in s.list && u != t :: u in Do(s, OnCancel(t)).list
  {
    RemoveFacts(s.list, t);
  }

  /** An acquirer that finds no permit goes to sleep in the list. */
  lemma AcquireParks(s: State, t: Task)
    requires Inv(s) && At(s, t, Load) && s.count <= 0
    ensures var s1 := Do(s, TryLoad(t));
            && Enabled(s1, TrySuspend(t, false))
            && var s2 := Do(s1, TrySuspend(t, false));
            && Enabled(s2, Attach(t))
            && var s3 := Do(s2, Attach(t));
            && Enabled(s3, ReadAgain(t))
            && var s4 := Do(s3, ReadAgain(t));
            && Enabled(s4, ArmCancel(t, false))
            && var s5 := Do(s4, ArmCancel(t, false));
               At(s5, t, Parked) && s5.list == s.list + [t] && s5.count == s.count
  {
  }

  /** One that meets a permit at its recheck takes itself out again, and tries once more. */
  lemma RecheckRetries(s: State, t: Task)
    requires Inv(s) && At(s, t, Recheck) && s.count > 0 && t in s.list
    ensures var s1 := Do(s, ReadAgain(t));
            Enabled(s1, Leave(t)) && At(Do(s1, Leave(t)), t, Load) && t !in Do(s1, Leave(t)).list
  {
    RemoveFacts(s.list, t);
  }

  /** Cancellation ends the call before it enters the list, and while its hook is being armed. */
  lemma CancelEndsEarly(s: State, t: Task)
    requires Inv(s)
    ensures At(s, t, Suspend) ==> At(Do(s, TrySuspend(t, true)), t, Done(false))
    ensures At(s, t, Arm) && t in s.list ==>
              At(Do(s, ArmCancel(t, true)), t, Done(false)) && t !in Do(s, ArmCancel(t, true)).list
  {
    if t in s.list {
      RemoveFacts(s.list, t);
    }
  }

  /** A release that finds the list empty is over. */
  lemma ReleaseWithoutSleepers(s: State, k: nat)
    requires s.list == []
    ensures var s1 := Do(s, ReleaseAdd(k));
            && Enabled(s1, ReleaseCheck(|s.checking|))
            && Do(s1, ReleaseCheck(|s.checking|)) == s.(count := s.count + k)
  {
    assert Without(s.checking + [k], |s.checking|) == s.checking;
  }
}
