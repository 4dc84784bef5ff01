/**
  One suspension of `select` over any number of operations. All nodes share one winner cell:
  whoever swaps it away from "free" resumes the coroutine. A wait-list operation pops and fires
  its node under its lock, in one step; a sleep fires in four steps on another thread, and
  `detach` waits for it. Every atomic operation is one step.
 */
module Select {
  import opened Wrappers

  datatype Winner = Free | Op(i: nat) | Kicked | OwnCancel

  /** Where the timer callback of a sleep stands. */
  datatype Fire =
    | Unarmed         // no timer yet
    | Armed
    | SetFired        // fired is set, the waiter pointer is taken next
    | Holding         // took our node: swap the winner cell
    | Resuming        // won: resume the coroutine
    | Finishing       // fire_done := true
    | FireDone

  datatype Operation =
    | InList(there: bool)
    | Sleep(waiter: bool, fire: Fire)

  datatype Why = AttachFailed | Cancelled | AfterResume

  /** What the selecting coroutine does next. */
  datatype Pc =
    | Push(i: nat)               // attach operation i
    | Recheck(i: nat)            // attach: is the operation ready meanwhile?
    | Detach(i: nat, why: Why)
    | LoadFired(i: nat, why: Why)
    | Spin(i: nat, why: Why)     // wait for fire_done
    | LoadWinner
    | Arm
    | SwapCancel
    | Returned(suspended: bool)
    | Over(again: bool)

  datatype State = State(
    ops: seq<Operation>,
    winner: Winner,
    pc: Pc,
    armed: bool,      // is the cancel hook armed?
    resumes: nat      // times this suspension was resumed
  )

  datatype Step =
    | Go(ready: bool, cancelled: bool)   // the coroutine's next step; outside conditions as parameters
    | Pop(i: nat)                        // a notifier pops node i and fires it
    | Timer(i: nat)                      // the next step of a sleep's callback
    | Kick                               // the cancel hook runs
    | Wake                               // the coroutine goes on, resumed or not suspended at all
    | Retry                              // the next round of select

  predicate Enabled(s: State, step: Step) {
    match step
    case Go(_, _) =>
      (match s.pc
       case Push(i) => i < |s.ops|
       case Recheck(i) => i < |s.ops|
       case Detach(i, _) => i < |s.ops|
       case LoadFired(i, _) => i < |s.ops| && s.ops[i].Sleep?
       case Spin(i, _) => i < |s.ops| && s.ops[i].Sleep? && s.ops[i].fire.FireDone?
       case LoadWinner => true
       case Arm => true
       case SwapCancel => true
       case _ => false)
    case Pop(i) => i < |s.ops| && s.ops[i].InList? && s.ops[i].there
    case Timer(i) => i < |s.ops| && s.ops[i].Sleep? && !s.ops[i].fire.Unarmed? && !s.ops[i].fire.FireDone?
    case Kick => s.armed
    case Wake => s.pc.Returned? && (s.pc.suspended ==> s.resumes > 0)
    case Retry => s.pc == Over(true)
  }

  /** After the detach of operation `i` comes the next one; after the last, the end of the loop. */
  function AfterDetach(s: State, i: nat, why: Why): Pc {
    if i + 1 < |s.ops| then Detach(i + 1, why)
    else match why
         case AttachFailed => LoadWinner
         case Cancelled => Returned(false)
         case AfterResume => Over(!s.winner.Kicked?)
  }

  function SetOp(s: State, i: nat, op: Operation): State
    requires i < |s.ops|
  {
    s.(ops := s.ops[i := op])
  }

  predicate Fired(f: Fire) { !f.Unarmed? && !f.Armed? }

  /** The first half of `attach`: the node becomes reachable from the operation. */
  function Attached(op: Operation): Operation {
    match op
    case InList(_) => InList(true)
    case Sleep(_, fire) => Sleep(true, if fire.Unarmed? then Armed else fire)
  }

  function GoStep(s: State, ready: bool, cancelled: bool): State
    requires Enabled(s, Go(ready, cancelled))
  {
    match s.pc
    case Push(i) => SetOp(s, i, Attached(s.ops[i])).(pc := Recheck(i))
    case Recheck(i) =>
      var fails := if s.ops[i].Sleep? then Fired(s.ops[i].fire) else ready;
      s.(pc := if fails then Detach(0, AttachFailed) else if i + 1 < |s.ops| then Push(i + 1) else Arm)
    case Detach(i, why) =>
      (match s.ops[i]
       case InList(_) => SetOp(s, i, InList(false)).(pc := AfterDetach(s, i, why))
       case Sleep(waiter, fire) =>
         SetOp(s, i, Sleep(false, fire)).(pc := if waiter then AfterDetach(s, i, why) else LoadFired(i, why)))
    case LoadFired(i, why) => s.(pc := if Fired(s.ops[i].fire) then Spin(i, why) else AfterDetach(s, i, why))
    case Spin(i, why) => s.(pc := AfterDetach(s, i, why))
    case LoadWinner => s.(pc := Returned(!s.winner.Free?))
    case Arm => s.(pc := if cancelled then SwapCancel else Returned(true), armed := true)
    case SwapCancel =>
      if s.winner.Free? then s.(winner := OwnCancel, armed := false, pc := Detach(0, Cancelled))
      else s.(pc := Returned(true))
  }

  function TimerStep(s: State, i: nat): State
    requires Enabled(s, Timer(i))
  {
    var op := s.ops[i];
    match op.fire
    case Armed => SetOp(s, i, op.(fire := SetFired))
    case SetFired => SetOp(s, i, Sleep(false, if op.waiter then Holding else Finishing))
    case Holding =>
      if s.winner.Free? then SetOp(s, i, op.(fire := Resuming)).(winner := Op(i))
      else SetOp(s, i, op.(fire := Finishing))
    case Resuming => SetOp(s, i, op.(fire := Finishing)).(resumes := s.resumes + 1)
    case Finishing => SetOp(s, i, op.(fire := FireDone))
    case _ => s
  }

  function Do(s: State, step: Step): State
    requires Enabled(s, step)
  {
    match step
    case Go(ready, cancelled) => GoStep(s, ready, cancelled)
    case Pop(i) =>
      var n := SetOp(s, i, InList(false));
      if s.winner.Free? then n.(winner := Op(i), resumes := s.resumes + 1) else n
    case Timer(i) => TimerStep(s, i)
    case Kick =>
      if s.winner.Free? then s.(winner := Kicked, armed := false, resumes := s.resumes + 1) else s.(armed := false)
    case Wake => s.(pc := if s.winner.OwnCancel? then Over(false) else Detach(0, AfterResume), armed := false)
    case Retry => s.(winner := Free, resumes := 0, pc := Push(0))
  }

  predicate Initial(s: State) {
    && s.ops != [] && s.winner.Free? && s.pc == Push(0) && !s.armed && s.resumes == 0
    && forall i | 0 <= i < |s.ops| :: s.ops[i] == InList(false) || s.ops[i] == Sleep(false, Unarmed)
  }

  // ---- Invariant ---------------------------------------------------------------------------

  /** The operation, or its callback, may still use our node. */
  predicate Reaches(op: Operation) {
    match op
    case InList(there) => there
    case Sleep(waiter, fire) => waiter || fire.Holding? || fire.Resuming?
  }

  /** Operations from `n` on do not know our node. */
  predicate NoneFrom(ops: seq<Operation>, n: nat) {
    forall j | n <= j < |ops| :: !Reaches(ops[j])
  }

  /** Operations up to `n` do not know our node. */
  predicate NoneUpTo(ops: seq<Operation>, n: nat) {
    forall j | 0 <= j < n && j < |ops| :: !Reaches(ops[j])
  }

  /** Every operation up to `n` can still fire our node. */
  predicate AllUpTo(ops: seq<Operation>, n: nat) {
    forall j | 0 <= j < n && j < |ops| :: Reaches(ops[j])
  }

  predicate IsResuming(op: Operation) { op.Sleep? && op.fire.Resuming? }

  /** A callback has won and is about to resume the coroutine. */
  predicate ResumePending(s: State) {
    s.winner.Op? && s.winner.i < |s.ops| && IsResuming(s.ops[s.winner.i])
  }

  /** One resume for a winner that is an operation or the cancel hook, none otherwise. */
  predicate ResumesOk(s: State) {
    && s.resumes == Bit((s.winner.Op? || s.winner.Kicked?) && !ResumePending(s))
    && forall j | 0 <= j < |s.ops| && IsResuming(s.ops[j]) :: s.winner == Op(j)
  }

  predicate NodesOk(s: State) {
    match s.pc
    case Push(i) => i < |s.ops| && NoneFrom(s.ops, i) && (s.winner.Free? ==> AllUpTo(s.ops, i))
    case Recheck(i) => i < |s.ops| && NoneFrom(s.ops, i + 1) && (s.winner.Free? ==> AllUpTo(s.ops, i + 1))
    case Detach(i, _) => i < |s.ops| && NoneUpTo(s.ops, i)
    case LoadFired(i, _) => i < |s.ops| && NoneUpTo(s.ops, i) && s.ops[i].Sleep? && !s.ops[i].waiter
    case Spin(i, _) => i < |s.ops| && NoneUpTo(s.ops, i) && s.ops[i].Sleep? && !s.ops[i].waiter && Fired(s.ops[i].fire)
    case LoadWinner => NoneUpTo(s.ops, |s.ops|)
    case Arm => s.winner.Free? ==> AllUpTo(s.ops, |s.ops|)
    case SwapCancel => s.winner.Free? ==> AllUpTo(s.ops, |s.ops|) && s.armed
    case Returned(suspended) =>
      if suspended then s.winner.Free? ==> AllUpTo(s.ops, |s.ops|) && s.armed else NoneUpTo(s.ops, |s.ops|)
    case Over(_) => NoneUpTo(s.ops, |s.ops|)
  }

  predicate WinnerOk(s: State) {
    match s.pc
    case Push(_) | Recheck(_) | Arm => !s.armed && (s.winner.Free? || s.winner.Op?)
    case Detach(_, why) => !s.armed && WhyOk(why, s.winner)
    case LoadFired(_, why) => !s.armed && WhyOk(why, s.winner)
    case Spin(_, why) => !s.armed && WhyOk(why, s.winner)
    case LoadWinner => !s.armed && WhyOk(AttachFailed, s.winner)
    case SwapCancel => !s.winner.OwnCancel?
    case Returned(suspended) =>
      if suspended then !s.winner.OwnCancel? else !s.armed && (s.winner.Free? || s.winner.OwnCancel?)
    case Over(_) => !s.armed
  }

  predicate WhyOk(why: Why, winner: Winner) {
    match why
    case AttachFailed => winner.Free? || winner.Op?
    case Cancelled => winner.OwnCancel?
    case AfterResume => !winner.OwnCancel?
  }

  /** A callback that took our node has cleared the pointer. */
  predicate OpOk(op: Operation) {
    op.Sleep? && op.waiter ==> !op.fire.Holding? && !op.fire.Resuming?
  }

  predicate Inv(s: State) {
    && s.ops != [] && (forall j | 0 <= j < |s.ops| :: OpOk(s.ops[j]))
    && ResumesOk(s) && NodesOk(s) && WinnerOk(s)
  }

  lemma AttachKeeps(s: State, ready: bool, cancelled: bool)
    requires Inv(s) && Enabled(s, Go(ready, cancelled)) && (s.pc.Push? || s.pc.Recheck?)
    ensures Inv(Do(s, Go(ready, cancelled)))
  {
  }

  lemma DetachKeeps(s: State, ready: bool, cancelled: bool)
    requires Inv(s) && Enabled(s, Go(ready, cancelled)) && s.pc.Detach?
    ensures Inv(Do(s, Go(ready, cancelled)))
  {
    var s' := Do(s, Go(ready, cancelled));
    assert OpOk(s.ops[s.pc.i]);
    assert forall j | 0 <= j < |s.ops| && j != s.pc.i :: s'.ops[j] == s.ops[j];
  }

  lemma SpinKeeps(s: State, ready: bool, cancelled: bool)
    requires Inv(s) && Enabled(s, Go(ready, cancelled)) && (s.pc.LoadFired? || s.pc.Spin?)
    ensures Inv(Do(s, Go(ready, cancelled)))
  {
  }

  lemma ReturnKeeps(s: State, ready: bool, cancelled: bool)
    requires Inv(s) && Enabled(s, Go(ready, cancelled)) && (s.pc.LoadWinner? || s.pc.Arm? || s.pc.SwapCancel?)
    ensures Inv(Do(s, Go(ready, cancelled)))
  {
  }

  lemma GoKeeps(s: State, ready: bool, cancelled: bool)
    requires Inv(s) && Enabled(s, Go(ready, cancelled))
    ensures Inv(Do(s, Go(ready, cancelled)))
  {
    hide Inv, Do;
    match s.pc
    case Push(_) => AttachKeeps(s, ready, cancelled);
    case Recheck(_) => AttachKeeps(s, ready, cancelled);
    case Detach(_, _) => DetachKeeps(s, ready, cancelled);
    case LoadFired(_, _) => SpinKeeps(s, ready, cancelled);
    case Spin(_, _) => SpinKeeps(s, ready, cancelled);
    case _ => ReturnKeeps(s, ready, cancelled);
  }

  /** A notifier can only take our node away, and not without making itself the winner. */
  lemma NotifierKeepsNodes(s: State, s': State, i: nat)
    requires NodesOk(s) && i < |s.ops| && s'.pc == s.pc && s'.armed == s.armed
    requires |s'.ops| == |s.ops| && forall j | 0 <= j < |s.ops| && j != i :: s'.ops[j] == s.ops[j]
    requires Reaches(s'.ops[i]) ==> Reaches(s.ops[i])
    requires s'.winner.Free? ==> s.winner.Free? && Reaches(s'.ops[i]) == Reaches(s.ops[i])
    requires s.ops[i].Sleep? ==>
               && s'.ops[i].Sleep? && (s'.ops[i].waiter ==> s.ops[i].waiter)
               && (Fired(s.ops[i].fire) ==> Fired(s'.ops[i].fire))
    ensures NodesOk(s')
  {
  }

  lemma ReachedIsNotReturned(s: State, i: nat)
    requires NodesOk(s) && i < |s.ops|
    ensures Reaches(s.ops[i]) ==> s.pc != Returned(false)
  {
  }

  lemma ResumingIsWinner(s: State, i: nat)
    requires ResumesOk(s) && i < |s.ops|
    ensures IsResuming(s.ops[i]) ==> s.winner == Op(i)
  {
  }

  lemma PopKeeps(s: State, i: nat)
    requires Inv(s) && Enabled(s, Pop(i))
    ensures Inv(Do(s, Pop(i)))
  {
    hide NodesOk;
    ReachedIsNotReturned(s, i);
    NotifierKeepsNodes(s, Do(s, Pop(i)), i);
  }

  lemma TimerKeepsResumes(s: State, i: nat)
    requires ResumesOk(s) && Enabled(s, Timer(i))
    ensures ResumesOk(Do(s, Timer(i)))
  {
    var s' := Do(s, Timer(i));
    forall j | 0 <= j < |s'.ops| && IsResuming(s'.ops[j]) ensures s'.winner == Op(j) {
      if j != i {
        assert s'.ops[j] == s.ops[j] && IsResuming(s.ops[j]);
      }
    }
  }

  lemma TimerKeeps(s: State, i: nat)
    requires Inv(s) && Enabled(s, Timer(i))
    ensures Inv(Do(s, Timer(i)))
  {
    hide NodesOk, ResumesOk;
    assert OpOk(s.ops[i]);
    ReachedIsNotReturned(s, i);
    ResumingIsWinner(s, i);
    NotifierKeepsNodes(s, Do(s, Timer(i)), i);
    TimerKeepsResumes(s, i);
  }

  lemma OtherKeeps(s: State, step: Step)
    requires Inv(s) && Enabled(s, step) && (step.Kick? || step.Wake? || step.Retry?)
    ensures Inv(Do(s, step))
  {
  }

  lemma StepKeepsInv(s: State, step: Step)
    requires Inv(s) && Enabled(s, step)
    ensures Inv(Do(s, step))
  {
    hide Inv, Enabled, Do;
    match step
    case Go(ready, cancelled) => GoKeeps(s, ready, cancelled);
    case Pop(i) => PopKeeps(s, i);
    case Timer(i) => TimerKeeps(s, i);
    case _ => OtherKeeps(s, step);
  }

  /** The coroutine can always go on, except while it waits for a callback to finish. */
  lemma NeverStuck(s: State, ready: bool, cancelled: bool)
    requires Inv(s) && !s.pc.Returned? && !s.pc.Over? && !s.pc.Spin?
    ensures Enabled(s, Go(ready, cancelled))
  {
  }

  /** And that wait ends: the callback has fired, and its own steps are always possible. */
  lemma SpinEnds(s: State)
    requires Inv(s) && s.pc.Spin?
    ensures s.ops[s.pc.i].Sleep? && (s.ops[s.pc.i].fire.FireDone? || Enabled(s, Timer(s.pc.i)))
  {
  }

  // ---- Whole runs ----------------------------------------------------------------------------

  ghost predicate Run(steps: seq<Step>, states: seq<State>) {
    && |states| == |steps| + 1 && Initial(states[0])
    && forall i | 0 <= i < |steps| :: Enabled(states[i], steps[i]) && states[i + 1] == Do(states[i], steps[i])
  }

  lemma {:induction false} RunKeepsInv(steps: seq<Step>, states: seq<State>, k: nat)
    requires Run(steps, states) && k < |states|
    ensures Inv(states[k])
  {
    if k > 0 {
      RunKeepsInv(steps, states, k - 1);
      StepKeepsInv(states[k - 1], steps[k - 1]);
    }
  }

  /**
    When `await_suspend` has returned true: no more than one resume; and either the winner is
    decided and its resume is issued or about to be, or nobody has won yet and every operation
    and the cancel hook can still do so.
   */
  lemma SuspendedIsResumedOnce(steps: seq<Step>, states: seq<State>, k: nat)
    requires Run(steps, states) && k < |states| && states[k].pc == Returned(true)
    ensures var s := states[k];
            && s.resumes <= 1
            && (s.winner.Free? ==> s.resumes == 0 && s.armed && forall j | 0 <= j < |s.ops| :: Reaches(s.ops[j]))
            && (!s.winner.Free? ==> s.resumes == 1 || ResumePending(s))
  {
    RunKeepsInv(steps, states, k);
  }

  /** From here on nobody but the coroutine itself can do anything about this suspension. */
  predicate OutOfReach(s: State) {
    !s.armed && NoneUpTo(s.ops, |s.ops|)
  }

  /** When `await_suspend` has returned false there is no resume, and there will be none. */
  lemma NotSuspendedIsNeverResumed(steps: seq<Step>, states: seq<State>, k: nat)
    requires Run(steps, states) && k < |states| && states[k].pc == Returned(false)
    ensures states[k].resumes == 0 && OutOfReach(states[k])
  {
    RunKeepsInv(steps, states, k);
  }

  lemma OutOfReachStays(s: State, step: Step)
    requires Inv(s) && OutOfReach(s) && Enabled(s, step) && (step.Pop? || step.Timer? || step.Kick?)
    ensures Do(s, step).resumes == s.resumes && OutOfReach(Do(s, step)) && Do(s, step).winner == s.winner
  {
    if step.Timer? {
      assert !Reaches(s.ops[step.i]);
    }
  }

  /** After the last `detach` no wait list, sleep or callback knows any of the nodes. */
  lemma DetachedEverywhere(steps: seq<Step>, states: seq<State>, k: nat)
    requires Run(steps, states) && k < |states| && (states[k].pc.LoadWinner? || states[k].pc.Over?)
    ensures OutOfReach(states[k])
  {
    RunKeepsInv(steps, states, k);
  }

  // ---- Steps that nobody disturbs --------------------------------------------------------------------

  /** `n` steps of the coroutine, with nothing ready and no cancellation, lead from `s` to `s'`. */
  ghost predicate Goes(s: State, n: nat, s': State)
    decreases n
  {
    var go := Go(false, false);
    if n == 0 then s' == s else Enabled(s, go) && Goes(Do(s, go), n - 1, s')
  }

  lemma OneGo(s: State, n: nat, s': State)
    requires Enabled(s, Go(false, false)) && Goes(Do(s, Go(false, false)), n, s')
    ensures Goes(s, n + 1, s')
  {
  }

  lemma NoGo(s: State)
    ensures Goes(s, 0, s)
  {
  }

  /** No timer callback is under way. */
  predicate Resting(op: Operation) {
    op.Sleep? ==> op.fire.Unarmed? || op.fire.Armed? || op.fire.FireDone?
  }

  predicate NotFired(op: Operation) {
    op.Sleep? ==> op.fire.Unarmed? || op.fire.Armed?
  }

  /** With nothing ready, every operation is attached and the coroutine suspends, open to all of them. */
  lemma {:induction false} AttachFinishes(s: State) returns (n: nat, s': State)
    requires Inv(s) && s.pc.Push? && s.winner.Free? && forall j | 0 <= j < |s.ops| :: NotFired(s.ops[j])
    ensures Goes(s, n, s') && Inv(s') && s'.pc == Returned(true) && s'.armed && s'.winner.Free?
    decreases |s.ops| - s.pc.i
  {
    hide Goes, Inv;
    var go := Go(false, false);
    NeverStuck(s, false, false);
    var s1 := Do(s, go);
    StepKeepsInv(s, go);
    NeverStuck(s1, false, false);
    var s2 := Do(s1, go);
    StepKeepsInv(s1, go);
    if s2.pc.Arm? {
      s' := Do(s2, go);
      StepKeepsInv(s2, go);
      NoGo(s');
      OneGo(s2, 0, s');
      n := 1;
    } else {
      n, s' := AttachFinishes(s2);
    }
    OneGo(s1, n, s');
    OneGo(s, n + 1, s');
    n := n + 2;
  }

  /** With no callback under way, the detach loop comes to its end. */
  lemma {:induction false} DetachFinishes(s: State) returns (n: nat, s': State)
    requires Inv(s) && s.pc.Detach? && forall j | 0 <= j < |s.ops| :: Resting(s.ops[j])
    ensures Goes(s, n, s') && Inv(s') && s'.winner == s.winner && s'.resumes == s.resumes
    ensures s'.pc == (match s.pc.why
                      case AttachFailed => LoadWinner
                      case Cancelled => Returned(false)
                      case AfterResume => Over(!s.winner.Kicked?))
    decreases |s.ops| - s.pc.i
  {
    hide Goes, Inv;
    NeverStuck(s, false, false);
    var s1, m := DetachOne(s);
    if s1.pc.Detach? {
      n, s' := DetachFinishes(s1);
    } else {
      NoGo(s1);
      n, s' := 0, s1;
    }
    GoesOn(s, m, s1, n, s');
    n := m + n;
  }

  lemma {:induction false} GoesOn(a: State, n: nat, b: State, m: nat, c: State)
    requires Goes(a, n, b) && Goes(b, m, c)
    ensures Goes(a, n + m, c)
    decreases n
  {
    if n > 0 {
      GoesOn(Do(a, Go(false, false)), n - 1, b, m, c);
    }
  }

  lemma DetachOne(s: State) returns (s': State, n: nat)
    requires Inv(s) && s.pc.Detach? && Resting(s.ops[s.pc.i])
    ensures Goes(s, n, s') && Inv(s') && s'.pc == AfterDetach(s, s.pc.i, s.pc.why)
    ensures s' == s.(ops := s'.ops, pc := s'.pc) && |s'.ops| == |s.ops|
    ensures forall j | 0 <= j < |s.ops| :: Resting(s.ops[j]) ==> Resting(s'.ops[j])
  {
    hide Goes, Inv;
    var go := Go(false, false);
    NeverStuck(s, false, false);
    s' := Do(s, go);
    StepKeepsInv(s, go);
    n := 1;
    NoGo(s');
    OneGo(s, 0, s');
    if s'.pc.LoadFired? {
      var s1 := s';
      s' := Do(s1, go);
      StepKeepsInv(s1, go);
      n := 2;
      NoGo(s');
      OneGo(s1, 0, s');
      OneGo(s, 1, s');
      if s'.pc.Spin? {
        var s2 := s';
        s' := Do(s2, go);
        StepKeepsInv(s2, go);
        n := 3;
        NoGo(s');
        OneGo(s2, 0, s');
        OneGo(s1, 1, s');
        OneGo(s, 2, s');
      }
    }
  }

  /** The first to fire wins and resumes: a popped node, the cancel hook, or a timer after its callback. */
  lemma FirstToFireWins(s: State, i: nat)
    requires Inv(s) && s.pc == Returned(true) && s.winner.Free? && i < |s.ops|
    ensures s.ops[i].InList? ==> Enabled(s, Pop(i)) && Do(s, Pop(i)).winner == Op(i) && Do(s, Pop(i)).resumes == 1
    ensures Enabled(s, Kick) && Do(s, Kick).winner == Kicked && Do(s, Kick).resumes == 1 && !Do(s, Kick).armed
    ensures s.ops[i] == Sleep(true, Armed) ==>
              var s1 := Do(s, Timer(i));
              && s1.ops[i] == Sleep(true, SetFired)
              && var s2 := Do(s1, Timer(i));
              && s2.ops[i] == Sleep(false, Holding)
              && var s3 := Do(s2, Timer(i));
              && s3.ops[i] == Sleep(false, Resuming) && s3.winner == Op(i)
              && var s4 := Do(s3, Timer(i));
              && s4.ops[i] == Sleep(false, Finishing) && s4.resumes == 1
              && Do(s4, Timer(i)).ops[i] == Sleep(false, FireDone)
  {
    assert Reaches(s.ops[i]);
  }

  /** A resumed coroutine, or one that was not suspended, goes on to detach; then select may try again. */
  lemma WakeGoesOn(s: State)
    requires Inv(s) && Enabled(s, Wake)
    ensures Do(s, Wake).pc == (if s.winner.OwnCancel? then Over(false) else Detach(0, AfterResume))
  {
  }

  lemma RetryStartsOver(s: State)
    requires Inv(s) && Enabled(s, Retry)
    ensures var s' := Do(s, Retry); s'.pc == Push(0) && s'.winner.Free? && s'.resumes == 0 && s'.ops == s.ops
  {
  }

  /** A cancellation that is there already when the hook is armed ends the suspension, unless somebody has won. */
  lemma CancelledAtOnce(s: State)
    requires Inv(s) && s.pc.Arm?
    ensures var s1 := Do(s, Go(false, true));
            && Enabled(s1, Go(false, true))
            && var s2 := Do(s1, Go(false, true));
               if s.winner.Free? then s2.winner == OwnCancel && s2.pc == Detach(0, Cancelled) && !s2.armed
               else s2.pc == Returned(true) && s2.winner == s.winner
  {
  }

  /** An operation that is ready at its recheck ends the attaching. */
  lemma ReadyEndsAttaching(s: State)
    requires Inv(s) && s.pc.Recheck? && s.ops[s.pc.i].InList?
    ensures Do(s, Go(true, false)).pc == Detach(0, AttachFailed)
  {
  }

  /** Attaching to a sleep arms its timer once; one that has fired ends the attaching. */
  lemma AttachToSleep(s: State)
    requires Inv(s) && s.pc.Push? && s.ops[s.pc.i].Sleep?
    ensures var i, s1 := s.pc.i, Do(s, Go(false, false));
            && s1.ops[i] == Sleep(true, if s.ops[i].fire.Unarmed? then Armed else s.ops[i].fire)
            && (Do(s1, Go(true, false)).pc == Detach(0, AttachFailed) <==> Fired(s.ops[i].fire))
  {
  }

  /** A node taken back from a sleep is out of its reach, and the loop goes on at once. */
  lemma DetachTakesBack(s: State)
    requires Inv(s) && s.pc.Detach? && s.ops[s.pc.i].Sleep? && s.ops[s.pc.i].waiter
    ensures var s1 := Do(s, Go(false, false));
            !Reaches(s1.ops[s.pc.i]) && s1.pc == AfterDetach(s, s.pc.i, s.pc.why)
  {
    assert OpOk(s.ops[s.pc.i]);
  }

  /** After a failed attach the coroutine counts as suspended exactly if somebody has won. */
  lemma FailedAttachReturns(s: State)
    requires Inv(s) && s.pc.LoadWinner?
    ensures Do(s, Go(false, false)).pc == Returned(s.resumes == 1)
  {
    assert forall j | 0 <= j < |s.ops| :: !Reaches(s.ops[j]);
  }
}
