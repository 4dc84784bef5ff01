/**
  The race between connection attempts of sections 3 to 5 of RFC 8305: attempts, a pacer, two
  resolves and one waiting parent share a record behind a mutex. Every section held under the
  mutex is one step; between two sections an actor is known by the section it enters next.
 */
module HappyEyeballs {
  import opened Wrappers
  import opened AddressWeave

  type Error = nat

  datatype Outcome = Won(attempt: nat) | NoAddress | Failed(error: Option<Error>)

  datatype Pacer = Absent | Sleeping | Launching | Gone

  datatype Resolve =
    | Resolving
    | Checking(found: seq<Addr>)   // IPv4 answer: is the IPv6 one still out?
    | Delayed(found: seq<Addr>)    // sleeping for the resolution delay
    | Ready(found: seq<Addr>)
    | ToKick                       // kick_if_stalled
    | ToLaunch
    | Over

  datatype Parent = First | AtReady | AtSuspend | Suspended | Reading | Returned(outcome: Outcome)

  /** The record behind the mutex. */
  datatype Race = Race(
    done: bool,
    parentWaiting: bool,
    addrs: seq<Addr>,
    maxAttempts: nat,
    nextIdx: nat,
    finished: nat,
    resolvesPending: nat,
    v6Resolved: bool,
    winner: Option<nat>,
    lastError: Option<Error>
  )

  datatype State = State(
    st: Race,
    starting: set<nat>,     // attempts spawned, by address index
    connecting: set<nat>,   // attempts inside connect
    early: nat,             // failed attempts about to launch the next one
    pacer: Pacer,
    res6: Resolve,
    res4: Resolve,
    delay: bool,            // is there a resolution delay?
    parent: Parent,
    wakes: nat,             // parent handles taken, about to be resumed
    resumed: nat
  )

  datatype Step =
    | ParentLaunch | ParentReady | ParentSuspend | ParentRead | Resume
    | AttemptStart(i: nat) | AttemptEnd(i: nat, err: Option<Error>) | EarlyLaunch
    | PacerWake | PacerLaunch
    | Answer(v6: bool, found: seq<Addr>) | CheckDelay | Apply(v6: bool) | Kick(v6: bool) | KickLaunch(v6: bool)

  predicate Decided(st: Race) {
    st.done || (st.resolvesPending == 0 && st.nextIdx == |st.addrs| && st.finished == |st.addrs|)
  }

  /** `connect_happy`: nothing is known yet. */
  function ByName(maxAttempts: nat, delay: bool): State {
    State(Race(false, false, [], maxAttempts, 0, 0, 2, false, None, None),
          {}, {}, 0, Sleeping, Resolving, Resolving, delay, AtReady, 0, 0)
  }

  /** `connect_happy_addrs`. */
  function ByAddrs(addrs: seq<Addr>, maxAttempts: nat): State {
    var list := if maxAttempts == 0 then addrs else Upto(addrs, maxAttempts);
    State(Race(false, false, list, maxAttempts, 0, 0, 0, false, None, None),
          {}, {}, 0, Absent, Over, Over, false, if addrs == [] then Returned(NoAddress) else First, 0, 0)
  }

  function Res(s: State, v6: bool): Resolve { if v6 then s.res6 else s.res4 }

  function WithRes(s: State, v6: bool, r: Resolve): State { if v6 then s.(res6 := r) else s.(res4 := r) }

  predicate Enabled(s: State, step: Step) {
    match step
    case ParentLaunch => s.parent.First?
    case ParentReady => s.parent.AtReady?
    case ParentSuspend => s.parent.AtSuspend?
    case ParentRead => s.parent.Reading?
    case Resume => s.wakes > 0
    case AttemptStart(i) => i in s.starting
    case AttemptEnd(i, _) => i in s.connecting
    case EarlyLaunch => s.early > 0
    case PacerWake => s.pacer.Sleeping?
    case PacerLaunch => s.pacer.Launching?
    case Answer(v6, _) => Res(s, v6).Resolving?
    case CheckDelay => s.res4.Checking?
    case Apply(v6) =>
      (Res(s, v6).Ready? || Res(s, v6).Delayed?) && s.st.resolvesPending > 0 && s.st.nextIdx <= |s.st.addrs|
    case Kick(v6) => Res(s, v6).ToKick?
    case KickLaunch(v6) => Res(s, v6).ToLaunch?
  }

  function LaunchNext(s: State): State {
    if s.st.done || s.st.nextIdx >= |s.st.addrs| then s
    else s.(st := s.st.(nextIdx := s.st.nextIdx + 1), starting := s.starting + {s.st.nextIdx})
  }

  function TakeParentIfDecided(s: State): State {
    if Decided(s.st) && s.st.parentWaiting then s.(st := s.st.(parentWaiting := false), wakes := s.wakes + 1) else s
  }

  function OutcomeOf(st: Race): Outcome {
    if st.winner.Some? then Won(st.winner.value)
    else if st.addrs == [] then NoAddress
    else Failed(st.lastError)
  }

  /** The locked section at the end of an attempt. */
  function Ended(s: State, i: nat, err: Option<Error>): State
    requires i in s.connecting
  {
    var st := s.st.(finished := s.st.finished + 1);
    var n := s.(connecting := s.connecting - {i});
    match err
    case None => n.(st := if st.done then st else st.(done := true, winner := Some(i)))
    case Some(_) =>
      n.(st := st.(lastError := err), early := if !st.done && st.nextIdx < |st.addrs| then s.early + 1 else s.early)
  }

  function Applied(s: State, v6: bool): State
    requires Enabled(s, Apply(v6))
  {
    var found := Res(s, v6).found;
    var st := s.st.(v6Resolved := s.st.v6Resolved || v6, resolvesPending := s.st.resolvesPending - 1);
    WithRes(s, v6, ToKick)
      .(st := if st.done || found == [] then st
              else st.(addrs := Woven(st.addrs, st.nextIdx, st.maxAttempts, found, v6)))
  }

  function Do(s: State, step: Step): State
    requires Enabled(s, step)
  {
    match step
    case ParentLaunch =>
      LaunchNext(s).(pacer := if |s.st.addrs| > 1 then Sleeping else Absent, parent := AtReady)
    case ParentReady => s.(parent := if Decided(s.st) then Reading else AtSuspend)
    case ParentSuspend =>
      if Decided(s.st) then s.(parent := Reading)
      else s.(st := s.st.(parentWaiting := true), parent := Suspended)
    case ParentRead => s.(parent := Returned(OutcomeOf(s.st)))
    case Resume => s.(wakes := s.wakes - 1, resumed := s.resumed + 1, parent := Reading)
    case AttemptStart(i) =>
      var n := s.(starting := s.starting - {i});
      if s.st.done then TakeParentIfDecided(n.(st := s.st.(finished := s.st.finished + 1)))
      else n.(connecting := s.connecting + {i})
    case AttemptEnd(i, err) => TakeParentIfDecided(Ended(s, i, err))
    case EarlyLaunch => LaunchNext(s.(early := s.early - 1))
    case PacerWake =>
      s.(pacer := if s.st.done || (s.st.resolvesPending == 0 && s.st.nextIdx >= |s.st.addrs|) then Gone else Launching)
    case PacerLaunch => LaunchNext(s.(pacer := Sleeping))
    case Answer(v6, found) => WithRes(s, v6, if !v6 && found != [] && s.delay then Checking(found) else Ready(found))
    case CheckDelay =>
      s.(res4 := if !s.st.v6Resolved && !s.st.done then Delayed(s.res4.found) else Ready(s.res4.found))
    case Apply(v6) => TakeParentIfDecided(Applied(s, v6))
    case Kick(v6) =>
      WithRes(s, v6, if s.st.done || s.st.nextIdx >= |s.st.addrs| || s.st.finished != s.st.nextIdx then Over else ToLaunch)
    case KickLaunch(v6) => LaunchNext(WithRes(s, v6, Over))
  }

  // ---- Invariant ---------------------------------------------------------------------------

  predicate Out(r: Resolve) { r.Resolving? || r.Checking? || r.Delayed? || r.Ready? }

  /** Every launched attempt is running or finished; the winner is one that finished. */
  ghost predicate RunningOk(launched: nat, finished: nat, winner: Option<nat>, starting: set<nat>, connecting: set<nat>) {
    && (forall i | i in starting :: i < launched && i !in connecting)
    && (forall i | i in connecting :: i < launched)
    && finished + |starting| + |connecting| == launched
    && (winner.Some? ==> winner.value < launched && winner.value !in starting && winner.value !in connecting)
  }

  predicate RaceOk(st: Race) {
    && st.nextIdx <= |st.addrs| && (st.done <==> st.winner.Some?)
    && (st.maxAttempts > 0 ==> |st.addrs| <= st.maxAttempts)
    && (st.finished > 0 && !st.done ==> st.lastError.Some?)
  }

  ghost predicate AttemptsOk(s: State) {
    RaceOk(s.st) && RunningOk(s.st.nextIdx, s.st.finished, s.st.winner, s.starting, s.connecting)
  }

  predicate ParentOk(s: State) {
    && (s.st.parentWaiting ==> !Decided(s.st))
    && s.wakes + s.resumed + Bit(s.st.parentWaiting) <= 1
    && (s.parent.Suspended? <==> s.st.parentWaiting || s.wakes == 1)
    && (s.wakes > 0 || s.parent.Reading? || s.parent.Returned? ==> Decided(s.st))
    && (s.resumed > 0 ==> s.parent.Reading? || s.parent.Returned?)
    && (s.parent.Returned? ==> s.parent.outcome == OutcomeOf(s.st))
  }

  predicate ActorsOk(s: State) {
    && s.st.resolvesPending == Bit(Out(s.res6)) + Bit(Out(s.res4)) && !s.res6.Checking? && !s.res6.Delayed?
    && (s.pacer.Gone? ==> s.st.done || (s.st.resolvesPending == 0 && s.st.nextIdx == |s.st.addrs|))
    && (s.pacer.Absent? ==> s.parent.First? || (s.st.resolvesPending == 0 && s.st.nextIdx == |s.st.addrs|))
    && (s.parent.First? ==> s.pacer.Absent? && s.early == 0 && s.res6.Over? && s.res4.Over? && s.st.nextIdx == 0)
    && (s.res4.Ready? && s.res4.found != [] && s.delay ==> s.st.v6Resolved || s.st.done)
  }

  ghost predicate Inv(s: State) {
    AttemptsOk(s) && ParentOk(s) && ActorsOk(s)
  }

  lemma LaunchNextFacts(s: State, n: State)
    requires AttemptsOk(s) && n.st == s.st && n.starting == s.starting && n.connecting == s.connecting
    ensures AttemptsOk(LaunchNext(n)) && (Decided(LaunchNext(n).st) <==> Decided(s.st))
  {
    hide RunningOk;
    OneMoreRunning(s.st.nextIdx, s.st.finished, s.st.winner, s.starting, s.connecting);
    FinishedAtMostLaunched(s);
  }

  lemma OneMoreRunning(launched: nat, finished: nat, winner: Option<nat>, starting: set<nat>, connecting: set<nat>)
    requires RunningOk(launched, finished, winner, starting, connecting)
    ensures RunningOk(launched + 1, finished, winner, starting + {launched}, connecting)
  {
    assert launched !in starting;
  }

  lemma FinishedAtMostLaunched(s: State)
    requires AttemptsOk(s)
    ensures s.st.finished <= s.st.nextIdx
  {
  }

  lemma LaunchKeeps(s: State, step: Step)
    requires Inv(s) && Enabled(s, step) && (step.EarlyLaunch? || step.PacerLaunch? || step.KickLaunch?)
    ensures Inv(Do(s, step))
  {
    hide AttemptsOk;
    AttemptsBounds(s);
    match step
    case EarlyLaunch => LaunchNextFacts(s, s.(early := s.early - 1));
    case PacerLaunch => LaunchNextFacts(s, s.(pacer := Sleeping));
    case KickLaunch(v6) => LaunchNextFacts(s, WithRes(s, v6, Over));
  }

  lemma ParentLaunchKeeps(s: State)
    requires Inv(s) && Enabled(s, ParentLaunch)
    ensures Inv(Do(s, ParentLaunch))
  {
    LaunchNextFacts(s, s);
  }

  lemma ParentKeeps(s: State, step: Step)
    requires Inv(s) && Enabled(s, step)
    requires step.ParentReady? || step.ParentSuspend? || step.ParentRead? || step.Resume?
    ensures Inv(Do(s, step))
  {
  }

  /** While an attempt runs the race is not exhausted. */
  lemma RunningExcludesExhausted(s: State, i: nat)
    requires AttemptsOk(s) && (i in s.starting || i in s.connecting)
    ensures s.st.finished < s.st.nextIdx
  {
    assert i in s.starting ==> |s.starting| > 0;
    assert i in s.connecting ==> |s.connecting| > 0;
  }

  lemma StartKeepsAttempts(s: State, i: nat)
    requires AttemptsOk(s) && i in s.starting
    ensures AttemptsOk(Do(s, AttemptStart(i)))
  {
    assert |s.starting - {i}| == |s.starting| - 1;
    assert |s.connecting + {i}| == |s.connecting| + 1;
  }

  lemma EndKeepsAttempts(s: State, i: nat, err: Option<Error>)
    requires AttemptsOk(s) && i in s.connecting
    ensures AttemptsOk(Do(s, AttemptEnd(i, err)))
  {
    hide RunningOk;
    OneMoreFinished(s.st.nextIdx, s.st.finished, s.st.winner, s.starting, s.connecting, i);
  }

  lemma OneMoreFinished(launched: nat, finished: nat, winner: Option<nat>, starting: set<nat>, connecting: set<nat>, i: nat)
    requires RunningOk(launched, finished, winner, starting, connecting) && i in connecting
    ensures RunningOk(launched, finished + 1, winner, starting, connecting - {i})
    ensures RunningOk(launched, finished + 1, Some(i), starting, connecting - {i})
  {
    assert |connecting - {i}| == |connecting| - 1;
  }

  lemma AttemptStartKeeps(s: State, i: nat)
    requires Inv(s) && Enabled(s, AttemptStart(i))
    ensures Inv(Do(s, AttemptStart(i)))
  {
    hide AttemptsOk;
    RunningExcludesExhausted(s, i);
    AttemptsBounds(s);
    StartKeepsAttempts(s, i);
  }

  lemma AttemptEndKeeps(s: State, i: nat, err: Option<Error>)
    requires Inv(s) && Enabled(s, AttemptEnd(i, err))
    ensures Inv(Do(s, AttemptEnd(i, err)))
  {
    hide AttemptsOk;
    RunningExcludesExhausted(s, i);
    AttemptsBounds(s);
    EndKeepsAttempts(s, i, err);
  }

  lemma AttemptsBounds(s: State)
    requires AttemptsOk(s)
    ensures s.st.finished <= s.st.nextIdx <= |s.st.addrs| && (s.st.done <==> s.st.winner.Some?)
  {
  }

  lemma ApplyKeepsAttempts(s: State, v6: bool)
    requires AttemptsOk(s) && Enabled(s, Apply(v6))
    ensures AttemptsOk(Do(s, Apply(v6)))
  {
    hide Woven, RunningOk;
    WovenBounds(s.st.addrs, s.st.nextIdx, s.st.maxAttempts, Res(s, v6).found, v6);
  }

  lemma ApplyKeeps(s: State, v6: bool)
    requires Inv(s) && Enabled(s, Apply(v6))
    ensures Inv(Do(s, Apply(v6)))
  {
    hide Woven, AttemptsOk;
    ApplyKeepsAttempts(s, v6);
    AttemptsBounds(s);
  }

  lemma ResolveKeeps(s: State, step: Step)
    requires Inv(s) && Enabled(s, step) && (step.Answer? || step.CheckDelay? || step.Kick? || step.PacerWake?)
    ensures Inv(Do(s, step))
  {
  }

  lemma StepKeepsInv(s: State, step: Step)
    requires Inv(s) && Enabled(s, step)
    ensures Inv(Do(s, step))
  {
    hide Inv, Enabled, Do;
    match step
    case EarlyLaunch | PacerLaunch => LaunchKeeps(s, step);
    case ParentLaunch => ParentLaunchKeeps(s);
    case KickLaunch(_) => LaunchKeeps(s, step);
    case ParentReady | ParentSuspend | ParentRead | Resume => ParentKeeps(s, step);
    case AttemptStart(i) => AttemptStartKeeps(s, i);
    case AttemptEnd(i, err) => AttemptEndKeeps(s, i, err);
    case Apply(v6) => ApplyKeeps(s, v6);
    case _ => ResolveKeeps(s, step);
  }

  /** `resolves_pending` is never taken below 0, and weaving never starts past the end. */
  lemma NeverBelowZero(s: State, v6: bool)
    requires Inv(s) && (Res(s, v6).Ready? || Res(s, v6).Delayed?)
    ensures Enabled(s, Apply(v6))
  {
    hide RunningOk, ParentOk;
  }

  // ---- Whole runs ----------------------------------------------------------------------------

  ghost predicate Initial(s: State) {
    || s == ByName(s.st.maxAttempts, s.delay)
    || (exists addrs: seq<Addr> :: s == ByAddrs(addrs, s.st.maxAttempts))
  }

  ghost predicate Run(steps: seq<Step>, states: seq<State>) {
    && |states| == |steps| + 1 && Initial(states[0])
    && forall i | 0 <= i < |steps| :: Enabled(states[i], steps[i]) && states[i + 1] == Do(states[i], steps[i])
  }

  lemma InitialIsInv(s: State)
    requires Initial(s)
    ensures Inv(s)
  {
  }

  lemma {:induction false} RunKeepsInv(steps: seq<Step>, states: seq<State>, k: nat)
    requires Run(steps, states) && k < |states|
    ensures Inv(states[k])
  {
    hide Inv, Enabled, Do, Initial;
    if k == 0 {
      InitialIsInv(states[0]);
    } else {
      RunKeepsInv(steps, states, k - 1);
      StepKeepsInv(states[k - 1], steps[k - 1]);
    }
  }

  /**
    In every state between two locked sections: the parent does not wait for a race that is
    decided, is resumed at most once, and if it sleeps through a decision its wake-up is on the
    way. A race that is done has exactly one winner, an attempt that was launched and finished.
   */
  lemma ParentIsWokenOnce(steps: seq<Step>, states: seq<State>, k: nat)
    requires Run(steps, states) && k < |states|
    ensures var s := states[k];
            && !(Decided(s.st) && s.st.parentWaiting)
            && s.resumed <= 1
            && (s.resumed == 1 ==> s.wakes == 0 && !s.st.parentWaiting && Decided(s.st))
            && (s.parent.Suspended? && Decided(s.st) ==> s.wakes == 1)
            && (s.st.done <==> s.st.winner.Some?)
            && (s.st.done ==> s.st.winner.value < s.st.nextIdx && s.st.winner.value !in s.starting + s.connecting)
  {
    RunKeepsInv(steps, states, k);
  }

  /** The parent returns the winner's socket whenever there is one. */
  lemma WinnerIsReturned(steps: seq<Step>, states: seq<State>, k: nat)
    requires Run(steps, states) && k < |states| && states[k].parent.Returned?
    ensures states[k].parent.outcome.Won? <==> states[k].st.done
    ensures states[k].parent.outcome.Won? ==> states[k].st.winner == Some(states[k].parent.outcome.attempt)
  {
    RunKeepsInv(steps, states, k);
  }

  /** An error is returned only when both resolves are over and every address was tried and failed. */
  lemma ErrorMeansExhausted(steps: seq<Step>, states: seq<State>, k: nat)
    requires Run(steps, states) && k < |states| && states[k].parent.Returned? && !states[k].parent.outcome.Won?
    ensures var s := states[k];
            && !s.st.done && s.st.resolvesPending == 0 && !Out(s.res6) && !Out(s.res4)
            && s.st.nextIdx == s.st.finished == |s.st.addrs| && s.starting == {} && s.connecting == {}
            && (s.parent.outcome.NoAddress? <==> s.st.addrs == [])
            && (s.parent.outcome.Failed? ==> s.parent.outcome.error.Some? && s.parent.outcome.error == s.st.lastError)
  {
    RunKeepsInv(steps, states, k);
  }

  /** Somebody is still going to take a locked section that can bring a decision nearer. */
  predicate Live(s: State) {
    || s.starting != {} || s.connecting != {}
    || Out(s.res6) || Out(s.res4)
    || s.pacer.Sleeping? || s.pacer.Launching?
    || s.parent.First?
  }

  lemma UndecidedIsLive(steps: seq<Step>, states: seq<State>, k: nat)
    requires Run(steps, states) && k < |states| && !Decided(states[k].st)
    ensures Live(states[k])
  {
    RunKeepsInv(steps, states, k);
  }

  /** At most `maxAttempts` attempts are ever launched, when there is a limit. */
  lemma AttemptsAreCapped(steps: seq<Step>, states: seq<State>, k: nat)
    requires Run(steps, states) && k < |states| && states[k].st.maxAttempts > 0
    ensures states[k].st.nextIdx <= |states[k].st.addrs| <= states[k].st.maxAttempts
  {
    RunKeepsInv(steps, states, k);
  }

  /** IPv4 answers wait for the resolution delay as long as IPv6 is still out. */
  lemma Ipv4WaitsForIpv6(steps: seq<Step>, states: seq<State>, k: nat)
    requires Run(steps, states) && k < |steps| && steps[k] == Apply(false) && states[k].delay
    requires states[k].res4.found != [] && !states[k].st.v6Resolved && !states[k].st.done
    ensures states[k].res4.Delayed?
  {
    RunKeepsInv(steps, states, k);
  }

  /** A decision is final, and an address that was launched keeps its place. */
  ghost predicate Stable(s: State, n: State) {
    && (Decided(s.st) ==> Decided(n.st) && n.st.winner == s.st.winner)
    && s.st.nextIdx <= n.st.nextIdx && s.st.nextIdx <= |s.st.addrs| && n.st.nextIdx <= |n.st.addrs|
    && n.st.addrs[..s.st.nextIdx] == s.st.addrs[..s.st.nextIdx]
    && (s.st.done ==> n.st.done && n.st.addrs == s.st.addrs)
  }

  lemma ApplyIsStable(s: State, v6: bool)
    requires Inv(s) && Enabled(s, Apply(v6))
    ensures Stable(s, Do(s, Apply(v6)))
  {
    hide Woven, RunningOk;
    WovenBounds(s.st.addrs, s.st.nextIdx, s.st.maxAttempts, Res(s, v6).found, v6);
  }

  lemma StepIsStable(s: State, step: Step)
    requires Inv(s) && Enabled(s, step)
    ensures Stable(s, Do(s, step))
  {
    hide Woven, RunningOk, ParentOk;
    if step.Apply? {
      ApplyIsStable(s, step.v6);
    } else if step.AttemptStart? || step.AttemptEnd? {
      RunningExcludesExhausted(s, step.i);
    }
  }

  lemma {:induction false} DecisionIsFinal(steps: seq<Step>, states: seq<State>, i: nat, j: nat)
    requires Run(steps, states) && i <= j < |states|
    ensures Stable(states[i], states[j])
    decreases j
  {
    hide Enabled, Do, Initial, ParentOk, ActorsOk, RunningOk, Decided;
    RunKeepsInv(steps, states, j);
    if i < j {
      DecisionIsFinal(steps, states, i, j - 1);
      RunKeepsInv(steps, states, j - 1);
      StepIsStable(states[j - 1], steps[j - 1]);
      PrefixOfPrefix(states[j].st.addrs, states[j - 1].st.addrs, states[i].st.nextIdx, states[j - 1].st.nextIdx);
    }
  }

  lemma PrefixOfPrefix(a: seq<Addr>, b: seq<Addr>, n: nat, m: nat)
    requires n <= m <= |a| && m <= |b| && a[..m] == b[..m]
    ensures a[..n] == b[..n]
  {
    assert a[..n] == a[..m][..n] && b[..n] == b[..m][..n];
  }

  // ---- What was won, and what failed ------------------------------------------------------------

  /** The first attempt of the run whose connect succeeded. */
  function FirstSuccess(steps: seq<Step>): Option<nat> {
    if steps == [] then None
    else
      var n := |steps| - 1;
      var before := FirstSuccess(steps[..n]);
      if before.None? && steps[n].AttemptEnd? && steps[n].err.None? then Some(steps[n].i) else before
  }

  /** The error of the last attempt of the run that failed. */
  function LastFailure(steps: seq<Step>): Option<Error> {
    if steps == [] then None
    else
      var n := |steps| - 1;
      if steps[n].AttemptEnd? && steps[n].err.Some? then steps[n].err else LastFailure(steps[..n])
  }

  lemma StepRecords(s: State, step: Step)
    requires Enabled(s, step)
    ensures var w := if step.AttemptEnd? && step.err.None? then Some(step.i) else None;
            Do(s, step).st.winner == if s.st.done then s.st.winner else if w.Some? then w else s.st.winner
    ensures Do(s, step).st.done <==> s.st.done || (step.AttemptEnd? && step.err.None?)
    ensures Do(s, step).st.lastError == if step.AttemptEnd? && step.err.Some? then step.err else s.st.lastError
  {
    hide Woven;
  }

  /** The winner is the first attempt that succeeded, and the error kept is that of the last one that failed. */
  lemma {:induction false} WinnerIsFirstSuccess(steps: seq<Step>, states: seq<State>, k: nat)
    requires Run(steps, states) && k <= |steps|
    ensures states[k].st.winner == FirstSuccess(steps[..k]) && (states[k].st.done <==> FirstSuccess(steps[..k]).Some?)
    ensures states[k].st.lastError == LastFailure(steps[..k])
  {
    hide Enabled, Do, Woven;
    if k == 0 {
      StartsWithout(states[0]);
    } else {
      WinnerIsFirstSuccess(steps, states, k - 1);
      StepRecords(states[k - 1], steps[k - 1]);
      assert steps[..k][..k - 1] == steps[..k - 1];
    }
  }

  lemma StartsWithout(s: State)
    requires Initial(s)
    ensures s.st.winner == None && !s.st.done && s.st.lastError == None && s.st.nextIdx == 0
  {
  }

  predicate HasFailed(steps: seq<Step>, k: nat, i: nat) {
    exists q :: 0 <= q < k && q < |steps| && steps[q].AttemptEnd? && steps[q].i == i && steps[q].err.Some?
  }

  predicate AttemptOver(s: State, i: nat) {
    i < s.st.nextIdx && i !in s.starting && i !in s.connecting
  }

  lemma StepEndsAttempt(s: State, step: Step, i: nat)
    requires Enabled(s, step) && !Do(s, step).st.done && AttemptOver(Do(s, step), i) && !AttemptOver(s, i)
    ensures step.AttemptEnd? && step.i == i && step.err.Some?
  {
    hide Woven;
  }

  /** As long as nobody has won, an attempt that is over has failed. */
  lemma {:induction false} OverMeansFailed(steps: seq<Step>, states: seq<State>, k: nat, i: nat)
    requires Run(steps, states) && k <= |steps| && !states[k].st.done && AttemptOver(states[k], i)
    ensures HasFailed(steps, k, i)
  {
    hide Enabled, Do, Woven;
    if k == 0 {
      StartsWithout(states[0]);
    } else {
      StepRecords(states[k - 1], steps[k - 1]);
      if AttemptOver(states[k - 1], i) {
        OverMeansFailed(steps, states, k - 1, i);
        var q :| 0 <= q < k - 1 && q < |steps| && steps[q].AttemptEnd? && steps[q].i == i && steps[q].err.Some?;
      } else {
        StepEndsAttempt(states[k - 1], steps[k - 1], i);
      }
    }
  }

  /**
    What the parent returns: the first attempt that succeeded, if any did; otherwise every
    address was launched and its attempt has failed, and the error is that of the last one.
   */
  lemma ReturnedIsWhatHappened(steps: seq<Step>, states: seq<State>, k: nat)
    requires Run(steps, states) && k <= |steps| && states[k].parent.Returned?
    ensures match states[k].parent.outcome
            case Won(i) => FirstSuccess(steps[..k]) == Some(i)
            case NoAddress => FirstSuccess(steps[..k]) == None && states[k].st.addrs == []
            case Failed(error) =>
              && FirstSuccess(steps[..k]) == None && error.Some? && error == LastFailure(steps[..k])
              && forall i | 0 <= i < |states[k].st.addrs| :: HasFailed(steps, k, i)
  {
    hide FirstSuccess, LastFailure, HasFailed, Enabled, Do;
    WinnerIsFirstSuccess(steps, states, k);
    WinnerIsReturned(steps, states, k);
    if !states[k].parent.outcome.Won? {
      ErrorMeansExhausted(steps, states, k);
      forall i | 0 <= i < |states[k].st.addrs| ensures HasFailed(steps, k, i) {
        OverMeansFailed(steps, states, k, i);
      }
    }
  }

  /** Every step that launches takes the next address, unless the race is won or none is left. */
  lemma LaunchTakesTheNext(s: State, step: Step)
    requires Inv(s) && Enabled(s, step) && !s.st.done && s.st.nextIdx < |s.st.addrs|
    requires step.ParentLaunch? || step.EarlyLaunch? || step.PacerLaunch? || step.KickLaunch?
    ensures Do(s, step).st.nextIdx == s.st.nextIdx + 1 && Do(s, step).starting == s.starting + {s.st.nextIdx}
    ensures s.st.nextIdx !in s.starting && s.st.nextIdx !in s.connecting
  {
  }

  // ---- The race can always be brought to an end ---------------------------------------------------

  function ParentRank(p: Parent): nat {
    match p
    case First => 10
    case AtReady => 6
    case AtSuspend => 5
    case Suspended => 4
    case Reading => 1
    case Returned(_) => 0
  }

  function ResolveRank(r: Resolve): nat {
    match r
    case Resolving => 5
    case Checking(found) => 4 + 4 * |found|
    case Delayed(found) => 2 + 4 * |found|
    case Ready(found) => 2 + 4 * |found|
    case _ => 0
  }

  /** What is left to do at most, if every answer is empty and every attempt fails. */
  function Remaining(s: State): int {
    ParentRank(s.parent) + ResolveRank(s.res6) + ResolveRank(s.res4) + Bit(s.pacer.Sleeping?)
    + 4 * (|s.st.addrs| - s.st.nextIdx) + 2 * |s.starting| + |s.connecting|
  }

  /** In every state of every run that has not returned, some step brings the end nearer. */
  lemma SomeStepGoesOn(s: State) returns (step: Step)
    requires Inv(s) && !s.parent.Returned?
    ensures Enabled(s, step) && 0 <= Remaining(Do(s, step)) < Remaining(s)
  {
    hide Woven;
    if s.parent.First? {
      step := ParentLaunch;
    } else if s.parent.AtReady? {
      step := ParentReady;
    } else if s.parent.AtSuspend? {
      step := ParentSuspend;
    } else if s.parent.Reading? {
      step := ParentRead;
    } else if s.wakes > 0 {
      step := Resume;
    } else {
      step := SomeActorGoesOn(s);
    }
  }

  lemma SomeActorGoesOn(s: State) returns (step: Step)
    requires Inv(s) && s.parent.Suspended? && s.wakes == 0
    ensures Enabled(s, step) && 0 <= Remaining(Do(s, step)) < Remaining(s)
  {
    hide Woven;
    if i :| i in s.connecting {
      step := AttemptEnd(i, Some(0));
      assert |s.connecting - {i}| == |s.connecting| - 1;
    } else if i :| i in s.starting {
      step := AttemptStart(i);
      assert |s.starting - {i}| == |s.starting| - 1 && i !in s.connecting;
    } else if Out(s.res6) {
      step := SomeResolveGoesOn(s, true);
    } else if Out(s.res4) {
      step := SomeResolveGoesOn(s, false);
    } else {
      assert s.starting == {} && s.connecting == {};
      step := if s.pacer.Sleeping? then PacerWake else PacerLaunch;
    }
  }

  lemma SomeResolveGoesOn(s: State, v6: bool) returns (step: Step)
    requires Inv(s) && Out(Res(s, v6)) && !s.parent.First?
    ensures Enabled(s, step) && 0 <= Remaining(Do(s, step)) < Remaining(s)
  {
    hide Woven, RunningOk;
    match Res(s, v6)
    case Resolving => step := Answer(v6, []);
    case Checking(_) => step := CheckDelay;
    case _ =>
      step := Apply(v6);
      ApplyGoesOn(s, v6);
  }

  lemma ApplyGoesOn(s: State, v6: bool)
    requires Inv(s) && (Res(s, v6).Ready? || Res(s, v6).Delayed?)
    ensures Enabled(s, Apply(v6)) && 0 <= Remaining(Do(s, Apply(v6))) < Remaining(s)
  {
    hide AttemptsOk, ParentOk, ActorsOk, Applied, Woven;
    NeverBelowZero(s, v6);
    AppliedFacts(s, v6);
  }

  lemma AppliedFacts(s: State, v6: bool)
    requires AttemptsOk(s) && Enabled(s, Apply(v6))
    ensures var n, found := Applied(s, v6), Res(s, v6).found;
            && n.st.nextIdx == s.st.nextIdx <= |n.st.addrs| <= |s.st.addrs| + |found|
            && WithRes(s, v6, ToKick).(st := n.st) == n
  {
    hide Woven, RunningOk;
    WovenBounds(s.st.addrs, s.st.nextIdx, s.st.maxAttempts, Res(s, v6).found, v6);
  }

  /** `steps` lead from `s` to `s'`. */
  ghost predicate Leads(s: State, steps: seq<Step>, s': State)
    decreases |steps|
  {
    if steps == [] then s' == s else Enabled(s, steps[0]) && Leads(Do(s, steps[0]), steps[1..], s')
  }

  /** From every state that a run can reach, some steps lead to the parent's return: the race is never stuck. */
  lemma {:induction false} RaceCanFinish(s: State) returns (steps: seq<Step>, s': State)
    requires Inv(s)
    ensures Leads(s, steps, s') && s'.parent.Returned?
    decreases if s.parent.Returned? then 0 else 1 + Remaining(s)
  {
    hide Inv, Enabled, Do, Remaining;
    if s.parent.Returned? {
      return [], s;
    }
    var step := SomeStepGoesOn(s);
    StepKeepsInv(s, step);
    steps, s' := RaceCanFinish(Do(s, step));
    assert ([step] + steps)[1..] == steps;
    steps := [step] + steps;
  }

  // ---- When the next address is tried ------------------------------------------------------------------

  /** A failure that leaves the race open and addresses untried launches the next one without waiting for the pacer. */
  lemma FailureLaunchesEarly(s: State, i: nat, e: Error)
    requires Inv(s) && i in s.connecting
    ensures var s' := Do(s, AttemptEnd(i, Some(e)));
            s'.early == s.early + Bit(!s.st.done && s.st.nextIdx < |s.st.addrs|)
  {
    hide RunningOk, Woven;
  }

  /** After a resolve the next address is tried at once exactly if no attempt is running and one is left. */
  lemma KickIffStalled(s: State, v6: bool)
    requires Inv(s) && Enabled(s, Kick(v6))
    ensures var stalled := !s.st.done && s.st.nextIdx < |s.st.addrs| && s.starting == {} && s.connecting == {};
            Res(Do(s, Kick(v6)), v6) == if stalled then ToLaunch else Over
  {
    hide Woven;
    assert s.starting == {} && s.connecting == {} <==> s.st.finished == s.st.nextIdx;
  }

  /** The pacer goes on exactly as long as there may be something to launch. */
  lemma PacerLeaves(s: State)
    requires Inv(s) && s.pacer.Sleeping?
    ensures Do(s, PacerWake).pacer == if s.st.done || (!Out(s.res6) && !Out(s.res4) && s.st.nextIdx == |s.st.addrs|)
                                      then Gone else Launching
  {
    hide RunningOk, Woven;
  }

  /** One address needs no pacer; more do. */
  lemma PacerOnlyForMore(s: State)
    requires Inv(s) && s.parent.First?
    ensures Do(s, ParentLaunch).pacer == if |s.st.addrs| > 1 then Sleeping else Absent
  {
    hide RunningOk, Woven;
  }

  /** A resolve that ends takes its addresses into the race, unless that is won already. */
  lemma ApplyRecords(s: State, v6: bool)
    requires Enabled(s, Apply(v6))
    ensures var s', found := Do(s, Apply(v6)), Res(s, v6).found;
            && Res(s', v6) == ToKick && s'.st.resolvesPending == s.st.resolvesPending - 1
            && s'.st.v6Resolved == (s.st.v6Resolved || v6)
            && s'.st.addrs == if s.st.done || found == [] then s.st.addrs
                              else Woven(s.st.addrs, s.st.nextIdx, s.st.maxAttempts, found, v6)
  {
    hide Woven;
  }

  /** A race that is decided before the parent sleeps lets it go on. */
  lemma DecidedParentGoesOn(s: State)
    requires Decided(s.st)
    ensures s.parent.AtReady? ==> Do(s, ParentReady).parent.Reading?
    ensures s.parent.AtSuspend? ==> Do(s, ParentSuspend).parent.Reading?
  {
  }

  function Resumes(steps: seq<Step>): nat {
    if steps == [] then 0 else Resumes(steps[..|steps| - 1]) + Bit(steps[|steps| - 1].Resume?)
  }

  /** The parent is resumed at most once in a run: that many steps resume it. */
  lemma {:induction false} ResumedOnce(steps: seq<Step>, states: seq<State>, k: nat)
    requires Run(steps, states) && k <= |steps|
    ensures states[k].resumed == Resumes(steps[..k]) <= 1
  {
    hide Enabled, Do;
    RunKeepsInv(steps, states, k);
    if k == 0 {
      StartsUnresumed(states[0]);
    } else {
      ResumedOnce(steps, states, k - 1);
      StepResumes(states[k - 1], steps[k - 1]);
      assert steps[..k][..k - 1] == steps[..k - 1];
    }
  }

  lemma StartsUnresumed(s: State)
    requires Initial(s)
    ensures s.resumed == 0
  {
  }

  lemma StepResumes(s: State, step: Step)
    requires Enabled(s, step)
    ensures Do(s, step).resumed == s.resumed + Bit(step.Resume?)
  {
    hide Woven;
  }
}
