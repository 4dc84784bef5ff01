/**
  Which use of `set_timeout_ms` and `shutdown` keeps a socket's timer reference from leaking.
  The discipline is on the start of the two calls: one `set_timeout_ms` at a time, and never
  together with a `shutdown`, from the call until the owner has applied what it forwarded.
 */
module TimerReference {
  import opened Wrappers
  import opened SocketTeardown

  /** The `set_timeout_ms` calls that have not been applied yet. */
  function SetsUnderWay(s: State): nat {
    s.f.setTakeRef + s.f.setClearClaim + s.f.setCount + s.f.setPush + s.ops.timeouts + Bit(OwnerSets(s.owner))
  }

  predicate OwnerSets(o: Owner) {
    o.TakeRef? || o.ClearClaim? || o.Arm? || o == LoadFlags(Timeout) || (o.Act? && o.op.Timeout?)
  }

  /** The `shutdown` calls that have not been applied yet, or have not settled the reference. */
  function ShutdownsUnderWay(s: State): nat {
    s.f.shutCountTimer + s.f.shutPushTimer + s.f.shutClaim + s.f.shutRelease + s.f.shutCountPlain + s.f.shutPushPlain
    + s.ops.shutdowns + Bit(OwnerShuts(s.owner))
  }

  predicate OwnerShuts(o: Owner) {
    o.ShutClaim? || o.ShutRelease? || o == LoadFlags(Shutdown) || (o.Act? && o.op.Shutdown?)
  }

  /** What a caller has to see to before it calls one of the two. */
  datatype Rule = OneSetAtATime | NoSetDuringShutdown | NoShutdownDuringSet

  function AllRules(): set<Rule> { {OneSetAtATime, NoSetDuringShutdown, NoShutdownDuringSet} }

  predicate Keeps(rule: Rule, s: State, step: Step) {
    match rule
    case OneSetAtATime => step.ForeignSetTimeout? || step.OwnerSetTimeout? ==> SetsUnderWay(s) == 0
    case NoSetDuringShutdown => step.ForeignSetTimeout? || step.OwnerSetTimeout? ==> ShutdownsUnderWay(s) == 0
    case NoShutdownDuringSet => step.ForeignShutdown? || step.OwnerShutdown? ==> SetsUnderWay(s) == 0
  }

  predicate Allowed(rules: set<Rule>, s: State, step: Step) {
    forall rule | rule in rules :: Keeps(rule, s, step)
  }

  // ---- Invariant ---------------------------------------------------------------------------

  /** Taken for a timer and not dropped yet. */
  function Outstanding(s: State): int { s.arms - s.drops }

  /** Claimed and about to be dropped. */
  function Claimed(s: State): nat {
    s.f.shutRelease + Bit(s.owner.ShutRelease? || s.owner.FireRun?)
  }

  /** Taken, with the claim bit not cleared yet. */
  function Fresh(s: State): nat { s.f.setClearClaim + Bit(s.owner.ClearClaim?) }

  predicate Taking(s: State) { s.f.setTakeRef > 0 || s.owner.TakeRef? }

  /** Somebody is on the way to claiming the timer's reference. */
  predicate Claiming(s: State) {
    s.f.shutCountTimer + s.f.shutPushTimer + s.f.shutClaim > 0 || s.owner.ShutClaim?
  }

  /** An unclaimed reference is carried by a timer, its callback, a forwarded Timeout or a claimer. */
  predicate Carried(s: State) {
    || s.h.armed || s.owner.FireClaim? || Claiming(s)
    || s.f.setCount + s.f.setPush + s.ops.timeouts > 0
    || s.owner.Arm? || s.owner == LoadFlags(Timeout) || s.owner == Act(Timeout, false)
  }

  /** A Shutdown op that would take the timer away: somebody is going to claim the reference. */
  predicate CancelIsClaimed(s: State) {
    s.h.armed && s.f.shutCountPlain + s.f.shutPushPlain + s.ops.shutdowns
                 + Bit(s.owner == LoadFlags(Shutdown) || (s.owner.Act? && s.owner.op.Shutdown?)) > 0
    ==> s.f.shutCountTimer + s.f.shutPushTimer + s.f.shutClaim > 0
  }

  predicate Orderly(s: State) {
    && (Firing(s.owner) ==> s.h.timerId)
    && SetsUnderWay(s) <= 1
    && (SetsUnderWay(s) == 0 || ShutdownsUnderWay(s) == 0)
    && 0 <= Outstanding(s) <= 1
    && (Taking(s) ==> Outstanding(s) == 0 && !s.h.timerId)
    && (Fresh(s) > 0 ==> Outstanding(s) == 1 && Claimed(s) == 0 && !s.h.timerId)
    && (Fresh(s) == 0 && s.arms > 0 ==> Outstanding(s) == Claimed(s) + Bit(!s.h.claimed))
    && (Fresh(s) == 0 && s.arms > 0 && !s.h.claimed ==> Carried(s) && CancelIsClaimed(s))
  }

  lemma CopyKeeps(s: State, step: Step)
    requires Inv(s) && Orderly(s) && Enabled(s, step) && step.Copy?
    ensures Orderly(Do(s, step))
  {
    hide PendingOk, DeletesOk;
  }

  lemma DropKeeps(s: State, step: Step)
    requires Inv(s) && Orderly(s) && Enabled(s, step) && (step.ForeignDrop? || step.OwnerDrop?)
    ensures Orderly(Do(s, step))
  {
    hide PendingOk, DeletesOk;
  }

  lemma TearKeeps(s: State, step: Step)
    requires Inv(s) && Orderly(s) && Enabled(s, step) && (step.TearMark? || step.TearCount? || step.TearPush?)
    ensures Orderly(Do(s, step))
  {
    hide PendingOk, DeletesOk;
  }

  lemma ForeignShutdownKeeps(s: State, step: Step)
    requires Inv(s) && Orderly(s) && Enabled(s, step) && Allowed(AllRules(), s, step) && step.ForeignShutdown?
    ensures Orderly(Do(s, step))
  {
    hide PendingOk, DeletesOk;
    assert Keeps(NoShutdownDuringSet, s, step);
  }

  lemma ShutForwardKeeps(s: State, step: Step)
    requires Inv(s) && Orderly(s) && Enabled(s, step) && (step.ShutCount? || step.ShutPush?)
    ensures Orderly(Do(s, step))
  {
    hide RefsOk, PendingOk, LifeOk, DeletesOk;
  }

  lemma ShutReleaseKeeps(s: State, step: Step)
    requires Inv(s) && Orderly(s) && Enabled(s, step) && (step.ForeignClaim? || step.ForeignRelease?)
    ensures Orderly(Do(s, step))
  {
    hide PendingOk, DeletesOk;
  }

  /** With no call under way and no timer there is no reference left. */
  lemma NothingOutstanding(s: State)
    requires Inv(s) && Orderly(s) && SetsUnderWay(s) == 0 && ShutdownsUnderWay(s) == 0 && !s.h.timerId
    ensures Outstanding(s) == 0
  {
    hide RefsOk, PendingOk, LifeOk, DeletesOk;
  }

  lemma SetBeginKeeps(s: State, step: Step)
    requires Inv(s) && Orderly(s) && Enabled(s, step) && Allowed(AllRules(), s, step) && step.ForeignSetTimeout?
    ensures Orderly(Do(s, step))
  {
    hide RefsOk, PendingOk, LifeOk, DeletesOk;
    assert Keeps(OneSetAtATime, s, step) && Keeps(NoSetDuringShutdown, s, step);
    if !s.h.timerId {
      NothingOutstanding(s);
    }
  }

  lemma SetArmKeeps(s: State, step: Step)
    requires Inv(s) && Orderly(s) && Enabled(s, step) && (step.ForeignTakeRef? || step.ForeignClearClaim?)
    ensures Orderly(Do(s, step))
  {
    hide PendingOk, DeletesOk;
  }

  lemma SetForwardKeeps(s: State, step: Step)
    requires Inv(s) && Orderly(s) && Enabled(s, step) && (step.SetCount? || step.SetPush?)
    ensures Orderly(Do(s, step))
  {
    hide PendingOk, DeletesOk;
  }

  lemma OwnerUseKeeps(s: State, step: Step)
    requires Inv(s) && Orderly(s) && Enabled(s, step) && Allowed(AllRules(), s, step)
    requires step.OwnerShutdown? || step.OwnerSetTimeout? || step.Fire?
    ensures Orderly(Do(s, step))
  {
    hide PendingOk, DeletesOk;
    assert Keeps(OneSetAtATime, s, step) && Keeps(NoSetDuringShutdown, s, step) && Keeps(NoShutdownDuringSet, s, step);
  }

  lemma TakeKeeps(s: State, step: Step)
    requires Inv(s) && Orderly(s) && Enabled(s, step) && step.Take?
    ensures Orderly(Do(s, step))
  {
    hide PendingOk, DeletesOk;
  }

  lemma FireKeeps(s: State)
    requires Inv(s) && Orderly(s) && Enabled(s, OwnerGo) && Firing(s.owner)
    ensures Orderly(Do(s, OwnerGo))
  {
    hide PendingOk, DeletesOk;
  }

  lemma OwnerSetKeeps(s: State)
    requires Inv(s) && Orderly(s) && Enabled(s, OwnerGo) && (s.owner.TakeRef? || s.owner.ClearClaim? || s.owner.Arm?)
    ensures Orderly(Do(s, OwnerGo))
  {
    hide PendingOk, DeletesOk;
  }

  lemma OwnerShutKeeps(s: State)
    requires Inv(s) && Orderly(s) && Enabled(s, OwnerGo) && (s.owner.ShutClaim? || s.owner.ShutRelease?)
    ensures Orderly(Do(s, OwnerGo))
  {
    hide PendingOk, DeletesOk;
  }

  lemma SubKeeps(s: State)
    requires Inv(s) && Orderly(s) && Enabled(s, OwnerGo) && (s.owner.Check? || s.owner.Sub?)
    ensures Orderly(Do(s, OwnerGo))
  {
    hide PendingOk, DeletesOk;
  }

  lemma LoadKeeps(s: State)
    requires Inv(s) && Orderly(s) && Enabled(s, OwnerGo) && s.owner.LoadFlags?
    ensures Orderly(Do(s, OwnerGo))
  {
    hide PendingOk, DeletesOk;
  }

  lemma ActKeeps(s: State)
    requires Inv(s) && Orderly(s) && Enabled(s, OwnerGo) && s.owner.Act?
    ensures Orderly(Do(s, OwnerGo))
  {
    hide PendingOk, DeletesOk;
  }

  lemma TeardownKeeps(s: State)
    requires Inv(s) && Orderly(s) && Enabled(s, OwnerGo) && (s.owner.Cancel? || s.owner.Mark? || s.owner.LoadPending?)
    ensures Orderly(Do(s, OwnerGo))
  {
    hide PendingOk, DeletesOk;
  }

  lemma OwnerKeeps(s: State)
    requires Inv(s) && Orderly(s) && Enabled(s, OwnerGo)
    ensures Orderly(Do(s, OwnerGo))
  {
    hide Inv, Orderly, Do, Enabled;
    OwnerIsBusy(s);
    match s.owner
    case FireClaim | FireSkip | FireRun => FireKeeps(s);
    case TakeRef | ClearClaim | Arm => OwnerSetKeeps(s);
    case ShutClaim | ShutRelease => OwnerShutKeeps(s);
    case LoadFlags(_) => LoadKeeps(s);
    case Check(_) => SubKeeps(s);
    case Sub => SubKeeps(s);
    case Act(_, _) => ActKeeps(s);
    case _ => TeardownKeeps(s);
  }

  lemma StepKeepsOrder(s: State, step: Step)
    requires Inv(s) && Orderly(s) && Enabled(s, step) && Allowed(AllRules(), s, step)
    ensures Orderly(Do(s, step))
  {
    hide Inv, Orderly, Do, Enabled, Allowed;
    match step
    case Copy => CopyKeeps(s, step);
    case OwnerDrop | ForeignDrop => DropKeeps(s, step);
    case TearMark | TearCount | TearPush => TearKeeps(s, step);
    case ForeignShutdown => ForeignShutdownKeeps(s, step);
    case ShutCount(_) => ShutForwardKeeps(s, step);
    case ShutPush(_) => ShutForwardKeeps(s, step);
    case ForeignClaim | ForeignRelease => ShutReleaseKeeps(s, step);
    case ForeignSetTimeout => SetBeginKeeps(s, step);
    case ForeignTakeRef | ForeignClearClaim => SetArmKeeps(s, step);
    case SetCount | SetPush => SetForwardKeeps(s, step);
    case OwnerShutdown | OwnerSetTimeout | Fire => OwnerUseKeeps(s, step);
    case Take(_) => TakeKeeps(s, step);
    case OwnerGo => OwnerKeeps(s);
  }

  // ---- Whole runs ----------------------------------------------------------------------------

  /** `s` is the state after some run of `n` steps that keeps the rules. */
  ghost predicate ReachableBy(rules: set<Rule>, s: State, n: nat)
    decreases n
  {
    if n == 0 then s == Init()
    else exists p, step :: ReachableBy(rules, p, n - 1) && Allowed(rules, p, step) && Follows(p, step, s)
  }

  lemma {:induction false} FewerRules(rules: set<Rule>, fewer: set<Rule>, s: State, n: nat)
    requires ReachableBy(rules, s, n) && fewer <= rules
    ensures ReachableBy(fewer, s, n) && Reachable(s, n)
    decreases n
  {
    hide Follows, Keeps;
    if n > 0 {
      var p, step :| ReachableBy(rules, p, n - 1) && Allowed(rules, p, step) && Follows(p, step, s);
      FewerRules(rules, fewer, p, n - 1);
      assert Allowed(fewer, p, step);
    }
  }

  lemma InitIsOrderly(s: State)
    requires s == Init()
    ensures Orderly(s)
  {
  }

  lemma {:induction false} RulesKeepOrder(s: State, n: nat)
    requires ReachableBy(AllRules(), s, n)
    ensures Inv(s) && Orderly(s)
    decreases n
  {
    hide Inv, Orderly, Do, Enabled, Allowed;
    FewerRules(AllRules(), AllRules(), s, n);
    ReachableIsInv(s, n);
    if n == 0 {
      InitIsOrderly(s);
    } else {
      var p, step :| ReachableBy(AllRules(), p, n - 1) && Allowed(AllRules(), p, step) && Follows(p, step, s);
      RulesKeepOrder(p, n - 1);
      StepKeepsOrder(p, step);
    }
  }

  /**
    In every run that keeps the rules no reference leaks: when nothing is under way and no timer
    is armed, every timer reference has been dropped, so that a header without handles has been
    deleted, exactly once.
   */
  lemma NoLeak(s: State, n: nat)
    requires ReachableBy(AllRules(), s, n) && Quiet(s) && !s.h.armed
    ensures s.arms == s.drops
    ensures s.handles == 0 ==> s.deletes == 1
  {
    hide ReachableBy, Reachable;
    RulesKeepOrder(s, n);
    FewerRules(AllRules(), AllRules(), s, n);
    DeletedOnceWhenDrained(s, n);
  }

  // ---- Every rule is needed --------------------------------------------------------------------

  lemma Next(rules: set<Rule>, p: State, n: nat, step: Step) returns (s: State)
    requires ReachableBy(rules, p, n) && Enabled(p, step) && Allowed(rules, p, step)
    ensures s == Do(p, step) && ReachableBy(rules, s, n + 1)
  {
    hide Do, Enabled, Allowed;
    s := Do(p, step);
    assert Follows(p, step, s);
  }

  predicate Begins(step: Step) {
    step.ForeignSetTimeout? || step.OwnerSetTimeout? || step.ForeignShutdown? || step.OwnerShutdown?
  }

  /** The rules are about the start of the two calls only. */
  lemma OtherStepsAreAllowed(rules: set<Rule>)
    ensures forall s: State, step: Step | !Begins(step) :: Allowed(rules, s, step)
  {
  }

  /** An undisturbed `set_timeout_ms` of a foreign worker that sees no timer. */
  lemma SetForwarded(rules: set<Rule>, p: State, n: nat) returns (s: State)
    requires ReachableBy(rules, p, n) && Allowed(rules, p, ForeignSetTimeout) && FreeHandle(p)
    requires !p.h.timerId && !p.h.closed
    ensures ReachableBy(rules, s, n + 5)
    ensures s == p.(h := p.h.(refs := p.h.refs + 1, claimed := false, pending := p.h.pending + 1), arms := p.arms + 1,
                    ops := p.ops.(timeouts := p.ops.timeouts + 1))
  {
    hide ReachableBy, FreeHandle, Allowed;
    OtherStepsAreAllowed(rules);
    s := Next(rules, p, n, ForeignSetTimeout);
    s := Next(rules, s, n + 1, ForeignTakeRef);
    s := Next(rules, s, n + 2, ForeignClearClaim);
    s := Next(rules, s, n + 3, SetCount);
    s := Next(rules, s, n + 4, SetPush);
  }

  /** An undisturbed `shutdown` of a foreign worker, as far as the push. */
  lemma ShutdownForwarded(rules: set<Rule>, p: State, n: nat) returns (s: State)
    requires ReachableBy(rules, p, n) && Allowed(rules, p, ForeignShutdown) && FreeHandle(p)
    ensures ReachableBy(rules, s, n + 3)
    ensures s == p.(h := p.h.(pending := p.h.pending + 1), ops := p.ops.(shutdowns := p.ops.shutdowns + 1),
                    f := p.f.(shutClaim := p.f.shutClaim + Bit(p.h.timerId)))
  {
    hide ReachableBy, FreeHandle, Allowed;
    OtherStepsAreAllowed(rules);
    s := Next(rules, p, n, ForeignShutdown);
    s := Next(rules, s, n + 1, ShutCount(p.h.timerId));
    s := Next(rules, s, n + 2, ShutPush(p.h.timerId));
  }

  /** It claims the timer's reference and drops it. */
  lemma ShutdownClaims(rules: set<Rule>, p: State, n: nat) returns (s: State)
    requires ReachableBy(rules, p, n) && p.f.shutClaim > 0 && !p.h.claimed && p.h.refs > 1
    ensures ReachableBy(rules, s, n + 2)
    ensures s == p.(h := p.h.(claimed := true, refs := p.h.refs - 1), drops := p.drops + 1,
                    f := p.f.(shutClaim := p.f.shutClaim - 1))
  {
    hide ReachableBy, Allowed;
    OtherStepsAreAllowed(rules);
    s := Next(rules, p, n, ForeignClaim);
    s := Next(rules, s, n + 1, ForeignRelease);
  }

  lemma TimeoutApplied(rules: set<Rule>, p: State, n: nat) returns (s: State)
    requires ReachableBy(rules, p, n) && p.owner.Idle? && p.ops.timeouts > 0 && p.h.pending > 0
    requires !p.h.destroyed && !p.h.tearPending && !p.h.claimed
    ensures ReachableBy(rules, s, n + 5)
    ensures s == p.(h := p.h.(timerId := true, armed := true, pending := p.h.pending - 1),
                    ops := p.ops.(timeouts := p.ops.timeouts - 1))
  {
    hide ReachableBy, Allowed;
    OtherStepsAreAllowed(rules);
    s := Next(rules, p, n, Take(Timeout));
    s := Next(rules, s, n + 1, OwnerGo);
    s := Next(rules, s, n + 2, OwnerGo);
    s := Next(rules, s, n + 3, OwnerGo);
    s := Next(rules, s, n + 4, OwnerGo);
  }

  lemma ShutdownApplied(rules: set<Rule>, p: State, n: nat) returns (s: State)
    requires ReachableBy(rules, p, n) && p.owner.Idle? && p.ops.shutdowns > 0 && p.h.pending > 0
    requires !p.h.destroyed && p.h.timerId
    ensures ReachableBy(rules, s, n + 5)
    ensures s == p.(h := p.h.(timerId := false, armed := false, pending := p.h.pending - 1),
                    ops := p.ops.(shutdowns := p.ops.shutdowns - 1))
  {
    hide ReachableBy, Allowed;
    OtherStepsAreAllowed(rules);
    s := Next(rules, p, n, Take(Shutdown));
    s := Next(rules, s, n + 1, OwnerGo);
    s := Next(rules, s, n + 2, OwnerGo);
    s := Next(rules, s, n + 3, OwnerGo);
    s := Next(rules, s, n + 4, OwnerGo);
  }

  /** An undisturbed `set_timeout_ms` of the owner when there is no timer. */
  lemma OwnerArms(rules: set<Rule>, p: State, n: nat) returns (s: State)
    requires ReachableBy(rules, p, n) && Allowed(rules, p, OwnerSetTimeout) && FreeHandle(p) && p.owner.Idle?
    requires !p.h.timerId && !p.h.closed
    ensures ReachableBy(rules, s, n + 4)
    ensures s == p.(h := p.h.(refs := p.h.refs + 1, claimed := false, timerId := true, armed := true), arms := p.arms + 1)
  {
    hide ReachableBy, FreeHandle, Allowed;
    OtherStepsAreAllowed(rules);
    s := Next(rules, p, n, OwnerSetTimeout);
    s := Next(rules, s, n + 1, OwnerGo);
    s := Next(rules, s, n + 2, OwnerGo);
    s := Next(rules, s, n + 3, OwnerGo);
  }

  /** The timer fires: a claimed reference is left alone, an unclaimed one becomes a handle. */
  lemma Fires(rules: set<Rule>, p: State, n: nat) returns (s: State)
    requires ReachableBy(rules, p, n) && p.owner.Idle? && p.h.armed && !p.h.tearPending
    ensures ReachableBy(rules, s, n + 3)
    ensures s == p.(h := p.h.(armed := false, timerId := false, claimed := true),
                    handles := p.handles + Bit(!p.h.claimed), drops := p.drops + Bit(!p.h.claimed))
  {
    hide ReachableBy, Allowed;
    OtherStepsAreAllowed(rules);
    s := Next(rules, p, n, Fire);
    s := Next(rules, s, n + 1, OwnerGo);
    s := Next(rules, s, n + 2, OwnerGo);
  }

  lemma Drops(rules: set<Rule>, p: State, n: nat) returns (s: State)
    requires ReachableBy(rules, p, n) && FreeHandle(p) && p.h.refs > 1
    ensures ReachableBy(rules, s, n + 1) && s == p.(h := p.h.(refs := p.h.refs - 1), handles := p.handles - 1)
  {
    hide ReachableBy, FreeHandle, Allowed;
    OtherStepsAreAllowed(rules);
    s := Next(rules, p, n, ForeignDrop);
  }

  lemma Copies(rules: set<Rule>, p: State, n: nat) returns (s: State)
    requires ReachableBy(rules, p, n) && FreeHandle(p)
    ensures ReachableBy(rules, s, n + 1) && s == p.(h := p.h.(refs := p.h.refs + 1), handles := p.handles + 1)
  {
    hide ReachableBy, FreeHandle, Allowed;
    OtherStepsAreAllowed(rules);
    s := Next(rules, p, n, Copy);
  }

  /** A socket as it is after its creation: one handle, no timer, nothing under way. */
  predicate New(s: State) {
    s.h == Header(1, false, false, false, false, false, false, 0) && s.handles == 1 && Quiet(s) && s.life.Alive?
    && s.arms == s.drops == s.deletes == 0
  }

  /** Everything is over, but a reference is left and the header was not deleted. */
  predicate Leaked(s: State) {
    Quiet(s) && s.handles == 0 && !s.h.armed && s.h.refs == 1 && s.deletes == 0 && s.arms == s.drops + 1
  }

  /**
    The shutdown sees no timer because the owner has not armed it yet, so it claims nothing; the
    owner arms the timer and then cancels it.
   */
  lemma ShutdownOvertakesTimeout(rules: set<Rule>, p: State, m: nat) returns (s: State, n: nat)
    requires ReachableBy(rules, p, m) && New(p) && NoShutdownDuringSet !in rules
    ensures ReachableBy(rules, s, n) && Leaked(s)
  {
    hide ReachableBy, Do;
    s := SetForwarded(rules, p, m);
    s := ShutdownForwarded(rules, s, m + 5);
    s := TimeoutApplied(rules, s, m + 8);
    s := ShutdownApplied(rules, s, m + 13);
    s := Drops(rules, s, m + 18);
    n := m + 19;
  }

  /** Two `set_timeout_ms` in a row before the owner has applied the first: two references, one timer. */
  lemma TimeoutIsSetTwice(rules: set<Rule>, p: State, m: nat) returns (s: State, n: nat)
    requires ReachableBy(rules, p, m) && New(p) && OneSetAtATime !in rules
    ensures ReachableBy(rules, s, n) && Leaked(s)
  {
    hide ReachableBy, Do;
    s := SetForwarded(rules, p, m);
    s := SetForwarded(rules, s, m + 5);
    s := TimeoutApplied(rules, s, m + 10);
    s := TimeoutApplied(rules, s, m + 15);
    s := Fires(rules, s, m + 20);
    s := Drops(rules, s, m + 23);
    s := Drops(rules, s, m + 24);
    n := m + 25;
  }

  /**
    The owner sets a new timer between the applied Shutdown op of a foreign `shutdown` and its
    claim: the claim is for the old timer and takes the new one's.
   */
  lemma OwnerSetsDuringShutdown(rules: set<Rule>, p: State, m: nat) returns (s: State, n: nat)
    requires ReachableBy(rules, p, m) && New(p) && NoSetDuringShutdown !in rules
    ensures ReachableBy(rules, s, n) && Leaked(s)
  {
    hide ReachableBy, Do;
    s := Copies(rules, p, m);
    s := OwnerArms(rules, s, m + 1);
    s := ShutdownForwarded(rules, s, m + 5);
    s := ShutdownApplied(rules, s, m + 8);
    s := OwnerArms(rules, s, m + 13);
    s := ShutdownClaims(rules, s, m + 17);
    s := Fires(rules, s, m + 19);
    s := Drops(rules, s, m + 22);
    s := Drops(rules, s, m + 23);
    n := m + 24;
  }

  lemma Start(rules: set<Rule>) returns (s: State, n: nat)
    ensures s == Init() && New(s) && ReachableBy(rules, s, n)
  {
    s, n := Init(), 0;
  }

  /** Without any one of the rules some run leaks, although it keeps the others. */
  lemma LeaksWithout(rule: Rule) returns (s: State, n: nat)
    ensures ReachableBy(AllRules() - {rule}, s, n) && Reachable(s, n) && Leaked(s)
  {
    hide ReachableBy, Reachable, New, Leaked;
    var rules := AllRules() - {rule};
    s, n := Start(rules);
    match rule {
      case OneSetAtATime => s, n := TimeoutIsSetTwice(rules, s, n);
      case NoSetDuringShutdown => s, n := OwnerSetsDuringShutdown(rules, s, n);
      case NoShutdownDuringSet => s, n := ShutdownOvertakesTimeout(rules, s, n);
    }
    FewerRules(rules, rules, s, n);
  }

  /** No run that keeps `rules` leaks. */
  ghost predicate Suffices(rules: set<Rule>) {
    forall s, n | ReachableBy(rules, s, n) && Quiet(s) && !s.h.armed :: s.arms == s.drops
  }

  /** The rules are exact: a set of them prevents every leak if and only if it has them all. */
  lemma RulesAreExact(rules: set<Rule>)
    ensures Suffices(rules) <==> rules == AllRules()
  {
    hide ReachableBy, Reachable, Quiet;
    if rules == AllRules() {
      forall s, n | ReachableBy(rules, s, n) && Quiet(s) && !s.h.armed ensures s.arms == s.drops {
        NoLeak(s, n);
      }
    } else {
      var rule := Missing(rules);
      var s, n := LeaksWithout(rule);
      FewerRules(AllRules() - {rule}, rules, s, n);
    }
  }

  lemma Missing(rules: set<Rule>) returns (rule: Rule)
    requires rules != AllRules()
    ensures rules <= AllRules() - {rule}
  {
    forall r: Rule ensures r in AllRules() {
      assert r.OneSetAtATime? || r.NoSetDuringShutdown? || r.NoShutdownDuringSet?;
    }
    rule :| rule !in rules;
  }
}
