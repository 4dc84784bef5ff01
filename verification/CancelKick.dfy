/**
  Kicking one task: threads call `kick`, from the parent's walk under the parent's tree lock or
  with a reference of their own, while the owner processes kicks and references are dropped.
  One atomic operation per step. The kick queue is intrusive, so the task must never be in it
  twice, and it must not be freed while it is there.
 */
module CancelKick {
  import opened Wrappers

  /** The parent's walk inside this task's `kick`: the operation that it performs next. */
  datatype Walk = Away | WalkSwap | WalkAddRef | WalkReset | WalkPush | WalkLeave

  datatype State = State(
    refs: nat,
    kickPending: bool,
    unlinked: bool,      // out of the parent's list
    freed: bool,
    walk: Walk,
    holders: nat,        // references held by others, who may call kick
    toSwap: nat,         // kickers among them about to exchange kick_pending
    toAddRef: nat,       // ... to take a reference for the queue
    toPush: nat,         // ... to push
    queued: nat,         // times in the kick queue
    toClear: nat,        // process_kick: about to clear kick_pending
    toRelease: nat       // process_kick: about to release
  )

  datatype Step =
    | KickBegin | KickSwap | KickAddRef | KickPush
    | WalkIn | WalkGo
    | Pop | Clear | Release
    | Copy | Drop | Unlink | Free

  function Init(): State {
    State(1, false, false, false, Away, 1, 0, 0, 0, 0, 0, 0)
  }

  function Kickers(s: State): nat { s.toSwap + s.toAddRef + s.toPush }

  predicate Enabled(s: State, step: Step) {
    match step
    case KickBegin => Kickers(s) < s.holders
    case KickSwap => s.toSwap > 0
    case KickAddRef => s.toAddRef > 0
    case KickPush => s.toPush > 0
    case WalkIn => !s.unlinked && s.walk.Away?
    case WalkGo => !s.walk.Away?
    case Pop => s.queued > 0
    case Clear => s.toClear > 0
    case Release => s.toRelease > 0 && s.refs > 0
    case Copy => s.holders > 0
    case Drop => Kickers(s) < s.holders && s.refs > 0
    case Unlink => s.refs == 0 && !s.unlinked && s.walk.Away?   // needs the parent's tree lock
    case Free => s.unlinked && !s.freed
  }

  function WalkStep(s: State): State {
    match s.walk
    case WalkSwap => s.(kickPending := true, walk := if s.kickPending then WalkLeave else WalkAddRef)
    case WalkAddRef => if s.refs == 0 then s.(walk := WalkReset) else s.(refs := s.refs + 1, walk := WalkPush)
    case WalkReset => s.(kickPending := false, walk := WalkLeave)
    case WalkPush => s.(queued := s.queued + 1, walk := WalkLeave)
    case _ => s.(walk := Away)
  }

  function Do(s: State, step: Step): State
    requires Enabled(s, step)
  {
    match step
    case KickBegin => s.(toSwap := s.toSwap + 1)
    case KickSwap =>
      s.(kickPending := true, toSwap := s.toSwap - 1, toAddRef := if s.kickPending then s.toAddRef else s.toAddRef + 1)
    case KickAddRef => s.(refs := s.refs + 1, toAddRef := s.toAddRef - 1, toPush := s.toPush + 1)
    case KickPush => s.(queued := s.queued + 1, toPush := s.toPush - 1)
    case WalkIn => s.(walk := WalkSwap)
    case WalkGo => WalkStep(s)
    case Pop => s.(queued := s.queued - 1, toClear := s.toClear + 1)
    case Clear => s.(kickPending := false, toClear := s.toClear - 1, toRelease := s.toRelease + 1)
    case Release => s.(refs := s.refs - 1, toRelease := s.toRelease - 1)
    case Copy => s.(refs := s.refs + 1, holders := s.holders + 1)
    case Drop => s.(refs := s.refs - 1, holders := s.holders - 1)
    case Unlink => s.(unlinked := true)
    case Free => s.(freed := true)
  }

  // ---- Invariant ---------------------------------------------------------------------------

  predicate Inv(s: State) {
    // whoever set the flag is on the way to the queue, in it, or out again without having cleared it
    && Bit(s.walk.WalkAddRef? || s.walk.WalkReset? || s.walk.WalkPush?)
       + s.toAddRef + s.toPush + s.queued + s.toClear == Bit(s.kickPending)
    && s.refs == s.holders + Bit(s.walk.WalkPush?) + s.toPush + s.queued + s.toClear + s.toRelease
    && Kickers(s) <= s.holders
    && (s.unlinked ==> s.refs == 0 && s.walk.Away?)
    && (s.freed ==> s.unlinked)
    && (s.walk.WalkReset? ==> s.refs == 0)
  }

  lemma StepKeepsInv(s: State, step: Step)
    requires Inv(s) && Enabled(s, step)
    ensures Inv(Do(s, step))
    ensures s.refs == 0 ==> Do(s, step).refs == 0
  {
  }

  /** The count is never taken below 0. */
  lemma NeverBelowZero(s: State)
    requires Inv(s)
    ensures s.toRelease > 0 ==> Enabled(s, Release)
    ensures Kickers(s) < s.holders ==> Enabled(s, Drop)
  {
  }

  // ---- Whole runs ----------------------------------------------------------------------------

  ghost predicate Run(steps: seq<Step>, states: seq<State>) {
    && |states| == |steps| + 1 && states[0] == Init()
    && forall i | 0 <= i < |steps| :: Enabled(states[i], steps[i]) && states[i + 1] == Do(states[i], steps[i])
  }

  lemma {:induction false} RunKeepsInv(steps: seq<Step>, states: seq<State>, k: nat)
    requires Run(steps, states) && k < |states|
    ensures Inv(states[k])
  {
    hide Enabled, Do;
    if k > 0 {
      RunKeepsInv(steps, states, k - 1);
      StepKeepsInv(states[k - 1], steps[k - 1]);
    }
  }

  /**
    The task is in the kick queue at most once; while it is there, or being pushed or processed,
    a reference is held for it, so it is neither unlinked nor freed; and whoever is inside `kick`
    finds it alive.
   */
  lemma QueuedOnceAndAlive(steps: seq<Step>, states: seq<State>, k: nat)
    requires Run(steps, states) && k < |states|
    ensures var s := states[k];
            && s.queued + s.toPush + s.toClear <= 1
            && (s.queued + s.toPush + s.toClear + s.toRelease > 0 ==> s.refs > 0)
            && (s.freed ==> s.refs == 0 && s.walk.Away? && Kickers(s) == 0 && s.queued + s.toClear + s.toRelease == 0)
  {
    RunKeepsInv(steps, states, k);
  }

  /** A count that came down to 0 stays there: the walk cannot bring the task back to life. */
  lemma {:induction false} NoResurrection(steps: seq<Step>, states: seq<State>, j: nat, k: nat)
    requires Run(steps, states) && j <= k < |states| && states[j].refs == 0
    ensures states[k].refs == 0
    decreases k
  {
    hide Enabled, Do;
    if j < k {
      NoResurrection(steps, states, j, k - 1);
      RunKeepsInv(steps, states, k - 1);
      StepKeepsInv(states[k - 1], steps[k - 1]);
    }
  }

  // ---- A kick that nobody disturbs -----------------------------------------------------------------

  /** A kick of a task with no kick pending queues it, once, with a reference of its own. */
  lemma KickQueues(s: State)
    requires Inv(s) && !s.kickPending && Kickers(s) < s.holders
    ensures var s1 := Do(s, KickBegin);
            && Enabled(s1, KickSwap)
            && var s2 := Do(s1, KickSwap);
            && Enabled(s2, KickAddRef)
            && var s3 := Do(s2, KickAddRef);
            && Enabled(s3, KickPush)
            && var s4 := Do(s3, KickPush);
               s4.queued == 1 && s4.kickPending && s4.refs == s.refs + 1 && Kickers(s4) == Kickers(s)
  {
  }

  /** So does the parent's walk, unless the task has no reference left; then the flag is taken back. */
  lemma WalkKicks(s: State)
    requires Inv(s) && !s.kickPending && Enabled(s, WalkIn)
    ensures var s1 := Do(s, WalkIn);
            var s2 := Do(s1, WalkGo);
            var s3 := Do(s2, WalkGo);
            var s4 := Do(s3, WalkGo);
            var s5 := Do(s4, WalkGo);
            && s5.walk.Away?
            && (if s.refs > 0 then s5.queued == 1 && s5.kickPending && s5.refs == s.refs + 1
                else s5.queued == 0 && !s5.kickPending && s5.refs == 0)
  {
  }

  /** A kick while one is pending changes nothing. */
  lemma SecondKickIsIdle(s: State)
    requires Inv(s) && s.kickPending && Kickers(s) < s.holders
    ensures Do(Do(s, KickBegin), KickSwap) == s
  {
  }

  /** Processing a queued kick clears the flag and gives the reference back. */
  lemma ProcessingReleases(s: State)
    requires Inv(s) && s.queued > 0
    ensures var s1 := Do(s, Pop);
            && Enabled(s1, Clear)
            && var s2 := Do(s1, Clear);
            && Enabled(s2, Release)
            && var s3 := Do(s2, Release);
               s3.queued == 0 && !s3.kickPending && s3.refs == s.refs - 1 && s3.toRelease == s.toRelease
  {
  }

  /** A copy is one reference more; the drop of the last one, with nothing queued, ends in the task being freed. */
  lemma LastDropFrees(s: State)
    requires Inv(s) && s.refs == 1 && s.holders == 1 && Kickers(s) == 0 && s.walk.Away?
    ensures Do(s, Copy).refs == 2 && Do(s, Copy).holders == 2
    ensures var s1 := Do(s, Drop);
            && s1.refs == 0 && Enabled(s1, Unlink)
            && var s2 := Do(s1, Unlink);
            && s2.unlinked && Enabled(s2, Free)
            && Do(s2, Free).freed
  {
  }
}
