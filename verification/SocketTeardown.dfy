/**
  When may a socket header be freed? The header's reference count, its `tflags`, its timer id
  and `pending_ops`, shared by the owner worker, whose wheel and poller serve the socket, and
  by any number of foreign workers that hold handles. Every atomic operation is one step.

  Foreign workers inside an operation are counted by the step that they perform next, and
  forwarded ops by kind: the owner may take them in any order, first-in-first-out included.
 */
module SocketTeardown {
  import opened Wrappers

  datatype Op = Timeout | Shutdown | Destroy

  /** What becomes of the header once the last reference is gone. */
  datatype Life =
    | Alive
    | ToMark      // foreign: set TEARDOWN_PENDING
    | ToCount     // foreign: increment pending_ops
    | ToPush      // foreign: push Destroy
    | Forwarded   // Destroy is queued or being applied
    | Local       // the owner is tearing down directly
    | Done        // DESTROYED is set

  /** The step that the owner performs next. */
  datatype Owner =
    | Idle
    | FireClaim | FireSkip | FireRun                              // processSocketTimeout
    | TakeRef | ClearClaim | Arm                                  // set_timeout_ms
    | ShutClaim | ShutRelease                                     // shutdown
    | LoadFlags(op: Op) | Act(op: Op, skip: bool) | Sub | Check(last: bool)   // apply_socket_op
    | Cancel(inOp: bool) | Mark(inOp: bool) | LoadPending(inOp: bool)         // teardown_socket_header_local

  datatype Header = Header(
    refs: nat,
    closed: bool,
    claimed: bool,         // TIMER_CLAIMED
    tearPending: bool,     // TEARDOWN_PENDING
    destroyed: bool,       // DESTROYED
    timerId: bool,         // timer_id is not 0
    armed: bool,           // the owner's wheel holds the timer
    pending: nat           // pending_ops
  )

  datatype Ops = Ops(timeouts: nat, shutdowns: nat, destroys: nat)

  /** Foreign workers in an operation, each with a handle of its own, by next step. */
  datatype Foreign = Foreign(
    shutCountTimer: nat,   // shutdown that saw a timer: increment pending_ops,
    shutPushTimer: nat,    //   push,
    shutClaim: nat,        //   claim the timer's reference
    shutRelease: nat,      //   and drop it
    shutCountPlain: nat,   // shutdown that saw none
    shutPushPlain: nat,
    setTakeRef: nat,       // set_timeout_ms that saw no timer: take a reference
    setClearClaim: nat,    //   and clear the claim bit
    setCount: nat,         // every set_timeout_ms: increment pending_ops
    setPush: nat           //   and push
  )

  datatype State = State(
    h: Header,
    ops: Ops,
    f: Foreign,
    life: Life,
    owner: Owner,
    handles: nat,          // Socket objects
    deletes: nat,          // entries ever made in the delete queue
    arms: nat,             // history: references taken for a timer
    drops: nat             // history: timer references dropped, or handed to the timeout's own handle
  )

  datatype Step =
    | Copy | ForeignDrop | TearMark | TearCount | TearPush
    | ForeignShutdown | ShutCount(timer: bool) | ShutPush(timer: bool) | ForeignClaim | ForeignRelease
    | ForeignSetTimeout | ForeignTakeRef | ForeignClearClaim | SetCount | SetPush
    | OwnerDrop | OwnerShutdown | OwnerSetTimeout | Fire | Take(op: Op) | OwnerGo

  function Init(): State {
    State(Header(1, false, false, false, false, false, false, 0), Ops(0, 0, 0),
          Foreign(0, 0, 0, 0, 0, 0, 0, 0, 0, 0), Alive, Idle, 1, 0, 0, 0)
  }

  function Busy(f: Foreign): nat {
    f.shutCountTimer + f.shutCountPlain + f.shutPushTimer + f.shutPushPlain + f.shutClaim + f.shutRelease
    + f.setTakeRef + f.setClearClaim + f.setCount + f.setPush
  }

  /** Is the owner using a handle? */
  predicate OwnerBusy(o: Owner) {
    o.TakeRef? || o.ClearClaim? || o.Arm? || o.ShutClaim? || o.ShutRelease?
  }

  predicate FreeHandle(s: State) {
    Busy(s.f) + Bit(OwnerBusy(s.owner)) < s.handles
  }

  function Queued(ops: Ops, op: Op): nat {
    match op
    case Timeout => ops.timeouts
    case Shutdown => ops.shutdowns
    case Destroy => ops.destroys
  }

  predicate Enabled(s: State, step: Step) {
    match step
    case Copy => FreeHandle(s)
    case ForeignDrop => FreeHandle(s) && s.h.refs > 0
    case TearMark => s.life.ToMark?
    case TearCount => s.life.ToCount?
    case TearPush => s.life.ToPush?
    case ForeignShutdown => FreeHandle(s)
    case ShutCount(timer) => (if timer then s.f.shutCountTimer else s.f.shutCountPlain) > 0
    case ShutPush(timer) => (if timer then s.f.shutPushTimer else s.f.shutPushPlain) > 0
    case ForeignClaim => s.f.shutClaim > 0
    case ForeignRelease => s.f.shutRelease > 0 && s.h.refs > 0
    case ForeignSetTimeout => FreeHandle(s)
    case ForeignTakeRef => s.f.setTakeRef > 0
    case ForeignClearClaim => s.f.setClearClaim > 0
    case SetCount => s.f.setCount > 0
    case SetPush => s.f.setPush > 0
    case OwnerDrop => FreeHandle(s) && s.owner.Idle? && s.h.refs > 0
    case OwnerShutdown => FreeHandle(s) && s.owner.Idle?
    case OwnerSetTimeout => FreeHandle(s) && s.owner.Idle?
    case Fire => s.owner.Idle? && s.h.armed
    case Take(op) => s.owner.Idle? && Queued(s.ops, op) > 0
    case OwnerGo => !s.owner.Idle? && (s.owner.ShutRelease? ==> s.h.refs > 0) && (s.owner.Sub? ==> s.h.pending > 0)
  }

  /** The end of `release`: the last one goes on to `destroy`. */
  function Released(s: State, foreign: bool): State
    requires s.h.refs > 0
  {
    var n := s.(h := s.h.(refs := s.h.refs - 1));
    if s.h.refs > 1 then n
    else if foreign then n.(life := ToMark)
    else n.(life := Local, owner := Cancel(false))
  }

  function LifeDo(s: State, step: Step): State
    requires Enabled(s, step)
  {
    match step
    case Copy => s.(handles := s.handles + 1, h := s.h.(refs := s.h.refs + 1))
    case ForeignDrop => Released(s.(handles := s.handles - 1), true)
    case TearMark => s.(h := s.h.(tearPending := true), life := ToCount)
    case TearCount => s.(h := s.h.(pending := s.h.pending + 1), life := ToPush)
    case TearPush => s.(ops := s.ops.(destroys := s.ops.destroys + 1), life := Forwarded)
    case _ => s
  }

  function ShutdownDo(s: State, step: Step): State
    requires Enabled(s, step)
  {
    var f := s.f;
    match step
    case ForeignShutdown =>
      if s.h.timerId then s.(f := f.(shutCountTimer := f.shutCountTimer + 1))
      else s.(f := f.(shutCountPlain := f.shutCountPlain + 1))
    case ShutCount(timer) =>
      var h := s.h.(pending := s.h.pending + 1);
      if timer then s.(h := h, f := f.(shutCountTimer := f.shutCountTimer - 1, shutPushTimer := f.shutPushTimer + 1))
      else s.(h := h, f := f.(shutCountPlain := f.shutCountPlain - 1, shutPushPlain := f.shutPushPlain + 1))
    case ShutPush(timer) =>
      var ops := s.ops.(shutdowns := s.ops.shutdowns + 1);
      if timer then s.(ops := ops, f := f.(shutPushTimer := f.shutPushTimer - 1, shutClaim := f.shutClaim + 1))
      else s.(ops := ops, f := f.(shutPushPlain := f.shutPushPlain - 1))
    case ForeignClaim =>
      s.(h := s.h.(claimed := true),
         f := f.(shutClaim := f.shutClaim - 1, shutRelease := f.shutRelease + Bit(!s.h.claimed)))
    case ForeignRelease => Released(s.(f := f.(shutRelease := f.shutRelease - 1), drops := s.drops + 1), true)
    case _ => s
  }

  /** The header as the reference for a timer is taken: nothing changes once it is closed. */
  function WithTimerRef(h: Header): Header {
    if h.closed then h else h.(refs := h.refs + 1)
  }

  function SetTimeoutDo(s: State, step: Step): State
    requires Enabled(s, step)
  {
    var f := s.f;
    match step
    case ForeignSetTimeout =>
      if s.h.timerId then s.(f := f.(setCount := f.setCount + 1)) else s.(f := f.(setTakeRef := f.setTakeRef + 1))
    case ForeignTakeRef =>
      s.(h := WithTimerRef(s.h), arms := s.arms + 1,
         f := f.(setTakeRef := f.setTakeRef - 1, setClearClaim := f.setClearClaim + 1))
    case ForeignClearClaim =>
      s.(h := s.h.(claimed := false), f := f.(setClearClaim := f.setClearClaim - 1, setCount := f.setCount + 1))
    case SetCount =>
      s.(h := s.h.(pending := s.h.pending + 1), f := f.(setCount := f.setCount - 1, setPush := f.setPush + 1))
    case SetPush => s.(ops := s.ops.(timeouts := s.ops.timeouts + 1), f := f.(setPush := f.setPush - 1))
    case _ => s
  }

  function StartDo(s: State, step: Step): State
    requires Enabled(s, step)
  {
    match step
    case OwnerDrop => Released(s.(handles := s.handles - 1), false)
    case OwnerShutdown =>
      if s.h.timerId && s.h.armed then s.(h := s.h.(timerId := false, armed := false), owner := ShutClaim) else s
    case OwnerSetTimeout => if s.h.timerId then s else s.(owner := TakeRef)
    case Fire => s.(h := s.h.(armed := false), owner := FireClaim)
    case Take(Timeout) => s.(ops := s.ops.(timeouts := s.ops.timeouts - 1), owner := LoadFlags(Timeout))
    case Take(Shutdown) => s.(ops := s.ops.(shutdowns := s.ops.shutdowns - 1), owner := LoadFlags(Shutdown))
    case Take(Destroy) => s.(ops := s.ops.(destroys := s.ops.destroys - 1), owner := LoadFlags(Destroy))
    case _ => s
  }

  /** Cancel the timer if the header says that there is one. */
  function Cancelled(h: Header): Header {
    if h.timerId then h.(timerId := false, armed := false) else h
  }

  function OwnerDo(s: State): State
    requires Enabled(s, OwnerGo)
  {
    var h := s.h;
    match s.owner
    case FireClaim =>
      s.(h := h.(claimed := true), owner := if h.claimed || h.tearPending then FireSkip else FireRun)
    case FireSkip => s.(h := h.(timerId := false), owner := Idle)
    case FireRun => s.(h := h.(timerId := false), handles := s.handles + 1, drops := s.drops + 1, owner := Idle)
    case TakeRef => s.(h := WithTimerRef(h), arms := s.arms + 1, owner := ClearClaim)
    case ClearClaim => s.(h := h.(claimed := false), owner := Arm)
    case Arm => s.(h := h.(timerId := true, armed := true), owner := Idle)
    case ShutClaim => s.(h := h.(claimed := true), owner := if h.claimed then Idle else ShutRelease)
    case ShutRelease => Released(s.(drops := s.drops + 1, owner := Idle), false)
    case LoadFlags(op) =>
      s.(owner := if h.destroyed then Sub else Act(op, h.tearPending || (!h.timerId && h.claimed)))
    case Act(Timeout, skip) => s.(h := if skip then h else h.(timerId := true, armed := true), owner := Sub)
    case Act(Shutdown, _) => s.(h := Cancelled(h), owner := Sub)
    case Act(Destroy, _) => s.(owner := Cancel(true))
    case Sub => s.(h := h.(pending := h.pending - 1), owner := Check(h.pending == 1))
    case Check(last) => s.(deletes := s.deletes + Bit(last && h.destroyed), owner := Idle)
    case Cancel(inOp) => s.(h := Cancelled(h).(closed := true), owner := Mark(inOp))
    case Mark(inOp) => s.(h := h.(destroyed := true), life := Done, owner := LoadPending(inOp))
    case LoadPending(inOp) => s.(deletes := s.deletes + Bit(h.pending == 0), owner := if inOp then Sub else Idle)
    case Idle => s
  }

  datatype Actor = Lifetime | Shutdowns | Timeouts | OwnerStarts | OwnerGoes

  function ActorOf(step: Step): Actor {
    match step
    case Copy | ForeignDrop | TearMark | TearCount | TearPush => Lifetime
    case ForeignShutdown | ShutCount(_) | ShutPush(_) | ForeignClaim | ForeignRelease => Shutdowns
    case ForeignSetTimeout | ForeignTakeRef | ForeignClearClaim | SetCount | SetPush => Timeouts
    case OwnerGo => OwnerGoes
    case _ => OwnerStarts
  }

  function Do(s: State, step: Step): State
    requires Enabled(s, step)
  {
    match ActorOf(step)
    case Lifetime => LifeDo(s, step)
    case Shutdowns => ShutdownDo(s, step)
    case Timeouts => SetTimeoutDo(s, step)
    case OwnerStarts => StartDo(s, step)
    case OwnerGoes => OwnerDo(s)
  }

  // ---- Invariant ---------------------------------------------------------------------------

  /** Every handle and every timer reference not yet dropped is one reference. */
  predicate RefsOk(s: State) {
    && s.drops <= s.arms && s.h.refs == s.handles + s.arms - s.drops
    && Busy(s.f) + Bit(OwnerBusy(s.owner)) <= s.handles
    && (s.life.Alive? <==> s.h.refs > 0)
  }

  /** Timer references whose claim bit has been cleared. */
  function Offered(s: State): int {
    s.arms - s.f.setClearClaim - Bit(s.owner.ClearClaim?)
  }

  function Claims(s: State): nat {
    s.drops + s.f.shutRelease + Bit(s.owner.ShutRelease? || s.owner.FireRun?)
  }

  predicate NoTimerYet(s: State) {
    && Claims(s) == 0 && !s.h.claimed && !s.h.timerId && !s.h.armed && s.ops.timeouts == 0
    && s.f.setCount == s.f.setPush == s.f.shutCountTimer == s.f.shutPushTimer == s.f.shutClaim == 0
    && !(s.owner.FireClaim? || s.owner.FireSkip? || s.owner.Arm? || s.owner.ShutClaim?)
    && !(s.owner == LoadFlags(Timeout) || (s.owner.Act? && s.owner.op.Timeout?))
  }

  /** Every claim had a reference of its own to drop. */
  predicate ClaimsOk(s: State) {
    && Offered(s) >= 0
    && if Offered(s) == 0 then NoTimerYet(s) else Claims(s) + Bit(!s.h.claimed) <= Offered(s)
  }

  predicate Applying(o: Owner) {
    || o.LoadFlags? || o.Act? || o.Sub?
    || ((o.Cancel? || o.Mark? || o.LoadPending?) && o.inOp)
  }

  predicate PendingOk(s: State) {
    && s.h.pending == s.ops.timeouts + s.ops.shutdowns + s.ops.destroys
                      + s.f.shutPushTimer + s.f.shutPushPlain + s.f.setPush
                      + Bit(s.life.ToPush?) + Bit(Applying(s.owner))
    && (s.owner.Check? && s.life.Done? ==> (s.owner.last <==> s.h.pending == 0))
  }

  predicate Firing(o: Owner) { o.FireClaim? || o.FireSkip? || o.FireRun? }

  predicate TimerOk(h: Header, o: Owner) {
    && (h.armed ==> h.timerId)
    && (h.timerId ==> h.armed || Firing(o))
    && (Firing(o) ==> !h.armed)
  }

  /** Does the owner hold the Destroy op and has yet to mark the header? */
  predicate Destroying(o: Owner) {
    || o == LoadFlags(Destroy) || (o.Act? && o.op.Destroy?) || ((o.Cancel? || o.Mark?) && o.inOp)
  }

  predicate LifeOk(h: Header, destroys: nat, life: Life, o: Owner) {
    && (h.destroyed <==> life.Done?)
    && (h.closed || h.tearPending ==> !life.Alive?)
    && destroys + Bit(Destroying(o)) == Bit(life.Forwarded?)
    && (life.Local? <==> (o.Cancel? || o.Mark?) && !o.inOp)
    && (o.LoadPending? ==> life.Done?)
    && (life.Done? || o.Mark? ==> !h.timerId && !h.armed)
    && (o.Act? ==> !h.destroyed)
  }

  predicate DeletesOk(s: State) {
    s.deletes == Bit(s.life.Done? && s.h.pending == 0 && !s.owner.LoadPending? && s.owner != Check(true))
  }

  predicate Inv(s: State) {
    && RefsOk(s) && ClaimsOk(s) && PendingOk(s) && TimerOk(s.h, s.owner)
    && LifeOk(s.h, s.ops.destroys, s.life, s.owner) && DeletesOk(s)
  }

  lemma CopyKeeps(s: State, step: Step)
    requires Inv(s) && Enabled(s, step) && step.Copy?
    ensures Inv(Do(s, step))
  {
  }

  lemma DropOneKeeps(s: State, step: Step)
    requires Inv(s) && Enabled(s, step) && (step.ForeignDrop? || step.OwnerDrop?) && s.h.refs > 1
    ensures Inv(Do(s, step))
  {
  }

  lemma ForeignDropLastKeeps(s: State, step: Step)
    requires Inv(s) && Enabled(s, step) && step.ForeignDrop? && s.h.refs == 1
    ensures Inv(Do(s, step))
  {
  }

  lemma OwnerDropLastKeeps(s: State, step: Step)
    requires Inv(s) && Enabled(s, step) && step.OwnerDrop? && s.h.refs == 1
    ensures Inv(Do(s, step))
  {
  }

  lemma DropKeeps(s: State, step: Step)
    requires Inv(s) && Enabled(s, step) && (step.ForeignDrop? || step.OwnerDrop?)
    ensures Inv(Do(s, step))
  {
    hide Inv, Do;
    if s.h.refs > 1 {
      DropOneKeeps(s, step);
    } else if step.ForeignDrop? {
      ForeignDropLastKeeps(s, step);
    } else {
      OwnerDropLastKeeps(s, step);
    }
  }

  lemma TearKeeps(s: State, step: Step)
    requires Inv(s) && Enabled(s, step) && (step.TearMark? || step.TearCount? || step.TearPush?)
    ensures Inv(Do(s, step))
  {
  }

  lemma ForeignShutdownKeeps(s: State, step: Step)
    requires Inv(s) && Enabled(s, step) && step.ForeignShutdown?
    ensures Inv(Do(s, step))
  {
  }

  lemma ShutCountKeeps(s: State, step: Step)
    requires Inv(s) && Enabled(s, step) && step.ShutCount?
    ensures Inv(Do(s, step))
  {
  }

  lemma ShutPushKeeps(s: State, step: Step)
    requires Inv(s) && Enabled(s, step) && step.ShutPush?
    ensures Inv(Do(s, step))
  {
  }

  lemma ShutReleaseKeeps(s: State, step: Step)
    requires Inv(s) && Enabled(s, step) && (step.ForeignClaim? || step.ForeignRelease?)
    ensures Inv(Do(s, step))
  {
  }

  lemma SetBeginKeeps(s: State, step: Step)
    requires Inv(s) && Enabled(s, step) && step.ForeignSetTimeout?
    ensures Inv(Do(s, step))
  {
  }

  lemma SetForwardKeeps(s: State, step: Step)
    requires Inv(s) && Enabled(s, step) && (step.SetCount? || step.SetPush?)
    ensures Inv(Do(s, step))
  {
  }

  lemma SetArmKeeps(s: State, step: Step)
    requires Inv(s) && Enabled(s, step) && (step.ForeignTakeRef? || step.ForeignClearClaim?)
    ensures Inv(Do(s, step))
  {
  }

  lemma OwnerUseKeeps(s: State, step: Step)
    requires Inv(s) && Enabled(s, step) && (step.OwnerShutdown? || step.OwnerSetTimeout? || step.Fire?)
    ensures Inv(Do(s, step))
  {
  }

  lemma TakeTimeoutKeeps(s: State, step: Step)
    requires Inv(s) && Enabled(s, step) && step == Take(Timeout)
    ensures Inv(Do(s, step))
  {
  }

  lemma TakeShutdownKeeps(s: State, step: Step)
    requires Inv(s) && Enabled(s, step) && step == Take(Shutdown)
    ensures Inv(Do(s, step))
  {
  }

  lemma TakeDestroyKeeps(s: State, step: Step)
    requires Inv(s) && Enabled(s, step) && step == Take(Destroy)
    ensures Inv(Do(s, step))
  {
  }

  lemma FireKeeps(s: State)
    requires Inv(s) && Enabled(s, OwnerGo) && Firing(s.owner)
    ensures Inv(Do(s, OwnerGo))
  {
  }

  lemma OwnerSetKeeps(s: State)
    requires Inv(s) && Enabled(s, OwnerGo) && (s.owner.TakeRef? || s.owner.ClearClaim? || s.owner.Arm?)
    ensures Inv(Do(s, OwnerGo))
  {
  }

  lemma OwnerShutKeeps(s: State)
    requires Inv(s) && Enabled(s, OwnerGo) && (s.owner.ShutClaim? || s.owner.ShutRelease?)
    ensures Inv(Do(s, OwnerGo))
  {
  }

  lemma LoadKeeps(s: State)
    requires Inv(s) && Enabled(s, OwnerGo) && (s.owner.LoadFlags? || s.owner.Check?)
    ensures Inv(Do(s, OwnerGo))
  {
  }

  lemma ActTimeoutKeeps(s: State)
    requires Inv(s) && Enabled(s, OwnerGo) && s.owner.Act? && s.owner.op.Timeout?
    ensures Inv(Do(s, OwnerGo))
  {
  }

  lemma ActShutdownKeeps(s: State)
    requires Inv(s) && Enabled(s, OwnerGo) && s.owner.Act? && s.owner.op.Shutdown?
    ensures Inv(Do(s, OwnerGo))
  {
  }

  lemma ActDestroyKeeps(s: State)
    requires Inv(s) && Enabled(s, OwnerGo) && s.owner.Act? && s.owner.op.Destroy?
    ensures Inv(Do(s, OwnerGo))
  {
  }

  lemma SubKeeps(s: State)
    requires Inv(s) && Enabled(s, OwnerGo) && s.owner.Sub?
    ensures Inv(Do(s, OwnerGo))
  {
  }

  lemma TeardownKeeps(s: State)
    requires Inv(s) && Enabled(s, OwnerGo) && (s.owner.Cancel? || s.owner.Mark?)
    ensures Inv(Do(s, OwnerGo))
  {
  }

  lemma LoadPendingKeeps(s: State)
    requires Inv(s) && Enabled(s, OwnerGo) && s.owner.LoadPending?
    ensures Inv(Do(s, OwnerGo))
  {
  }

  lemma OwnerKeeps(s: State)
    requires Inv(s) && Enabled(s, OwnerGo)
    ensures Inv(Do(s, OwnerGo))
  {
    hide Inv, Do, Enabled;
    OwnerIsBusy(s);
    match s.owner
    case FireClaim | FireSkip | FireRun => FireKeeps(s);
    case TakeRef | ClearClaim | Arm => OwnerSetKeeps(s);
    case ShutClaim | ShutRelease => OwnerShutKeeps(s);
    case LoadFlags(_) => LoadKeeps(s);
    case Check(_) => LoadKeeps(s);
    case Act(Timeout, _) => ActTimeoutKeeps(s);
    case Act(Shutdown, _) => ActShutdownKeeps(s);
    case Act(Destroy, _) => ActDestroyKeeps(s);
    case Sub => SubKeeps(s);
    case Cancel(_) => TeardownKeeps(s);
    case Mark(_) => TeardownKeeps(s);
    case LoadPending(_) => LoadPendingKeeps(s);
  }

  lemma OwnerIsBusy(s: State)
    requires Enabled(s, OwnerGo)
    ensures !s.owner.Idle?
  {
  }

  lemma StepKeepsInv(s: State, step: Step)
    requires Inv(s) && Enabled(s, step)
    ensures Inv(Do(s, step))
  {
    hide Inv, Do, Enabled;
    match step
    case Copy => CopyKeeps(s, step);
    case TearMark | TearCount | TearPush => TearKeeps(s, step);
    case ForeignShutdown => ForeignShutdownKeeps(s, step);
    case ShutCount(_) => ShutCountKeeps(s, step);
    case ShutPush(_) => ShutPushKeeps(s, step);
    case ForeignClaim | ForeignRelease => ShutReleaseKeeps(s, step);
    case OwnerDrop | ForeignDrop => DropKeeps(s, step);
    case OwnerShutdown | OwnerSetTimeout | Fire => OwnerUseKeeps(s, step);
    case Take(Timeout) => TakeTimeoutKeeps(s, step);
    case Take(Shutdown) => TakeShutdownKeeps(s, step);
    case Take(Destroy) => TakeDestroyKeeps(s, step);
    case OwnerGo => OwnerKeeps(s);
    case ForeignSetTimeout => SetBeginKeeps(s, step);
    case SetCount | SetPush => SetForwardKeeps(s, step);
    case ForeignTakeRef | ForeignClearClaim => SetArmKeeps(s, step);
  }

  /** No counter is ever taken below 0: the guards on `refs` and `pending_ops` always hold. */
  lemma NeverBelowZero(s: State)
    requires Inv(s)
    ensures FreeHandle(s) || s.f.shutRelease > 0 || s.owner.ShutRelease? ==> s.h.refs > 0
    ensures s.owner.Sub? ==> s.h.pending > 0
  {
    hide TimerOk, LifeOk, DeletesOk;
  }

  // ---- Whole runs ----------------------------------------------------------------------------

  /** `s` is the state after some run of `n` steps. */
  ghost predicate Reachable(s: State, n: nat)
    decreases n
  {
    if n == 0 then s == Init()
    else exists p, step :: Reachable(p, n - 1) && Follows(p, step, s)
  }

  predicate Follows(p: State, step: Step, s: State) {
    Enabled(p, step) && s == Do(p, step)
  }

  lemma InitIsInv(s: State)
    requires s == Init()
    ensures Inv(s)
  {
    QuietStartIsInv(s);
  }

  lemma QuietStartIsInv(s: State)
    requires s.h.refs == s.handles == 1 && !s.h.closed && !s.h.claimed && !s.h.tearPending && !s.h.destroyed
    requires !s.h.timerId && !s.h.armed && s.h.pending == s.ops.timeouts == s.ops.shutdowns == s.ops.destroys == 0
    requires Busy(s.f) == 0 && s.life.Alive? && s.owner.Idle? && s.deletes == s.arms == s.drops == 0
    ensures Inv(s)
  {
  }

  lemma {:induction false} ReachableIsInv(s: State, n: nat)
    requires Reachable(s, n)
    ensures Inv(s)
    decreases n
  {
    hide Inv, Do, Enabled;
    if n == 0 {
      InitIsInv(s);
    } else {
      var p, step :| Reachable(p, n - 1) && Follows(p, step, s);
      ReachableIsInv(p, n - 1);
      StepKeepsInv(p, step);
    }
  }

  /**
    The header reaches the delete queue at most once, and only when nobody can touch it any
    more: torn down, no forwarded op queued or counted, no handle, no timer in the wheel. And
    a timer reference is never dropped more often than one was taken.
   */
  lemma DeletedAtMostOnceAndLast(s: State, n: nat)
    requires Reachable(s, n)
    ensures s.deletes <= 1 && s.drops <= s.arms
    ensures s.deletes == 1 ==>
              && s.h.destroyed && s.h.pending == 0 && s.h.refs == 0 && s.ops == Ops(0, 0, 0) && !Applying(s.owner)
              && s.handles == 0 && Busy(s.f) == 0 && !s.h.armed
  {
    ReachableIsInv(s, n);
  }

  /** Nothing is queued, forwarded or under way on any thread. */
  predicate Quiet(s: State) {
    s.ops == Ops(0, 0, 0) && s.owner.Idle? && !s.life.ToMark? && !s.life.ToCount? && !s.life.ToPush? && Busy(s.f) == 0
  }

  /** Once all references and forwarded ops have drained, the header was deleted exactly once. */
  lemma DeletedOnceWhenDrained(s: State, n: nat)
    requires Reachable(s, n) && Quiet(s)
    ensures s.deletes == 1 <==> s.h.refs == 0
    ensures s.h.refs == 0 <==> s.handles == 0 && s.arms == s.drops
  {
    ReachableIsInv(s, n);
  }

  /** No delete is ever taken back, so a second one would show. */
  lemma DeletesGrow(s: State, step: Step)
    requires Inv(s) && Enabled(s, step)
    ensures s.deletes <= Do(s, step).deletes
  {
    hide Inv;
  }

  /**
    With no handle left, nothing under way and no timer in the wheel, no step is possible any
    more: if a timer reference is still counted, the header is never freed.
   */
  lemma StuckForever(s: State, step: Step)
    requires Inv(s) && Quiet(s) && s.handles == 0 && !s.h.armed
    ensures !Enabled(s, step)
  {
  }

  // ---- A teardown that nobody disturbs ---------------------------------------------------------------

  /** The last handle is dropped on a foreign worker: Destroy is forwarded to the owner. */
  lemma LastForeignDrop(s: State)
    requires FreeHandle(s) && s.h.refs == 1
    ensures var s1 := Do(s, ForeignDrop);
            && Enabled(s1, TearMark)
            && var s2 := Do(s1, TearMark);
            && Enabled(s2, TearCount)
            && var s3 := Do(s2, TearCount);
            && Enabled(s3, TearPush)
            && Do(s3, TearPush)
               == s.(h := s.h.(refs := 0, tearPending := true, pending := s.h.pending + 1), handles := s.handles - 1,
                     ops := s.ops.(destroys := s.ops.destroys + 1), life := Forwarded)
  {
    hide FreeHandle;
  }

  /** The owner applies it: the timer is cancelled, the header closed, marked and, as the last op, deleted. */
  lemma DestroyDeletes(s: State)
    requires s.owner.Idle? && s.ops.destroys > 0 && !s.h.destroyed && s.h.pending == 1
    ensures var s1 := Do(s, Take(Destroy));
            && s1.owner == LoadFlags(Destroy)
            && var s2 := Do(s1, OwnerGo);
            && s2.owner == Act(Destroy, s2.owner.skip)
            && var s3 := Do(s2, OwnerGo);
            && s3.owner == Cancel(true)
            && var s4 := Do(s3, OwnerGo);
            && s4.owner == Mark(true) && !s4.h.timerId && s4.h.closed
            && var s5 := Do(s4, OwnerGo);
            && s5.owner == LoadPending(true) && s5.h.destroyed
            && var s6 := Do(s5, OwnerGo);
            && s6.owner == Sub && s6.h.pending == 1
            && var s7 := Do(s6, OwnerGo);
            && s7.owner == Check(true)
            && var s8 := Do(s7, OwnerGo);
               s8.owner.Idle? && s8.h.pending == 0 && s8.deletes == s.deletes + 1 && s8.ops.destroys == s.ops.destroys - 1
  {
  }

  /** The last handle is dropped on the owner: the header is torn down and deleted there and then. */
  lemma LastOwnerDrop(s: State)
    requires FreeHandle(s) && s.owner.Idle? && s.h.refs == 1 && s.h.pending == 0
    ensures var s1 := Do(s, OwnerDrop);
            && s1.owner == Cancel(false)
            && var s2 := Do(s1, OwnerGo);
            && s2.owner == Mark(false)
            && var s3 := Do(s2, OwnerGo);
            && s3.owner == LoadPending(false)
            && var s4 := Do(s3, OwnerGo);
               s4.owner.Idle? && s4.h.destroyed && s4.h.closed && !s4.h.timerId && s4.h.refs == 0
               && s4.deletes == s.deletes + 1 && s4.handles == s.handles - 1
  {
    hide FreeHandle;
  }
}
