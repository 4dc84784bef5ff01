/**
  One direction of a socket: the readiness word shared by the poller, the one reader, the cancel
  hook and the timeout, together with the kernel's edge-triggered notification. Every atomic
  operation and every system call is one step. The poller and the timeout run on the socket's
  owner, one after the other; the reader may run on any worker. The writer's word is the same.
 */
module ReadinessWord {
  import opened Wrappers

  datatype Word = Empty | Ready | Waiter

  /** What the reader does next. */
  datatype Pc =
    | Idle                   // not reading
    | LoadHint               // is_read_armed
    | Disarm                 // clear the hint
    | Probe                  // recv
    | Arm                    // arm the cancel hook
    | LoadWord               // park: load
    | SwapWord(seen: Word)   // park: compare-and-swap
    | Suspended

  /** What the owner does next. */
  datatype Owner =
    | Polling
    | Firing                 // epoll_wait has returned an edge: exchange the word
    | Closing                // the timeout has taken the waiter: remove the event and close

  datatype State = State(
    word: Word,
    pc: Pc,
    owner: Owner,
    open: bool,           // the descriptor is open and registered
    data: nat,            // unread bytes in the kernel
    edge: bool,           // an edge that epoll_wait has not returned yet
    hook: bool,           // the cancel hook is armed
    scheduled: nat,       // resumes that the reader has not run on yet
    parks: nat,           // history: successful parks
    resumes: nat          // history: resumes issued by fire, take and unpark
  )

  datatype Step =
    | Arrive(n: nat)
    | TakeEdge | Fire | TakeWaiter | Close                            // the owner
    | StartRead | Go(k: nat, cancelled: bool, spurious: bool) | Run   // the reader
    | Unpark                                                          // the cancel hook

  function Init(): State {
    State(Empty, Idle, Polling, true, 0, false, false, 0, 0, 0)
  }

  predicate Enabled(s: State, step: Step) {
    match step
    case Arrive(n) => n > 0 && s.open
    case TakeEdge => s.owner.Polling? && s.edge
    case Fire => s.owner.Firing?
    case TakeWaiter => s.owner.Polling?
    case Close => s.owner.Closing?
    case StartRead => s.pc.Idle?
    case Go(k, _, _) => !s.pc.Idle? && !s.pc.Suspended? && (s.pc.Probe? && s.open && s.data > 0 ==> 0 < k <= s.data)
    case Run => s.pc.Suspended? && s.scheduled > 0
    case Unpark => s.hook
  }

  /** Exchange the word; a waiter that was in it is resumed. */
  function Exchanged(s: State, word: Word): State {
    if s.word.Waiter? then s.(word := word, scheduled := s.scheduled + 1, resumes := s.resumes + 1)
    else s.(word := word)
  }

  /** The retry loop of `park`, from the value seen last. */
  function Park(s: State, seen: Word): State {
    if seen.Waiter? then s.(pc := Suspended) else s.(pc := SwapWord(seen))
  }

  function GoStep(s: State, k: nat, cancelled: bool, spurious: bool): State
    requires Enabled(s, Go(k, cancelled, spurious))
  {
    match s.pc
    case LoadHint => s.(pc := if s.word.Ready? then Disarm else Probe)
    case Disarm => s.(word := if s.word.Ready? then Empty else s.word, pc := Probe)
    case Probe =>
      if !s.open then s.(pc := Idle)                      // the read fails
      else if s.data > 0 then s.(data := s.data - k, pc := Idle)
      else s.(pc := Arm)
    case Arm => if cancelled then s.(pc := Idle) else s.(hook := true, pc := LoadWord)
    case LoadWord => Park(s, s.word)
    case SwapWord(seen) =>
      if s.word != seen || spurious then Park(s, s.word)
      else if seen.Ready? then s.(word := Empty, pc := LoadHint)
      else s.(word := Waiter, pc := Suspended, parks := s.parks + 1)
    case _ => s
  }

  function Do(s: State, step: Step): State
    requires Enabled(s, step)
  {
    match step
    case Arrive(n) => s.(data := s.data + n, edge := true)
    case TakeEdge => s.(edge := false, owner := Firing)
    case Fire => Exchanged(s.(owner := Polling), Ready)
    case TakeWaiter => Exchanged(s.(owner := Closing), Empty)
    case Close => s.(open := false, edge := false, owner := Polling)
    case StartRead => s.(pc := LoadHint)
    case Go(k, cancelled, spurious) => GoStep(s, k, cancelled, spurious)
    case Run => s.(scheduled := s.scheduled - 1, hook := false, pc := LoadHint)
    case Unpark => if s.word.Waiter? then Exchanged(s.(hook := false), Empty) else s.(hook := false)
  }

  // ---- Invariant ---------------------------------------------------------------------------

  predicate EdgeComing(s: State) { s.edge || s.owner.Firing? }

  /** The reader has found nothing to read and is on its way to sleep. */
  predicate GoingToSleep(pc: Pc) { pc.Arm? || pc.LoadWord? || pc.SwapWord? }

  /**
    On an open socket unread data is announced to a reader that sleeps or is about to: by an
    edge still to be fired, or by the hint. On a closed one nobody sleeps, or is about to.
   */
  predicate NothingLost(s: State) {
    if s.open then
      && (GoingToSleep(s.pc) && s.data > 0 ==> EdgeComing(s) || s.word.Ready?)
      && (s.word.Waiter? && s.data > 0 ==> EdgeComing(s))
    else !ReaderInTheWay(s)
  }

  /** The reader is in the word, or on its way there. */
  predicate ReaderInTheWay(s: State) {
    s.word.Waiter? || GoingToSleep(s.pc)
  }

  predicate WaiterOk(s: State) {
    && s.parks == s.resumes + Bit(s.word.Waiter?)
    && s.scheduled + Bit(s.word.Waiter?) == Bit(s.pc.Suspended?)
    && (s.pc.SwapWord? ==> !s.pc.seen.Waiter?)
    && (!s.open ==> !EdgeComing(s))
    && (!s.open || s.owner.Closing? ==> !s.word.Ready?)
  }

  /** While the timeout is between its two steps it has yet to settle what it leaves behind. */
  predicate Inv(s: State) {
    WaiterOk(s) && (s.owner.Closing? || NothingLost(s))
  }

  lemma StepKeepsWaiter(s: State, step: Step)
    requires WaiterOk(s) && Enabled(s, step)
    ensures WaiterOk(Do(s, step))
  {
  }

  lemma StepKeepsInv(s: State, step: Step)
    requires Inv(s) && Enabled(s, step) && !step.Close?
    ensures Inv(Do(s, step))
  {
  }

  // ---- The timeout -------------------------------------------------------------------------

  /** The close leaves everything in order exactly when the reader is out of its way. */
  lemma CloseIsHarmlessIff(s: State)
    requires Inv(s) && Enabled(s, Close)
    ensures Inv(Do(s, Close)) <==> !ReaderInTheWay(s)
  {
  }

  function TimedOut(s: State): State
    requires s.owner.Polling?
  {
    Do(Do(s, TakeWaiter), Close)
  }

  /** A timeout that nothing interrupts does no harm exactly when the reader is not going to sleep. */
  lemma TimeoutIsHarmlessIff(s: State)
    requires Inv(s) && s.owner.Polling?
    ensures Inv(TimedOut(s)) <==> !GoingToSleep(s.pc)
  {
  }

  /** Parked on a closed socket: no edge is left and none can come. */
  predicate Stranded(s: State) {
    s.word.Waiter? && !s.open && !EdgeComing(s)
  }

  /** `n` steps of the reader, which nobody cancels, lead from `s` to `s'`. */
  ghost predicate Reads(s: State, n: nat, s': State)
    decreases n
  {
    var go := Go(0, false, false);
    if n == 0 then s' == s else Enabled(s, go) && Reads(Do(s, go), n - 1, s')
  }

  /** Wherever the reader is on its way to sleep, at most three of its steps strand it. */
  lemma ClosedReaderIsStranded(s: State) returns (n: nat, s': State)
    requires WaiterOk(s) && !s.open && ReaderInTheWay(s)
    ensures n <= 3 && Reads(s, n, s') && Stranded(s')
  {
    var go := Go(0, false, false);
    if s.word.Waiter? {
      return 0, s;
    }
    var s1 := Do(s, go);
    if s.pc == SwapWord(Empty) {
      assert Reads(s1, 0, s1);
      return 1, s1;
    }
    n, s' := ParkingReaderIsStranded(s1);
    n := n + 1;
  }

  lemma ParkingReaderIsStranded(s: State) returns (n: nat, s': State)
    requires WaiterOk(s) && !s.open && (s.pc.LoadWord? || s.pc == SwapWord(Empty))
    ensures n <= 2 && Reads(s, n, s') && Stranded(s')
  {
    var go := Go(0, false, false);
    var s1 := Do(s, go);
    assert Reads(s1, 0, s1);
    if s.pc.LoadWord? {
      var s2 := Do(s1, go);
      assert Reads(s2, 0, s2) && Reads(s1, 1, s2);
      return 2, s2;
    }
    return 1, s1;
  }

  /** The other half: a timeout that finds the reader going to sleep, at any of its steps, strands it. */
  lemma TimeoutStrandsReader(s: State) returns (n: nat, s': State)
    requires Inv(s) && s.owner.Polling? && GoingToSleep(s.pc)
    ensures n <= 3 && Reads(TimedOut(s), n, s') && Stranded(s')
  {
    StepKeepsWaiter(s, TakeWaiter);
    StepKeepsWaiter(Do(s, TakeWaiter), Close);
    n, s' := ClosedReaderIsStranded(TimedOut(s));
  }

  /** Nothing but cancellation or a further timeout helps a stranded reader. */
  lemma StrandedStays(s: State, step: Step)
    requires WaiterOk(s) && Stranded(s) && Enabled(s, step) && !step.Unpark? && !step.TakeWaiter?
    ensures Stranded(Do(s, step))
  {
  }

  // ---- Whole runs ----------------------------------------------------------------------------

  ghost predicate Trace(steps: seq<Step>, states: seq<State>) {
    && |states| == |steps| + 1 && states[0] == Init()
    && forall i | 0 <= i < |steps| :: Enabled(states[i], steps[i]) && states[i + 1] == Do(states[i], steps[i])
  }

  lemma {:induction false} RunKeepsWaiter(steps: seq<Step>, states: seq<State>, k: nat)
    requires Trace(steps, states) && k <= |steps|
    ensures WaiterOk(states[k])
  {
    hide Enabled, Do;
    if k > 0 {
      RunKeepsWaiter(steps, states, k - 1);
      StepKeepsWaiter(states[k - 1], steps[k - 1]);
    }
  }

  /**
    In every run, timeouts included: each successful park but a current one has had exactly one
    resume from fire, take or unpark; and a reader that is suspended is in the word or scheduled.
   */
  lemma OneResumePerPark(steps: seq<Step>, states: seq<State>, k: nat)
    requires Trace(steps, states) && k <= |steps|
    ensures states[k].resumes <= states[k].parks <= states[k].resumes + 1
    ensures states[k].parks == states[k].resumes + 1 <==> states[k].word.Waiter?
    ensures states[k].pc.Suspended? ==> states[k].word.Waiter? || states[k].scheduled == 1
    ensures states[k].scheduled <= 1
  {
    RunKeepsWaiter(steps, states, k);
  }

  /** Every close up to step `k` found the reader out of its way. */
  ghost predicate ClosesAreHarmless(steps: seq<Step>, states: seq<State>, k: nat)
    requires |states| == |steps| + 1 && k <= |steps|
  {
    forall i | 0 <= i < k && steps[i].Close? :: !ReaderInTheWay(states[i])
  }

  lemma {:induction false} RunKeepsInv(steps: seq<Step>, states: seq<State>, k: nat)
    requires Trace(steps, states) && k <= |steps| && ClosesAreHarmless(steps, states, k)
    ensures Inv(states[k])
  {
    hide Enabled, Do;
    if k > 0 {
      RunKeepsInv(steps, states, k - 1);
      if steps[k - 1].Close? {
        CloseIsHarmlessIff(states[k - 1]);
      } else {
        StepKeepsInv(states[k - 1], steps[k - 1]);
      }
    }
  }

  /**
    A parked reader sleeps on an open socket, and with unread data it has an edge that the
    poller has not fired yet, unless a timeout is under way that has yet to close the socket.
   */
  lemma NoLostEdge(steps: seq<Step>, states: seq<State>, k: nat)
    requires Trace(steps, states) && k <= |steps| && ClosesAreHarmless(steps, states, k)
    requires states[k].word.Waiter? && !states[k].owner.Closing?
    ensures states[k].open && (states[k].data > 0 ==> EdgeComing(states[k]))
  {
    RunKeepsInv(steps, states, k);
  }

  /** The condition is exact: whenever a close meets the reader, at most three of its steps strand it. */
  lemma HarmfulCloseStrands(steps: seq<Step>, states: seq<State>, k: nat) returns (n: nat, s': State)
    requires Trace(steps, states) && k < |steps| && steps[k].Close? && ReaderInTheWay(states[k])
    ensures n <= 3 && Reads(states[k + 1], n, s') && Stranded(s')
  {
    RunKeepsWaiter(steps, states, k + 1);
    n, s' := ClosedReaderIsStranded(states[k + 1]);
  }

  // ---- Wake-ups and reads take place ------------------------------------------------------------

  /** Fire, take and unpark of a parked reader schedule it, and it goes on to read again. */
  lemma WakeUpsSchedule(s: State, step: Step)
    requires WaiterOk(s) && s.word.Waiter? && Enabled(s, step) && (step.Fire? || step.TakeWaiter? || step.Unpark?)
    ensures var s1 := Do(s, step);
            && s1.scheduled == 1 && !s1.word.Waiter? && s1.resumes == s.resumes + 1
            && Enabled(s1, Run) && Do(s1, Run).pc == LoadHint && Do(s1, Run).scheduled == 0 && !Do(s1, Run).hook
  {
  }

  /** An edge is fired once: the hint is left, and the edge is gone. */
  lemma EdgeIsFired(s: State)
    requires WaiterOk(s) && s.owner.Polling? && s.edge
    ensures var s1 := Do(s, TakeEdge);
            && Enabled(s1, Fire) && !s1.edge
            && var s2 := Do(s1, Fire);
               s2.word.Ready? && s2.owner.Polling? && !s2.edge && s2.scheduled == s.scheduled + Bit(s.word.Waiter?)
  {
  }

  /** A hint that arrives before the park is consumed, and the reader reads again. */
  lemma HintIsConsumed(s: State)
    requires WaiterOk(s) && s.pc.LoadWord? && s.word.Ready?
    ensures var go, s1 := Go(0, false, false), Do(s, Go(0, false, false));
            Enabled(s1, go) && Do(s1, go) == s.(word := Empty, pc := LoadHint)
  {
  }

  /** A reader whose cancellation is requested already does not park. */
  lemma CancelledReaderDoesNotPark(s: State)
    requires s.pc.Arm?
    ensures Do(s, Go(0, true, false)) == s.(pc := Idle)
  {
  }

  /** The bytes that have arrived. */
  function Arrived(steps: seq<Step>): nat {
    if steps == [] then 0
    else Arrived(steps[..|steps| - 1]) + if steps[|steps| - 1].Arrive? then steps[|steps| - 1].n else 0
  }

  /** The bytes that the reads among the first `k` steps have returned. */
  function Read(steps: seq<Step>, states: seq<State>, k: nat): nat
    requires k <= |steps| && |states| == |steps| + 1
  {
    if k == 0 then 0
    else
      var s, step := states[k - 1], steps[k - 1];
      Read(steps, states, k - 1) + if step.Go? && s.pc.Probe? && s.open && s.data > 0 then step.k else 0
  }

  lemma StepMovesBytes(s: State, step: Step)
    requires Enabled(s, step)
    ensures Do(s, step).data + (if step.Go? && s.pc.Probe? && s.open && s.data > 0 then step.k else 0)
            == s.data + if step.Arrive? then step.n else 0
  {
  }

  /** No byte is lost or read twice. */
  lemma {:induction false} BytesAreConserved(steps: seq<Step>, states: seq<State>, k: nat)
    requires Trace(steps, states) && k <= |steps|
    ensures states[k].data + Read(steps, states, k) == Arrived(steps[..k])
  {
    hide Enabled, Do;
    if k > 0 {
      BytesAreConserved(steps, states, k - 1);
      StepMovesBytes(states[k - 1], steps[k - 1]);
      assert steps[..k][..k - 1] == steps[..k - 1];
    }
  }

  /** A read that nobody disturbs returns what it asked for, whether there was a hint or not. */
  lemma ReadReturns(s: State, k: nat)
    requires WaiterOk(s) && s.pc.Idle? && s.open && 0 < k <= s.data
    ensures var go, s1 := Go(k, false, false), Do(s, StartRead);
            var s2 := if s.word.Ready? then Do(Do(s1, go), go) else Do(s1, go);
            Enabled(s2, go) && Do(s2, go).pc.Idle? && Do(s2, go).data == s.data - k && !Do(s2, go).word.Ready?
  {
  }

  /** A read that finds nothing, on an open socket where no data comes, parks. */
  lemma ReadParks(s: State)
    requires WaiterOk(s) && s.pc.Probe? && s.open && s.data == 0 && s.word.Empty?
    ensures var go := Go(0, false, false);
            var s1 := Do(s, go);
            var s2 := Do(s1, go);
            var s3 := Do(s2, go);
            var s4 := Do(s3, go);
            s4.word.Waiter? && s4.pc.Suspended? && s4.hook && s4.parks == s.parks + 1
  {
  }

  // ---- A reader on the socket's own worker -----------------------------------------------------

  /**
    The reader runs on the owner's thread: a timeout never finds it between its read and its
    park, and between the two steps of the timeout only the kernel acts.
   */
  ghost predicate ReaderOnOwner(steps: seq<Step>, states: seq<State>)
    requires |states| == |steps| + 1
  {
    forall i | 0 <= i < |steps| ::
      && (steps[i].TakeWaiter? ==> !GoingToSleep(states[i].pc))
      && (states[i].owner.Closing? ==> steps[i].Close? || steps[i].Arrive?)
  }

  lemma {:induction false} OwnThreadIsOutOfTheWay(steps: seq<Step>, states: seq<State>, k: nat)
    requires Trace(steps, states) && k <= |steps| && ReaderOnOwner(steps, states)
    ensures states[k].owner.Closing? ==> !ReaderInTheWay(states[k])
  {
    hide Enabled, Do, ReaderInTheWay;
    if k > 0 {
      OwnThreadIsOutOfTheWay(steps, states, k - 1);
      OwnThreadStep(states[k - 1], steps[k - 1]);
    }
  }

  lemma OwnThreadStep(s: State, step: Step)
    requires Enabled(s, step) && (s.owner.Closing? ==> !ReaderInTheWay(s) && (step.Close? || step.Arrive?))
    requires step.TakeWaiter? ==> !GoingToSleep(s.pc)
    ensures Do(s, step).owner.Closing? ==> !ReaderInTheWay(Do(s, step))
  {
  }

  /** So a reader on the socket's own worker is never stranded, whatever times out. */
  lemma OwnThreadReaderIsSafe(steps: seq<Step>, states: seq<State>, k: nat)
    requires Trace(steps, states) && k <= |steps| && ReaderOnOwner(steps, states) && states[k].word.Waiter?
    ensures states[k].open && (states[k].data > 0 ==> EdgeComing(states[k]))
  {
    forall i | 0 <= i < k && steps[i].Close? ensures !ReaderInTheWay(states[i]) {
      OwnThreadIsOutOfTheWay(steps, states, i);
    }
    OwnThreadIsOutOfTheWay(steps, states, k);
    RunKeepsInv(steps, states, k);
  }

  // ---- The window is real ------------------------------------------------------------------------

  lemma Extend(steps: seq<Step>, states: seq<State>, step: Step) returns (steps': seq<Step>, states': seq<State>)
    requires Trace(steps, states) && Enabled(states[|steps|], step)
    ensures steps' == steps + [step] && states' == states + [Do(states[|steps|], step)] && Trace(steps', states')
  {
    hide Do, Enabled;
    steps', states' := steps + [step], states + [Do(states[|steps|], step)];
  }

  /** A run that ends with the reader going to sleep, nothing read and no edge: the timer may fire now. */
  lemma WindowIsReached() returns (steps: seq<Step>, states: seq<State>)
    ensures Trace(steps, states)
    ensures var s := states[|steps|]; s.pc.Arm? && s.owner.Polling? && s.word.Empty? && s.data == 0
  {
    hide Trace;
    steps, states := Begin();
    steps, states := Extend(steps, states, StartRead);
    steps, states := Extend(steps, states, Go(0, false, false));
    steps, states := Extend(steps, states, Go(0, false, false));
  }

  lemma Begin() returns (steps: seq<Step>, states: seq<State>)
    ensures Trace(steps, states) && steps == [] && states == [Init()]
  {
    steps, states := [], [Init()];
  }
}
