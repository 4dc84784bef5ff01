/**
  Quiescent-state based reclamation: threads announce the epoch in which they enter a read
  section; a thread deletes its own retired entries once no announced epoch is as old. The
  search for the oldest epoch reads every thread's words one by one while the others go on;
  each load or store is one step.
 */
module Qsbr {
  import opened Wrappers
  import opened Compaction

  /** The read sections under way when the entry was retired: thread and number of its section. */
  datatype Entry = Entry(p: nat, epoch: nat, blockers: set<(nat, nat)>)

  /** What a thread does next; in a search, `left` threads are still to be looked at. */
  datatype Pc =
    | Detached
    | Out
    | StoreEpoch(g: nat)
    | SetActive
    | In
    | LoadInUse(first: bool, left: nat, min: Option<nat>)
    | LoadActive(first: bool, left: nat, min: Option<nat>)
    | LoadEpoch(first: bool, left: nat, min: Option<nat>)
    | NoneActive(first: bool)
    | Compare(found: nat)
    | Bump
    | Delete(safe: nat)

  datatype Thread = Thread(inUse: bool, active: bool, epoch: nat, pc: Pc, retired: seq<Entry>, section: nat)

  datatype State = State(global: nat, threads: seq<Thread>)

  datatype Step =
    | AttachNew | AttachOld(t: nat) | Detach(t: nat)
    | Enter(t: nat) | Leave(t: nat) | Retire(t: nat, p: nat) | TickStart(t: nat) | Go(t: nat)

  function Init(): State { State(0, []) }

  predicate At(s: State, t: nat, pc: Pc) {
    t < |s.threads| && s.threads[t].pc == pc
  }

  predicate Searching(pc: Pc) { pc.LoadInUse? || pc.LoadActive? || pc.LoadEpoch? }

  predicate Enabled(s: State, step: Step) {
    match step
    case AttachNew => true
    case AttachOld(t) => At(s, t, Detached)
    case Detach(t) => At(s, t, Out)
    case Enter(t) => At(s, t, Out)
    case Leave(t) => At(s, t, In)
    case Retire(t, _) => At(s, t, In) || At(s, t, Out)
    case TickStart(t) => At(s, t, Out)
    case Go(t) =>
      && t < |s.threads|
      && var pc := s.threads[t].pc;
         && !pc.Detached? && !pc.Out? && !pc.In?
         && (Searching(pc) ==> pc.left <= |s.threads|)
         && (pc.LoadActive? || pc.LoadEpoch? ==> pc.left > 0)
  }

  function Running(threads: seq<Thread>): set<(nat, nat)> {
    set u | 0 <= u < |threads| && threads[u].active :: (u, threads[u].section)
  }

  function Smaller(min: Option<nat>, e: nat): Option<nat> {
    if min.None? || e < min.value then Some(e) else min
  }

  /** The end of a search, with its result. */
  function Found(first: bool, min: nat): Pc {
    if first then Compare(min) else Delete(min)
  }

  function SecondSearch(s: State): Pc { LoadInUse(false, |s.threads|, None) }

  /** Entries of epoch `safe` and later stay. */
  function KeepFrom(safe: nat): Entry -> bool { (e: Entry) => e.epoch >= safe }

  /** The thread after its next step; only `Bump` changes anything else. */
  function Gone(s: State, th: Thread): Thread
    requires Searching(th.pc) ==> th.pc.left <= |s.threads|
    requires th.pc.LoadActive? || th.pc.LoadEpoch? ==> th.pc.left > 0
  {
    match th.pc
    case StoreEpoch(g) => th.(epoch := g, pc := SetActive)
    case SetActive => th.(active := true, section := th.section + 1, pc := In)
    case LoadInUse(first, left, min) =>
      if left == 0 then th.(pc := if min.None? then NoneActive(first) else Found(first, min.value))
      else th.(pc := if s.threads[left - 1].inUse then LoadActive(first, left, min) else LoadInUse(first, left - 1, min))
    case LoadActive(first, left, min) =>
      th.(pc := if s.threads[left - 1].active then LoadEpoch(first, left, min) else LoadInUse(first, left - 1, min))
    case LoadEpoch(first, left, min) =>
      th.(pc := LoadInUse(first, left - 1, Smaller(min, s.threads[left - 1].epoch)))
    case NoneActive(first) => th.(pc := Found(first, s.global))
    case Compare(found) => th.(pc := if found == s.global then Bump else SecondSearch(s))
    case Bump => th.(pc := SecondSearch(s))
    case Delete(safe) => th.(retired := Kept(th.retired, KeepFrom(safe)), pc := Out)
    case _ => th
  }

  function Do(s: State, step: Step): State
    requires Enabled(s, step)
  {
    match step
    case AttachNew => s.(threads := s.threads + [Thread(true, false, 0, Out, [], 0)])
    case AttachOld(t) => s.(threads := s.threads[t := s.threads[t].(inUse := true, active := false, pc := Out)])
    case Detach(t) =>
      s.(threads := s.threads[t := s.threads[t].(inUse := false, active := false, retired := [], pc := Detached)])
    case Enter(t) => s.(threads := s.threads[t := s.threads[t].(pc := StoreEpoch(s.global))])
    case Leave(t) => s.(threads := s.threads[t := s.threads[t].(active := false, pc := Out)])
    case Retire(t, p) =>
      var e := Entry(p, s.global, Running(s.threads));
      s.(threads := s.threads[t := s.threads[t].(retired := s.threads[t].retired + [e])])
    case TickStart(t) =>
      s.(threads := s.threads[t := s.threads[t].(pc := LoadInUse(true, |s.threads|, None))])
    case Go(t) =>
      s.(threads := s.threads[t := Gone(s, s.threads[t])],
         global := if s.threads[t].pc.Bump? then s.global + 1 else s.global)
  }

  /** Does this tick hand entry `e` of its thread to the deleter? */
  predicate Deletes(s: State, step: Step, e: Entry)
    requires Enabled(s, step)
  {
    step.Go? && e in s.threads[step.t].retired && e !in Do(s, step).threads[step.t].retired
  }

  // ---- Invariant ---------------------------------------------------------------------------

  /** The section is still under way. */
  predicate StillIn(threads: seq<Thread>, b: (nat, nat)) {
    b.0 < |threads| && threads[b.0].active && threads[b.0].section == b.1
  }

  ghost predicate ThreadOk(th: Thread, global: nat) {
    && (forall e | e in th.retired :: e.epoch <= global)
    && (th.active <==> th.pc.In?) && (th.inUse <==> !th.pc.Detached?)
    && th.epoch <= global && (th.pc.StoreEpoch? ==> th.pc.g <= global)
  }

  /** A blocker that is still in announced an epoch no younger than the entry's. */
  predicate BlockerOk(threads: seq<Thread>, e: Entry, b: (nat, nat)) {
    && b.0 < |threads| && b.1 <= threads[b.0].section
    && (StillIn(threads, b) ==> threads[b.0].epoch <= e.epoch)
  }

  /** What the search has found so far, for a blocker of one of the thread's own entries. */
  predicate SearchOk(threads: seq<Thread>, pc: Pc, e: Entry, b: (nat, nat)) {
    StillIn(threads, b) ==>
      match pc
      case LoadInUse(_, left, min) => b.0 < left || (min.Some? && min.value <= e.epoch)
      case LoadActive(_, left, min) => b.0 < left || (min.Some? && min.value <= e.epoch)
      case LoadEpoch(_, left, min) => b.0 < left || (min.Some? && min.value <= e.epoch)
      case NoneActive(_) => false
      case Delete(safe) => safe <= e.epoch
      case _ => true
  }

  ghost predicate EntriesOk(threads: seq<Thread>, th: Thread) {
    forall e, b | e in th.retired && b in e.blockers :: BlockerOk(threads, e, b) && SearchOk(threads, th.pc, e, b)
  }

  predicate LeftOk(pc: Pc, n: nat) {
    && (Searching(pc) ==> pc.left <= n)
    && (pc.LoadActive? || pc.LoadEpoch? ==> pc.left > 0)
  }

  ghost predicate Inv(s: State) {
    && (forall t | 0 <= t < |s.threads| :: ThreadOk(s.threads[t], s.global) && LeftOk(s.threads[t].pc, |s.threads|))
    && (forall t | 0 <= t < |s.threads| :: EntriesOk(s.threads, s.threads[t]))
  }

  /** A step of thread `t` is no news to the others' entries if it keeps or ends its section. */
  predicate NoNews(a: Thread, b: Thread) {
    a.section <= b.section && (b.active && b.section == a.section ==> a.active && b.epoch == a.epoch)
  }

  lemma OthersKeep(threads: seq<Thread>, t: nat, th: Thread, other: Thread)
    requires t < |threads| && NoNews(threads[t], th) && EntriesOk(threads, other)
    ensures EntriesOk(threads[t := th], other)
  {
    var threads' := threads[t := th];
    forall e, b | e in other.retired && b in e.blockers
      ensures BlockerOk(threads', e, b) && SearchOk(threads', other.pc, e, b)
    {
      assert BlockerOk(threads, e, b) && SearchOk(threads, other.pc, e, b);
      assert StillIn(threads', b) ==> StillIn(threads, b);
    }
  }

  /** One thread moves: its own entries have to be looked at, the others' follow. */
  lemma MoveKeeps(s: State, t: nat, th: Thread, global: nat)
    requires Inv(s) && t < |s.threads| && global >= s.global && ThreadOk(th, global) && LeftOk(th.pc, |s.threads|)
    requires NoNews(s.threads[t], th) && EntriesOk(s.threads, th)
    ensures Inv(State(global, s.threads[t := th]))
  {
    hide EntriesOk, NoNews;
    var s' := State(global, s.threads[t := th]);
    forall u | 0 <= u < |s'.threads| ensures EntriesOk(s'.threads, s'.threads[u]) {
      OthersKeep(s.threads, t, th, s'.threads[u]);
    }
  }

  /** The same entries, and a search that knows as much. */
  lemma SameEntries(threads: seq<Thread>, th: Thread, th': Thread)
    requires EntriesOk(threads, th) && th'.retired == th.retired
    requires forall e, b: (nat, nat) | BlockerOk(threads, e, b) && SearchOk(threads, th.pc, e, b) ::
               SearchOk(threads, th'.pc, e, b)
    ensures EntriesOk(threads, th')
  {
  }

  lemma GoKeepsEntries(s: State, t: nat)
    requires Inv(s) && Enabled(s, Go(t)) && !s.threads[t].pc.Delete?
    ensures EntriesOk(s.threads, Gone(s, s.threads[t]))
  {
    hide Kept;
    var th := s.threads[t];
    var th' := Gone(s, th);
    forall e, b: (nat, nat) | BlockerOk(s.threads, e, b) && SearchOk(s.threads, th.pc, e, b)
      ensures SearchOk(s.threads, th'.pc, e, b)
    {
      assert b.0 < |s.threads| && ThreadOk(s.threads[b.0], s.global);
    }
    assert EntriesOk(s.threads, th);
    SameEntries(s.threads, th, th');
  }

  lemma GoKeeps(s: State, t: nat)
    requires Inv(s) && Enabled(s, Go(t))
    ensures Inv(Do(s, Go(t)))
  {
    hide Kept, EntriesOk;
    var th := s.threads[t];
    if th.pc.Delete? {
      KeptAndDropped(th.retired, KeepFrom(th.pc.safe));
      DeleteKeepsEntries(s.threads, th, Gone(s, th));
    } else {
      GoKeepsEntries(s, t);
    }
    MoveKeeps(s, t, Gone(s, th), Do(s, Go(t)).global);
  }

  lemma DeleteKeepsEntries(threads: seq<Thread>, th: Thread, th': Thread)
    requires EntriesOk(threads, th) && th.pc.Delete? && th'.pc.Out?
    requires th'.retired == Kept(th.retired, KeepFrom(th.pc.safe))
    ensures EntriesOk(threads, th')
  {
    KeptAndDropped(th.retired, KeepFrom(th.pc.safe));
  }

  lemma RetireKeeps(s: State, t: nat, p: nat)
    requires Inv(s) && Enabled(s, Retire(t, p))
    ensures Inv(Do(s, Retire(t, p)))
  {
    var th, th' := s.threads[t], Do(s, Retire(t, p)).threads[t];
    var added := Entry(p, s.global, Running(s.threads));
    assert EntriesOk(s.threads, th);
    forall e, b | e in th'.retired && b in e.blockers
      ensures BlockerOk(s.threads, e, b) && SearchOk(s.threads, th'.pc, e, b)
    {
      if e == added {
        assert b.0 < |s.threads| && ThreadOk(s.threads[b.0], s.global);
      }
    }
    hide EntriesOk, Running;
    MoveKeeps(s, t, th', s.global);
  }

  lemma AttachNewKeeps(s: State)
    requires Inv(s)
    ensures Inv(Do(s, AttachNew))
  {
    var s' := Do(s, AttachNew);
    forall t | 0 <= t < |s'.threads| ensures EntriesOk(s'.threads, s'.threads[t]) {
      forall e, b | e in s'.threads[t].retired && b in e.blockers
        ensures BlockerOk(s'.threads, e, b) && SearchOk(s'.threads, s'.threads[t].pc, e, b)
      {
        assert EntriesOk(s.threads, s.threads[t]) && BlockerOk(s.threads, e, b);
        assert StillIn(s'.threads, b) ==> StillIn(s.threads, b);
      }
    }
  }

  lemma SimpleKeeps(s: State, step: Step)
    requires Inv(s) && Enabled(s, step)
    requires step.AttachOld? || step.Detach? || step.Enter? || step.Leave? || step.TickStart?
    ensures Inv(Do(s, step))
  {
    var th, th' := s.threads[step.t], Do(s, step).threads[step.t];
    assert EntriesOk(s.threads, th);
    if step.Detach? {
      assert EntriesOk(s.threads, th');
    } else {
      SameEntries(s.threads, th, th');
    }
    hide EntriesOk;
    MoveKeeps(s, step.t, th', s.global);
  }

  lemma StepKeepsInv(s: State, step: Step)
    requires Inv(s) && Enabled(s, step)
    ensures Inv(Do(s, step))
  {
    hide Inv, Enabled, Do;
    match step
    case AttachNew => AttachNewKeeps(s);
    case Retire(t, p) => RetireKeeps(s, t, p);
    case Go(t) => GoKeeps(s, t);
    case _ => SimpleKeeps(s, step);
  }

  /** A thread inside an operation can always go on. */
  lemma NeverStuck(s: State, t: nat)
    requires Inv(s) && t < |s.threads|
    ensures s.threads[t].pc.Detached? || s.threads[t].pc.Out? || s.threads[t].pc.In? || Enabled(s, Go(t))
  {
  }

  // ---- Whole runs ----------------------------------------------------------------------------

  ghost predicate Run(steps: seq<Step>, states: seq<State>) {
    && |states| == |steps| + 1 && states[0] == Init()
    && forall i | 0 <= i < |steps| :: Enabled(states[i], steps[i]) && states[i + 1] == Do(states[i], steps[i])
  }

  lemma {:induction false} RunKeepsInv(steps: seq<Step>, states: seq<State>, k: nat)
    requires Run(steps, states) && k < |states|
    ensures Inv(states[k])
  {
    hide Enabled, Do;
    if k > 0 {
      RunKeepsInv(steps, states, k - 1);
      StepKeepsInv(states[k - 1], steps[k - 1]);
    }
  }

  /** An entry is deleted only when every section that ran at its retirement is over. */
  lemma GracePeriod(steps: seq<Step>, states: seq<State>, k: nat, e: Entry, b: (nat, nat))
    requires Run(steps, states) && k < |steps| && Deletes(states[k], steps[k], e) && b in e.blockers
    ensures !StillIn(states[k].threads, b)
  {
    hide Kept;
    RunKeepsInv(steps, states, k);
    var th := states[k].threads[steps[k].t];
    assert EntriesOk(states[k].threads, th);
    if th.pc.Delete? {
      KeptAndDropped(th.retired, KeepFrom(th.pc.safe));
    }
  }

  /** The blockers of a new entry are exactly the sections that are running. */
  lemma RetireRecordsReaders(s: State, t: nat, p: nat)
    requires Enabled(s, Retire(t, p))
    ensures var list := Do(s, Retire(t, p)).threads[t].retired;
            && list != []
            && forall b :: b in list[|list| - 1].blockers <==> StillIn(s.threads, b)
  {
  }

  // ---- A tick that nobody disturbs ---------------------------------------------------------------

  /** `n` steps of thread `t` lead from `s` to `s'`. */
  ghost predicate Steps(s: State, t: nat, n: nat, s': State)
    decreases n
  {
    if n == 0 then s' == s else Enabled(s, Go(t)) && Steps(Do(s, Go(t)), t, n - 1, s')
  }

  function WithPc(s: State, t: nat, pc: Pc): State
    requires t < |s.threads|
  {
    s.(threads := s.threads[t := s.threads[t].(pc := pc)])
  }

  predicate NobodyActive(s: State) {
    forall u | 0 <= u < |s.threads| :: !s.threads[u].active
  }

  /** The oldest announced epoch among the first `left` threads and `min`. */
  function Oldest(threads: seq<Thread>, left: nat, min: Option<nat>): Option<nat>
    requires left <= |threads|
  {
    if left == 0 then min
    else Oldest(threads, left - 1, if threads[left - 1].inUse && threads[left - 1].active
                                   then Smaller(min, threads[left - 1].epoch) else min)
  }

  lemma {:induction false} OldestIsLeast(threads: seq<Thread>, left: nat, min: Option<nat>)
    requires left <= |threads|
    ensures var o := Oldest(threads, left, min);
            && (min.Some? ==> o.Some? && o.value <= min.value)
            && (forall u | 0 <= u < left && threads[u].inUse && threads[u].active :: o.Some? && o.value <= threads[u].epoch)
            && (o == min || exists u :: 0 <= u < left && threads[u].inUse && threads[u].active && o == Some(threads[u].epoch))
  {
    if left > 0 {
      var th := threads[left - 1];
      OldestIsLeast(threads, left - 1, if th.inUse && th.active then Smaller(min, th.epoch) else min);
    }
  }

  lemma {:induction false} OldestLooksAtWords(a: seq<Thread>, b: seq<Thread>, left: nat, min: Option<nat>)
    requires left <= |a| == |b|
    requires forall u | 0 <= u < |a| :: a[u].inUse == b[u].inUse && a[u].active == b[u].active && a[u].epoch == b[u].epoch
    ensures Oldest(a, left, min) == Oldest(b, left, min)
  {
    if left > 0 {
      OldestLooksAtWords(a, b, left - 1, if a[left - 1].inUse && a[left - 1].active
                                         then Smaller(min, a[left - 1].epoch) else min);
    }
  }

  /** A search that nobody disturbs finds the oldest announced epoch. */
  lemma {:induction false} SearchAlone(s: State, t: nat, first: bool, left: nat, min: Option<nat>) returns (n: nat)
    requires t < |s.threads| && s.threads[t].pc == LoadInUse(first, left, min) && left <= |s.threads|
    ensures Steps(s, t, n, WithPc(s, t, LoadInUse(first, 0, Oldest(s.threads, left, min))))
    decreases left
  {
    hide Steps;
    var goal := WithPc(s, t, LoadInUse(first, 0, Oldest(s.threads, left, min)));
    if left == 0 {
      NoSteps(s, t);
      assert goal == s;
      return 0;
    }
    var th := s.threads[left - 1];
    var min' := if th.inUse && th.active then Smaller(min, th.epoch) else min;
    var next := WithPc(s, t, LoadInUse(first, left - 1, min'));
    n := SearchAlone(next, t, first, left - 1, min');
    OldestLooksAtWords(s.threads, next.threads, left - 1, min');
    assert WithPc(next, t, LoadInUse(first, 0, Oldest(s.threads, left, min))) == goal;
    var m := LookAtThread(s, t, first, left, min);
    StepsCompose(s, t, m, next, n, goal);
    n := m + n;
  }

  /** Looking at one thread takes one to three loads. */
  lemma LookAtThread(s: State, t: nat, first: bool, left: nat, min: Option<nat>) returns (n: nat)
    requires t < |s.threads| && s.threads[t].pc == LoadInUse(first, left, min) && 0 < left <= |s.threads|
    ensures var th := s.threads[left - 1];
            var min' := if th.inUse && th.active then Smaller(min, th.epoch) else min;
            Steps(s, t, n, WithPc(s, t, LoadInUse(first, left - 1, min')))
  {
    hide Steps;
    var th := s.threads[left - 1];
    var b := Do(s, Go(t));
    NoSteps(s, t);
    AddStep(s, t, 0, s);
    n := 1;
    if th.inUse {
      assert b == WithPc(s, t, LoadActive(first, left, min));
      AddStep(s, t, 1, b);
      b := Do(b, Go(t));
      n := 2;
      if th.active {
        assert b == WithPc(s, t, LoadEpoch(first, left, min));
        AddStep(s, t, 2, b);
        b := Do(b, Go(t));
        n := 3;
      }
    }
    assert b == WithPc(s, t, LoadInUse(first, left - 1, if th.inUse && th.active then Smaller(min, th.epoch) else min));
  }

  lemma NoSteps(s: State, t: nat)
    ensures Steps(s, t, 0, s)
  {
  }

  lemma {:induction false} StepsCompose(a: State, t: nat, n: nat, b: State, m: nat, c: State)
    requires Steps(a, t, n, b) && Steps(b, t, m, c)
    ensures Steps(a, t, n + m, c)
    decreases n
  {
    if n > 0 {
      StepsCompose(Do(a, Go(t)), t, n - 1, b, m, c);
    }
  }

  lemma AddStep(a: State, t: nat, n: nat, b: State)
    requires Steps(a, t, n, b) && Enabled(b, Go(t))
    ensures Steps(a, t, n + 1, Do(b, Go(t)))
  {
    var c := Do(b, Go(t));
    NoSteps(c, t);
    assert Steps(b, t, 1, c) by {
      assert Steps(Do(b, Go(t)), t, 0, c);
    }
    StepsCompose(a, t, n, b, 1, c);
  }

  /** What a search that nobody disturbs results in. */
  function SearchResult(s: State): nat {
    var o := Oldest(s.threads, |s.threads|, None);
    if o.None? then s.global else o.value
  }

  lemma SearchEnds(s: State, t: nat, first: bool) returns (n: nat)
    requires At(s, t, LoadInUse(first, |s.threads|, None))
    ensures Steps(s, t, n, WithPc(s, t, Found(first, SearchResult(s))))
  {
    hide Steps, Oldest;
    n := SearchAlone(s, t, first, |s.threads|, None);
    var b := WithPc(s, t, LoadInUse(first, 0, Oldest(s.threads, |s.threads|, None)));
    AddStep(s, t, n, b);
    b := Do(b, Go(t));
    n := n + 1;
    if b.threads[t].pc.NoneActive? {
      assert b == WithPc(s, t, NoneActive(first));
      AddStep(s, t, n, b);
      b := Do(b, Go(t));
      n := n + 1;
    }
    assert b == WithPc(s, t, Found(first, SearchResult(s)));
  }

  /** The epoch after the first search. */
  function NextGlobal(s: State): nat {
    if SearchResult(s) == s.global then s.global + 1 else s.global
  }

  lemma FirstSearchAlone(s: State, t: nat) returns (n: nat)
    requires At(s, t, LoadInUse(true, |s.threads|, None))
    ensures Steps(s, t, n, WithPc(s, t, SecondSearch(s)).(global := NextGlobal(s)))
  {
    hide Steps, SearchResult;
    n := SearchEnds(s, t, true);
    var b := WithPc(s, t, Compare(SearchResult(s)));
    AddStep(s, t, n, b);
    b := Do(b, Go(t));
    n := n + 1;
    if b.threads[t].pc.Bump? {
      assert b == WithPc(s, t, Bump);
      AddStep(s, t, n, b);
      b := Do(b, Go(t));
      n := n + 1;
    }
    assert b == WithPc(s, t, SecondSearch(s)).(global := NextGlobal(s));
  }

  lemma SecondSearchAlone(s: State, t: nat) returns (n: nat, s': State)
    requires At(s, t, SecondSearch(s))
    ensures Steps(s, t, n, s') && s'.global == s.global && t < |s'.threads| && s'.threads[t].pc.Out?
    ensures s'.threads[t].retired == Kept(s.threads[t].retired, KeepFrom(SearchResult(s)))
  {
    hide Steps, Kept, SearchResult;
    n := SearchEnds(s, t, false);
    var c := WithPc(s, t, Delete(SearchResult(s)));
    AddStep(s, t, n, c);
    s' := Do(c, Go(t));
    n := n + 1;
  }

  /** Somebody is in a section that announced this epoch or an older one. */
  ghost predicate Blocked(s: State, epoch: nat) {
    exists u :: 0 <= u < |s.threads| && s.threads[u].active && s.threads[u].epoch <= epoch
  }

  /** The second search tells exactly the blocked epochs from the others. */
  lemma ResultSeparates(s: State, b: State, epoch: nat)
    requires Inv(s) && epoch <= s.global && |b.threads| == |s.threads| && b.global == NextGlobal(s)
    requires forall u | 0 <= u < |s.threads| ::
               b.threads[u].inUse == s.threads[u].inUse && b.threads[u].active == s.threads[u].active
               && b.threads[u].epoch == s.threads[u].epoch
    ensures epoch >= SearchResult(b) <==> Blocked(s, epoch)
  {
    hide EntriesOk;
    OldestLooksAtWords(s.threads, b.threads, |s.threads|, None);
    OldestIsLeast(s.threads, |s.threads|, None);
    forall u | 0 <= u < |s.threads| && s.threads[u].active ensures s.threads[u].inUse {
      assert ThreadOk(s.threads[u], s.global);
    }
  }

  /**
    A tick that nobody disturbs deletes exactly the entries of its thread that no section under
    way is as old as; readers that announced a younger epoch do not hold it up.
   */
  lemma UndisturbedTick(s: State, t: nat) returns (n: nat, s': State)
    requires Inv(s) && At(s, t, Out)
    ensures Steps(Do(s, TickStart(t)), t, n, s') && t < |s'.threads| && s'.threads[t].pc.Out?
    ensures s'.global == NextGlobal(s)
    ensures forall e | e in s.threads[t].retired :: e in s'.threads[t].retired <==> Blocked(s, e.epoch)
    ensures forall e | e in s'.threads[t].retired :: e in s.threads[t].retired
  {
    hide Steps, Kept, SearchResult, Blocked, EntriesOk;
    var begin := Do(s, TickStart(t));
    var b := WithPc(begin, t, SecondSearch(begin)).(global := NextGlobal(begin));
    n := FirstSearchAlone(begin, t);
    var m;
    m, s' := SecondSearchAlone(b, t);
    StepsCompose(begin, t, n, b, m, s');
    n := n + m;
    KeptAndDropped(s.threads[t].retired, KeepFrom(SearchResult(b)));
    SameResult(s, begin);
    assert ThreadOk(s.threads[t], s.global);
    forall e | e in s.threads[t].retired ensures e in s'.threads[t].retired <==> Blocked(s, e.epoch) {
      ResultSeparates(s, b, e.epoch);
    }
  }

  lemma SameResult(s: State, b: State)
    requires |b.threads| == |s.threads| && b.global == s.global
    requires forall u | 0 <= u < |s.threads| ::
               b.threads[u].inUse == s.threads[u].inUse && b.threads[u].active == s.threads[u].active
               && b.threads[u].epoch == s.threads[u].epoch
    ensures SearchResult(b) == SearchResult(s)
  {
    OldestLooksAtWords(s.threads, b.threads, |s.threads|, None);
  }

  /** When no thread is in a section, one undisturbed tick deletes all of the thread's entries. */
  lemma UndisturbedTickFreesAll(s: State, t: nat) returns (n: nat, s': State)
    requires Inv(s) && At(s, t, Out) && NobodyActive(s)
    ensures Steps(Do(s, TickStart(t)), t, n, s') && s'.global == s.global + 1
    ensures t < |s'.threads| && s'.threads[t].retired == [] && s'.threads[t].pc.Out?
  {
    n, s' := UndisturbedTick(s, t);
    HasMember(s'.threads[t].retired);
    OldestIsLeast(s.threads, |s.threads|, None);
  }

  lemma HasMember(list: seq<Entry>)
    ensures list != [] ==> exists e :: e in list
  {
    if list != [] {
      assert list[0] in list;
    }
  }

  // ---- Which epoch a section announces -----------------------------------------------------------

  /** The thread is entering a section, or in it. */
  predicate Entering(th: Thread) { th.pc.StoreEpoch? || th.pc.SetActive? || th.pc.In? }

  function Announced(th: Thread): nat { if th.pc.StoreEpoch? then th.pc.g else th.epoch }

  lemma StepAnnounces(s: State, step: Step, t: nat)
    requires Enabled(s, step) && t < |Do(s, step).threads| && Entering(Do(s, step).threads[t])
    ensures t < |s.threads|
    ensures if step == Enter(t) then Announced(Do(s, step).threads[t]) == s.global
            else Entering(s.threads[t]) && Announced(Do(s, step).threads[t]) == Announced(s.threads[t])
  {
    hide Kept;
  }

  /** A section announces the global epoch at the moment of its `Enter`, the last one of its thread. */
  lemma {:induction false} EpochIsGlobalAtEnter(steps: seq<Step>, states: seq<State>, k: nat, t: nat) returns (b: nat)
    requires Run(steps, states) && k < |states| && t < |states[k].threads| && Entering(states[k].threads[t])
    ensures b < k && steps[b] == Enter(t) && Announced(states[k].threads[t]) == states[b].global
    ensures forall i | b < i < k :: steps[i] != Enter(t)
    decreases k
  {
    hide Enabled, Do;
    StepAnnounces(states[k - 1], steps[k - 1], t);
    if steps[k - 1] == Enter(t) {
      return k - 1;
    }
    b := EpochIsGlobalAtEnter(steps, states, k - 1, t);
  }

  lemma {:induction false} GlobalGrows(steps: seq<Step>, states: seq<State>, i: nat, k: nat)
    requires Run(steps, states) && i <= k < |states|
    ensures states[i].global <= states[k].global
    decreases k
  {
    if i < k {
      GlobalGrows(steps, states, i, k - 1);
    }
  }

  /**
    Young readers do not hold up an old entry: if the global epoch had passed the entry's at `j`
    and every section under way at `k` was entered since, an undisturbed tick at `k` deletes it.
   */
  lemma YoungReadersDoNotBlock(steps: seq<Step>, states: seq<State>, j: nat, k: nat, t: nat, e: Entry)
    returns (n: nat, s': State)
    requires Run(steps, states) && j <= k < |states| && At(states[k], t, Out) && e in states[k].threads[t].retired
    requires e.epoch < states[j].global
    requires forall u | 0 <= u < |states[k].threads| && states[k].threads[u].active ::
               exists i :: j <= i < k && steps[i] == Enter(u)
    ensures Steps(Do(states[k], TickStart(t)), t, n, s') && t < |s'.threads| && e !in s'.threads[t].retired
  {
    hide Enabled, Do, Steps, EntriesOk;
    RunKeepsInv(steps, states, k);
    n, s' := UndisturbedTick(states[k], t);
    forall u | 0 <= u < |states[k].threads| && states[k].threads[u].active ensures states[k].threads[u].epoch > e.epoch {
      assert ThreadOk(states[k].threads[u], states[k].global);
      var b := EpochIsGlobalAtEnter(steps, states, k, u);
      var i :| j <= i < k && steps[i] == Enter(u);
      GlobalGrows(steps, states, j, b);
    }
  }

  // ---- The loops -------------------------------------------------------------------------------

  /** What `quiesce_tick` deletes is what the loop drops; the rest stays, in order. */
  method Quiesce(list: array<Entry>, safe: nat) returns (w: nat, deleted: seq<Entry>)
    modifies list
    ensures w <= list.Length && list[..w] == Kept(old(list[..]), KeepFrom(safe))
    ensures multiset(list[..w]) + multiset(deleted) == multiset(old(list[..]))
    ensures forall e :: e in deleted <==> e in old(list[..]) && e.epoch < safe
  {
    hide Kept;
    w, deleted := Compact(list, KeepFrom(safe));
    KeptAndDropped(old(list[..]), KeepFrom(safe));
    KeptAndDropped(old(list[..]), Not(KeepFrom(safe)));
  }

  /** `min_active_epoch` when nobody interferes: the oldest announced epoch, or the global one. */
  method MinActiveEpoch(threads: seq<Thread>, global: nat) returns (m: nat)
    ensures forall t | 0 <= t < |threads| && threads[t].inUse && threads[t].active :: m <= threads[t].epoch
    ensures (m == global && forall t | 0 <= t < |threads| :: !(threads[t].inUse && threads[t].active))
            || exists t :: 0 <= t < |threads| && threads[t].inUse && threads[t].active && threads[t].epoch == m
  {
    var min: Option<nat> := None;
    var left := |threads|;
    while left > 0
      invariant 0 <= left <= |threads|
      invariant forall t | left <= t < |threads| && threads[t].inUse && threads[t].active ::
                  min.Some? && min.value <= threads[t].epoch
      invariant min.Some? ==>
                  exists t :: 0 <= t < |threads| && threads[t].inUse && threads[t].active && threads[t].epoch == min.value
    {
      left := left - 1;
      if threads[left].inUse && threads[left].active {
        min := Smaller(min, threads[left].epoch);
      }
    }
    m := if min.None? then global else min.value;
  }

  // ---- Sections and threads ------------------------------------------------------------------------

  /** Entering opens a new section with the global epoch, and leaving ends it. */
  lemma SectionOpensAndCloses(s: State, t: nat)
    requires At(s, t, Out)
    ensures var s1 := Do(s, Enter(t));
            && Enabled(s1, Go(t))
            && var s2 := Do(s1, Go(t));
            && Enabled(s2, Go(t))
            && var s3 := Do(s2, Go(t));
            && At(s3, t, In) && s3.threads[t].epoch == s.global && StillIn(s3.threads, (t, s.threads[t].section + 1))
            && var s4 := Do(s3, Leave(t));
               At(s4, t, Out) && !StillIn(s4.threads, (t, s.threads[t].section + 1))
  {
  }

  /** A thread that attaches, anew or in a state that was given up, is in use and outside; one that detaches is not. */
  lemma AttachAndDetach(s: State, t: nat)
    ensures At(Do(s, AttachNew), |s.threads|, Out) && Do(s, AttachNew).threads[|s.threads|].inUse
    ensures At(s, t, Detached) ==> At(Do(s, AttachOld(t)), t, Out) && Do(s, AttachOld(t)).threads[t].inUse
    ensures At(s, t, Out) ==> At(Do(s, Detach(t)), t, Detached) && !Do(s, Detach(t)).threads[t].inUse
                              && Do(s, Detach(t)).threads[t].retired == []
  {
  }
}
