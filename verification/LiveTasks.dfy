/**
  Counting live tasks: a task adds 1 to its own state and to every ancestor when it is spawned,
  one by one, and takes it back when it completes; a scope's `join` sleeps until its count is 0.
  One atomic operation or one locked section per step.
 */
module LiveTasks {
  import opened Wrappers
  import opened Lists

  /** What the task that owns a state does next; `at` is the state of the chain it has come to. */
  datatype Pc =
    | NoTask                 // a scope, or a task not spawned yet
    | Retaining(at: Option<nat>)
    | Running
    | Dropping(at: Option<nat>)
    | WakeCheck(s: nat)      // the count of s came down to 0: are there join waiters?
    | WakeLock(s: nat)       // lock the list of s, read the count again, wake all
    | Done

  /** `held` is history: the states that the task counts in. */
  datatype Task = Task(pc: Pc, held: set<nat>)

  /** What a caller of `join` does next. */
  datatype JoinPc = Push | Recheck | Withdraw | Parked | Returned

  datatype Joiner = Joiner(s: nat, pc: JoinPc)

  datatype State = State(
    parents: seq<Option<nat>>,
    live: seq<nat>,
    lists: seq<seq<nat>>,    // join waiters by state
    tasks: seq<Task>,
    joiners: seq<Joiner>
  )

  datatype Step =
    | NewState(parent: Option<nat>) | Spawn(t: nat) | Retain(t: nat) | Complete(t: nat) | Drop(t: nat)
    | CheckWaiters(t: nat) | WakeWaiters(t: nat)
    | Join(s: nat) | JoinPush(j: nat) | JoinRecheck(j: nat) | JoinRemove(j: nat) | JoinResume(j: nat)

  function Init(): State { State([], [], [], [], []) }

  predicate Sized(s: State) {
    |s.live| == |s.parents| && |s.lists| == |s.parents| && |s.tasks| == |s.parents|
  }

  predicate IsAt(s: State, t: nat, pc: Pc) { t < |s.tasks| && s.tasks[t].pc == pc }

  predicate JoinAt(s: State, j: nat, pc: JoinPc) {
    j < |s.joiners| && s.joiners[j].pc == pc && s.joiners[j].s < |s.lists|
  }

  predicate Enabled(s: State, step: Step) {
    && Sized(s)
    && match step
       case NewState(parent) => parent.Some? ==> parent.value < |s.parents|
       case Spawn(t) => IsAt(s, t, NoTask)
       case Retain(t) => t < |s.tasks| && s.tasks[t].pc.Retaining? && InTree(s, s.tasks[t].pc.at)
       case Complete(t) => IsAt(s, t, Running)
       case Drop(t) =>
         && t < |s.tasks| && s.tasks[t].pc.Dropping? && InTree(s, s.tasks[t].pc.at)
         && (s.tasks[t].pc.at.Some? ==> s.live[s.tasks[t].pc.at.value] > 0)
       case CheckWaiters(t) => t < |s.tasks| && s.tasks[t].pc.WakeCheck? && s.tasks[t].pc.s < |s.parents|
       case WakeWaiters(t) => t < |s.tasks| && s.tasks[t].pc.WakeLock? && s.tasks[t].pc.s < |s.parents|
       case Join(n) => n < |s.parents|
       case JoinPush(j) => JoinAt(s, j, Push)
       case JoinRecheck(j) => JoinAt(s, j, Recheck)
       case JoinRemove(j) => JoinAt(s, j, Withdraw)
       case JoinResume(j) => JoinAt(s, j, Parked) && j !in s.lists[s.joiners[j].s]
  }

  predicate InTree(s: State, at: Option<nat>) { at.Some? ==> at.value < |s.parents| }

  function SetPc(s: State, t: nat, pc: Pc): State
    requires t < |s.tasks|
  {
    s.(tasks := s.tasks[t := s.tasks[t].(pc := pc)])
  }

  function SetJoin(s: State, j: nat, pc: JoinPc): State
    requires j < |s.joiners|
  {
    s.(joiners := s.joiners[j := s.joiners[j].(pc := pc)])
  }

  function Retained(s: State, t: nat): State
    requires Enabled(s, Retain(t))
  {
    match s.tasks[t].pc.at
    case None => SetPc(s, t, Running)
    case Some(n) =>
      s.(live := s.live[n := s.live[n] + 1],
         tasks := s.tasks[t := Task(Retaining(s.parents[n]), s.tasks[t].held + {n})])
  }

  function Dropped(s: State, t: nat): State
    requires Enabled(s, Drop(t))
  {
    match s.tasks[t].pc.at
    case None => SetPc(s, t, Done)
    case Some(n) =>
      s.(live := s.live[n := s.live[n] - 1],
         tasks := s.tasks[t := Task(if s.live[n] == 1 then WakeCheck(n) else Dropping(s.parents[n]), s.tasks[t].held - {n})])
  }

  function Do(s: State, step: Step): State
    requires Enabled(s, step)
  {
    match step
    case NewState(parent) =>
      s.(parents := s.parents + [parent], live := s.live + [0], lists := s.lists + [[]],
         tasks := s.tasks + [Task(NoTask, {})])
    case Spawn(t) => SetPc(s, t, Retaining(Some(t)))
    case Retain(t) => Retained(s, t)
    case Complete(t) => SetPc(s, t, Dropping(Some(t)))
    case Drop(t) => Dropped(s, t)
    case CheckWaiters(t) =>
      var n := s.tasks[t].pc.s;
      SetPc(s, t, if s.lists[n] == [] then Dropping(s.parents[n]) else WakeLock(n))
    case WakeWaiters(t) =>
      var n := s.tasks[t].pc.s;
      var s' := SetPc(s, t, Dropping(s.parents[n]));
      if s.live[n] == 0 then s'.(lists := s.lists[n := []]) else s'
    case Join(n) => s.(joiners := s.joiners + [Joiner(n, if s.live[n] == 0 then Returned else Push)])
    case JoinPush(j) =>
      var n := s.joiners[j].s;
      SetJoin(s, j, Recheck).(lists := s.lists[n := s.lists[n] + [j]])
    case JoinRecheck(j) => SetJoin(s, j, if s.live[s.joiners[j].s] == 0 then Withdraw else Parked)
    case JoinRemove(j) =>
      var n := s.joiners[j].s;
      if j in s.lists[n] then SetJoin(s, j, Returned).(lists := s.lists[n := Remove(s.lists[n], j)])
      else SetJoin(s, j, Parked)
    case JoinResume(j) => SetJoin(s, j, Returned)
  }

  // ---- Chains --------------------------------------------------------------------------------

  predicate TreeOk(parents: seq<Option<nat>>) {
    forall n | 0 <= n < |parents| && parents[n].Some? :: parents[n].value < n
  }

  /** The state and all its ancestors. */
  function Chain(parents: seq<Option<nat>>, at: Option<nat>): set<nat>
    requires TreeOk(parents) && (at.Some? ==> at.value < |parents|)
    decreases if at.Some? then at.value + 1 else 0
  {
    if at.None? then {} else {at.value} + Chain(parents, parents[at.value])
  }

  lemma {:induction false} ChainIsOlder(parents: seq<Option<nat>>, at: Option<nat>)
    requires TreeOk(parents) && (at.Some? ==> at.value < |parents|)
    ensures forall n | n in Chain(parents, at) :: at.Some? && n <= at.value
    decreases if at.Some? then at.value + 1 else 0
  {
    if at.Some? {
      ChainIsOlder(parents, parents[at.value]);
    }
  }

  lemma {:induction false} ChainStays(parents: seq<Option<nat>>, parent: Option<nat>, at: Option<nat>)
    requires TreeOk(parents) && (at.Some? ==> at.value < |parents|) && TreeOk(parents + [parent])
    ensures Chain(parents + [parent], at) == Chain(parents, at)
    decreases if at.Some? then at.value + 1 else 0
  {
    if at.Some? {
      ChainStays(parents, parent, parents[at.value]);
    }
  }

  // ---- Invariant ---------------------------------------------------------------------------

  /** What the task counts in, by where it stands. */
  ghost predicate TaskOk(parents: seq<Option<nat>>, t: nat, task: Task)
    requires TreeOk(parents) && t < |parents|
  {
    var chain := Chain(parents, Some(t));
    match task.pc
    case NoTask => task.held == {}
    case Retaining(at) =>
      && (at.Some? ==> at.value < |parents|) && Chain(parents, at) <= chain
      && task.held == chain - Chain(parents, at)
    case Running => task.held == chain
    case Dropping(at) =>
      && (at.Some? ==> at.value < |parents|) && Chain(parents, at) <= chain
      && task.held == Chain(parents, at)
    case WakeCheck(n) => n < |parents| && Chain(parents, Some(n)) <= chain && task.held == Chain(parents, parents[n])
    case WakeLock(n) => n < |parents| && Chain(parents, Some(n)) <= chain && task.held == Chain(parents, parents[n])
    case Done => task.held == {}
  }

  ghost function Holders(tasks: seq<Task>, n: nat): set<nat> {
    set t | 0 <= t < |tasks| && n in tasks[t].held
  }

  ghost predicate CountsOk(s: State) {
    forall n | 0 <= n < |s.live| :: s.live[n] == |Holders(s.tasks, n)|
  }

  /** A completion at state `n` that has still to look after its join waiters. */
  predicate Waking(pc: Pc, n: nat) { pc == WakeCheck(n) || pc == WakeLock(n) }

  ghost predicate SomeoneWakes(tasks: seq<Task>, n: nat) {
    exists t :: 0 <= t < |tasks| && Waking(tasks[t].pc, n)
  }

  ghost predicate JoinersOk(s: State) {
    && (forall j | 0 <= j < |s.joiners| :: s.joiners[j].s < |s.lists|)
    && (forall n | 0 <= n < |s.lists| :: Distinct(s.lists[n]))
    && (forall n, j {:trigger j in s.lists[n]} | 0 <= n < |s.lists| && j in s.lists[n] ::
          j < |s.joiners| && s.joiners[j].s == n && !s.joiners[j].pc.Push? && !s.joiners[j].pc.Returned?)
  }

  /** Nobody sleeps past its recheck on a count of 0, unless a completion is about to see to it. */
  ghost predicate NoStuckJoin(s: State) {
    forall j | 0 <= j < |s.joiners| && s.joiners[j].pc.Parked? && s.joiners[j].s < |s.lists|
               && j in s.lists[s.joiners[j].s] && s.joiners[j].s < |s.live| && s.live[s.joiners[j].s] == 0 ::
      SomeoneWakes(s.tasks, s.joiners[j].s)
  }

  ghost predicate Inv(s: State) {
    && Sized(s) && TreeOk(s.parents)
    && (forall t | 0 <= t < |s.tasks| :: TaskOk(s.parents, t, s.tasks[t]))
    && CountsOk(s) && JoinersOk(s) && NoStuckJoin(s)
  }

  lemma HoldersMove(tasks: seq<Task>, t: nat, task: Task, n: nat)
    requires t < |tasks| && (n in task.held <==> n in tasks[t].held)
    ensures Holders(tasks[t := task], n) == Holders(tasks, n)
  {
  }

  lemma HoldersGrow(tasks: seq<Task>, t: nat, task: Task, n: nat)
    requires t < |tasks| && n in task.held && n !in tasks[t].held
    ensures |Holders(tasks[t := task], n)| == |Holders(tasks, n)| + 1
  {
    assert Holders(tasks[t := task], n) == Holders(tasks, n) + {t};
  }

  lemma HoldersShrink(tasks: seq<Task>, t: nat, task: Task, n: nat)
    requires t < |tasks| && n !in task.held && n in tasks[t].held
    ensures |Holders(tasks[t := task], n)| == |Holders(tasks, n)| - 1 && |Holders(tasks, n)| > 0
  {
    assert Holders(tasks[t := task], n) == Holders(tasks, n) - {t};
    assert t in Holders(tasks, n);
  }

  /** A task that counts where it did and wakes nobody new. */
  lemma SameCounts(s: State, t: nat, task: Task)
    requires CountsOk(s) && t < |s.tasks| && task.held == s.tasks[t].held
    ensures CountsOk(s.(tasks := s.tasks[t := task]))
  {
    forall n | 0 <= n < |s.live| ensures s.live[n] == |Holders(s.tasks[t := task], n)| {
      HoldersMove(s.tasks, t, task, n);
    }
  }

  lemma StillWoken(tasks: seq<Task>, t: nat, task: Task, n: nat)
    requires t < |tasks| && SomeoneWakes(tasks, n) && (Waking(tasks[t].pc, n) ==> Waking(task.pc, n))
    ensures SomeoneWakes(tasks[t := task], n)
  {
    var u :| 0 <= u < |tasks| && Waking(tasks[u].pc, n);
    assert Waking(tasks[t := task][u].pc, n);
  }

  lemma ChainStep(parents: seq<Option<nat>>, n: nat)
    requires TreeOk(parents) && n < |parents|
    ensures Chain(parents, Some(n)) == Chain(parents, parents[n]) + {n} && n !in Chain(parents, parents[n])
  {
    ChainIsOlder(parents, parents[n]);
  }

  /** A task moves on, and leaves nobody without a wake-up. */
  lemma PcKeeps(s: State, t: nat, pc: Pc)
    requires Inv(s) && t < |s.tasks| && TaskOk(s.parents, t, s.tasks[t].(pc := pc))
    requires forall n: nat | Waking(s.tasks[t].pc, n) && n < |s.lists| && s.lists[n] != [] :: Waking(pc, n)
    ensures Inv(SetPc(s, t, pc))
  {
    hide Chain, Holders, TaskOk;
    var s', task := SetPc(s, t, pc), s.tasks[t].(pc := pc);
    SameCounts(s, t, task);
    forall j | 0 <= j < |s'.joiners| && s'.joiners[j].pc.Parked? && j in s'.lists[s'.joiners[j].s]
               && s'.live[s'.joiners[j].s] == 0
      ensures SomeoneWakes(s'.tasks, s'.joiners[j].s)
    {
      StillWoken(s.tasks, t, task, s'.joiners[j].s);
    }
  }

  lemma MoveKeeps(s: State, step: Step)
    requires Inv(s) && Enabled(s, step)
    requires step.Spawn? || step.Complete? || (step.Retain? && s.tasks[step.t].pc.at.None?)
             || (step.Drop? && s.tasks[step.t].pc.at.None?)
    ensures Inv(Do(s, step))
  {
    hide Chain, CountsOk, JoinersOk, NoStuckJoin;
    var s', t := Do(s, step), step.t;
    assert TaskOk(s.parents, t, s.tasks[t]);
    ChainEmpty(s.parents);
    assert var chain := Chain(s.parents, Some(t)); chain - chain == {} && chain - {} == chain;
    PcKeeps(s, t, s'.tasks[t].pc);
  }

  lemma CheckKeeps(s: State, t: nat)
    requires Inv(s) && Enabled(s, CheckWaiters(t))
    ensures Inv(Do(s, CheckWaiters(t)))
  {
    hide Chain, CountsOk, JoinersOk, NoStuckJoin;
    assert TaskOk(s.parents, t, s.tasks[t]);
    ChainStep(s.parents, s.tasks[t].pc.s);
    PcKeeps(s, t, Do(s, CheckWaiters(t)).tasks[t].pc);
  }

  lemma ChainEmpty(parents: seq<Option<nat>>)
    requires TreeOk(parents)
    ensures Chain(parents, None) == {}
  {
  }

  lemma RetainKeeps(s: State, t: nat)
    requires Inv(s) && Enabled(s, Retain(t)) && s.tasks[t].pc.at.Some?
    ensures Inv(Do(s, Retain(t)))
  {
    hide Chain, Holders;
    var s', n := Do(s, Retain(t)), s.tasks[t].pc.at.value;
    assert TaskOk(s.parents, t, s.tasks[t]);
    ChainStep(s.parents, n);
    forall m | 0 <= m < |s'.live| ensures s'.live[m] == |Holders(s'.tasks, m)| {
      if m == n {
        HoldersGrow(s.tasks, t, s'.tasks[t], n);
      } else {
        HoldersMove(s.tasks, t, s'.tasks[t], m);
      }
    }
    forall j | 0 <= j < |s'.joiners| && s'.joiners[j].pc.Parked? && j in s'.lists[s'.joiners[j].s]
               && s'.live[s'.joiners[j].s] == 0
      ensures SomeoneWakes(s'.tasks, s'.joiners[j].s)
    {
      StillWoken(s.tasks, t, s'.tasks[t], s'.joiners[j].s);
    }
  }

  lemma DropKeeps(s: State, t: nat)
    requires Inv(s) && Enabled(s, Drop(t)) && s.tasks[t].pc.at.Some?
    ensures Inv(Do(s, Drop(t)))
  {
    hide Chain, Holders;
    var s', n := Do(s, Drop(t)), s.tasks[t].pc.at.value;
    assert TaskOk(s.parents, t, s.tasks[t]);
    ChainStep(s.parents, n);
    forall m | 0 <= m < |s'.live| ensures s'.live[m] == |Holders(s'.tasks, m)| {
      if m == n {
        HoldersShrink(s.tasks, t, s'.tasks[t], n);
      } else {
        HoldersMove(s.tasks, t, s'.tasks[t], m);
      }
    }
    forall j | 0 <= j < |s'.joiners| && s'.joiners[j].pc.Parked? && j in s'.lists[s'.joiners[j].s]
               && s'.live[s'.joiners[j].s] == 0
      ensures SomeoneWakes(s'.tasks, s'.joiners[j].s)
    {
      if s'.joiners[j].s == n {
        assert Waking(s'.tasks[t].pc, n);
      } else {
        StillWoken(s.tasks, t, s'.tasks[t], s'.joiners[j].s);
      }
    }
  }

  lemma WakeKeeps(s: State, t: nat)
    requires Inv(s) && Enabled(s, WakeWaiters(t))
    ensures Inv(Do(s, WakeWaiters(t)))
  {
    hide Chain, Holders;
    var s', n := Do(s, WakeWaiters(t)), s.tasks[t].pc.s;
    assert TaskOk(s.parents, t, s.tasks[t]);
    ChainStep(s.parents, n);
    SameCounts(s, t, s'.tasks[t]);
    forall j | 0 <= j < |s'.joiners| && s'.joiners[j].pc.Parked? && j in s'.lists[s'.joiners[j].s]
               && s'.live[s'.joiners[j].s] == 0
      ensures SomeoneWakes(s'.tasks, s'.joiners[j].s)
    {
      StillWoken(s.tasks, t, s'.tasks[t], s'.joiners[j].s);
    }
  }

  lemma NewStateKeeps(s: State, parent: Option<nat>)
    requires Inv(s) && Enabled(s, NewState(parent))
    ensures Inv(Do(s, NewState(parent)))
  {
    hide Chain;
    var s', k := Do(s, NewState(parent)), |s.parents|;
    forall t | 0 <= t < |s'.tasks| ensures TaskOk(s'.parents, t, s'.tasks[t]) {
      if t < k {
        assert TaskOk(s.parents, t, s.tasks[t]);
        KeepTaskOk(s.parents, parent, t, s.tasks[t]);
      }
    }
    forall n | 0 <= n < |s'.live| ensures s'.live[n] == |Holders(s'.tasks, n)| {
      if n < k {
        assert Holders(s'.tasks, n) == Holders(s.tasks, n);
      } else {
        NewTaskHoldsNothing(s, n);
        assert Holders(s'.tasks, n) == {};
      }
    }
    forall j | 0 <= j < |s'.joiners| && s'.joiners[j].pc.Parked? && j in s'.lists[s'.joiners[j].s]
               && s'.live[s'.joiners[j].s] == 0
      ensures SomeoneWakes(s'.tasks, s'.joiners[j].s)
    {
      var u :| 0 <= u < |s.tasks| && Waking(s.tasks[u].pc, s.joiners[j].s);
      assert Waking(s'.tasks[u].pc, s.joiners[j].s);
    }
  }

  lemma KeepTaskOk(parents: seq<Option<nat>>, parent: Option<nat>, t: nat, task: Task)
    requires TreeOk(parents) && t < |parents| && TaskOk(parents, t, task) && TreeOk(parents + [parent])
    ensures TaskOk(parents + [parent], t, task)
  {
    hide Chain;
    ChainStays(parents, parent, Some(t));
    match task.pc
    case Retaining(at) => ChainStays(parents, parent, at);
    case Dropping(at) => ChainStays(parents, parent, at);
    case WakeCheck(n) =>
      ChainStays(parents, parent, Some(n));
      ChainStays(parents, parent, parents[n]);
    case WakeLock(n) =>
      ChainStays(parents, parent, Some(n));
      ChainStays(parents, parent, parents[n]);
    case _ =>
  }

  /** No task counts in a state that does not exist yet. */
  lemma NewTaskHoldsNothing(s: State, n: nat)
    requires Inv(s) && n >= |s.parents|
    ensures forall t | 0 <= t < |s.tasks| :: n !in s.tasks[t].held
  {
    hide Chain;
    forall t | 0 <= t < |s.tasks| ensures n !in s.tasks[t].held {
      assert TaskOk(s.parents, t, s.tasks[t]);
      ChainIsOlder(s.parents, Some(t));
      if s.tasks[t].pc.WakeCheck? || s.tasks[t].pc.WakeLock? {
        ChainStep(s.parents, s.tasks[t].pc.s);
      }
    }
  }

  lemma JoinKeeps(s: State, step: Step)
    requires Inv(s) && Enabled(s, step) && (step.Join? || step.JoinRecheck? || step.JoinResume?)
    ensures Inv(Do(s, step))
  {
    hide TaskOk, CountsOk, SomeoneWakes;
    SameTasks(s, Do(s, step));
  }

  lemma SameTasks(s: State, s': State)
    requires CountsOk(s) && s'.live == s.live && s'.tasks == s.tasks
    ensures CountsOk(s')
  {
  }

  lemma JoinPushKeeps(s: State, j: nat)
    requires Inv(s) && Enabled(s, JoinPush(j))
    ensures Inv(Do(s, JoinPush(j)))
  {
    hide TaskOk, CountsOk, SomeoneWakes;
    var s', n := Do(s, JoinPush(j)), s.joiners[j].s;
    SameTasks(s, s');
    assert j !in s.lists[n] && forall x :: x in s'.lists[n] <==> x == j || x in s.lists[n];
  }

  lemma JoinRemoveKeeps(s: State, j: nat)
    requires Inv(s) && Enabled(s, JoinRemove(j))
    ensures Inv(Do(s, JoinRemove(j)))
  {
    hide TaskOk, CountsOk, SomeoneWakes, Remove;
    var s', n := Do(s, JoinRemove(j)), s.joiners[j].s;
    SameTasks(s, s');
    if j in s.lists[n] {
      RemoveFacts(s.lists[n], j);
    }
  }

  lemma StepKeepsInv(s: State, step: Step)
    requires Inv(s) && Enabled(s, step)
    ensures Inv(Do(s, step))
  {
    hide Inv, Do;
    match step
    case NewState(parent) => NewStateKeeps(s, parent);
    case Spawn(_) => MoveKeeps(s, step);
    case Complete(_) => MoveKeeps(s, step);
    case CheckWaiters(t) => CheckKeeps(s, t);
    case Retain(t) =>
      if s.tasks[t].pc.at.None? {
        MoveKeeps(s, step);
      } else {
        RetainKeeps(s, t);
      }
    case Drop(t) =>
      if s.tasks[t].pc.at.None? {
        MoveKeeps(s, step);
      } else {
        DropKeeps(s, t);
      }
    case WakeWaiters(t) => WakeKeeps(s, t);
    case JoinPush(j) => JoinPushKeeps(s, j);
    case JoinRemove(j) => JoinRemoveKeeps(s, j);
    case _ => JoinKeeps(s, step);
  }

  /** No count is ever taken below 0, and a chain never leaves the tree. */
  lemma NeverBelowZero(s: State, t: nat)
    requires Inv(s) && t < |s.tasks|
    ensures s.tasks[t].pc.Retaining? ==> Enabled(s, Retain(t))
    ensures s.tasks[t].pc.Dropping? ==> Enabled(s, Drop(t))
    ensures s.tasks[t].pc.WakeCheck? ==> Enabled(s, CheckWaiters(t))
    ensures s.tasks[t].pc.WakeLock? ==> Enabled(s, WakeWaiters(t))
  {
    hide Chain, JoinersOk, NoStuckJoin;
    assert TaskOk(s.parents, t, s.tasks[t]);
    if s.tasks[t].pc.Dropping? && s.tasks[t].pc.at.Some? {
      var n := s.tasks[t].pc.at.value;
      ChainStep(s.parents, n);
      assert t in Holders(s.tasks, n);
    }
  }

  // ---- Whole runs ----------------------------------------------------------------------------

  ghost predicate Run(steps: seq<Step>, states: seq<State>) {
    && |states| == |steps| + 1 && states[0] == Init()
    && forall i | 0 <= i < |steps| :: Enabled(states[i], steps[i]) && states[i + 1] == Do(states[i], steps[i])
  }

  lemma {:induction false} RunKeepsInv(steps: seq<Step>, states: seq<State>, k: nat)
    requires Run(steps, states) && k < |states|
    ensures Inv(states[k])
  {
    hide Enabled, Do;
    if k > 0 {
      RunKeepsInv(steps, states, k - 1);
      StepKeepsInv(states[k - 1], steps[k - 1]);
    }
  }

  /** The running tasks at or below state `n`. */
  ghost function TasksBelow(s: State, n: nat): set<nat>
    requires TreeOk(s.parents) && |s.tasks| == |s.parents|
  {
    set t | 0 <= t < |s.tasks| && s.tasks[t].pc.Running? && n in Chain(s.parents, Some(t))
  }

  predicate NobodyCounting(s: State) {
    forall t | 0 <= t < |s.tasks| :: s.tasks[t].pc.NoTask? || s.tasks[t].pc.Running? || s.tasks[t].pc.Done?
  }

  /**
    The count of a state is at every moment the number of tasks that count in it, and between
    spawns and completions that is the number of running tasks in its subtree.
   */
  lemma LiveCountsTheSubtree(steps: seq<Step>, states: seq<State>, k: nat, n: nat)
    requires Run(steps, states) && k < |states| && n < |states[k].parents|
    ensures TreeOk(states[k].parents) && |states[k].tasks| == |states[k].parents| == |states[k].live|
    ensures states[k].live[n] == |Holders(states[k].tasks, n)|
    ensures NobodyCounting(states[k]) ==> states[k].live[n] == |TasksBelow(states[k], n)|
  {
    hide Chain, JoinersOk, NoStuckJoin;
    RunKeepsInv(steps, states, k);
    var s := states[k];
    if NobodyCounting(s) {
      forall t | 0 <= t < |s.tasks| ensures t in Holders(s.tasks, n) <==> t in TasksBelow(s, n) {
        assert TaskOk(s.parents, t, s.tasks[t]);
      }
      assert Holders(s.tasks, n) == TasksBelow(s, n);
    }
  }

  /** A completion takes the task out of every count that it was in, and a spawn puts it in all. */
  lemma CountedInWholeChain(steps: seq<Step>, states: seq<State>, k: nat, t: nat)
    requires Run(steps, states) && k < |states| && t < |states[k].tasks|
    ensures TreeOk(states[k].parents) && t < |states[k].parents|
    ensures states[k].tasks[t].pc.Running? ==> states[k].tasks[t].held == Chain(states[k].parents, Some(t))
    ensures states[k].tasks[t].pc.Done? ==> states[k].tasks[t].held == {}
  {
    hide Chain;
    RunKeepsInv(steps, states, k);
    assert TaskOk(states[k].parents, t, states[k].tasks[t]);
  }

  /**
    Over every run: a join waiter that leaves its list, other than by taking itself out, was
    woken by a completion that is at its state, at a moment when the count is 0.
   */
  lemma WokenAtZero(steps: seq<Step>, states: seq<State>, k: nat, j: nat)
    requires Run(steps, states) && k < |steps| && j < |states[k].joiners| && steps[k] != JoinRemove(j)
    requires states[k].joiners[j].s < |states[k].lists| && j in states[k].lists[states[k].joiners[j].s]
    requires var n := states[k].joiners[j].s; n < |states[k + 1].lists| ==> j !in states[k + 1].lists[n]
    ensures var n := states[k].joiners[j].s;
            && n < |states[k].live| && states[k].live[n] == 0 && Holders(states[k].tasks, n) == {}
            && steps[k].WakeWaiters? && states[k].tasks[steps[k].t].pc == WakeLock(n)
  {
    hide TaskOk, SomeoneWakes;
    RunKeepsInv(steps, states, k);
    var s, n := states[k], states[k].joiners[j].s;
    if steps[k].JoinRemove? {
      var i := steps[k].j;
      if i in s.lists[s.joiners[i].s] {
        RemoveFacts(s.lists[s.joiners[i].s], i);
      }
    }
  }

  /** Nobody sleeps past its recheck at count 0, unless a completion is under way that will wake it. */
  lemma NoLostJoin(steps: seq<Step>, states: seq<State>, k: nat, j: nat)
    requires Run(steps, states) && k < |states| && j < |states[k].joiners| && states[k].joiners[j].pc.Parked?
    ensures var s := states[k];
            && s.joiners[j].s < |s.lists| && s.joiners[j].s < |s.live|
            && (j in s.lists[s.joiners[j].s] && s.live[s.joiners[j].s] == 0 ==> SomeoneWakes(s.tasks, s.joiners[j].s))
  {
    RunKeepsInv(steps, states, k);
  }

  // ---- Returning from join -----------------------------------------------------------------------

  /** The joiner has seen, or been told, that the count was 0. */
  predicate Settled(s: State, j: nat) {
    && j < |s.joiners| && s.joiners[j].s < |s.lists|
    && match s.joiners[j].pc
       case Push => false
       case Withdraw => true
       case Returned => true
       case _ => j !in s.lists[s.joiners[j].s]
  }

  lemma SettlesAtZero(s: State, step: Step, j: nat)
    requires Inv(s) && Enabled(s, step) && j < |s.joiners|
    ensures j < |Do(s, step).joiners| && Do(s, step).joiners[j].s == s.joiners[j].s < |s.live|
    ensures !Settled(s, j) && Settled(Do(s, step), j) ==> s.live[s.joiners[j].s] == 0
  {
    hide TaskOk, SomeoneWakes, Remove, CountsOk;
    if step.JoinRemove? && step.j in s.lists[s.joiners[step.j].s] {
      RemoveFacts(s.lists[s.joiners[step.j].s], step.j);
    }
  }

  lemma {:induction false} SettledSawZero(steps: seq<Step>, states: seq<State>, k: nat, j: nat) returns (b: nat, m: nat)
    requires Run(steps, states) && k < |states| && Settled(states[k], j)
    ensures b < k && steps[b] == Join(states[k].joiners[j].s) && |states[b].joiners| == j
    ensures b <= m <= k && var n := states[k].joiners[j].s;
              n < |states[m].live| && states[m].live[n] == 0 && Holders(states[m].tasks, n) == {}
    decreases k
  {
    hide Settled, TaskOk, Holders, JoinersOk, NoStuckJoin, SomeoneWakes;
    if k == 0 {
      NobodyJoinsYet(states[0], j);
    }
    var s, step := states[k - 1], steps[k - 1];
    RunKeepsInv(steps, states, k - 1);
    if j < |s.joiners| {
      SettlesAtZero(s, step, j);
      if Settled(s, j) {
        b, m := SettledSawZero(steps, states, k - 1, j);
      } else {
        b := JoinBegan(steps, states, k - 1, j);
        m := k - 1;
        ZeroHolders(s, s.joiners[j].s);
      }
    } else {
      JoinBegins(s, step, j);
      b, m := k - 1, k - 1;
      ZeroHolders(s, step.s);
    }
  }

  /**
    `join` does not return early: a joiner that has returned began with a `Join` at `b`, and at
    some moment `m` since then the count of its state was 0, so that no task counted there.
   */
  lemma ReturnedSawZero(steps: seq<Step>, states: seq<State>, k: nat, j: nat) returns (b: nat, m: nat)
    requires Run(steps, states) && k < |states| && j < |states[k].joiners| && states[k].joiners[j].pc.Returned?
    ensures b < k && steps[b] == Join(states[k].joiners[j].s) && |states[b].joiners| == j
    ensures b <= m <= k && var n := states[k].joiners[j].s;
              n < |states[m].live| && states[m].live[n] == 0 && Holders(states[m].tasks, n) == {}
  {
    RunKeepsInv(steps, states, k);
    b, m := SettledSawZero(steps, states, k, j);
  }

  lemma NobodyJoinsYet(s: State, j: nat)
    requires s == Init()
    ensures !Settled(s, j)
  {
  }

  lemma ZeroHolders(s: State, n: nat)
    requires CountsOk(s) && n < |s.live| && s.live[n] == 0
    ensures Holders(s.tasks, n) == {}
  {
  }

  lemma JoinBegins(s: State, step: Step, j: nat)
    requires Enabled(s, step) && j >= |s.joiners| && Settled(Do(s, step), j)
    ensures step.Join? && j == |s.joiners| && Do(s, step).joiners[j].s == step.s < |s.live| && s.live[step.s] == 0
  {
  }

  lemma {:induction false} JoinBegan(steps: seq<Step>, states: seq<State>, k: nat, j: nat) returns (b: nat)
    requires Run(steps, states) && k < |states| && j < |states[k].joiners|
    ensures b < k && steps[b] == Join(states[k].joiners[j].s) && |states[b].joiners| == j
    decreases k
  {
    hide Remove;
    var s := states[k - 1];
    assert states[k] == Do(s, steps[k - 1]);
    if j < |s.joiners| {
      b := JoinBegan(steps, states, k - 1, j);
    } else {
      b := k - 1;
    }
  }

  /** A `join` that finds tasks running goes to the wait list. */
  lemma JoinWaits(steps: seq<Step>, states: seq<State>, k: nat)
    requires Run(steps, states) && k < |steps| && steps[k].Join?
    requires steps[k].s < |states[k].live| && states[k].live[steps[k].s] > 0
    ensures |states[k + 1].joiners| == |states[k].joiners| + 1
    ensures !Settled(states[k + 1], |states[k].joiners|)
  {
  }

  /** One that finds none returns at once. */
  lemma JoinAtZeroReturns(s: State, n: nat)
    requires Inv(s) && n < |s.parents| && s.live[n] == 0
    ensures Enabled(s, Join(n)) && Do(s, Join(n)).joiners == s.joiners + [Joiner(n, Returned)]
  {
  }

  // ---- Spawns and completions that nobody disturbs -------------------------------------------------

  /** `steps` lead from `s` to `s'`. */
  ghost predicate Leads(s: State, steps: seq<Step>, s': State)
    decreases |steps|
  {
    if steps == [] then s' == s else Enabled(s, steps[0]) && Leads(Do(s, steps[0]), steps[1..], s')
  }

  lemma Then(s: State, step: Step, steps: seq<Step>, s': State)
    requires Enabled(s, step) && Leads(Do(s, step), steps, s')
    ensures Leads(s, [step] + steps, s')
  {
    assert ([step] + steps)[1..] == steps;
  }

  lemma Stay(s: State)
    ensures Leads(s, [], s)
  {
  }

  lemma {:induction false} RetainFinishes(s: State, t: nat) returns (steps: seq<Step>, s': State)
    requires Inv(s) && t < |s.tasks| && s.tasks[t].pc.Retaining?
    ensures Leads(s, steps, s') && Inv(s') && s'.parents == s.parents && t < |s'.tasks| && s'.tasks[t].pc.Running?
    decreases if s.tasks[t].pc.at.Some? then s.tasks[t].pc.at.value + 1 else 0
  {
    hide Leads, Inv, Chain;
    NeverBelowZero(s, t);
    ParentIsOlder(s, s.tasks[t].pc.at);
    var s1 := Do(s, Retain(t));
    StepKeepsInv(s, Retain(t));
    if s.tasks[t].pc.at.None? {
      Stay(s1);
      Then(s, Retain(t), [], s1);
      assert [Retain(t)] + [] == [Retain(t)];
      return [Retain(t)], s1;
    }
    steps, s' := RetainFinishes(s1, t);
    Then(s, Retain(t), steps, s');
    steps := [Retain(t)] + steps;
  }

  lemma ParentIsOlder(s: State, at: Option<nat>)
    requires Inv(s)
    ensures at.Some? && at.value < |s.parents| && s.parents[at.value].Some? ==> s.parents[at.value].value < at.value
  {
  }

  /** A task that is spawned gets to run, and then counts in its whole chain. */
  lemma SpawnCounts(s: State, t: nat) returns (steps: seq<Step>, s': State)
    requires Inv(s) && t < |s.tasks| && s.tasks[t].pc.NoTask?
    ensures Leads(s, [Spawn(t)] + steps, s') && Inv(s') && s'.parents == s.parents && t < |s'.tasks| && t < |s'.parents|
    ensures s'.tasks[t].pc.Running? && TreeOk(s'.parents) && s'.tasks[t].held == Chain(s'.parents, Some(t))
  {
    hide Leads, Chain, CountsOk, JoinersOk, NoStuckJoin;
    assert Enabled(s, Spawn(t));
    StepKeepsInv(s, Spawn(t));
    steps, s' := RetainFinishes(Do(s, Spawn(t)), t);
    Then(s, Spawn(t), steps, s');
    assert TaskOk(s'.parents, t, s'.tasks[t]);
  }

  predicate Finishing(pc: Pc) { pc.Dropping? || pc.WakeCheck? || pc.WakeLock? }

  /** Where the completion stands: states of the chain, and steps at the state. */
  function Left(s: State, t: nat): (nat, nat)
    requires t < |s.tasks| && Finishing(s.tasks[t].pc)
  {
    match s.tasks[t].pc
    case Dropping(at) => (if at.Some? then at.value + 1 else 0, 2)
    case WakeCheck(n) => (n + 1, 1)
    case WakeLock(n) => (n + 1, 0)
  }

  function NextOf(s: State, t: nat): Step
    requires t < |s.tasks| && Finishing(s.tasks[t].pc)
  {
    match s.tasks[t].pc
    case Dropping(_) => Drop(t)
    case WakeCheck(_) => CheckWaiters(t)
    case WakeLock(_) => WakeWaiters(t)
  }

  lemma NextOfGoesOn(s: State, t: nat)
    requires Inv(s) && t < |s.tasks| && Finishing(s.tasks[t].pc)
    ensures Enabled(s, NextOf(s, t))
    ensures var s' := Do(s, NextOf(s, t));
            && t < |s'.tasks| && s'.parents == s.parents
            && (s'.tasks[t].pc.Done? || (Finishing(s'.tasks[t].pc)
                && (Left(s', t).0 < Left(s, t).0 || (Left(s', t).0 == Left(s, t).0 && Left(s', t).1 < Left(s, t).1))))
  {
    hide Chain, CountsOk, JoinersOk, NoStuckJoin, TaskOk;
    NeverBelowZero(s, t);
    match s.tasks[t].pc
    case Dropping(at) => ParentIsOlder(s, at);
    case WakeCheck(n) => ParentIsOlder(s, Some(n));
    case WakeLock(n) => ParentIsOlder(s, Some(n));
  }

  lemma {:induction false} DropFinishes(s: State, t: nat) returns (steps: seq<Step>, s': State)
    requires Inv(s) && t < |s.tasks| && Finishing(s.tasks[t].pc)
    ensures Leads(s, steps, s') && Inv(s') && t < |s'.tasks| && s'.tasks[t].pc.Done?
    decreases Left(s, t).0, Left(s, t).1
  {
    hide Leads, Inv, Enabled, Do, Left;
    var step := NextOf(s, t);
    NextOfGoesOn(s, t);
    var s1 := Do(s, step);
    StepKeepsInv(s, step);
    if s1.tasks[t].pc.Done? {
      Stay(s1);
      Then(s, step, [], s1);
      assert [step] + [] == [step];
      return [step], s1;
    }
    steps, s' := DropFinishes(s1, t);
    Then(s, step, steps, s');
    steps := [step] + steps;
  }

  /** A task that completes gets to its end, and then counts nowhere. */
  lemma CompletionUncounts(s: State, t: nat) returns (steps: seq<Step>, s': State)
    requires Inv(s) && t < |s.tasks| && s.tasks[t].pc.Running?
    ensures Leads(s, [Complete(t)] + steps, s') && Inv(s') && t < |s'.tasks|
    ensures s'.tasks[t].pc.Done? && s'.tasks[t].held == {}
  {
    hide Leads, Chain, CountsOk, JoinersOk, NoStuckJoin;
    assert Enabled(s, Complete(t));
    StepKeepsInv(s, Complete(t));
    steps, s' := DropFinishes(Do(s, Complete(t)), t);
    Then(s, Complete(t), steps, s');
    assert TaskOk(s'.parents, t, s'.tasks[t]);
  }

  /** A `join` that nobody disturbs goes to sleep while tasks run. */
  lemma JoinSleeps(s: State, n: nat)
    requires Inv(s) && n < |s.parents| && s.live[n] > 0
    ensures var j, s1 := |s.joiners|, Do(s, Join(n));
            && Enabled(s1, JoinPush(j))
            && var s2 := Do(s1, JoinPush(j));
            && Enabled(s2, JoinRecheck(j))
            && var s3 := Do(s2, JoinRecheck(j));
               s3.joiners[j].pc.Parked? && j in s3.lists[n]
  {
  }

  /** It returns once it is woken, or has taken itself out of the list. */
  lemma WokenJoinReturns(s: State, j: nat)
    requires Inv(s) && j < |s.joiners|
    ensures s.joiners[j].pc.Parked? && j !in s.lists[s.joiners[j].s] ==>
              Enabled(s, JoinResume(j)) && Do(s, JoinResume(j)).joiners[j].pc.Returned?
    ensures s.joiners[j].pc.Withdraw? ==>
              && Enabled(s, JoinRemove(j))
              && Do(s, JoinRemove(j)).joiners[j].pc == (if j in s.lists[s.joiners[j].s] then Returned else Parked)
              && j !in Do(s, JoinRemove(j)).lists[s.joiners[j].s]
  {
    hide TaskOk, CountsOk, NoStuckJoin;
    if s.joiners[j].pc.Withdraw? && j in s.lists[s.joiners[j].s] {
      RemoveFacts(s.lists[s.joiners[j].s], j);
    }
  }

  /** A new state counts nothing and has no waiters. */
  lemma NewStateIsEmpty(s: State, parent: Option<nat>)
    requires Enabled(s, NewState(parent))
    ensures var s', n := Do(s, NewState(parent)), |s.parents|;
            && |s'.parents| == n + 1 && s'.parents[n] == parent && s'.live[n] == 0 && s'.lists[n] == []
            && s'.tasks[n] == Task(NoTask, {})
  {
  }

  /** A completion that finds nobody waiting goes on to the parent. */
  lemma NobodyWaits(s: State, t: nat)
    requires Inv(s) && Enabled(s, CheckWaiters(t)) && s.lists[s.tasks[t].pc.s] == []
    ensures Do(s, CheckWaiters(t)).tasks[t].pc == Dropping(s.parents[s.tasks[t].pc.s])
  {
  }
}
