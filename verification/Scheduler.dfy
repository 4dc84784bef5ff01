/**
  The simple scheduler that the timer wheel must agree with: a set of (id, expiry) pairs,
  a queue of requests, and a log of firings. No levels, no slots, no cascades.

  The second half proves what every run of it keeps: a timer fires once, at its own
  millisecond, and a successful cancel is final.
 */
module Scheduler {
  import opened Wrappers

  const TWO_64: nat := 0x1_0000_0000_0000_0000

  /** The queue entries, in the order they were posted. */
  datatype Request = Add(id: nat) | Update(id: nat, duration: nat) | Remove(id: nat)

  datatype Firing = Firing(id: nat, time: nat)

  datatype State = State(
    now: nat,                 // wheel time
    issued: nat,              // largest id handed out
    queued: map<nat, nat>,    // id -> expiry, added but not yet drained
    filed: map<nat, nat>,     // id -> expiry, held by the wheel
    requests: seq<Request>,
    dropped: set<nat>,        // ids whose add must be ignored when it is drained
    maxAdded: nat,            // largest id drained so far
    gone: set<nat>,           // issued ids that were cancelled, detached or removed
    log: seq<Firing>
  )

  /** 64-bit clock arithmetic. */
  function Expiry(clock: nat, duration: nat): nat {
    (clock + duration) % TWO_64
  }

  function AddTimer(s: State, clock: nat, duration: nat): State {
    var id := s.issued + 1;
    var posted := s.(issued := id, requests := s.requests + [Add(id)]);
    if id in s.dropped then posted.(gone := s.gone + {id})
    else posted.(queued := s.queued[id := Expiry(clock, duration)])
  }

  function Post(s: State, request: Request): State {
    s.(requests := s.requests + [request])
  }

  function IfIssued(s: State, id: nat): set<nat> {
    if 0 < id <= s.issued then {id} else {}
  }

  predicate CanCancel(s: State, id: nat) {
    id != 0 && (id in s.filed || id > s.maxAdded)
  }

  /** The effect of a cancel, a detach or a drained remove. */
  function Withdraw(s: State, id: nat): State {
    if id in s.filed then s.(filed := s.filed - {id}, gone := s.gone + {id})
    else if id > s.maxAdded then
      s.(dropped := s.dropped + {id}, queued := s.queued - {id}, gone := s.gone + IfIssued(s, id))
    else s
  }

  /** One drained request, with the clock value read while draining it. */
  function Serve(s: State, request: Request, clock: nat): State {
    match request
    case Add(id) =>
      s.(maxAdded := if id > s.maxAdded then id else s.maxAdded,
         queued := s.queued - {id},
         dropped := s.dropped - {id},
         filed := if id in s.queued then s.filed[id := s.queued[id]] else s.filed)
    case Update(id, duration) =>
      if id in s.filed then s.(filed := s.filed[id := Expiry(clock, duration)]) else s
    case Remove(id) => Withdraw(s, id)
  }

  function ServeAll(s: State, requests: seq<Request>, clocks: seq<nat>): State
    requires |clocks| == |requests|
    decreases |requests|
  {
    if requests == [] then s else ServeAll(Serve(s, requests[0], clocks[0]), requests[1..], clocks[1..])
  }

  function Drained(s: State, clocks: seq<nat>): State
    requires |clocks| == |s.requests|
  {
    ServeAll(s, s.requests, clocks).(requests := [])
  }

  /** The step at which a filed timer has to fire. */
  function FireTime(s: State, id: nat): nat
    requires id in s.filed
  {
    Max(s.filed[id], s.now + 1)
  }

  /** `batch` fires exactly the timers due by `t`, each once, each at its own step, in time order. */
  ghost predicate FiresExactly(s: State, t: nat, batch: seq<Firing>) {
    && (forall i | 0 <= i < |batch| ::
          batch[i].id in s.filed && s.filed[batch[i].id] <= t && batch[i].time == FireTime(s, batch[i].id))
    && (forall id | id in s.filed && s.filed[id] <= t :: exists i :: 0 <= i < |batch| && batch[i].id == id)
    && (forall i, j | 0 <= i < j < |batch| :: batch[i].id != batch[j].id)
    && (forall i, j | 0 <= i < j < |batch| :: batch[i].time <= batch[j].time)
  }

  function StillFiled(filed: map<nat, nat>, t: nat): map<nat, nat> {
    map id | id in filed && filed[id] > t :: filed[id]
  }

  /** Time passes from `s.now` to `t`. */
  ghost predicate Elapsed(s: State, t: nat, s': State) {
    && s.now < t
    && s.log <= s'.log
    && s' == s.(now := t, filed := StillFiled(s.filed, t), log := s'.log)
    && FiresExactly(s, t, s'.log[|s.log|..])
  }

  ghost predicate Ticked(s: State, clocks: seq<nat>, t: nat, s': State) {
    && |clocks| == |s.requests|
    && var d := Drained(s, clocks);
       if t <= d.now then s' == d else Elapsed(d, t, s')
  }

  /** Every timer due by `t'` is in one of the two batches. */
  lemma BatchesCover(s: State, t: nat, first: seq<Firing>, m: State, t': nat, second: seq<Firing>, id: nat)
    requires m.filed == StillFiled(s.filed, t) && id in s.filed && s.filed[id] <= t'
    requires FiresExactly(s, t, first) && FiresExactly(m, t', second)
    ensures exists i :: 0 <= i < |first + second| && (first + second)[i].id == id
  {
    if s.filed[id] <= t {
      var i :| 0 <= i < |first| && first[i].id == id;
      assert (first + second)[i].id == id;
    } else {
      assert id in m.filed && m.filed[id] <= t';
      var i :| 0 <= i < |second| && second[i].id == id;
      assert (first + second)[|first| + i].id == id;
    }
  }

  lemma BatchesCompose(s: State, t: nat, first: seq<Firing>, m: State, t': nat, second: seq<Firing>)
    requires s.now < t < t' && m.now == t && m.filed == StillFiled(s.filed, t)
    requires FiresExactly(s, t, first) && FiresExactly(m, t', second)
    ensures FiresExactly(s, t', first + second)
  {
    var batch := first + second;
    forall id | id in s.filed && s.filed[id] <= t'
      ensures exists i :: 0 <= i < |batch| && batch[i].id == id
    {
      BatchesCover(s, t, first, m, t', second, id);
    }
    forall i | 0 <= i < |batch|
      ensures batch[i].id in s.filed && s.filed[batch[i].id] <= t' && batch[i].time == FireTime(s, batch[i].id)
      ensures i < |first| ==> batch[i].time <= t && batch[i].id !in m.filed
      ensures i >= |first| ==> batch[i].time > t && batch[i].id in m.filed
    {
      if i >= |first| {
        assert batch[i] == second[i - |first|];
      }
    }
    forall i, j | 0 <= i < j < |batch| ensures batch[i].id != batch[j].id && batch[i].time <= batch[j].time {
      if i >= |first| {
        assert batch[i] == second[i - |first|] && batch[j] == second[j - |first|];
      }
    }
  }

  /** Two stretches of time are one. */
  lemma ElapsedCompose(s: State, t: nat, m: State, t': nat, s': State)
    requires Elapsed(s, t, m) && Elapsed(m, t', s')
    ensures Elapsed(s, t', s')
  {
    hide FiresExactly, StillFiled;
    var first, second := m.log[|s.log|..], s'.log[|m.log|..];
    BatchesCompose(s, t, first, m, t', second);
    assert s'.log[|s.log|..] == first + second;
    StillFiledTwice(s.filed, t, t');
  }

  lemma StillFiledTwice(filed: map<nat, nat>, t: nat, t': nat)
    requires t <= t'
    ensures StillFiled(StillFiled(filed, t), t') == StillFiled(filed, t')
  {
  }

  // ---- What every run keeps --------------------------------------------------------------

  predicate Fired(s: State, id: nat) {
    exists i :: 0 <= i < |s.log| && s.log[i].id == id
  }

  /** The adds waiting in the queue are, in order, the ids `lo + 1 .. hi`. */
  predicate AddsFrom(requests: seq<Request>, lo: nat, hi: nat)
    decreases |requests|
  {
    if requests == [] then lo == hi
    else match requests[0]
         case Add(id) => id == lo + 1 && AddsFrom(requests[1..], lo + 1, hi)
         case _ => AddsFrom(requests[1..], lo, hi)
  }

  /** Every issued id is in exactly one place: queued, filed, fired or gone. */
  ghost predicate Inv(s: State) {
    && s.maxAdded <= s.issued
    && AddsFrom(s.requests, s.maxAdded, s.issued)
    && (forall id | id in s.queued :: s.maxAdded < id <= s.issued && id !in s.dropped)
    && (forall id | id in s.filed :: 0 < id <= s.maxAdded)
    && (forall id | id in s.dropped :: s.maxAdded < id)
    && (forall id | id in s.gone :: 0 < id <= s.issued && id !in s.filed && id !in s.queued)
    && (forall i | 0 <= i < |s.log| ::
          && 0 < s.log[i].id <= s.maxAdded
          && s.log[i].id !in s.filed && s.log[i].id !in s.gone)
    && (forall i, j | 0 <= i < j < |s.log| :: s.log[i].id != s.log[j].id)
    && (forall id: nat | 0 < id <= s.issued :: id in s.queued || id in s.filed || id in s.gone || Fired(s, id))
  }

  datatype Event =
    | DoAdd(clock: nat, duration: nat)
    | DoUpdate(id: nat, duration: nat)
    | DoRemove(id: nat)
    | DoCancel(id: nat)
    | DoTick(clocks: seq<nat>, time: nat)

  ghost predicate Next(s: State, e: Event, s': State) {
    match e
    case DoAdd(clock, duration) => s' == AddTimer(s, clock, duration)
    case DoUpdate(id, duration) => s' == Post(s, Update(id, duration))
    case DoRemove(id) => s' == Post(s, Remove(id))
    case DoCancel(id) => s' == if CanCancel(s, id) then Withdraw(s, id) else s
    case DoTick(clocks, time) => Ticked(s, clocks, time, s')
  }

  ghost predicate Run(events: seq<Event>, states: seq<State>) {
    && |states| == |events| + 1
    && Inv(states[0])
    && forall i | 0 <= i < |events| :: Next(states[i], events[i], states[i + 1])
  }

  lemma {:induction false} AddsFromAppend(requests: seq<Request>, lo: nat, hi: nat, request: Request)
    requires AddsFrom(requests, lo, hi) && (request.Add? ==> request.id == hi + 1)
    ensures AddsFrom(requests + [request], lo, if request.Add? then hi + 1 else hi)
    decreases |requests|
  {
    if requests == [] {
      assert (requests + [request])[1..] == [];
    } else {
      assert (requests + [request])[1..] == requests[1..] + [request];
      AddsFromAppend(requests[1..], if requests[0].Add? then lo + 1 else lo, hi, request);
    }
  }

  lemma {:induction false} AddsFromOrdered(requests: seq<Request>, lo: nat, hi: nat)
    requires AddsFrom(requests, lo, hi)
    ensures lo <= hi
    decreases |requests|
  {
    if requests != [] {
      AddsFromOrdered(requests[1..], if requests[0].Add? then lo + 1 else lo, hi);
    }
  }

  lemma WithdrawKeepsInv(s: State, id: nat)
    requires Inv(s) && id > 0
    ensures Inv(Withdraw(s, id))
  {
    var s' := Withdraw(s, id);
    assert s'.log == s.log;
    forall k: nat | 0 < k <= s'.issued
      ensures k in s'.queued || k in s'.filed || k in s'.gone || Fired(s', k)
    {
      assert k in s.queued || k in s.filed || k in s.gone || Fired(s, k);
    }
  }

  lemma ServeAddKeepsInv(s: State, clock: nat)
    requires Inv(s) && s.requests != [] && s.requests[0].Add?
    ensures Inv(Serve(s, s.requests[0], clock).(requests := s.requests[1..]))
  {
    var s' := Serve(s, s.requests[0], clock).(requests := s.requests[1..]);
    AddsFromOrdered(s'.requests, s'.maxAdded, s'.issued);
    assert s'.log == s.log;
    forall id: nat | 0 < id <= s'.issued
      ensures id in s'.queued || id in s'.filed || id in s'.gone || Fired(s', id)
    {
      assert id in s.queued || id in s.filed || id in s.gone || Fired(s, id);
    }
  }

  lemma ServeUpdateKeepsInv(s: State, clock: nat)
    requires Inv(s) && s.requests != [] && s.requests[0].Update?
    ensures Inv(Serve(s, s.requests[0], clock).(requests := s.requests[1..]))
  {
    var s' := Serve(s, s.requests[0], clock).(requests := s.requests[1..]);
    assert s'.log == s.log && s'.filed.Keys == s.filed.Keys;
    forall id: nat | 0 < id <= s'.issued
      ensures id in s'.queued || id in s'.filed || id in s'.gone || Fired(s', id)
    {
      assert id in s.queued || id in s.filed || id in s.gone || Fired(s, id);
    }
  }

  lemma PoppingKeepsInv(s: State)
    requires Inv(s) && s.requests != [] && !s.requests[0].Add?
    ensures Inv(s.(requests := s.requests[1..]))
  {
    assert forall k :: Fired(s.(requests := s.requests[1..]), k) == Fired(s, k);
  }

  /** `s` with the front request served is again a state of the invariant. */
  lemma ServeKeepsInv(s: State, clock: nat)
    requires Inv(s) && s.requests != []
    ensures Inv(Serve(s, s.requests[0], clock).(requests := s.requests[1..]))
  {
    match s.requests[0]
    case Add(_) => ServeAddKeepsInv(s, clock);
    case Update(_, _) => ServeUpdateKeepsInv(s, clock);
    case Remove(id) =>
      var popped := s.(requests := s.requests[1..]);
      PoppingKeepsInv(s);
      if id > 0 {
        WithdrawKeepsInv(popped, id);
      }
  }

  lemma {:induction false} ServeAllKeepsInv(s: State, clocks: seq<nat>)
    requires Inv(s) && |clocks| == |s.requests|
    ensures Inv(Drained(s, clocks))
    decreases |s.requests|
  {
    if s.requests != [] {
      var s' := Serve(s, s.requests[0], clocks[0]).(requests := s.requests[1..]);
      ServeKeepsInv(s, clocks[0]);
      ServeAllKeepsInv(s', clocks[1..]);
      ServeAllIgnoresQueue(Serve(s, s.requests[0], clocks[0]), s.requests[1..], clocks[1..], s.requests[1..]);
    }
  }

  lemma {:induction false} ServeAllIgnoresQueue(s: State, requests: seq<Request>, clocks: seq<nat>, q: seq<Request>)
    requires |clocks| == |requests|
    ensures ServeAll(s.(requests := q), requests, clocks) == ServeAll(s, requests, clocks).(requests := q)
    decreases |requests|
  {
    if requests != [] {
      assert Serve(s.(requests := q), requests[0], clocks[0]) == Serve(s, requests[0], clocks[0]).(requests := q);
      ServeAllIgnoresQueue(Serve(s, requests[0], clocks[0]), requests[1..], clocks[1..], q);
    }
  }

  lemma ElapsedAccounts(s: State, t: nat, s': State, id: nat)
    requires Inv(s) && Elapsed(s, t, s') && 0 < id <= s.issued
    ensures id in s'.queued || id in s'.filed || id in s'.gone || Fired(s', id)
  {
    var n := |s.log|;
    var batch := s'.log[n..];
    if Fired(s, id) {
      var i :| 0 <= i < n && s.log[i].id == id;
      assert s'.log[i].id == id;
    } else if id in s.filed && s.filed[id] <= t {
      var i :| 0 <= i < |batch| && batch[i].id == id;
      assert s'.log[n + i].id == id;
    }
  }

  lemma ElapsedLog(s: State, t: nat, s': State)
    requires Inv(s) && Elapsed(s, t, s')
    ensures forall i | 0 <= i < |s'.log| ::
              0 < s'.log[i].id <= s.maxAdded && s'.log[i].id !in s'.filed && s'.log[i].id !in s.gone
    ensures forall i, j | 0 <= i < j < |s'.log| :: s'.log[i].id != s'.log[j].id
  {
    var n := |s.log|;
    var batch := s'.log[n..];
    assert forall i | n <= i < |s'.log| :: s'.log[i] == batch[i - n] && batch[i - n].id in s.filed;
  }

  lemma ElapsedKeepsInv(s: State, t: nat, s': State)
    requires Inv(s) && Elapsed(s, t, s')
    ensures Inv(s')
  {
    hide FiresExactly, Fired;
    ElapsedLog(s, t, s');
    forall id: nat | 0 < id <= s'.issued
      ensures id in s'.queued || id in s'.filed || id in s'.gone || Fired(s', id)
    {
      ElapsedAccounts(s, t, s', id);
    }
  }

  lemma AddKeepsInv(s: State, clock: nat, duration: nat)
    requires Inv(s)
    ensures Inv(AddTimer(s, clock, duration))
  {
    var s' := AddTimer(s, clock, duration);
    AddsFromAppend(s.requests, s.maxAdded, s.issued, Add(s.issued + 1));
    forall id: nat | 0 < id <= s'.issued
      ensures id in s'.queued || id in s'.filed || id in s'.gone || Fired(s', id)
    {
      assert id <= s.issued ==> id in s.queued || id in s.filed || id in s.gone || Fired(s, id);
    }
  }

  lemma PostKeepsInv(s: State, request: Request)
    requires Inv(s) && !request.Add?
    ensures Inv(Post(s, request))
  {
    AddsFromAppend(s.requests, s.maxAdded, s.issued, request);
    forall id: nat | 0 < id <= s.issued
      ensures id in s.queued || id in s.filed || id in s.gone || Fired(Post(s, request), id)
    {
      assert Fired(s, id) == Fired(Post(s, request), id);
    }
  }

  lemma TickKeepsInv(s: State, clocks: seq<nat>, time: nat, s': State)
    requires Inv(s) && Ticked(s, clocks, time, s')
    ensures Inv(s')
    ensures s.gone <= s'.gone && s.log <= s'.log && s.issued <= s'.issued
  {
    ServeAllKeepsInv(s, clocks);
    ServeAllGrows(s, s.requests, clocks);
    if time > Drained(s, clocks).now {
      ElapsedKeepsInv(Drained(s, clocks), time, s');
    }
  }

  lemma NextKeepsInv(s: State, e: Event, s': State)
    requires Inv(s) && Next(s, e, s')
    ensures Inv(s')
    ensures s.gone <= s'.gone && s.log <= s'.log && s.issued <= s'.issued
  {
    match e
    case DoAdd(clock, duration) => AddKeepsInv(s, clock, duration);
    case DoUpdate(id, duration) => PostKeepsInv(s, Update(id, duration));
    case DoRemove(id) => PostKeepsInv(s, Remove(id));
    case DoCancel(id) =>
      if CanCancel(s, id) {
        WithdrawKeepsInv(s, id);
      }
    case DoTick(clocks, time) => TickKeepsInv(s, clocks, time, s');
  }

  lemma {:induction false} ServeAllGrows(s: State, requests: seq<Request>, clocks: seq<nat>)
    requires |clocks| == |requests|
    ensures var s' := ServeAll(s, requests, clocks);
            s.gone <= s'.gone && s.log == s'.log && s.issued == s'.issued && s.now == s'.now
    decreases |requests|
  {
    if requests != [] {
      ServeAllGrows(Serve(s, requests[0], clocks[0]), requests[1..], clocks[1..]);
    }
  }

  lemma {:induction false} RunKeepsInv(events: seq<Event>, states: seq<State>, i: nat, j: nat)
    requires Run(events, states) && i <= j < |states|
    ensures Inv(states[i]) && Inv(states[j])
    ensures states[i].gone <= states[j].gone && states[i].log <= states[j].log && states[i].issued <= states[j].issued
    decreases j
  {
    if i == j {
      if j > 0 {
        RunKeepsInv(events, states, j - 1, j - 1);
        NextKeepsInv(states[j - 1], events[j - 1], states[j]);
      }
    } else {
      RunKeepsInv(events, states, i, j - 1);
      NextKeepsInv(states[j - 1], events[j - 1], states[j]);
    }
  }

  /** After a cancel of an issued id returned true, that timer is not in any log of the run. */
  lemma CancelledNeverFires(events: seq<Event>, states: seq<State>, i: nat, j: nat, id: nat)
    requires Run(events, states) && i < |events| && j < |states|
    requires events[i] == DoCancel(id) && id <= states[i].issued && CanCancel(states[i], id)
    ensures !Fired(states[j], id)
  {
    RunKeepsInv(events, states, i + 1, i + 1);
    assert id in states[i + 1].gone;
    if j <= i {
      RunKeepsInv(events, states, j, i + 1);
    } else {
      RunKeepsInv(events, states, i + 1, j);
    }
  }

  /** A cancel of an issued id fails only if the timer has fired or was withdrawn before. */
  lemma FailedCancelWasTooLate(events: seq<Event>, states: seq<State>, i: nat, id: nat)
    requires Run(events, states) && i < |states|
    requires 0 < id <= states[i].issued && !CanCancel(states[i], id)
    ensures Fired(states[i], id) || id in states[i].gone
  {
    RunKeepsInv(events, states, i, i);
  }

  // ---- Exactly once, exactly on time ----------------------------------------------------

  predicate Untouched(requests: seq<Request>, id: nat) {
    forall i | 0 <= i < |requests| :: requests[i].Add? || requests[i].id != id
  }

  predicate LeavesAlone(e: Event, id: nat) {
    match e
    case DoUpdate(i, _) => i != id
    case DoRemove(i) => i != id
    case DoCancel(i) => i != id
    case _ => true
  }

  lemma {:induction false} ServeAllLeavesFiled(s: State, requests: seq<Request>, clocks: seq<nat>, id: nat)
    requires |clocks| == |requests| && Untouched(requests, id) && id in s.filed
    requires forall i | 0 <= i < |requests| :: requests[i] != Add(id)
    ensures id in ServeAll(s, requests, clocks).filed
    ensures ServeAll(s, requests, clocks).filed[id] == s.filed[id]
    decreases |requests|
  {
    if requests != [] {
      assert requests[0] != Add(id);
      ServeAllLeavesFiled(Serve(s, requests[0], clocks[0]), requests[1..], clocks[1..], id);
    }
  }

  lemma {:induction false} QueuedAddsAreNew(requests: seq<Request>, lo: nat, hi: nat, id: nat)
    requires AddsFrom(requests, lo, hi) && id <= lo
    ensures forall i | 0 <= i < |requests| :: requests[i] != Add(id)
    decreases |requests|
  {
    if requests != [] {
      QueuedAddsAreNew(requests[1..], if requests[0].Add? then lo + 1 else lo, hi, id);
      assert forall i | 1 <= i < |requests| :: requests[i] == requests[1..][i - 1];
    }
  }

  lemma {:induction false} QueuedAddsAreOld(requests: seq<Request>, lo: nat, hi: nat, id: nat)
    requires AddsFrom(requests, lo, hi) && id > hi
    ensures forall i | 0 <= i < |requests| :: requests[i] != Add(id)
    decreases |requests|
  {
    if requests != [] {
      AddsFromOrdered(requests, lo, hi);
      AddsFromOrdered(requests[1..], if requests[0].Add? then lo + 1 else lo, hi);
      QueuedAddsAreOld(requests[1..], if requests[0].Add? then lo + 1 else lo, hi, id);
      assert forall i | 1 <= i < |requests| :: requests[i] == requests[1..][i - 1];
    }
  }

  /** Where a timer filed with expiry `e` at wheel time `c` must be when the wheel time is `s.now`. */
  ghost predicate OnSchedule(s: State, id: nat, c: nat, e: nat) {
    if s.now < Max(e, c + 1) then id in s.filed && s.filed[id] == e && !Fired(s, id)
    else exists i :: 0 <= i < |s.log| && s.log[i] == Firing(id, Max(e, c + 1))
  }

  lemma LogKeepsSchedule(s: State, s': State, id: nat, time: nat)
    requires s.log <= s'.log && exists i :: 0 <= i < |s.log| && s.log[i] == Firing(id, time)
    ensures exists i :: 0 <= i < |s'.log| && s'.log[i] == Firing(id, time)
  {
    var i :| 0 <= i < |s.log| && s.log[i] == Firing(id, time);
    assert s'.log[i] == s.log[i];
  }

  lemma StepStaysOnSchedule(s: State, e: Event, s': State, id: nat, c: nat, x: nat)
    requires Inv(s) && Next(s, e, s') && c <= s.now && OnSchedule(s, id, c, x)
    requires Untouched(s.requests, id) && LeavesAlone(e, id)
    ensures OnSchedule(s', id, c, x) && s.now <= s'.now && Untouched(s'.requests, id)
  {
    match e
    case DoTick(clocks, time) => TickStaysOnSchedule(s, clocks, time, s', id, c, x);
    case _ =>
      assert s'.now == s.now && s'.log == s.log;
      assert Fired(s', id) == Fired(s, id);
  }

  lemma TickStaysOnSchedule(s: State, clocks: seq<nat>, time: nat, s': State, id: nat, c: nat, x: nat)
    requires Inv(s) && Ticked(s, clocks, time, s') && c <= s.now && OnSchedule(s, id, c, x)
    requires Untouched(s.requests, id)
    ensures OnSchedule(s', id, c, x) && s.now <= s'.now && Untouched(s'.requests, id)
  {
    var d := Drained(s, clocks);
    ServeAllGrows(s, s.requests, clocks);
    ServeAllKeepsInv(s, clocks);
    if s.now >= Max(x, c + 1) {
      LogKeepsSchedule(s, s', id, Max(x, c + 1));
    } else {
      QueuedAddsAreNew(s.requests, s.maxAdded, s.issued, id);
      ServeAllLeavesFiled(s, s.requests, clocks, id);
      assert Fired(d, id) == Fired(s, id);
      if time > d.now {
        TickFiresOnTime(d, time, s', id, c, x);
      }
    }
  }

  lemma TickFiresOnTime(d: State, t: nat, s': State, id: nat, c: nat, x: nat)
    requires Inv(d) && Elapsed(d, t, s') && c <= d.now < Max(x, c + 1) && id in d.filed && d.filed[id] == x
    ensures OnSchedule(s', id, c, x)
  {
    ElapsedKeepsInv(d, t, s');
    var batch := s'.log[|d.log|..];
    if x <= t {
      var i :| 0 <= i < |batch| && batch[i].id == id;
      assert s'.log[|d.log| + i] == batch[i];
    }
  }

  lemma LogIdsDiffer(s: State)
    requires Inv(s)
    ensures forall a, b | 0 <= a < b < |s.log| :: s.log[a].id != s.log[b].id
  {
  }

  lemma FiledIsOnSchedule(s: State, id: nat)
    requires Inv(s) && id in s.filed
    ensures OnSchedule(s, id, s.now, s.filed[id])
  {
  }

  /** Once on schedule, a timer that is left alone stays on schedule. */
  lemma {:induction false} StaysOnSchedule(events: seq<Event>, states: seq<State>, i: nat, j: nat, id: nat, c: nat, x: nat)
    requires Run(events, states) && i <= j < |states|
    requires c <= states[i].now && OnSchedule(states[i], id, c, x) && Untouched(states[i].requests, id)
    requires forall k | i <= k < j :: LeavesAlone(events[k], id)
    ensures OnSchedule(states[j], id, c, x) && states[i].now <= states[j].now && Untouched(states[j].requests, id)
    ensures forall a, b | 0 <= a < b < |states[j].log| :: states[j].log[a].id != states[j].log[b].id
    decreases j
  {
    hide OnSchedule, Next, Untouched, LeavesAlone;
    RunKeepsInv(events, states, i, j);
    LogIdsDiffer(states[j]);
    if i < j {
      StaysOnSchedule(events, states, i, j - 1, id, c, x);
      RunKeepsInv(events, states, j - 1, j - 1);
      StepStaysOnSchedule(states[j - 1], events[j - 1], states[j], id, c, x);
    }
  }

  /**
    A timer filed with expiry `e` and then left alone is, in every later state of every run,
    still filed with that expiry if its step has not been reached, and otherwise logged at
    exactly that step. By the invariant it is logged once only.
   */
  lemma FiresExactlyOnTime(events: seq<Event>, states: seq<State>, i: nat, j: nat, id: nat)
    requires Run(events, states) && i <= j < |states| && id in states[i].filed
    requires Untouched(states[i].requests, id)
    requires forall k | i <= k < j :: LeavesAlone(events[k], id)
    ensures OnSchedule(states[j], id, states[i].now, states[i].filed[id])
    ensures states[i].now <= states[j].now && Untouched(states[j].requests, id)
    ensures forall a, b | 0 <= a < b < |states[j].log| :: states[j].log[a].id != states[j].log[b].id
  {
    hide OnSchedule, Next, Untouched, LeavesAlone;
    RunKeepsInv(events, states, i, i);
    FiledIsOnSchedule(states[i], id);
    StaysOnSchedule(events, states, i, j, id, states[i].now, states[i].filed[id]);
  }

  // ---- From the add to the firing ----------------------------------------------------------

  /** The add of `id` with expiry `x` waits in the queue, and no other request is about it. */
  predicate Waits(s: State, id: nat, x: nat) {
    id in s.queued && s.queued[id] == x && Untouched(s.requests, id)
  }

  lemma {:induction false} AddIsQueued(requests: seq<Request>, lo: nat, hi: nat, id: nat)
    requires AddsFrom(requests, lo, hi) && lo < id <= hi
    ensures Add(id) in requests
    decreases |requests|
  {
    if requests[0] != Add(id) {
      AddIsQueued(requests[1..], if requests[0].Add? then lo + 1 else lo, hi, id);
    }
  }

  /** Draining the queue files the timer with the expiry of its add. */
  lemma {:induction false} ServeAllFiles(s: State, requests: seq<Request>, clocks: seq<nat>, lo: nat, hi: nat, id: nat, x: nat)
    requires |clocks| == |requests| && AddsFrom(requests, lo, hi) && Add(id) in requests && Untouched(requests, id)
    requires id in s.queued && s.queued[id] == x
    ensures id in ServeAll(s, requests, clocks).filed && ServeAll(s, requests, clocks).filed[id] == x
    decreases |requests|
  {
    var s', rest := Serve(s, requests[0], clocks[0]), requests[1..];
    if requests[0] == Add(id) {
      QueuedAddsAreNew(rest, lo + 1, hi, id);
      ServeAllLeavesFiled(s', rest, clocks[1..], id);
    } else {
      ServeAllFiles(s', rest, clocks[1..], if requests[0].Add? then lo + 1 else lo, hi, id, x);
    }
  }

  lemma TickFiles(s: State, clocks: seq<nat>, time: nat, s': State, id: nat, x: nat)
    requires Inv(s) && Ticked(s, clocks, time, s') && Waits(s, id, x)
    ensures OnSchedule(s', id, s.now, x) && s.now <= s'.now && Untouched(s'.requests, id)
  {
    var d := Drained(s, clocks);
    AddIsQueued(s.requests, s.maxAdded, s.issued, id);
    ServeAllFiles(s, s.requests, clocks, s.maxAdded, s.issued, id, x);
    ServeAllGrows(s, s.requests, clocks);
    ServeAllKeepsInv(s, clocks);
    FiledIsOnSchedule(d, id);
    if time > d.now {
      TickFiresOnTime(d, time, s', id, d.now, x);
    }
  }

  lemma StepWaits(s: State, e: Event, s': State, id: nat, x: nat)
    requires Inv(s) && Next(s, e, s') && Waits(s, id, x) && LeavesAlone(e, id) && !e.DoTick?
    ensures Waits(s', id, x) && s'.now == s.now
  {
  }

  lemma AddWaits(s: State, clock: nat, duration: nat, s': State)
    requires Inv(s) && Next(s, DoAdd(clock, duration), s')
    requires s.issued + 1 !in s.dropped && Untouched(s.requests, s.issued + 1)
    ensures Waits(s', s.issued + 1, Expiry(clock, duration)) && s'.now == s.now
  {
  }

  lemma {:induction false} StaysWaiting(events: seq<Event>, states: seq<State>, i: nat, j: nat, id: nat, x: nat)
    requires Run(events, states) && i <= j < |states| && Waits(states[i], id, x)
    requires forall k | i <= k < j :: LeavesAlone(events[k], id) && !events[k].DoTick?
    ensures Waits(states[j], id, x) && states[j].now == states[i].now
    decreases j
  {
    hide Waits, Next, LeavesAlone;
    if i < j {
      StaysWaiting(events, states, i, j - 1, id, x);
      RunKeepsInv(events, states, j - 1, j - 1);
      StepWaits(states[j - 1], events[j - 1], states[j], id, x);
    }
  }

  /**
    From end to end: a timer that is added, neither cancelled before nor touched afterwards,
    waits until the first tick `f`, is filed by it, and in every later state is on schedule
    for its expiry: still filed, or logged once, at the expiry or at the first step of that tick.
   */
  lemma AddedFiresOnTime(events: seq<Event>, states: seq<State>, i: nat, f: nat, j: nat, id: nat)
    requires Run(events, states) && i < f < j < |states| && events[i].DoAdd? && id == states[i].issued + 1
    requires id !in states[i].dropped && Untouched(states[i].requests, id)
    requires events[f].DoTick? && forall k | i < k < f :: !events[k].DoTick?
    requires forall k | i < k < j :: LeavesAlone(events[k], id)
    ensures states[f].now == states[i].now
    ensures OnSchedule(states[j], id, states[i].now, Expiry(events[i].clock, events[i].duration))
    ensures events[i].clock + events[i].duration < TWO_64 ==>
              var x := events[i].clock + events[i].duration;
              OnSchedule(states[j], id, states[i].now, x) && LoggedOnlyAt(states[j], id, Max(x, states[i].now + 1))
    ensures forall a, b | 0 <= a < b < |states[j].log| :: states[j].log[a].id != states[j].log[b].id
  {
    hide OnSchedule, Untouched, LeavesAlone, Waits, Ticked;
    var x := Expiry(events[i].clock, events[i].duration);
    RunKeepsInv(events, states, i, i);
    AddWaits(states[i], events[i].clock, events[i].duration, states[i + 1]);
    StaysWaiting(events, states, i + 1, f, id, x);
    RunKeepsInv(events, states, f, f);
    TickFiles(states[f], events[f].clocks, events[f].time, states[f + 1], id, x);
    StaysOnSchedule(events, states, f + 1, j, id, states[i].now, x);
    RunKeepsInv(events, states, j, j);
    ScheduleIsTheOnlyTime(states[j], id, states[i].now, x);
  }

  /** The log has `id` at no other time. */
  predicate LoggedOnlyAt(s: State, id: nat, time: nat) {
    forall i | 0 <= i < |s.log| && s.log[i].id == id :: s.log[i].time == time
  }

  lemma ScheduleIsTheOnlyTime(s: State, id: nat, c: nat, x: nat)
    requires Inv(s) && OnSchedule(s, id, c, x)
    ensures LoggedOnlyAt(s, id, Max(x, c + 1))
  {
    LogIdsDiffer(s);
  }

  // ---- Updates and removes -------------------------------------------------------------------

  predicate About(request: Request, id: nat) { !request.Add? && request.id == id }

  /** The update at `r` is the last request about `id`, and finds the timer filed. */
  ghost predicate UpdateDecides(s: State, r: nat, id: nat) {
    && r < |s.requests| && s.requests[r].Update? && s.requests[r].id == id
    && (forall q | r < q < |s.requests| :: !About(s.requests[q], id))
    && (forall q | 0 <= q < r :: s.requests[q] != Remove(id))
    && (id in s.filed || (id in s.queued && Add(id) in s.requests[..r]))
  }

  lemma {:induction false} ServeAllUpdates(s: State, requests: seq<Request>, clocks: seq<nat>, lo: nat, hi: nat, r: nat, id: nat)
    requires |clocks| == |requests| && AddsFrom(requests, lo, hi)
    requires r < |requests| && requests[r].Update? && requests[r].id == id
    requires forall q | r < q < |requests| :: !About(requests[q], id)
    requires forall q | 0 <= q < r :: requests[q] != Remove(id)
    requires (id in s.filed && id <= lo) || (id in s.queued && lo < id && Add(id) in requests[..r])
    ensures var d := ServeAll(s, requests, clocks);
            id in d.filed && d.filed[id] == Expiry(clocks[r], requests[r].duration)
    decreases |requests|
  {
    var s', rest := Serve(s, requests[0], clocks[0]), requests[1..];
    var lo' := if requests[0].Add? then lo + 1 else lo;
    if r == 0 {
      QueuedAddsAreNew(rest, lo, hi, id);
      assert forall q | 0 <= q < |rest| :: !About(rest[q], id) by {
        assert forall q | 0 <= q < |rest| :: rest[q] == requests[q + 1];
      }
      ServeAllLeavesFiled(s', rest, clocks[1..], id);
    } else {
      assert requests[0] != Remove(id);
      assert rest[r - 1] == requests[r] && rest[..r - 1] == requests[1..r];
      assert requests[..r] == [requests[0]] + rest[..r - 1];
      forall q | r - 1 < q < |rest| ensures !About(rest[q], id) {
        assert rest[q] == requests[q + 1];
      }
      forall q | 0 <= q < r - 1 ensures rest[q] != Remove(id) {
        assert rest[q] == requests[q + 1];
      }
      ServeAllUpdates(s', rest, clocks[1..], lo', hi, r - 1, id);
    }
  }

  lemma TickUpdates(s: State, clocks: seq<nat>, time: nat, s': State, r: nat, id: nat)
    requires Inv(s) && Ticked(s, clocks, time, s') && UpdateDecides(s, r, id)
    ensures OnSchedule(s', id, s.now, Expiry(clocks[r], s.requests[r].duration))
    ensures s.now <= s'.now && Untouched(s'.requests, id)
  {
    var d, x := Drained(s, clocks), Expiry(clocks[r], s.requests[r].duration);
    ServeAllUpdates(s, s.requests, clocks, s.maxAdded, s.issued, r, id);
    ServeAllGrows(s, s.requests, clocks);
    ServeAllKeepsInv(s, clocks);
    FiledIsOnSchedule(d, id);
    if time > d.now {
      TickFiresOnTime(d, time, s', id, d.now, x);
    }
  }

  /**
    If the last request about a timer in the queue of tick `f` is an update by `d`, drained at
    clock `c`, then from that tick on, while it is left alone, the timer is on schedule for
    `c + d`: still filed, or logged once, at that time or at the first step of the tick, and
    at no other time.
   */
  lemma UpdatedFiresOnTime(events: seq<Event>, states: seq<State>, f: nat, r: nat, j: nat, id: nat)
    requires Run(events, states) && f < j < |states| && events[f].DoTick? && UpdateDecides(states[f], r, id)
    requires forall k | f < k < j :: LeavesAlone(events[k], id)
    ensures r < |events[f].clocks|
    ensures var x := events[f].clocks[r] + states[f].requests[r].duration;
            x < TWO_64 ==> OnSchedule(states[j], id, states[f].now, x)
                           && LoggedOnlyAt(states[j], id, Max(x, states[f].now + 1))
    ensures forall a, b | 0 <= a < b < |states[j].log| :: states[j].log[a].id != states[j].log[b].id
  {
    hide OnSchedule, LeavesAlone, Untouched, Inv;
    assert Next(states[f], events[f], states[f + 1]);
    var x := Expiry(events[f].clocks[r], states[f].requests[r].duration);
    RunKeepsInv(events, states, f, f);
    TickUpdates(states[f], events[f].clocks, events[f].time, states[f + 1], r, id);
    StaysOnSchedule(events, states, f + 1, j, id, states[f].now, x);
    RunKeepsInv(events, states, j, j);
    ScheduleIsTheOnlyTime(states[j], id, states[f].now, x);
  }

  /** The update posted at `r` waits for the tick, and no other request is about its filed timer. */
  ghost predicate UpdateWaits(s: State, r: nat, id: nat, duration: nat) {
    && r < |s.requests| && s.requests[r] == Update(id, duration) && id in s.filed
    && forall q | 0 <= q < |s.requests| && q != r :: !About(s.requests[q], id)
  }

  lemma {:induction false} UpdateStaysWaiting(events: seq<Event>, states: seq<State>, i: nat, j: nat, r: nat, id: nat, d: nat)
    requires Run(events, states) && i <= j < |states| && UpdateWaits(states[i], r, id, d)
    requires forall k | i <= k < j :: LeavesAlone(events[k], id) && !events[k].DoTick?
    ensures UpdateWaits(states[j], r, id, d) && states[j].now == states[i].now
    decreases j
  {
    if i < j {
      UpdateStaysWaiting(events, states, i, j - 1, r, id, d);
    }
  }

  /**
    From the call on: an update of a filed timer about which nothing else is requested decides,
    at the next tick, when the timer fires.
   */
  lemma UpdateTakesEffect(events: seq<Event>, states: seq<State>, i: nat, f: nat, j: nat, id: nat, d: nat)
    requires Run(events, states) && i < f < j < |states| && events[i] == DoUpdate(id, d)
    requires id in states[i].filed && Untouched(states[i].requests, id)
    requires events[f].DoTick? && forall k | i < k < f :: !events[k].DoTick?
    requires forall k | i < k < j :: LeavesAlone(events[k], id)
    ensures |states[i].requests| < |events[f].clocks| && states[f].now == states[i].now
    ensures var x := events[f].clocks[|states[i].requests|] + d;
            x < TWO_64 ==> OnSchedule(states[j], id, states[i].now, x)
                           && LoggedOnlyAt(states[j], id, Max(x, states[i].now + 1))
  {
    hide OnSchedule, LoggedOnlyAt, Inv;
    var r := |states[i].requests|;
    assert UpdateWaits(states[i + 1], r, id, d);
    UpdateStaysWaiting(events, states, i + 1, f, r, id, d);
    assert UpdateDecides(states[f], r, id);
    UpdatedFiresOnTime(events, states, f, r, j, id);
  }

  lemma {:induction false} DrainedRemoves(s: State, clocks: seq<nat>, id: nat)
    requires Inv(s) && |clocks| == |s.requests| && Remove(id) in s.requests && 0 < id <= s.issued && !Fired(s, id)
    ensures id in Drained(s, clocks).gone
    decreases |s.requests|
  {
    var m := Serve(s, s.requests[0], clocks[0]);
    var s' := m.(requests := s.requests[1..]);
    ServeKeepsInv(s, clocks[0]);
    ServeAllIgnoresQueue(m, s.requests[1..], clocks[1..], s.requests[1..]);
    if s.requests[0] == Remove(id) {
      assert id in s.queued || id in s.filed || id in s.gone || Fired(s, id);
      ServeAllGrows(m, s.requests[1..], clocks[1..]);
    } else {
      assert s'.log == s.log && s'.issued == s.issued;
      assert !Fired(s', id) by {
        assert forall i | 0 <= i < |s.log| :: s.log[i].id != id;
      }
      DrainedRemoves(s', clocks[1..], id);
    }
  }

  /** Once a tick has drained a remove of an issued timer, the timer never fires any more. */
  lemma RemovedNeverFires(events: seq<Event>, states: seq<State>, f: nat, j: nat, id: nat)
    requires Run(events, states) && f < j < |states| && events[f].DoTick?
    requires Remove(id) in states[f].requests && 0 < id <= states[f].issued && !Fired(states[f], id)
    ensures !Fired(states[j], id) && id !in states[j].filed
  {
    RunKeepsInv(events, states, f, f + 1);
    DrainedRemoves(states[f], events[f].clocks, id);
    assert id in states[f + 1].gone;
    RunKeepsInv(events, states, f + 1, j);
  }
}
