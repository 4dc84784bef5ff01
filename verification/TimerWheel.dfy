/**
  The hierarchical timer wheel: buckets with back pointers, pending sets, the queue of
  ADD/UPDATE/REMOVE ops, and the lazily refreshed minimum. Every public method is proved
  against the simple `Scheduler` of (id, expiry) pairs.

  A filed timer is the record that the id map finds; buckets hold ids in place of pointers.
 */
module TimerWheel {
  import opened Wrappers
  import opened TimerPlacement
  import opened TimerBuckets
  import Scheduler

  /** The settings' default for one bulk dequeue. */
  const OPS_CAP: nat := 256

  const INT_MAX: int := 0x7fff_ffff

  /** The callback that reports that a remove has been drained. */
  datatype Done = NoDone | DoneFn(arg: nat)

  datatype Op =
    | Add(addId: nat, expiry: nat, handler: Handler)
    | Update(id: nat, newDur: nat)
    | Remove(idOnly: nat, done: Done)

  /** The callbacks that draining `ops` calls, in order. */
  function Dones(ops: seq<Op>): seq<nat> {
    if ops == [] then []
    else
      var n := |ops| - 1;
      Dones(ops[..n]) + if ops[n].Remove? && ops[n].done.DoneFn? then [ops[n].done.arg] else []
  }

  function RequestOf(op: Op): Scheduler.Request {
    match op
    case Add(id, _, _) => Scheduler.Add(id)
    case Update(id, d) => Scheduler.Update(id, d)
    case Remove(id, _) => Scheduler.Remove(id)
  }

  function Requests(queue: seq<Op>): (r: seq<Scheduler.Request>)
    ensures |r| == |queue|
    ensures forall i | 0 <= i < |queue| :: r[i] == RequestOf(queue[i])
  {
    seq(|queue|, i requires 0 <= i < |queue| => RequestOf(queue[i]))
  }

  ghost predicate HandlersOk(timers: Timers, handlers: map<nat, Handler>) {
    forall id | id in timers :: id in handlers && handlers[id] == timers[id].handler
  }

  ghost function DroppedIds(pending: set<nat>, maxAdded: nat): set<nat> {
    set id | id in pending && id > maxAdded
  }

  ghost predicate AddOk(op: Op, pending: set<nat>, queued: map<nat, nat>, handlers: map<nat, Handler>)
    requires op.Add?
  {
    if op.addId in pending then op.addId !in queued
    else
      && op.addId in queued && queued[op.addId] == op.expiry > 0
      && op.addId in handlers && handlers[op.addId] == op.handler
  }

  /** A queued add is live exactly when it has not been cancelled or detached. */
  ghost predicate OpsOk(ops: seq<Op>, pending: set<nat>, queued: map<nat, nat>, handlers: map<nat, Handler>) {
    forall i | 0 <= i < |ops| && ops[i].Add? :: AddOk(ops[i], pending, queued, handlers)
  }

  class Wheel {
    var buckets: Buckets
    var currentTime: nat
    var timers: Timers
    var timerIdCounter: nat
    var nextExpiryTime: nat
    var nextExpiryDirty: bool
    var activeTimerCount: nat
    var queue: seq<Op>
    var cancelledPending: set<nat>
    var detachedPending: set<nat>
    var maxAddedId: nat
    var firedRaw: seq<nat>      // callbacks collected by the running tick
    var runQueue: seq<nat>      // the worker's queue of coroutines to resume
    var doneCalled: seq<nat>    // callbacks of drained removes, in the order of the calls

    ghost var queued: map<nat, nat>       // live queued adds: id -> expiry
    ghost var gone: set<nat>
    ghost var log: seq<Firing>
    ghost var handlers: map<nat, Handler>

    // ---- Invariant -------------------------------------------------------------------

    ghost function AbsCore(): (c: Core)
      reads `buckets, `timers, `nextExpiryTime, `nextExpiryDirty
    {
      Core(buckets, timers, nextExpiryTime, nextExpiryDirty)
    }

    /** Buckets, back pointers, id map, count and cached minimum describe the same timers. */
    ghost predicate Consistent()
      reads `buckets, `timers, `nextExpiryTime, `nextExpiryDirty, `activeTimerCount, `handlers
    {
      Sound(AbsCore()) && activeTimerCount == |timers| && HandlersOk(timers, handlers)
    }

    /** The simple scheduler this wheel stands for, with `ops` still to be drained. */
    ghost function AbsWith(ops: seq<Op>): (s: Scheduler.State)
      reads `currentTime, `timerIdCounter, `queued, `timers, `cancelledPending, `detachedPending, `maxAddedId, `gone, `log
      ensures s.requests == Requests(ops)
    {
      Scheduler.State(currentTime, timerIdCounter, queued, Filed(timers), Requests(ops),
                      DroppedIds(cancelledPending + detachedPending, maxAddedId), maxAddedId, gone, log)
    }

    ghost function Abs(): Scheduler.State
      reads this
    {
      AbsWith(queue)
    }

    ghost predicate ValidWith(ops: seq<Op>)
      reads `buckets, `timers, `nextExpiryTime, `nextExpiryDirty, `activeTimerCount, `handlers, `firedRaw
      reads `currentTime, `timerIdCounter, `queued, `cancelledPending, `detachedPending, `maxAddedId, `gone, `log
    {
      && Consistent() && AllPlaced(currentTime, timers)
      && OpsOk(ops, cancelledPending + detachedPending, queued, handlers) && firedRaw == []
      && Scheduler.Inv(AbsWith(ops))
    }

    ghost predicate Valid()
      reads this
    {
      ValidWith(queue)
    }

    constructor (clock: nat)
      ensures Valid()
      ensures Abs() == Scheduler.State(clock, 0, map[], map[], [], {}, 0, {}, [])
    {
      buckets := seq(LEVELS, _ => seq(SLOTS, _ => []));
      currentTime, timers, timerIdCounter := clock, map[], 0;
      nextExpiryTime, nextExpiryDirty, activeTimerCount := 0, false, 0;
      queue, cancelledPending, detachedPending, maxAddedId := [], {}, {}, 0;
      firedRaw, runQueue, doneCalled := [], [], [];
      queued, gone, log, handlers := map[], {}, [], map[];
    }

    // ---- Filing and unfiling -----------------------------------------------------------

    method FindPlace(expiry: nat) returns (level: nat, slot: nat)
      ensures level == PlaceLevel(currentTime, expiry) && slot == PlaceSlot(currentTime, expiry)
    {
      var diff := if expiry > currentTime then expiry - currentTime else 0;
      level := 0;
      while level + 1 < LEVELS && diff >= Interval(level) * SLOTS
        invariant level < LEVELS
        invariant level > 0 ==> diff >= Interval(level)
      {
        level := level + 1;
      }
      slot := if diff == 0 then (currentTime + 1) % SLOTS else (expiry / Interval(level)) % SLOTS;
    }

    method AddTimerToWheel(id: nat, expiry: nat, handler: Handler)
      requires Shape(buckets)
      modifies `buckets, `timers, `nextExpiryTime
      ensures var at := NewLoc(old(buckets), currentTime, expiry);
              && buckets == Push(old(buckets), at.level, at.slot, id)
              && timers == old(timers)[id := Timer(expiry, handler, at)]
      ensures nextExpiryTime == Earlier(old(nextExpiryTime), expiry)
    {
      var level, slot := FindPlace(expiry);
      timers := timers[id := Timer(expiry, handler, Loc(level, slot, |buckets[level][slot]|))];
      buckets := buckets[level := buckets[level][slot := buckets[level][slot] + [id]]];
      if nextExpiryTime == 0 || expiry < nextExpiryTime {
        nextExpiryTime := expiry;
      }
    }

    /** `swap_pop_at`: the last entry of the bucket takes the place of the entry at `at`. */
    method SwapPopAt(at: Loc)
      requires Shape(buckets) && In(buckets, at)
      requires buckets[at.level][at.slot][|buckets[at.level][at.slot]| - 1] in timers
      modifies `buckets, `timers
      ensures buckets == SwapPop(old(buckets), at) && timers == Repointed(old(buckets), old(timers), at)
    {
      var bucket := buckets[at.level][at.slot];
      var last := |bucket| - 1;
      if at.pos != last {
        bucket := bucket[at.pos := bucket[last]];
        timers := timers[bucket[at.pos] := timers[bucket[at.pos]].(at := at)];
      }
      buckets := buckets[at.level := buckets[at.level][at.slot := bucket[..last]]];
    }

    method RemoveTimerFromWheel(id: nat)
      requires Wired(buckets, timers, NoHole) && id in timers
      modifies `buckets, `timers, `nextExpiryDirty
      ensures buckets == SwapPop(old(buckets), old(timers[id].at))
      ensures timers == Repointed(old(buckets), old(timers), old(timers[id].at))
      ensures nextExpiryDirty == (old(nextExpiryDirty) || old(timers[id].expiry) == nextExpiryTime)
    {
      var t := timers[id];
      // the entry is always where the back pointer says, so the linear search is never needed
      assert In(buckets, t.at) && buckets[t.at.level][t.at.slot][t.at.pos] == id;
      LastIsFiled(buckets, timers, t.at);
      SwapPopAt(t.at);
      if t.expiry == nextExpiryTime {
        nextExpiryDirty := true;
      }
    }

    /** Take a filed timer out of the wheel and out of the map. */
    method Unfile(id: nat)
      requires Consistent() && id in timers
      modifies `buckets, `timers, `nextExpiryDirty, `activeTimerCount
      ensures Consistent() && AbsCore() == Unfiled(old(AbsCore()), id)
    {
      hide Sound, Wired, NextOk, SwapPop, Repointed, Shape, In, Unfiled, Filed;
      ghost var c := AbsCore();
      UnfiledFacts(c, id);
      RemoveTimerFromWheel(id);
      timers := timers - {id};
      activeTimerCount := activeTimerCount - 1;
      assert AbsCore() == Unfiled(c, id);
    }

    // ---- The clock ---------------------------------------------------------------------

    /** The firings since `base` took the filed set from `before` to what it is now. */
    ghost predicate Since(before: map<nat, nat>, base: seq<Firing>)
      reads `timers, `log, `currentTime
    {
      base <= log && Fires(before, Filed(timers), log[|base|..], currentTime)
    }

    /** Every firing since `start` went to the list its handler asks for, in order. */
    ghost predicate HandedSince(start: seq<Firing>, run: seq<nat>)
      reads `log, `handlers, `firedRaw, `runQueue
    {
      && start <= log
      && firedRaw == Handed(log[|start|..], handlers, RawFn)
      && runQueue == run + Handed(log[|start|..], handlers, Coroutine)
    }

    method HandOver(id: nat, handler: Handler, ghost start: seq<Firing>, ghost run: seq<nat>)
      requires HandedSince(start, run) && id in handlers && handlers[id] == handler
      modifies `firedRaw, `runQueue, `log
      ensures log == old(log) + [Scheduler.Firing(id, currentTime)] && HandedSince(start, run)
    {
      hide Handed;
      ghost var f := Scheduler.Firing(id, currentTime);
      HandedOneMore(log[|start|..], f, handlers, RawFn);
      HandedOneMore(log[|start|..], f, handlers, Coroutine);
      if handler == RawFn {
        firedRaw := firedRaw + [id];
      } else if handler == Coroutine {
        runQueue := runQueue + [id];
      }
      log := log + [f];
      assert log[|start|..] == old(log)[|start|..] + [f];
    }

    /** Hand the timer over and forget it; its bucket entry is swap-popped with it. */
    method Fire(id: nat, ghost before: map<nat, nat>, ghost base: seq<Firing>,
                ghost start: seq<Firing>, ghost run: seq<nat>)
      requires Consistent() && id in timers && timers[id].expiry <= currentTime
      requires Since(before, base) && HandedSince(start, run)
      modifies `buckets, `timers, `nextExpiryDirty, `activeTimerCount, `firedRaw, `runQueue, `log
      ensures Consistent() && AbsCore() == Unfiled(old(AbsCore()), id)
      ensures Since(before, base) && HandedSince(start, run)
    {
      hide Sound, Wired, NextOk, SwapPop, Repointed, Shape, In, Unfiled, Fires, Filed, Handed;
      UnfiledFacts(AbsCore(), id);
      FiledAt(timers, id);
      FiresOneMore(before, Filed(timers), log[|base|..], currentTime, id);
      HandOver(id, timers[id].handler, start, run);
      Unfile(id);
      assert log[|base|..] == old(log)[|base|..] + [Scheduler.Firing(id, currentTime)];
    }

    /** File the timer at its place for the new time, then swap-pop its old entry. */
    method Cascade(level: nat, id: nat)
      requires level < LEVELS && Consistent() && id in timers && Phase(currentTime, level + 1, timers)
      requires timers[id].at.level == level && Visited(currentTime, level, timers[id].at.slot)
      requires timers[id].expiry > currentTime
      modifies `buckets, `timers, `nextExpiryTime
      ensures Consistent() && AbsCore() == Moved(old(AbsCore()), currentTime, id)
    {
      hide Sound, Wired, NextOk, SwapPop, Repointed, Shape, In, Unfiled, Moved, Push, NewLoc, Visited, Phase, Filed;
      ghost var c := AbsCore();
      MovedFacts(c, currentTime, level, id);
      var t := timers[id];
      AddTimerToWheel(id, t.expiry, t.handler);
      SwapPopAt(t.at);
      assert AbsCore() == Moved(c, currentTime, id);
    }

    /** One round of the drain loop: fire the front, or file it one level down or more. */
    method ProcessFront(level: nat, slot: nat, ghost before: map<nat, nat>, ghost base: seq<Firing>,
                        ghost start: seq<Firing>, ghost run: seq<nat>)
      requires level < LEVELS && slot < SLOTS && Visited(currentTime, level, slot)
      requires Consistent() && Phase(currentTime, level + 1, timers) && Since(before, base) && HandedSince(start, run)
      requires Shape(buckets) && buckets[level][slot] != []
      modifies `buckets, `timers, `nextExpiryTime, `nextExpiryDirty, `activeTimerCount, `firedRaw, `runQueue, `log
      ensures Consistent() && Phase(currentTime, level + 1, timers) && Since(before, base) && HandedSince(start, run)
      ensures Shape(buckets) && |buckets[level][slot]| == |old(buckets[level][slot])| - 1
    {
      hide Sound, Wired, NextOk, SwapPop, Repointed, In, Unfiled, Moved, Push, NewLoc, Visited, Phase, Filed, Fires, Handed;
      var id := buckets[level][slot][0];
      ghost var c := AbsCore();
      FrontFacts(c, currentTime, level, slot);
      if timers[id].expiry <= currentTime {
        Fire(id, before, base, start, run);
      } else {
        Cascade(level, id);
      }
    }

    method ProcessSlot(level: nat, slot: nat, ghost before: map<nat, nat>, ghost base: seq<Firing>,
                       ghost start: seq<Firing>, ghost run: seq<nat>)
      requires level < LEVELS && slot < SLOTS && Visited(currentTime, level, slot)
      requires Consistent() && Phase(currentTime, level + 1, timers) && Since(before, base) && HandedSince(start, run)
      modifies `buckets, `timers, `nextExpiryTime, `nextExpiryDirty, `activeTimerCount, `firedRaw, `runQueue, `log
      ensures Consistent() && Phase(currentTime, level, timers) && Since(before, base) && HandedSince(start, run)
    {
      hide Wired, NextOk, In, Visited, Phase, Filed, Fires, Handed;
      SoundShape(AbsCore());
      while buckets[level][slot] != []
        invariant Consistent() && Phase(currentTime, level + 1, timers) && Since(before, base) && HandedSince(start, run)
        invariant Shape(buckets)
        decreases |buckets[level][slot]|
      {
        ProcessFront(level, slot, before, base, start, run);
      }
      EmptySlotDone(AbsCore(), currentTime, level, slot);
    }

    /** Visit the due slot of every level, from the top down. */
    method VisitLevels(ghost before: map<nat, nat>, ghost base: seq<Firing>, ghost start: seq<Firing>, ghost run: seq<nat>)
      requires Consistent() && Phase(currentTime, LEVELS, timers) && Since(before, base) && HandedSince(start, run)
      modifies `buckets, `timers, `nextExpiryTime, `nextExpiryDirty, `activeTimerCount, `firedRaw, `runQueue, `log
      ensures Consistent() && Phase(currentTime, 0, timers) && Since(before, base) && HandedSince(start, run)
    {
      hide Sound, Phase, Filed, Fires, Handed;
      var level := LEVELS;
      while level > 1
        invariant 1 <= level <= LEVELS
        invariant Consistent() && Phase(currentTime, level, timers) && Since(before, base) && HandedSince(start, run)
      {
        level := level - 1;
        if currentTime % Interval(level) == 0 {
          ProcessSlot(level, (currentTime / Interval(level)) % SLOTS, before, base, start, run);
        } else {
          UnvisitedLevelDone(currentTime, level, timers);
        }
      }
      VisitLevelZero(currentTime);
      ProcessSlot(0, currentTime % SLOTS, before, base, start, run);
    }

    /** One millisecond of wheel time is one step of the simple scheduler. */
    method Advance(ghost start: seq<Firing>, ghost run: seq<nat>)
      requires Consistent() && AllPlaced(currentTime, timers) && AllNear(currentTime, Filed(timers))
      requires HandedSince(start, run)
      modifies `currentTime, `buckets, `timers, `nextExpiryTime, `nextExpiryDirty, `activeTimerCount, `firedRaw,
               `runQueue, `log
      ensures Consistent() && AllPlaced(currentTime, timers) && AllNear(currentTime, Filed(timers))
      ensures currentTime == old(currentTime) + 1
      ensures HandedSince(start, run) && Scheduler.Elapsed(old(Abs()), currentTime, Abs())
    {
      hide Consistent, HandedSince, DroppedIds, Phase, Filed, Fires, Scheduler.Elapsed, AllPlaced, AllNear, Requests;
      ghost var before, base := Filed(timers), log;
      ClockStep(currentTime, timers);
      NothingFiredYet(before, base, currentTime + 1);
      currentTime := currentTime + 1;
      VisitLevels(before, base, start, run);
      assert log == base + log[|base|..];
      StepDone(old(Abs()), Abs(), timers, log[|base|..]);
    }

    // ---- The requests --------------------------------------------------------------------

    method AddTimer(clock: nat, duration: nat, handler: Handler) returns (id: nat)
      requires Valid() && Scheduler.Expiry(clock, duration) > 0
      modifies `timerIdCounter, `queue, `queued, `gone, `handlers
      ensures Valid() && Abs() == Scheduler.AddTimer(old(Abs()), clock, duration) && id == timerIdCounter
    {
      hide Sound, Scheduler.Inv, AllPlaced, Filed, Requests, Scheduler.Expiry, OpsOk, HandlersOk, DroppedIds;
      ghost var s := Abs();
      Scheduler.AddKeepsInv(s, clock, duration);
      id := timerIdCounter + 1;
      var op := Add(id, Scheduler.Expiry(clock, duration), handler);
      FreshAdd(s, timers, queue, cancelledPending + detachedPending, queued, handlers, op);
      timerIdCounter, queue, handlers := id, queue + [op], handlers[id := handler];
      if id in s.dropped {
        gone := gone + {id};
      } else {
        queued := queued[id := op.expiry];
      }
    }

    method UpdateTimer(id: nat, newDuration: nat) returns (r: bool)
      requires Valid()
      modifies `queue
      ensures Valid() && Abs() == Scheduler.Post(old(Abs()), Scheduler.Update(id, newDuration)) && r
    {
      hide Sound, Scheduler.Inv, AllPlaced, Filed, Requests;
      Scheduler.PostKeepsInv(Abs(), Scheduler.Update(id, newDuration));
      RequestsAppend(queue, Update(id, newDuration));
      queue := queue + [Update(id, newDuration)];
      r := true;
    }

    method RemoveTimer(id: nat, done: Done) returns (r: bool)
      requires Valid()
      modifies `queue
      ensures Valid() && Abs() == Scheduler.Post(old(Abs()), Scheduler.Remove(id)) && r
      ensures queue == old(queue) + [Remove(id, done)]
    {
      hide Sound, Scheduler.Inv, AllPlaced, Filed, Requests;
      Scheduler.PostKeepsInv(Abs(), Scheduler.Remove(id));
      RequestsAppend(queue, Remove(id, done));
      queue := queue + [Remove(id, done)];
      r := true;
    }

    // ---- Withdrawing a timer -------------------------------------------------------------

    /** Drop a filed timer for good. */
    method WithdrawFiled(id: nat, ghost ops: seq<Op>)
      requires ValidWith(ops) && id in timers
      modifies `buckets, `timers, `nextExpiryDirty, `activeTimerCount, `gone
      ensures ValidWith(ops) && AbsWith(ops) == Scheduler.Withdraw(old(AbsWith(ops)), id)
    {
      hide Sound, Wired, Unfiled, Scheduler.Inv, AllPlaced, Filed, Requests, OpsOk, HandlersOk, DroppedIds;
      WithdrawFiledFacts(AbsCore(), AbsWith(ops), id);
      Unfile(id);
      gone := gone + {id};
    }

    /** Remember to ignore an add that is still queued. */
    method WithdrawQueued(id: nat, detach: bool, ghost ops: seq<Op>)
      requires ValidWith(ops) && id !in timers && id > maxAddedId
      modifies `cancelledPending, `detachedPending, `queued, `gone
      ensures ValidWith(ops) && AbsWith(ops) == Scheduler.Withdraw(old(AbsWith(ops)), id)
    {
      hide Consistent, Scheduler.Inv, AllPlaced, Filed, Requests, OpsOk, DroppedIds;
      ghost var s := AbsWith(ops);
      WithdrawQueuedFacts(s, timers, ops, cancelledPending + detachedPending, handlers, id);
      if detach {
        detachedPending := detachedPending + {id};
      } else {
        cancelledPending := cancelledPending + {id};
      }
      assert cancelledPending + detachedPending == old(cancelledPending + detachedPending) + {id};
      queued, gone := queued - {id}, gone + Scheduler.IfIssued(s, id);
    }

    method CancelTimer(id: nat) returns (r: bool)
      requires Valid()
      modifies `buckets, `timers, `nextExpiryDirty, `activeTimerCount, `gone, `cancelledPending, `detachedPending, `queued
      ensures Valid() && r == Scheduler.CanCancel(old(Abs()), id)
      ensures Abs() == if r then Scheduler.Withdraw(old(Abs()), id) else old(Abs())
    {
      hide Scheduler.Inv, Scheduler.Withdraw, Filed, ValidWith;
      FiledKeys(timers);
      r := Withdraw(id, false);
    }

    method CancelTimerDetach(id: nat) returns (r: bool)
      requires Valid()
      modifies `buckets, `timers, `nextExpiryDirty, `activeTimerCount, `gone, `cancelledPending, `detachedPending, `queued
      ensures Valid() && r == Scheduler.CanCancel(old(Abs()), id)
      ensures Abs() == if r then Scheduler.Withdraw(old(Abs()), id) else old(Abs())
    {
      hide Scheduler.Inv, Scheduler.Withdraw, Filed, ValidWith;
      FiledKeys(timers);
      r := Withdraw(id, true);
    }

    /** The shared body of the two cancels. */
    method Withdraw(id: nat, detach: bool) returns (r: bool)
      requires Valid()
      modifies `buckets, `timers, `nextExpiryDirty, `activeTimerCount, `gone, `cancelledPending, `detachedPending, `queued
      ensures Valid() && r == (id != 0 && (id in old(timers) || id > old(maxAddedId)))
      ensures Abs() == if r then Scheduler.Withdraw(old(Abs()), id) else old(Abs())
    {
      hide Scheduler.Inv, Scheduler.Withdraw, Filed, ValidWith;
      if id == 0 {
        return false;
      }
      if id !in timers {
        if id > maxAddedId {
          WithdrawQueued(id, detach, queue);
          return true;
        }
        return false;
      }
      WithdrawFiled(id, queue);
      return true;
    }

    // ---- Draining the queue --------------------------------------------------------------

    /** Drain an add whose timer was cancelled or detached meanwhile. */
    method IgnoreAdd(op: Op, ghost clock: nat, ghost rest: seq<Op>)
      requires ValidWith([op] + rest) && op.Add? && op.addId in cancelledPending + detachedPending
      modifies `maxAddedId, `cancelledPending, `detachedPending, `queued
      ensures ValidWith(rest)
      ensures AbsWith(rest)
              == Scheduler.Serve(old(AbsWith([op] + rest)), RequestOf(op), clock).(requests := Requests(rest))
    {
      hide Consistent, Scheduler.Inv, Scheduler.Serve, AllPlaced, Filed, Requests, OpsOk, DroppedIds;
      ghost var s, pending := AbsWith([op] + rest), cancelledPending + detachedPending;
      ServeAddQueue(s, op, clock, rest, pending, handlers);
      maxAddedId := Max(maxAddedId, op.addId);
      if op.addId in detachedPending {
        detachedPending := detachedPending - {op.addId};
      } else {
        cancelledPending := cancelledPending - {op.addId};
      }
      queued := queued - {op.addId};
      ErasedFacts(rest, pending, cancelledPending + detachedPending, queued, handlers, maxAddedId, op.addId);
    }

    /** File a new timer, as the ADD branch does. */
    method Insert(id: nat, expiry: nat, handler: Handler)
      requires Consistent() && AllPlaced(currentTime, timers)
      requires id !in timers && expiry > 0 && id in handlers && handlers[id] == handler
      modifies `buckets, `timers, `nextExpiryTime, `activeTimerCount
      ensures Consistent() && AllPlaced(currentTime, timers) && Filed(timers) == old(Filed(timers))[id := expiry]
    {
      hide Sound, Inserted, Filed, NewLoc, Push, Shape, AllPlaced;
      ghost var c := AbsCore();
      InsertedFacts(c, currentTime, id, expiry, handler);
      InsertedKeepsPlaced(currentTime, timers, buckets, id, expiry, handler);
      AddTimerToWheel(id, expiry, handler);
      activeTimerCount := activeTimerCount + 1;
      assert AbsCore() == Inserted(c, currentTime, id, expiry, handler);
    }

    /** Drain a live add. */
    method FileAdd(op: Op, ghost clock: nat, ghost rest: seq<Op>)
      requires ValidWith([op] + rest) && op.Add? && op.addId !in cancelledPending + detachedPending
      modifies `buckets, `timers, `nextExpiryTime, `activeTimerCount, `maxAddedId, `queued
      ensures ValidWith(rest)
      ensures AbsWith(rest)
              == Scheduler.Serve(old(AbsWith([op] + rest)), RequestOf(op), clock).(requests := Requests(rest))
    {
      hide Consistent, Scheduler.Inv, Scheduler.Serve, AllPlaced, Filed, Requests, OpsOk, DroppedIds;
      FiledKeys(timers);
      ServeAddQueue(AbsWith([op] + rest), op, clock, rest, cancelledPending + detachedPending, handlers);
      maxAddedId := Max(maxAddedId, op.addId);
      queued := queued - {op.addId};
      Insert(op.addId, op.expiry, op.handler);
    }

    /** Unfile the timer, give it the new expiry, and file it again. */
    method Reposition(id: nat, expiry: nat)
      requires Sound(AbsCore()) && id in timers && expiry > 0
      modifies `buckets, `timers, `nextExpiryTime, `nextExpiryDirty
      ensures Wired(old(buckets), old(timers), NoHole) && AbsCore() == Refiled(old(AbsCore()), currentTime, id, expiry)
    {
      hide Sound, Wired, Refiled, NewLoc, Push, SwapPop, Repointed, Shape, In, Filed, AllPlaced;
      ghost var c := AbsCore();
      RefiledSteps(c, currentTime, id, expiry);
      var handler := timers[id].handler;
      RemoveTimerFromWheel(id);
      AddTimerToWheel(id, expiry, handler);
      assert AbsCore() == Refiled(c, currentTime, id, expiry);
    }

    /** Drain an update of a filed timer. */
    method Refile(id: nat, newDur: nat, clock: nat, ghost rest: seq<Op>)
      requires ValidWith([Update(id, newDur)] + rest) && id in timers && Scheduler.Expiry(clock, newDur) > 0
      modifies `buckets, `timers, `nextExpiryTime, `nextExpiryDirty
      ensures ValidWith(rest)
      ensures AbsWith(rest)
              == Scheduler.Serve(old(AbsWith([Update(id, newDur)] + rest)), Scheduler.Update(id, newDur), clock)
                 .(requests := Requests(rest))
    {
      hide Sound, Wired, Refiled, Scheduler.Inv, AllPlaced, Filed, Requests, OpsOk, HandlersOk, Scheduler.Expiry, DroppedIds;
      RefileFacts(AbsCore(), AbsWith([Update(id, newDur)] + rest), id, newDur, clock, rest,
                  cancelledPending + detachedPending, handlers);
      Reposition(id, Scheduler.Expiry(clock, newDur));
    }

    /** One drained op. */
    method ServeOp(op: Op, clock: nat, ghost rest: seq<Op>)
      requires ValidWith([op] + rest) && (op.Update? ==> Scheduler.Expiry(clock, op.newDur) > 0)
      modifies `buckets, `timers, `nextExpiryTime, `nextExpiryDirty, `activeTimerCount, `maxAddedId, `cancelledPending,
               `detachedPending, `queued, `gone, `doneCalled
      ensures ValidWith(rest) && doneCalled == old(doneCalled) + Dones([op])
      ensures AbsWith(rest)
              == Scheduler.Serve(old(AbsWith([op] + rest)), RequestOf(op), clock).(requests := Requests(rest))
    {
      hide Consistent, Scheduler.Inv, Filed, Requests, Dones, OpsOk, AllPlaced, DroppedIds, Scheduler.Expiry;
      FiledKeys(timers);
      DonesOfOne(op);
      ghost var s := AbsWith([op] + rest);
      match op
      case Add(_, _, _) =>
        if op.addId in detachedPending || op.addId in cancelledPending {
          IgnoreAdd(op, clock, rest);
        } else {
          FileAdd(op, clock, rest);
        }
      case Update(id, newDur) =>
        if id in timers {
          Refile(id, newDur, clock, rest);
        } else {
          SkipOp(s, op, clock, rest, cancelledPending + detachedPending, handlers);
        }
      case Remove(id, done) =>
        SkipOp(s, op, clock, rest, cancelledPending + detachedPending, handlers);
        if id in timers {
          WithdrawFiled(id, rest);
        } else if id > maxAddedId {
          WithdrawQueued(id, false, rest);
        }
        if done.DoneFn? {
          doneCalled := doneCalled + [done.arg];
        }
    }

    /** One bulk dequeue: serve `ops` while `after` stays queued. */
    method ServeBatch(ops: seq<Op>, clocks: seq<nat>, ghost after: seq<Op>, ghost later: seq<nat>)
      requires ValidWith(ops + after) && |clocks| == |ops| && ClocksOk(ops, clocks) && |later| == |after|
      modifies `buckets, `timers, `nextExpiryTime, `nextExpiryDirty, `activeTimerCount, `maxAddedId, `cancelledPending,
               `detachedPending, `queued, `gone, `doneCalled
      ensures ValidWith(after) && doneCalled == old(doneCalled) + Dones(ops)
      ensures Scheduler.Drained(AbsWith(after), later) == old(Scheduler.Drained(AbsWith(ops + after), clocks + later))
    {
      hide ValidWith, AbsWith, Scheduler.Serve, Scheduler.Drained, ClocksOk, RequestOf, Dones;
      ghost var done := Scheduler.Drained(AbsWith(ops + after), clocks + later);
      var i := 0;
      assert ops[i..] == ops && clocks[i..] == clocks && ops[..i] == [];
      DonesOfNone();
      while i < |ops|
        invariant 0 <= i <= |ops|
        invariant ValidWith(ops[i..] + after) && doneCalled == old(doneCalled) + Dones(ops[..i])
        invariant Scheduler.Drained(AbsWith(ops[i..] + after), clocks[i..] + later) == done
      {
        ghost var rest := ops[i + 1..] + after;
        assert ops[i..] + after == [ops[i]] + rest;
        ClocksOkAt(ops, clocks, i);
        DrainedStep(AbsWith([ops[i]] + rest), ops[i], rest, clocks[i..] + later);
        assert (clocks[i..] + later)[1..] == clocks[i + 1..] + later;
        DonesAppend(ops[..i], [ops[i]]);
        assert ops[..i] + [ops[i]] == ops[..i + 1];
        ServeOp(ops[i], clocks[i], rest);
        i := i + 1;
      }
      assert ops[..i] == ops && ops[i..] + after == after && clocks[i..] + later == later;
    }

    /** The bulk dequeues of `tick`, until the queue is empty. */
    method DrainQueue(clocks: seq<nat>)
      requires Valid() && |clocks| == |queue| && ClocksOk(queue, clocks)
      modifies `buckets, `timers, `nextExpiryTime, `nextExpiryDirty, `activeTimerCount, `maxAddedId, `cancelledPending,
               `detachedPending, `queued, `gone, `queue, `doneCalled
      ensures Valid() && queue == [] && Abs() == Scheduler.Drained(old(Abs()), clocks)
      ensures doneCalled == old(doneCalled) + Dones(old(queue))
    {
      hide ValidWith, AbsWith, Scheduler.Serve, Scheduler.Drained, ClocksOk, RequestOf, Dones;
      var left := clocks;
      while true
        invariant |left| == |queue| && ClocksOk(queue, left) && ValidWith(queue)
        invariant Scheduler.Drained(AbsWith(queue), left) == Scheduler.Drained(old(Abs()), clocks)
        invariant doneCalled + Dones(queue) == old(doneCalled) + Dones(old(queue))
        decreases |queue|
      {
        var n := if |queue| < OPS_CAP then |queue| else OPS_CAP;
        if n == 0 {
          break;
        }
        var ops, now := queue[..n], left[..n];
        ClocksOkParts(queue, left, n);
        assert queue == ops + queue[n..] && left == now + left[n..];
        queue, left := queue[n..], left[n..];
        DonesAppend(ops, queue);
        ghost var before := doneCalled;
        ServeBatch(ops, now, queue, left);
        assert before + (Dones(ops) + Dones(queue)) == doneCalled + Dones(queue);
      }
      DrainedNothing(Abs(), left);
      DonesOfNone();
    }

    // ---- The cached minimum --------------------------------------------------------------

    method ScanOne(level: nat, slot: nat)
      requires Wired(buckets, timers, NoHole) && (forall id | id in timers :: timers[id].expiry > 0)
      requires level < LEVELS && slot < SLOTS && LeastBefore(nextExpiryTime, timers, level, slot, 0)
      modifies `nextExpiryTime
      ensures LeastBefore(nextExpiryTime, timers, level, slot + 1, 0)
    {
      hide Wired, LeastBefore, In;
      WiredShape(buckets, timers);
      var bucket := buckets[level][slot];
      for pos := 0 to |bucket|
        invariant LeastBefore(nextExpiryTime, timers, level, slot, pos)
      {
        InBucket(buckets, level, slot, pos);
        ScanEntry(buckets, timers, nextExpiryTime, Loc(level, slot, pos));
        var t := timers[bucket[pos]];
        if nextExpiryTime == 0 || t.expiry < nextExpiryTime {
          nextExpiryTime := t.expiry;
        }
      }
      ScanBucket(buckets, timers, nextExpiryTime, level, slot);
    }

    method UpdateNextExpiryTime()
      requires Wired(buckets, timers, NoHole) && (forall id | id in timers :: timers[id].expiry > 0)
      modifies `nextExpiryTime
      ensures NextOk(nextExpiryTime, false, timers)
    {
      hide Wired, LeastBefore, NextOk;
      nextExpiryTime := 0;
      NothingScanned(timers);
      for level := 0 to LEVELS
        invariant LeastBefore(nextExpiryTime, timers, level, 0, 0)
      {
        for slot := 0 to SLOTS
          invariant LeastBefore(nextExpiryTime, timers, level, slot, 0)
        {
          ScanOne(level, slot);
        }
        ScanLevel(buckets, timers, nextExpiryTime, level);
      }
      ScanDone(buckets, timers, nextExpiryTime);
    }

    /** The dirty flag only skips rescans that would change nothing. */
    method RefreshNextExpiry()
      requires Consistent()
      modifies `nextExpiryTime, `nextExpiryDirty
      ensures Consistent() && !nextExpiryDirty && IsMinimum(nextExpiryTime, timers)
    {
      hide Wired, HandlersOk;
      if activeTimerCount == 0 {
        nextExpiryTime := 0;
      } else if nextExpiryDirty || nextExpiryTime == 0 {
        UpdateNextExpiryTime();
      }
      nextExpiryDirty := false;
    }

    // ---- The tick --------------------------------------------------------------------------

    /** Time passed from `d` on, if any. */
    ghost predicate PassedSince(d: Scheduler.State)
      reads this
    {
      if currentTime == d.now then Abs() == d else Scheduler.Elapsed(d, currentTime, Abs())
    }

    method AdvanceTo(newTime: nat)
      requires Valid() && queue == [] && newTime > currentTime && AllNear(currentTime, Filed(timers))
      modifies `currentTime, `buckets, `timers, `nextExpiryTime, `nextExpiryDirty, `activeTimerCount, `firedRaw,
               `runQueue, `log
      ensures Consistent() && AllPlaced(currentTime, timers) && AllNear(currentTime, Filed(timers))
      ensures HandedSince(old(log), old(runQueue)) && Scheduler.Elapsed(old(Abs()), newTime, Abs())
    {
      hide Consistent, Requests, DroppedIds, Filed, AllPlaced, AllNear, Scheduler.Elapsed, Scheduler.Inv, OpsOk;
      ghost var d, run := Abs(), runQueue;
      assert log[|d.log|..] == [];
      while currentTime < newTime
        invariant d.now <= currentTime <= newTime && queue == [] && PassedSince(d)
        invariant Consistent() && AllPlaced(currentTime, timers) && AllNear(currentTime, Filed(timers))
        invariant HandedSince(d.log, run)
      {
        ghost var m := Abs();
        Advance(d.log, run);
        if m.now > d.now {
          Scheduler.ElapsedCompose(d, m.now, m, currentTime, Abs());
        }
      }
    }

    /** Advance, refresh the minimum and run the collected callbacks. */
    method PassTime(newTime: nat) returns (called: seq<nat>)
      requires Valid() && queue == [] && newTime > currentTime && AllNear(currentTime, Filed(timers))
      modifies `currentTime, `buckets, `timers, `nextExpiryTime, `nextExpiryDirty, `activeTimerCount, `firedRaw,
               `runQueue, `log
      ensures Valid() && Scheduler.Elapsed(old(Abs()), newTime, Abs()) && old(log) <= log
      ensures AllNear(currentTime, Filed(timers))
      ensures called == Handed(log[|old(log)|..], handlers, RawFn)
      ensures runQueue == old(runQueue) + Handed(log[|old(log)|..], handlers, Coroutine)
      ensures !nextExpiryDirty && IsMinimum(nextExpiryTime, timers)
    {
      hide Consistent, Requests, DroppedIds, Filed, AllPlaced, AllNear, Scheduler.Elapsed, Scheduler.Inv,
           OpsOk, Handed, IsMinimum;
      ghost var d := Abs();
      AdvanceTo(newTime);
      Scheduler.ElapsedKeepsInv(d, newTime, Abs());
      RefreshNextExpiry();
      called := firedRaw;
      firedRaw := [];
      NoOpsOk(cancelledPending + detachedPending, queued, handlers);
    }

    /**
      Drain the queue, let the time pass millisecond by millisecond, refresh the minimum and
      call the collected callbacks. `clocks` are the clock readings of the drained updates and
      `newTime` the reading after the drain.
     */
    method Tick(clocks: seq<nat>, newTime: nat) returns (called: seq<nat>)
      requires Valid() && |clocks| == |queue| && ClocksOk(queue, clocks)
      requires AllNear(currentTime, Scheduler.Drained(Abs(), clocks).filed)
      modifies this
      ensures Valid() && Scheduler.Ticked(old(Abs()), clocks, newTime, Abs())
      ensures AllNear(currentTime, Abs().filed)
      ensures doneCalled == old(doneCalled) + Dones(old(queue))
      ensures old(log) <= log && handlers == old(handlers)
      ensures called == Handed(log[|old(log)|..], handlers, RawFn)
      ensures runQueue == old(runQueue) + Handed(log[|old(log)|..], handlers, Coroutine)
      ensures !nextExpiryDirty && IsMinimum(nextExpiryTime, timers)
    {
      hide Consistent, Requests, DroppedIds, Filed, AllPlaced, AllNear, Scheduler.Elapsed, Scheduler.Inv, Scheduler.Drained,
           OpsOk, IsMinimum, HandedSince, Dones;
      ghost var s := Abs();
      DrainQueue(clocks);
      DrainedLog(s, clocks);
      called := [];
      if newTime <= currentTime {
        RefreshNextExpiry();
        assert log[|s.log|..] == [];
      } else {
        called := PassTime(newTime);
      }
    }

    /** The poll timeout for the clock reading `clock`. */
    method GetNextTimeout(clock: nat) returns (timeout: int)
      requires Valid()
      ensures timeout == -1 <==> nextExpiryTime == 0
      ensures timeout == -1 ==> timers == map[]
      ensures -1 <= timeout <= INT_MAX
      ensures timeout > 0 ==> forall id | id in timers :: clock + timeout <= timers[id].expiry
      ensures timeout == 0 <==> 0 < nextExpiryTime <= clock
      ensures 0 < timeout < INT_MAX ==> clock + timeout == nextExpiryTime
    {
      hide Wired, AllPlaced, Scheduler.Inv, Filed;
      if nextExpiryTime == 0 {
        return -1;
      }
      if nextExpiryTime <= clock {
        return 0;
      }
      var diff := nextExpiryTime - clock;
      if diff > INT_MAX {
        return INT_MAX;
      }
      return diff;
    }

    method Empty() returns (r: bool)
      requires Valid()
      ensures r <==> Abs().filed == map[]
    {
      hide Wired, AllPlaced, Scheduler.Inv;
      FiledKeys(timers);
      r := activeTimerCount == 0;
    }
  }

  lemma DonesOfNone()
    ensures Dones([]) == []
  {
  }

  lemma DonesOfOne(op: Op)
    ensures Dones([op]) == if op.Remove? && op.done.DoneFn? then [op.done.arg] else []
  {
    assert [op][..0] == [];
  }

  lemma {:induction false} DonesAppend(a: seq<Op>, b: seq<Op>)
    ensures Dones(a + b) == Dones(a) + Dones(b)
    decreases |b|
  {
    if b == [] {
      assert a + b == a;
    } else {
      var n := |b| - 1;
      DonesAppend(a, b[..n]);
      assert (a + b)[..|a| + n] == a + b[..n];
    }
  }

  lemma NothingScanned(timers: Timers)
    ensures LeastBefore(0, timers, 0, 0, 0)
  {
  }

  lemma WiredShape(b: Buckets, timers: Timers)
    requires Wired(b, timers, NoHole)
    ensures Shape(b)
  {
  }

  lemma InBucket(b: Buckets, level: nat, slot: nat, pos: nat)
    requires Shape(b) && level < LEVELS && slot < SLOTS && pos < |b[level][slot]|
    ensures In(b, Loc(level, slot, pos))
  {
  }

  lemma NoOpsOk(pending: set<nat>, queued: map<nat, nat>, handlers: map<nat, Handler>)
    ensures OpsOk([], pending, queued, handlers)
  {
  }

  lemma DrainedLog(s: Scheduler.State, clocks: seq<nat>)
    requires |clocks| == |s.requests|
    ensures Scheduler.Drained(s, clocks).log == s.log && Scheduler.Drained(s, clocks).now == s.now
  {
    Scheduler.ServeAllGrows(s, s.requests, clocks);
  }

  lemma RequestsAppend(queue: seq<Op>, op: Op)
    ensures Requests(queue + [op]) == Requests(queue) + [RequestOf(op)]
  {
  }

  /** The next id is known nowhere yet, so a new add disturbs nothing. */
  lemma FreshAdd(s: Scheduler.State, timers: Timers, queue: seq<Op>, pending: set<nat>, queued: map<nat, nat>,
                 handlers: map<nat, Handler>, op: Op)
    requires op.Add? && op.addId > s.issued && op.expiry > 0
    requires OpsOk(queue, pending, queued, handlers) && HandlersOk(timers, handlers)
    requires Scheduler.Inv(s) && s.queued == queued && s.filed == Filed(timers) && s.requests == Requests(queue)
    requires s.dropped == DroppedIds(pending, s.maxAdded)
    ensures (op.addId in s.dropped <==> op.addId in pending) && HandlersOk(timers, handlers[op.addId := op.handler])
    ensures Requests(queue + [op]) == Requests(queue) + [RequestOf(op)]
    ensures var handlers' := handlers[op.addId := op.handler];
            OpsOk(queue + [op], pending, if op.addId in pending then queued else queued[op.addId := op.expiry], handlers')
  {
    assert forall id | id in timers :: id in Filed(timers);
    Scheduler.QueuedAddsAreOld(s.requests, s.maxAdded, s.issued, op.addId);
    RequestsAppend(queue, op);
    var queued' := if op.addId in pending then queued else queued[op.addId := op.expiry];
    var handlers' := handlers[op.addId := op.handler];
    assert op.addId !in queued;
    forall i | 0 <= i < |queue| && queue[i].Add? ensures AddOk(queue[i], pending, queued', handlers') {
      assert s.requests[i] != Scheduler.Add(op.addId);
      assert AddOk(queue[i], pending, queued, handlers);
    }
  }

  lemma WithdrawFiledFacts(c: Core, s: Scheduler.State, id: nat)
    requires Sound(c) && s.filed == Filed(c.timers) && id in c.timers && Scheduler.Inv(s) && AllPlaced(s.now, c.timers)
    ensures Wired(c.b, c.timers, NoHole) && Filed(Unfiled(c, id).timers) == Filed(c.timers) - {id}
    ensures id in s.filed && Scheduler.Inv(Scheduler.Withdraw(s, id)) && AllPlaced(s.now, Unfiled(c, id).timers)
  {
    hide AllPlaced, Scheduler.Withdraw, Filed;
    UnfiledFacts(c, id);
    FiledAt(c.timers, id);
    PositiveId(s, id);
    Scheduler.WithdrawKeepsInv(s, id);
    UnfiledKeepsPlaced(s.now, c, id);
  }

  lemma PositiveId(s: Scheduler.State, id: nat)
    requires Scheduler.Inv(s) && id in s.filed
    ensures 0 < id <= s.maxAdded
  {
  }

  lemma WithdrawQueuedFacts(s: Scheduler.State, timers: Timers, ops: seq<Op>, pending: set<nat>,
                            handlers: map<nat, Handler>, id: nat)
    requires Scheduler.Inv(s) && s.filed == Filed(timers) && id !in timers && id > s.maxAdded
    requires s.dropped == DroppedIds(pending, s.maxAdded) && OpsOk(ops, pending, s.queued, handlers)
    ensures id !in s.filed && Scheduler.Inv(Scheduler.Withdraw(s, id))
    ensures DroppedIds(pending + {id}, s.maxAdded) == s.dropped + {id}
    ensures OpsOk(ops, pending + {id}, s.queued - {id}, handlers)
  {
    Scheduler.WithdrawKeepsInv(s, id);
    forall i | 0 <= i < |ops| && ops[i].Add? ensures AddOk(ops[i], pending + {id}, s.queued - {id}, handlers) {
      assert AddOk(ops[i], pending, s.queued, handlers);
    }
  }

  /** Erasing the drained id from either pending set changes nothing that is still looked at. */
  lemma ErasedFacts(rest: seq<Op>, pending: set<nat>, pending': set<nat>, queued: map<nat, nat>,
                    handlers: map<nat, Handler>, maxAdded: nat, id: nat)
    requires OpsOk(rest, pending, queued, handlers) && id <= maxAdded
    requires pending - {id} <= pending' <= pending
    requires forall i | 0 <= i < |rest| && rest[i].Add? :: rest[i].addId != id
    ensures OpsOk(rest, pending', queued, handlers) && DroppedIds(pending', maxAdded) == DroppedIds(pending, maxAdded)
  {
    forall i | 0 <= i < |rest| && rest[i].Add? ensures AddOk(rest[i], pending', queued, handlers) {
      assert AddOk(rest[i], pending, queued, handlers);
    }
  }

  lemma ServeAddQueue(s: Scheduler.State, op: Op, clock: nat, rest: seq<Op>, pending: set<nat>,
                      handlers: map<nat, Handler>)
    requires op.Add? && Scheduler.Inv(s) && s.requests == Requests([op] + rest)
    requires s.dropped == DroppedIds(pending, s.maxAdded) && OpsOk([op] + rest, pending, s.queued, handlers)
    ensures op.addId > s.maxAdded && op.addId !in s.filed && (op.addId in s.queued <==> op.addId !in pending)
    ensures forall i | 0 <= i < |rest| && rest[i].Add? :: rest[i].addId != op.addId
    ensures OpsOk(rest, pending, s.queued - {op.addId}, handlers)
    ensures DroppedIds(pending, op.addId) == s.dropped - {op.addId}
    ensures AddOk(op, pending, s.queued, handlers)
    ensures Scheduler.Serve(s, RequestOf(op), clock).(requests := Requests(rest))
            == s.(maxAdded := op.addId, queued := s.queued - {op.addId}, dropped := DroppedIds(pending, op.addId),
                  filed := if op.addId in pending then s.filed else s.filed[op.addId := op.expiry],
                  requests := Requests(rest))
    ensures Scheduler.Inv(Scheduler.Serve(s, RequestOf(op), clock).(requests := Requests(rest)))
  {
    var all := [op] + rest;
    assert s.requests[0] == RequestOf(op) && s.requests[1..] == Requests(rest);
    Scheduler.ServeKeepsInv(s, clock);
    Scheduler.QueuedAddsAreNew(Requests(rest), s.maxAdded + 1, s.issued, op.addId);
    assert AddOk(all[0], pending, s.queued, handlers);
    forall i | 0 <= i < |rest| && rest[i].Add?
      ensures rest[i].addId != op.addId && AddOk(rest[i], pending, s.queued - {op.addId}, handlers)
    {
      assert all[i + 1] == rest[i] && Requests(rest)[i] == RequestOf(rest[i]);
      assert AddOk(all[i + 1], pending, s.queued, handlers);
    }
  }

  /** Popping an op other than an add keeps everything else in order. */
  lemma SkipOp(s: Scheduler.State, op: Op, clock: nat, rest: seq<Op>, pending: set<nat>, handlers: map<nat, Handler>)
    requires !op.Add? && Scheduler.Inv(s) && s.requests == Requests([op] + rest)
    requires OpsOk([op] + rest, pending, s.queued, handlers)
    ensures OpsOk(rest, pending, s.queued, handlers) && Scheduler.Inv(s.(requests := Requests(rest)))
    ensures Scheduler.Inv(Scheduler.Serve(s, RequestOf(op), clock).(requests := Requests(rest)))
    ensures op.Remove? ==> Scheduler.Serve(s, RequestOf(op), clock).(requests := Requests(rest))
                           == Scheduler.Withdraw(s.(requests := Requests(rest)), op.idOnly)
  {
    var all := [op] + rest;
    assert s.requests[0] == RequestOf(op) && s.requests[1..] == Requests(rest);
    Scheduler.ServeKeepsInv(s, clock);
    Scheduler.PoppingKeepsInv(s);
    forall i | 0 <= i < |rest| && rest[i].Add? ensures AddOk(rest[i], pending, s.queued, handlers) {
      assert all[i + 1] == rest[i];
    }
  }

  lemma RefileFacts(c: Core, s: Scheduler.State, id: nat, newDur: nat, clock: nat, rest: seq<Op>, pending: set<nat>,
                    handlers: map<nat, Handler>)
    requires Sound(c) && s.filed == Filed(c.timers) && HandlersOk(c.timers, handlers) && id in c.timers
    requires Scheduler.Inv(s) && AllPlaced(s.now, c.timers) && s.requests == Requests([Update(id, newDur)] + rest)
    requires OpsOk([Update(id, newDur)] + rest, pending, s.queued, handlers) && Scheduler.Expiry(clock, newDur) > 0
    ensures Wired(c.b, c.timers, NoHole) && id in s.filed && OpsOk(rest, pending, s.queued, handlers)
    ensures Scheduler.Inv(Scheduler.Serve(s, Scheduler.Update(id, newDur), clock).(requests := Requests(rest)))
    ensures var n := Refiled(c, s.now, id, Scheduler.Expiry(clock, newDur));
            && Sound(n) && |n.timers| == |c.timers| && Filed(n.timers) == s.filed[id := Scheduler.Expiry(clock, newDur)]
            && HandlersOk(n.timers, handlers) && AllPlaced(s.now, n.timers)
  {
    hide Sound, Wired, AllPlaced, Scheduler.Inv, OpsOk, Requests, Refiled, Filed;
    SkipOp(s, Update(id, newDur), clock, rest, pending, handlers);
    RefiledFacts(c, s.now, id, Scheduler.Expiry(clock, newDur));
    FiledAt(c.timers, id);
  }

  /** Every clock reading used by an update gives a non-zero expiry. */
  ghost predicate ClocksOk(queue: seq<Op>, clocks: seq<nat>)
    requires |clocks| == |queue|
  {
    forall i | 0 <= i < |queue| && queue[i].Update? :: Scheduler.Expiry(clocks[i], queue[i].newDur) > 0
  }

  lemma ClocksOkAt(queue: seq<Op>, clocks: seq<nat>, i: nat)
    requires |clocks| == |queue| && ClocksOk(queue, clocks) && i < |queue|
    ensures queue[i].Update? ==> Scheduler.Expiry(clocks[i], queue[i].newDur) > 0
  {
  }

  lemma ClocksOkParts(queue: seq<Op>, clocks: seq<nat>, n: nat)
    requires |clocks| == |queue| && ClocksOk(queue, clocks) && n <= |queue|
    ensures ClocksOk(queue[..n], clocks[..n]) && ClocksOk(queue[n..], clocks[n..])
  {
  }

  lemma DrainedStep(s: Scheduler.State, op: Op, rest: seq<Op>, clocks: seq<nat>)
    requires s.requests == Requests([op] + rest) && |clocks| == |s.requests|
    ensures Scheduler.Drained(Scheduler.Serve(s, RequestOf(op), clocks[0]).(requests := Requests(rest)), clocks[1..])
            == Scheduler.Drained(s, clocks)
  {
    assert s.requests[0] == RequestOf(op) && s.requests[1..] == Requests(rest);
    var served := Scheduler.Serve(s, s.requests[0], clocks[0]);
    Scheduler.ServeAllIgnoresQueue(served, s.requests[1..], clocks[1..], Requests(rest));
  }

  lemma DrainedNothing(s: Scheduler.State, clocks: seq<nat>)
    requires s.requests == [] && |clocks| == 0
    ensures Scheduler.Drained(s, clocks) == s
  {
  }
}
