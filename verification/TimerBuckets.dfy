/**
  The wheel's data structure as values: buckets of timer ids, the id map with the back
  pointers into the buckets, and the cached minimum. Each lemma is about one edit that
  the wheel makes.
 */
module TimerBuckets {
  import opened TimerPlacement
  import Scheduler

  type Firing = Scheduler.Firing
  type Buckets = seq<seq<seq<nat>>>

  /** What a timer hands over when it fires. */
  datatype Handler = RawFn | Coroutine | Nothing

  /** A back pointer: level, slot and position in the bucket. */
  datatype Loc = Loc(level: nat, slot: nat, pos: nat)

  /** A filed timer, as the id map finds it. */
  datatype Timer = Timer(expiry: nat, handler: Handler, at: Loc)

  type Timers = map<nat, Timer>

  datatype Hole = NoHole | HoleAt(loc: Loc)

  // ---- Buckets and back pointers --------------------------------------------------------

  ghost predicate Shape(b: Buckets) {
    |b| == LEVELS && forall l | 0 <= l < LEVELS :: |b[l]| == SLOTS
  }

  ghost predicate In(b: Buckets, at: Loc)
    requires Shape(b)
  {
    at.level < LEVELS && at.slot < SLOTS && at.pos < |b[at.level][at.slot]|
  }

  ghost function Entry(b: Buckets, at: Loc): nat
    requires Shape(b) && In(b, at)
  {
    b[at.level][at.slot][at.pos]
  }

  /** Buckets and back pointers are inverse to each other, but for the entry at `hole`. */
  ghost predicate Wired(b: Buckets, timers: Timers, hole: Hole) {
    && Shape(b)
    && (forall id | id in timers ::
          In(b, timers[id].at) && Entry(b, timers[id].at) == id && hole != HoleAt(timers[id].at))
    && (forall at: Loc | In(b, at) && hole != HoleAt(at) :: Entry(b, at) in timers && timers[Entry(b, at)].at == at)
  }

  function Push(b: Buckets, level: nat, slot: nat, id: nat): Buckets
    requires level < |b| && slot < |b[level]|
  {
    b[level := b[level][slot := b[level][slot] + [id]]]
  }

  /** Replace the entry by the last one of its bucket and shorten the bucket. */
  function SwapPop(b: Buckets, at: Loc): Buckets
    requires at.level < |b| && at.slot < |b[at.level]| && at.pos < |b[at.level][at.slot]|
  {
    var bucket := b[at.level][at.slot];
    var last := |bucket| - 1;
    b[at.level := b[at.level][at.slot := bucket[at.pos := bucket[last]][..last]]]
  }

  /** The timer that was last in the bucket now points to `at`. */
  function Repointed(b: Buckets, timers: Timers, at: Loc): Timers
    requires at.level < |b| && at.slot < |b[at.level]| && at.pos < |b[at.level][at.slot]|
  {
    var bucket := b[at.level][at.slot];
    var last := bucket[|bucket| - 1];
    if at.pos == |bucket| - 1 || last !in timers then timers else timers[last := timers[last].(at := at)]
  }

  /** The back pointer a timer gets when it is filed at time `now`. */
  ghost function NewLoc(b: Buckets, now: nat, expiry: nat): Loc
    requires Shape(b)
  {
    var l, s := PlaceLevel(now, expiry), PlaceSlot(now, expiry);
    Loc(l, s, |b[l][s]|)
  }

  lemma PushKeepsWired(b: Buckets, timers: Timers, hole: Hole, level: nat, slot: nat, id: nat, t: Timer)
    requires Wired(b, timers, hole) && id !in timers && level < LEVELS && slot < SLOTS
    requires hole.HoleAt? ==> In(b, hole.loc)
    requires t.at == Loc(level, slot, |b[level][slot]|)
    ensures Wired(Push(b, level, slot, id), timers[id := t], hole)
  {
    var b', timers' := Push(b, level, slot, id), timers[id := t];
    forall at: Loc | In(b', at) && hole != HoleAt(at) ensures Entry(b', at) in timers' && timers'[Entry(b', at)].at == at {
      if at != t.at {
        assert In(b, at) && Entry(b, at) == Entry(b', at);
      }
    }
  }

  lemma ForgetMakesHole(b: Buckets, timers: Timers, id: nat)
    requires Wired(b, timers, NoHole) && id in timers
    ensures Wired(b, timers - {id}, HoleAt(timers[id].at))
  {
  }

  lemma SwapPopFillsHole(b: Buckets, timers: Timers, at: Loc)
    requires Shape(b) && In(b, at) && Wired(b, timers, HoleAt(at))
    ensures Wired(SwapPop(b, at), Repointed(b, timers, at), NoHole)
    ensures Repointed(b, timers, at).Keys == timers.Keys
  {
    var b', timers' := SwapPop(b, at), Repointed(b, timers, at);
    var end := Loc(at.level, at.slot, |b[at.level][at.slot]| - 1);
    if at != end {
      assert In(b, end) && Entry(b, end) in timers;
    }
    forall x: Loc | In(b', x) ensures Entry(b', x) in timers' && timers'[Entry(b', x)].at == x {
      if x != at {
        assert In(b, x) && Entry(b, x) == Entry(b', x);
      }
    }
  }

  // ---- The cached minimum -----------------------------------------------------------------

  ghost predicate IsMinimum(next: nat, timers: Timers) {
    if timers == map[] then next == 0 else exists id :: id in timers && timers[id].expiry == next
  }

  /** The cached minimum never exceeds a filed expiry, and is exact unless marked dirty. */
  ghost predicate NextOk(next: nat, dirty: bool, timers: Timers) {
    && (forall id | id in timers :: 0 < next <= timers[id].expiry)
    && (!dirty ==> IsMinimum(next, timers))
  }

  function Earlier(next: nat, expiry: nat): nat {
    if next == 0 || expiry < next then expiry else next
  }

  ghost function Filed(timers: Timers): map<nat, nat> {
    map id | id in timers :: timers[id].expiry
  }

  /** Only expiries matter to the cached minimum. */
  lemma FiledFixesNext(next: nat, dirty: bool, timers: Timers, timers': Timers)
    requires NextOk(next, dirty, timers) && Filed(timers') == Filed(timers)
    ensures NextOk(next, dirty, timers')
  {
    assert forall id :: id in timers <==> id in Filed(timers);
    assert forall id :: id in timers' <==> id in Filed(timers');
    assert forall id | id in timers :: timers'[id].expiry == Filed(timers)[id] == timers[id].expiry;
    if !dirty && timers != map[] {
      var id :| id in timers && timers[id].expiry == next;
      assert id in timers' && timers'[id].expiry == next;
    }
  }

  lemma RemovalKeepsNext(next: nat, dirty: bool, timers: Timers, id: nat)
    requires NextOk(next, dirty, timers) && id in timers
    ensures NextOk(next, dirty || timers[id].expiry == next, timers - {id})
  {
    if !dirty && timers[id].expiry != next {
      var u :| u in timers && timers[u].expiry == next;
      assert u in timers - {id} && (timers - {id})[u].expiry == next;
    }
  }

  lemma InsertKeepsNext(next: nat, dirty: bool, timers: Timers, id: nat, t: Timer)
    requires NextOk(next, dirty, timers) && id !in timers && t.expiry > 0
    ensures NextOk(Earlier(next, t.expiry), dirty, timers[id := t])
  {
    var timers' := timers[id := t];
    assert id in timers' && timers'[id] == t;
    if !dirty && timers != map[] {
      var u :| u in timers && timers[u].expiry == next;
      assert u in timers' && timers'[u] == timers[u];
    }
  }

  /** 0 stands for "no timer", so filing keeps the cached minimum right exactly for other expiries. */
  lemma FilingKeepsNextIff(next: nat, dirty: bool, timers: Timers, id: nat, t: Timer)
    requires NextOk(next, dirty, timers) && id !in timers
    ensures NextOk(Earlier(next, t.expiry), dirty, timers[id := t]) <==> t.expiry > 0
  {
    if t.expiry > 0 {
      InsertKeepsNext(next, dirty, timers, id, t);
    } else {
      assert id in timers[id := t] && timers[id := t][id].expiry == 0;
    }
  }

  /** After expiries 5, 0 and 9 have been filed the cached minimum is 9. */
  lemma ZeroExpiryHidesOthers()
    ensures Earlier(Earlier(Earlier(0, 5), 0), 9) == 9
  {
  }

  // ---- Rescanning for the minimum -----------------------------------------------------------

  predicate Before(at: Loc, level: nat, slot: nat, pos: nat) {
    at.level < level || (at.level == level && (at.slot < slot || (at.slot == slot && at.pos < pos)))
  }

  /** `next` is the least expiry among the timers scanned so far, and 0 if there are none. */
  ghost predicate LeastBefore(next: nat, timers: Timers, level: nat, slot: nat, pos: nat) {
    && (forall id | id in timers && Before(timers[id].at, level, slot, pos) :: 0 < next <= timers[id].expiry)
    && (next != 0 ==> exists id :: id in timers && timers[id].expiry == next)
  }

  lemma ScanEntry(b: Buckets, timers: Timers, next: nat, at: Loc)
    requires Wired(b, timers, NoHole) && In(b, at) && LeastBefore(next, timers, at.level, at.slot, at.pos)
    requires forall id | id in timers :: timers[id].expiry > 0
    ensures Entry(b, at) in timers
    ensures LeastBefore(Earlier(next, timers[Entry(b, at)].expiry), timers, at.level, at.slot, at.pos + 1)
  {
    assert Entry(b, at) in timers && timers[Entry(b, at)].at == at;
    forall id | id in timers && Before(timers[id].at, at.level, at.slot, at.pos + 1) && timers[id].at != at
      ensures Before(timers[id].at, at.level, at.slot, at.pos)
    {
    }
  }

  lemma ScanBucket(b: Buckets, timers: Timers, next: nat, level: nat, slot: nat)
    requires Wired(b, timers, NoHole) && level < LEVELS && slot < SLOTS
    requires LeastBefore(next, timers, level, slot, |b[level][slot]|)
    ensures LeastBefore(next, timers, level, slot + 1, 0)
  {
    forall id | id in timers && Before(timers[id].at, level, slot + 1, 0)
      ensures Before(timers[id].at, level, slot, |b[level][slot]|)
    {
      assert In(b, timers[id].at);
    }
  }

  lemma ScanLevel(b: Buckets, timers: Timers, next: nat, level: nat)
    requires Wired(b, timers, NoHole) && level < LEVELS && LeastBefore(next, timers, level, SLOTS, 0)
    ensures LeastBefore(next, timers, level + 1, 0, 0)
  {
    forall id | id in timers && Before(timers[id].at, level + 1, 0, 0) ensures Before(timers[id].at, level, SLOTS, 0) {
      assert In(b, timers[id].at);
    }
  }

  lemma ScanDone(b: Buckets, timers: Timers, next: nat)
    requires Wired(b, timers, NoHole) && LeastBefore(next, timers, LEVELS, 0, 0)
    ensures NextOk(next, false, timers)
  {
    forall id | id in timers ensures Before(timers[id].at, LEVELS, 0, 0) {
      assert In(b, timers[id].at);
    }
    if timers != map[] {
      var id :| id in timers;
      assert Before(timers[id].at, LEVELS, 0, 0);
    }
  }

  // ---- The structure as a whole, and its edits ---------------------------------------------

  datatype Core = Core(b: Buckets, timers: Timers, next: nat, dirty: bool)

  /** Buckets, back pointers, id map and cached minimum describe the same timers. */
  ghost predicate Sound(c: Core) {
    Wired(c.b, c.timers, NoHole) && NextOk(c.next, c.dirty, c.timers)
  }

  /** Remove the timer from its bucket and from the map. */
  ghost function Unfiled(c: Core, id: nat): Core
    requires Wired(c.b, c.timers, NoHole) && id in c.timers
  {
    Core(SwapPop(c.b, c.timers[id].at), Repointed(c.b, c.timers - {id}, c.timers[id].at),
         c.next, c.dirty || c.timers[id].expiry == c.next)
  }

  /** File a new timer at time `now`. */
  ghost function Inserted(c: Core, now: nat, id: nat, expiry: nat, handler: Handler): Core
    requires Shape(c.b)
  {
    var at := NewLoc(c.b, now, expiry);
    Core(Push(c.b, at.level, at.slot, id), c.timers[id := Timer(expiry, handler, at)], Earlier(c.next, expiry), c.dirty)
  }

  /** Move a timer to its place for time `now`. */
  ghost function Moved(c: Core, now: nat, id: nat): Core
    requires Wired(c.b, c.timers, NoHole) && id in c.timers
  {
    var u := Unfiled(c, id);
    var at := NewLoc(u.b, now, c.timers[id].expiry);
    c.(b := Push(u.b, at.level, at.slot, id), timers := u.timers[id := c.timers[id].(at := at)])
  }

  lemma UnfiledIsWired(c: Core, id: nat)
    requires Wired(c.b, c.timers, NoHole) && id in c.timers
    ensures Wired(Unfiled(c, id).b, Unfiled(c, id).timers, NoHole)
    ensures Unfiled(c, id).timers.Keys == c.timers.Keys - {id}
  {
    ForgetMakesHole(c.b, c.timers, id);
    SwapPopFillsHole(c.b, c.timers - {id}, c.timers[id].at);
  }

  /** The timers that stay keep their expiry, handler, level and slot. */
  lemma UnfiledKeepsOthers(c: Core, id: nat, other: nat)
    requires Wired(c.b, c.timers, NoHole) && id in c.timers && other in c.timers && other != id
    ensures other in Unfiled(c, id).timers
    ensures var t, t' := c.timers[other], Unfiled(c, id).timers[other];
            t'.expiry == t.expiry && t'.handler == t.handler && t'.at.level == t.at.level && t'.at.slot == t.at.slot
  {
    var at := c.timers[id].at;
    var end := Loc(at.level, at.slot, |c.b[at.level][at.slot]| - 1);
    assert In(c.b, end) && Entry(c.b, end) in c.timers && c.timers[Entry(c.b, end)].at == end;
  }

  lemma LastIsFiled(b: Buckets, timers: Timers, at: Loc)
    requires Wired(b, timers, NoHole) && In(b, at)
    ensures b[at.level][at.slot][|b[at.level][at.slot]| - 1] in timers
  {
    assert In(b, at.(pos := |b[at.level][at.slot]| - 1));
  }

  /** Erasing the id before or after the swap-pop is the same; the handlers stay. */
  lemma UnfiledHandlers(c: Core, id: nat)
    requires Wired(c.b, c.timers, NoHole) && id in c.timers
    ensures In(c.b, c.timers[id].at)
    ensures Unfiled(c, id).timers == Repointed(c.b, c.timers, c.timers[id].at) - {id}
    ensures forall other | other in Unfiled(c, id).timers ::
              other in c.timers && Unfiled(c, id).timers[other].handler == c.timers[other].handler
  {
    var at := c.timers[id].at;
    var end := at.(pos := |c.b[at.level][at.slot]| - 1);
    assert In(c.b, end) && Entry(c.b, end) in c.timers && c.timers[Entry(c.b, end)].at == end;
  }

  lemma MapRemoveSize<K, V>(m: map<K, V>, m': map<K, V>, k: K)
    requires k in m && m'.Keys == m.Keys - {k}
    ensures |m'| == |m| - 1
  {
    assert |m'.Keys| == |m'| && |m.Keys| == |m|;
  }

  lemma MapInsertSize<K, V>(m: map<K, V>, k: K, v: V)
    requires k !in m
    ensures |m[k := v]| == |m| + 1
  {
    assert m[k := v].Keys == m.Keys + {k};
  }

  lemma UnfiledFiled(c: Core, id: nat)
    requires Wired(c.b, c.timers, NoHole) && id in c.timers
    ensures Filed(Unfiled(c, id).timers) == Filed(c.timers - {id})
    ensures Filed(c.timers - {id}) == Filed(c.timers) - {id}
  {
    UnfiledIsWired(c, id);
    hide Wired, NewLoc;
    forall other | other in c.timers - {id}
      ensures other in Unfiled(c, id).timers && Unfiled(c, id).timers[other].expiry == c.timers[other].expiry
    {
      UnfiledKeepsOthers(c, id, other);
    }
  }

  lemma UnfiledIsSound(c: Core, id: nat)
    requires Sound(c) && id in c.timers
    ensures Sound(Unfiled(c, id))
    ensures Filed(Unfiled(c, id).timers) == Filed(c.timers) - {id}
    ensures |Unfiled(c, id).timers| == |c.timers| - 1
  {
    var c' := Unfiled(c, id);
    UnfiledIsWired(c, id);
    UnfiledFiled(c, id);
    RemovalKeepsNext(c.next, c.dirty, c.timers, id);
    hide Wired, NextOk, SwapPop, Repointed;
    FiledFixesNext(c'.next, c'.dirty, c.timers - {id}, c'.timers);
    MapRemoveSize(c.timers, c'.timers, id);
  }

  /** All about one removal. */
  lemma UnfiledFacts(c: Core, id: nat)
    requires Sound(c) && id in c.timers
    ensures Wired(c.b, c.timers, NoHole) && Shape(c.b) && In(c.b, c.timers[id].at)
    ensures Unfiled(c, id) == Core(SwapPop(c.b, c.timers[id].at), Repointed(c.b, c.timers, c.timers[id].at) - {id},
                                   c.next, c.dirty || c.timers[id].expiry == c.next)
    ensures Sound(Unfiled(c, id)) && |Unfiled(c, id).timers| == |c.timers| - 1
    ensures Filed(Unfiled(c, id).timers) == Filed(c.timers) - {id}
    ensures forall other | other in Unfiled(c, id).timers ::
              other in c.timers && Unfiled(c, id).timers[other].handler == c.timers[other].handler
  {
    UnfiledIsSound(c, id);
    UnfiledHandlers(c, id);
  }

  lemma InsertedIsWired(c: Core, now: nat, id: nat, expiry: nat, handler: Handler)
    requires Wired(c.b, c.timers, NoHole) && id !in c.timers
    ensures Wired(Inserted(c, now, id, expiry, handler).b, Inserted(c, now, id, expiry, handler).timers, NoHole)
  {
    var at := NewLoc(c.b, now, expiry);
    PushKeepsWired(c.b, c.timers, NoHole, at.level, at.slot, id, Timer(expiry, handler, at));
  }

  lemma FiledInsert(timers: Timers, id: nat, t: Timer)
    ensures Filed(timers[id := t]) == Filed(timers)[id := t.expiry]
  {
  }

  lemma InsertedIsSound(c: Core, now: nat, id: nat, expiry: nat, handler: Handler)
    requires Sound(c) && id !in c.timers && expiry > 0
    ensures Sound(Inserted(c, now, id, expiry, handler))
    ensures Filed(Inserted(c, now, id, expiry, handler).timers) == Filed(c.timers)[id := expiry]
    ensures |Inserted(c, now, id, expiry, handler).timers| == |c.timers| + 1
  {
    assert Shape(c.b);
    hide Wired, NextOk, Push, NewLoc, Filed;
    InsertedIsWired(c, now, id, expiry, handler);
    var t := Inserted(c, now, id, expiry, handler).timers[id];
    InsertKeepsNext(c.next, c.dirty, c.timers, id, t);
    MapInsertSize(c.timers, id, t);
    FiledInsert(c.timers, id, t);
  }

  lemma MovedIsWired(c: Core, now: nat, id: nat)
    requires Wired(c.b, c.timers, NoHole) && id in c.timers
    ensures Wired(Moved(c, now, id).b, Moved(c, now, id).timers, NoHole)
  {
    UnfiledIsWired(c, id);
    var u := Unfiled(c, id);
    var at := NewLoc(u.b, now, c.timers[id].expiry);
    PushKeepsWired(u.b, u.timers, NoHole, at.level, at.slot, id, c.timers[id].(at := at));
  }

  lemma MovedFiled(c: Core, now: nat, id: nat)
    requires Wired(c.b, c.timers, NoHole) && id in c.timers
    ensures Filed(Moved(c, now, id).timers) == Filed(c.timers)
  {
    UnfiledIsWired(c, id);
    UnfiledFiled(c, id);
    var u := Unfiled(c, id);
    var x := c.timers[id].(at := NewLoc(u.b, now, c.timers[id].expiry));
    assert Moved(c, now, id).timers == u.timers[id := x];
    assert id in Filed(c.timers) && Filed(c.timers)[id] == x.expiry;
    hide *;
    FiledInsert(u.timers, id, x);
    PutBack(Filed(c.timers), id);
  }

  lemma PutBack(m: map<nat, nat>, k: nat)
    requires k in m
    ensures (m - {k})[k := m[k]] == m
  {
  }

  lemma FiledAt(timers: Timers, id: nat)
    requires id in timers
    ensures id in Filed(timers) && Filed(timers)[id] == timers[id].expiry
  {
  }

  lemma FiledKeys(timers: Timers)
    ensures forall id :: id in timers <==> id in Filed(timers)
  {
  }

  lemma FiledSize(timers: Timers)
    ensures |Filed(timers)| == |timers|
  {
    assert Filed(timers).Keys == timers.Keys;
    assert |Filed(timers).Keys| == |Filed(timers)| && |timers.Keys| == |timers|;
  }

  lemma MovedIsSound(c: Core, now: nat, id: nat)
    requires Sound(c) && id in c.timers
    ensures Sound(Moved(c, now, id)) && Filed(Moved(c, now, id).timers) == Filed(c.timers)
    ensures |Moved(c, now, id).timers| == |c.timers|
  {
    hide Wired, NextOk, Filed;
    MovedIsWired(c, now, id);
    MovedFiled(c, now, id);
    FiledFixesNext(c.next, c.dirty, c.timers, Moved(c, now, id).timers);
    FiledSize(c.timers);
    FiledSize(Moved(c, now, id).timers);
  }

  /** All about one filing. */
  lemma InsertedFacts(c: Core, now: nat, id: nat, expiry: nat, handler: Handler)
    requires Sound(c) && id !in c.timers && expiry > 0
    ensures Shape(c.b)
    ensures var at := NewLoc(c.b, now, expiry);
            Inserted(c, now, id, expiry, handler)
            == Core(Push(c.b, at.level, at.slot, id), c.timers[id := Timer(expiry, handler, at)],
                    Earlier(c.next, expiry), c.dirty)
    ensures Sound(Inserted(c, now, id, expiry, handler))
    ensures |Inserted(c, now, id, expiry, handler).timers| == |c.timers| + 1
    ensures Filed(Inserted(c, now, id, expiry, handler).timers) == Filed(c.timers)[id := expiry]
  {
    InsertedIsSound(c, now, id, expiry, handler);
  }

  lemma PushPopCommute(b: Buckets, level: nat, slot: nat, id: nat, at: Loc)
    requires Shape(b) && In(b, at) && level < LEVELS && slot < SLOTS && !(level == at.level && slot == at.slot)
    ensures SwapPop(Push(b, level, slot, id), at) == Push(SwapPop(b, at), level, slot, id)
  {
    var x, y := SwapPop(Push(b, level, slot, id), at), Push(SwapPop(b, at), level, slot, id);
    forall l | 0 <= l < LEVELS ensures x[l] == y[l] {
      assert forall s | 0 <= s < SLOTS :: x[l][s] == y[l][s];
    }
  }

  /** Pushing first and popping the old entry afterwards, as the drain loop does, is a move. */
  lemma PushThenPopIsMove(c: Core, now: nat, id: nat)
    requires Wired(c.b, c.timers, NoHole) && id in c.timers
    requires var place := NewLoc(c.b, now, c.timers[id].expiry);
             !(place.level == c.timers[id].at.level && place.slot == c.timers[id].at.slot)
    ensures var at, t := NewLoc(c.b, now, c.timers[id].expiry), c.timers[id];
            var b, timers := Push(c.b, at.level, at.slot, id), c.timers[id := t.(at := at)];
            && SwapPop(b, t.at) == Moved(c, now, id).b
            && Repointed(b, timers, t.at) == Moved(c, now, id).timers
  {
    var at, t := NewLoc(c.b, now, c.timers[id].expiry), c.timers[id];
    PushPopCommute(c.b, at.level, at.slot, id, t.at);
    var pushed := Push(c.b, at.level, at.slot, id);
    var bucket := c.b[t.at.level][t.at.slot];
    assert pushed[t.at.level][t.at.slot] == bucket;
    assert Unfiled(c, id).b[at.level][at.slot] == c.b[at.level][at.slot];
    var end := Loc(t.at.level, t.at.slot, |bucket| - 1);
    assert In(c.b, end) && Entry(c.b, end) == bucket[|bucket| - 1];
  }

  // ---- Places ------------------------------------------------------------------------------

  ghost predicate AllPlaced(now: nat, timers: Timers) {
    forall id | id in timers :: Placed(now, timers[id].at.level, timers[id].at.slot, timers[id].expiry)
  }

  ghost predicate InPhase(now: nat, done: nat, t: Timer) {
    if t.at.level >= done then Settled(now, t.at.level, t.at.slot, t.expiry)
    else Awaiting(now, t.at.level, t.at.slot, t.expiry)
  }

  /** Levels from `done` up have been visited for time `now`, the lower ones not yet. */
  ghost predicate Phase(now: nat, done: nat, timers: Timers) {
    forall id | id in timers :: InPhase(now, done, timers[id])
  }

  ghost predicate AllNear(now: nat, filed: map<nat, nat>) {
    forall id | id in filed :: Near(now, filed[id])
  }

  lemma ClockStep(now: nat, timers: Timers)
    requires AllPlaced(now, timers) && AllNear(now, Filed(timers))
    ensures Phase(now + 1, LEVELS, timers) && AllNear(now + 1, Filed(timers))
  {
    forall id | id in timers ensures InPhase(now + 1, LEVELS, timers[id]) {
      assert id in Filed(timers);
      ClockStepAwaits(now, timers[id].at.level, timers[id].at.slot, timers[id].expiry);
    }
  }

  /** A level with nothing left in the visited slot is settled. */
  lemma LevelDone(now: nat, level: nat, timers: Timers)
    requires level < LEVELS && Phase(now, level + 1, timers)
    requires forall id | id in timers && timers[id].at.level == level :: !Visited(now, level, timers[id].at.slot)
    ensures Phase(now, level, timers)
  {
    forall id | id in timers ensures InPhase(now, level, timers[id]) {
      assert InPhase(now, level + 1, timers[id]);
      if timers[id].at.level == level {
        UnvisitedIsSettled(now, level, timers[id].at.slot, timers[id].expiry);
      }
    }
  }

  lemma UnfiledKeepsPhase(now: nat, done: nat, c: Core, id: nat)
    requires Wired(c.b, c.timers, NoHole) && id in c.timers && Phase(now, done, c.timers)
    ensures Phase(now, done, Unfiled(c, id).timers)
  {
    UnfiledIsWired(c, id);
    forall other | other in Unfiled(c, id).timers ensures InPhase(now, done, Unfiled(c, id).timers[other]) {
      UnfiledKeepsOthers(c, id, other);
      assert InPhase(now, done, c.timers[other]);
    }
  }

  lemma UnfiledKeepsPlaced(now: nat, c: Core, id: nat)
    requires Wired(c.b, c.timers, NoHole) && id in c.timers && AllPlaced(now, c.timers)
    ensures AllPlaced(now, Unfiled(c, id).timers)
  {
    UnfiledIsWired(c, id);
    forall other | other in Unfiled(c, id).timers
      ensures var t := Unfiled(c, id).timers[other]; Placed(now, t.at.level, t.at.slot, t.expiry)
    {
      UnfiledKeepsOthers(c, id, other);
    }
  }

  lemma InsertedKeepsPlaced(now: nat, timers: Timers, b: Buckets, id: nat, expiry: nat, handler: Handler)
    requires Shape(b) && AllPlaced(now, timers)
    ensures AllPlaced(now, timers[id := Timer(expiry, handler, NewLoc(b, now, expiry))])
  {
    FilingIsPlaced(now, expiry);
  }

  /** Take a timer out and file it again with a new expiry. */
  ghost function Refiled(c: Core, now: nat, id: nat, expiry: nat): Core
    requires Wired(c.b, c.timers, NoHole) && id in c.timers
  {
    UnfiledIsWired(c, id);
    Inserted(Unfiled(c, id), now, id, expiry, c.timers[id].handler)
  }

  lemma RefiledFacts(c: Core, now: nat, id: nat, expiry: nat)
    requires Sound(c) && id in c.timers && AllPlaced(now, c.timers) && expiry > 0
    ensures Wired(c.b, c.timers, NoHole)
    ensures var n := Refiled(c, now, id, expiry);
            && Sound(n) && |n.timers| == |c.timers| && Filed(n.timers) == Filed(c.timers)[id := expiry]
            && AllPlaced(now, n.timers)
            && forall other | other in n.timers :: other in c.timers && n.timers[other].handler == c.timers[other].handler
  {
    hide Wired, Sound, Unfiled, Filed, AllPlaced, NewLoc, Push;
    UnfiledFacts(c, id);
    var u, h := Unfiled(c, id), c.timers[id].handler;
    InsertedFacts(u, now, id, expiry, h);
    UnfiledKeepsPlaced(now, c, id);
    InsertedKeepsPlaced(now, u.timers, u.b, id, expiry, h);
    PutOver(Filed(c.timers), id, expiry);
  }

  lemma PutOver(m: map<nat, nat>, k: nat, v: nat)
    ensures (m - {k})[k := v] == m[k := v]
  {
  }

  /** The two edits of a refiling, in the order the wheel makes them. */
  lemma RefiledSteps(c: Core, now: nat, id: nat, expiry: nat)
    requires Sound(c) && id in c.timers
    ensures Wired(c.b, c.timers, NoHole) && Shape(c.b) && In(c.b, c.timers[id].at)
    ensures var b, h := SwapPop(c.b, c.timers[id].at), c.timers[id].handler;
            && Shape(b)
            && var at := NewLoc(b, now, expiry);
               Refiled(c, now, id, expiry)
               == Core(Push(b, at.level, at.slot, id),
                       Repointed(c.b, c.timers, c.timers[id].at)[id := Timer(expiry, h, at)],
                       Earlier(c.next, expiry), c.dirty || c.timers[id].expiry == c.next)
  {
    UnfiledFacts(c, id);
    hide Repointed, NewLoc, Push, Filed;
    ReplaceEntry(Repointed(c.b, c.timers, c.timers[id].at), id, Timer(expiry, c.timers[id].handler,
      NewLoc(SwapPop(c.b, c.timers[id].at), now, expiry)));
  }

  lemma ReplaceEntry(m: Timers, k: nat, v: Timer)
    ensures (m - {k})[k := v] == m[k := v]
  {
  }

  /** A visited timer that is not due moves strictly down, away from the bucket being drained. */
  lemma MovedKeepsPhase(now: nat, level: nat, c: Core, id: nat)
    requires level < LEVELS && Wired(c.b, c.timers, NoHole) && id in c.timers && Phase(now, level + 1, c.timers)
    requires c.timers[id].at.level == level && Visited(now, level, c.timers[id].at.slot) && c.timers[id].expiry > now
    ensures Phase(now, level + 1, Moved(c, now, id).timers)
    ensures NewLoc(c.b, now, c.timers[id].expiry).level < level
  {
    assert InPhase(now, level + 1, c.timers[id]);
    VisitedIsDue(now, level, c.timers[id].at.slot, c.timers[id].expiry);
    CascadeDescends(now, level, c.timers[id].at.slot, c.timers[id].expiry);
    UnfiledIsWired(c, id);
    var m := Moved(c, now, id);
    forall other | other in m.timers ensures InPhase(now, level + 1, m.timers[other]) {
      if other != id {
        UnfiledKeepsOthers(c, id, other);
        assert InPhase(now, level + 1, c.timers[other]);
      }
    }
  }

  /** All about one cascade move, done as a push and a swap-pop of the old entry. */
  lemma MovedFacts(c: Core, now: nat, level: nat, id: nat)
    requires level < LEVELS && Sound(c) && id in c.timers && Phase(now, level + 1, c.timers)
    requires c.timers[id].at.level == level && Visited(now, level, c.timers[id].at.slot) && c.timers[id].expiry > now
    ensures Wired(c.b, c.timers, NoHole) && Shape(c.b) && In(c.b, c.timers[id].at)
    ensures NewLoc(c.b, now, c.timers[id].expiry).level < level
    ensures var at, t := NewLoc(c.b, now, c.timers[id].expiry), c.timers[id];
            var b, timers := Push(c.b, at.level, at.slot, id), c.timers[id := t.(at := at)];
            && Shape(b) && In(b, t.at) && b[t.at.level][t.at.slot][|b[t.at.level][t.at.slot]| - 1] in timers
            && Moved(c, now, id) == Core(SwapPop(b, t.at), Repointed(b, timers, t.at), c.next, c.dirty)
    ensures Sound(Moved(c, now, id)) && Phase(now, level + 1, Moved(c, now, id).timers)
    ensures |Moved(c, now, id).timers| == |c.timers| && Filed(Moved(c, now, id).timers) == Filed(c.timers)
    ensures Earlier(c.next, c.timers[id].expiry) == c.next
    ensures forall other | other in Moved(c, now, id).timers ::
              other in c.timers && Moved(c, now, id).timers[other].handler == c.timers[other].handler
  {
    hide Phase, NextOk, Filed, PlaceLevel, PlaceSlot, Visited;
    MovedKeepsPhase(now, level, c, id);
    MovedIsSound(c, now, id);
    NextIsEarlier(c, id);
    PushThenPopIsMove(c, now, id);
    MovedHandlers(c, now, id);
    assert Entry(c.b, c.timers[id].at) == id;
    LastIsFiled(c.b, c.timers, c.timers[id].at);
  }

  lemma NextIsEarlier(c: Core, id: nat)
    requires Sound(c) && id in c.timers
    ensures Earlier(c.next, c.timers[id].expiry) == c.next
  {
  }

  lemma MovedHandlers(c: Core, now: nat, id: nat)
    requires Wired(c.b, c.timers, NoHole) && id in c.timers
    ensures forall other | other in Moved(c, now, id).timers ::
              other in c.timers && Moved(c, now, id).timers[other].handler == c.timers[other].handler
  {
    UnfiledHandlers(c, id);
    UnfiledIsWired(c, id);
  }

  /** The front of a visited bucket, and what happens to the bucket when it goes. */
  lemma FrontFacts(c: Core, now: nat, level: nat, slot: nat)
    requires level < LEVELS && slot < SLOTS && Sound(c) && Phase(now, level + 1, c.timers)
    requires Visited(now, level, slot) && Shape(c.b) && c.b[level][slot] != []
    ensures var id := c.b[level][slot][0];
            && Wired(c.b, c.timers, NoHole) && id in c.timers
            && c.timers[id].at == Loc(level, slot, 0)
            && Shape(Unfiled(c, id).b) && |Unfiled(c, id).b[level][slot]| == |c.b[level][slot]| - 1
            && Phase(now, level + 1, Unfiled(c, id).timers)
            && (c.timers[id].expiry > now ==>
                  && Shape(Moved(c, now, id).b) && |Moved(c, now, id).b[level][slot]| == |c.b[level][slot]| - 1
                  && Phase(now, level + 1, Moved(c, now, id).timers) && Filed(Moved(c, now, id).timers) == Filed(c.timers))
  {
    var id := c.b[level][slot][0];
    assert In(c.b, Loc(level, slot, 0)) && Entry(c.b, Loc(level, slot, 0)) == id;
    UnfiledIsWired(c, id);
    UnfiledKeepsPhase(now, level + 1, c, id);
    if c.timers[id].expiry > now {
      MovedKeepsPhase(now, level, c, id);
      MovedIsWired(c, now, id);
      MovedFiled(c, now, id);
    }
  }

  lemma SoundShape(c: Core)
    requires Sound(c)
    ensures Shape(c.b)
  {
  }

  /** Once the visited bucket is empty, the level is done. */
  lemma EmptySlotDone(c: Core, now: nat, level: nat, slot: nat)
    requires level < LEVELS && slot < SLOTS && Sound(c) && Phase(now, level + 1, c.timers)
    requires Visited(now, level, slot) && Shape(c.b) && c.b[level][slot] == []
    ensures Phase(now, level, c.timers)
  {
    forall id | id in c.timers && c.timers[id].at.level == level ensures !Visited(now, level, c.timers[id].at.slot) {
      assert In(c.b, c.timers[id].at);
    }
    LevelDone(now, level, c.timers);
  }

  lemma UnvisitedLevelDone(now: nat, level: nat, timers: Timers)
    requires level < LEVELS && now % Interval(level) != 0 && Phase(now, level + 1, timers)
    ensures Phase(now, level, timers)
  {
    LevelDone(now, level, timers);
  }

  lemma VisitLevelZero(now: nat)
    ensures Visited(now, 0, now % SLOTS)
  {
  }

  // ---- Firings ----------------------------------------------------------------------------

  /** `batch` takes the filed set from `before` to `after`, firing only timers due at `t`. */
  ghost predicate Fires(before: map<nat, nat>, after: map<nat, nat>, batch: seq<Firing>, t: nat) {
    && (forall id | id in after :: id in before && after[id] == before[id])
    && (forall i | 0 <= i < |batch| ::
          batch[i].time == t && batch[i].id in before && before[batch[i].id] <= t && batch[i].id !in after)
    && (forall i, j | 0 <= i < j < |batch| :: batch[i].id != batch[j].id)
    && (forall id | id in before && id !in after :: exists i :: 0 <= i < |batch| && batch[i].id == id)
  }

  lemma FiresOneMore(before: map<nat, nat>, after: map<nat, nat>, batch: seq<Firing>, t: nat, id: nat)
    requires Fires(before, after, batch, t) && id in after && after[id] <= t
    ensures Fires(before, after - {id}, batch + [Scheduler.Firing(id, t)], t)
  {
    var longer := batch + [Scheduler.Firing(id, t)];
    forall k | k in before && k !in after - {id} ensures exists i :: 0 <= i < |longer| && longer[i].id == k {
      if k == id {
        assert longer[|batch|].id == k;
      } else {
        var i :| 0 <= i < |batch| && batch[i].id == k;
        assert longer[i].id == k;
      }
    }
  }

  /** When nothing due is left, the batch is one step of the simple scheduler. */
  lemma FiresIsElapsed(s: Scheduler.State, s': Scheduler.State, batch: seq<Firing>)
    requires Fires(s.filed, s'.filed, batch, s.now + 1)
    requires forall id | id in s'.filed :: s'.filed[id] > s.now + 1
    requires s' == s.(now := s.now + 1, filed := s'.filed, log := s.log + batch)
    ensures Scheduler.Elapsed(s, s.now + 1, s')
  {
    assert s'.filed == Scheduler.StillFiled(s.filed, s.now + 1);
    assert s'.log[|s.log|..] == batch;
  }

  lemma NothingFiredYet(before: map<nat, nat>, base: seq<Firing>, t: nat)
    ensures base[|base|..] == [] && Fires(before, before, base[|base|..], t)
  {
  }

  /** When every level has been visited, one step of the simple scheduler has been taken. */
  lemma StepDone(s: Scheduler.State, s': Scheduler.State, timers: Timers, batch: seq<Firing>)
    requires Phase(s.now + 1, 0, timers) && s'.filed == Filed(timers) && Fires(s.filed, s'.filed, batch, s.now + 1)
    requires s' == s.(now := s.now + 1, filed := s'.filed, log := s.log + batch) && AllNear(s.now, s.filed)
    ensures Scheduler.Elapsed(s, s.now + 1, s')
    ensures AllPlaced(s.now + 1, timers) && AllNear(s.now + 1, Filed(timers))
  {
    forall id | id in timers
      ensures timers[id].expiry > s.now + 1
      ensures Placed(s.now + 1, timers[id].at.level, timers[id].at.slot, timers[id].expiry)
    {
      assert InPhase(s.now + 1, 0, timers[id]);
    }
    FiresIsElapsed(s, s', batch);
  }

  /** The ids of `log` whose timers carry handler `h`, in firing order. */
  function Handed(log: seq<Firing>, handlers: map<nat, Handler>, h: Handler): seq<nat> {
    if log == [] then []
    else
      var last := log[|log| - 1];
      Handed(log[..|log| - 1], handlers, h)
      + if last.id in handlers && handlers[last.id] == h then [last.id] else []
  }

  lemma HandedOneMore(log: seq<Firing>, f: Firing, handlers: map<nat, Handler>, h: Handler)
    ensures Handed(log + [f], handlers, h)
            == Handed(log, handlers, h) + if f.id in handlers && handlers[f.id] == h then [f.id] else []
  {
    assert (log + [f])[..|log|] == log;
  }
}
