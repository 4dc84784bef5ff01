/**
  Where the hierarchical wheel files a timer, and when that place is visited.

  Level `l` has 256 slots of `Interval(l)` milliseconds. A timer is filed by its
  distance from the wheel time; `advance()` visits, at each millisecond, the slot of
  every level whose interval divides the new time. The lemmas here say that, within
  the horizon `Near`, a filed timer is visited exactly when it must be, and that a
  cascade always moves it to a strictly lower level that is not being visited.
 */
module TimerPlacement {

  const LEVELS: nat := 4
  const SLOTS: nat := 256

  function Interval(level: nat): nat
    requires level < LEVELS
  {
    if level == 0 then 1 else if level == 1 then 256 else if level == 2 then 65536 else 16777216
  }

  /** The level the search loop of `addTimerToWheel` stops at. */
  function LevelFor(diff: nat): (level: nat)
    ensures level < LEVELS
    ensures level + 1 < LEVELS ==> diff < Interval(level) * SLOTS
    ensures level > 0 ==> diff >= Interval(level)
  {
    if diff < 256 then 0 else if diff < 65536 then 1 else if diff < 16777216 then 2 else 3
  }

  function Distance(t: nat, expiry: nat): nat {
    if expiry > t then expiry - t else 0
  }

  function PlaceLevel(t: nat, expiry: nat): (level: nat)
    ensures level < LEVELS
  {
    LevelFor(Distance(t, expiry))
  }

  function PlaceSlot(t: nat, expiry: nat): (slot: nat)
    ensures slot < SLOTS
  {
    if expiry <= t then (t + 1) % SLOTS else (expiry / Interval(PlaceLevel(t, expiry))) % SLOTS
  }

  /** `advance()` to time `t` processes this slot of this level. */
  predicate Visited(t: nat, level: nat, slot: nat)
    requires level < LEVELS
  {
    t % Interval(level) == 0 && slot == (t / Interval(level)) % SLOTS
  }

  /** The exact horizon of the wheel: at most 256 top-level slots ahead. */
  predicate Near(t: nat, expiry: nat) {
    expiry / 16777216 <= t / 16777216 + 256
  }

  /** A correct place for a timer between two `advance()` steps at wheel time `t`. */
  predicate Placed(t: nat, level: nat, slot: nat, expiry: nat) {
    && level < LEVELS
    && if level == 0 then
         if expiry <= t then slot == (t + 1) % SLOTS else expiry < t + SLOTS && slot == expiry % SLOTS
       else
         && slot == (expiry / Interval(level)) % SLOTS
         && t / Interval(level) < expiry / Interval(level)
         && (level < 3 ==> expiry / Interval(level) <= t / Interval(level) + SLOTS)
  }

  /** A correct place once the time has become `t` but this level is not yet visited. */
  predicate Awaiting(t: nat, level: nat, slot: nat, expiry: nat) {
    && level < LEVELS
    && if level == 0 then
         if expiry <= t then slot == t % SLOTS else expiry < t + SLOTS && slot == expiry % SLOTS
       else
         && slot == (expiry / Interval(level)) % SLOTS
         && if t % Interval(level) == 0
            then t / Interval(level) <= expiry / Interval(level) < t / Interval(level) + SLOTS
            else t / Interval(level) < expiry / Interval(level) <= t / Interval(level) + SLOTS
  }

  /** A place that is correct at `t` after this level has been visited. */
  predicate Settled(t: nat, level: nat, slot: nat, expiry: nat) {
    Placed(t, level, slot, expiry) && t < expiry
  }

  // ---- Filing ------------------------------------------------------------------------

  lemma FilingIsPlaced(t: nat, expiry: nat)
    ensures Placed(t, PlaceLevel(t, expiry), PlaceSlot(t, expiry), expiry)
  {
  }

  /** The documented bound of 2^32 ms is inside the exact horizon. */
  lemma HorizonCoversThirtyTwoBits(t: nat, expiry: nat)
    requires expiry < t + 0x1_0000_0000
    ensures Near(t, expiry)
  {
  }

  // ---- One step of the clock ---------------------------------------------------------

  lemma ClockStepAwaits(t: nat, level: nat, slot: nat, expiry: nat)
    requires Placed(t, level, slot, expiry) && Near(t, expiry)
    ensures Awaiting(t + 1, level, slot, expiry)
  {
    if level > 0 {
      BlockStep(t, level);
    }
  }

  lemma BlockStep(t: nat, level: nat)
    requires level < LEVELS
    ensures (t + 1) / Interval(level) == t / Interval(level) + if (t + 1) % Interval(level) == 0 then 1 else 0
  {
    if level == 0 {} else if level == 1 {} else if level == 2 {} else {}
  }

  lemma UnvisitedIsSettled(t: nat, level: nat, slot: nat, expiry: nat)
    requires Awaiting(t, level, slot, expiry) && !Visited(t, level, slot)
    ensures Settled(t, level, slot, expiry)
  {
  }

  /** A visited timer is due now, or its whole top-level remainder is below the interval. */
  lemma VisitedIsDue(t: nat, level: nat, slot: nat, expiry: nat)
    requires Awaiting(t, level, slot, expiry) && Visited(t, level, slot)
    ensures level == 0 ==> expiry <= t
    ensures level > 0 ==> t <= expiry < t + Interval(level)
  {
  }

  /**
    A cascade moves a timer strictly down, to a place that is right for the new time and
    that no level still to be visited in this step will visit.
   */
  lemma CascadeDescends(t: nat, level: nat, slot: nat, expiry: nat)
    requires level > 0 && Awaiting(t, level, slot, expiry) && Visited(t, level, slot) && t < expiry
    ensures PlaceLevel(t, expiry) < level
    ensures Awaiting(t, PlaceLevel(t, expiry), PlaceSlot(t, expiry), expiry)
    ensures !Visited(t, PlaceLevel(t, expiry), PlaceSlot(t, expiry))
  {
    VisitedIsDue(t, level, slot, expiry);
    BoundaryDividesDown(t, level);
    var lower := PlaceLevel(t, expiry);
    assert lower < level;
    AheadByWholeSlots(t, expiry, lower);
    AheadIsUnvisited(t, lower, expiry, (expiry - t) / Interval(lower));
  }

  lemma AheadIsUnvisited(t: nat, level: nat, expiry: nat, ahead: nat)
    requires level < 3 && t % Interval(level) == 0 && t < expiry && PlaceLevel(t, expiry) == level
    requires ahead == (expiry - t) / Interval(level)
    requires expiry / Interval(level) == t / Interval(level) + ahead
    ensures 0 < ahead < SLOTS
    ensures Awaiting(t, level, PlaceSlot(t, expiry), expiry) && !Visited(t, level, PlaceSlot(t, expiry))
  {
    assert 0 < ahead < SLOTS by {
      if level == 0 {} else if level == 1 {} else {}
    }
    SlotsDiffer(t / Interval(level), ahead);
  }

  lemma SlotsDiffer(block: nat, ahead: nat)
    requires 0 < ahead < SLOTS
    ensures (block + ahead) % SLOTS != block % SLOTS
  {
  }

  lemma BoundaryDividesDown(t: nat, level: nat)
    requires 0 < level < LEVELS && t % Interval(level) == 0
    ensures forall lower: nat :: lower < level ==> t % Interval(lower) == 0
  {
    var k := t / Interval(level);
    if level == 3 {
      assert t == 256 * (65536 * k) && t == 65536 * (256 * k);
    } else if level == 2 {
      assert t == 256 * (256 * k);
    }
  }

  lemma AheadByWholeSlots(t: nat, expiry: nat, level: nat)
    requires level < LEVELS && t % Interval(level) == 0 && t < expiry
    ensures expiry / Interval(level) == t / Interval(level) + (expiry - t) / Interval(level)
  {
  }
}
