/**
  Hazard pointers with a rotating cache of slots. Readers protect objects that they find in a
  source; objects are retired once they are in no source any more; scans read all slots of all
  records one by one and delete the retired objects that they have not met. Readers and any
  number of scans interleave freely, one atomic operation per step. A reader's look at its own
  slots is no step of its own: nobody else writes them.
 */
module HazardPointers {
  import opened Compaction

  type Obj = nat

  const NULL: Obj := 0

  const SLOTS: nat := 8

  /** What the owner of a record does next. */
  datatype Pc =
    | Free                                   // no owner
    | Idle
    | Publish(x: nat, p: Obj)                // protect: store p, loaded from source x, in the victim slot
    | Validate(x: nat, p: Obj, i: nat)       // protect: load the source again
    | Releasing(i: nat)                      // clear slot i

  datatype Record = Record(
    slots: seq<Obj>,
    active: bool,
    victim: nat,
    pc: Pc,
    held: set<Obj>,     // history: returned by protect and still in a slot
    misses: nat,        // history: slots published
    born: seq<nat>      // history: the miss that filled the slot
  )

  datatype ScanPc = AtRecord | Reading(k: nat) | Deleting

  /** A scan of the retired list `cands`; `left` records are still to be visited, the last one first. */
  datatype Scan = Scan(cands: set<Obj>, left: nat, pc: ScanPc, collected: set<Obj>)

  datatype State = State(
    src: map<nat, Obj>,
    records: seq<Record>,
    listed: set<Obj>,          // retired, in a list that nobody scans
    scans: map<nat, Scan>,
    freed: seq<Obj>            // history: handed to their deleters
  )

  datatype Step =
    | AcquireOld(r: nat) | AcquireNew | Load(r: nat, x: nat) | Store(r: nat) | Reload(r: nat)
    | Release(r: nat) | ClearSlot(r: nat)
    | SetSource(x: nat, p: Obj) | Retire(p: Obj)
    | ScanStart(id: nat, cands: set<Obj>) | ScanRecord(id: nat) | ScanSlot(id: nat) | ScanDecide(id: nat, p: Obj)

  function Init(): State {
    State(map[], [], {}, map[], [])
  }

  predicate Retired(s: State, p: Obj) {
    p in s.listed || exists id :: id in s.scans && p in s.scans[id].cands
  }

  predicate Owns(s: State, r: nat, pc: Pc) {
    r < |s.records| && s.records[r].pc == pc
  }

  /** Retire what is unlinked, once; link nothing that is retired. */
  predicate Enabled(s: State, step: Step) {
    match step
    case AcquireOld(r) => Owns(s, r, Free)
    case AcquireNew => true
    case Load(r, x) => Owns(s, r, Idle) && x in s.src
    case Store(r) => r < |s.records| && s.records[r].pc.Publish? && s.records[r].victim < |s.records[r].slots|
                     && s.records[r].victim < |s.records[r].born|
    case Reload(r) => r < |s.records| && s.records[r].pc.Validate? && s.records[r].pc.x in s.src
    case Release(r) => Owns(s, r, Idle)
    case ClearSlot(r) => r < |s.records| && s.records[r].pc.Releasing? && s.records[r].pc.i < |s.records[r].slots|
    case SetSource(x, p) => p == NULL || !Retired(s, p)
    case Retire(p) => p != NULL && p !in s.src.Values && !Retired(s, p)
    case ScanStart(id, cands) => id !in s.scans && cands <= s.listed
    case ScanRecord(id) => id in s.scans && s.scans[id].pc.AtRecord? && s.scans[id].left <= |s.records|
    case ScanSlot(id) =>
      && id in s.scans && s.scans[id].pc.Reading? && 0 < s.scans[id].left <= |s.records|
      && s.scans[id].pc.k < |s.records[s.scans[id].left - 1].slots|
    case ScanDecide(id, p) => id in s.scans && s.scans[id].pc.Deleting? && p in s.scans[id].cands
  }

  function Zeros(): seq<nat> { seq(SLOTS, _ => 0) }

  /** `protect` goes on with `p`, just loaded from source `x`. */
  function Found(rec: Record, x: nat, p: Obj): Record {
    if p == NULL then rec.(pc := Idle)
    else if p in rec.slots then rec.(pc := Idle, held := rec.held + {p})
    else rec.(pc := Publish(x, p))
  }

  function Stored(rec: Record): Record
    requires rec.pc.Publish? && rec.victim < |rec.slots| && rec.victim < |rec.born|
  {
    var i := rec.victim;
    rec.(slots := rec.slots[i := rec.pc.p], victim := (i + 1) % SLOTS, pc := Validate(rec.pc.x, rec.pc.p, i),
         held := rec.held - {rec.slots[i]}, misses := rec.misses + 1, born := rec.born[i := rec.misses + 1])
  }

  function Cleared(rec: Record): Record
    requires rec.pc.Releasing? && rec.pc.i < |rec.slots|
  {
    var i := rec.pc.i;
    var n := rec.(slots := rec.slots[i := NULL]);
    if i + 1 < |rec.slots| then n.(pc := Releasing(i + 1)) else n.(pc := Free, active := false)
  }

  function ReloadDo(rec: Record, src: map<nat, Obj>): Record
    requires rec.pc.Validate? && rec.pc.x in src
  {
    var again := src[rec.pc.x];
    if again == rec.pc.p then rec.(pc := Idle, held := rec.held + {again}) else Found(rec, rec.pc.x, again)
  }

  function SetRecord(s: State, r: nat, rec: Record): State
    requires r < |s.records|
  {
    s.(records := s.records[r := rec])
  }

  function SetScan(s: State, id: nat, scan: Scan): State {
    s.(scans := s.scans[id := scan])
  }

  function ScanSlotDo(scan: Scan, slots: seq<Obj>): Scan
    requires scan.pc.Reading? && scan.pc.k < |slots| && scan.left > 0
  {
    var k := scan.pc.k;
    var n := if slots[k] == NULL then scan else scan.(collected := scan.collected + {slots[k]});
    if k + 1 < |slots| then n.(pc := Reading(k + 1)) else n.(pc := AtRecord, left := scan.left - 1)
  }

  function ScanRecordDo(scan: Scan, records: seq<Record>): Scan
    requires scan.left <= |records|
  {
    if scan.left == 0 then scan.(pc := Deleting)
    else if records[scan.left - 1].active then scan.(pc := Reading(0))
    else scan.(left := scan.left - 1)
  }

  function Do(s: State, step: Step): State
    requires Enabled(s, step)
  {
    match step
    case AcquireOld(r) => SetRecord(s, r, s.records[r].(active := true, pc := Idle))
    case AcquireNew => s.(records := s.records + [Record(Zeros(), true, 0, Idle, {}, 0, Zeros())])
    case Load(r, x) => SetRecord(s, r, Found(s.records[r], x, s.src[x]))
    case Store(r) => SetRecord(s, r, Stored(s.records[r]))
    case Reload(r) => SetRecord(s, r, ReloadDo(s.records[r], s.src))
    case Release(r) => SetRecord(s, r, s.records[r].(pc := Releasing(0), held := {}))
    case ClearSlot(r) => SetRecord(s, r, Cleared(s.records[r]))
    case SetSource(x, p) => s.(src := s.src[x := p])
    case Retire(p) => s.(listed := s.listed + {p})
    case ScanStart(id, cands) =>
      SetScan(s.(listed := s.listed - cands), id, Scan(cands, |s.records|, AtRecord, {}))
    case ScanRecord(id) => SetScan(s, id, ScanRecordDo(s.scans[id], s.records))
    case ScanSlot(id) => SetScan(s, id, ScanSlotDo(s.scans[id], s.records[s.scans[id].left - 1].slots))
    case ScanDecide(id, p) =>
      var scan := s.scans[id];
      var n := SetScan(s, id, scan.(cands := scan.cands - {p}));
      if p in scan.collected then n.(listed := s.listed + {p}) else n.(freed := s.freed + [p])
  }

  /** Does this step hand `p` to its deleter? */
  predicate Deletes(s: State, step: Step, p: Obj)
    requires Enabled(s, step)
  {
    Do(s, step).freed == s.freed + [p]
  }

  // ---- Invariant ---------------------------------------------------------------------------

  /** The slot was filled by miss `born`, less than `SLOTS` misses ago. */
  predicate BornOk(i: nat, born: nat, misses: nat) {
    born > 0 ==> (born - 1) % SLOTS == i && born <= misses < born + SLOTS
  }

  ghost predicate RecordOk(rec: Record) {
    && |rec.slots| == |rec.born| == SLOTS && rec.victim == rec.misses % SLOTS
    && (forall i | 0 <= i < SLOTS :: BornOk(i, rec.born[i], rec.misses))
    && (forall i, j | 0 <= i < j < SLOTS :: rec.slots[i] == rec.slots[j] ==> rec.slots[i] == NULL)
    && (forall i | 0 <= i < SLOTS && rec.slots[i] != NULL :: rec.born[i] > 0)
    && (forall p | p in rec.held :: p != NULL && p in rec.slots)
    && (rec.held != {} ==> rec.active && !rec.pc.Free? && !rec.pc.Releasing?)
    && (rec.active <==> !rec.pc.Free?)
    && (rec.pc.Publish? ==> rec.pc.p != NULL && rec.pc.p !in rec.slots)
    && (rec.pc.Validate? ==> rec.pc.i < SLOTS && rec.slots[rec.pc.i] == rec.pc.p != NULL)
    && (rec.pc.Releasing? ==> rec.pc.i < SLOTS)
  }

  /** Has the scan read slot `i` of record `r` already, or left out the record? */
  predicate Passed(scan: Scan, r: nat, i: nat) {
    scan.left <= r || (scan.left == r + 1 && scan.pc.Reading? && scan.pc.k > i)
  }

  /** What a reader holds in a slot that the scan has passed was collected. */
  predicate SlotSeen(scan: Scan, rec: Record, r: nat, i: nat)
    requires i < |rec.slots|
  {
    var p := rec.slots[i];
    p in rec.held && p in scan.cands && Passed(scan, r, i) ==> p in scan.collected
  }

  predicate ScanOk(scan: Scan, records: seq<Record>) {
    && scan.left <= |records|
    && (scan.pc.Deleting? ==> scan.left == 0)
    && (scan.pc.Reading? ==> scan.left > 0 && scan.pc.k < SLOTS)
    && forall r, i | 0 <= r < |records| && 0 <= i < |records[r].slots| :: SlotSeen(scan, records[r], r, i)
  }

  ghost predicate SourcesOk(s: State) {
    forall x | x in s.src && s.src[x] != NULL :: !Retired(s, s.src[x])
  }

  ghost predicate Inv(s: State) {
    && (forall r | 0 <= r < |s.records| :: RecordOk(s.records[r]))
    && (forall id | id in s.scans :: ScanOk(s.scans[id], s.records))
    && SourcesOk(s)
  }

  // ---- Records -------------------------------------------------------------------------------

  lemma FoundKeeps(rec: Record, x: nat, p: Obj)
    requires RecordOk(rec) && (rec.pc.Idle? || rec.pc.Validate?)
    ensures RecordOk(Found(rec, x, p))
  {
  }

  lemma ReloadKeeps(rec: Record, src: map<nat, Obj>)
    requires RecordOk(rec) && rec.pc.Validate? && rec.pc.x in src
    ensures RecordOk(ReloadDo(rec, src))
  {
    hide BornOk;
    FoundKeeps(rec, rec.pc.x, src[rec.pc.x]);
  }

  /** The victim slot is the one that was filled longest ago: exactly `SLOTS` misses before. */
  lemma VictimIsOldest(victim: nat, born: nat, misses: nat)
    requires victim == misses % SLOTS && BornOk(victim, born, misses) && born > 0
    ensures misses + 1 == born + SLOTS
  {
  }

  lemma OthersStayYoung(victim: nat, i: nat, born: nat, misses: nat)
    requires victim == misses % SLOTS && i < SLOTS && i != victim && BornOk(i, born, misses)
    ensures BornOk(i, born, misses + 1)
  {
  }

  lemma NextVictim(misses: nat)
    ensures (misses % SLOTS + 1) % SLOTS == (misses + 1) % SLOTS && BornOk(misses % SLOTS, misses + 1, misses + 1)
  {
  }

  lemma StoredKeeps(rec: Record)
    requires RecordOk(rec) && rec.pc.Publish?
    ensures RecordOk(Stored(rec))
  {
    hide BornOk;
    var n := Stored(rec);
    NextVictim(rec.misses);
    forall i | 0 <= i < SLOTS ensures BornOk(i, n.born[i], n.misses) {
      if i != rec.victim {
        OthersStayYoung(rec.victim, i, rec.born[i], rec.misses);
      }
    }
    forall p | p in n.held ensures p != NULL && p in n.slots {
      var k :| 0 <= k < SLOTS && rec.slots[k] == p;
      assert n.slots[k] == p;
    }
  }

  lemma ClearedKeeps(rec: Record)
    requires RecordOk(rec) && rec.pc.Releasing?
    ensures RecordOk(Cleared(rec))
  {
    hide BornOk;
  }

  lemma NewRecordOk()
    ensures RecordOk(Record(Zeros(), true, 0, Idle, {}, 0, Zeros()))
  {
  }

  // ---- Scans ---------------------------------------------------------------------------------

  /** A change of one record does not disturb a scan if nothing that it looks for becomes held. */
  lemma RecordChangeKeepsScan(scan: Scan, records: seq<Record>, r: nat, rec: Record)
    requires ScanOk(scan, records) && r < |records| && |rec.slots| == |records[r].slots|
    requires forall i | 0 <= i < |rec.slots| && rec.slots[i] in rec.held && rec.slots[i] in scan.cands ::
               rec.slots[i] == records[r].slots[i] && rec.slots[i] in records[r].held
    ensures ScanOk(scan, records[r := rec])
  {
    var records' := records[r := rec];
    forall q, i | 0 <= q < |records'| && 0 <= i < |records'[q].slots| ensures SlotSeen(scan, records'[q], q, i) {
      assert SlotSeen(scan, records[q], q, i);
    }
  }

  lemma ScanSlotKeeps(scan: Scan, records: seq<Record>)
    requires ScanOk(scan, records) && scan.pc.Reading? && RecordOk(records[scan.left - 1])
    ensures ScanOk(ScanSlotDo(scan, records[scan.left - 1].slots), records)
  {
    var scan' := ScanSlotDo(scan, records[scan.left - 1].slots);
    forall r, i | 0 <= r < |records| && 0 <= i < |records[r].slots| ensures SlotSeen(scan', records[r], r, i) {
      assert SlotSeen(scan, records[r], r, i);
    }
  }

  lemma ScanRecordKeeps(scan: Scan, records: seq<Record>)
    requires ScanOk(scan, records) && scan.pc.AtRecord? && forall r | 0 <= r < |records| :: RecordOk(records[r])
    ensures ScanOk(ScanRecordDo(scan, records), records)
  {
    var scan' := ScanRecordDo(scan, records);
    forall r, i | 0 <= r < |records| && 0 <= i < |records[r].slots| ensures SlotSeen(scan', records[r], r, i) {
      assert SlotSeen(scan, records[r], r, i) && RecordOk(records[r]);
    }
  }

  // ---- Steps ---------------------------------------------------------------------------------

  lemma RecordStepKeeps(s: State, r: nat, rec: Record)
    requires Inv(s) && r < |s.records| && RecordOk(rec)
    requires forall p | p in rec.held && p !in s.records[r].held :: !Retired(s, p)
    requires forall i | 0 <= i < SLOTS && rec.slots[i] in rec.held && rec.slots[i] in s.records[r].held ::
               rec.slots[i] == s.records[r].slots[i]
    ensures Inv(SetRecord(s, r, rec))
  {
    hide RecordOk, ScanOk;
    var s' := SetRecord(s, r, rec);
    SlotCount(rec);
    SlotCount(s.records[r]);
    forall id | id in s'.scans ensures ScanOk(s'.scans[id], s'.records) {
      forall i | 0 <= i < |rec.slots| && rec.slots[i] in rec.held && rec.slots[i] in s.scans[id].cands
        ensures rec.slots[i] == s.records[r].slots[i] && rec.slots[i] in s.records[r].held
      {
        assert Retired(s, rec.slots[i]);
      }
      RecordChangeKeepsScan(s.scans[id], s.records, r, rec);
    }
    SameRetired(s, s');
  }

  lemma SlotCount(rec: Record)
    requires RecordOk(rec)
    ensures |rec.slots| == SLOTS
  {
  }

  lemma SameRetired(s: State, s': State)
    requires SourcesOk(s) && s'.src == s.src && s'.listed == s.listed && s'.scans == s.scans
    ensures SourcesOk(s')
  {
    assert forall p :: Retired(s', p) == Retired(s, p);
  }

  lemma ReaderKeeps(s: State, step: Step)
    requires Inv(s) && Enabled(s, step) && (step.Load? || step.Reload?)
    ensures Inv(Do(s, step))
  {
    hide RecordOk, ScanOk;
    var rec := s.records[step.r];
    if step.Load? {
      FoundKeeps(rec, step.x, s.src[step.x]);
      FoundHolds(rec, step.x, s.src[step.x]);
      RecordStepKeeps(s, step.r, Found(rec, step.x, s.src[step.x]));
    } else {
      ReloadKeeps(rec, s.src);
      FoundHolds(rec, rec.pc.x, s.src[rec.pc.x]);
      ReloadIsNotNull(rec);
      RecordStepKeeps(s, step.r, ReloadDo(rec, s.src));
    }
  }

  lemma ReloadIsNotNull(rec: Record)
    requires RecordOk(rec) && rec.pc.Validate?
    ensures rec.pc.p != NULL
  {
  }

  lemma FoundHolds(rec: Record, x: nat, p: Obj)
    ensures Found(rec, x, p).slots == rec.slots
    ensures forall q | q in Found(rec, x, p).held && q !in rec.held :: q == p != NULL
  {
  }

  lemma StoreKeeps(s: State, r: nat)
    requires Inv(s) && Enabled(s, Store(r))
    ensures Inv(Do(s, Store(r)))
  {
    hide ScanOk, BornOk;
    var rec := s.records[r];
    StoredKeeps(rec);
    hide RecordOk;
    RecordStepKeeps(s, r, Stored(rec));
  }

  lemma OwnerKeeps(s: State, step: Step)
    requires Inv(s) && Enabled(s, step) && (step.AcquireOld? || step.Release? || step.ClearSlot?)
    ensures Inv(Do(s, step))
  {
    hide ScanOk, BornOk;
    var rec := s.records[step.r];
    assert RecordOk(rec);
    match step
    case AcquireOld(r) => RecordStepKeeps(s, r, rec.(active := true, pc := Idle));
    case Release(r) => RecordStepKeeps(s, r, rec.(pc := Releasing(0), held := {}));
    case ClearSlot(r) =>
      ClearedKeeps(rec);
      assert rec.held == {};
      RecordStepKeeps(s, r, Cleared(rec));
  }

  lemma AcquireNewKeeps(s: State)
    requires Inv(s)
    ensures Inv(Do(s, AcquireNew))
  {
    hide RecordOk;
    var s' := Do(s, AcquireNew);
    NewRecordOk();
    SameRetired(s, s');
    forall id | id in s'.scans ensures ScanOk(s'.scans[id], s'.records) {
      forall r, i | 0 <= r < |s'.records| && 0 <= i < |s'.records[r].slots|
        ensures SlotSeen(s'.scans[id], s'.records[r], r, i)
      {
        if r < |s.records| {
          assert SlotSeen(s.scans[id], s.records[r], r, i);
        }
      }
    }
  }

  lemma RetireKeeps(s: State, step: Step)
    requires Inv(s) && Enabled(s, step) && (step.SetSource? || step.Retire?)
    ensures Inv(Do(s, step))
  {
    hide RecordOk, ScanOk;
    var s' := Do(s, step);
    forall x | x in s'.src && s'.src[x] != NULL ensures !Retired(s', s'.src[x]) {
      assert step.Retire? ==> s.src[x] in s.src.Values;
      assert Retired(s', s'.src[x]) ==> Retired(s, s'.src[x]);
    }
  }

  /** A scan changes nothing but its own state, and retires nothing. */
  lemma ScanChangeKeeps(s: State, s': State, id: nat)
    requires Inv(s) && s'.src == s.src && s'.records == s.records && id in s'.scans
    requires ScanOk(s'.scans[id], s'.records) && s'.scans == s.scans[id := s'.scans[id]]
    requires forall p | Retired(s', p) :: Retired(s, p)
    ensures Inv(s')
  {
    hide RecordOk, ScanOk, Retired;
  }

  lemma ScanGoKeeps(s: State, step: Step)
    requires Inv(s) && Enabled(s, step) && (step.ScanRecord? || step.ScanSlot?)
    ensures Inv(Do(s, step))
  {
    hide RecordOk, ScanOk, SlotSeen;
    var s', scan := Do(s, step), s.scans[step.id];
    ScanBounds(scan, s.records);
    if step.ScanRecord? {
      ScanRecordKeeps(scan, s.records);
    } else {
      ScanSlotKeeps(scan, s.records);
    }
    forall p | Retired(s', p) ensures Retired(s, p) {
      assert step.id in s.scans && s'.scans[step.id].cands == scan.cands;
    }
    ScanChangeKeeps(s, s', step.id);
  }

  lemma ScanBounds(scan: Scan, records: seq<Record>)
    requires ScanOk(scan, records)
    ensures scan.left <= |records| && (scan.pc.Reading? ==> scan.left > 0)
  {
  }

  lemma ScanStartKeeps(s: State, id: nat, cands: set<Obj>)
    requires Inv(s) && Enabled(s, ScanStart(id, cands))
    ensures Inv(Do(s, ScanStart(id, cands)))
  {
    hide RecordOk;
    var s' := Do(s, ScanStart(id, cands));
    forall p | Retired(s', p) ensures Retired(s, p) {
    }
    ScanChangeKeeps(s, s', id);
  }

  lemma ScanDecideKeeps(s: State, id: nat, p: Obj)
    requires Inv(s) && Enabled(s, ScanDecide(id, p))
    ensures Inv(Do(s, ScanDecide(id, p)))
  {
    hide RecordOk;
    var s', scan := Do(s, ScanDecide(id, p)), s.scans[id];
    forall r, i | 0 <= r < |s.records| && 0 <= i < |s.records[r].slots|
      ensures SlotSeen(s'.scans[id], s.records[r], r, i)
    {
      assert SlotSeen(scan, s.records[r], r, i);
    }
    forall q | Retired(s', q) ensures Retired(s, q) {
      assert id in s.scans && s'.scans[id].cands <= scan.cands && p in scan.cands;
    }
    ScanChangeKeeps(s, s', id);
  }

  lemma StepKeepsInv(s: State, step: Step)
    requires Inv(s) && Enabled(s, step)
    ensures Inv(Do(s, step))
  {
    hide Inv, Enabled, Do;
    match step
    case AcquireNew => AcquireNewKeeps(s);
    case Load(_, _) => ReaderKeeps(s, step);
    case Reload(_) => ReaderKeeps(s, step);
    case Store(r) => StoreKeeps(s, r);
    case SetSource(_, _) => RetireKeeps(s, step);
    case Retire(_) => RetireKeeps(s, step);
    case ScanStart(id, cands) => ScanStartKeeps(s, id, cands);
    case ScanRecord(_) => ScanGoKeeps(s, step);
    case ScanSlot(_) => ScanGoKeeps(s, step);
    case ScanDecide(id, p) => ScanDecideKeeps(s, id, p);
    case _ => OwnerKeeps(s, step);
  }

  /** A scan that has passed every slot has collected what anybody holds. */
  lemma HeldIsCollected(scan: Scan, records: seq<Record>, r: nat, p: Obj)
    requires ScanOk(scan, records) && scan.left == 0 && p in scan.cands
    requires r < |records| && RecordOk(records[r]) && p in records[r].held
    ensures p in scan.collected
  {
    var i :| 0 <= i < |records[r].slots| && records[r].slots[i] == p;
    assert SlotSeen(scan, records[r], r, i);
  }

  /** Slots and records are always there: a scan or a publication never leaves its bounds. */
  lemma NeverOutOfBounds(s: State, r: nat, id: nat)
    requires Inv(s)
    ensures r < |s.records| && s.records[r].pc.Publish? ==> Enabled(s, Store(r))
    ensures r < |s.records| && s.records[r].pc.Releasing? ==> Enabled(s, ClearSlot(r))
    ensures id in s.scans && s.scans[id].pc.AtRecord? ==> Enabled(s, ScanRecord(id))
    ensures id in s.scans && s.scans[id].pc.Reading? ==> Enabled(s, ScanSlot(id))
  {
    hide BornOk, SlotSeen;
    assert r < |s.records| ==> RecordOk(s.records[r]);
    if id in s.scans && s.scans[id].pc.Reading? {
      assert ScanOk(s.scans[id], s.records) && RecordOk(s.records[s.scans[id].left - 1]);
    }
  }

  // ---- Whole runs ----------------------------------------------------------------------------

  ghost predicate Run(steps: seq<Step>, states: seq<State>) {
    && |states| == |steps| + 1 && states[0] == Init()
    && forall i | 0 <= i < |steps| :: Enabled(states[i], steps[i]) && states[i + 1] == Do(states[i], steps[i])
  }

  lemma {:induction false} RunKeepsInv(steps: seq<Step>, states: seq<State>, k: nat)
    requires Run(steps, states) && k < |states|
    ensures Inv(states[k])
  {
    hide Enabled, Do, RecordOk, ScanOk;
    if k > 0 {
      RunKeepsInv(steps, states, k - 1);
      StepKeepsInv(states[k - 1], steps[k - 1]);
    }
  }

  lemma DeletesOnlyByDecision(s: State, step: Step, p: Obj)
    requires Enabled(s, step) && Deletes(s, step, p)
    ensures step.ScanDecide? && step.p == p && p !in s.scans[step.id].collected
  {
    assert (s.freed + [p])[|s.freed|] == p;
  }

  /** A retired object leaves the lists in one way only: a scan hands it to its deleter. */
  lemma RetiredUntilDeleted(s: State, step: Step, p: Obj)
    requires Enabled(s, step) && Retired(s, p)
    ensures Retired(Do(s, step), p) || Deletes(s, step, p)
  {
    var s' := Do(s, step);
    if p !in s.listed {
      var id :| id in s.scans && p in s.scans[id].cands;
      assert id in s'.scans;
      if p !in s'.scans[id].cands {
        assert step == ScanDecide(id, p);
      }
    } else if step.ScanStart? && p in step.cands {
      assert step.id in s'.scans && p in s'.scans[step.id].cands;
    }
  }

  /** What `protect` returned is never deleted while the record holds it. */
  lemma ProtectedIsNeverDeleted(steps: seq<Step>, states: seq<State>, k: nat, r: nat, p: Obj)
    requires Run(steps, states) && k < |steps| && r < |states[k].records| && p in states[k].records[r].held
    ensures !Deletes(states[k], steps[k], p)
  {
    RunKeepsInv(steps, states, k);
    var s := states[k];
    if Deletes(s, steps[k], p) {
      DeletesOnlyByDecision(s, steps[k], p);
      HeldIsCollected(s.scans[steps[k].id], s.records, r, p);
    }
  }

  /** Slot `i` of the record holds `p`, put there by miss `b`. */
  predicate HoldsAt(rec: Record, p: Obj, i: nat, b: nat) {
    i < |rec.slots| && i < |rec.born| && rec.slots[i] == p && p in rec.held && rec.born[i] == b
  }

  /** Only the `SLOTS`-th miss after its own, or a release, takes a held object out of its slot. */
  lemma StepHolds(s: State, step: Step, r: nat, p: Obj, i: nat, b: nat)
    requires Inv(s) && Enabled(s, step) && r < |s.records| && HoldsAt(s.records[r], p, i, b)
    requires step != Release(r)
    ensures r < |Do(s, step).records|
    ensures HoldsAt(Do(s, step).records[r], p, i, b) || Do(s, step).records[r].misses == b + SLOTS
    ensures s.records[r].misses <= Do(s, step).records[r].misses
  {
    hide ScanOk, BornOk;
    var rec := s.records[r];
    assert RecordOk(rec) && BornOk(i, b, rec.misses);
    if step == Store(r) && rec.victim == i {
      VictimIsOldest(rec.victim, b, rec.misses);
    }
  }

  /** So a protected object stays, and is not deleted, until `SLOTS` further misses or a release. */
  lemma {:induction false} ProtectionLasts(steps: seq<Step>, states: seq<State>, j: nat, k: nat,
                                           r: nat, p: Obj, i: nat, b: nat)
    requires Run(steps, states) && j <= k < |states| && r < |states[j].records| && HoldsAt(states[j].records[r], p, i, b)
    requires forall m | j <= m < k :: steps[m] != Release(r)
    ensures r < |states[k].records|
    ensures HoldsAt(states[k].records[r], p, i, b) || states[k].records[r].misses >= b + SLOTS
    ensures forall m | j <= m < k && states[k].records[r].misses < b + SLOTS :: !Deletes(states[m], steps[m], p)
    decreases k
  {
    hide Enabled, Do, RecordOk, ScanOk, Deletes;
    if j < k {
      ProtectionLasts(steps, states, j, k - 1, r, p, i, b);
      RunKeepsInv(steps, states, k - 1);
      if HoldsAt(states[k - 1].records[r], p, i, b) {
        StepHolds(states[k - 1], steps[k - 1], r, p, i, b);
        ProtectedIsNeverDeleted(steps, states, k - 1, r, p);
      } else {
        MissesGrow(states[k - 1], steps[k - 1], r);
      }
    }
  }

  lemma MissesGrow(s: State, step: Step, r: nat)
    requires Enabled(s, step) && r < |s.records|
    ensures r < |Do(s, step).records| && s.records[r].misses <= Do(s, step).records[r].misses
  {
  }

  // ---- Reclaiming a list -----------------------------------------------------------------------

  function In(hazards: set<Obj>): Obj -> bool { (p: Obj) => p in hazards }

  /** The loop of `reclaim`: hazards stay in the list, in order; the others are deleted, each once. */
  method Reclaim(list: array<Obj>, hazards: set<Obj>) returns (w: nat, deleted: seq<Obj>)
    modifies list
    ensures w <= list.Length && list[..w] == Kept(old(list[..]), In(hazards))
    ensures multiset(list[..w]) + multiset(deleted) == multiset(old(list[..]))
    ensures forall p :: p in deleted <==> p in old(list[..]) && p !in hazards
  {
    hide Kept;
    w, deleted := Compact(list, In(hazards));
    KeptAndDropped(old(list[..]), In(hazards));
    KeptAndDropped(old(list[..]), Not(In(hazards)));
  }

  // ---- Calls that nobody disturbs --------------------------------------------------------------------

  /** `protect` on a source that does not change returns what is in it, held in a slot. */
  lemma ProtectHolds(s: State, r: nat, x: nat)
    requires Inv(s) && Owns(s, r, Idle) && x in s.src
    ensures var p, s1 := s.src[x], Do(s, Load(r, x));
            if p == NULL then Owns(s1, r, Idle) && s1.records[r].held == s.records[r].held
            else if p in s.records[r].slots then Owns(s1, r, Idle) && p in s1.records[r].held
            else
              && Enabled(s1, Store(r))
              && var s2 := Do(s1, Store(r));
              && Enabled(s2, Reload(r))
              && var s3 := Do(s2, Reload(r));
                 Owns(s3, r, Idle) && p in s3.records[r].held
  {
    assert RecordOk(s.records[r]);
  }

  /** A record is acquired active and idle, and a release takes everything out of it. */
  lemma AcquireAndRelease(s: State, r: nat)
    requires Inv(s)
    ensures Owns(Do(s, AcquireNew), |s.records|, Idle) && Do(s, AcquireNew).records[|s.records|].active
    ensures Owns(s, r, Free) ==> Owns(Do(s, AcquireOld(r)), r, Idle) && Do(s, AcquireOld(r)).records[r].active
    ensures Owns(s, r, Idle) ==> Owns(Do(s, Release(r)), r, Releasing(0)) && Do(s, Release(r)).records[r].held == {}
  {
  }

  /** `n` steps of clearing lead from `s` to `s'`. */
  ghost predicate Clears(s: State, r: nat, n: nat, s': State)
    decreases n
  {
    if n == 0 then s' == s else Enabled(s, ClearSlot(r)) && Clears(Do(s, ClearSlot(r)), r, n - 1, s')
  }

  /** A released record ends up inactive and without hazards. */
  lemma {:induction false} ReleaseFinishes(s: State, r: nat) returns (n: nat, s': State)
    requires Inv(s) && r < |s.records| && s.records[r].pc.Releasing?
    requires forall j | 0 <= j < s.records[r].pc.i && j < |s.records[r].slots| :: s.records[r].slots[j] == NULL
    ensures Clears(s, r, n, s') && Owns(s', r, Free) && !s'.records[r].active
    ensures forall p | p in s'.records[r].slots :: p == NULL
    decreases SLOTS - s.records[r].pc.i
  {
    hide ScanOk, SourcesOk, BornOk;
    assert RecordOk(s.records[r]);
    var s1 := Do(s, ClearSlot(r));
    StepKeepsInv(s, ClearSlot(r));
    if s1.records[r].pc.Free? {
      assert Clears(s1, r, 0, s1);
      return 1, s1;
    }
    n, s' := ReleaseFinishes(s1, r);
    n := n + 1;
  }

  /** A set source is what a load finds, and a retired object is in a list. */
  lemma SetAndRetire(s: State, x: nat, p: Obj)
    ensures Enabled(s, SetSource(x, p)) ==> x in Do(s, SetSource(x, p)).src && Do(s, SetSource(x, p)).src[x] == p
    ensures Enabled(s, Retire(p)) ==> Retired(Do(s, Retire(p)), p) && p in Do(s, Retire(p)).listed
  {
  }

  // ---- A scan that nobody disturbs -------------------------------------------------------------------

  function ScanStep(scan: Scan, id: nat): Step {
    if scan.pc.AtRecord? then ScanRecord(id) else ScanSlot(id)
  }

  /** `n` steps of collecting lead from `s` to `s'`. */
  ghost predicate Collects(s: State, id: nat, n: nat, s': State)
    decreases n
  {
    if n == 0 then s' == s
    else
      && id in s.scans && !s.scans[id].pc.Deleting? && Enabled(s, ScanStep(s.scans[id], id))
      && Collects(Do(s, ScanStep(s.scans[id], id)), id, n - 1, s')
  }

  /** A slot that the scan has yet to come to, of a record that it will not skip. */
  predicate Ahead(s: State, scan: Scan, r: nat, i: nat) {
    && r < |s.records| && i < |s.records[r].slots| && r < scan.left
    && if r + 1 == scan.left && scan.pc.Reading? then i >= scan.pc.k else s.records[r].active
  }

  ghost predicate WillMeet(s: State, scan: Scan, p: Obj) {
    p != NULL && exists r: nat, i: nat :: Ahead(s, scan, r, i) && s.records[r].slots[i] == p
  }

  /** What a scan has met and will meet does not change as it goes. */
  lemma CollectStep(s: State, id: nat, p: Obj)
    requires Inv(s) && id in s.scans && !s.scans[id].pc.Deleting?
    ensures var step := ScanStep(s.scans[id], id);
            && Enabled(s, step)
            && var s' := Do(s, step);
            && s' == SetScan(s, id, s'.scans[id]) && s'.scans[id].cands == s.scans[id].cands
            && (s'.scans[id].pc.Deleting? || Measure(s'.scans[id]) < Measure(s.scans[id]))
            && (p in s'.scans[id].collected || WillMeet(s', s'.scans[id], p)
                <==> p in s.scans[id].collected || WillMeet(s, s.scans[id], p))
  {
    hide BornOk, SlotSeen, SourcesOk;
    var scan := s.scans[id];
    NeverOutOfBounds(s, 0, id);
    assert ScanOk(scan, s.records);
    if scan.pc.AtRecord? {
      MeetAtRecord(s, id, p);
    } else {
      assert RecordOk(s.records[scan.left - 1]);
      MeetAtSlot(s, id, p);
    }
  }

  function Measure(scan: Scan): nat {
    scan.left * (SLOTS + 2) + if scan.pc.Reading? && scan.pc.k < SLOTS then SLOTS - scan.pc.k else SLOTS + 1
  }

  lemma MeetAtRecord(s: State, id: nat, p: Obj)
    requires id in s.scans && s.scans[id].pc.AtRecord? && Enabled(s, ScanRecord(id))
    ensures var s' := Do(s, ScanRecord(id));
            && s' == SetScan(s, id, s'.scans[id]) && s'.scans[id].cands == s.scans[id].cands
            && (s'.scans[id].pc.Deleting? || Measure(s'.scans[id]) < Measure(s.scans[id]))
            && s'.scans[id].collected == s.scans[id].collected
            && (WillMeet(s', s'.scans[id], p) <==> WillMeet(s, s.scans[id], p))
  {
    var s' := Do(s, ScanRecord(id));
    forall r: nat, i: nat ensures Ahead(s', s'.scans[id], r, i) <==> Ahead(s, s.scans[id], r, i) {
    }
  }

  lemma MeetAtSlot(s: State, id: nat, p: Obj)
    requires id in s.scans && s.scans[id].pc.Reading? && Enabled(s, ScanSlot(id)) && s.scans[id].pc.k < SLOTS
    requires |s.records[s.scans[id].left - 1].slots| == SLOTS
    ensures var s' := Do(s, ScanSlot(id));
            && s' == SetScan(s, id, s'.scans[id]) && s'.scans[id].cands == s.scans[id].cands
            && Measure(s'.scans[id]) < Measure(s.scans[id])
            && (p in s'.scans[id].collected || WillMeet(s', s'.scans[id], p)
                <==> p in s.scans[id].collected || WillMeet(s, s.scans[id], p))
  {
    var s', scan := Do(s, ScanSlot(id)), s.scans[id];
    var here := scan.left - 1;
    assert Ahead(s, scan, here, scan.pc.k);
    forall r: nat, i: nat ensures Ahead(s, scan, r, i) <==> Ahead(s', s'.scans[id], r, i) || (r == here && i == scan.pc.k) {
    }
  }

  /** A scan that nobody disturbs gets through all records, and has met exactly the hazards there are. */
  lemma {:induction false} ScanCollects(s: State, id: nat) returns (n: nat, s': State)
    requires Inv(s) && id in s.scans && !s.scans[id].pc.Deleting?
    ensures Collects(s, id, n, s') && id in s'.scans && s'.scans[id].pc.Deleting?
    ensures s' == SetScan(s, id, s'.scans[id]) && s'.scans[id].cands == s.scans[id].cands
    ensures forall p :: p in s'.scans[id].collected <==> p in s.scans[id].collected || WillMeet(s, s.scans[id], p)
    decreases Measure(s.scans[id])
  {
    hide Enabled, Do, Inv, WillMeet, Measure;
    var step := ScanStep(s.scans[id], id);
    CollectStep(s, id, NULL);
    var s1 := Do(s, step);
    forall p ensures p in s1.scans[id].collected || WillMeet(s1, s1.scans[id], p)
                     <==> p in s.scans[id].collected || WillMeet(s, s.scans[id], p) {
      CollectStep(s, id, p);
    }
    StepKeepsInv(s, step);
    if s1.scans[id].pc.Deleting? {
      assert Collects(s1, id, 0, s1);
      n, s' := 0, s1;
      forall p ensures !WillMeet(s1, s1.scans[id], p) {
        NothingAhead(s1, id, p);
      }
    } else {
      n, s' := ScanCollects(s1, id);
    }
    n := n + 1;
  }

  lemma NothingAhead(s: State, id: nat, p: Obj)
    requires Inv(s) && id in s.scans && s.scans[id].pc.Deleting?
    ensures !WillMeet(s, s.scans[id], p)
  {
    assert ScanOk(s.scans[id], s.records);
  }

  /** Is the object in a slot of a record that somebody uses? */
  ghost predicate Hazard(s: State, p: Obj) {
    p != NULL && exists r, i :: 0 <= r < |s.records| && 0 <= i < |s.records[r].slots|
                                && s.records[r].active && s.records[r].slots[i] == p
  }

  /**
    A scan that nobody disturbs decides rightly: of the list it was given it deletes exactly what
    is in no slot, and puts back the rest.
   */
  lemma ScanDecidesRightly(s: State, id: nat, cands: set<Obj>) returns (n: nat, s': State)
    requires Inv(s) && Enabled(s, ScanStart(id, cands))
    ensures Collects(Do(s, ScanStart(id, cands)), id, n, s') && id in s'.scans && s'.scans[id].cands == cands
    ensures forall p | p in cands :: Enabled(s', ScanDecide(id, p))
    ensures forall p | p in cands ::
              if Hazard(s, p) then p in Do(s', ScanDecide(id, p)).listed && !Deletes(s', ScanDecide(id, p), p)
              else Deletes(s', ScanDecide(id, p), p)
  {
    hide Inv;
    var s1 := Do(s, ScanStart(id, cands));
    StepKeepsInv(s, ScanStart(id, cands));
    n, s' := ScanCollects(s1, id);
    forall p | p in cands ensures Hazard(s, p) <==> p in s'.scans[id].collected {
      StartMeetsAll(s, s1, id, p);
    }
  }

  lemma StartMeetsAll(s: State, s1: State, id: nat, p: Obj)
    requires id in s1.scans && s1.records == s.records && s1.scans[id].pc.AtRecord? && s1.scans[id].left == |s.records|
    ensures WillMeet(s1, s1.scans[id], p) <==> Hazard(s, p)
  {
    forall r: nat, i: nat ensures Ahead(s1, s1.scans[id], r, i)
                                  <==> r < |s.records| && i < |s.records[r].slots| && s.records[r].active {
    }
    if Hazard(s, p) {
      var r, i :| 0 <= r < |s.records| && 0 <= i < |s.records[r].slots| && s.records[r].active && s.records[r].slots[i] == p;
      assert Ahead(s1, s1.scans[id], r, i);
    }
  }

  /** A reload that finds another object goes on with that one, or returns if it is null or in a slot. */
  lemma ReloadGoesOn(s: State, r: nat)
    requires Inv(s) && Enabled(s, Reload(r))
    ensures var rec, rec', p := s.records[r], Do(s, Reload(r)).records[r], s.src[s.records[r].pc.x];
            if p != NULL && p !in rec.slots then rec'.pc == Publish(rec.pc.x, p) && rec'.held == rec.held
            else rec'.pc.Idle? && rec'.held == rec.held + (if p == NULL then {} else {p})
  {
    assert RecordOk(s.records[r]);
  }
}
