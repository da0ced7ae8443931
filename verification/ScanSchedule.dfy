/** The fixed schedule on which a watched deposit address is scanned
    (minter/src/state/watchlist/mod.rs). Times are in nanoseconds. */
module ScanSchedule {
  import opened Prelude
  import opened Solana

  type Timestamp = nat

  const U64_MAX: nat := 0xFFFF_FFFF_FFFF_FFFF
  const U32_MAX: nat := 0xFFFF_FFFF
  const SECOND: nat := 1_000_000_000
  const WATCH_WINDOW: nat := 86_400 * SECOND
  const STEADY_SCAN_GAP: nat := 3_600 * SECOND
  const MAX_WATCHED_ADDRESSES: nat := 1_000
  const BURST_SCAN_SLOTS: seq<nat> :=
    [0, 60 * SECOND, 120 * SECOND, 240 * SECOND, 360 * SECOND, 600 * SECOND,
     900 * SECOND, 1_200 * SECOND, 1_500 * SECOND, 1_800 * SECOND]

  function SaturatingAdd(t: Timestamp, d: nat): Timestamp {
    if t + d > U64_MAX then U64_MAX else t + d
  }

  datatype ScanProgress = ScanProgress(address: Address, scheduledFrom: Timestamp, scanCount: nat,
                                       lastScannedAt: Option<Timestamp>)

  /** The steady slots from the given gap on, as long as they lie within the window. */
  function SteadySlots(gaps: nat): seq<nat>
    decreases WATCH_WINDOW - gaps * STEADY_SCAN_GAP
  {
    var slot := BURST_SCAN_SLOTS[9] + STEADY_SCAN_GAP * gaps;
    if slot > WATCH_WINDOW then [] else [slot] + SteadySlots(gaps + 1)
  }

  /** The offsets of the slots from the start of the schedule. */
  function ScanSlots(): seq<nat> {
    BURST_SCAN_SLOTS + SteadySlots(1)
  }

  lemma {:induction false} SteadySlotsAre(gaps: nat)
    requires 1 <= gaps <= 24
    ensures |SteadySlots(gaps)| == 24 - gaps
    ensures forall i | 0 <= i < |SteadySlots(gaps)| ::
              SteadySlots(gaps)[i] == (1_800 + 3_600 * (gaps + i)) * SECOND
    decreases 24 - gaps
  {
    if gaps < 24 {
      SteadySlotsAre(gaps + 1);
    }
  }

  /** The slots in seconds: ten in the first half hour, then one every hour. */
  const SLOT_SECONDS: seq<nat> := [0, 60, 120, 240, 360, 600, 900, 1_200, 1_500, 1_800]

  /** The schedule is a strictly increasing list of 33 slots, from registration to the last
      half hour of the window: ten in the first half hour, then one every hour. */
  lemma ScheduleShape()
    ensures |ScanSlots()| == 33 && ScanSlots()[0] == 0
    ensures forall i | 0 <= i < 10 :: ScanSlots()[i] == SLOT_SECONDS[i] * 1_000_000_000
    ensures forall i | 10 <= i < 33 :: ScanSlots()[i] == (1_800 + 3_600 * (i - 9)) * 1_000_000_000
    ensures forall i, j | 0 <= i < j < 33 :: ScanSlots()[i] < ScanSlots()[j]
    ensures forall i | 0 <= i < 33 :: ScanSlots()[i] <= WATCH_WINDOW
  {
    var burst, steady := BURST_SCAN_SLOTS, SteadySlots(1);
    SteadySlotsAre(1);
    SlotsSplit(burst, steady);
    BurstShape();
    ConcatShape(burst, steady);
    hide SteadySlots, ScanSlots;
    forall i | 10 <= i < 33 ensures ScanSlots()[i] == (1_800 + 3_600 * (i - 9)) * 1_000_000_000 {
      assert ScanSlots()[i] == steady[i - 10];
    }
  }

  lemma ConcatShape(burst: seq<nat>, steady: seq<nat>)
    requires |burst| == 10 && |steady| == 23
    requires forall i, j | 0 <= i < j < 10 :: burst[i] < burst[j]
    requires forall i | 0 <= i < 10 :: burst[i] <= 1_800 * SECOND
    requires forall i | 0 <= i < 23 :: steady[i] == (1_800 + 3_600 * (1 + i)) * SECOND
    ensures forall i, j | 0 <= i < j < 33 :: (burst + steady)[i] < (burst + steady)[j]
    ensures forall i | 0 <= i < 33 :: (burst + steady)[i] <= WATCH_WINDOW
  {
    var all := burst + steady;
    assert forall i | 0 <= i < 33 :: all[i] == if i < 10 then burst[i] else steady[i - 10];
  }

  lemma SlotsSplit(burst: seq<nat>, steady: seq<nat>)
    requires burst == BURST_SCAN_SLOTS && steady == SteadySlots(1)
    ensures ScanSlots() == burst + steady && |burst| == 10
  {
    hide SteadySlots;
  }

  lemma BurstShape()
    ensures forall i, j | 0 <= i < j < 10 :: BURST_SCAN_SLOTS[i] < BURST_SCAN_SLOTS[j]
    ensures BURST_SCAN_SLOTS[0] == 0 && |BURST_SCAN_SLOTS| == 10
    ensures forall i | 0 <= i < 10 :: BURST_SCAN_SLOTS[i] == SLOT_SECONDS[i] * 1_000_000_000
    ensures forall i | 0 <= i < 10 :: BURST_SCAN_SLOTS[i] <= 1_800 * SECOND
  {}

  function SlotAt(p: ScanProgress, i: nat): Timestamp
    requires i < |ScanSlots()|
  {
    SaturatingAdd(p.scheduledFrom, ScanSlots()[i])
  }

  /** Whether the i-th slot is still to come: within the window and after the last scan. */
  predicate Pending(p: ScanProgress, validUntil: Timestamp, i: nat)
    requires i < |ScanSlots()|
  {
    SlotAt(p, i) <= validUntil && (p.lastScannedAt.Some? ==> SlotAt(p, i) > p.lastScannedAt.value)
  }

  /** The first slot to come, looking from the i-th on and stopping at the end of the window. */
  function FirstPending(p: ScanProgress, validUntil: Timestamp, i: nat): Option<Timestamp>
    requires i <= |ScanSlots()|
    decreases |ScanSlots()| - i
  {
    if i == |ScanSlots()| || SlotAt(p, i) > validUntil then None
    else if Pending(p, validUntil, i) then Some(SlotAt(p, i))
    else FirstPending(p, validUntil, i + 1)
  }

  function NextScanAt(p: ScanProgress, validUntil: Timestamp): Option<Timestamp> {
    FirstPending(p, validUntil, 0)
  }

  lemma SlotsMonotone(p: ScanProgress, i: nat, j: nat)
    requires i <= j < |ScanSlots()|
    ensures SlotAt(p, i) <= SlotAt(p, j)
  {
    ScheduleShape();
  }

  lemma {:induction false} FirstPendingIs(p: ScanProgress, validUntil: Timestamp, i: nat)
    requires i <= |ScanSlots()|
    requires forall j | 0 <= j < i :: !Pending(p, validUntil, j)
    ensures match FirstPending(p, validUntil, i)
            case None => forall j | 0 <= j < |ScanSlots()| :: !Pending(p, validUntil, j)
            case Some(t) => exists j | 0 <= j < |ScanSlots()| ::
                && t == SlotAt(p, j) && Pending(p, validUntil, j)
                && forall k | 0 <= k < j :: !Pending(p, validUntil, k)
    decreases |ScanSlots()| - i
  {
    if i < |ScanSlots()| {
      if SlotAt(p, i) > validUntil {
        forall j | i <= j < |ScanSlots()| ensures !Pending(p, validUntil, j) {
          SlotsMonotone(p, i, j);
        }
      } else if !Pending(p, validUntil, i) {
        FirstPendingIs(p, validUntil, i + 1);
      }
    }
  }

  /** The next scan is one of the fixed slots, the earliest one that lies after the last scan
      and inside the window; there is none exactly when no such slot is left. */
  lemma NextScanIs(p: ScanProgress, validUntil: Timestamp)
    ensures NextScanAt(p, validUntil).None? <==>
            forall j | 0 <= j < |ScanSlots()| ::
              SlotAt(p, j) > validUntil || (p.lastScannedAt.Some? && SlotAt(p, j) <= p.lastScannedAt.value)
    ensures var t := NextScanAt(p, validUntil); t.Some? ==>
            && t.value <= validUntil
            && (p.lastScannedAt.Some? ==> t.value > p.lastScannedAt.value)
            && (exists j | 0 <= j < |ScanSlots()| :: t.value == SlotAt(p, j))
            && forall j | 0 <= j < |ScanSlots()| && SlotAt(p, j) < t.value ::
                 p.lastScannedAt.Some? && SlotAt(p, j) <= p.lastScannedAt.value
  {
    FirstPendingIs(p, validUntil, 0);
    var t := NextScanAt(p, validUntil);
    if t.Some? {
      var j :| 0 <= j < |ScanSlots()| && t.value == SlotAt(p, j) && Pending(p, validUntil, j)
               && forall k | 0 <= k < j :: !Pending(p, validUntil, k);
      assert SlotAt(p, j) <= validUntil && (p.lastScannedAt.Some? ==> SlotAt(p, j) > p.lastScannedAt.value);
      forall k | 0 <= k < |ScanSlots()| && SlotAt(p, k) < t.value
        ensures p.lastScannedAt.Some? && SlotAt(p, k) <= p.lastScannedAt.value
      {
        if k >= j {
          SlotsMonotone(p, j, k);
        }
        assert !Pending(p, validUntil, k);
      }
    } else {
      forall j | 0 <= j < |ScanSlots()|
        ensures SlotAt(p, j) > validUntil || (p.lastScannedAt.Some? && SlotAt(p, j) <= p.lastScannedAt.value)
      {
        assert !Pending(p, validUntil, j);
      }
    }
  }

  /** Recording a scan at the given time. */
  function Scanned(p: ScanProgress, now: Timestamp): ScanProgress {
    p.(scanCount := if p.scanCount >= U32_MAX then U32_MAX else p.scanCount + 1, lastScannedAt := Some(now))
  }

  predicate Due(p: ScanProgress, validUntil: Timestamp, now: Timestamp) {
    match NextScanAt(p, validUntil) case None => false case Some(t) => t <= now
  }

  /** The slots still to come. */
  ghost function PendingSlots(p: ScanProgress, validUntil: Timestamp): set<nat> {
    set i | 0 <= i < |ScanSlots()| && Pending(p, validUntil, i)
  }

  /** A scan that was due uses up at least one slot and brings none back; since the slots are
      fixed, a late scan does not move the ones after it. */
  lemma DueScanUsesASlot(p: ScanProgress, validUntil: Timestamp, now: Timestamp)
    requires Due(p, validUntil, now)
    ensures PendingSlots(Scanned(p, now), validUntil) < PendingSlots(p, validUntil)
    ensures forall i | 0 <= i < |ScanSlots()| :: SlotAt(Scanned(p, now), i) == SlotAt(p, i)
    ensures forall i | 0 <= i < |ScanSlots()| ::
              Pending(Scanned(p, now), validUntil, i) <==> Pending(p, validUntil, i) && SlotAt(p, i) > now
  {
    FirstPendingIs(p, validUntil, 0);
    var t := NextScanAt(p, validUntil).value;
    var j :| 0 <= j < |ScanSlots()| && t == SlotAt(p, j) && Pending(p, validUntil, j);
    assert forall i | 0 <= i < |ScanSlots()| :: SlotAt(Scanned(p, now), i) == SlotAt(p, i);
    forall i | 0 <= i < |ScanSlots()|
      ensures Pending(Scanned(p, now), validUntil, i) <==> Pending(p, validUntil, i) && SlotAt(p, i) > now
    {
      if p.lastScannedAt.Some? {
        assert p.lastScannedAt.value < t <= now;
      }
    }
    assert j in PendingSlots(p, validUntil) && j !in PendingSlots(Scanned(p, now), validUntil);
  }

  /** A run of scans of one registration, each recorded when it was due. */
  ghost predicate DueRun(p: ScanProgress, validUntil: Timestamp, times: seq<Timestamp>)
    decreases |times|
  {
    times == [] || (Due(p, validUntil, times[0]) && DueRun(Scanned(p, times[0]), validUntil, times[1..]))
  }

  lemma {:induction false} DueRunBound(p: ScanProgress, validUntil: Timestamp, times: seq<Timestamp>)
    requires DueRun(p, validUntil, times)
    ensures |times| <= |PendingSlots(p, validUntil)|
    decreases |times|
  {
    if times != [] {
      DueScanUsesASlot(p, validUntil, times[0]);
      DueRunBound(Scanned(p, times[0]), validUntil, times[1..]);
      var before, after := PendingSlots(p, validUntil), PendingSlots(Scanned(p, times[0]), validUntil);
      assert |before| == |after| + |before - after| by { assert before == after + (before - after); }
      assert before - after != {};
    }
  }

  ghost function AfterScans(p: ScanProgress, times: seq<Timestamp>): ScanProgress
    decreases |times|
  {
    if times == [] then p else AfterScans(Scanned(p, times[0]), times[1..])
  }

  /** The progress of a registration counts its scans and keeps the time of the last one; its address
      and the start of its schedule never change. */
  lemma {:induction false} ProgressCounts(p: ScanProgress, times: seq<Timestamp>)
    requires p.scanCount + |times| <= U32_MAX
    ensures var q := AfterScans(p, times);
            && q.scanCount == p.scanCount + |times| && q.address == p.address && q.scheduledFrom == p.scheduledFrom
            && q.lastScannedAt == if times == [] then p.lastScannedAt else Some(times[|times| - 1])
    decreases |times|
  {
    if times != [] {
      ProgressCounts(Scanned(p, times[0]), times[1..]);
    }
  }

  /** However late its scans run, a registration is scanned at most 33 times. */
  lemma AtMost33Scans(p: ScanProgress, validUntil: Timestamp, times: seq<Timestamp>)
    requires DueRun(p, validUntil, times)
    ensures |times| <= 33
  {
    DueRunBound(p, validUntil, times);
    ScheduleShape();
    BelowIs(33);
    SubsetCard(PendingSlots(p, validUntil), Below(33));
  }
}
