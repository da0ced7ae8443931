/** The deposit addresses registered for the automatic flow (minter/src/state/watchlist/mod.rs). */
module Watchlists {
  import opened Prelude
  import opened Solana
  import opened ScanSchedule
  import opened TimedSizedMaps

  /** A registration with its scan progress, as of the time it was read. */
  datatype WatchedAddress = WatchedAddress(account: Account, progress: ScanProgress, validUntil: Timestamp,
                                           nextScanAt: Option<Timestamp>)

  function Unscanned(address: Address, now: Timestamp): ScanProgress {
    ScanProgress(address, now, 0, None)
  }

  function Watched(account: Account, entry: Entry<ScanProgress>): WatchedAddress {
    WatchedAddress(account, entry.value, entry.expiresAt, NextScanAt(entry.value, entry.expiresAt))
  }

  type Registrations = Entries<Account, ScanProgress>

  ghost predicate IsDue(m: Registrations, account: Account, now: Timestamp) {
    IsLive(m, account, now) && Due(m[account].value, m[account].expiresAt, now)
  }

  class Watchlist {
    const entries: TimedSizedMap<Account, ScanProgress>

    ghost predicate Valid()
      reads this, entries
    {
      entries.Valid() && entries.ttl == WATCH_WINDOW && entries.capacity == MAX_WATCHED_ADDRESSES
      && |entries.entries| <= MAX_WATCHED_ADDRESSES
    }

    constructor ()
      ensures Valid() && fresh(entries) && entries.entries == map[]
    {
      entries := new TimedSizedMap(WATCH_WINDOW, MAX_WATCHED_ADDRESSES);
    }

    /** Registers an address for a window starting now, or returns the live registration of the
        account as it is, without extending it; refused when a thousand are live. */
    method Register(now: Timestamp, account: Account, address: Address) returns (r: Option<WatchedAddress>)
      requires Valid() && now <= U64_MAX
      modifies entries
      ensures Valid()
      ensures r.None? <==> !IsLive(old(entries.entries), account, now) && |Live(old(entries.entries), now)| >= 1_000
      ensures r.None? ==> entries.entries == old(entries.entries)
      ensures IsLive(old(entries.entries), account, now) ==>
                entries.entries == old(entries.entries) && r == Some(Watched(account, old(entries.entries)[account]))
      ensures r.Some? && !IsLive(old(entries.entries), account, now) ==>
                var entry := Entry(ScanProgress(address, now, 0, None), SaturatingAdd(now, 86_400_000_000_000));
                entries.entries == Live(old(entries.entries), now)[account := entry] && r.value == Watched(account, entry)
    {
      var entry := Entry(Unscanned(address, now), SaturatingAdd(now, WATCH_WINDOW));
      WithinCapacity(entries.entries, entries.capacity, entries.ttl, now, account, entry);
      var error, _ := entries.InsertEntry(now, account, entry);
      if error == Some(AtCapacity) {
        return None;
      }
      r := Get(now, account);
    }

    /** The live registration of the account, if any. */
    method Get(now: Timestamp, account: Account) returns (r: Option<WatchedAddress>)
      ensures r == if IsLive(entries.entries, account, now) then Some(Watched(account, entries.entries[account])) else None
    {
      var entry := entries.GetEntry(now, account);
      match entry {
        case None => return None;
        case Some(e) => return Some(Watched(account, e));
      }
    }

    method Remove(account: Account)
      requires Valid()
      modifies entries
      ensures Valid() && entries.entries == old(entries.entries) - {account}
    {
      var _ := entries.Remove(account);
      RemoveCard(old(entries.entries), account);
    }

    /** The live registrations whose next scan is due, by ascending window end. */
    method DueNow(now: Timestamp) returns (due: seq<WatchedAddress>)
      requires Valid()
      ensures forall w | w in due :: IsDue(entries.entries, w.account, now) && w == Watched(w.account, entries.entries[w.account])
      ensures forall a | IsDue(entries.entries, a, now) :: Watched(a, entries.entries[a]) in due
      ensures forall i, j | 0 <= i < j < |due| :: due[i].account != due[j].account && due[i].validUntil <= due[j].validUntil
    {
      hide NextScanAt, EntriesOf, IndexOf, KeyTimes, ByExpiry, Indexed;
      var list := entries.IterByExpiry();
      due := [];
      for i := 0 to |list|
        invariant forall w | w in due :: IsDue(entries.entries, w.account, now) && w == Watched(w.account, entries.entries[w.account])
        invariant forall j | 0 <= j < i && IsDue(entries.entries, list[j].0, now) :: Watched(list[j].0, list[j].1) in due
        invariant forall p, q | 0 <= p < q < |due| :: due[p].account != due[q].account && due[p].validUntil <= due[q].validUntil
        invariant forall w, j | w in due && i <= j < |list| :: w.account != list[j].0 && w.validUntil <= list[j].1.expiresAt
      {
        var watched := Watched(list[i].0, list[i].1);
        if !IsExpired(list[i].1.expiresAt, now) && watched.nextScanAt.Some? && watched.nextScanAt.value <= now {
          due := due + [watched];
        }
      }
      InOrderCovers(entries.entries, entries.byExpiry, list);
      forall a | IsDue(entries.entries, a, now) ensures Watched(a, entries.entries[a]) in due {
        var i :| 0 <= i < |list| && list[i].0 == a;
      }
    }

    /** Records a scan, if the account is still watched. */
    method RecordScan(now: Timestamp, account: Account)
      requires Valid()
      modifies entries
      ensures Valid()
      ensures entries.entries ==
              if IsLive(old(entries.entries), account, now) then
                old(entries.entries)[account := Entry(Scanned(old(entries.entries)[account].value, now),
                                                      old(entries.entries)[account].expiresAt)]
              else old(entries.entries)
    {
      var entry := entries.GetEntry(now, account);
      if entry.Some? {
        var _ := entries.UpdateValue(now, account, Scanned(entry.value.value, now));
        assert entries.entries.Keys == old(entries.entries).Keys;
      }
    }

    /** Removes the registrations whose window has closed and returns how many there were. */
    method EvictExpired(now: Timestamp) returns (count: nat)
      requires Valid()
      modifies entries
      ensures Valid() && entries.entries == Live(old(entries.entries), now)
      ensures count == |old(entries.entries)| - |entries.entries|
    {
      var evicted := entries.EvictExpired(now);
      count := |evicted|;
      LiveCard(old(entries.entries), now);
      EvictedCard(old(entries.entries), entries.entries, evicted);
    }
  }

  lemma RemoveCard(m: Registrations, account: Account)
    ensures |m - {account}| <= |m|
  {
    if account in m {
      CardRemove(m, account);
    } else {
      assert m - {account} == m;
    }
  }

  lemma EvictedCard(before: Registrations, after: Registrations, evicted: seq<(Account, ScanProgress)>)
    requires Evicts(before, after, evicted)
    ensures |evicted| == |before| - |after|
  {
    var keys := seq(|evicted|, i requires 0 <= i < |evicted| => evicted[i].0);
    assert Distinct(keys);
    ElemsCard(keys);
    EvictedKeys(before, after, evicted, keys);
    assert |after.Keys + Elems(keys)| == |after.Keys| + |Elems(keys)|;
  }

  lemma EvictedKeys(before: Registrations, after: Registrations, evicted: seq<(Account, ScanProgress)>, keys: seq<Account>)
    requires Evicts(before, after, evicted) && |keys| == |evicted|
    requires forall i | 0 <= i < |evicted| :: keys[i] == evicted[i].0
    ensures before.Keys == after.Keys + Elems(keys) && after.Keys !! Elems(keys)
  {
    forall k | k in before && k !in after ensures k in Elems(keys) {
      var i :| 0 <= i < |evicted| && evicted[i].0 == k;
      assert keys[i] == k;
    }
    forall k | k in Elems(keys) ensures k in before && k !in after {
      var i :| 0 <= i < |keys| && keys[i] == k;
      assert evicted[i].0 == k;
    }
  }

  /** A registration made now is live, and its first scan is due at once. */
  lemma FreshIsDue(account: Account, address: Address, now: Timestamp)
    requires now <= U64_MAX
    ensures var entry := Entry(Unscanned(address, now), SaturatingAdd(now, WATCH_WINDOW));
            && !IsExpired(entry.expiresAt, now) && Watched(account, entry).nextScanAt == Some(now)
  {
    ScheduleShape();
    var p := Unscanned(address, now);
    assert SlotAt(p, 0) == now;
  }
}
