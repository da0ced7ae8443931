/** A map of bounded size whose entries expire (minter/src/utils/timed_sized_map/mod.rs).

    What a caller sees is the map `entries`; `byExpiry` is the index that makes eviction cheap.
    The index is proved to list every entry exactly once under its expiry, so that every
    operation acts on `entries` as on a plain map of entries with an expiry. */
module TimedSizedMaps {
  import opened Prelude
  import opened InsertionOrdered
  import opened ScanSchedule

  datatype Entry<V> = Entry(value: V, expiresAt: Timestamp)

  /** An entry is live through its expiry instant. */
  predicate IsExpired(expiresAt: Timestamp, now: Timestamp) {
    now > expiresAt
  }

  type Entries<K, V> = map<K, Entry<V>>
  type Index<K> = map<Timestamp, seq<K>>

  // ---------- the plain expiring map ----------

  /** The entries that have not outlived their time. */
  function Live<K, V>(m: Entries<K, V>, now: Timestamp): Entries<K, V> {
    map k | k in m && !IsExpired(m[k].expiresAt, now) :: m[k]
  }

  predicate IsLive<K, V>(m: Entries<K, V>, k: K, now: Timestamp) {
    k in m && !IsExpired(m[k].expiresAt, now)
  }

  datatype InsertError = AlreadyPresent | AtCapacity

  /** Why an entry is not admitted, if so. */
  function Refusal<K, V>(m: Entries<K, V>, capacity: nat, now: Timestamp, k: K): Option<InsertError> {
    if IsLive(m, k, now) then Some(AlreadyPresent)
    else if |Live(m, now)| >= capacity then Some(AtCapacity)
    else None
  }

  /** The map after an attempt to insert an entry that is live. */
  function Inserted<K, V>(m: Entries<K, V>, capacity: nat, ttl: nat, now: Timestamp, k: K, e: Entry<V>): Entries<K, V> {
    match Refusal(m, capacity, now, k)
    case Some(AlreadyPresent) => m
    case Some(AtCapacity) => Live(m, now)
    case None => Live(m, now)[k := Entry(e.value, Min(e.expiresAt, SaturatingAdd(now, ttl)))]
  }

  function Min(a: nat, b: nat): nat {
    if a < b then a else b
  }

  lemma LiveCard<K, V>(m: Entries<K, V>, now: Timestamp)
    ensures |Live(m, now)| <= |m|
    ensures |Live(m, now)| == |m| ==> Live(m, now) == m
  {
    var gone := m.Keys - Live(m, now).Keys;
    assert m.Keys == Live(m, now).Keys + gone;
    assert |m.Keys| == |Live(m, now).Keys| + |gone|;
    if |gone| == 0 {
      assert m.Keys == Live(m, now).Keys;
    }
  }

  /** A map within its capacity stays so, and a refused insertion leaves it as it is. */
  lemma WithinCapacity<K, V>(m: Entries<K, V>, capacity: nat, ttl: nat, now: Timestamp, k: K, e: Entry<V>)
    requires |m| <= capacity
    ensures |Inserted(m, capacity, ttl, now, k, e)| <= capacity
    ensures Refusal(m, capacity, now, k).Some? ==> Inserted(m, capacity, ttl, now, k, e) == m
  {
    LiveCard(m, now);
    hide Live;
    if Refusal(m, capacity, now, k).None? {
      assert Inserted(m, capacity, ttl, now, k, e).Keys == Live(m, now).Keys + {k};
    }
  }

  /** A refused insertion changes the map exactly when it was refused for lack of room while some
      entry had expired, which takes a map beyond its capacity. */
  lemma RefusalChangesIff<K, V>(m: Entries<K, V>, capacity: nat, ttl: nat, now: Timestamp, k: K, e: Entry<V>)
    requires Refusal(m, capacity, now, k).Some?
    ensures Inserted(m, capacity, ttl, now, k, e) != m <==>
            !IsLive(m, k, now) && exists x :: x in m && IsExpired(m[x].expiresAt, now)
  {
    if x :| x in m && IsExpired(m[x].expiresAt, now) {
      assert x !in Live(m, now);
    } else {
      assert Live(m, now) == m;
    }
  }

  /** A map rebuilt beyond its capacity, with one of its two entries expired. */
  lemma RefusalMayChange()
    ensures var m: Entries<nat, nat> := map[0 := Entry(0, 0), 1 := Entry(0, 10)];
            && Refusal(m, 1, 5, 2) == Some(AtCapacity)
            && Inserted(m, 1, 10, 5, 2, Entry(0, 20)) != m
  {
    var m: Entries<nat, nat> := map[0 := Entry(0, 0), 1 := Entry(0, 10)];
    assert Live(m, 5).Keys == {1};
    assert 0 in m && IsExpired(m[0].expiresAt, 5);
    RefusalChangesIff(m, 1, 10, 5, 2, Entry(0, 20));
  }

  /** A live entry is never evicted or changed. */
  lemma LiveStays<K, V>(m: Entries<K, V>, capacity: nat, ttl: nat, now: Timestamp, k: K, e: Entry<V>, other: K)
    requires IsLive(m, other, now)
    ensures other in Inserted(m, capacity, ttl, now, k, e) && Inserted(m, capacity, ttl, now, k, e)[other] == m[other]
  {}

  /** What a lookup at a given time finds under a key. */
  function Lookup<K, V>(m: Entries<K, V>, k: K, now: Timestamp): Option<Entry<V>> {
    if IsLive(m, k, now) then Some(m[k]) else None
  }

  /** No lookup, at the time of an insertion or later, can tell whether and when expired entries were
      evicted: whatever its outcome, an insertion changes what is found under its own key only, and
      that only if it is admitted; the entry is then found through its clamped expiry. */
  lemma LookupAfterInsert<K, V>(m: Entries<K, V>, capacity: nat, ttl: nat, now: Timestamp, k: K, e: Entry<V>, other: K,
                                later: Timestamp)
    requires now <= later
    ensures Lookup(Inserted(m, capacity, ttl, now, k, e), other, later) ==
            if other != k || Refusal(m, capacity, now, k).Some? then Lookup(m, other, later)
            else if later <= e.expiresAt && later <= SaturatingAdd(now, ttl) then
              Some(Entry(e.value, Min(e.expiresAt, SaturatingAdd(now, ttl))))
            else None
  {
    LookupAfterEviction(m, now, other, later);
    hide Live;
    match Refusal(m, capacity, now, k)
    case Some(AlreadyPresent) =>
    case Some(AtCapacity) =>
    case None =>
      var m' := Inserted(m, capacity, ttl, now, k, e);
      assert other != k ==> IsLive(m', other, later) == IsLive(Live(m, now), other, later);
  }

  lemma LookupAfterEviction<K, V>(m: Entries<K, V>, now: Timestamp, k: K, later: Timestamp)
    requires now <= later
    ensures Lookup(Live(m, now), k, later) == Lookup(m, k, later)
  {}

  // ---------- the index ----------

  ghost predicate ListedAt<K>(index: Index<K>, t: Timestamp, k: K) {
    t in index && k in index[t]
  }

  ghost predicate ExpiresAt<K, V>(m: Entries<K, V>, k: K, t: Timestamp) {
    k in m && m[k].expiresAt == t
  }

  ghost predicate WellFormed<K>(index: Index<K>) {
    forall t | t in index :: index[t] != [] && Distinct(index[t])
  }

  /** Every entry is listed exactly once, in the bucket of its expiry, and no bucket is empty. */
  ghost predicate Indexed<K(!new), V>(m: Entries<K, V>, index: Index<K>) {
    WellFormed(index) && forall t, k :: ListedAt(index, t, k) <==> ExpiresAt(m, k, t)
  }

  function BucketAt<K>(index: Index<K>, t: Timestamp): seq<K> {
    if t in index then index[t] else []
  }

  function Enqueued<K>(index: Index<K>, t: Timestamp, k: K): Index<K> {
    index[t := BucketAt(index, t) + [k]]
  }

  lemma EnqueueIndexed<K(!new), V>(m: Entries<K, V>, index: Index<K>, k: K, e: Entry<V>)
    requires Indexed(m, index) && k !in m
    ensures Indexed(m[k := e], Enqueued(index, e.expiresAt, k))
  {
    var m', index' := m[k := e], Enqueued(index, e.expiresAt, k);
    assert ListedAt(index, e.expiresAt, k) <==> ExpiresAt(m, k, e.expiresAt);
    forall t, x ensures ListedAt(index', t, x) <==> ExpiresAt(m', x, t) {
      assert ListedAt(index, t, x) <==> ExpiresAt(m, x, t);
      assert ListedAt(index, t, k) <==> ExpiresAt(m, k, t);
    }
  }

  /** The index without one key; a bucket left empty goes. */
  function Unlisted<K(==)>(index: Index<K>, t: Timestamp, k: K): Index<K>
    requires t in index
  {
    var bucket := Without(index[t], k);
    if bucket == [] then index - {t} else index[t := bucket]
  }

  lemma UnlistIndexed<K(!new), V>(m: Entries<K, V>, index: Index<K>, k: K)
    requires Indexed(m, index) && k in m
    ensures m[k].expiresAt in index && Indexed(m - {k}, Unlisted(index, m[k].expiresAt, k))
  {
    var e := m[k].expiresAt;
    assert ListedAt(index, e, k) <==> ExpiresAt(m, k, e);
    var m', index' := m - {k}, Unlisted(index, e, k);
    WithoutElems(index[e], k);
    assert forall x :: x in Without(index[e], k) <==> x in Elems(Without(index[e], k));
    hide Without;
    forall t, x ensures ListedAt(index', t, x) <==> ExpiresAt(m', x, t) {
      assert ListedAt(index, t, x) <==> ExpiresAt(m, x, t);
      assert x in index[e] <==> x in Elems(index[e]);
    }
  }

  lemma DropBucketIndexed<K(!new), V>(m: Entries<K, V>, index: Index<K>, t: Timestamp)
    requires Indexed(m, index) && t in index
    ensures Indexed(m - Elems(index[t]), index - {t})
    ensures forall k | k in index[t] :: k in m && m[k].expiresAt == t
  {
    var m', index' := m - Elems(index[t]), index - {t};
    forall k | k in index[t] ensures k in m && m[k].expiresAt == t {
      assert ListedAt(index, t, k) <==> ExpiresAt(m, k, t);
    }
    forall u, x ensures ListedAt(index', u, x) <==> ExpiresAt(m', x, u) {
      assert ListedAt(index, u, x) <==> ExpiresAt(m, x, u);
      assert ListedAt(index, t, x) <==> ExpiresAt(m, x, t);
    }
  }

  lemma UpdateIndexed<K(!new), V>(m: Entries<K, V>, index: Index<K>, k: K, v: V)
    requires Indexed(m, index) && k in m
    ensures Indexed(m[k := Entry(v, m[k].expiresAt)], index)
  {
    var m' := m[k := Entry(v, m[k].expiresAt)];
    forall t, x ensures ListedAt(index, t, x) <==> ExpiresAt(m', x, t) {
      assert ListedAt(index, t, x) <==> ExpiresAt(m, x, t);
    }
  }

  /** When the earliest bucket is live, so is every entry. */
  lemma AllLive<K(!new), V>(m: Entries<K, V>, index: Index<K>, now: Timestamp)
    requires Indexed(m, index) && (index.Keys == {} || !IsExpired(Least(index.Keys), now))
    ensures forall k | k in m :: !IsExpired(m[k].expiresAt, now)
  {
    forall k | k in m ensures !IsExpired(m[k].expiresAt, now) {
      assert ListedAt(index, m[k].expiresAt, k) <==> ExpiresAt(m, k, m[k].expiresAt);
      assert m[k].expiresAt in index.Keys;
    }
  }

  // ---------- the order of the entries ----------

  function PairsAt<K>(bucket: seq<K>, t: Timestamp): seq<(K, Timestamp)> {
    seq(|bucket|, i requires 0 <= i < |bucket| => (bucket[i], t))
  }

  /** The keys of the given buckets, each with its expiry. */
  function PairsOf<K>(index: Index<K>, times: seq<Timestamp>): seq<(K, Timestamp)>
    requires forall i | 0 <= i < |times| :: times[i] in index
  {
    if times == [] then [] else
      var n := |times| - 1;
      PairsOf(index, times[..n]) + PairsAt(index[times[n]], times[n])
  }

  function Times<K>(index: Index<K>): (times: seq<Timestamp>)
    ensures Increasing(times) && Elems(times) == index.Keys
    ensures forall i | 0 <= i < |times| :: times[i] in index
  {
    var times := Ascending(index.Keys);
    assert forall i | 0 <= i < |times| :: times[i] in Elems(times);
    times
  }

  /** Every key with its expiry, by ascending expiry and by insertion order within an expiry. */
  function ByExpiry<K>(index: Index<K>): seq<(K, Timestamp)> {
    PairsOf(index, Times(index))
  }

  /** The index built by queueing keys one after the other. */
  function IndexOf<K>(pairs: seq<(K, Timestamp)>): Index<K> {
    if pairs == [] then map[] else
      var n := |pairs| - 1;
      Enqueued(IndexOf(pairs[..n]), pairs[n].1, pairs[n].0)
  }

  /** Queueing a whole bucket under a new expiry. */
  lemma {:induction false} IndexOfBucket<K>(pairs: seq<(K, Timestamp)>, bucket: seq<K>, t: Timestamp)
    requires t !in IndexOf(pairs) && bucket != []
    ensures IndexOf(pairs + PairsAt(bucket, t)) == IndexOf(pairs)[t := bucket]
    decreases |bucket|
  {
    var n := |bucket| - 1;
    var all := pairs + PairsAt(bucket, t);
    assert all[..|all| - 1] == pairs + PairsAt(bucket[..n], t);
    assert bucket == bucket[..n] + [bucket[n]];
    if n == 0 {
      assert pairs + PairsAt(bucket[..0], t) == pairs;
    } else {
      IndexOfBucket(pairs, bucket[..n], t);
    }
  }

  /** Queueing the keys in the order of their expiry rebuilds the index. */
  lemma {:induction false} IndexOfPairs<K>(index: Index<K>, times: seq<Timestamp>)
    requires WellFormed(index) && Increasing(times) && forall i | 0 <= i < |times| :: times[i] in index
    ensures IndexOf(PairsOf(index, times)).Keys == Elems(times)
    ensures forall t | t in times :: IndexOf(PairsOf(index, times))[t] == index[t]
  {
    if times != [] {
      var n := |times| - 1;
      var front, last := times[..n], times[n];
      IndexOfPairs(index, front);
      assert times == front + [last];
      ElemsAppend(front, last);
      assert last !in Elems(front);
      IndexOfBucket(PairsOf(index, front), index[last], last);
    }
  }

  lemma RebuiltIndex<K>(index: Index<K>)
    requires WellFormed(index)
    ensures IndexOf(ByExpiry(index)) == index
  {
    var times := Times(index);
    IndexOfPairs(index, times);
    forall t | t in index ensures IndexOf(ByExpiry(index))[t] == index[t] {
      assert t in Elems(times) && t in times;
    }
  }

  lemma {:induction false} PairsListed<K>(index: Index<K>, times: seq<Timestamp>, k: K, t: Timestamp)
    requires forall i | 0 <= i < |times| :: times[i] in index
    ensures (k, t) in PairsOf(index, times) <==> t in times && ListedAt(index, t, k)
  {
    if times != [] {
      var n := |times| - 1;
      PairsListed(index, times[..n], k, t);
      PairsAtListed(index[times[n]], times[n], k, t);
      assert times == times[..n] + [times[n]];
    }
  }

  lemma PairsAtListed<K>(bucket: seq<K>, at: Timestamp, k: K, t: Timestamp)
    ensures (k, t) in PairsAt(bucket, at) <==> t == at && k in bucket
  {
    if t == at && k in bucket {
      var i :| 0 <= i < |bucket| && bucket[i] == k;
      assert PairsAt(bucket, at)[i] == (k, t);
    }
  }

  // ---------- entries in order ----------

  type Listing<K, V> = seq<(K, Entry<V>)>

  function KeyTimes<K, V>(list: Listing<K, V>): seq<(K, Timestamp)> {
    seq(|list|, i requires 0 <= i < |list| => (list[i].0, list[i].1.expiresAt))
  }

  function EntriesOf<K, V>(list: Listing<K, V>): Entries<K, V> {
    if list == [] then map[] else
      var n := |list| - 1;
      EntriesOf(list[..n])[list[n].0 := list[n].1]
  }

  ghost predicate DistinctKeys<K, V>(list: Listing<K, V>) {
    forall i, j | 0 <= i < j < |list| :: list[i].0 != list[j].0
  }

  lemma {:induction false} EntriesOfKeys<K, V>(list: Listing<K, V>, k: K)
    ensures k in EntriesOf(list) <==> exists i | 0 <= i < |list| :: list[i].0 == k
  {
    if list != [] {
      var n := |list| - 1;
      EntriesOfKeys(list[..n], k);
      if k in EntriesOf(list[..n]) {
        var i :| 0 <= i < |list[..n]| && list[..n][i].0 == k;
        assert list[i].0 == k;
      }
      if i :| 0 <= i < |list| && list[i].0 == k {
        if i < n {
          assert list[..n][i].0 == k;
        }
      }
    }
  }

  /** Queueing distinct keys keeps entries and index together. */
  lemma {:induction false} ListingIndexed<K(!new), V>(list: Listing<K, V>)
    requires DistinctKeys(list)
    ensures Indexed(EntriesOf(list), IndexOf(KeyTimes(list)))
  {
    if list == [] {
      assert KeyTimes(list) == [];
      forall t, k ensures ListedAt(IndexOf(KeyTimes(list)), t, k) <==> ExpiresAt(EntriesOf(list), k, t) {}
    } else {
      var n := |list| - 1;
      ListingIndexed(list[..n]);
      EntriesOfKeys(list[..n], list[n].0);
      EnqueueIndexed(EntriesOf(list[..n]), IndexOf(KeyTimes(list[..n])), list[n].0, list[n].1);
      assert KeyTimes(list)[..n] == KeyTimes(list[..n]);
    }
  }

  /** The entries of a map in the order of their expiry. */
  ghost predicate InOrder<K, V>(m: Entries<K, V>, index: Index<K>, list: Listing<K, V>) {
    && KeyTimes(list) == ByExpiry(index)
    && forall i | 0 <= i < |list| :: list[i].0 in m && m[list[i].0] == list[i].1
  }

  lemma PairIsEntry<K(!new), V>(m: Entries<K, V>, index: Index<K>, i: nat)
    requires Indexed(m, index) && i < |ByExpiry(index)|
    ensures ByExpiry(index)[i].0 in m && m[ByExpiry(index)[i].0].expiresAt == ByExpiry(index)[i].1
  {
    var (k, t) := ByExpiry(index)[i];
    PairsListed(index, Times(index), k, t);
    assert ListedAt(index, t, k) <==> ExpiresAt(m, k, t);
  }

  /** A listing in the order of expiry names every entry exactly once. */
  lemma InOrderCovers<K(!new), V>(m: Entries<K, V>, index: Index<K>, list: Listing<K, V>)
    requires Indexed(m, index) && InOrder(m, index, list)
    ensures forall k | k in m :: exists i | 0 <= i < |list| :: list[i].0 == k
  {
    forall k | k in m ensures exists i | 0 <= i < |list| :: list[i].0 == k {
      var t := m[k].expiresAt;
      assert ListedAt(index, t, k) <==> ExpiresAt(m, k, t);
      PairsListed(index, Times(index), k, t);
      assert t in Elems(Times(index));
      var i :| 0 <= i < |ByExpiry(index)| && ByExpiry(index)[i] == (k, t);
      assert KeyTimes(list)[i] == (k, t);
      assert list[i].0 == k;
    }
  }

  lemma {:induction false} PairsDistinct<K(!new), V>(m: Entries<K, V>, index: Index<K>, times: seq<Timestamp>, i: nat, j: nat)
    requires Indexed(m, index) && Increasing(times) && forall i | 0 <= i < |times| :: times[i] in index
    requires i < j < |PairsOf(index, times)|
    ensures PairsOf(index, times)[i].0 != PairsOf(index, times)[j].0
  {
    var n := |times| - 1;
    var front, bucket, t := PairsOf(index, times[..n]), index[times[n]], times[n];
    if j < |front| {
      PairsDistinct(m, index, times[..n], i, j);
    } else if i < |front| {
      var (k, u) := front[i];
      PairsListed(index, times[..n], k, u);
      assert ListedAt(index, u, k) <==> ExpiresAt(m, k, u);
      assert ListedAt(index, t, k) <==> ExpiresAt(m, k, t);
      assert PairsOf(index, times)[j].0 == bucket[j - |front|];
    } else {
      assert PairsOf(index, times)[i].0 == bucket[i - |front|] && PairsOf(index, times)[j].0 == bucket[j - |front|];
    }
  }

  /** Rebuilding a map from its entries in the order of expiry gives an identical map. */
  lemma RebuildIsIdentity<K(!new), V>(m: Entries<K, V>, index: Index<K>, list: Listing<K, V>)
    requires Indexed(m, index) && InOrder(m, index, list)
    ensures DistinctKeys(list) && EntriesOf(list) == m && IndexOf(KeyTimes(list)) == index
  {
    RebuiltIndex(index);
    forall i, j | 0 <= i < j < |list| ensures list[i].0 != list[j].0 {
      assert KeyTimes(list)[i].0 == list[i].0 && KeyTimes(list)[j].0 == list[j].0;
      PairsDistinct(m, index, Times(index), i, j);
    }
    InOrderCovers(m, index, list);
    EntriesOfSame(m, list);
  }

  lemma {:induction false} EntriesOfValues<K, V>(m: Entries<K, V>, list: Listing<K, V>)
    requires forall i | 0 <= i < |list| :: list[i].0 in m && m[list[i].0] == list[i].1
    ensures forall k | k in EntriesOf(list) :: k in m && EntriesOf(list)[k] == m[k]
  {
    if list != [] {
      var n := |list| - 1;
      forall i | 0 <= i < n ensures list[..n][i].0 in m && m[list[..n][i].0] == list[..n][i].1 {
        assert list[..n][i] == list[i];
      }
      EntriesOfValues(m, list[..n]);
    }
  }

  lemma EntriesOfSame<K, V>(m: Entries<K, V>, list: Listing<K, V>)
    requires forall i | 0 <= i < |list| :: list[i].0 in m && m[list[i].0] == list[i].1
    requires forall k | k in m :: exists i | 0 <= i < |list| :: list[i].0 == k
    ensures EntriesOf(list) == m
  {
    EntriesOfValues(m, list);
    forall k | k in m ensures k in EntriesOf(list) {
      EntriesOfKeys(list, k);
    }
  }

  // ---------- the container ----------

  /** The keys of the evicted pairs, each once, with the values they had. */
  ghost predicate Evicts<K(!new), V>(before: Entries<K, V>, after: Entries<K, V>, evicted: seq<(K, V)>) {
    && (forall i, j | 0 <= i < j < |evicted| :: evicted[i].0 != evicted[j].0)
    && (forall i | 0 <= i < |evicted| ::
          evicted[i].0 in before && evicted[i].0 !in after && evicted[i].1 == before[evicted[i].0].value)
    && (forall k | k in before && k !in after :: exists i | 0 <= i < |evicted| :: evicted[i].0 == k)
    && (forall k | k in after :: k in before && after[k] == before[k])
  }

  lemma EvictOne<K(!new), V>(before: Entries<K, V>, after: Entries<K, V>, evicted: seq<(K, V)>, k: K)
    requires Evicts(before, after, evicted) && k in after
    ensures Evicts(before, after - {k}, evicted + [(k, after[k].value)])
  {
    var evicted', after' := evicted + [(k, after[k].value)], after - {k};
    assert evicted'[|evicted|].0 == k;
    forall x | x in before && x !in after' ensures exists i | 0 <= i < |evicted'| :: evicted'[i].0 == x {
      if x != k {
        var i :| 0 <= i < |evicted| && evicted[i].0 == x;
        assert evicted'[i].0 == x;
      }
    }
  }

  class TimedSizedMap<K(==, !new), V(==)> {
    const ttl: nat
    const capacity: nat
    var entries: Entries<K, V>
    var byExpiry: Index<K>

    ghost predicate Valid()
      reads this
    {
      Indexed(entries, byExpiry)
    }

    constructor (ttl: nat, capacity: nat)
      ensures Valid() && entries == map[] && byExpiry == map[] && this.ttl == ttl && this.capacity == capacity
    {
      this.ttl, this.capacity, entries, byExpiry := ttl, capacity, map[], map[];
      new;
      forall t, k ensures ListedAt(byExpiry, t, k) <==> ExpiresAt(entries, k, t) {}
    }

    /** Rebuilds a map verbatim; a repeated key is a trap. */
    constructor FromOrderedEntries(ttl: nat, capacity: nat, list: Listing<K, V>)
      requires DistinctKeys(list)
      ensures Valid() && entries == EntriesOf(list) && byExpiry == IndexOf(KeyTimes(list))
      ensures this.ttl == ttl && this.capacity == capacity
    {
      this.ttl, this.capacity, entries, byExpiry := ttl, capacity, map[], map[];
      new;
      var i := 0;
      while i < |list|
        invariant 0 <= i <= |list|
        invariant entries == EntriesOf(list[..i]) && byExpiry == IndexOf(KeyTimes(list[..i]))
        invariant this.ttl == ttl && this.capacity == capacity
      {
        ListingStep(list, i);
        EnqueueByExpiry(list[i].0, list[i].1.expiresAt);
        entries := entries[list[i].0 := list[i].1];
        i := i + 1;
      }
      assert list[..i] == list;
      ListingIndexed(list);
    }

    method EnqueueByExpiry(k: K, t: Timestamp)
      modifies this`byExpiry
      ensures byExpiry == Enqueued(old(byExpiry), t, k)
    {
      byExpiry := byExpiry[t := BucketAt(byExpiry, t) + [k]];
    }

    /** Inserts an entry with its own expiry, clamped to the lifetime from now. */
    method InsertEntry(now: Timestamp, key: K, entry: Entry<V>) returns (error: Option<InsertError>, evicted: seq<(K, V)>)
      requires Valid()
      modifies this
      ensures Valid()
      ensures IsExpired(entry.expiresAt, now) ==> error.None? && entries == old(entries) && evicted == []
      ensures !IsExpired(entry.expiresAt, now) ==>
                && error == Refusal(old(entries), capacity, now, key)
                && entries == Inserted(old(entries), capacity, ttl, now, key, entry)
      ensures !IsExpired(entry.expiresAt, now) && error.None? ==> Evicts(old(entries), Live(old(entries), now), evicted)
    {
      if IsExpired(entry.expiresAt, now) {
        return None, [];
      }
      var live := GetEntry(now, key);
      if live.Some? {
        return Some(AlreadyPresent), [];
      }
      evicted := EvictExpired(now);
      if |entries| >= capacity {
        return Some(AtCapacity), [];
      }
      var clamped := Entry(entry.value, Min(entry.expiresAt, SaturatingAdd(now, ttl)));
      EnqueueIndexed(entries, byExpiry, key, clamped);
      EnqueueByExpiry(key, clamped.expiresAt);
      entries := entries[key := clamped];
      return None, evicted;
    }

    method GetEntry(now: Timestamp, key: K) returns (r: Option<Entry<V>>)
      ensures r == Lookup(entries, key, now)
    {
      if key in entries && !IsExpired(entries[key].expiresAt, now) {
        return Some(entries[key]);
      }
      return None;
    }

    /** Removes and returns every entry that has outlived its time, earliest bucket first. */
    method EvictExpired(now: Timestamp) returns (evicted: seq<(K, V)>)
      requires Valid()
      modifies this
      ensures Valid() && entries == Live(old(entries), now) && Evicts(old(entries), entries, evicted)
    {
      evicted := [];
      while byExpiry.Keys != {} && IsExpired(Least(byExpiry.Keys), now)
        invariant Valid() && Evicts(old(entries), entries, evicted)
        invariant forall k | k in old(entries) && k !in entries :: IsExpired(old(entries)[k].expiresAt, now)
        decreases |byExpiry.Keys|
      {
        var expiresAt := Least(byExpiry.Keys);
        var bucket := byExpiry[expiresAt];
        DropBucketIndexed(entries, byExpiry, expiresAt);
        byExpiry := byExpiry - {expiresAt};
        evicted := RemoveAll(old(entries), bucket, evicted);
      }
      AllLive(entries, byExpiry, now);
    }

    method RemoveAll(ghost before: Entries<K, V>, bucket: seq<K>, evictedBefore: seq<(K, V)>) returns (evicted: seq<(K, V)>)
      requires Distinct(bucket) && (forall k | k in bucket :: k in entries) && Evicts(before, entries, evictedBefore)
      modifies this`entries
      ensures entries == old(entries) - Elems(bucket) && Evicts(before, entries, evicted)
    {
      evicted := evictedBefore;
      for i := 0 to |bucket|
        invariant entries == old(entries) - Elems(bucket[..i]) && Evicts(before, entries, evicted)
      {
        assert bucket[..i + 1] == bucket[..i] + [bucket[i]];
        ElemsAppend(bucket[..i], bucket[i]);
        EvictOne(before, entries, evicted, bucket[i]);
        evicted := evicted + [(bucket[i], entries[bucket[i]].value)];
        entries := entries - {bucket[i]};
      }
      assert bucket[..|bucket|] == bucket;
    }

    /** Removes the entry under a key, live or expired. */
    method Remove(key: K) returns (r: Option<Entry<V>>)
      requires Valid()
      modifies this
      ensures Valid() && entries == old(entries) - {key}
      ensures r == if key in old(entries) then Some(old(entries)[key]) else None
    {
      if key !in entries {
        return None;
      }
      var entry := entries[key];
      UnlistIndexed(entries, byExpiry, key);
      entries := entries - {key};
      var bucket := Without(byExpiry[entry.expiresAt], key);
      if bucket == [] {
        byExpiry := byExpiry - {entry.expiresAt};
      } else {
        byExpiry := byExpiry[entry.expiresAt := bucket];
      }
      return Some(entry);
    }

    /** Changes the value under a key that is live; its expiry stays. */
    method UpdateValue(now: Timestamp, key: K, value: V) returns (found: bool)
      requires Valid()
      modifies this`entries
      ensures Valid() && found == IsLive(old(entries), key, now)
      ensures entries == if found then old(entries)[key := Entry(value, old(entries)[key].expiresAt)] else old(entries)
    {
      var entry := GetEntry(now, key);
      if entry.None? {
        return false;
      }
      UpdateIndexed(entries, byExpiry, key, value);
      entries := entries[key := Entry(value, entries[key].expiresAt)];
      return true;
    }

    /** Every entry, live or expired, by ascending expiry. */
    method IterByExpiry() returns (list: Listing<K, V>)
      requires Valid()
      ensures InOrder(entries, byExpiry, list) && DistinctKeys(list) && AscendingExpiry(list)
      ensures EntriesOf(list) == entries && IndexOf(KeyTimes(list)) == byExpiry
    {
      hide ByExpiry, IndexOf, EntriesOf, Indexed;
      var pairs := ByExpiry(byExpiry);
      list := [];
      for i := 0 to |pairs|
        invariant |list| == i
        invariant forall j | 0 <= j < i ::
                    && pairs[j].0 in entries && list[j] == (pairs[j].0, entries[pairs[j].0])
                    && list[j].1.expiresAt == pairs[j].1
      {
        PairIsEntry(entries, byExpiry, i);
        list := list + [(pairs[i].0, entries[pairs[i].0])];
      }
      assert KeyTimes(list) == pairs;
      RebuildIsIdentity(entries, byExpiry, list);
      ListedAscending(byExpiry, list);
    }
  }

  ghost predicate AscendingExpiry<K, V>(list: Listing<K, V>) {
    forall i, j | 0 <= i < j < |list| :: list[i].1.expiresAt <= list[j].1.expiresAt
  }

  lemma {:induction false} PairsAscend<K>(index: Index<K>, times: seq<Timestamp>, i: nat, j: nat)
    requires Increasing(times) && (forall i | 0 <= i < |times| :: times[i] in index) && i < j < |PairsOf(index, times)|
    ensures PairsOf(index, times)[i].1 in times && PairsOf(index, times)[j].1 in times
    ensures PairsOf(index, times)[i].1 <= PairsOf(index, times)[j].1
  {
    var n := |times| - 1;
    var front := PairsOf(index, times[..n]);
    PairTime(index, times, i);
    PairTime(index, times, j);
    if j < |front| {
      PairsAscend(index, times[..n], i, j);
    } else if i < |front| {
      PairTime(index, times[..n], i);
    }
  }

  lemma {:induction false} PairTime<K>(index: Index<K>, times: seq<Timestamp>, i: nat)
    requires (forall i | 0 <= i < |times| :: times[i] in index) && i < |PairsOf(index, times)|
    ensures PairsOf(index, times)[i].1 in times
  {
    var n := |times| - 1;
    if i < |PairsOf(index, times[..n])| {
      PairTime(index, times[..n], i);
    }
  }

  lemma ListedAscending<K, V>(index: Index<K>, list: Listing<K, V>)
    requires KeyTimes(list) == ByExpiry(index)
    ensures AscendingExpiry(list)
  {
    forall i, j | 0 <= i < j < |list| ensures list[i].1.expiresAt <= list[j].1.expiresAt {
      PairsAscend(index, Times(index), i, j);
      assert KeyTimes(list)[i].1 == list[i].1.expiresAt && KeyTimes(list)[j].1 == list[j].1.expiresAt;
    }
  }

  lemma ListingStep<K, V>(list: Listing<K, V>, i: nat)
    requires i < |list|
    ensures EntriesOf(list[..i + 1]) == EntriesOf(list[..i])[list[i].0 := list[i].1]
    ensures IndexOf(KeyTimes(list[..i + 1])) == Enqueued(IndexOf(KeyTimes(list[..i])), list[i].1.expiresAt, list[i].0)
  {
    assert list[..i + 1][..i] == list[..i];
    assert KeyTimes(list[..i + 1])[..i] == KeyTimes(list[..i]);
  }
}
