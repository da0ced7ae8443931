/** The life of a withdrawal: every accepted burn index is in exactly one of the five buckets,
    buckets only move forward, and the created transactions list each created request once
    (minter/src/state/mod.rs). The records keep, for every burn index ever accepted, the request
    and the stage it has reached. */
module WithdrawalRecords {
  import opened Prelude
  import opened Solana
  import opened ScanSchedule
  import opened Minter

  datatype WithdrawalStage =
    | IsPending
    | IsCreated(nonceAccount: Address)
    | IsSent(signature: Signature)
    | HasSucceeded(signature: Signature)
    | HasFailed(signature: Signature)

  datatype Bucket = PendingBucket | CreatedBucket | SentBucket | SuccessfulBucket | FailedBucket

  datatype Withdrawal = Progress(request: WithdrawalRequest, createdAt: Timestamp, stage: WithdrawalStage)

  type Withdrawals = map<BurnIndex, Withdrawal>

  function BucketOf(st: WithdrawalStage): Bucket {
    match st
    case IsPending => PendingBucket
    case IsCreated(_) => CreatedBucket
    case IsSent(_) => SentBucket
    case HasSucceeded(_) => SuccessfulBucket
    case HasFailed(_) => FailedBucket
  }

  /** The stages that may follow one another; a signature, once recorded, stays. */
  predicate NextStage(st: WithdrawalStage, st': WithdrawalStage) {
    match st
    case IsPending => st'.IsCreated?
    case IsCreated(_) => st'.IsSent?
    case IsSent(sig) => st' == HasSucceeded(sig) || st' == HasFailed(sig)
    case HasSucceeded(_) => false
    case HasFailed(_) => false
  }

  /** One step of history: no request is forgotten or rewritten. */
  ghost predicate WithdrawalsFollow(w: Withdrawals, w': Withdrawals) {
    forall i | i in w ::
      && i in w' && w'[i].request == w[i].request && w'[i].createdAt == w[i].createdAt
      && (w'[i].stage == w[i].stage || NextStage(w[i].stage, w'[i].stage))
  }

  // ---------- agreement of the buckets with the records ----------

  ghost predicate KeysAt(keys: set<BurnIndex>, w: Withdrawals, b: Bucket) {
    forall i :: i in keys <==> i in w && BucketOf(w[i].stage) == b
  }

  ghost predicate UnsentRecorded(m: map<BurnIndex, PendingWithdrawal>, w: Withdrawals) {
    forall i | i in m ::
      i in w && w[i].request.burnIndex == i && m[i] == PendingWithdrawal(w[i].request, w[i].createdAt)
  }

  ghost predicate SentRecorded(m: map<BurnIndex, SentWithdrawal>, w: Withdrawals) {
    forall i | i in m ::
      && i in w && !w[i].stage.IsPending? && !w[i].stage.IsCreated?
      && m[i] == SentWithdrawal(w[i].request, w[i].stage.signature, w[i].createdAt)
  }

  ghost predicate Lists(txs: map<Address, CreatedTx>, a: Address, i: BurnIndex) {
    a in txs && i in txs[a].burnIndices
  }

  ghost predicate CreatedOn(w: Withdrawals, i: BurnIndex, a: Address) {
    i in w && w[i].stage == IsCreated(a)
  }

  /** The burn lists of the created transactions partition the created requests. */
  ghost predicate Listed(txs: map<Address, CreatedTx>, w: Withdrawals) {
    && (forall a | a in txs ::
          Distinct(txs[a].burnIndices) && 1 <= |txs[a].burnIndices| <= MAX_WITHDRAWALS_PER_NONCE_TX)
    && (forall a, i :: Lists(txs, a, i) <==> CreatedOn(w, i, a))
  }

  // ---------- moving a group of withdrawals ----------

  ghost function Restaged(w: Withdrawals, ids: set<BurnIndex>, st: WithdrawalStage): Withdrawals {
    map i | i in w :: if i in ids then w[i].(stage := st) else w[i]
  }

  ghost predicate AllIn(w: Withdrawals, ids: set<BurnIndex>, b: Bucket) {
    forall i | i in ids :: i in w && BucketOf(w[i].stage) == b
  }

  function ShiftKeys(keys: set<BurnIndex>, ids: set<BurnIndex>, b: Bucket, from: Bucket, to: Bucket): set<BurnIndex> {
    if b == to then keys + ids else if b == from then keys - ids else keys
  }

  lemma RestageKeys(keys: set<BurnIndex>, w: Withdrawals, ids: set<BurnIndex>, b: Bucket, from: Bucket, st: WithdrawalStage)
    requires KeysAt(keys, w, b) && AllIn(w, ids, from) && from != BucketOf(st)
    ensures KeysAt(ShiftKeys(keys, ids, b, from, BucketOf(st)), Restaged(w, ids, st), b)
  {}

  lemma RestageUnsent(m: map<BurnIndex, PendingWithdrawal>, w: Withdrawals, ids: set<BurnIndex>, st: WithdrawalStage)
    requires UnsentRecorded(m, w)
    ensures UnsentRecorded(m, Restaged(w, ids, st))
  {}

  lemma RestageSent(m: map<BurnIndex, SentWithdrawal>, w: Withdrawals, ids: set<BurnIndex>, st: WithdrawalStage)
    requires SentRecorded(m, w) && m.Keys !! ids
    ensures SentRecorded(m, Restaged(w, ids, st))
  {}

  ghost predicate KeysShift(s: MinterState, s': MinterState, ids: set<BurnIndex>, from: Bucket, to: Bucket) {
    && s'.pending.Keys == ShiftKeys(s.pending.Keys, ids, PendingBucket, from, to)
    && s'.created.Keys == ShiftKeys(s.created.Keys, ids, CreatedBucket, from, to)
    && s'.sent.Keys == ShiftKeys(s.sent.Keys, ids, SentBucket, from, to)
    && s'.successful.Keys == ShiftKeys(s.successful.Keys, ids, SuccessfulBucket, from, to)
    && s'.failed.Keys == ShiftKeys(s.failed.Keys, ids, FailedBucket, from, to)
  }

  ghost predicate KeysAgree(s: MinterState, w: Withdrawals) {
    && KeysAt(s.pending.Keys, w, PendingBucket)
    && KeysAt(s.created.Keys, w, CreatedBucket)
    && KeysAt(s.sent.Keys, w, SentBucket)
    && KeysAt(s.successful.Keys, w, SuccessfulBucket)
    && KeysAt(s.failed.Keys, w, FailedBucket)
  }

  ghost predicate RecordsAgree(s: MinterState, w: Withdrawals) {
    && UnsentRecorded(s.pending, w) && UnsentRecorded(s.created, w)
    && SentRecorded(s.sent, w) && SentRecorded(s.successful, w) && SentRecorded(s.failed, w)
  }

  ghost predicate Buckets(s: MinterState, w: Withdrawals) {
    KeysAgree(s, w) && RecordsAgree(s, w)
  }

  lemma RestageAgree(s: MinterState, s': MinterState, w: Withdrawals, ids: set<BurnIndex>, from: Bucket, st: WithdrawalStage)
    requires KeysAgree(s, w) && AllIn(w, ids, from) && from != BucketOf(st)
    requires KeysShift(s, s', ids, from, BucketOf(st))
    ensures KeysAgree(s', Restaged(w, ids, st))
  {
    hide KeysAt, AllIn, Restaged, ShiftKeys;
    RestageKeys(s.pending.Keys, w, ids, PendingBucket, from, st);
    RestageKeys(s.created.Keys, w, ids, CreatedBucket, from, st);
    RestageKeys(s.sent.Keys, w, ids, SentBucket, from, st);
    RestageKeys(s.successful.Keys, w, ids, SuccessfulBucket, from, st);
    RestageKeys(s.failed.Keys, w, ids, FailedBucket, from, st);
  }

  /** Requests in one bucket are in no other. */
  lemma SentApart(s: MinterState, w: Withdrawals, ids: set<BurnIndex>, b: Bucket)
    requires KeysAgree(s, w) && AllIn(w, ids, b)
    ensures b != SentBucket ==> s.sent.Keys !! ids
    ensures b != SuccessfulBucket ==> s.successful.Keys !! ids
    ensures b != FailedBucket ==> s.failed.Keys !! ids
  {
    assert forall i | i in ids :: i in w;
  }

  lemma TakenFrom(keys: set<BurnIndex>, w: Withdrawals, b: Bucket, ids: set<BurnIndex>)
    requires KeysAt(keys, w, b) && ids <= keys
    ensures AllIn(w, ids, b)
  {}

  // ---------- accept ----------

  ghost function Arrival(w: Withdrawals, r: WithdrawalRequest, now: Timestamp): Withdrawals {
    w[r.burnIndex := Progress(r, now, IsPending)]
  }

  lemma ArrivalKeysAt(keys: set<BurnIndex>, w: Withdrawals, r: WithdrawalRequest, now: Timestamp, b: Bucket)
    requires KeysAt(keys, w, b) && r.burnIndex !in w
    ensures KeysAt(if b == PendingBucket then keys + {r.burnIndex} else keys, Arrival(w, r, now), b)
  {}

  lemma ArrivalUnsent(m: map<BurnIndex, PendingWithdrawal>, w: Withdrawals, r: WithdrawalRequest, now: Timestamp)
    requires UnsentRecorded(m, w) && r.burnIndex !in w
    ensures UnsentRecorded(m, Arrival(w, r, now))
    ensures UnsentRecorded(m[r.burnIndex := PendingWithdrawal(r, now)], Arrival(w, r, now))
  {}

  lemma ArrivalSent(m: map<BurnIndex, SentWithdrawal>, w: Withdrawals, r: WithdrawalRequest, now: Timestamp)
    requires SentRecorded(m, w) && r.burnIndex !in w
    ensures SentRecorded(m, Arrival(w, r, now))
  {}

  lemma AcceptBuckets(s: MinterState, w: Withdrawals, r: WithdrawalRequest, now: Timestamp)
    requires Buckets(s, w) && r.burnIndex !in w
    ensures Buckets(Accepted(s, r, now), Arrival(w, r, now)) && WithdrawalsFollow(w, Arrival(w, r, now))
  {
    hide KeysAt, UnsentRecorded, SentRecorded;
    ArrivalKeysAt(s.pending.Keys, w, r, now, PendingBucket);
    ArrivalKeysAt(s.created.Keys, w, r, now, CreatedBucket);
    ArrivalKeysAt(s.sent.Keys, w, r, now, SentBucket);
    ArrivalKeysAt(s.successful.Keys, w, r, now, SuccessfulBucket);
    ArrivalKeysAt(s.failed.Keys, w, r, now, FailedBucket);
    ArrivalUnsent(s.pending, w, r, now);
    ArrivalUnsent(s.created, w, r, now);
    ArrivalSent(s.sent, w, r, now);
    ArrivalSent(s.successful, w, r, now);
    ArrivalSent(s.failed, w, r, now);
    assert Accepted(s, r, now).pending.Keys == s.pending.Keys + {r.burnIndex};
  }

  lemma AcceptListed(txs: map<Address, CreatedTx>, w: Withdrawals, r: WithdrawalRequest, now: Timestamp)
    requires Listed(txs, w) && r.burnIndex !in w
    ensures Listed(txs, Arrival(w, r, now))
  {
    var w' := Arrival(w, r, now);
    forall a, i ensures Lists(txs, a, i) <==> CreatedOn(w', i, a) {
      assert Lists(txs, a, i) <==> CreatedOn(w, i, a);
    }
  }

  // ---------- create ----------

  lemma CreateBuckets(s: MinterState, w: Withdrawals, burns: seq<BurnIndex>, a: Address, nonce: Hash)
    requires Buckets(s, w) && a in s.pool && (forall b | b in burns :: b in s.pending)
    requires CostOf(s.pending, burns) <= s.balance
    ensures Buckets(Created(s, burns, a, nonce), Restaged(w, Elems(burns), IsCreated(a)))
    ensures WithdrawalsFollow(w, Restaged(w, Elems(burns), IsCreated(a)))
  {
    hide KeysAt, UnsentRecorded, SentRecorded, AllIn, Restaged;
    var s', ids, st := Created(s, burns, a, nonce), Elems(burns), IsCreated(a);
    TakenFrom(s.pending.Keys, w, PendingBucket, ids);
    SentApart(s, w, ids, PendingBucket);
    CreateRecords(s.pending, s.created, w, burns, st);
    MinusKeys(s.pending, ids);
    PlusKeys(s.created, PickedRequests(s.pending, burns));
    RestageAgree(s, s', w, ids, PendingBucket, st);
    RestageSent(s.sent, w, ids, st);
    RestageSent(s.successful, w, ids, st);
    RestageSent(s.failed, w, ids, st);
    BucketFollows(w, ids, PendingBucket, st);
  }

  lemma BucketFollows(w: Withdrawals, ids: set<BurnIndex>, b: Bucket, st: WithdrawalStage)
    requires AllIn(w, ids, b) && ((b == PendingBucket && st.IsCreated?) || (b == CreatedBucket && st.IsSent?))
    ensures WithdrawalsFollow(w, Restaged(w, ids, st))
  {}

  lemma CreateRecords(pending: map<BurnIndex, PendingWithdrawal>, created: map<BurnIndex, PendingWithdrawal>,
                      w: Withdrawals, burns: seq<BurnIndex>, st: WithdrawalStage)
    requires UnsentRecorded(pending, w) && UnsentRecorded(created, w) && forall b | b in burns :: b in pending
    ensures UnsentRecorded(pending - Elems(burns), Restaged(w, Elems(burns), st))
    ensures UnsentRecorded(created + PickedRequests(pending, burns), Restaged(w, Elems(burns), st))
    ensures PickedRequests(pending, burns).Keys == Elems(burns)
  {
    var w' := Restaged(w, Elems(burns), st);
    RestageUnsent(pending, w, Elems(burns), st);
    RestageUnsent(created, w, Elems(burns), st);
    assert UnsentRecorded(PickedRequests(pending, burns), w');
  }

  lemma CreateListed(txs: map<Address, CreatedTx>, w: Withdrawals, burns: seq<BurnIndex>, a: Address, nonce: Hash)
    requires Listed(txs, w) && a !in txs && AllIn(w, Elems(burns), PendingBucket)
    requires Distinct(burns) && 1 <= |burns| <= MAX_WITHDRAWALS_PER_NONCE_TX
    ensures Listed(txs[a := CreatedTx(nonce, burns)], Restaged(w, Elems(burns), IsCreated(a)))
  {
    var w', txs' := Restaged(w, Elems(burns), IsCreated(a)), txs[a := CreatedTx(nonce, burns)];
    forall x, i ensures Lists(txs', x, i) <==> CreatedOn(w', i, x) {
      assert Lists(txs, x, i) <==> CreatedOn(w, i, x);
      assert Lists(txs, a, i) <==> CreatedOn(w, i, a);
      assert i in burns <==> i in Elems(burns);
    }
  }

  // ---------- send ----------

  lemma SendBuckets(s: MinterState, w: Withdrawals, sig: Signature, message: Message, a: Address, now: Timestamp)
    requires Buckets(s, w) && a in s.createdTxs && forall b | b in s.createdTxs[a].burnIndices :: b in s.created
    ensures var w' := Restaged(w, Elems(s.createdTxs[a].burnIndices), IsSent(sig));
            Buckets(Sent(s, sig, message, a, now), w') && WithdrawalsFollow(w, w')
  {
    hide KeysAt, UnsentRecorded, SentRecorded, AllIn, Restaged;
    var burns := s.createdTxs[a].burnIndices;
    var s', ids, st := Sent(s, sig, message, a, now), Elems(burns), IsSent(sig);
    TakenFrom(s.created.Keys, w, CreatedBucket, ids);
    SentApart(s, w, ids, CreatedBucket);
    SendRecords(s.created, s.sent, w, burns, sig);
    MinusKeys(s.created, ids);
    PlusKeys(s.sent, SentOf(s.created, burns, sig));
    RestageAgree(s, s', w, ids, CreatedBucket, st);
    RestageUnsent(s.pending, w, ids, st);
    RestageSent(s.successful, w, ids, st);
    RestageSent(s.failed, w, ids, st);
    BucketFollows(w, ids, CreatedBucket, st);
  }

  lemma SendRecords(created: map<BurnIndex, PendingWithdrawal>, sent: map<BurnIndex, SentWithdrawal>,
                    w: Withdrawals, burns: seq<BurnIndex>, sig: Signature)
    requires UnsentRecorded(created, w) && SentRecorded(sent, w) && sent.Keys !! Elems(burns)
    requires forall b | b in burns :: b in created
    ensures UnsentRecorded(created - Elems(burns), Restaged(w, Elems(burns), IsSent(sig)))
    ensures SentRecorded(sent + SentOf(created, burns, sig), Restaged(w, Elems(burns), IsSent(sig)))
    ensures SentOf(created, burns, sig).Keys == Elems(burns)
  {
    var w' := Restaged(w, Elems(burns), IsSent(sig));
    RestageUnsent(created, w, Elems(burns), IsSent(sig));
    RestageSent(sent, w, Elems(burns), IsSent(sig));
    assert SentRecorded(SentOf(created, burns, sig), w');
  }

  lemma SendListed(txs: map<Address, CreatedTx>, w: Withdrawals, a: Address, sig: Signature)
    requires Listed(txs, w) && a in txs
    ensures Listed(txs - {a}, Restaged(w, Elems(txs[a].burnIndices), IsSent(sig)))
  {
    var w', txs' := Restaged(w, Elems(txs[a].burnIndices), IsSent(sig)), txs - {a};
    forall x, i ensures Lists(txs', x, i) <==> CreatedOn(w', i, x) {
      assert Lists(txs, x, i) <==> CreatedOn(w, i, x);
      assert Lists(txs, a, i) <==> CreatedOn(w, i, a);
      assert i in txs[a].burnIndices <==> i in Elems(txs[a].burnIndices);
    }
  }

  // ---------- outcome ----------

  ghost function SentWith(w: Withdrawals, sig: Signature): set<BurnIndex> {
    set i | i in w && w[i].stage == IsSent(sig)
  }

  lemma SentByIs(sent: map<BurnIndex, SentWithdrawal>, w: Withdrawals, sig: Signature)
    requires KeysAt(sent.Keys, w, SentBucket) && SentRecorded(sent, w)
    ensures SentBy(sent, sig).Keys == SentWith(w, sig)
  {
    forall i | i in SentWith(w, sig) ensures i in SentBy(sent, sig) {
      assert i in w && BucketOf(w[i].stage) == SentBucket;
    }
  }

  lemma OutcomeRecords(sent: map<BurnIndex, SentWithdrawal>, done: map<BurnIndex, SentWithdrawal>, w: Withdrawals,
                       sig: Signature, st: WithdrawalStage)
    requires SentRecorded(sent, w) && SentRecorded(done, w) && done.Keys !! SentWith(w, sig)
    requires SentBy(sent, sig).Keys == SentWith(w, sig)
    requires st == HasSucceeded(sig) || st == HasFailed(sig)
    ensures SentRecorded(sent - SentBy(sent, sig).Keys, Restaged(w, SentWith(w, sig), st))
    ensures SentRecorded(done + SentBy(sent, sig), Restaged(w, SentWith(w, sig), st))
  {
    var w' := Restaged(w, SentWith(w, sig), st);
    RestageSent(done, w, SentWith(w, sig), st);
    RestageSent(sent - SentBy(sent, sig).Keys, w, SentWith(w, sig), st);
    assert SentRecorded(SentBy(sent, sig), w');
  }

  /** Moving the withdrawals sent with a signature to their outcome. */
  lemma OutcomeBuckets(s: MinterState, s': MinterState, w: Withdrawals, sig: Signature, st: WithdrawalStage)
    requires Buckets(s, w) && s'.pending == s.pending && s'.created == s.created
    requires s'.sent == s.sent - SentBy(s.sent, sig).Keys
    requires st == HasSucceeded(sig) || st == HasFailed(sig)
    requires s'.successful == if st.HasSucceeded? then s.successful + SentBy(s.sent, sig) else s.successful
    requires s'.failed == if st.HasFailed? then s.failed + SentBy(s.sent, sig) else s.failed
    ensures Buckets(s', Restaged(w, SentWith(w, sig), st))
    ensures WithdrawalsFollow(w, Restaged(w, SentWith(w, sig), st))
  {
    hide KeysAt, UnsentRecorded, SentRecorded, AllIn, Restaged, SentBy;
    var ids := SentWith(w, sig);
    SentByIs(s.sent, w, sig);
    SentWithAt(w, sig, st);
    SentApart(s, w, ids, SentBucket);
    MinusKeys(s.sent, ids);
    PlusKeys(s.successful, SentBy(s.sent, sig));
    PlusKeys(s.failed, SentBy(s.sent, sig));
    RestageAgree(s, s', w, ids, SentBucket, st);
    RestageUnsent(s.pending, w, ids, st);
    RestageUnsent(s.created, w, ids, st);
    OutcomeRecords(s.sent, if st.HasSucceeded? then s.successful else s.failed, w, sig, st);
    RestageSent(s.successful, w, ids, st);
    RestageSent(s.failed, w, ids, st);
  }

  lemma SentWithAt(w: Withdrawals, sig: Signature, st: WithdrawalStage)
    requires st == HasSucceeded(sig) || st == HasFailed(sig)
    ensures AllIn(w, SentWith(w, sig), SentBucket)
    ensures WithdrawalsFollow(w, Restaged(w, SentWith(w, sig), st))
  {}

  lemma OutcomeListed(txs: map<Address, CreatedTx>, w: Withdrawals, sig: Signature, st: WithdrawalStage)
    requires Listed(txs, w) && (st == HasSucceeded(sig) || st == HasFailed(sig))
    ensures Listed(txs, Restaged(w, SentWith(w, sig), st))
  {
    var w' := Restaged(w, SentWith(w, sig), st);
    forall x, i ensures Lists(txs, x, i) <==> CreatedOn(w', i, x) {
      assert Lists(txs, x, i) <==> CreatedOn(w, i, x);
    }
  }

  // ---------- status ----------

  datatype WithdrawalStatus =
    | StatusPending
    | StatusTxSent(signature: Signature)
    | StatusSuccess(signature: Signature)
    | StatusFailure(signature: Signature)
    | StatusUnknown

  function StageStatus(st: WithdrawalStage): WithdrawalStatus {
    match st
    case IsPending => StatusPending
    case IsCreated(_) => StatusPending
    case IsSent(sig) => StatusTxSent(sig)
    case HasSucceeded(sig) => StatusSuccess(sig)
    case HasFailed(sig) => StatusFailure(sig)
  }

  /** Looks the buckets up one after the other, as the canister endpoint does. */
  function WithdrawalStatusOf(s: MinterState, i: BurnIndex): WithdrawalStatus {
    if i in s.pending || i in s.created then StatusPending
    else if i in s.sent then StatusTxSent(s.sent[i].signature)
    else if i in s.successful then StatusSuccess(s.successful[i].signature)
    else if i in s.failed then StatusFailure(s.failed[i].signature)
    else StatusUnknown
  }

  /** The number of buckets that hold a withdrawal. */
  function BucketsHolding(s: MinterState, i: BurnIndex): nat {
    (if i in s.pending then 1 else 0) + (if i in s.created then 1 else 0) + (if i in s.sent then 1 else 0)
    + (if i in s.successful then 1 else 0) + (if i in s.failed then 1 else 0)
  }

  /** Every accepted withdrawal is in exactly one bucket, and the status is the stage it reached. */
  lemma StatusIsStage(s: MinterState, w: Withdrawals, i: BurnIndex)
    requires Buckets(s, w)
    ensures BucketsHolding(s, i) == if i in w then 1 else 0
    ensures i !in w ==> WithdrawalStatusOf(s, i) == StatusUnknown
    ensures i in w ==> WithdrawalStatusOf(s, i) == StageStatus(w[i].stage)
  {
    hide KeysAt;
    BucketsAt(s, w, i);
  }

  lemma BucketsAt(s: MinterState, w: Withdrawals, i: BurnIndex)
    requires KeysAgree(s, w)
    ensures i in s.pending <==> i in w && BucketOf(w[i].stage) == PendingBucket
    ensures i in s.created <==> i in w && BucketOf(w[i].stage) == CreatedBucket
    ensures i in s.sent <==> i in w && BucketOf(w[i].stage) == SentBucket
    ensures i in s.successful <==> i in w && BucketOf(w[i].stage) == SuccessfulBucket
    ensures i in s.failed <==> i in w && BucketOf(w[i].stage) == FailedBucket
  {
    assert i in s.pending <==> i in s.pending.Keys;
    assert i in s.created <==> i in s.created.Keys;
    assert i in s.sent <==> i in s.sent.Keys;
    assert i in s.successful <==> i in s.successful.Keys;
    assert i in s.failed <==> i in s.failed.Keys;
  }
}
