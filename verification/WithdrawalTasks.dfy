/** The tasks that drive withdrawals across their awaits: each works from a snapshot it took
    while other events go on, and a restart drops the snapshots
    (minter/src/withdraw/mod.rs, minter/src/monitor/withdrawals.rs). */
module WithdrawalTasks {
  import opened Prelude
  import opened Solana
  import opened InsertionOrdered
  import opened NoncePool
  import opened NonceChain
  import opened ScanSchedule
  import opened Sweeps
  import opened DepositBook
  import opened DepositLifecycle
  import opened Minter
  import opened WithdrawalRecords
  import opened MinterRuns
  import opened Batches
  import opened WithdrawalProtocol

  // ---------- reserved batches ----------

  datatype ReservedBatch = ReservedBatch(nonceAccount: Address, requests: seq<WithdrawalRequest>)

  function BurnsOf(requests: seq<WithdrawalRequest>): seq<BurnIndex> {
    seq(|requests|, i requires 0 <= i < |requests| => requests[i].burnIndex)
  }

  function CostsOf(reserved: seq<ReservedBatch>): seq<Lamport> {
    seq(|reserved|, i requires 0 <= i < |reserved| => BatchCost(reserved[i].requests))
  }

  /** The requests are still pending, as they were taken. */
  ghost predicate StillPending(pending: map<BurnIndex, PendingWithdrawal>, requests: seq<WithdrawalRequest>) {
    && 1 <= |requests| <= MAX_WITHDRAWALS_PER_NONCE_TX && Distinct(BurnsOf(requests))
    && forall i | 0 <= i < |requests| ::
         requests[i].burnIndex in pending && pending[requests[i].burnIndex].request == requests[i]
  }

  ghost predicate NoOverlap(a: ReservedBatch, b: ReservedBatch) {
    a.nonceAccount != b.nonceAccount && Elems(BurnsOf(a.requests)) !! Elems(BurnsOf(b.requests))
  }

  /** The batches not turned into transactions yet: pending requests, free accounts, no overlap,
      and a balance that pays for all of them and stays above the rent threshold. */
  ghost predicate Reserved(s: MinterState, reserved: seq<ReservedBatch>) {
    && (forall k | 0 <= k < |reserved| :: StillPending(s.pending, reserved[k].requests))
    && (forall k | 0 <= k < |reserved| :: IsFree(s.pool, reserved[k].nonceAccount))
    && (forall j, k | 0 <= j < k < |reserved| :: NoOverlap(reserved[j], reserved[k]))
    && (reserved != [] ==> s.key.Some? && s.balance >= RENT_EXEMPTION_THRESHOLD + Sum(CostsOf(reserved)))
  }

  ghost predicate IsFree(pool: Pool, a: Address) {
    a in pool && !pool[a].bound
  }

  function Removed<T>(s: seq<T>, k: nat): seq<T>
    requires k < |s|
  {
    s[..k] + s[k + 1..]
  }

  lemma SumRemoved(s: seq<nat>, k: nat)
    requires k < |s|
    ensures Sum(Removed(s, k)) + s[k] == Sum(s)
  {
    hide Sum;
    SumConcat(s[..k], s[k + 1..]);
    assert s == s[..k] + [s[k]] + s[k + 1..];
    SumConcat(s[..k] + [s[k]], s[k + 1..]);
    SumAppend(s[..k], s[k]);
  }

  // ---------- taking reservations ----------

  /** The pending requests, oldest first. */
  function PendingRequests(pending: map<BurnIndex, PendingWithdrawal>): seq<WithdrawalRequest> {
    var ids := Ascending(pending.Keys);
    seq(|ids|, i requires 0 <= i < |ids| => assert ids[i] in Elems(ids); pending[ids[i]].request)
  }

  /** All pending requests are listed, each once, by rising burn index: the order they were burned in. */
  lemma PendingOldestFirst(s: MinterState, h: History)
    requires Inv(s, h)
    ensures var list := PendingRequests(s.pending);
            && |list| == |s.pending|
            && (forall i | 0 <= i < |list| :: list[i].burnIndex in s.pending && s.pending[list[i].burnIndex].request == list[i])
            && forall i, j | 0 <= i < j < |list| :: list[i].burnIndex < list[j].burnIndex
  {
    hide Agrees, Listed, TxsAgree, NoncesAgree, Keyed, KeysAgree, SentRecorded, Ascending;
    var ids := Ascending(s.pending.Keys);
    IncreasingDistinct(ids);
    ElemsCard(ids);
    assert |s.pending| == |s.pending.Keys|;
    forall i | 0 <= i < |ids| ensures ids[i] in s.pending && s.pending[ids[i]].request.burnIndex == ids[i] {
      assert ids[i] in Elems(ids);
    }
  }

  ghost predicate RequestsIndexed(pending: map<BurnIndex, PendingWithdrawal>, requests: seq<WithdrawalRequest>) {
    && (forall i | 0 <= i < |requests| ::
          requests[i].burnIndex in pending && pending[requests[i].burnIndex].request == requests[i])
    && (forall i, j | 0 <= i < j < |requests| :: requests[i].burnIndex != requests[j].burnIndex)
  }

  lemma PendingIndexed(s: MinterState, h: History)
    requires Inv(s, h)
    ensures RequestsIndexed(s.pending, PendingRequests(s.pending))
  {
    hide Agrees, Listed, TxsAgree, NoncesAgree, Keyed, KeysAgree, SentRecorded;
    var ids := Ascending(s.pending.Keys);
    forall i | 0 <= i < |ids| ensures ids[i] in s.pending && s.pending[ids[i]].request.burnIndex == ids[i] {
      assert ids[i] in Elems(ids);
    }
  }

  /** All batches but the last are full, so the requests of a batch sit at known places. */
  lemma {:induction false} CutAt(batches: seq<seq<WithdrawalRequest>>, k: nat, i: nat)
    requires WellCut(batches) && k < |batches| && i < |batches[k]|
    ensures var at := MAX_WITHDRAWALS_PER_NONCE_TX * k + i;
            at < |Flatten(batches)| && Flatten(batches)[at] == batches[k][i]
    decreases k
  {
    if k > 0 {
      CutAt(batches[1..], k - 1, i);
    }
  }

  lemma CutPending(pending: map<BurnIndex, PendingWithdrawal>, requests: seq<WithdrawalRequest>,
                   batches: seq<seq<WithdrawalRequest>>, k: nat)
    requires RequestsIndexed(pending, requests) && WellCut(batches) && Flatten(batches) <= requests && k < |batches|
    ensures StillPending(pending, batches[k])
  {
    hide Flatten;
    var start, batch := MAX_WITHDRAWALS_PER_NONCE_TX * k, batches[k];
    forall i | 0 <= i < |batch|
      ensures batch[i].burnIndex in pending && pending[batch[i].burnIndex].request == batch[i]
    {
      CutAt(batches, k, i);
      assert requests[start + i] == batch[i];
    }
    forall i, j | 0 <= i < j < |batch| ensures BurnsOf(batch)[i] != BurnsOf(batch)[j] {
      CutAt(batches, k, i);
      CutAt(batches, k, j);
      assert requests[start + i] == batch[i] && requests[start + j] == batch[j];
    }
  }

  lemma CutApart(pending: map<BurnIndex, PendingWithdrawal>, requests: seq<WithdrawalRequest>,
                 batches: seq<seq<WithdrawalRequest>>, j: nat, k: nat)
    requires RequestsIndexed(pending, requests) && WellCut(batches) && Flatten(batches) <= requests && j < k < |batches|
    ensures Elems(BurnsOf(batches[j])) !! Elems(BurnsOf(batches[k]))
  {
    forall x, y | 0 <= x < |batches[j]| && 0 <= y < |batches[k]|
      ensures batches[j][x].burnIndex != batches[k][y].burnIndex
    {
      CutAt(batches, j, x);
      CutAt(batches, k, y);
    }
  }

  lemma {:induction false} CostsWithinTotal(batches: seq<seq<WithdrawalRequest>>, reserved: seq<ReservedBatch>)
    requires |reserved| <= |batches| && forall i | 0 <= i < |reserved| :: reserved[i].requests == batches[i]
    ensures Sum(CostsOf(reserved)) <= TotalCost(batches)
    decreases |batches|
  {
    if batches != [] {
      var n := |batches| - 1;
      if |reserved| <= n {
        CostsWithinTotal(batches[..n], reserved);
      } else {
        CostsWithinTotal(batches[..n], reserved[..n]);
        assert CostsOf(reserved)[..n] == CostsOf(reserved[..n]);
      }
    }
  }

  /** The exact answer, for the p oldest requests that the balance above the rent threshold pays for:
      as many batches as there are free accounts, signatures left of ten, and groups of ten of those
      requests; the i-th batch is the i-th group, the last one possibly shorter, on the i-th account. */
  ghost predicate ReservesExactly(accounts: seq<Address>, requests: seq<WithdrawalRequest>, balance: Lamport, created: nat,
                                  p: nat, reserved: seq<ReservedBatch>) {
    && LongestAffordable(requests, if balance < 890_880 then 0 else balance - 890_880, p)
    && |reserved| <= |accounts| && |reserved| <= (if created < 10 then 10 - created else 0) && |reserved| <= (p + 9) / 10
    && (|reserved| == |accounts| || created + |reserved| >= 10 || |reserved| == (p + 9) / 10)
    && forall i | 0 <= i < |reserved| ::
         && reserved[i].nonceAccount == accounts[i]
         && reserved[i].requests == requests[10 * i..if 10 * i + 10 <= p then 10 * i + 10 else p]
  }

  lemma CutLength(batches: seq<seq<WithdrawalRequest>>)
    requires WellCut(batches)
    ensures |batches| == (|Flatten(batches)| + 9) / 10
    ensures forall k | 0 <= k < |batches| ::
              10 * k + |batches[k]| == if 10 * k + 10 <= |Flatten(batches)| then 10 * k + 10 else |Flatten(batches)|
  {
    if batches != [] {
      var n := |batches| - 1;
      assert batches == batches[..n] + [batches[n]];
      FlattenAppend(batches[..n], batches[n]);
      FullLength(batches[..n]);
    }
  }

  lemma {:induction false} FullLength(batches: seq<seq<WithdrawalRequest>>)
    requires forall i | 0 <= i < |batches| :: |batches[i]| == MAX_WITHDRAWALS_PER_NONCE_TX
    ensures |Flatten(batches)| == 10 * |batches|
  {
    if batches != [] {
      FullLength(batches[1..]);
    }
  }

  /** A batch is its group of the prefix that the batches cover. */
  lemma CutGroup(requests: seq<WithdrawalRequest>, batches: seq<seq<WithdrawalRequest>>, k: nat)
    requires WellCut(batches) && Flatten(batches) <= requests && k < |batches|
    ensures var p := |Flatten(batches)|; var end := if 10 * k + 10 <= p then 10 * k + 10 else p;
            10 * k <= end <= |requests| && batches[k] == requests[10 * k..end]
  {
    CutLength(batches);
    hide Flatten, WellCut;
    var p := |Flatten(batches)|;
    var end := if 10 * k + 10 <= p then 10 * k + 10 else p;
    forall i | 0 <= i < |batches[k]| ensures batches[k][i] == requests[10 * k..end][i] {
      CutAt(batches, k, i);
    }
  }

  /** Pairs free accounts with affordable batches, up to the number of signatures left in a round. */
  method ReserveBatches(ghost s: MinterState, ghost h: History, accounts: seq<Address>, requests: seq<WithdrawalRequest>,
                        balance: Lamport, created: nat)
    returns (reserved: seq<ReservedBatch>)
    requires Inv(s, h) && s.key.Some? && balance == s.balance <= U64_MAX && requests == PendingRequests(s.pending)
    requires Distinct(accounts) && forall a | a in accounts :: IsFree(s.pool, a)
    ensures Reserved(s, reserved)
    ensures exists p :: ReservesExactly(accounts, requests, balance, created, p, reserved)
  {
    hide Inv, Flatten, LongestAffordable, Sum, TotalCost, CostsOf, WellCut;
    PendingIndexed(s, h);
    var batches := CollectBatches(requests, balance);
    var max := SaturatingSub(MAX_SIGNATURES, created);
    reserved := [];
    while |reserved| < max && |reserved| < |accounts| && |reserved| < |batches|
      invariant |reserved| <= max && |reserved| <= |accounts| && |reserved| <= |batches|
      invariant forall i | 0 <= i < |reserved| :: reserved[i] == ReservedBatch(accounts[i], batches[i])
    {
      reserved := reserved + [ReservedBatch(accounts[|reserved|], batches[|reserved|])];
    }
    ReservationsHold(s, accounts, requests, batches, reserved);
    CutLength(batches);
    forall i | 0 <= i < |reserved| {
      CutGroup(requests, batches, i);
    }
    assert ReservesExactly(accounts, requests, balance, created, |Flatten(batches)|, reserved);
  }

  lemma ReservationsHold(s: MinterState, accounts: seq<Address>, requests: seq<WithdrawalRequest>,
                         batches: seq<seq<WithdrawalRequest>>, reserved: seq<ReservedBatch>)
    requires RequestsIndexed(s.pending, requests) && WellCut(batches) && Flatten(batches) <= requests && s.key.Some?
    requires Distinct(accounts) && forall a | a in accounts :: IsFree(s.pool, a)
    requires batches != [] ==> RENT_EXEMPTION_THRESHOLD + TotalCost(batches) <= s.balance
    requires |reserved| <= |accounts| && |reserved| <= |batches|
    requires forall i | 0 <= i < |reserved| :: reserved[i] == ReservedBatch(accounts[i], batches[i])
    ensures Reserved(s, reserved)
  {
    hide Flatten, Sum, TotalCost, CostsOf, StillPending, WellCut, RequestsIndexed;
    CostsWithinTotal(batches, reserved);
    forall k | 0 <= k < |reserved| ensures StillPending(s.pending, reserved[k].requests) {
      CutPending(s.pending, requests, batches, k);
    }
    forall j, k | 0 <= j < k < |reserved| ensures NoOverlap(reserved[j], reserved[k]) {
      CutApart(s.pending, requests, batches, j, k);
    }
  }

  /** Dropping a batch keeps the others reserved. */
  lemma SkipKeeps(s: MinterState, reserved: seq<ReservedBatch>, k: nat)
    requires Reserved(s, reserved) && k < |reserved|
    ensures Reserved(s, Removed(reserved, k))
  {
    hide StillPending, Sum, NoOverlap, IsFree;
    assert CostsOf(Removed(reserved, k)) == Removed(CostsOf(reserved), k);
    SumRemoved(CostsOf(reserved), k);
  }

  /** Nothing but a creation takes a request out of the pending ones, binds an account or lowers
      the balance. */
  ghost predicate KeepsReserves(s: MinterState, s': MinterState) {
    && (forall i | i in s.pending :: i in s'.pending && s'.pending[i] == s.pending[i])
    && (forall a | a in s.pool && !s.pool[a].bound :: a in s'.pool && !s'.pool[a].bound)
    && s'.balance >= s.balance && (s.key.Some? ==> s'.key == s.key)
  }

  lemma ReservesKept(s: MinterState, s': MinterState, reserved: seq<ReservedBatch>)
    requires Reserved(s, reserved) && KeepsReserves(s, s')
    ensures Reserved(s', reserved)
  {
    hide Sum, CostsOf, NoOverlap;
  }

  lemma PendingAmountsAgree(pending: map<BurnIndex, PendingWithdrawal>, requests: seq<WithdrawalRequest>)
    requires StillPending(pending, requests)
    ensures forall b | b in BurnsOf(requests) :: b in pending
    ensures CostOf(pending, BurnsOf(requests)) == BatchCost(requests)
  {
    assert TransferAmounts(pending, BurnsOf(requests)) == AmountsOf(requests);
  }

  lemma PendingNotCreated(s: MinterState, h: History, i: BurnIndex)
    requires Inv(s, h) && i in s.pending
    ensures i !in s.created && i in h.withdrawals
  {
    hide Agrees, Listed, TxsAgree, NoncesAgree, Keyed, RecordsAgree;
    assert i in s.pending.Keys;
  }

  lemma FreeNotCreated(s: MinterState, h: History, a: Address)
    requires Inv(s, h) && IsFree(s.pool, a)
    ensures a !in s.createdTxs
  {
    hide Agrees, Buckets, Listed, TxsAgree, Keyed, NoncesSeen, InFlightHeld;
  }

  ghost function CreateEvent(batch: ReservedBatch, v: Hash): Event {
    CreatedWithdrawalTransaction(BurnsOf(batch.requests), batch.nonceAccount, v)
  }

  /** Creating a transaction for a reserved batch with a value not seen before never traps, and
      leaves the balance at or above the rent threshold. */
  lemma CreateNeverTraps(s: MinterState, h: History, reserved: seq<ReservedBatch>, k: nat, v: Hash)
    requires Inv(s, h) && Reserved(s, reserved) && k < |reserved|
    requires !HasSeen(s.pool, reserved[k].nonceAccount, v)
    ensures CanCreate(s, BurnsOf(reserved[k].requests), reserved[k].nonceAccount, v)
    ensures Admissible(s, h, CreateEvent(reserved[k], v))
    ensures s.balance - CostOf(s.pending, BurnsOf(reserved[k].requests)) >=
            RENT_EXEMPTION_THRESHOLD + Sum(CostsOf(Removed(reserved, k)))
    ensures forall b | b in BurnsOf(reserved[k].requests) :: b in h.withdrawals
  {
    hide Inv, Sum, NoOverlap;
    var batch := reserved[k];
    var burns := BurnsOf(batch.requests);
    assert StillPending(s.pending, batch.requests) && IsFree(s.pool, batch.nonceAccount);
    assert CostsOf(Removed(reserved, k)) == Removed(CostsOf(reserved), k);
    SumRemoved(CostsOf(reserved), k);
    PendingAmountsAgree(s.pending, batch.requests);
    FreeNotCreated(s, h, batch.nonceAccount);
    forall b | b in burns ensures b in s.pending && b !in s.created && b in h.withdrawals {
      PendingNotCreated(s, h, b);
    }
    hide CostOf, CostsOf, StillPending;
  }

  lemma CreateKeepsOthers(s: MinterState, h: History, reserved: seq<ReservedBatch>, k: nat, v: Hash)
    requires Inv(s, h) && Reserved(s, reserved) && k < |reserved|
    requires CanCreate(s, BurnsOf(reserved[k].requests), reserved[k].nonceAccount, v)
    requires s.balance - CostOf(s.pending, BurnsOf(reserved[k].requests)) >=
             RENT_EXEMPTION_THRESHOLD + Sum(CostsOf(Removed(reserved, k)))
    ensures Reserved(Created(s, BurnsOf(reserved[k].requests), reserved[k].nonceAccount, v), Removed(reserved, k))
    ensures Created(s, BurnsOf(reserved[k].requests), reserved[k].nonceAccount, v).balance >= RENT_EXEMPTION_THRESHOLD
  {
    hide Inv, Sum, CostsOf, CostOf, PickedRequests;
    var rest, burns := Removed(reserved, k), BurnsOf(reserved[k].requests);
    var s' := Created(s, burns, reserved[k].nonceAccount, v);
    forall j | 0 <= j < |rest|
      ensures StillPending(s'.pending, rest[j].requests) && IsFree(s'.pool, rest[j].nonceAccount)
    {
      var i := if j < k then j else j + 1;
      assert rest[j] == reserved[i] && StillPending(s.pending, reserved[i].requests) && IsFree(s.pool, reserved[i].nonceAccount);
      assert NoOverlap(reserved[i], reserved[k]) || NoOverlap(reserved[k], reserved[i]);
      PendingElsewhere(s.pending, reserved[i].requests, burns);
    }
  }

  lemma PendingElsewhere(pending: map<BurnIndex, PendingWithdrawal>, requests: seq<WithdrawalRequest>, burns: seq<BurnIndex>)
    requires StillPending(pending, requests) && Elems(BurnsOf(requests)) !! Elems(burns)
    ensures StillPending(pending - Elems(burns), requests)
  {
    forall i | 0 <= i < |requests| ensures requests[i].burnIndex !in Elems(burns) {
      assert BurnsOf(requests)[i] in Elems(BurnsOf(requests));
    }
  }

  // ---------- the snapshots of the tasks ----------

  /** A transaction about to be signed, as it was when the snapshot was taken. */
  datatype BoundWithdrawal = BoundWithdrawal(burns: seq<BurnIndex>, message: Message)

  datatype Tasks = Tasks(reserved: seq<ReservedBatch>, unsigned: map<Address, BoundWithdrawal>, advanced: set<Signature>)

  /** What is about to be signed is still created and is still the message its account is bound to. */
  ghost predicate UnsignedOk(x: World, unsigned: map<Address, BoundWithdrawal>) {
    forall a | a in unsigned ::
      && a in x.s.createdTxs && unsigned[a].burns == x.s.createdTxs[a].burnIndices
      && a in x.c.bound && Slot(a, x.c.bound[a]) in x.c.bindings
      && unsigned[a].message == x.c.bindings[Slot(a, x.c.bound[a])]
  }

  /** What was read as advanced is still in flight and has landed. */
  ghost predicate AdvancedOk(x: World, advanced: set<Signature>) {
    forall sig | sig in advanced :: WithdrawalInFlight(x.s, sig) && SlotUsed(x.s, sig) in x.c.landed
  }

  ghost predicate TasksOk(x: World, t: Tasks) {
    Reserved(x.s, t.reserved) && UnsignedOk(x, t.unsigned) && AdvancedOk(x, t.advanced)
  }

  const IDLE: Tasks := Tasks([], map[], {})

  // ---------- the steps ----------

  datatype Protocol = Protocol(x: World, t: Tasks)

  /** The creating task takes batches for free accounts out of the pending requests. */
  ghost predicate Reserves(p: Protocol, p': Protocol) {
    p'.x == p.x && p'.t == p.t.(reserved := p'.t.reserved) && Reserved(p.x.s, p'.t.reserved)
  }

  ghost predicate CreatesOne(p: Protocol, p': Protocol, k: nat, v: Hash, now: Timestamp) {
    && k < |p.t.reserved| && !HasSeen(p.x.s.pool, p.t.reserved[k].nonceAccount, v)
    && Creates(p.x, p'.x, BurnsOf(p.t.reserved[k].requests), p.t.reserved[k].nonceAccount, v, now)
    && p'.t == p.t.(reserved := Removed(p.t.reserved, k))
  }

  ghost predicate Skips(p: Protocol, p': Protocol, k: nat) {
    k < |p.t.reserved| && p' == p.(t := p.t.(reserved := Removed(p.t.reserved, k)))
  }

  /** The signing task rebuilds the messages of created transactions. */
  ghost predicate TakesUnsigned(p: Protocol, p': Protocol) {
    && p'.x == p.x && p'.t == p.t.(unsigned := p'.t.unsigned)
    && forall a | a in p'.t.unsigned ::
         && a in p.x.s.createdTxs && p.x.s.key.Some?
         && (forall b | b in p.x.s.createdTxs[a].burnIndices :: b in p.x.s.created)
         && p'.t.unsigned[a] == BoundWithdrawal(p.x.s.createdTxs[a].burnIndices,
                                  BoundMessage(p.x.s.key.value, p.x.s.created, a, p.x.s.createdTxs[a]))
  }

  /** A signature is obtained for the snapshot of a transaction; recording it may be lost. */
  ghost predicate SignsOne(p: Protocol, p': Protocol, a: Address) {
    && a in p.t.unsigned
    && p'.x == p.x.(c := p.x.c.(signed := p.x.c.signed + {p.t.unsigned[a].message})) && p'.t == p.t
  }

  /** The signature is recorded, together with the snapshot it was obtained for. */
  ghost predicate RecordsOne(p: Protocol, p': Protocol, a: Address, sig: Signature, now: Timestamp) {
    && a in p.t.unsigned && p.t.unsigned[a].message in p.x.c.signed && FreshSignature(p.x.s, sig)
    && var e := SubmittedTransaction(sig, p.t.unsigned[a].message, [SignedByMinter], Withdrawal(p.t.unsigned[a].burns));
       && CanApply(p.x.s, e)
       && p'.x == p.x.(s := Apply(p.x.s, e, now), h := MinterRuns.After(p.x.s, p.x.h, e, now))
       && p'.t == p.t.(unsigned := p.t.unsigned - {a})
  }

  /** The monitor reads some value the account of a submitted withdrawal had, and finds a new one. */
  ghost predicate ReadsAdvanced(p: Protocol, p': Protocol, sig: Signature, read: Hash) {
    && WithdrawalInFlight(p.x.s, sig) && p' == p.(t := p.t.(advanced := p.t.advanced + {sig}))
    && var tx := p.x.s.submitted.values[sig];
       && tx.nonceAccount in p.x.c.history && read in p.x.c.history[tx.nonceAccount]
       && ClassifyRead(p.x.s.pool, tx.nonceAccount, tx.nonceValue, read) == Advanced
  }

  /** The outcome of a withdrawal read as advanced is fetched and recorded. */
  ghost predicate FinalizesOne(p: Protocol, p': Protocol, sig: Signature, success: bool, now: Timestamp) {
    && sig in p.t.advanced && WithdrawalInFlight(p.x.s, sig)
    && SlotUsed(p.x.s, sig) in p.x.c.landed && p.x.c.landed[SlotUsed(p.x.s, sig)].ok == success
    && var e := OutcomeEvent(sig, success);
       && CanApply(p.x.s, e)
       && p'.x == p.x.(s := Apply(p.x.s, e, now), h := MinterRuns.After(p.x.s, p.x.h, e, now),
                       c := FreedAt(p.x.c, p.x.s.submitted.values[sig].nonceAccount))
       && p'.t == p.t.(advanced := p.t.advanced - {sig})
  }

  ghost predicate OtherEvent(p: Protocol, p': Protocol, e: Event, now: Timestamp) {
    Elsewhere(p.x, p'.x, e, now) && p'.t == p.t
  }

  ghost predicate ChainMoves(p: Protocol, p': Protocol, m: Message, next: Hash, ok: bool) {
    Lands(p.x, p'.x, m, next, ok) && p'.t == p.t
  }

  /** An upgrade or a trap drops every snapshot. */
  ghost predicate Restarts(p: Protocol, p': Protocol) {
    p' == p.(t := IDLE)
  }

  ghost predicate Ok(p: Protocol) {
    WorldInv(p.x) && TasksOk(p.x, p.t)
  }

  // ---------- no step traps ----------

  lemma CreateOneNeverTraps(p: Protocol, k: nat, v: Hash)
    requires Ok(p) && k < |p.t.reserved| && !HasSeen(p.x.s.pool, p.t.reserved[k].nonceAccount, v)
    ensures CanApply(p.x.s, CreateEvent(p.t.reserved[k], v))
  {
    hide Inv, ChainOk, Tied, Reserved, CanCreate;
    CreateNeverTraps(p.x.s, p.x.h, p.t.reserved, k, v);
  }

  lemma RecordOneNeverTraps(p: Protocol, a: Address, sig: Signature)
    requires Ok(p) && a in p.t.unsigned && FreshSignature(p.x.s, sig)
    ensures CanApply(p.x.s, SubmittedTransaction(sig, p.t.unsigned[a].message, [SignedByMinter],
                                                 Withdrawal(p.t.unsigned[a].burns)))
  {
    hide WorldInv, Reserved, CanSubmit;
    RecordNeverTraps(p.x, a, sig);
  }

  lemma FinalizeOneNeverTraps(p: Protocol, sig: Signature, success: bool)
    requires Ok(p) && sig in p.t.advanced
    ensures CanApply(p.x.s, OutcomeEvent(sig, success))
  {
    hide WorldInv, Reserved, CanSucceed, CanFail;
    FinalizeNeverTraps(p.x, sig, success);
  }

  // ---------- every step keeps the invariant ----------

  lemma CreatesOneKeeps(p: Protocol, p': Protocol, k: nat, v: Hash, now: Timestamp)
    requires Ok(p) && CreatesOne(p, p', k, v, now)
    ensures Ok(p') && v == Last(p.x.c.history[p.t.reserved[k].nonceAccount])
    ensures p'.x.s.balance >= RENT_EXEMPTION_THRESHOLD
  {
    hide WorldInv, Reserved, UnsignedOk, AdvancedOk, Created, CanCreate, Creates, CostOf, CostsOf, Sum;
    var burns, a := BurnsOf(p.t.reserved[k].requests), p.t.reserved[k].nonceAccount;
    CreateStep(p.x, p'.x, burns, a, v, now);
    InvOf(p.x);
    CreatesMeans(p.x, p'.x, burns, a, v, now);
    CreateNeverTraps(p.x.s, p.x.h, p.t.reserved, k, v);
    CreateKeepsOthers(p.x.s, p.x.h, p.t.reserved, k, v);
    CreateKeepsSnapshots(p.x, p'.x, burns, a, v, now, p.t);
  }

  lemma CreatesMeans(x: World, x': World, burns: seq<BurnIndex>, a: Address, v: Hash, now: Timestamp)
    requires Creates(x, x', burns, a, v, now)
    ensures CanCreate(x.s, burns, a, v) && x'.s == Created(x.s, burns, a, v) && a in x.c.history
  {
    hide CanCreate, Created, WithdrawalMessage, TransfersFor, MinterRuns.After, LedgerWith, BoundAt;
  }

  lemma InvOf(x: World)
    requires WorldInv(x)
    ensures Inv(x.s, x.h) && ChainOk(x.s.pool, x.c)
  {}

  lemma CreateKeepsSnapshots(x: World, x': World, burns: seq<BurnIndex>, a: Address, v: Hash, now: Timestamp, t: Tasks)
    requires WorldInv(x) && Creates(x, x', burns, a, v, now) && UnsignedOk(x, t.unsigned) && AdvancedOk(x, t.advanced)
    ensures UnsignedOk(x', t.unsigned) && AdvancedOk(x', t.advanced)
  {
    hide Inv, ChainOk, Tied, WithdrawalMessage, TransfersFor, CostOf, PickedRequests, LedgerWith;
    FreeUnbound(x.s.pool, x.c, a, v);
  }

  lemma SignsOneKeeps(p: Protocol, p': Protocol, a: Address)
    requires Ok(p) && SignsOne(p, p', a)
    ensures Ok(p')
  {
    hide WorldInv, Reserved;
    SignStep(p.x, p'.x, a);
  }

  lemma RecordsOneKeeps(p: Protocol, p': Protocol, a: Address, sig: Signature, now: Timestamp)
    requires Ok(p) && RecordsOne(p, p', a, sig, now)
    ensures Ok(p')
  {
    hide WorldInv, Reserved, CanApply, Apply, MinterRuns.After, AdvancedOk;
    RecordStep(p.x, p'.x, a, sig, now);
    RecordEffect(p.x, p'.x, a, sig, now);
    ReservesKept(p.x.s, p'.x.s, p.t.reserved);
    RecordKeepsSnapshots(p.x, p'.x, a, sig, p.t);
  }

  /** What recording a signature does to the parts the snapshots look at. */
  lemma RecordEffect(x: World, x': World, a: Address, sig: Signature, now: Timestamp)
    requires WorldInv(x) && RecordsSubmission(x, x', a, sig, now)
    ensures x'.s.createdTxs == x.s.createdTxs - {a} && KeepsReserves(x.s, x'.s)
    ensures x'.c == x.c
    ensures forall other | WithdrawalInFlight(x.s, other) ::
              WithdrawalInFlight(x'.s, other) && SlotUsed(x'.s, other) == SlotUsed(x.s, other)
  {
    hide Inv, Tied, CanSend, SentOf, Without, WorldInv, ChainOk, MinterRuns.After, PickedRequests;
    InvOf(x);
    BindingAccount(x.s.pool, x.c, a);
  }

  lemma RecordKeepsSnapshots(x: World, x': World, a: Address, sig: Signature, t: Tasks)
    requires x'.s.createdTxs == x.s.createdTxs - {a} && x'.c == x.c
    requires forall other | WithdrawalInFlight(x.s, other) :: WithdrawalInFlight(x'.s, other) && SlotUsed(x'.s, other) == SlotUsed(x.s, other)
    requires UnsignedOk(x, t.unsigned) && AdvancedOk(x, t.advanced)
    ensures UnsignedOk(x', t.unsigned - {a}) && AdvancedOk(x', t.advanced)
  {
    hide WithdrawalInFlight, SlotUsed;
  }

  lemma ReadsAdvancedKeeps(p: Protocol, p': Protocol, sig: Signature, read: Hash)
    requires Ok(p) && ReadsAdvanced(p, p', sig, read)
    ensures Ok(p')
  {
    hide WorldInv, Reserved, UnsignedOk, ChainOk;
    InvOf(p.x);
    var tx := p.x.s.submitted.values[sig];
    TxTiedAt(p.x, sig);
    AdvancedIffLanded(p.x.s.pool, p.x.c, tx.nonceAccount, tx.nonceValue, read);
  }

  lemma FinalizesOneKeeps(p: Protocol, p': Protocol, sig: Signature, success: bool, now: Timestamp)
    requires Ok(p) && FinalizesOne(p, p', sig, success, now)
    ensures Ok(p')
  {
    hide WorldInv, Reserved, CanApply, Apply, MinterRuns.After, UnsignedOk;
    FinalizeStep(p.x, p'.x, sig, success, now);
    FinalizeEffect(p.x, p'.x, sig, success, now);
    ReservesKept(p.x.s, p'.x.s, p.t.reserved);
    FinalizeKeepsSnapshots(p.x, p'.x, sig, p.t);
  }

  lemma FinalizeEffect(x: World, x': World, sig: Signature, success: bool, now: Timestamp)
    requires WorldInv(x) && Finalizes(x, x', sig, success, now)
    ensures x'.s.createdTxs == x.s.createdTxs && KeepsReserves(x.s, x'.s)
    ensures x.s.submitted.values[sig].nonceAccount !in x.s.createdTxs
    ensures x'.s.submitted == x.s.submitted.Remove(sig)
    ensures x'.c == FreedAt(x.c, x.s.submitted.values[sig].nonceAccount)
  {
    hide ChainOk, Tied, Agrees, Buckets, Listed, TxsAgree, NoncesSeen, Keyed, Without, CanApply, Apply, MinterRuns.After;
    OutcomeState(x.s, sig, success, now);
    var a := x.s.submitted.values[sig].nonceAccount;
    assert InFlightOn(x.s.submitted.values, sig, a) <==> HeldFor(x.h.holder, a, sig);
  }

  lemma FinalizeKeepsSnapshots(x: World, x': World, sig: Signature, t: Tasks)
    requires WithdrawalInFlight(x.s, sig) && x'.s.createdTxs == x.s.createdTxs && x'.s.submitted == x.s.submitted.Remove(sig)
    requires x.s.submitted.values[sig].nonceAccount !in x.s.createdTxs
    requires x'.c == FreedAt(x.c, x.s.submitted.values[sig].nonceAccount)
    requires UnsignedOk(x, t.unsigned) && AdvancedOk(x, t.advanced)
    ensures UnsignedOk(x', t.unsigned) && AdvancedOk(x', t.advanced - {sig})
  {
    hide Without;
  }

  lemma OtherEventKeeps(p: Protocol, p': Protocol, e: Event, now: Timestamp)
    requires Ok(p) && OtherEvent(p, p', e, now)
    ensures Ok(p')
  {
    hide WorldInv, Reserved, CanApply, Apply, MinterRuns.After, Outside, Admissible, CanAdd, Parses, Parsed, PoolAfter, Grows,
         KeepsReserves, Inv, ChainOk;
    ElsewhereStep(p.x, p'.x, e, now);
    InvOf(p.x);
    OutsideFrame(p.x.s, p.x.h, e, now);
    OutsideReserves(p.x.s, p.x.h, e, now);
    ReservesKept(p.x.s, p'.x.s, p.t.reserved);
  }

  lemma OutsideReserves(s: MinterState, h: History, e: Event, now: Timestamp)
    requires Inv(s, h) && CanApply(s, e) && Outside(s, e)
    ensures KeepsReserves(s, Apply(s, e, now))
  {
    hide Inv, CanUpgrade, CanSubmit, CanSweep, CanSucceed, CanFail, CanDropSwept, CanCreditSweep, Submitted, Succeeded, FailedBy,
         SweepQueued, Finalize, DropSwept, Credit, QuarantineSweep, Queue, Mint, QuarantineMint, Reconfigured, Parsed, Added,
         DepositFees, Without;
    match e
    case Upgrade(a) => UpgradeAdds(s, a);
    case SubmittedTransaction(sig, message, signers, purpose) => SubmittedParts(s, sig, message, signers, purpose, now);
    case SucceededTransaction(sig) => SucceededParts(s, sig);
    case FailedTransaction(sig) => FailedParts(s, sig);
    case _ =>
  }

  lemma UpgradeAdds(s: MinterState, a: UpgradeArgs)
    requires CanUpgrade(s, a)
    ensures a.nonceAccountsToAdd.Some? ==> Parses(a.nonceAccountsToAdd.value)
    ensures forall x | x in s.pool && !s.pool[x].bound :: x in Upgraded(s, a).pool && !Upgraded(s, a).pool[x].bound
  {
    hide Parsed, Reconfigured;
  }

  lemma ChainMovesKeeps(p: Protocol, p': Protocol, m: Message, next: Hash, ok: bool)
    requires Ok(p) && ChainMoves(p, p', m, next, ok)
    ensures Ok(p')
  {
    hide WorldInv, Reserved;
    LandStep(p.x, p'.x, m, next, ok);
  }

  lemma TakesUnsignedKeeps(p: Protocol, p': Protocol)
    requires Ok(p) && TakesUnsigned(p, p')
    ensures Ok(p')
  {
    hide WorldInv, Reserved, AdvancedOk, BoundMessage;
    forall a | a in p'.t.unsigned
      ensures && a in p.x.c.bound && Slot(a, p.x.c.bound[a]) in p.x.c.bindings
              && p'.t.unsigned[a].message == p.x.c.bindings[Slot(a, p.x.c.bound[a])]
    {
      RebuiltMessage(p.x, a);
    }
  }

  lemma SkipsKeeps(p: Protocol, p': Protocol, k: nat)
    requires Ok(p) && Skips(p, p', k)
    ensures Ok(p')
  {
    hide WorldInv, Reserved, UnsignedOk, AdvancedOk;
    SkipKeeps(p.x.s, p.t.reserved, k);
  }

  lemma RestartsKeeps(p: Protocol, p': Protocol)
    requires Ok(p) && Restarts(p, p')
    ensures Ok(p')
  {
    hide WorldInv;
  }

  // ---------- runs ----------

  datatype Step =
    | Reserve
    | Create(k: nat, nonce: Hash, now: Timestamp)
    | Skip(k: nat)
    | TakeUnsigned
    | Sign(account: Address)
    | Record(account: Address, signature: Signature, now: Timestamp)
    | ReadAdvanced(signature: Signature, read: Hash)
    | FinalizeOne(signature: Signature, success: bool, now: Timestamp)
    | Other(event: Event, now: Timestamp)
    | Land(message: Message, next: Hash, ok: bool)
    | Restart

  ghost predicate Takes(p: Protocol, step: Step, p': Protocol) {
    match step
    case Reserve => Reserves(p, p')
    case Create(k, v, now) => CreatesOne(p, p', k, v, now)
    case Skip(k) => Skips(p, p', k)
    case TakeUnsigned => TakesUnsigned(p, p')
    case Sign(a) => SignsOne(p, p', a)
    case Record(a, sig, now) => RecordsOne(p, p', a, sig, now)
    case ReadAdvanced(sig, read) => ReadsAdvanced(p, p', sig, read)
    case FinalizeOne(sig, success, now) => FinalizesOne(p, p', sig, success, now)
    case Other(e, now) => OtherEvent(p, p', e, now)
    case Land(m, next, ok) => ChainMoves(p, p', m, next, ok)
    case Restart => Restarts(p, p')
  }

  /** Every step of the protocol keeps the invariant. */
  lemma StepKeeps(p: Protocol, step: Step, p': Protocol)
    requires Ok(p) && Takes(p, step, p')
    ensures Ok(p')
  {
    hide WorldInv, Reserved, UnsignedOk, AdvancedOk, CreatesOne, Skips, TakesUnsigned, SignsOne, RecordsOne, ReadsAdvanced,
         FinalizesOne, OtherEvent, ChainMoves;
    match step
    case Reserve =>
    case Create(k, v, now) => CreatesOneKeeps(p, p', k, v, now);
    case Skip(k) => SkipsKeeps(p, p', k);
    case TakeUnsigned => TakesUnsignedKeeps(p, p');
    case Sign(a) => SignsOneKeeps(p, p', a);
    case Record(a, sig, now) => RecordsOneKeeps(p, p', a, sig, now);
    case ReadAdvanced(sig, read) => ReadsAdvancedKeeps(p, p', sig, read);
    case FinalizeOne(sig, success, now) => FinalizesOneKeeps(p, p', sig, success, now);
    case Other(e, now) => OtherEventKeeps(p, p', e, now);
    case Land(m, next, ok) => ChainMovesKeeps(p, p', m, next, ok);
    case Restart => RestartsKeeps(p, p');
  }

  /** A minter just initialized: every account of the pool has one value so far. */
  ghost predicate Starts(p: Protocol, a: InitArgs) {
    && CanInit(a) && p.t == IDLE
    && p.x.s == InitialState(a) && p.x.h == EMPTY_HISTORY && p.x.l == Ledger(map[], map[])
    && p.x.c == Chain(p.x.c.history, map[], {}, map[], map[])
    && p.x.c.history.Keys == p.x.s.pool.Keys && forall x | x in p.x.c.history :: |p.x.c.history[x]| == 1
  }

  lemma StartsOk(p: Protocol, a: InitArgs)
    requires Starts(p, a)
    ensures Ok(p)
  {
    hide Inv;
    InitialInv(a);
    StartChain(p.x.s.pool, p.x.c);
    StartTied(p.x.s, p.x.c);
  }

  lemma StartChain(pool: Pool, c: Chain)
    requires c == Chain(c.history, map[], {}, map[], map[]) && c.history.Keys == pool.Keys
    requires forall x | x in pool :: pool[x] == NonceAccount(false, {}) && |c.history[x]| == 1
    ensures ChainOk(pool, c)
  {
    forall x | x in pool ensures InStep(pool[x], c.history[x], BoundTo(c.bound, x)) {
      assert c.history[x][..0] == [];
    }
    forall k ensures !UsedUp(c.history, k) {
      if k.account in c.history && c.history[k.account] != [] {
        assert c.history[k.account][..0] == [];
      }
    }
  }

  lemma StartTied(s: MinterState, c: Chain)
    requires s.createdTxs == map[] && s.submitted.values == map[] && c.bindings == map[]
    ensures Tied(s, map[], c, Ledger(map[], map[]))
  {
    forall k, i ensures InSlot(map[], k, i) <==> BoundIn(map[], i, k) {}
  }

  ghost predicate ProtocolRun(run: seq<Protocol>, steps: seq<Step>) {
    && |run| == |steps| + 1 && (exists a :: Starts(run[0], a))
    && forall i | 0 <= i < |steps| :: Takes(run[i], steps[i], run[i + 1])
  }

  /** The invariant holds throughout every run of minter and chain. */
  lemma {:induction false} RunOk(run: seq<Protocol>, steps: seq<Step>, i: nat)
    requires ProtocolRun(run, steps) && i < |run|
    ensures Ok(run[i])
  {
    hide Ok, Takes, Starts;
    if i == 0 {
      var a :| Starts(run[0], a);
      StartsOk(run[0], a);
    } else {
      RunOk(run, steps, i - 1);
      StepKeeps(run[i - 1], steps[i - 1], run[i]);
    }
  }

  // ---------- what the protocol guarantees ----------

  /** The slots in which the message of a withdrawal was included on chain. */
  ghost function ExecutedIn(x: World, i: BurnIndex): set<Slot> {
    set k | k in x.c.landed && InSlot(x.l.burns, k, i)
  }

  /** The slots in which it was paid: the message was executed without an error. */
  ghost function PaidIn(x: World, i: BurnIndex): set<Slot> {
    set k | k in ExecutedIn(x, i) && x.c.landed[k].ok
  }

  /** The executed message of the slot makes one transfer for each request bound to it, of the
      amount and to the destination of the request, and no other transfer. */
  ghost predicate PaysExactly(x: World, k: Slot) {
    && k in x.c.landed && k in x.l.burns && x.s.key.Some?
    && Distinct(x.l.burns[k]) && (forall i | i in x.l.burns[k] :: i in x.h.withdrawals)
    && x.c.landed[k].message == WithdrawalMessage(MinterAddress(x.s.key.value), k.account, k.nonce,
                                                  TransfersFor(x.h.withdrawals, x.l.burns[k]))
  }

  /** In every run, the message of a withdrawal is included on chain at most once, never while it
      is pending, and every message included pays exactly the withdrawals bound to it, once each:
      no withdrawal is paid twice, and nothing else is paid. */
  lemma PaidAtMostOnce(run: seq<Protocol>, steps: seq<Step>, n: nat, i: BurnIndex)
    requires ProtocolRun(run, steps) && n < |run|
    ensures var x := run[n].x;
            && |ExecutedIn(x, i)| <= 1
            && (ExecutedIn(x, i) != {} ==> i in x.h.withdrawals && !x.h.withdrawals[i].stage.IsPending?)
    ensures forall k | k in run[n].x.c.landed :: PaysExactly(run[n].x, k)
  {
    hide ProtocolRun, TasksOk;
    RunOk(run, steps, n);
    var x := run[n].x;
    OneSlot(x, i);
    forall k | k in x.c.landed ensures PaysExactly(x, k) {
      SlotPays(x, k);
    }
  }

  lemma OneSlot(x: World, i: BurnIndex)
    requires WorldInv(x)
    ensures |ExecutedIn(x, i)| <= 1
    ensures ExecutedIn(x, i) != {} ==> i in x.l.slot && ExecutedIn(x, i) == {x.l.slot[i]}
    ensures ExecutedIn(x, i) != {} ==> i in x.h.withdrawals && !x.h.withdrawals[i].stage.IsPending?
  {
    hide Inv, ChainOk, Pays, CreatedTied, SubmittedTied, StagesTied;
    var executed := ExecutedIn(x, i);
    forall k | k in executed ensures i in x.l.slot && k == x.l.slot[i] {
      assert InSlot(x.l.burns, k, i) <==> BoundIn(x.l.slot, i, k);
    }
    if executed != {} {
      assert executed == {x.l.slot[i]};
    }
  }

  lemma SlotPays(x: World, k: Slot)
    requires WorldInv(x) && k in x.c.landed
    ensures PaysExactly(x, k)
  {
    hide Inv, Partition, CreatedTied, SubmittedTied, StagesTied, AllInStep, BindingsAgree, SignedAgree, WithdrawalMessage;
  }

  /** In every run, any two messages ever signed that serve the same withdrawal are equal, and so
      are any two ever signed for the same value of the same account. */
  lemma SignedForOnce(run: seq<Protocol>, steps: seq<Step>, n: nat, m: Message, m': Message, i: BurnIndex)
    requires ProtocolRun(run, steps) && n < |run|
    requires m in run[n].x.c.signed && m' in run[n].x.c.signed
    ensures AdvancedNonceAccount(m).Some? && AdvancedNonceAccount(m').Some?
    ensures SlotOf(m) == SlotOf(m') ==> m == m'
    ensures InSlot(run[n].x.l.burns, SlotOf(m), i) && InSlot(run[n].x.l.burns, SlotOf(m'), i) ==> m == m'
  {
    hide ProtocolRun, TasksOk, Inv, Pays, CreatedTied, SubmittedTied, StagesTied, AllInStep, BindingsAgree, LandedAgree;
    RunOk(run, steps, n);
    var x := run[n].x;
    assert InSlot(x.l.burns, SlotOf(m), i) <==> BoundIn(x.l.slot, i, SlotOf(m));
    assert InSlot(x.l.burns, SlotOf(m'), i) <==> BoundIn(x.l.slot, i, SlotOf(m'));
  }

  /** In every run, a withdrawal that left the minter was signed for: together with SignedForOnce,
      by exactly one message. */
  lemma SentWasSigned(run: seq<Protocol>, steps: seq<Step>, n: nat, i: BurnIndex)
    requires ProtocolRun(run, steps) && n < |run|
    requires i in run[n].x.s.sent || i in run[n].x.s.successful || i in run[n].x.s.failed
    ensures exists m :: Serves(run[n].x, m, i)
  {
    hide ProtocolRun, TasksOk, WorldInv, Serves;
    RunOk(run, steps, n);
    SlotSigned(run[n].x, i);
  }

  /** A signed message that pays the withdrawal. */
  ghost predicate Serves(x: World, m: Message, i: BurnIndex) {
    m in x.c.signed && AdvancedNonceAccount(m).Some? && InSlot(x.l.burns, SlotOf(m), i)
  }

  lemma SlotSigned(x: World, i: BurnIndex)
    requires WorldInv(x) && (i in x.s.sent || i in x.s.successful || i in x.s.failed)
    ensures exists m :: Serves(x, m, i)
  {
    SentStage(x.s, x.h, i);
    hide Inv, AllInStep, Pays, CreatedTied;
    var st := x.h.withdrawals[i].stage;
    assert StageTied(st, i, x.l, x.s.submitted.values, x.c.landed);
    var k := x.l.slot[i];
    assert InSlot(x.l.burns, k, i) <==> BoundIn(x.l.slot, i, k);
    if st.IsSent? {
      assert TxTied(x.s.submitted.values[st.signature], x.c);
    }
    assert Serves(x, x.c.bindings[k], i);
  }

  lemma SentStage(s: MinterState, h: History, i: BurnIndex)
    requires Inv(s, h) && (i in s.sent || i in s.successful || i in s.failed)
    ensures i in h.withdrawals && !h.withdrawals[i].stage.IsPending? && !h.withdrawals[i].stage.IsCreated?
  {
    hide Agrees, Listed, TxsAgree, NoncesAgree, Keyed, KeysAgree, UnsentRecorded;
  }

  /** In every run, a withdrawal recorded as successful was paid on chain exactly once, and one
      recorded as failed was included once and not paid. */
  lemma RecordedOutcomeIsReal(run: seq<Protocol>, steps: seq<Step>, n: nat, i: BurnIndex)
    requires ProtocolRun(run, steps) && n < |run|
    ensures i in run[n].x.s.successful ==> |PaidIn(run[n].x, i)| == 1
    ensures i in run[n].x.s.failed ==> PaidIn(run[n].x, i) == {} && |ExecutedIn(run[n].x, i)| == 1
  {
    hide ProtocolRun, TasksOk, WorldInv, ExecutedIn, PaidIn;
    RunOk(run, steps, n);
    OutcomeIsReal(run[n].x, i);
  }

  lemma OutcomeIsReal(x: World, i: BurnIndex)
    requires WorldInv(x)
    ensures i in x.s.successful ==> |PaidIn(x, i)| == 1
    ensures i in x.s.failed ==> PaidIn(x, i) == {} && |ExecutedIn(x, i)| == 1
  {
    hide WorldInv, Inv, ChainOk, ExecutedIn;
    InvOf(x);
    FinishedStage(x.s, x.h, i);
    OneSlot(x, i);
    if i in x.s.successful || i in x.s.failed {
      ExecutedSlot(x, i);
      assert i in x.s.successful ==> PaidIn(x, i) == {x.l.slot[i]};
    }
  }

  lemma FinishedStage(s: MinterState, h: History, i: BurnIndex)
    requires Inv(s, h)
    ensures i in s.successful ==> i in h.withdrawals && h.withdrawals[i].stage.HasSucceeded?
    ensures i in s.failed ==> i in h.withdrawals && h.withdrawals[i].stage.HasFailed?
  {
    hide Agrees, Listed, TxsAgree, NoncesAgree, Keyed, RecordsAgree;
    assert i in s.successful ==> i in s.successful.Keys;
    assert i in s.failed ==> i in s.failed.Keys;
  }

  lemma ExecutedSlot(x: World, i: BurnIndex)
    requires WorldInv(x) && i in x.h.withdrawals
    requires x.h.withdrawals[i].stage.HasSucceeded? || x.h.withdrawals[i].stage.HasFailed?
    ensures i in x.l.slot && x.l.slot[i] in ExecutedIn(x, i)
    ensures x.c.landed[x.l.slot[i]].ok <==> x.h.withdrawals[i].stage.HasSucceeded?
  {
    hide Inv, ChainOk, Pays, CreatedTied, SubmittedTied;
    assert StageTied(x.h.withdrawals[i].stage, i, x.l, x.s.submitted.values, x.c.landed);
    assert InSlot(x.l.burns, x.l.slot[i], i) <==> BoundIn(x.l.slot, i, x.l.slot[i]);
  }

  /** In every run, the value an account is bound to is the current one on chain until its
      transaction lands, and every message signed for a free account has landed. */
  lemma BoundIsCurrent(run: seq<Protocol>, steps: seq<Step>, n: nat, a: Address)
    requires ProtocolRun(run, steps) && n < |run| && a in run[n].x.s.pool
    ensures var x := run[n].x;
            && a in x.c.history && x.c.history[a] != []
            && (x.s.pool[a].bound ==> a in x.c.bound)
            && (x.s.pool[a].bound ==> x.c.bound[a] == Last(x.c.history[a]) || Slot(a, x.c.bound[a]) in x.c.landed)
            && (!x.s.pool[a].bound ==>
                  forall m | m in x.c.signed && AdvancedNonceAccount(m) == Some(a) :: SlotOf(m) in x.c.landed)
  {
    RunOk(run, steps, n);
    hide ProtocolRun, TasksOk, Inv, Tied;
    BoundOrLanded(run[n].x.s.pool, run[n].x.c, a);
  }

  lemma BoundOrLanded(pool: Pool, c: Chain, a: Address)
    requires ChainOk(pool, c) && a in pool
    ensures a in c.history && c.history[a] != []
    ensures pool[a].bound ==> a in c.bound && (c.bound[a] == Last(c.history[a]) || Slot(a, c.bound[a]) in c.landed)
    ensures !pool[a].bound ==> forall m | m in c.signed && AdvancedNonceAccount(m) == Some(a) :: SlotOf(m) in c.landed
  {
    var h := c.history[a];
    assert InStep(pool[a], h, BoundTo(c.bound, a));
    if pool[a].bound && c.bound[a] != Last(h) {
      assert h[..|h| - 1][|h| - 2] == c.bound[a];
      assert UsedUp(c.history, Slot(a, c.bound[a]));
    }
    if !pool[a].bound {
      forall m | m in c.signed && AdvancedNonceAccount(m) == Some(a) ensures SlotOf(m) in c.landed {
        FreeMeansLanded(pool, c, a, m);
      }
    }
  }
}
