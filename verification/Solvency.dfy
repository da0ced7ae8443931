/** Solvency over whole runs: the balance the minter keeps is exactly what sweeps delivered less
    what created withdrawal transactions cost, and it covers every ckSOL minted or still owed
    (minter/src/state/mod.rs, minter/src/state/deposits/mod.rs). */
module Solvency {
  import opened Prelude
  import opened Solana
  import opened NoncePool
  import opened Sweeps
  import opened ScanSchedule
  import opened DepositBook
  import opened DepositLifecycle
  import opened Minter
  import opened WithdrawalRecords
  import opened MinterRuns

  // ---------- the amounts ----------

  ghost function MintedAmounts(m: map<DepositId, MintedSweep>): map<DepositId, Lamport> {
    map id | id in m :: m[id].mintedAmount
  }

  ghost function PendingAmounts(m: map<DepositId, PendingMint>): map<DepositId, Lamport> {
    map id | id in m :: m[id].amountToMint
  }

  /** The mints whose outcome on the ledger is unknown. */
  ghost function UnresolvedAmounts(m: map<DepositId, QuarantinedDeposit>): map<DepositId, Lamport> {
    map id | id in m && m[id].cause.MintUnresolved? :: m[id].cause.amountToMint
  }

  /** Everything minted, about to be minted, or possibly minted. */
  ghost function Claims(b: Book): Lamport {
    Total(MintedAmounts(b.minted)) + Total(PendingAmounts(b.pendingMints)) + Total(UnresolvedAmounts(b.quarantined))
  }

  /** The transfers of the withdrawals for which a transaction was created. */
  ghost function Transferred(w: Withdrawals): map<BurnIndex, Lamport> {
    map i | i in w && !w[i].stage.IsPending? :: w[i].request.amountToTransfer
  }

  ghost function Burned(w: Withdrawals): map<BurnIndex, Lamport> {
    map i | i in w :: w[i].request.burnedAmount
  }

  ghost function BurnedPending(w: Withdrawals): map<BurnIndex, Lamport> {
    map i | i in w && w[i].stage.IsPending? :: w[i].request.burnedAmount
  }

  ghost function BurnedServed(w: Withdrawals): map<BurnIndex, Lamport> {
    map i | i in w && !w[i].stage.IsPending? :: w[i].request.burnedAmount
  }

  /** What a run has received from sweeps and how many withdrawal transactions it has created. */
  datatype Tally = Tally(received: Lamport, created: nat)

  ghost function Tallied(t: Tally, e: Event): Tally {
    match e
    case CreditedSweep(_, amount, _) => t.(received := t.received + amount)
    case CreatedWithdrawalTransaction(_, _, _) => t.(created := t.created + 1)
    case _ => t
  }

  /** The balance is what was received less the transfers and fees of every created transaction. */
  ghost predicate Exact(s: MinterState, w: Withdrawals, t: Tally) {
    s.balance + Total(Transferred(w)) + BATCH_WITHDRAWAL_TX_FEE * t.created == t.received
  }

  ghost predicate Backed(s: MinterState, t: Tally) {
    Claims(s.book) + s.collectedFees <= t.received
  }

  ghost predicate Served(w: Withdrawals, t: Tally) {
    t.created <= |Transferred(w)|
  }

  ghost predicate Accounted(s: MinterState, h: History, t: Tally) {
    Exact(s, h.withdrawals, t) && Backed(s, t) && Served(h.withdrawals, t)
  }

  // ---------- withdrawals ----------

  lemma ArrivalTransferred(w: Withdrawals, r: WithdrawalRequest, now: Timestamp)
    requires r.burnIndex !in w
    ensures Transferred(Arrival(w, r, now)) == Transferred(w)
  {}

  lemma RestageTransferred(w: Withdrawals, ids: set<BurnIndex>, st: WithdrawalStage)
    requires !st.IsPending? && forall i | i in ids && i in w :: !w[i].stage.IsPending?
    ensures Transferred(Restaged(w, ids, st)) == Transferred(w)
  {}

  /** Creating a transaction for pending requests adds exactly their amounts. */
  lemma CreateTransferred(pending: map<BurnIndex, PendingWithdrawal>, w: Withdrawals, burns: seq<BurnIndex>, a: Address)
    requires KeysAt(pending.Keys, w, PendingBucket) && UnsentRecorded(pending, w)
    requires Distinct(burns) && forall b | b in burns :: b in pending
    ensures var w' := Restaged(w, Elems(burns), IsCreated(a));
            && Total(Transferred(w')) == Total(Transferred(w)) + Sum(TransferAmounts(pending, burns))
            && |Transferred(w')| == |Transferred(w)| + |burns|
  {
    var w' := Restaged(w, Elems(burns), IsCreated(a));
    var more := map i | i in Elems(burns) && i in pending :: pending[i].request.amountToTransfer;
    assert more.Keys == Elems(burns);
    TransferredSplit(pending, w, burns, a, more);
    TotalUnion(Transferred(w), more);
    SumListing(burns, more);
    assert TransferAmounts(pending, burns) == seq(|burns|, i requires 0 <= i < |burns| =>
      assert burns[i] in Elems(burns); more[burns[i]]);
    ElemsCard(burns);
    assert Transferred(w').Keys == Transferred(w).Keys + Elems(burns);
    assert Transferred(w).Keys !! Elems(burns);
  }

  lemma TransferredSplit(pending: map<BurnIndex, PendingWithdrawal>, w: Withdrawals, burns: seq<BurnIndex>, a: Address,
                         more: map<BurnIndex, Lamport>)
    requires KeysAt(pending.Keys, w, PendingBucket) && UnsentRecorded(pending, w)
    requires forall b | b in burns :: b in pending
    requires more == map i | i in Elems(burns) && i in pending :: pending[i].request.amountToTransfer
    ensures Transferred(w).Keys !! more.Keys
    ensures Transferred(Restaged(w, Elems(burns), IsCreated(a))) == Transferred(w) + more
  {
    assert forall i | i in Elems(burns) :: i in pending.Keys;
  }

  lemma CreateAccounted(s: MinterState, h: History, t: Tally, burns: seq<BurnIndex>, a: Address, nonce: Hash)
    requires Buckets(s, h.withdrawals) && Accounted(s, h, t) && CanCreate(s, burns, a, nonce) && |burns| >= 1
    ensures Accounted(Created(s, burns, a, nonce),
                      h.(withdrawals := Restaged(h.withdrawals, Elems(burns), IsCreated(a))),
                      t.(created := t.created + 1))
  {
    hide Transferred, Restaged, Total, Claims, KeysAt, UnsentRecorded, SentRecorded, Sum, TransferAmounts, PickedRequests,
         CanBind, Bound, Elems;
    CreateTransferred(s.pending, h.withdrawals, burns, a);
  }

  // ---------- deposits ----------

  lemma QueueClaims(b: Book, id: DepositId, d: QueuedDeposit, now: Timestamp)
    ensures Claims(Queue(b, id, d, now)) == Claims(b)
  {}

  lemma UnreadableClaims(b: Book, t: Trace, sig: Signature)
    requires Agrees(b, t) && sig in b.finalized
    ensures Claims(QuarantineSweep(b, sig)) == Claims(b)
  {
    hide Agrees, UnresolvedAmounts, UnreadableOf;
    FinalizedElsewhere(b, t, sig);
    UnreadableAdded(b.quarantined, b.finalized[sig].deposits, sig);
  }

  lemma FinalizedElsewhere(b: Book, t: Trace, sig: Signature)
    requires Agrees(b, t) && sig in b.finalized
    ensures b.finalized[sig].deposits.Keys !! b.quarantined.Keys
  {
    hide Numbered, InFlightAgree, LatestAgree, AllPlans, Records, HeldIds;
    FinalizedAt(b, t, sig);
    forall id | id in b.finalized[sig].deposits ensures id !in b.quarantined.Keys {
      assert id in b.finalized[sig].deposits.Keys && id in t.stage;
    }
  }

  lemma UnreadableAdded(quarantined: map<DepositId, QuarantinedDeposit>, m: Batch, sig: Signature)
    requires m.Keys !! quarantined.Keys
    ensures UnresolvedAmounts(quarantined + UnreadableOf(m, sig)) == UnresolvedAmounts(quarantined)
  {}

  lemma PendingElsewhere(b: Book, t: Trace, id: DepositId)
    requires Located(b, t) && id in b.pendingMints
    ensures id !in b.minted && id !in b.quarantined
  {
    assert id in b.pendingMints.Keys && id in t.stage;
    hide HeldIds;
  }

  lemma PendingRemoved(m: map<DepositId, PendingMint>, id: DepositId)
    requires id in m
    ensures Total(PendingAmounts(m - {id})) + m[id].amountToMint == Total(PendingAmounts(m))
  {
    TotalRemove(PendingAmounts(m), id);
    assert PendingAmounts(m - {id}) == PendingAmounts(m) - {id};
  }

  lemma MintClaims(b: Book, t: Trace, id: DepositId, index: MintIndex)
    requires Agrees(b, t) && id in b.pendingMints
    ensures Claims(Mint(b, id, index)) == Claims(b)
  {
    hide Numbered, Records, InFlightAgree, LatestAgree, AllPlans, Located;
    PendingElsewhere(b, t, id);
    var p := b.pendingMints[id];
    PendingRemoved(b.pendingMints, id);
    TotalAdd(MintedAmounts(b.minted), id, p.amountToMint);
    assert MintedAmounts(Mint(b, id, index).minted) == MintedAmounts(b.minted)[id := p.amountToMint];
  }

  lemma QuarantineMintClaims(b: Book, t: Trace, id: DepositId)
    requires Agrees(b, t) && id in b.pendingMints
    ensures Claims(QuarantineMint(b, id)) == Claims(b)
  {
    hide Numbered, Records, InFlightAgree, LatestAgree, AllPlans, Located;
    PendingElsewhere(b, t, id);
    var p := b.pendingMints[id];
    PendingRemoved(b.pendingMints, id);
    TotalAdd(UnresolvedAmounts(b.quarantined), id, p.amountToMint);
    assert UnresolvedAmounts(QuarantineMint(b, id).quarantined) == UnresolvedAmounts(b.quarantined)[id := p.amountToMint];
  }

  /** The mints of a credit, summed. */
  lemma {:induction false} MintMapTotal(mints: seq<CreditedDeposit>)
    requires DistinctMints(mints)
    ensures Total(MintMap(mints)) == Sum(AmountsToMint(mints))
  {
    if mints == [] {
      assert MintMap(mints).Keys == {};
    } else {
      var n := |mints| - 1;
      MintMapTotal(mints[..n]);
      assert AmountsToMint(mints)[..n] == AmountsToMint(mints[..n]);
      if mints[n].depositId in MintMap(mints[..n]) {
        var i := MintMapFrom(mints[..n], mints[n].depositId);
      } else {
        TotalAdd(MintMap(mints[..n]), mints[n].depositId, mints[n].amountToMint);
      }
    }
  }

  lemma CreditClaims(b: Book, sig: Signature, mints: seq<CreditedDeposit>, now: Timestamp)
    requires CanCredit(b, sig, mints)
    ensures sig in b.finalized
    ensures Claims(Credit(b, sig, mints, now)) == Claims(b) + Sum(AmountsToMint(mints))
  {
    hide MintMap, PendingAmounts, PendingOf, AmountsToMint, DistinctMints, MintedAmounts, UnresolvedAmounts;
    CreditCovers(b, sig, mints);
    MintMapTotal(mints);
    NoneCredited(b, sig, mints);
    TotalUnion(PendingAmounts(b.pendingMints), MintMap(mints));
    PendingJoined(b.pendingMints, b.finalized[sig].deposits, sig, MintMap(mints), now);
  }

  lemma PendingJoined(pending: map<DepositId, PendingMint>, m: Batch, sig: Signature, amounts: map<DepositId, Lamport>,
                      now: Timestamp)
    requires amounts.Keys == m.Keys
    ensures PendingAmounts(pending + PendingOf(m, sig, amounts, now)) == PendingAmounts(pending) + amounts
  {}

  lemma NoneCredited(b: Book, sig: Signature, mints: seq<CreditedDeposit>)
    requires CanCredit(b, sig, mints)
    ensures PendingAmounts(b.pendingMints).Keys !! MintMap(mints).Keys
  {
    forall id | id in MintMap(mints) ensures id !in b.pendingMints {
      var i := MintMapFrom(mints, id);
    }
  }

  // ---------- every event ----------

  ghost predicate AmountsSame(s: MinterState, s': MinterState) {
    Claims(s'.book) == Claims(s.book) && s'.balance == s.balance && s'.collectedFees == s.collectedFees
  }

  /** Submitting and resolving transactions moves deposits between stages that owe nothing. */
  lemma SweepOwesNothing(b: Book, ids: seq<DepositId>, minter: Address, message: Message, sig: Signature)
    requires CanSweep(b, ids, minter, message, sig)
    ensures Claims(SweepQueued(b, ids, minter, sig)) == Claims(b)
  {
    hide PlanOf, Picked, CanPlan, MintedAmounts, PendingAmounts, UnresolvedAmounts;
  }

  lemma ResolvedOwesNothing(b: Book, sig: Signature)
    ensures CanFinalize(b, sig) ==> Claims(Finalize(b, sig)) == Claims(b)
    ensures CanDropSwept(b, sig) ==> Claims(DropSwept(b, sig)) == Claims(b)
  {
    hide Unheld, HoldsAccount, DroppedOf, AccountsOf, MintedAmounts, PendingAmounts, UnresolvedAmounts;
  }

  /** What an event other than a creation does to the amounts. */
  ghost predicate AmountsAfter(s: MinterState, e: Event, s': MinterState) {
    if e.CreditedSweep? then
      && e.signature in s.book.finalized
      && s'.balance == s.balance + e.amountReceived
      && s'.collectedFees == s.collectedFees + DepositFees(s.book.finalized[e.signature])
      && Claims(s'.book) == Claims(s.book) + Sum(AmountsToMint(e.mints))
      && Sum(AmountsToMint(e.mints)) + DepositFees(s.book.finalized[e.signature]) <= e.amountReceived
    else AmountsSame(s, s')
  }

  lemma EventAmounts(s: MinterState, h: History, e: Event, now: Timestamp)
    requires Inv(s, h) && CanApply(s, e) && !e.CreatedWithdrawalTransaction?
    ensures AmountsAfter(s, e, Apply(s, e, now))
  {
    hide Agrees, Buckets, Listed, TxsAgree, NoncesAgree, Keyed, CanUpgrade, CanAccept, CanSubmit, CanSucceed, CanFail,
         CanCreate, CanCredit, CanSweep, CanFinalize, CanDropSwept, Claims, Mint, QuarantineMint, Credit, QuarantineSweep, Queue,
         DepositFees, Submitted, Succeeded, FailedBy, SweepQueued, Finalize, DropSwept;
    match e
    case QueuedDepositEvent(id, d) => QueueClaims(s.book, id, d, now);
    case CreditedSweep(sig, _, mints) => CreditClaims(s.book, sig, mints, now);
    case QuarantinedSweep(sig) => UnreadableClaims(s.book, h.deposits, sig);
    case MintedSweptDeposit(id, index) => MintClaims(s.book, h.deposits, id, index);
    case QuarantinedPendingMint(id) => QuarantineMintClaims(s.book, h.deposits, id);
    case SubmittedTransaction(sig, message, signers, purpose) =>
      SubmittedParts(s, sig, message, signers, purpose, now);
      if purpose.SweepDeposit? {
        SweepOwesNothing(s.book, purpose.depositIds, MinterAddress(s.key.value), message, sig);
      }
    case SucceededTransaction(sig) =>
      SucceededParts(s, sig);
      ResolvedOwesNothing(s.book, sig);
    case FailedTransaction(sig) =>
      FailedParts(s, sig);
      ResolvedOwesNothing(s.book, sig);
    case ExpiredTransaction(sig) => ResolvedOwesNothing(s.book, sig);
    case _ =>
  }

  /** Which withdrawals were served changes only when a transaction is created. */
  lemma ServedStays(s: MinterState, h: History, e: Event, now: Timestamp)
    requires Inv(s, h) && CanApply(s, e) && Admissible(s, h, e) && !e.CreatedWithdrawalTransaction?
    ensures Transferred(After(s, h, e, now).withdrawals) == Transferred(h.withdrawals)
  {
    hide Agrees, Buckets, TxsAgree, NoncesAgree, Keyed, CanUpgrade, CanAccept, CanSucceed, CanFail,
         CanExpire, CanCreate, CanCreditSweep, Transferred, Restaged, Arrival;
    match e
    case AcceptedWithdrawalRequest(r) => ArrivalTransferred(h.withdrawals, r, now);
    case SubmittedTransaction(sig, message, signers, purpose) =>
      if purpose.Withdrawal? {
        SendServes(s.createdTxs, h.withdrawals, AdvancedNonceAccount(message).value, sig);
      }
    case SucceededTransaction(sig) => RestageTransferred(h.withdrawals, SentWith(h.withdrawals, sig), HasSucceeded(sig));
    case FailedTransaction(sig) => RestageTransferred(h.withdrawals, SentWith(h.withdrawals, sig), HasFailed(sig));
    case _ =>
  }

  lemma SendServes(txs: map<Address, CreatedTx>, w: Withdrawals, a: Address, sig: Signature)
    requires Listed(txs, w) && a in txs
    ensures Transferred(Restaged(w, Elems(txs[a].burnIndices), IsSent(sig))) == Transferred(w)
  {
    forall i | i in Elems(txs[a].burnIndices) && i in w ensures !w[i].stage.IsPending? {
      assert Lists(txs, a, i) <==> CreatedOn(w, i, a);
    }
    RestageTransferred(w, Elems(txs[a].burnIndices), IsSent(sig));
  }

  /** Every event keeps the accounts exact and backed. */
  lemma EventKeepsAccounts(s: MinterState, h: History, t: Tally, e: Event, now: Timestamp)
    requires Inv(s, h) && CanApply(s, e) && Admissible(s, h, e) && Accounted(s, h, t)
    ensures Accounted(Apply(s, e, now), After(s, h, e, now), Tallied(t, e))
  {
    hide Inv, Apply, CanApply, Admissible, After, Claims, Transferred, DepositFees, AmountsToMint, Sum, Total;
    if e.CreatedWithdrawalTransaction? {
      CreationKeepsAccounts(s, h, t, e, now);
    } else {
      ServedStays(s, h, e, now);
      EventAmounts(s, h, e, now);
    }
  }

  lemma CreationKeepsAccounts(s: MinterState, h: History, t: Tally, e: Event, now: Timestamp)
    requires Inv(s, h) && CanApply(s, e) && Admissible(s, h, e) && Accounted(s, h, t) && e.CreatedWithdrawalTransaction?
    ensures Accounted(Apply(s, e, now), After(s, h, e, now), Tallied(t, e))
  {
    hide Agrees, Buckets, Listed, TxsAgree, NoncesAgree, Keyed, Exact, Backed, Served, Created, Restaged, CanCreate;
    var w' := Restaged(h.withdrawals, Elems(e.burnIndices), IsCreated(e.nonceAccount));
    CreateAccounted(s, h, t, e.burnIndices, e.nonceAccount, e.nonceValue);
  }

  // ---------- every run ----------

  /** The tally of a log. */
  ghost function TallyOf(log: seq<LoggedEvent>): Tally {
    if log == [] then Tally(0, 0) else Tallied(TallyOf(log[..|log| - 1]), log[|log| - 1].payload)
  }

  /** The ledger burned at least the transfer and a transaction fee for every accepted request. */
  ghost predicate KeepsFee(r: WithdrawalRequest) {
    r.burnedAmount >= r.amountToTransfer + BATCH_WITHDRAWAL_TX_FEE
  }

  ghost predicate AllKeepFee(w: Withdrawals) {
    forall i | i in w :: KeepsFee(w[i].request)
  }

  lemma {:induction false} ReachableAccounts(log: seq<LoggedEvent>, h: History)
    requires Runs(log, h)
    ensures Replay(log).Some? && Accounted(Replay(log).value, h, TallyOf(log))
    decreases |log|
  {
    hide Inv, Apply, After, CanApply, Admissible, Accounted;
    if |log| == 1 {
      InitialAccounts(log);
    } else {
      var n := |log| - 1;
      var h0 :| RunStep(log, h0, h);
      ReachableAccounts(log[..n], h0);
      ReachableInv(log[..n], h0);
      EventKeepsAccounts(Replay(log[..n]).value, h0, TallyOf(log[..n]), log[n].payload, log[n].timestamp);
    }
  }

  lemma InitialAccounts(log: seq<LoggedEvent>)
    requires |log| == 1 && Replay(log).Some?
    ensures Accounted(Replay(log).value, EMPTY_HISTORY, TallyOf(log))
  {
    assert TallyOf(log[..0]) == Tally(0, 0);
    var s := Replay(log).value;
    assert Transferred(map[]) == map[] && Claims(s.book) == 0 by {
      assert MintedAmounts(s.book.minted).Keys == {};
      assert PendingAmounts(s.book.pendingMints).Keys == {};
      assert UnresolvedAmounts(s.book.quarantined).Keys == {};
    }
  }

  /** The balance is exactly what sweeps delivered less the transfers and fees of every created
      withdrawal transaction. */
  lemma BalanceIsExact(log: seq<LoggedEvent>, h: History)
    requires Runs(log, h)
    ensures Replay(log).Some?
    ensures Replay(log).value.balance + Total(Transferred(h.withdrawals))
            + BATCH_WITHDRAWAL_TX_FEE * TallyOf(log).created == TallyOf(log).received
  {
    hide Runs, Replay, Total, Transferred, TallyOf;
    ReachableAccounts(log, h);
  }

  /** Transfers and fees together never exceed what was burned for the served requests. */
  lemma BurnsCover(w: Withdrawals, created: nat)
    requires AllKeepFee(w) && created <= |Transferred(w)|
    ensures Total(Transferred(w)) + BATCH_WITHDRAWAL_TX_FEE * created <= Total(BurnedServed(w))
    ensures Total(BurnedServed(w)) + Total(BurnedPending(w)) == Total(Burned(w))
  {
    BurnsSplit(w);
    var kept := map i | i in Transferred(w) :: BurnedServed(w)[i] - Transferred(w)[i];
    assert BurnedServed(w).Keys == Transferred(w).Keys;
    TotalPointwise(Transferred(w), kept, BurnedServed(w));
    TotalAtLeast(kept, BATCH_WITHDRAWAL_TX_FEE);
    assert kept.Keys == Transferred(w).Keys;
  }

  lemma BurnsSplit(w: Withdrawals)
    ensures Total(BurnedServed(w)) + Total(BurnedPending(w)) == Total(Burned(w))
  {
    assert Burned(w) == BurnedServed(w) + BurnedPending(w);
    TotalUnion(BurnedServed(w), BurnedPending(w));
  }

  /** Solvency: the balance covers everything minted or possibly minted and not burned, the burns
      still waiting for a transaction, and the collected automatic deposit fees. */
  lemma Solvent(log: seq<LoggedEvent>, h: History)
    requires Runs(log, h) && AllKeepFee(h.withdrawals)
    ensures Replay(log).Some?
    ensures var s := Replay(log).value;
            s.balance + Total(Burned(h.withdrawals)) >=
              Claims(s.book) + Total(BurnedPending(h.withdrawals)) + s.collectedFees
  {
    hide Runs, Replay, Total, Transferred, TallyOf, Burned, BurnedServed, BurnedPending, Claims, AllKeepFee;
    ReachableAccounts(log, h);
    BurnsCover(h.withdrawals, TallyOf(log).created);
  }
}
