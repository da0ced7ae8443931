/** The global invariant of the minter: what every event keeps, in every run
    (minter/src/state/mod.rs, minter/src/state/audit.rs). */
module MinterRuns {
  import opened Prelude
  import opened Solana
  import opened InsertionOrdered
  import opened NoncePool
  import opened Sweeps
  import opened ScanSchedule
  import opened DepositBook
  import opened DepositLifecycle
  import opened Minter
  import opened WithdrawalRecords

  /** What a bound nonce account is bound to. */
  datatype Holder = ByCreated | BySubmitted(signature: Signature)

  datatype History = History(deposits: Trace, withdrawals: Withdrawals, holder: map<Address, Holder>)

  type Txs = map<Signature, MinterTransaction>

  // ---------- the invariant ----------

  ghost predicate InFlightOn(txs: Txs, sig: Signature, a: Address) {
    sig in txs && txs[sig].WithdrawalTx? && txs[sig].nonceAccount == a
  }

  ghost predicate BoundHeld(pool: Pool, holder: map<Address, Holder>) {
    forall a :: a in holder <==> a in pool && pool[a].bound
  }

  ghost predicate CreatedHeld(created: map<Address, CreatedTx>, holder: map<Address, Holder>) {
    forall a :: a in created <==> a in holder && holder[a] == ByCreated
  }

  ghost predicate HeldFor(holder: map<Address, Holder>, a: Address, sig: Signature) {
    a in holder && holder[a] == BySubmitted(sig)
  }

  ghost predicate InFlightHeld(txs: Txs, holder: map<Address, Holder>) {
    forall a, sig :: InFlightOn(txs, sig, a) <==> HeldFor(holder, a, sig)
  }

  /** The bound nonce accounts are the disjoint union of the accounts of created transactions
      and the accounts of submitted withdrawals, one account each. */
  ghost predicate Occupied(pool: Pool, created: map<Address, CreatedTx>, txs: Txs, holder: map<Address, Holder>) {
    BoundHeld(pool, holder) && CreatedHeld(created, holder) && InFlightHeld(txs, holder)
  }

  /** Every nonce value in use was recorded as seen when it was bound. */
  ghost predicate NoncesSeen(pool: Pool, created: map<Address, CreatedTx>, txs: Txs) {
    && (forall a | a in created :: HasSeen(pool, a, created[a].nonceValue))
    && (forall sig | sig in txs && txs[sig].WithdrawalTx? :: HasSeen(pool, txs[sig].nonceAccount, txs[sig].nonceValue))
  }

  /** The submitted sweeps are exactly the swept groups, and every finalized group succeeded. */
  ghost predicate SweepsTracked(swept: set<Signature>, finalized: set<Signature>, txs: Txs, succeeded: set<Signature>) {
    && (forall sig :: sig in swept <==> sig in txs && txs[sig].SweepTx?)
    && finalized <= succeeded
  }

  ghost predicate Apart(submitted: set<Signature>, succeeded: set<Signature>, failed: set<Signature>) {
    submitted !! succeeded && submitted !! failed && succeeded !! failed
  }

  /** Every recorded outcome of a withdrawal is the outcome of its transaction. */
  ghost predicate Witnessed(w: Withdrawals, txs: Txs, succeeded: set<Signature>, failed: set<Signature>) {
    forall i | i in w ::
      match w[i].stage
      case IsPending => true
      case IsCreated(_) => true
      case IsSent(sig) => sig in txs && txs[sig].WithdrawalTx?
      case HasSucceeded(sig) => sig in succeeded
      case HasFailed(sig) => sig in failed
  }

  /** What the minter key is needed for implies that it is known. */
  ghost predicate Derived(key: Option<SchnorrPublicKey>, origin: Batch) {
    forall id | id in origin :: key.Some? && origin[id].address == AccountAddress(key.value, origin[id].account)
  }

  ghost predicate Destined(key: Option<SchnorrPublicKey>, sweeps: map<Signature, Sweep>) {
    forall sig | sig in sweeps :: key.Some? && sweeps[sig].minterAddress == MinterAddress(key.value)
  }

  ghost predicate Keyed(key: Option<SchnorrPublicKey>, created: map<Address, CreatedTx>, origin: Batch,
                        swept: map<Signature, Sweep>, finalized: map<Signature, Sweep>) {
    && (created.Keys != {} ==> key.Some?)
    && Derived(key, origin) && Destined(key, swept) && Destined(key, finalized)
  }

  ghost predicate TxsAgree(s: MinterState, h: History) {
    && s.submitted.Valid() && s.failedTxs.Valid()
    && SweepsTracked(s.book.swept.Keys, s.book.finalized.Keys, s.submitted.values, s.succeededTxs)
    && Apart(s.submitted.values.Keys, s.succeededTxs, s.failedTxs.values.Keys)
    && Witnessed(h.withdrawals, s.submitted.values, s.succeededTxs, s.failedTxs.values.Keys)
  }

  ghost predicate NoncesAgree(s: MinterState, h: History) {
    && Occupied(s.pool, s.createdTxs, s.submitted.values, h.holder)
    && NoncesSeen(s.pool, s.createdTxs, s.submitted.values)
  }

  ghost predicate Inv(s: MinterState, h: History) {
    && Agrees(s.book, h.deposits)
    && Buckets(s, h.withdrawals)
    && Listed(s.createdTxs, h.withdrawals)
    && TxsAgree(s, h)
    && NoncesAgree(s, h)
    && Keyed(s.key, s.createdTxs, h.deposits.origin, s.book.swept, s.book.finalized)
  }

  // ---------- what the environment and the callers grant ----------

  /** Burn indices are fresh; transactions are created for one to ten requests once the key is
      known; a deposit is queued with the address derived from its account. */
  ghost predicate Admissible(s: MinterState, h: History, e: Event) {
    match e
    case AcceptedWithdrawalRequest(r) => r.burnIndex !in h.withdrawals
    case CreatedWithdrawalTransaction(burns, _, _) =>
      s.key.Some? && 1 <= |burns| <= MAX_WITHDRAWALS_PER_NONCE_TX
    case QueuedDepositEvent(_, d) => s.key.Some? && d.address == AccountAddress(s.key.value, d.account)
    case _ => true
  }

  /** The history after an event. */
  ghost function After(s: MinterState, h: History, e: Event, now: Timestamp): History
    requires CanApply(s, e)
  {
    match e
    case Upgrade(_) => h
    case AcceptedWithdrawalRequest(r) => h.(withdrawals := Arrival(h.withdrawals, r, now))
    case SubmittedTransaction(sig, message, _, purpose) =>
      (match purpose
       case SweepDeposit(ids, _) => h.(deposits := SweptUp(h.deposits, Elems(ids), sig))
       case Withdrawal(burns) =>
         h.(withdrawals := Restaged(h.withdrawals, Elems(burns), IsSent(sig)),
            holder := h.holder[AdvancedNonceAccount(message).value := BySubmitted(sig)]))
    case SucceededTransaction(sig) => Resolved(s, h, sig, HasSucceeded(sig), Finalized)
    case FailedTransaction(sig) => Resolved(s, h, sig, HasFailed(sig), Dropped)
    case ExpiredTransaction(sig) => h.(deposits := MovedTo(h.deposits, s.book.swept[sig].deposits.Keys, Dropped))
    case QueuedDepositEvent(id, d) => h.(deposits := Arrived(h.deposits, id, d))
    case CreditedSweep(sig, _, _) =>
      h.(deposits := MovedTo(h.deposits, s.book.finalized[sig].deposits.Keys, Pending))
    case QuarantinedSweep(sig) =>
      h.(deposits := MovedTo(h.deposits, s.book.finalized[sig].deposits.Keys, Quarantined))
    case MinterPublicKeyFetched(_) => h
    case MintedSweptDeposit(id, _) => h.(deposits := MovedTo(h.deposits, {id}, Minted))
    case QuarantinedPendingMint(id) => h.(deposits := MovedTo(h.deposits, {id}, Quarantined))
    case CreatedWithdrawalTransaction(burns, a, _) =>
      h.(withdrawals := Restaged(h.withdrawals, Elems(burns), IsCreated(a)), holder := h.holder[a := ByCreated])
  }

  /** The history after the outcome of a submitted transaction. */
  ghost function Resolved(s: MinterState, h: History, sig: Signature, st: WithdrawalStage, stage: Stage): History
    requires s.submitted.Has(sig)
    requires s.submitted.values[sig].SweepTx? ==> sig in s.book.swept
  {
    var h' := h.(withdrawals := Restaged(h.withdrawals, SentWith(h.withdrawals, sig), st));
    match s.submitted.values[sig]
    case SweepTx(_) => h'.(deposits := MovedTo(h.deposits, s.book.swept[sig].deposits.Keys, stage))
    case WithdrawalTx(_, a, _, _) => h'.(holder := h.holder - {a})
  }

  ghost predicate HistoryFollows(h: History, h': History) {
    Follows(h.deposits, h'.deposits) && WithdrawalsFollow(h.withdrawals, h'.withdrawals)
  }

  lemma WithdrawalsStay(w: Withdrawals)
    ensures WithdrawalsFollow(w, w)
  {}

  lemma DepositsStay(t: Trace)
    ensures Follows(t, t)
  {}

  // ---------- upgrades, keys and deposits ----------

  lemma UpgradeKeeps(s: MinterState, h: History, a: UpgradeArgs)
    requires Inv(s, h) && CanUpgrade(s, a)
    ensures Inv(Upgraded(s, a), h)
  {
    hide Agrees, Buckets, Listed, TxsAgree, Keyed, Occupied, NoncesSeen;
    if a.nonceAccountsToAdd.Some? {
      AddKeeps(s.pool, s.createdTxs, s.submitted.values, h.holder, Parsed(a.nonceAccountsToAdd.value));
    }
    SameTxs(s, Upgraded(s, a), h, h);
    SameBuckets(s, Upgraded(s, a), h.withdrawals);
  }

  /** A change that leaves the transactions and the withdrawals alone. */
  lemma SameTxs(s: MinterState, s': MinterState, h: History, h': History)
    requires TxsAgree(s, h) && s'.submitted == s.submitted && s'.failedTxs == s.failedTxs
    requires s'.succeededTxs == s.succeededTxs && h'.withdrawals == h.withdrawals
    requires s'.book.swept.Keys == s.book.swept.Keys && s'.book.finalized.Keys <= s.book.finalized.Keys
    ensures TxsAgree(s', h')
  {}

  lemma AddKeeps(pool: Pool, created: map<Address, CreatedTx>, txs: Txs, holder: map<Address, Holder>, more: seq<Address>)
    requires Occupied(pool, created, txs, holder) && NoncesSeen(pool, created, txs) && CanAdd(pool, more)
    ensures Occupied(Added(pool, more), created, txs, holder) && NoncesSeen(Added(pool, more), created, txs)
  {
    var pool' := Added(pool, more);
    assert forall a | a in pool :: a in pool' && pool'[a] == pool[a];
  }

  lemma KeyKeeps(s: MinterState, h: History, key: SchnorrPublicKey)
    requires Inv(s, h) && (s.key == None || s.key == Some(key))
    ensures Inv(s.(key := Some(key)), h)
  {
    hide Agrees, Listed, KeysAt, UnsentRecorded, SentRecorded, Occupied, NoncesSeen, SweepsTracked, Apart, Witnessed;
  }

  /** A deposit event that keeps the sweep signatures and the sweeps themselves. */
  lemma BookKeeps(s: MinterState, h: History, b: Book, t: Trace)
    requires Inv(s, h) && Agrees(b, t) && Derived(s.key, t.origin)
    requires b.swept == s.book.swept && b.finalized.Keys <= s.book.finalized.Keys
    requires forall sig | sig in b.finalized :: b.finalized[sig] == s.book.finalized[sig]
    ensures Inv(s.(book := b), h.(deposits := t))
  {
    hide Agrees, Listed, KeysAt, UnsentRecorded, SentRecorded, Occupied, NoncesSeen, Apart, Witnessed, Derived;
    assert SweepsTracked(b.swept.Keys, b.finalized.Keys, s.submitted.values, s.succeededTxs);
  }

  lemma QueueKeeps(s: MinterState, h: History, id: DepositId, d: QueuedDeposit, now: Timestamp)
    requires Inv(s, h) && CanQueue(s.book, id, d)
    requires s.key.Some? && d.address == AccountAddress(s.key.value, d.account)
    ensures Inv(s.(book := Queue(s.book, id, d, now)), h.(deposits := Arrived(h.deposits, id, d)))
    ensures Follows(h.deposits, Arrived(h.deposits, id, d))
  {
    assert Derived(s.key, Arrived(h.deposits, id, d).origin);
    hide Agrees, Follows, Buckets, Listed, TxsAgree, NoncesAgree, Derived;
    QueueAgrees(s.book, h.deposits, id, d, now);
    BookKeeps(s, h, Queue(s.book, id, d, now), Arrived(h.deposits, id, d));
  }

  lemma CreditKeeps(s: MinterState, h: History, sig: Signature, amount: Lamport, mints: seq<CreditedDeposit>, now: Timestamp)
    requires Inv(s, h) && CanCreditSweep(s, sig, amount, mints)
    ensures var t := MovedTo(h.deposits, s.book.finalized[sig].deposits.Keys, Pending);
            Inv(SweepCredited(s, sig, amount, mints, now), h.(deposits := t)) && Follows(h.deposits, t)
  {
    hide Agrees, Follows, Buckets, Listed, TxsAgree, NoncesAgree, Derived, DepositFees;
    var t := MovedTo(h.deposits, s.book.finalized[sig].deposits.Keys, Pending);
    CreditAgrees(s.book, h.deposits, sig, mints, now);
    MovedOrigin(h.deposits, s.book.finalized[sig].deposits.Keys, Pending);
    BookKeeps(s, h, Credit(s.book, sig, mints, now), t);
    AmountsKeep(s.(book := Credit(s.book, sig, mints, now)), SweepCredited(s, sig, amount, mints, now), h.(deposits := t));
  }

  /** The invariant does not look at the amounts. */
  lemma AmountsKeep(s: MinterState, s': MinterState, h: History)
    requires Inv(s, h) && s' == s.(collectedFees := s'.collectedFees, balance := s'.balance)
    ensures Inv(s', h)
  {
    hide Agrees, Listed, KeysAt, UnsentRecorded, SentRecorded, Occupied, NoncesSeen, SweepsTracked, Apart, Witnessed, Keyed;
  }

  lemma QuarantineSweepKeeps(s: MinterState, h: History, sig: Signature)
    requires Inv(s, h) && sig in s.book.finalized
    ensures var t := MovedTo(h.deposits, s.book.finalized[sig].deposits.Keys, Quarantined);
            Inv(s.(book := QuarantineSweep(s.book, sig)), h.(deposits := t)) && Follows(h.deposits, t)
  {
    hide Agrees, Follows, Buckets, Listed, TxsAgree, NoncesAgree, Derived;
    var t := MovedTo(h.deposits, s.book.finalized[sig].deposits.Keys, Quarantined);
    QuarantineSweepAgrees(s.book, h.deposits, sig);
    MovedOrigin(h.deposits, s.book.finalized[sig].deposits.Keys, Quarantined);
    BookKeeps(s, h, QuarantineSweep(s.book, sig), t);
  }

  lemma MintKeeps(s: MinterState, h: History, id: DepositId, index: MintIndex)
    requires Inv(s, h) && id in s.book.pendingMints
    ensures var t := MovedTo(h.deposits, {id}, Minted);
            Inv(s.(book := Mint(s.book, id, index)), h.(deposits := t)) && Follows(h.deposits, t)
  {
    hide Agrees, Follows, Buckets, Listed, TxsAgree, NoncesAgree, Derived;
    MintAgrees(s.book, h.deposits, id, index);
    MovedOrigin(h.deposits, {id}, Minted);
    BookKeeps(s, h, Mint(s.book, id, index), MovedTo(h.deposits, {id}, Minted));
  }

  lemma QuarantineMintKeeps(s: MinterState, h: History, id: DepositId)
    requires Inv(s, h) && id in s.book.pendingMints
    ensures var t := MovedTo(h.deposits, {id}, Quarantined);
            Inv(s.(book := QuarantineMint(s.book, id)), h.(deposits := t)) && Follows(h.deposits, t)
  {
    hide Agrees, Follows, Buckets, Listed, TxsAgree, NoncesAgree, Derived;
    QuarantineMintAgrees(s.book, h.deposits, id);
    MovedOrigin(h.deposits, {id}, Quarantined);
    BookKeeps(s, h, QuarantineMint(s.book, id), MovedTo(h.deposits, {id}, Quarantined));
  }

  // ---------- submitted transactions ----------

  lemma SweepSubmitKeeps(s: MinterState, h: History, sig: Signature, message: Message, ids: seq<DepositId>,
                         height: BlockHeight, s': MinterState)
    requires Inv(s, h) && s.key.Some? && CanSweep(s.book, ids, MinterAddress(s.key.value), message, sig)
    requires sig !in s.succeededTxs && !s.failedTxs.Has(sig) && !s.submitted.Has(sig)
    requires s' == s.(book := SweepQueued(s.book, ids, MinterAddress(s.key.value), sig),
                      submitted := s.submitted.Insert(sig, SweepTx(height)))
    ensures var t := SweptUp(h.deposits, Elems(ids), sig); Inv(s', h.(deposits := t)) && Follows(h.deposits, t)
  {
    hide Agrees, Follows, Buckets, Listed, TxsAgree, Occupied, NoncesSeen, Keyed, CanPlan, Picked;
    var t, minter := SweptUp(h.deposits, Elems(ids), sig), MinterAddress(s.key.value);
    SubmitTxs(s, s', h, h.(deposits := t), sig, SweepTx(height));
    SubmitNonces(s.pool, s.createdTxs, s.submitted.values, h.holder, sig, SweepTx(height));
    SweepAgrees(s.book, h.deposits, ids, minter, sig);
    SameBuckets(s, s', h.withdrawals);
    PlanKeyed(s.key, s.createdTxs, h.deposits.origin, s.book.swept, s.book.finalized, sig,
              PlanOf(Picked(s.book.queued, ids), minter));
  }

  lemma PlanKeyed(key: Option<SchnorrPublicKey>, created: map<Address, CreatedTx>, origin: Batch,
                  swept: map<Signature, Sweep>, finalized: map<Signature, Sweep>, sig: Signature, plan: Sweep)
    requires Keyed(key, created, origin, swept, finalized) && key.Some? && plan.minterAddress == MinterAddress(key.value)
    ensures Keyed(key, created, origin, swept[sig := plan], finalized)
  {}

  lemma SameBuckets(s: MinterState, s': MinterState, w: Withdrawals)
    requires Buckets(s, w) && s'.pending == s.pending && s'.created == s.created && s'.sent == s.sent
    requires s'.successful == s.successful && s'.failed == s.failed
    ensures Buckets(s', w)
  {
    hide KeysAt, UnsentRecorded, SentRecorded;
  }

  /** Submitting a transaction under a signature not known yet. */
  lemma SubmitTxs(s: MinterState, s': MinterState, h: History, h': History, sig: Signature, tx: MinterTransaction)
    requires TxsAgree(s, h) && sig !in s.succeededTxs && !s.failedTxs.Has(sig) && !s.submitted.Has(sig)
    requires s'.submitted == s.submitted.Insert(sig, tx) && s'.failedTxs == s.failedTxs && s'.succeededTxs == s.succeededTxs
    requires s'.book.finalized == s.book.finalized
    requires s'.book.swept.Keys == if tx.SweepTx? then s.book.swept.Keys + {sig} else s.book.swept.Keys
    requires h'.withdrawals == h.withdrawals
    ensures TxsAgree(s', h')
  {
    hide OrderedMap<Signature, MinterTransaction>.Valid;
    s.submitted.InsertValid(sig, tx);
  }

  lemma SubmitNonces(pool: Pool, created: map<Address, CreatedTx>, txs: Txs, holder: map<Address, Holder>,
                     sig: Signature, tx: MinterTransaction)
    requires Occupied(pool, created, txs, holder) && NoncesSeen(pool, created, txs) && sig !in txs && tx.SweepTx?
    ensures Occupied(pool, created, txs[sig := tx], holder) && NoncesSeen(pool, created, txs[sig := tx])
  {
    var txs' := txs[sig := tx];
    forall a, x ensures InFlightOn(txs', x, a) <==> HeldFor(holder, a, x) {
      assert InFlightOn(txs, x, a) <==> HeldFor(holder, a, x);
    }
  }

  // ---------- withdrawals ----------

  lemma AcceptKeeps(s: MinterState, h: History, r: WithdrawalRequest, now: Timestamp)
    requires Inv(s, h) && r.burnIndex !in h.withdrawals
    ensures var w' := Arrival(h.withdrawals, r, now);
            Inv(Accepted(s, r, now), h.(withdrawals := w')) && WithdrawalsFollow(h.withdrawals, w')
  {
    hide Agrees, Listed, Buckets, Occupied, NoncesSeen, SweepsTracked, Apart, Keyed, WithdrawalsFollow;
    AcceptBuckets(s, h.withdrawals, r, now);
    AcceptListed(s.createdTxs, h.withdrawals, r, now);
  }

  /** Moving withdrawals to a stage whose transaction is known where the stage says. */
  lemma RestageWitnessed(w: Withdrawals, ids: set<BurnIndex>, st: WithdrawalStage, txs: Txs, succeeded: set<Signature>,
                         failed: set<Signature>)
    requires Witnessed(w, txs, succeeded, failed)
    requires st.IsCreated? || (st.IsSent? && st.signature in txs && txs[st.signature].WithdrawalTx?)
    ensures Witnessed(Restaged(w, ids, st), txs, succeeded, failed)
  {}

  lemma CreateKeeps(s: MinterState, h: History, burns: seq<BurnIndex>, a: Address, nonce: Hash)
    requires Inv(s, h) && CanCreate(s, burns, a, nonce)
    requires s.key.Some? && 1 <= |burns| <= MAX_WITHDRAWALS_PER_NONCE_TX
    ensures var w' := Restaged(h.withdrawals, Elems(burns), IsCreated(a));
            && Inv(Created(s, burns, a, nonce), h.(withdrawals := w', holder := h.holder[a := ByCreated]))
            && WithdrawalsFollow(h.withdrawals, w')
  {
    hide Agrees, Listed, KeysAt, RecordsAgree, Occupied, NoncesSeen, SweepsTracked, Apart, Witnessed, WithdrawalsFollow,
         CostOf, AllIn, Restaged, Derived, Destined;
    var s' := Created(s, burns, a, nonce);
    CreateBuckets(s, h.withdrawals, burns, a, nonce);
    TakenFrom(s.pending.Keys, h.withdrawals, PendingBucket, Elems(burns));
    CreateListed(s.createdTxs, h.withdrawals, burns, a, nonce);
    CreateNonces(s.pool, s.createdTxs, s.submitted.values, h.holder, a, nonce, burns);
    RestageWitnessed(h.withdrawals, Elems(burns), IsCreated(a), s.submitted.values, s.succeededTxs, s.failedTxs.values.Keys);
    hide Buckets;
  }

  lemma CreateNonces(pool: Pool, created: map<Address, CreatedTx>, txs: Txs, holder: map<Address, Holder>,
                     a: Address, nonce: Hash, burns: seq<BurnIndex>)
    requires Occupied(pool, created, txs, holder) && NoncesSeen(pool, created, txs) && CanBind(pool, a, nonce)
    ensures Occupied(Bound(pool, a, nonce), created[a := CreatedTx(nonce, burns)], txs, holder[a := ByCreated])
    ensures NoncesSeen(Bound(pool, a, nonce), created[a := CreatedTx(nonce, burns)], txs)
  {
    var holder' := holder[a := ByCreated];
    forall x, sig ensures InFlightOn(txs, sig, x) <==> HeldFor(holder', x, sig) {
      assert InFlightOn(txs, sig, x) <==> HeldFor(holder, x, sig);
    }
  }

  lemma SendKeeps(s: MinterState, h: History, sig: Signature, message: Message, signers: seq<Signer>,
                  burns: seq<BurnIndex>, now: Timestamp)
    requires Inv(s, h) && CanSend(s, message, signers, burns)
    requires sig !in s.succeededTxs && !s.failedTxs.Has(sig) && !s.submitted.Has(sig)
    ensures var a, w' := AdvancedNonceAccount(message).value, Restaged(h.withdrawals, Elems(burns), IsSent(sig));
            && Inv(Sent(s, sig, message, a, now), h.(withdrawals := w', holder := h.holder[a := BySubmitted(sig)]))
            && WithdrawalsFollow(h.withdrawals, w')
  {
    hide Agrees, Listed, Buckets, Occupied, NoncesSeen, WithdrawalsFollow, Restaged, TxsAgree, BoundMessage, Keyed;
    var a := AdvancedNonceAccount(message).value;
    var s' := Sent(s, sig, message, a, now);
    var w' := Restaged(h.withdrawals, Elems(burns), IsSent(sig));
    var h' := h.(withdrawals := w', holder := h.holder[a := BySubmitted(sig)]);
    var tx := WithdrawalTx(message, a, s.createdTxs[a].nonceValue, now);
    SendBuckets(s, h.withdrawals, sig, message, a, now);
    SendListed(s.createdTxs, h.withdrawals, a, sig);
    SendNonces(s.pool, s.createdTxs, s.submitted.values, h.holder, a, sig, tx);
    SubmitTxs(s, s', h, h, sig, tx);
    SendWitnessed(s', h, h', Elems(burns), sig);
    SendKeyed(s.key, s.createdTxs, h.deposits.origin, s.book.swept, s.book.finalized, a);
  }

  lemma SendWitnessed(s: MinterState, h: History, h': History, ids: set<BurnIndex>, sig: Signature)
    requires TxsAgree(s, h) && sig in s.submitted.values && s.submitted.values[sig].WithdrawalTx?
    requires h'.withdrawals == Restaged(h.withdrawals, ids, IsSent(sig))
    ensures TxsAgree(s, h')
  {
    hide Restaged, Witnessed, SweepsTracked, Apart;
    RestageWitnessed(h.withdrawals, ids, IsSent(sig), s.submitted.values, s.succeededTxs, s.failedTxs.values.Keys);
  }

  lemma SendKeyed(key: Option<SchnorrPublicKey>, created: map<Address, CreatedTx>, origin: Batch,
                  swept: map<Signature, Sweep>, finalized: map<Signature, Sweep>, a: Address)
    requires Keyed(key, created, origin, swept, finalized) && key.Some?
    ensures Keyed(key, created - {a}, origin, swept, finalized)
  {}

  lemma SendNonces(pool: Pool, created: map<Address, CreatedTx>, txs: Txs, holder: map<Address, Holder>,
                   a: Address, sig: Signature, tx: MinterTransaction)
    requires Occupied(pool, created, txs, holder) && NoncesSeen(pool, created, txs) && a in created && sig !in txs
    requires tx.WithdrawalTx? && tx.nonceAccount == a && tx.nonceValue == created[a].nonceValue
    ensures Occupied(pool, created - {a}, txs[sig := tx], holder[a := BySubmitted(sig)])
    ensures NoncesSeen(pool, created - {a}, txs[sig := tx])
  {
    var txs', holder' := txs[sig := tx], holder[a := BySubmitted(sig)];
    forall x, y ensures InFlightOn(txs', y, x) <==> HeldFor(holder', x, y) {
      assert InFlightOn(txs, y, x) <==> HeldFor(holder, x, y);
    }
  }

  // ---------- outcomes ----------

  lemma RemoveNonces(pool: Pool, created: map<Address, CreatedTx>, txs: Txs, holder: map<Address, Holder>, sig: Signature)
    requires Occupied(pool, created, txs, holder) && NoncesSeen(pool, created, txs) && sig in txs
    ensures txs[sig].SweepTx? ==>
              Occupied(pool, created, txs - {sig}, holder) && NoncesSeen(pool, created, txs - {sig})
    ensures txs[sig].WithdrawalTx? ==>
              var a := txs[sig].nonceAccount;
              && CanFree(pool, a)
              && Occupied(Freed(pool, a), created, txs - {sig}, holder - {a})
              && NoncesSeen(Freed(pool, a), created, txs - {sig})
  {
    var txs' := txs - {sig};
    match txs[sig]
    case SweepTx(_) =>
      forall x, y ensures InFlightOn(txs', y, x) <==> HeldFor(holder, x, y) {
        assert InFlightOn(txs, y, x) <==> HeldFor(holder, x, y);
      }
    case WithdrawalTx(_, a, _, _) =>
      var holder' := holder - {a};
      assert InFlightOn(txs, sig, a) <==> HeldFor(holder, a, sig);
      forall x, y ensures InFlightOn(txs', y, x) <==> HeldFor(holder', x, y) {
        assert InFlightOn(txs, y, x) <==> HeldFor(holder, x, y);
      }
  }

  lemma OutcomeWitnessed(w: Withdrawals, txs: Txs, succeeded: set<Signature>, failed: set<Signature>, sig: Signature,
                         st: WithdrawalStage)
    requires Witnessed(w, txs, succeeded, failed) && sig in txs
    requires st == HasSucceeded(sig) || st == HasFailed(sig)
    ensures Witnessed(Restaged(w, SentWith(w, sig), st), txs - {sig},
                      if st.HasSucceeded? then succeeded + {sig} else succeeded,
                      if st.HasFailed? then failed + {sig} else failed)
    ensures txs[sig].SweepTx? ==> Witnessed(w, txs - {sig}, succeeded, failed)
  {}

  /** The sets of signatures after an outcome. */
  lemma OutcomeTxs(s: MinterState, s': MinterState, h: History, h': History, sig: Signature, st: WithdrawalStage)
    requires TxsAgree(s, h) && s.submitted.Has(sig) && (st == HasSucceeded(sig) || st == HasFailed(sig))
    requires s'.submitted == s.submitted.Remove(sig)
    requires s'.succeededTxs == if st.HasSucceeded? then s.succeededTxs + {sig} else s.succeededTxs
    requires s'.failedTxs == if st.HasFailed? then s.failedTxs.Insert(sig, s.submitted.values[sig]) else s.failedTxs
    requires s'.book.swept.Keys == s.book.swept.Keys - {sig}
    requires s'.book.finalized.Keys <= if st.HasSucceeded? then s.book.finalized.Keys + {sig} else s.book.finalized.Keys
    requires h'.withdrawals == Restaged(h.withdrawals, SentWith(h.withdrawals, sig), st)
    ensures TxsAgree(s', h')
  {
    hide OrderedMap<Signature, MinterTransaction>.Valid, Restaged, SentWith, Witnessed, SweepsTracked;
    var failed := s.failedTxs.values.Keys;
    s.submitted.RemoveValid(sig);
    s.failedTxs.InsertValid(sig, s.submitted.values[sig]);
    OutcomeWitnessed(h.withdrawals, s.submitted.values, s.succeededTxs, failed, sig, st);
    assert s'.failedTxs.values.Keys == if st.HasFailed? then failed + {sig} else failed;
    OutcomeTracked(s.book.swept.Keys, s.book.finalized.Keys, s'.book.finalized.Keys, s.submitted.values, s.succeededTxs,
                   s'.succeededTxs, sig);
  }

  lemma OutcomeTracked(swept: set<Signature>, finalized: set<Signature>, finalized': set<Signature>, txs: Txs,
                       succeeded: set<Signature>, succeeded': set<Signature>, sig: Signature)
    requires SweepsTracked(swept, finalized, txs, succeeded) && succeeded <= succeeded'
    requires finalized' <= finalized + (succeeded' * {sig})
    ensures SweepsTracked(swept - {sig}, finalized', txs - {sig}, succeeded')
  {
  }

  lemma FinalizeKeyed(key: Option<SchnorrPublicKey>, created: map<Address, CreatedTx>, origin: Batch,
                      swept: map<Signature, Sweep>, finalized: map<Signature, Sweep>, sig: Signature)
    requires Keyed(key, created, origin, swept, finalized) && sig in swept
    ensures Keyed(key, created, origin, swept - {sig}, finalized[sig := swept[sig]])
    ensures Keyed(key, created, origin, swept - {sig}, finalized)
  {}

  /** A submitted transaction is a swept group or holds a bound nonce account. */
  lemma SubmittedIs(s: MinterState, h: History, sig: Signature)
    requires Inv(s, h) && s.submitted.Has(sig)
    ensures sig in s.book.swept <==> s.submitted.values[sig].SweepTx?
    ensures s.submitted.values[sig].WithdrawalTx? ==> CanFree(s.pool, s.submitted.values[sig].nonceAccount)
    ensures sig !in s.book.finalized && sig !in s.succeededTxs && !s.failedTxs.Has(sig)
  {
    hide Agrees, Buckets, Listed, Keyed, Witnessed, Occupied, NoncesSeen;
    RemoveNonces(s.pool, s.createdTxs, s.submitted.values, h.holder, sig);
  }

  /** Recording the success or the failure of a submitted transaction never traps. */
  lemma OutcomeNeverTraps(s: MinterState, h: History, sig: Signature)
    requires Inv(s, h) && s.submitted.Has(sig)
    ensures CanSucceed(s, sig) && CanFail(s, sig)
    ensures CanExpire(s, sig) <==> s.submitted.values[sig].SweepTx?
  {
    SubmittedIs(s, h, sig);
    hide Buckets, Listed, Keyed, TxsAgree, NoncesAgree, Agrees, CanDropSwept, CanFinalize, CanFree;
    if sig in s.book.swept {
      FinalizeAgrees(s.book, h.deposits, sig);
      DropAgrees(s.book, h.deposits, sig);
    }
  }

  /** The parts of the invariant that only depend on the signature and its outcome. */
  lemma OutcomeKeeps(s: MinterState, s': MinterState, h: History, h': History, sig: Signature, st: WithdrawalStage)
    requires Inv(s, h) && s.submitted.Has(sig) && (st == HasSucceeded(sig) || st == HasFailed(sig))
    requires s'.pending == s.pending && s'.created == s.created && s'.createdTxs == s.createdTxs
    requires s'.sent == s.sent - SentBy(s.sent, sig).Keys
    requires s'.successful == if st.HasSucceeded? then s.successful + SentBy(s.sent, sig) else s.successful
    requires s'.failed == if st.HasFailed? then s.failed + SentBy(s.sent, sig) else s.failed
    requires s'.submitted == s.submitted.Remove(sig)
    requires s'.succeededTxs == if st.HasSucceeded? then s.succeededTxs + {sig} else s.succeededTxs
    requires s'.failedTxs == if st.HasFailed? then s.failedTxs.Insert(sig, s.submitted.values[sig]) else s.failedTxs
    requires s'.book.swept.Keys == s.book.swept.Keys - {sig}
    requires s'.book.finalized.Keys <= if st.HasSucceeded? then s.book.finalized.Keys + {sig} else s.book.finalized.Keys
    requires h'.withdrawals == Restaged(h.withdrawals, SentWith(h.withdrawals, sig), st)
    ensures Buckets(s', h'.withdrawals) && Listed(s'.createdTxs, h'.withdrawals) && TxsAgree(s', h')
    ensures WithdrawalsFollow(h.withdrawals, h'.withdrawals)
  {
    hide Agrees, Buckets, Listed, Keyed, TxsAgree, NoncesAgree, WithdrawalsFollow, Restaged, SentWith, SentBy;
    OutcomeBuckets(s, s', h.withdrawals, sig, st);
    OutcomeListed(s.createdTxs, h.withdrawals, sig, st);
    OutcomeTxs(s, s', h, h', sig, st);
  }

  lemma SucceedKeeps(s: MinterState, h: History, sig: Signature)
    requires Inv(s, h) && CanSucceed(s, sig)
    ensures var h' := Resolved(s, h, sig, HasSucceeded(sig), Finalized);
            Inv(Succeeded(s, sig), h') && HistoryFollows(h, h')
  {
    SubmittedIs(s, h, sig);
    if s.submitted.values[sig].SweepTx? {
      SweepSucceedKeeps(s, h, sig);
    } else {
      WithdrawalOutcomeKeeps(s, Succeeded(s, sig), h, sig, HasSucceeded(sig));
    }
  }

  lemma FailKeeps(s: MinterState, h: History, sig: Signature)
    requires Inv(s, h) && CanFail(s, sig)
    ensures var h' := Resolved(s, h, sig, HasFailed(sig), Dropped);
            Inv(FailedBy(s, sig), h') && HistoryFollows(h, h')
  {
    SubmittedIs(s, h, sig);
    if s.submitted.values[sig].SweepTx? {
      SweepFailKeeps(s, h, sig);
    } else {
      WithdrawalOutcomeKeeps(s, FailedBy(s, sig), h, sig, HasFailed(sig));
    }
  }

  lemma SweepSucceedKeeps(s: MinterState, h: History, sig: Signature)
    requires Inv(s, h) && CanSucceed(s, sig) && s.submitted.values[sig].SweepTx? && sig in s.book.swept
    requires sig !in s.book.finalized
    ensures var h' := Resolved(s, h, sig, HasSucceeded(sig), Finalized);
            Inv(Succeeded(s, sig), h') && HistoryFollows(h, h')
  {
    hide Agrees, Buckets, Listed, Keyed, TxsAgree, Occupied, NoncesSeen, Follows, WithdrawalsFollow, CanFinalize,
         Restaged, SentWith, SentBy, MovedTo;
    var s', h' := Succeeded(s, sig), Resolved(s, h, sig, HasSucceeded(sig), Finalized);
    RemoveNonces(s.pool, s.createdTxs, s.submitted.values, h.holder, sig);
    FinalizeAgrees(s.book, h.deposits, sig);
    MovedOrigin(h.deposits, s.book.swept[sig].deposits.Keys, Finalized);
    FinalizeKeyed(s.key, s.createdTxs, h.deposits.origin, s.book.swept, s.book.finalized, sig);
    OutcomeKeeps(s, s', h, h', sig, HasSucceeded(sig));
  }

  lemma SweepFailKeeps(s: MinterState, h: History, sig: Signature)
    requires Inv(s, h) && CanFail(s, sig) && s.submitted.values[sig].SweepTx? && sig in s.book.swept
    ensures var h' := Resolved(s, h, sig, HasFailed(sig), Dropped);
            Inv(FailedBy(s, sig), h') && HistoryFollows(h, h')
  {
    hide Agrees, Buckets, Listed, Keyed, TxsAgree, Occupied, NoncesSeen, Follows, WithdrawalsFollow, CanDropSwept,
         Restaged, SentWith, SentBy, MovedTo;
    var s', h' := FailedBy(s, sig), Resolved(s, h, sig, HasFailed(sig), Dropped);
    RemoveNonces(s.pool, s.createdTxs, s.submitted.values, h.holder, sig);
    DropAgrees(s.book, h.deposits, sig);
    MovedOrigin(h.deposits, s.book.swept[sig].deposits.Keys, Dropped);
    FinalizeKeyed(s.key, s.createdTxs, h.deposits.origin, s.book.swept, s.book.finalized, sig);
    OutcomeKeeps(s, s', h, h', sig, HasFailed(sig));
  }

  lemma WithdrawalOutcomeKeeps(s: MinterState, s': MinterState, h: History, sig: Signature, st: WithdrawalStage)
    requires Inv(s, h) && s.submitted.Has(sig) && s.submitted.values[sig].WithdrawalTx? && sig !in s.book.swept
    requires (st == HasSucceeded(sig) && CanSucceed(s, sig) && s' == Succeeded(s, sig))
          || (st == HasFailed(sig) && CanFail(s, sig) && s' == FailedBy(s, sig))
    ensures var h' := Resolved(s, h, sig, st, Dropped); Inv(s', h') && HistoryFollows(h, h')
  {
    hide Agrees, Buckets, Listed, Keyed, TxsAgree, Occupied, NoncesSeen, Follows, WithdrawalsFollow,
         Restaged, SentWith, SentBy, MovedTo;
    var h' := Resolved(s, h, sig, st, Dropped);
    RemoveNonces(s.pool, s.createdTxs, s.submitted.values, h.holder, sig);
    DepositsStay(h.deposits);
    OutcomeKeeps(s, s', h, h', sig, st);
  }

  lemma ExpireTxs(s: MinterState, s': MinterState, h: History, h': History, sig: Signature)
    requires TxsAgree(s, h) && s.submitted.Has(sig) && s.submitted.values[sig].SweepTx?
    requires s'.submitted == s.submitted.Remove(sig) && s'.succeededTxs == s.succeededTxs && s'.failedTxs == s.failedTxs
    requires s'.book.swept.Keys == s.book.swept.Keys - {sig} && s'.book.finalized == s.book.finalized
    requires h'.withdrawals == h.withdrawals
    ensures TxsAgree(s', h')
  {
    hide OrderedMap<Signature, MinterTransaction>.Valid, Witnessed;
    s.submitted.RemoveValid(sig);
    OutcomeWitnessed(h.withdrawals, s.submitted.values, s.succeededTxs, s.failedTxs.values.Keys, sig, HasFailed(sig));
  }

  lemma ExpireKeeps(s: MinterState, h: History, sig: Signature)
    requires Inv(s, h) && CanExpire(s, sig)
    ensures var t := MovedTo(h.deposits, s.book.swept[sig].deposits.Keys, Dropped);
            Inv(Expired(s, sig), h.(deposits := t)) && Follows(h.deposits, t)
  {
    SubmittedIs(s, h, sig);
    hide Agrees, Buckets, Listed, Keyed, TxsAgree, Occupied, NoncesSeen, Follows, CanDropSwept, MovedTo;
    var s', t := Expired(s, sig), MovedTo(h.deposits, s.book.swept[sig].deposits.Keys, Dropped);
    DropAgrees(s.book, h.deposits, sig);
    MovedOrigin(h.deposits, s.book.swept[sig].deposits.Keys, Dropped);
    FinalizeKeyed(s.key, s.createdTxs, h.deposits.origin, s.book.swept, s.book.finalized, sig);
    RemoveNonces(s.pool, s.createdTxs, s.submitted.values, h.holder, sig);
    SameBuckets(s, s', h.withdrawals);
    ExpireTxs(s, s', h, h.(deposits := t), sig);
  }

  // ---------- every event, every run ----------

  /** Every event keeps the invariant, and no deposit or withdrawal ever moves back. */
  lemma EventKeeps(s: MinterState, h: History, e: Event, now: Timestamp)
    requires Inv(s, h) && CanApply(s, e) && Admissible(s, h, e)
    ensures Inv(Apply(s, e, now), After(s, h, e, now)) && HistoryFollows(h, After(s, h, e, now))
  {
    DepositsStay(h.deposits);
    WithdrawalsStay(h.withdrawals);
    hide Inv, Follows, WithdrawalsFollow, Upgraded, Accepted, Sent, Succeeded, FailedBy, Expired, Queue, SweepCredited,
         QuarantineSweep, Mint, QuarantineMint, Created, Arrival, Restaged, SweptUp, MovedTo, Arrived, Resolved,
         CanUpgrade, CanSucceed, CanFail, CanExpire, CanCreditSweep, CanCreate, CanSend, CanSweep, SweepQueued;
    match e
    case Upgrade(a) => UpgradeKeeps(s, h, a);
    case AcceptedWithdrawalRequest(r) => AcceptKeeps(s, h, r, now);
    case SubmittedTransaction(sig, message, signers, purpose) => SubmitKeeps(s, h, sig, message, signers, purpose, now);
    case SucceededTransaction(sig) => SucceedKeeps(s, h, sig);
    case FailedTransaction(sig) => FailKeeps(s, h, sig);
    case ExpiredTransaction(sig) => ExpireKeeps(s, h, sig);
    case QueuedDepositEvent(id, d) => QueueKeeps(s, h, id, d, now);
    case CreditedSweep(sig, amount, mints) => CreditKeeps(s, h, sig, amount, mints, now);
    case QuarantinedSweep(sig) => QuarantineSweepKeeps(s, h, sig);
    case MinterPublicKeyFetched(key) => KeyKeeps(s, h, key);
    case MintedSweptDeposit(id, index) => MintKeeps(s, h, id, index);
    case QuarantinedPendingMint(id) => QuarantineMintKeeps(s, h, id);
    case CreatedWithdrawalTransaction(burns, a, nonce) => CreateKeeps(s, h, burns, a, nonce);
  }

  lemma SubmitKeeps(s: MinterState, h: History, sig: Signature, message: Message, signers: seq<Signer>, purpose: Purpose,
                    now: Timestamp)
    requires Inv(s, h) && CanSubmit(s, sig, message, signers, purpose)
    ensures var e := SubmittedTransaction(sig, message, signers, purpose);
            && CanApply(s, e) && Inv(Apply(s, e, now), After(s, h, e, now))
            && HistoryFollows(h, After(s, h, e, now))
  {
    DepositsStay(h.deposits);
    WithdrawalsStay(h.withdrawals);
    hide Inv, Follows, WithdrawalsFollow, Sent, Restaged, SweptUp, CanSweep, SweepQueued;
    match purpose
    case Withdrawal(burns) => SendKeeps(s, h, sig, message, signers, burns, now);
    case SweepDeposit(ids, height) =>
      SweepSubmitKeeps(s, h, sig, message, ids, height, Submitted(s, sig, message, signers, purpose, now));
  }

  const EMPTY_HISTORY: History := History(EMPTY_TRACE, map[], map[])

  lemma InitialInv(a: InitArgs)
    requires CanInit(a)
    ensures Inv(InitialState(a), EMPTY_HISTORY)
  {
    hide Agrees, Buckets, Listed, TxsAgree, NoncesAgree;
    var s := InitialState(a);
    EmptyAgrees();
    InitialBuckets(s);
    InitialTxs(s);
  }

  lemma InitialBuckets(s: MinterState)
    requires s.pending == s.created == map[] && s.sent == s.successful == s.failed == map[]
    requires s.createdTxs == map[] && s.submitted.values == map[] && forall x | x in s.pool :: !s.pool[x].bound
    ensures Buckets(s, map[]) && Listed(s.createdTxs, map[]) && NoncesAgree(s, EMPTY_HISTORY)
  {
    forall x, i ensures Lists(s.createdTxs, x, i) <==> CreatedOn(map[], i, x) {}
    forall x, sig ensures InFlightOn(s.submitted.values, sig, x) <==> HeldFor(map[], x, sig) {}
  }

  lemma InitialTxs(s: MinterState)
    requires s.submitted == OrderedMap([], map[]) && s.failedTxs == OrderedMap([], map[]) && s.succeededTxs == {}
    requires s.book == EMPTY_BOOK
    ensures TxsAgree(s, EMPTY_HISTORY)
  {}

  /** A log whose every event was admissible when it was recorded, with its history. */
  ghost predicate Runs(log: seq<LoggedEvent>, h: History)
    decreases |log|
  {
    if |log| <= 1 then Replay(log).Some? && h == EMPTY_HISTORY
    else
      var n := |log| - 1;
      && Replay(log).Some? && Replay(log[..n]).Some?
      && exists h0 :: RunStep(log, h0, h)
  }

  ghost predicate RunStep(log: seq<LoggedEvent>, h0: History, h: History)
    requires |log| > 1 && Replay(log).Some? && Replay(log[..|log| - 1]).Some?
    decreases |log|, 0
  {
    var n := |log| - 1;
    var s := Replay(log[..n]).value;
    Runs(log[..n], h0) && Admissible(s, h0, log[n].payload) && h == After(s, h0, log[n].payload, log[n].timestamp)
  }

  /** The invariant holds in every state any run reaches. */
  lemma {:induction false} ReachableInv(log: seq<LoggedEvent>, h: History)
    requires Runs(log, h)
    ensures Replay(log).Some? && Inv(Replay(log).value, h)
    decreases |log|
  {
    hide Inv, Apply, After, CanApply, Admissible, CanInit, InitialState;
    if |log| == 1 {
      InitialInv(log[0].payload.initArgs);
    } else {
      var n := |log| - 1;
      var h0 :| RunStep(log, h0, h);
      ReachableInv(log[..n], h0);
      EventKeeps(Replay(log[..n]).value, h0, log[n].payload, log[n].timestamp);
    }
  }

  /** In every run, each deposit id given out so far is in exactly one stage, its status is that
      stage, and looking up the deposit in flight of an account never traps. */
  lemma DepositsAreInOneStage(log: seq<LoggedEvent>, h: History, id: DepositId, a: Account)
    requires Runs(log, h)
    ensures Replay(log).Some?
    ensures Listings(Replay(log).value.book, id) == if id < Replay(log).value.book.nextId then 1 else 0
    ensures StatusOf(Replay(log).value.book, id) == StatusNotFound <==> id >= Replay(log).value.book.nextId
    ensures InFlightOf(Replay(log).value.book, a) != InFlightTrap
  {
    hide Runs, Agrees, Buckets, Listed, TxsAgree, NoncesAgree, Keyed, Replay, Listings, StatusOf, InFlightOf;
    ReachableInv(log, h);
    var b := Replay(log).value.book;
    ExactlyOneStage(b, h.deposits, id);
    StatusAgrees(b, h.deposits, id);
    InFlightNeverTraps(b, h.deposits, a);
  }

  /** In every run, each accepted withdrawal is in exactly one bucket and its status is the stage
      it reached; recording the outcome of a submitted transaction never traps. */
  lemma WithdrawalsAreInOneBucket(log: seq<LoggedEvent>, h: History, i: BurnIndex, sig: Signature)
    requires Runs(log, h)
    ensures Replay(log).Some?
    ensures BucketsHolding(Replay(log).value, i) == if i in h.withdrawals then 1 else 0
    ensures i in h.withdrawals ==> WithdrawalStatusOf(Replay(log).value, i) == StageStatus(h.withdrawals[i].stage)
    ensures Replay(log).value.submitted.Has(sig) ==> CanSucceed(Replay(log).value, sig) && CanFail(Replay(log).value, sig)
  {
    hide Runs, Agrees, Buckets, Listed, TxsAgree, NoncesAgree, Keyed, Replay, CanSucceed, CanFail, BucketsHolding,
         WithdrawalStatusOf;
    ReachableInv(log, h);
    var s := Replay(log).value;
    StatusIsStage(s, h.withdrawals, i);
    if s.submitted.Has(sig) {
      OutcomeNeverTraps(s, h, sig);
    }
  }
}
