/** The withdrawal protocol: creating, signing, recording, landing and finalizing durable-nonce
    transactions, interleaved with every other event, lagging reads, signing failures, lost
    recordings and restarts (minter/src/withdraw/mod.rs, minter/src/monitor/withdrawals.rs). */
module WithdrawalProtocol {
  import opened Prelude
  import opened Solana
  import opened InsertionOrdered
  import opened NoncePool
  import opened NonceChain
  import opened Sweeps
  import opened ScanSchedule
  import opened DepositBook
  import opened DepositLifecycle
  import opened Minter
  import opened WithdrawalRecords
  import opened MinterRuns

  // ---------- what each slot pays ----------

  function TransfersFor(w: Withdrawals, burns: seq<BurnIndex>): seq<(Address, Lamport)>
    requires forall b | b in burns :: b in w
  {
    seq(|burns|, i requires 0 <= i < |burns| =>
      (w[burns[i]].request.solanaAddress, w[burns[i]].request.amountToTransfer))
  }

  /** The requests bound to each slot, and the slot each request was bound to. */
  datatype Ledger = Ledger(burns: map<Slot, seq<BurnIndex>>, slot: map<BurnIndex, Slot>)

  ghost predicate InSlot(burns: map<Slot, seq<BurnIndex>>, k: Slot, i: BurnIndex) {
    k in burns && i in burns[k]
  }

  ghost predicate BoundIn(slot: map<BurnIndex, Slot>, i: BurnIndex, k: Slot) {
    i in slot && slot[i] == k
  }

  /** Every request that left the pending bucket is bound to exactly one slot. */
  ghost predicate Partition(l: Ledger, w: Withdrawals) {
    && (forall k, i :: InSlot(l.burns, k, i) <==> BoundIn(l.slot, i, k))
    && (forall i :: i in l.slot <==> i in w && !w[i].stage.IsPending?)
  }

  /** The message of a slot pays exactly the requests bound to it, once each. */
  ghost predicate Pays(key: Option<SchnorrPublicKey>, l: Ledger, w: Withdrawals, bindings: map<Slot, Message>) {
    && l.burns.Keys == bindings.Keys
    && forall k | k in l.burns ::
         && key.Some? && Distinct(l.burns[k]) && (forall i | i in l.burns[k] :: i in w)
         && bindings[k] == WithdrawalMessage(MinterAddress(key.value), k.account, k.nonce, TransfersFor(w, l.burns[k]))
  }

  /** Created transactions are the bound accounts' messages not recorded as submitted yet. */
  ghost predicate CreatedTied(created: map<Address, CreatedTx>, l: Ledger, bound: map<Address, Hash>) {
    forall a | a in created ::
      && a in bound && bound[a] == created[a].nonceValue
      && Slot(a, bound[a]) in l.burns && l.burns[Slot(a, bound[a])] == created[a].burnIndices
  }

  ghost predicate TxTied(tx: MinterTransaction, c: Chain)
    requires tx.WithdrawalTx?
  {
    && tx.nonceAccount in c.bound && c.bound[tx.nonceAccount] == tx.nonceValue
    && Slot(tx.nonceAccount, tx.nonceValue) in c.bindings
    && tx.message == c.bindings[Slot(tx.nonceAccount, tx.nonceValue)] && tx.message in c.signed
  }

  /** A submitted withdrawal is the signed message its account is bound to. */
  ghost predicate SubmittedTied(txs: Txs, c: Chain) {
    forall sig | sig in txs && txs[sig].WithdrawalTx? :: TxTied(txs[sig], c)
  }

  /** Where a withdrawal stands on chain. */
  ghost predicate StageTied(st: WithdrawalStage, i: BurnIndex, l: Ledger, txs: Txs, landed: map<Slot, Execution>) {
    match st
    case IsPending => true
    case IsCreated(_) => true
    case IsSent(sig) =>
      && sig in txs && txs[sig].WithdrawalTx?
      && BoundIn(l.slot, i, Slot(txs[sig].nonceAccount, txs[sig].nonceValue))
    case HasSucceeded(_) => i in l.slot && l.slot[i] in landed && landed[l.slot[i]].ok
    case HasFailed(_) => i in l.slot && l.slot[i] in landed && !landed[l.slot[i]].ok
  }

  ghost predicate StagesTied(w: Withdrawals, l: Ledger, txs: Txs, landed: map<Slot, Execution>) {
    forall i | i in w :: StageTied(w[i].stage, i, l, txs, landed)
  }

  ghost predicate Tied(s: MinterState, w: Withdrawals, c: Chain, l: Ledger) {
    && Partition(l, w) && Pays(s.key, l, w, c.bindings)
    && CreatedTied(s.createdTxs, l, c.bound) && SubmittedTied(s.submitted.values, c)
    && StagesTied(w, l, s.submitted.values, c.landed)
  }

  /** The minter, what it has done, the chain, and which slot pays which request. */
  datatype World = World(s: MinterState, h: History, c: Chain, l: Ledger)

  ghost predicate WorldInv(x: World) {
    Inv(x.s, x.h) && ChainOk(x.s.pool, x.c) && Tied(x.s, x.h.withdrawals, x.c, x.l)
  }

  // ---------- the chain moves ----------

  ghost predicate Lands(x: World, x': World, m: Message, next: Hash, ok: bool) {
    CanLand(x.c, m, next) && x' == x.(c := LandedAt(x.c, m, next, ok))
  }

  lemma LandStep(x: World, x': World, m: Message, next: Hash, ok: bool)
    requires WorldInv(x) && Lands(x, x', m, next, ok)
    ensures WorldInv(x')
  {
    hide Inv, ChainOk, Partition, Pays, CreatedTied;
    LandKeeps(x.s.pool, x.c, m, next, ok);
  }

  // ---------- signing ----------

  /** A signature was produced for the message an account is bound to. */
  ghost predicate Signs(x: World, x': World, a: Address) {
    && a in x.s.createdTxs && a in x.c.bound && Slot(a, x.c.bound[a]) in x.c.bindings
    && x' == x.(c := x.c.(signed := x.c.signed + {x.c.bindings[Slot(a, x.c.bound[a])]}))
  }

  lemma SignStep(x: World, x': World, a: Address)
    requires WorldInv(x) && Signs(x, x', a)
    ensures WorldInv(x')
  {
    hide Inv, ChainOk, Partition, Pays, CreatedTied, StagesTied;
    SignKeeps(x.s.pool, x.c, a);
  }

  // ---------- the message of a created transaction ----------

  lemma TransfersAgree(created: map<BurnIndex, PendingWithdrawal>, w: Withdrawals, burns: seq<BurnIndex>)
    requires UnsentRecorded(created, w) && forall b | b in burns :: b in created
    ensures (forall b | b in burns :: b in w) && Transfers(created, burns) == TransfersFor(w, burns)
  {}

  /** The requests of a created transaction are in the created bucket. */
  lemma CreatedListed(s: MinterState, h: History, a: Address)
    requires Inv(s, h) && a in s.createdTxs
    ensures Distinct(s.createdTxs[a].burnIndices) && 1 <= |s.createdTxs[a].burnIndices| <= MAX_WITHDRAWALS_PER_NONCE_TX
    ensures forall b | b in s.createdTxs[a].burnIndices :: b in s.created && b !in s.sent && b in h.withdrawals
    ensures s.key.Some?
  {
    hide Agrees, TxsAgree, NoncesAgree, RecordsAgree, Derived, Destined;
    var w := h.withdrawals;
    forall b | b in s.createdTxs[a].burnIndices ensures b in s.created.Keys && b !in s.sent.Keys && b in w {
      assert Lists(s.createdTxs, a, b) <==> CreatedOn(w, b, a);
    }
    assert a in s.createdTxs.Keys;
  }

  /** Rebuilding the message of a created transaction always gives the message it was bound to,
      and it fits into a transaction. */
  lemma RebuiltMessage(x: World, a: Address)
    requires WorldInv(x) && a in x.s.createdTxs
    ensures x.s.key.Some? && forall b | b in x.s.createdTxs[a].burnIndices :: b in x.s.created
    ensures a in x.c.bound && Slot(a, x.c.bound[a]) in x.c.bindings
    ensures var m := BoundMessage(x.s.key.value, x.s.created, a, x.s.createdTxs[a]);
            m == x.c.bindings[Slot(a, x.c.bound[a])] && TransactionSize(m) <= MAX_TX_SIZE
  {
    CreatedListed(x.s, x.h, a);
    var tx := x.s.createdTxs[a];
    assert UnsentRecorded(x.s.created, x.h.withdrawals) by {
      hide Agrees, Listed, TxsAgree, NoncesAgree, Keyed;
    }
    hide Inv, ChainOk, Partition, SubmittedTied, StagesTied, TransactionSize, WithdrawalMessage, UnsentRecorded;
    TransfersAgree(x.s.created, x.h.withdrawals, tx.burnIndices);
    WithdrawalFits(MinterAddress(x.s.key.value), a, tx.nonceValue, Transfers(x.s.created, tx.burnIndices));
  }

  // ---------- creating ----------

  ghost function LedgerWith(l: Ledger, k: Slot, burns: seq<BurnIndex>): Ledger {
    Ledger(l.burns[k := burns], l.slot + map i | i in burns :: k)
  }

  /** A transaction is created for a free account with a value read from it and not seen before. */
  ghost predicate Creates(x: World, x': World, burns: seq<BurnIndex>, a: Address, v: Hash, now: Timestamp) {
    var e := CreatedWithdrawalTransaction(burns, a, v);
    && CanApply(x.s, e) && Admissible(x.s, x.h, e)
    && a in x.c.history && v in x.c.history[a]
    && (forall b | b in burns :: b in x.h.withdrawals)
    && var m := WithdrawalMessage(MinterAddress(x.s.key.value), a, v, TransfersFor(x.h.withdrawals, burns));
       x' == World(Apply(x.s, e, now), MinterRuns.After(x.s, x.h, e, now), BoundAt(x.c, a, v, m),
                   LedgerWith(x.l, Slot(a, v), burns))
  }

  lemma CreatePartition(l: Ledger, w: Withdrawals, k: Slot, burns: seq<BurnIndex>, a: Address)
    requires Partition(l, w) && k !in l.burns && AllIn(w, Elems(burns), PendingBucket)
    ensures Partition(LedgerWith(l, k, burns), Restaged(w, Elems(burns), IsCreated(a)))
  {
    var l', w' := LedgerWith(l, k, burns), Restaged(w, Elems(burns), IsCreated(a));
    forall x, i ensures InSlot(l'.burns, x, i) <==> BoundIn(l'.slot, i, x) {
      assert InSlot(l.burns, x, i) <==> BoundIn(l.slot, i, x);
      assert InSlot(l.burns, k, i) <==> BoundIn(l.slot, i, k);
      assert i in burns <==> i in Elems(burns);
    }
    assert forall i | i in burns :: i in Elems(burns);
    assert forall i | i in Elems(burns) :: i in burns;
  }

  /** Requests are immutable, so the messages that pay them are. */
  ghost predicate SameRequests(w: Withdrawals, w': Withdrawals) {
    forall i | i in w :: i in w' && w'[i].request == w[i].request
  }

  lemma TransfersStay(w: Withdrawals, w': Withdrawals, burns: seq<BurnIndex>)
    requires SameRequests(w, w') && forall b | b in burns :: b in w
    ensures (forall b | b in burns :: b in w') && TransfersFor(w', burns) == TransfersFor(w, burns)
  {}

  lemma PaysStays(key: Option<SchnorrPublicKey>, key': Option<SchnorrPublicKey>, l: Ledger, w: Withdrawals, w': Withdrawals,
                  bindings: map<Slot, Message>)
    requires Pays(key, l, w, bindings) && SameRequests(w, w') && (key.Some? ==> key' == key)
    ensures Pays(key', l, w', bindings)
  {
    hide WithdrawalMessage;
    forall k | k in l.burns
      ensures (forall i | i in l.burns[k] :: i in w') && TransfersFor(w', l.burns[k]) == TransfersFor(w, l.burns[k])
    {
      TransfersStay(w, w', l.burns[k]);
    }
  }

  lemma CreatePays(key: Option<SchnorrPublicKey>, l: Ledger, w: Withdrawals, bindings: map<Slot, Message>, k: Slot,
                   burns: seq<BurnIndex>)
    requires Pays(key, l, w, bindings) && key.Some? && Distinct(burns) && forall b | b in burns :: b in w
    ensures Pays(key, LedgerWith(l, k, burns), w,
                 bindings[k := WithdrawalMessage(MinterAddress(key.value), k.account, k.nonce, TransfersFor(w, burns))])
  {
    hide WithdrawalMessage;
  }

  lemma RestageSame(w: Withdrawals, ids: set<BurnIndex>, st: WithdrawalStage)
    ensures SameRequests(w, Restaged(w, ids, st))
  {}

  lemma CreateCreatedTied(created: map<Address, CreatedTx>, l: Ledger, bound: map<Address, Hash>, a: Address, v: Hash,
                          burns: seq<BurnIndex>)
    requires CreatedTied(created, l, bound)
    ensures CreatedTied(created[a := CreatedTx(v, burns)], LedgerWith(l, Slot(a, v), burns), bound[a := v])
  {}

  lemma CreateSubmittedTied(txs: Txs, c: Chain, a: Address, v: Hash, m: Message)
    requires SubmittedTied(txs, c) && a !in c.bound && Slot(a, v) !in c.bindings
    ensures SubmittedTied(txs, BoundAt(c, a, v, m))
  {
    forall sig | sig in txs && txs[sig].WithdrawalTx? ensures TxTied(txs[sig], BoundAt(c, a, v, m)) {
      assert TxTied(txs[sig], c);
    }
  }

  lemma CreateStagesTied(w: Withdrawals, l: Ledger, txs: Txs, landed: map<Slot, Execution>, k: Slot, burns: seq<BurnIndex>,
                         a: Address)
    requires StagesTied(w, l, txs, landed) && AllIn(w, Elems(burns), PendingBucket)
    ensures StagesTied(Restaged(w, Elems(burns), IsCreated(a)), LedgerWith(l, k, burns), txs, landed)
  {
    var w', l' := Restaged(w, Elems(burns), IsCreated(a)), LedgerWith(l, k, burns);
    forall i | i in w' ensures StageTied(w'[i].stage, i, l', txs, landed) {
      assert StageTied(w[i].stage, i, l, txs, landed);
      assert i in burns <==> i in Elems(burns);
    }
  }

  lemma FreeUnbound(pool: Pool, c: Chain, a: Address, v: Hash)
    requires ChainOk(pool, c) && CanBind(pool, a, v)
    ensures a !in c.bound && Slot(a, v) !in c.bindings
  {
    hide SignedAgree, LandedAgree, InStep;
    AccountInStep(pool, c.history, c.bound, a);
    FreeHasNone(pool[a], c.history[a], BoundTo(c.bound, a));
  }

  lemma FreeHasNone(account: NonceAccount, h: seq<Hash>, bound: Option<Hash>)
    requires InStep(account, h, bound) && !account.bound
    ensures bound == None
  {}

  lemma WithdrawalSlot(minter: Address, a: Address, v: Hash, transfers: seq<(Address, Lamport)>)
    ensures var m := WithdrawalMessage(minter, a, v, transfers); AdvancedNonceAccount(m).Some? && SlotOf(m) == Slot(a, v)
  {}

  /** Creating a transaction keeps the invariant; the value it is bound to is the current one. */
  lemma CreateStep(x: World, x': World, burns: seq<BurnIndex>, a: Address, v: Hash, now: Timestamp)
    requires WorldInv(x) && Creates(x, x', burns, a, v, now)
    ensures WorldInv(x') && v == Last(x.c.history[a])
  {
    hide Inv, ChainOk, Tied, CanCreate, WithdrawalMessage, TransfersFor, Created, Restaged, LedgerWith;
    EventKeeps(x.s, x.h, CreatedWithdrawalTransaction(burns, a, v), now);
    CreateTied(x.s, x.h, x.c, x.l, burns, a, v);
    var m := WithdrawalMessage(MinterAddress(x.s.key.value), a, v, TransfersFor(x.h.withdrawals, burns));
    WithdrawalSlot(MinterAddress(x.s.key.value), a, v, TransfersFor(x.h.withdrawals, burns));
    CanBindOf(x.s, burns, a, v);
    BindKeeps(x.s.pool, x.c, a, v, m);
  }

  lemma CanBindOf(s: MinterState, burns: seq<BurnIndex>, a: Address, v: Hash)
    requires CanCreate(s, burns, a, v)
    ensures CanBind(s.pool, a, v) && Created(s, burns, a, v).pool == Bound(s.pool, a, v)
  {
    hide CostOf, PickedRequests;
  }

  lemma CreateTied(s: MinterState, h: History, c: Chain, l: Ledger, burns: seq<BurnIndex>, a: Address, v: Hash)
    requires Inv(s, h) && ChainOk(s.pool, c) && Tied(s, h.withdrawals, c, l) && CanCreate(s, burns, a, v) && s.key.Some?
    requires forall b | b in burns :: b in h.withdrawals
    ensures var m := WithdrawalMessage(MinterAddress(s.key.value), a, v, TransfersFor(h.withdrawals, burns));
            Tied(Created(s, burns, a, v), Restaged(h.withdrawals, Elems(burns), IsCreated(a)), BoundAt(c, a, v, m),
                 LedgerWith(l, Slot(a, v), burns))
  {
    hide Agrees, Listed, TxsAgree, NoncesAgree, Keyed, RecordsAgree, KeysAt, Partition, Pays, CreatedTied, SubmittedTied,
         StagesTied, ChainOk, WithdrawalMessage, TransfersFor, Restaged, LedgerWith, AllIn, CostOf, PickedRequests;
    var w, k := h.withdrawals, Slot(a, v);
    var m := WithdrawalMessage(MinterAddress(s.key.value), a, v, TransfersFor(w, burns));
    FreeUnbound(s.pool, c, a, v);
    SlotUnused(s.key, l, w, c.bindings, k);
    TakenFrom(s.pending.Keys, w, PendingBucket, Elems(burns));
    CreatePartition(l, w, k, burns, a);
    CreatePays(s.key, l, w, c.bindings, k, burns);
    RestageSame(w, Elems(burns), IsCreated(a));
    PaysStays(s.key, s.key, LedgerWith(l, k, burns), w, Restaged(w, Elems(burns), IsCreated(a)), c.bindings[k := m]);
    CreateCreatedTied(s.createdTxs, l, c.bound, a, v, burns);
    CreateSubmittedTied(s.submitted.values, c, a, v, m);
    CreateStagesTied(w, l, s.submitted.values, c.landed, k, burns, a);
  }

  lemma SlotUnused(key: Option<SchnorrPublicKey>, l: Ledger, w: Withdrawals, bindings: map<Slot, Message>, k: Slot)
    requires Pays(key, l, w, bindings) && k !in bindings
    ensures k !in l.burns
  {}

  // ---------- recording a signed transaction ----------

  ghost function SubmitEvent(x: World, a: Address, sig: Signature): Event
    requires a in x.s.createdTxs && a in x.c.bound && Slot(a, x.c.bound[a]) in x.c.bindings
  {
    SubmittedTransaction(sig, x.c.bindings[Slot(a, x.c.bound[a])], [SignedByMinter], Withdrawal(x.s.createdTxs[a].burnIndices))
  }

  /** The signature was not recorded before: distinct messages have distinct signatures. */
  ghost predicate FreshSignature(s: MinterState, sig: Signature) {
    sig !in s.succeededTxs && !s.failedTxs.Has(sig) && !s.submitted.Has(sig)
  }

  /** A signed transaction is recorded as submitted. */
  ghost predicate RecordsSubmission(x: World, x': World, a: Address, sig: Signature, now: Timestamp) {
    && a in x.s.createdTxs && a in x.c.bound && Slot(a, x.c.bound[a]) in x.c.bindings
    && x.c.bindings[Slot(a, x.c.bound[a])] in x.c.signed && FreshSignature(x.s, sig)
    && var e := SubmitEvent(x, a, sig);
       CanApply(x.s, e) && x' == x.(s := Apply(x.s, e, now), h := MinterRuns.After(x.s, x.h, e, now))
  }

  /** Recording the signature of a created transaction never traps. */
  lemma RecordNeverTraps(x: World, a: Address, sig: Signature)
    requires WorldInv(x) && a in x.s.createdTxs && FreshSignature(x.s, sig)
    ensures a in x.c.bound && Slot(a, x.c.bound[a]) in x.c.bindings
    ensures CanApply(x.s, SubmitEvent(x, a, sig))
  {
    hide Inv, ChainOk, Tied, TransactionSize, BoundMessage;
    RebuiltMessage(x, a);
    CreatedListed(x.s, x.h, a);
    BoundMessageSlot(x.s.key.value, x.s.created, a, x.s.createdTxs[a]);
  }

  lemma BoundMessageSlot(key: SchnorrPublicKey, created: map<BurnIndex, PendingWithdrawal>, a: Address, tx: CreatedTx)
    requires forall b | b in tx.burnIndices :: b in created
    ensures AdvancedNonceAccount(BoundMessage(key, created, a, tx)) == Some(a)
  {
    hide Transfers;
  }

  lemma SendPartition(l: Ledger, w: Withdrawals, ids: set<BurnIndex>, st: WithdrawalStage)
    requires Partition(l, w) && !st.IsPending? && forall i | i in ids && i in w :: !w[i].stage.IsPending?
    ensures Partition(l, Restaged(w, ids, st))
  {
    hide InSlot, BoundIn;
  }

  lemma SendCreatedTied(created: map<Address, CreatedTx>, l: Ledger, bound: map<Address, Hash>, a: Address)
    requires CreatedTied(created, l, bound)
    ensures CreatedTied(created - {a}, l, bound)
  {}

  lemma SendSubmittedTied(txs: Txs, c: Chain, sig: Signature, tx: MinterTransaction)
    requires SubmittedTied(txs, c) && tx.WithdrawalTx? && TxTied(tx, c)
    ensures SubmittedTied(txs[sig := tx], c)
  {
    hide TxTied;
  }

  lemma SendStagesTied(w: Withdrawals, l: Ledger, txs: Txs, landed: map<Slot, Execution>, burns: seq<BurnIndex>,
                       sig: Signature, tx: MinterTransaction)
    requires StagesTied(w, l, txs, landed) && sig !in txs && tx.WithdrawalTx?
    requires forall i | i in burns :: BoundIn(l.slot, i, Slot(tx.nonceAccount, tx.nonceValue))
    ensures StagesTied(Restaged(w, Elems(burns), IsSent(sig)), l, txs[sig := tx], landed)
  {
    var w', txs' := Restaged(w, Elems(burns), IsSent(sig)), txs[sig := tx];
    forall i | i in w' ensures StageTied(w'[i].stage, i, l, txs', landed) {
      assert StageTied(w[i].stage, i, l, txs, landed);
    }
  }

  lemma RecordStep(x: World, x': World, a: Address, sig: Signature, now: Timestamp)
    requires WorldInv(x) && RecordsSubmission(x, x', a, sig, now)
    ensures WorldInv(x')
  {
    hide Inv, ChainOk, Tied, CanSend, Sent, Restaged;
    var e := SubmitEvent(x, a, sig);
    EventKeeps(x.s, x.h, e, now);
    RecordTied(x, a, sig, now);
    BindingAccount(x.s.pool, x.c, a);
    SentPool(x.s, sig, e.message, a, now);
  }

  lemma BindingAccount(pool: Pool, c: Chain, a: Address)
    requires ChainOk(pool, c) && a in c.bound && Slot(a, c.bound[a]) in c.bindings
    ensures AdvancedNonceAccount(c.bindings[Slot(a, c.bound[a])]) == Some(a)
  {}

  lemma SentPool(s: MinterState, sig: Signature, message: Message, a: Address, now: Timestamp)
    requires a in s.createdTxs && forall b | b in s.createdTxs[a].burnIndices :: b in s.created
    ensures Sent(s, sig, message, a, now).pool == s.pool
  {
    hide SentOf;
  }

  lemma RecordTied(x: World, a: Address, sig: Signature, now: Timestamp)
    requires WorldInv(x) && a in x.s.createdTxs && FreshSignature(x.s, sig)
    requires a in x.c.bound && Slot(a, x.c.bound[a]) in x.c.bindings && x.c.bindings[Slot(a, x.c.bound[a])] in x.c.signed
    ensures forall b | b in x.s.createdTxs[a].burnIndices :: b in x.s.created
    ensures Tied(Sent(x.s, sig, x.c.bindings[Slot(a, x.c.bound[a])], a, now),
                 Restaged(x.h.withdrawals, Elems(x.s.createdTxs[a].burnIndices), IsSent(sig)), x.c, x.l)
  {
    CreatedListed(x.s, x.h, a);
    CreatedSlots(x, a);
    hide Inv, ChainOk, Partition, Pays, SubmittedTied, StagesTied, Restaged, SentOf;
    var w, burns, m := x.h.withdrawals, x.s.createdTxs[a].burnIndices, x.c.bindings[Slot(a, x.c.bound[a])];
    var tx := WithdrawalTx(m, a, x.s.createdTxs[a].nonceValue, now);
    SendPartition(x.l, w, Elems(burns), IsSent(sig));
    RestageSame(w, Elems(burns), IsSent(sig));
    PaysStays(x.s.key, x.s.key, x.l, w, Restaged(w, Elems(burns), IsSent(sig)), x.c.bindings);
    SendCreatedTied(x.s.createdTxs, x.l, x.c.bound, a);
    SendSubmittedTied(x.s.submitted.values, x.c, sig, tx);
    SendStagesTied(w, x.l, x.s.submitted.values, x.c.landed, burns, sig, tx);
  }

  /** The requests of a created transaction are bound to its slot. */
  lemma CreatedSlots(x: World, a: Address)
    requires WorldInv(x) && a in x.s.createdTxs
    ensures a in x.c.bound && x.c.bound[a] == x.s.createdTxs[a].nonceValue
    ensures forall i | i in x.s.createdTxs[a].burnIndices :: BoundIn(x.l.slot, i, Slot(a, x.c.bound[a]))
    ensures forall i | i in Elems(x.s.createdTxs[a].burnIndices) && i in x.h.withdrawals ::
              !x.h.withdrawals[i].stage.IsPending?
  {
    hide Inv, ChainOk, Pays, SubmittedTied, StagesTied;
    var k := Slot(a, x.c.bound[a]);
    forall i | i in x.s.createdTxs[a].burnIndices ensures BoundIn(x.l.slot, i, k) {
      assert InSlot(x.l.burns, k, i) <==> BoundIn(x.l.slot, i, k);
    }
    forall i | i in Elems(x.s.createdTxs[a].burnIndices) && i in x.h.withdrawals
      ensures !x.h.withdrawals[i].stage.IsPending?
    {
      assert BoundIn(x.l.slot, i, k);
    }
  }

  // ---------- finalizing a landed transaction ----------

  ghost predicate WithdrawalInFlight(s: MinterState, sig: Signature) {
    s.submitted.Has(sig) && s.submitted.values[sig].WithdrawalTx?
  }

  ghost function SlotUsed(s: MinterState, sig: Signature): Slot
    requires WithdrawalInFlight(s, sig)
  {
    Slot(s.submitted.values[sig].nonceAccount, s.submitted.values[sig].nonceValue)
  }

  ghost function OutcomeEvent(sig: Signature, success: bool): Event {
    if success then SucceededTransaction(sig) else FailedTransaction(sig)
  }

  /** A submitted withdrawal whose slot was used up is recorded with the outcome it had. */
  ghost predicate Finalizes(x: World, x': World, sig: Signature, success: bool, now: Timestamp) {
    && WithdrawalInFlight(x.s, sig) && SlotUsed(x.s, sig) in x.c.landed && x.c.landed[SlotUsed(x.s, sig)].ok == success
    && var e := OutcomeEvent(sig, success);
       && CanApply(x.s, e)
       && x' == x.(s := Apply(x.s, e, now), h := MinterRuns.After(x.s, x.h, e, now),
                   c := FreedAt(x.c, x.s.submitted.values[sig].nonceAccount))
  }

  /** Recording the outcome of a withdrawal in flight never traps. */
  lemma FinalizeNeverTraps(x: World, sig: Signature, success: bool)
    requires WorldInv(x) && WithdrawalInFlight(x.s, sig)
    ensures CanApply(x.s, OutcomeEvent(sig, success))
  {
    hide Inv, ChainOk, Tied, CanSucceed, CanFail;
    OutcomeNeverTraps(x.s, x.h, sig);
  }

  lemma FinalizeStep(x: World, x': World, sig: Signature, success: bool, now: Timestamp)
    requires WorldInv(x) && Finalizes(x, x', sig, success, now)
    ensures WorldInv(x')
  {
    hide Inv, ChainOk, Tied, CanSucceed, CanFail, Succeeded, FailedBy, Resolved;
    var e, tx := OutcomeEvent(sig, success), x.s.submitted.values[sig];
    EventKeeps(x.s, x.h, e, now);
    TxTiedAt(x, sig);
    FreeKeeps(x.s.pool, x.c, tx.nonceAccount);
    OutcomeState(x.s, sig, success, now);
    FinalizeTied(x, x'.s, sig, success);
    OutcomeHistory(x.s, x.h, sig, success, now);
  }

  lemma TxTiedAt(x: World, sig: Signature)
    requires WorldInv(x) && WithdrawalInFlight(x.s, sig)
    ensures TxTied(x.s.submitted.values[sig], x.c)
  {
    hide Inv, ChainOk, Partition, Pays, StagesTied, CreatedTied;
  }

  /** What an outcome does to the parts of the state the protocol looks at. */
  lemma OutcomeState(s: MinterState, sig: Signature, success: bool, now: Timestamp)
    requires CanApply(s, OutcomeEvent(sig, success)) && s.submitted.Has(sig)
    ensures OutcomeParts(s, Apply(s, OutcomeEvent(sig, success), now), sig)
  {
    hide Succeeded, FailedBy, CanSucceed, CanFail;
    if success {
      SucceededParts(s, sig);
    } else {
      FailedParts(s, sig);
    }
  }

  lemma OutcomeHistory(s: MinterState, h: History, sig: Signature, success: bool, now: Timestamp)
    requires CanApply(s, OutcomeEvent(sig, success)) && WithdrawalInFlight(s, sig)
    ensures MinterRuns.After(s, h, OutcomeEvent(sig, success), now).withdrawals ==
            Restaged(h.withdrawals, SentWith(h.withdrawals, sig), OutcomeStage(sig, success))
  {
    hide Restaged, SentWith;
  }

  ghost function OutcomeStage(sig: Signature, success: bool): WithdrawalStage {
    if success then HasSucceeded(sig) else HasFailed(sig)
  }

  lemma FinalizeTied(x: World, s': MinterState, sig: Signature, success: bool)
    requires WorldInv(x) && WithdrawalInFlight(x.s, sig) && SlotUsed(x.s, sig) in x.c.landed
    requires x.c.landed[SlotUsed(x.s, sig)].ok == success
    requires s'.key == x.s.key && s'.createdTxs == x.s.createdTxs && s'.submitted == x.s.submitted.Remove(sig)
    ensures var w' := Restaged(x.h.withdrawals, SentWith(x.h.withdrawals, sig), OutcomeStage(sig, success));
            Tied(s', w', FreedAt(x.c, x.s.submitted.values[sig].nonceAccount), x.l)
  {
    hide ChainOk, Agrees, Buckets, Listed, TxsAgree, NoncesSeen, Keyed, Partition, Pays, CreatedTied, SubmittedTied,
         StagesTied, Restaged;
    var w, tx, st := x.h.withdrawals, x.s.submitted.values[sig], OutcomeStage(sig, success);
    TxTiedAt(x, sig);
    SendPartition(x.l, w, SentWith(w, sig), st);
    RestageSame(w, SentWith(w, sig), st);
    PaysStays(x.s.key, x.s.key, x.l, w, Restaged(w, SentWith(w, sig), st), x.c.bindings);
    FreeCreatedTied(x.s, x.h, x.c, x.l, sig);
    FreeSubmittedTied(x.s, x.h, x.c, sig);
    OutcomeStagesTied(w, x.l, x.s.submitted.values, x.c.landed, sig, st);
  }

  lemma FreeCreatedTied(s: MinterState, h: History, c: Chain, l: Ledger, sig: Signature)
    requires Occupied(s.pool, s.createdTxs, s.submitted.values, h.holder) && WithdrawalInFlight(s, sig)
    requires CreatedTied(s.createdTxs, l, c.bound)
    ensures CreatedTied(s.createdTxs, l, c.bound - {s.submitted.values[sig].nonceAccount})
  {
    var a := s.submitted.values[sig].nonceAccount;
    assert InFlightOn(s.submitted.values, sig, a) <==> HeldFor(h.holder, a, sig);
    assert a !in s.createdTxs;
  }

  lemma FreeSubmittedTied(s: MinterState, h: History, c: Chain, sig: Signature)
    requires Occupied(s.pool, s.createdTxs, s.submitted.values, h.holder) && WithdrawalInFlight(s, sig)
    requires SubmittedTied(s.submitted.values, c)
    ensures SubmittedTied(s.submitted.values - {sig}, FreedAt(c, s.submitted.values[sig].nonceAccount))
  {
    var txs, a := s.submitted.values, s.submitted.values[sig].nonceAccount;
    assert InFlightOn(txs, sig, a) <==> HeldFor(h.holder, a, sig);
    forall other | other in txs - {sig} && txs[other].WithdrawalTx? ensures TxTied(txs[other], FreedAt(c, a)) {
      assert TxTied(txs[other], c);
      assert InFlightOn(txs, other, a) <==> HeldFor(h.holder, a, other);
    }
  }

  lemma OutcomeStagesTied(w: Withdrawals, l: Ledger, txs: Txs, landed: map<Slot, Execution>, sig: Signature, st: WithdrawalStage)
    requires StagesTied(w, l, txs, landed) && sig in txs && txs[sig].WithdrawalTx?
    requires var k := Slot(txs[sig].nonceAccount, txs[sig].nonceValue);
             k in landed && st == if landed[k].ok then HasSucceeded(sig) else HasFailed(sig)
    ensures StagesTied(Restaged(w, SentWith(w, sig), st), l, txs - {sig}, landed)
  {
    var w' := Restaged(w, SentWith(w, sig), st);
    forall i | i in w' ensures StageTied(w'[i].stage, i, l, txs - {sig}, landed) {
      assert StageTied(w[i].stage, i, l, txs, landed);
    }
  }

  // ---------- every other event ----------

  /** Not an event of the withdrawal tasks. */
  ghost predicate Outside(s: MinterState, e: Event) {
    && !e.CreatedWithdrawalTransaction?
    && !(e.SubmittedTransaction? && e.purpose.Withdrawal?)
    && !((e.SucceededTransaction? || e.FailedTransaction?) && WithdrawalInFlight(s, e.signature))
  }

  ghost predicate SameWithdrawalTxs(txs: Txs, txs': Txs) {
    && (forall sig | sig in txs && txs[sig].WithdrawalTx? :: sig in txs' && txs'[sig] == txs[sig])
    && (forall sig | sig in txs' && txs'[sig].WithdrawalTx? :: sig in txs && txs'[sig] == txs[sig])
  }

  ghost predicate Grows(w: Withdrawals, w': Withdrawals) {
    && (forall i | i in w :: i in w' && w'[i] == w[i])
    && (forall i | i in w' && i !in w :: w'[i].stage.IsPending?)
  }

  ghost predicate Framed(s: MinterState, s': MinterState, w: Withdrawals, w': Withdrawals) {
    && s'.createdTxs == s.createdTxs && (s.key.Some? ==> s'.key == s.key)
    && SameWithdrawalTxs(s.submitted.values, s'.submitted.values) && Grows(w, w')
  }

  lemma FramedTied(s: MinterState, s': MinterState, w: Withdrawals, w': Withdrawals, c: Chain, c': Chain, l: Ledger)
    requires Tied(s, w, c, l) && Framed(s, s', w, w') && c' == c.(history := c'.history)
    ensures Tied(s', w', c', l)
  {
    hide WithdrawalMessage, TransfersFor, InSlot, BoundIn;
    PaysStays(s.key, s'.key, l, w, w', c.bindings);
    assert SubmittedTied(s'.submitted.values, c') by {
      hide Pays, Partition, CreatedTied, StagesTied;
      forall sig | sig in s'.submitted.values && s'.submitted.values[sig].WithdrawalTx?
        ensures TxTied(s'.submitted.values[sig], c')
      {
        assert TxTied(s.submitted.values[sig], c);
      }
    }
    assert StagesTied(w', l, s'.submitted.values, c.landed) by {
      hide Pays, Partition, CreatedTied, SubmittedTied;
      forall i | i in w' ensures StageTied(w'[i].stage, i, l, s'.submitted.values, c.landed) {
        assert i in w ==> StageTied(w[i].stage, i, l, s.submitted.values, c.landed);
      }
    }
  }

  lemma NoneSentBySweep(w: Withdrawals, txs: Txs, succeeded: set<Signature>, failed: set<Signature>, sig: Signature,
                        st: WithdrawalStage)
    requires Witnessed(w, txs, succeeded, failed) && sig in txs && txs[sig].SweepTx?
    ensures Grows(w, Restaged(w, SentWith(w, sig), st))
  {}

  ghost function PoolAfter(s: MinterState, e: Event): Pool {
    if e.Upgrade? && e.upgradeArgs.nonceAccountsToAdd.Some? && Parses(e.upgradeArgs.nonceAccountsToAdd.value)
    then Added(s.pool, Parsed(e.upgradeArgs.nonceAccountsToAdd.value)) else s.pool
  }

  lemma SweepOutcomeFrame(s: MinterState, h: History, sig: Signature, success: bool, now: Timestamp)
    requires Inv(s, h) && CanApply(s, OutcomeEvent(sig, success)) && s.submitted.Has(sig) && s.submitted.values[sig].SweepTx?
    ensures var e := OutcomeEvent(sig, success);
            && OutcomeParts(s, Apply(s, e, now), sig)
            && Grows(h.withdrawals, MinterRuns.After(s, h, e, now).withdrawals)
  {
    hide Agrees, Buckets, Listed, NoncesAgree, Keyed, SentWith, Restaged, Grows, CanSucceed, CanFail, Apply, OutcomeParts;
    OutcomeState(s, sig, success, now);
    NoneSentBySweep(h.withdrawals, s.submitted.values, s.succeededTxs, s.failedTxs.values.Keys, sig, HasSucceeded(sig));
    NoneSentBySweep(h.withdrawals, s.submitted.values, s.succeededTxs, s.failedTxs.values.Keys, sig, HasFailed(sig));
  }

  lemma SameTxsWithout(txs: Txs, sig: Signature)
    requires sig in txs && txs[sig].SweepTx?
    ensures SameWithdrawalTxs(txs, txs - {sig})
  {}

  lemma SweepSubmitFrame(s: MinterState, h: History, e: Event, now: Timestamp)
    requires CanApply(s, e) && e.SubmittedTransaction? && e.purpose.SweepDeposit?
    ensures var s' := Apply(s, e, now);
            && Framed(s, s', h.withdrawals, MinterRuns.After(s, h, e, now).withdrawals) && s'.pool == s.pool
  {
    hide CanSubmit, CanSweep, SweepQueued, SameWithdrawalTxs, SweptUp, Submitted, Restaged;
    SubmittedParts(s, e.signature, e.message, e.signers, e.purpose, now);
    SameTxsWith(s.submitted.values, e.signature, SweepTx(e.purpose.blockHeight));
  }

  lemma SameTxsWith(txs: Txs, sig: Signature, tx: MinterTransaction)
    requires sig !in txs && tx.SweepTx?
    ensures SameWithdrawalTxs(txs, txs[sig := tx])
  {}

  lemma NothingMoves(txs: Txs, w: Withdrawals)
    ensures SameWithdrawalTxs(txs, txs) && Grows(w, w)
  {}

  lemma ArrivalGrows(w: Withdrawals, r: WithdrawalRequest, now: Timestamp)
    requires r.burnIndex !in w
    ensures Grows(w, Arrival(w, r, now))
  {}

  lemma UpgradeParses(s: MinterState, a: UpgradeArgs)
    requires CanUpgrade(s, a)
    ensures a.nonceAccountsToAdd.Some? ==> Parses(a.nonceAccountsToAdd.value)
  {}

  lemma OutsideFrame(s: MinterState, h: History, e: Event, now: Timestamp)
    requires Inv(s, h) && CanApply(s, e) && Admissible(s, h, e) && Outside(s, e)
    ensures var s' := Apply(s, e, now);
            Framed(s, s', h.withdrawals, MinterRuns.After(s, h, e, now).withdrawals) && s'.pool == PoolAfter(s, e)
  {
    hide Inv, CanUpgrade, CanSweep, CanDropSwept, CanCreditSweep, Restaged, SentWith, Succeeded, FailedBy, Submitted, Without,
         DropSwept, Credit, QuarantineSweep, Queue, Mint, QuarantineMint, Reconfigured, Added, Parsed, DepositFees,
         SameWithdrawalTxs, Grows;
    NothingMoves(s.submitted.values, h.withdrawals);
    match e
    case AcceptedWithdrawalRequest(r) => ArrivalGrows(h.withdrawals, r, now);
    case Upgrade(a) => UpgradeParses(s, a);
    case SubmittedTransaction(_, _, _, _) => SweepSubmitFrame(s, h, e, now);
    case SucceededTransaction(sig) =>
      SweepOutcomeFrame(s, h, sig, true, now);
      SameTxsWithout(s.submitted.values, sig);
    case FailedTransaction(sig) =>
      SweepOutcomeFrame(s, h, sig, false, now);
      SameTxsWithout(s.submitted.values, sig);
    case ExpiredTransaction(sig) => SameTxsWithout(s.submitted.values, sig);
    case _ =>
  }

  /** Any other event; when an upgrade adds nonce accounts, they join with their current value. */
  ghost predicate Elsewhere(x: World, x': World, e: Event, now: Timestamp) {
    && CanApply(x.s, e) && Admissible(x.s, x.h, e) && Outside(x.s, e)
    && x'.s == Apply(x.s, e, now) && x'.h == MinterRuns.After(x.s, x.h, e, now) && x'.l == x.l
    && if e.Upgrade? && e.upgradeArgs.nonceAccountsToAdd.Some?
       then Parses(e.upgradeArgs.nonceAccountsToAdd.value) &&
            Joins(x.s.pool, x.c, Parsed(e.upgradeArgs.nonceAccountsToAdd.value), x'.c)
       else x'.c == x.c
  }

  lemma ElsewhereStep(x: World, x': World, e: Event, now: Timestamp)
    requires WorldInv(x) && Elsewhere(x, x', e, now)
    ensures WorldInv(x')
  {
    hide Inv, ChainOk, Tied, CanApply, Apply, Admissible, Outside, MinterRuns.After, Framed, Parses, Parsed;
    EventKeeps(x.s, x.h, e, now);
    OutsideFrame(x.s, x.h, e, now);
    FramedTied(x.s, x'.s, x.h.withdrawals, x'.h.withdrawals, x.c, x'.c, x.l);
    if e.Upgrade? && e.upgradeArgs.nonceAccountsToAdd.Some? {
      JoinKeeps(x.s.pool, x.c, Parsed(e.upgradeArgs.nonceAccountsToAdd.value), x'.c);
    }
  }
}
