/** The state of the minter as an object that every event updates in place
    (minter/src/state/mod.rs), the application of events and the replay of a log
    (minter/src/state/audit.rs), proved to make the transitions of Minter. */
module LiveState {
  import opened Prelude
  import opened Solana
  import opened InsertionOrdered
  import opened NoncePool
  import opened Sweeps
  import opened ScanSchedule
  import opened DepositBook
  import opened DepositStages
  import opened Minter

  // ---------- helpers that only compute ----------

  method ParseNonceAccounts(texts: seq<Option<Address>>) returns (r: Option<seq<Address>>)
    ensures r.Some? <==> Parses(texts)
    ensures r.Some? ==> r.value == Parsed(texts)
  {
    var parsed := [];
    for i := 0 to |texts|
      invariant |parsed| == i
      invariant forall k | 0 <= k < i :: texts[k] == Some(parsed[k])
    {
      if texts[i].None? {
        return None;
      }
      parsed := parsed + [texts[i].value];
    }
    return Some(parsed);
  }

  ghost function FeeList(m: Batch, ids: seq<DepositId>): seq<Lamport>
    requires forall i | 0 <= i < |ids| :: ids[i] in m
  {
    seq(|ids|, i requires 0 <= i < |ids| => m[ids[i]].Fee())
  }

  lemma FeeListTotal(m: Batch)
    ensures var ids := Ascending(m.Keys);
            (forall i | 0 <= i < |ids| :: ids[i] in m) && Sum(FeeList(m, ids)) == Total(FeesOf(m))
  {
    hide Total, Sum;
    var ids := Ascending(m.Keys);
    IncreasingDistinct(ids);
    SumListing(ids, FeesOf(m));
    forall i | 0 <= i < |ids| ensures ids[i] in m {
      assert ids[i] in Elems(ids);
    }
    assert FeeList(m, ids) == seq(|ids|, i requires 0 <= i < |ids| => assert ids[i] in Elems(ids); FeesOf(m)[ids[i]]);
  }

  /** The fees recorded with the deposits of a sweep, added up in the order of the ids. */
  method AddDepositFees(m: Batch) returns (fees: Lamport)
    ensures fees == Total(FeesOf(m))
  {
    hide Total, Ascending, FeesOf, Sum;
    var ids := Ascending(m.Keys);
    FeeListTotal(m);
    ghost var list := FeeList(m, ids);
    fees := 0;
    SumEmpty(list);
    for i := 0 to |ids|
      invariant fees == Sum(list[..i])
    {
      SumStep(list, i);
      fees := fees + m[ids[i]].Fee();
    }
    assert list[..|ids|] == list;
  }

  lemma SumEmpty(list: seq<Lamport>)
    ensures Sum(list[..0]) == 0
  {}

  lemma SumStep(list: seq<Lamport>, i: nat)
    requires i < |list|
    ensures Sum(list[..i + 1]) == Sum(list[..i]) + list[i]
  {
    assert list[..i + 1] == list[..i] + [list[i]];
    SumAppend(list[..i], list[i]);
  }

  /** The transfers of the requests, in order. */
  method CollectTransfers(created: map<BurnIndex, PendingWithdrawal>, burns: seq<BurnIndex>)
    returns (transfers: seq<(Address, Lamport)>)
    requires forall b | b in burns :: b in created
    ensures transfers == Transfers(created, burns)
  {
    transfers := [];
    for i := 0 to |burns|
      invariant |transfers| == i
      invariant forall k | 0 <= k < i :: transfers[k] == Transfers(created, burns)[k]
    {
      var request := created[burns[i]].request;
      transfers := transfers + [(request.solanaAddress, request.amountToTransfer)];
    }
  }

  lemma PlusUpdate<K, V>(m: map<K, V>, n: map<K, V>, k: K, v: V)
    ensures m + n[k := v] == (m + n)[k := v]
  {}

  lemma PickedRequestsAppend(m: map<BurnIndex, PendingWithdrawal>, burns: seq<BurnIndex>, k: nat)
    requires k < |burns| && forall b | b in burns :: b in m
    ensures PickedRequests(m, burns[..k + 1]) == PickedRequests(m, burns[..k])[burns[k] := m[burns[k]]]
  {
    assert burns[..k + 1] == burns[..k] + [burns[k]];
  }

  lemma SentOfAppend(m: map<BurnIndex, PendingWithdrawal>, burns: seq<BurnIndex>, k: nat, sig: Signature)
    requires k < |burns| && forall b | b in burns :: b in m
    ensures SentOf(m, burns[..k + 1], sig) ==
            SentOf(m, burns[..k], sig)[burns[k] := SentWithdrawal(m[burns[k]].request, sig, m[burns[k]].createdAt)]
  {
    assert burns[..k + 1] == burns[..k] + [burns[k]];
  }

  lemma NonePicked(pending: map<BurnIndex, PendingWithdrawal>, created: map<BurnIndex, PendingWithdrawal>,
                   burns: seq<BurnIndex>)
    ensures pending - Elems(burns[..0]) == pending && created + PickedRequests(pending, burns[..0]) == created
    ensures Sum(TransferAmounts(pending, burns[..0])) == 0
  {}

  lemma NoneSent(created: map<BurnIndex, PendingWithdrawal>, sent: map<BurnIndex, SentWithdrawal>, burns: seq<BurnIndex>,
                 sig: Signature)
    ensures created - Elems(burns[..0]) == created && sent + SentOf(created, burns[..0], sig) == sent
  {}

  lemma TransferAmountsAppend(m: map<BurnIndex, PendingWithdrawal>, burns: seq<BurnIndex>, k: nat)
    requires k < |burns| && forall b | b in burns :: b in m
    ensures Sum(TransferAmounts(m, burns[..k + 1])) ==
            Sum(TransferAmounts(m, burns[..k])) + m[burns[k]].request.amountToTransfer
  {
    assert TransferAmounts(m, burns[..k + 1])[..k] == TransferAmounts(m, burns[..k]);
  }

  ghost predicate ExtractedSoFar(sent: map<BurnIndex, SentWithdrawal>, extracted: map<BurnIndex, SentWithdrawal>,
                                 sig: Signature, done: set<BurnIndex>) {
    && (forall i :: i in extracted <==> i in sent && i in done && sent[i].signature == sig)
    && (forall i | i in extracted :: extracted[i] == sent[i])
  }

  lemma ExtractOne(sent: map<BurnIndex, SentWithdrawal>, extracted: map<BurnIndex, SentWithdrawal>, sig: Signature,
                   done: set<BurnIndex>, id: BurnIndex)
    requires ExtractedSoFar(sent, extracted, sig, done) && id in sent
    ensures ExtractedSoFar(sent, if sent[id].signature == sig then extracted[id := sent[id]] else extracted, sig, done + {id})
  {}

  lemma ExtractAll(sent: map<BurnIndex, SentWithdrawal>, extracted: map<BurnIndex, SentWithdrawal>, sig: Signature)
    requires ExtractedSoFar(sent, extracted, sig, sent.Keys)
    ensures extracted == SentBy(sent, sig)
  {}

  /** Extracts the withdrawals sent with a signature, in the order of their burn indices. */
  method ExtractSent(sent: map<BurnIndex, SentWithdrawal>, sig: Signature)
    returns (rest: map<BurnIndex, SentWithdrawal>, extracted: map<BurnIndex, SentWithdrawal>)
    ensures extracted == SentBy(sent, sig) && rest == sent - SentBy(sent, sig).Keys
  {
    hide Ascending, SentBy;
    rest, extracted := sent, map[];
    var ids := Ascending(sent.Keys);
    var k := 0;
    while k < |ids|
      invariant 0 <= k <= |ids|
      invariant ExtractedSoFar(sent, extracted, sig, Elems(ids[..k]))
      invariant rest == sent - extracted.Keys
    {
      var id := ids[k];
      assert id in Elems(ids);
      assert ids[..k + 1] == ids[..k] + [id];
      ElemsAppend(ids[..k], id);
      ExtractOne(sent, extracted, sig, Elems(ids[..k]), id);
      if sent[id].signature == sig {
        MinusBoth(sent, extracted.Keys, id);
        rest, extracted := rest - {id}, extracted[id := sent[id]];
      }
      k := k + 1;
    }
    assert ids[..k] == ids;
    ExtractAll(sent, extracted, sig);
  }

  datatype GuardError = AlreadyProcessing | TooManyConcurrentRequests

  /** Why a guard cannot be taken, if so: the account holds one, or a hundred accounts do. */
  function GuardErrorFor(guards: set<Account>, a: Account): (error: Option<GuardError>)
    ensures error.None? <==> a !in guards && |guards + {a}| <= MAX_CONCURRENT
    ensures error == Some(AlreadyProcessing) <==> a in guards
  {
    if a in guards then Some(AlreadyProcessing)
    else if |guards| >= MAX_CONCURRENT then Some(TooManyConcurrentRequests)
    else None
  }

  method CheckGuard(guards: set<Account>, a: Account) returns (error: Option<GuardError>)
    ensures error == GuardErrorFor(guards, a)
  {
    if a in guards {
      return Some(AlreadyProcessing);
    }
    if |guards| >= MAX_CONCURRENT {
      return Some(TooManyConcurrentRequests);
    }
    return None;
  }

  class State {
    var config: Config
    var key: Option<SchnorrPublicKey>
    var collectedFees: Lamport
    var depositGuards: set<Account>
    var withdrawalGuards: set<Account>
    const deposits: Deposits
    var pending: map<BurnIndex, PendingWithdrawal>
    var created: map<BurnIndex, PendingWithdrawal>
    var sent: map<BurnIndex, SentWithdrawal>
    var successful: map<BurnIndex, SentWithdrawal>
    var failed: map<BurnIndex, SentWithdrawal>
    const submitted: InsertionOrderedMap<Signature, MinterTransaction>
    var createdTxs: map<Address, CreatedTx>
    var succeededTxs: set<Signature>
    const failedTxs: InsertionOrderedMap<Signature, MinterTransaction>
    const pool: DurableNoncePool
    var activeTasks: set<TaskType>
    var balance: Lamport

    ghost predicate Valid()
      reads this, submitted, failedTxs
    {
      submitted != failedTxs && submitted.Valid() && failedTxs.Valid()
    }

    /** The state this object stands for. */
    ghost function Value(): MinterState
      reads this, deposits, submitted, failedTxs, pool
    {
      MinterState(config, key, collectedFees, deposits.Value(), pending, created, sent, successful, failed,
                  submitted.Value(), createdTxs, succeededTxs, failedTxs.Value(), pool.accounts, balance,
                  depositGuards, withdrawalGuards, activeTasks)
    }

    /** A fresh state with no nonce account yet. */
    constructor (c: Config)
      ensures Valid() && fresh(deposits) && fresh(submitted) && fresh(failedTxs) && fresh(pool)
      ensures Value() == InitialState(InitArgs(c, []))
    {
      config, key, collectedFees, depositGuards, withdrawalGuards := c, None, 0, {}, {};
      deposits := new Deposits();
      pending, created, sent, successful, failed := map[], map[], map[], map[], map[];
      submitted := new InsertionOrderedMap();
      createdTxs, succeededTxs := map[], {};
      failedTxs := new InsertionOrderedMap();
      pool := new DurableNoncePool();
      activeTasks, balance := {}, 0;
    }

    // ---------- guards ----------

    /** Guards an account against a second request, and the canister against too many. */
    method AcquireDepositGuard(a: Account) returns (error: Option<GuardError>)
      requires Valid()
      modifies this`depositGuards
      ensures Valid() && error == GuardErrorFor(old(depositGuards), a)
      ensures Value() == old(Value()).(depositGuards :=
                if error.None? then old(depositGuards) + {a} else old(depositGuards))
    {
      error := CheckGuard(depositGuards, a);
      if error.None? {
        depositGuards := depositGuards + {a};
      }
    }

    /** A guard that goes out of scope is dropped, also when its call traps. */
    method ReleaseDepositGuard(a: Account)
      requires Valid()
      modifies this`depositGuards
      ensures Valid() && Value() == old(Value()).(depositGuards := old(depositGuards) - {a})
      ensures GuardErrorFor(depositGuards, a).None? <==> |depositGuards| < MAX_CONCURRENT
    {
      depositGuards := depositGuards - {a};
    }

    method AcquireWithdrawalGuard(a: Account) returns (error: Option<GuardError>)
      requires Valid()
      modifies this`withdrawalGuards
      ensures Valid() && error == GuardErrorFor(old(withdrawalGuards), a)
      ensures Value() == old(Value()).(withdrawalGuards :=
                if error.None? then old(withdrawalGuards) + {a} else old(withdrawalGuards))
    {
      error := CheckGuard(withdrawalGuards, a);
      if error.None? {
        withdrawalGuards := withdrawalGuards + {a};
      }
    }

    method ReleaseWithdrawalGuard(a: Account)
      requires Valid()
      modifies this`withdrawalGuards
      ensures Valid() && Value() == old(Value()).(withdrawalGuards := old(withdrawalGuards) - {a})
      ensures GuardErrorFor(withdrawalGuards, a).None? <==> |withdrawalGuards| < MAX_CONCURRENT
    {
      withdrawalGuards := withdrawalGuards - {a};
    }

    /** A timer task runs once at a time. */
    method AcquireTimerGuard(task: TaskType) returns (acquired: bool)
      requires Valid()
      modifies this`activeTasks
      ensures Valid() && acquired == (task !in old(activeTasks))
      ensures Value() == old(Value()).(activeTasks := old(activeTasks) + {task})
    {
      acquired := task !in activeTasks;
      activeTasks := activeTasks + {task};
    }

    method ReleaseTimerGuard(task: TaskType)
      requires Valid()
      modifies this`activeTasks
      ensures Valid() && Value() == old(Value()).(activeTasks := old(activeTasks) - {task})
    {
      activeTasks := activeTasks - {task};
    }

    // ---------- events ----------

    method CacheMinterPublicKey(k: SchnorrPublicKey)
      requires Valid() && (key == None || key == Some(k))
      modifies this`key
      ensures Valid() && Value() == old(Value()).(key := Some(k))
    {
      if key.None? {
        key := Some(k);
      }
    }

    method ProcessAcceptedWithdrawal(r: WithdrawalRequest, now: Timestamp)
      requires Valid() && CanAccept(Value(), r)
      modifies this`pending
      ensures Valid() && Value() == Accepted(old(Value()), r, now)
    {
      pending := pending[r.burnIndex := PendingWithdrawal(r, now)];
    }

    method ProcessQueuedDeposit(id: DepositId, d: QueuedDeposit, now: Timestamp)
      requires Valid() && CanQueue(deposits.Value(), id, d)
      modifies deposits
      ensures Valid() && Value() == old(Value()).(book := Queue(old(deposits.Value()), id, d, now))
    {
      deposits.Queue(id, d, now);
    }

    method ProcessCreditedSweep(sig: Signature, amountReceived: Lamport, mints: seq<CreditedDeposit>, now: Timestamp)
      requires Valid() && CanCreditSweep(Value(), sig, amountReceived, mints)
      modifies this`collectedFees, this`balance, deposits
      ensures Valid() && Value() == SweepCredited(old(Value()), sig, amountReceived, mints, now)
    {
      hide CanCredit, Credit, FeesOf, Total, AmountsToMint, Sum, InsertionOrderedMap<Signature, MinterTransaction>.Value,
           InsertionOrderedMap<Signature, MinterTransaction>.Valid;
      var credited := deposits.CreditSweep(sig, mints, now);
      var fees := AddDepositFees(credited.deposits);
      collectedFees := collectedFees + fees;
      balance := balance + amountReceived;
    }

    /** Moves the requests from the pending to the created bucket and adds up their amounts. */
    method MoveToCreated(burns: seq<BurnIndex>) returns (total: Lamport)
      requires Distinct(burns) && forall b | b in burns :: b in pending && b !in created
      modifies this`pending, this`created
      ensures pending == old(pending) - Elems(burns)
      ensures created == old(created) + PickedRequests(old(pending), burns)
      ensures total == Sum(TransferAmounts(old(pending), burns))
    {
      hide PickedRequests, Sum, TransferAmounts;
      NonePicked(pending, created, burns);
      total := 0;
      var k := 0;
      while k < |burns|
        invariant 0 <= k <= |burns|
        invariant pending == old(pending) - Elems(burns[..k])
        invariant created == old(created) + PickedRequests(old(pending), burns[..k])
        invariant total == Sum(TransferAmounts(old(pending), burns[..k]))
      {
        var b := burns[k];
        ListedSoFar(burns, k);
        MinusBoth(old(pending), Elems(burns[..k]), b);
        PickedRequestsAppend(old(pending), burns, k);
        TransferAmountsAppend(old(pending), burns, k);
        PlusUpdate(old(created), PickedRequests(old(pending), burns[..k]), b, old(pending)[b]);
        var request := pending[b];
        pending := pending - {b};
        total := total + request.request.amountToTransfer;
        created := created[b := request];
        k := k + 1;
      }
      assert burns[..k] == burns;
    }

    method ProcessTransactionCreated(burns: seq<BurnIndex>, a: Address, nonce: Hash)
      requires Valid() && CanCreate(Value(), burns, a, nonce)
      modifies this`pending, this`created, this`balance, this`createdTxs, pool
      ensures Valid() && Value() == Created(old(Value()), burns, a, nonce)
    {
      hide Sum, TransferAmounts, PickedRequests, Bound, Elems, Deposits.Value, InsertionOrderedMap<Signature, MinterTransaction>.Value,
           InsertionOrderedMap<Signature, MinterTransaction>.Valid;
      pool.Bind(a, nonce);
      var total := MoveToCreated(burns);
      balance := balance - (total + BATCH_WITHDRAWAL_TX_FEE);
      createdTxs := createdTxs[a := CreatedTx(nonce, burns)];
    }

    /** The one message the binding of a created transaction determines. */
    method BoundWithdrawalMessage(a: Address, tx: CreatedTx) returns (message: Message)
      requires key.Some? && forall b | b in tx.burnIndices :: b in created
      requires TransactionSize(BoundMessage(key.value, created, a, tx)) <= MAX_TX_SIZE
      ensures message == BoundMessage(key.value, created, a, tx)
    {
      var transfers := CollectTransfers(created, tx.burnIndices);
      var built := BuildBatchWithdrawalMessage(MinterAddress(key.value), a, tx.nonceValue, transfers);
      message := built.value;
    }

    /** Moves the requests from the created to the sent bucket. */
    method MoveToSent(burns: seq<BurnIndex>, sig: Signature)
      requires Distinct(burns) && forall b | b in burns :: b in created && b !in sent
      modifies this`created, this`sent
      ensures created == old(created) - Elems(burns)
      ensures sent == old(sent) + SentOf(old(created), burns, sig)
    {
      hide SentOf;
      NoneSent(created, sent, burns, sig);
      var k := 0;
      while k < |burns|
        invariant 0 <= k <= |burns|
        invariant created == old(created) - Elems(burns[..k])
        invariant sent == old(sent) + SentOf(old(created), burns[..k], sig)
      {
        var b := burns[k];
        ListedSoFar(burns, k);
        MinusBoth(old(created), Elems(burns[..k]), b);
        SentOfAppend(old(created), burns, k, sig);
        var request := created[b];
        PlusUpdate(old(sent), SentOf(old(created), burns[..k], sig), b,
                   SentWithdrawal(request.request, sig, request.createdAt));
        created := created - {b};
        sent := sent[b := SentWithdrawal(request.request, sig, request.createdAt)];
        k := k + 1;
      }
      assert burns[..k] == burns;
    }

    method SendNonceWithdrawal(sig: Signature, message: Message, signers: seq<Signer>, burns: seq<BurnIndex>, now: Timestamp)
      returns (tx: MinterTransaction)
      requires Valid() && CanSend(Value(), message, signers, burns)
      modifies this`createdTxs, this`created, this`sent
      ensures AdvancedNonceAccount(message).Some? && AdvancedNonceAccount(message).value in old(createdTxs)
      ensures var a := AdvancedNonceAccount(message).value;
              && tx == WithdrawalTx(message, a, old(createdTxs)[a].nonceValue, now)
              && createdTxs == old(createdTxs) - {a}
              && (forall b | b in burns :: b in old(created))
              && created == old(created) - Elems(burns)
              && sent == old(sent) + SentOf(old(created), burns, sig)
    {
      hide SentOf, Elems, BoundMessage, TransactionSize;
      var a := AdvancedNonceAccount(message).value;
      var createdTx := createdTxs[a];
      createdTxs := createdTxs - {a};
      var bound := BoundWithdrawalMessage(a, createdTx);
      assert message == bound && signers == [SignedByMinter];
      MoveToSent(createdTx.burnIndices, sig);
      tx := WithdrawalTx(message, a, createdTx.nonceValue, now);
    }

    method ProcessTransactionSubmitted(sig: Signature, message: Message, signers: seq<Signer>, purpose: Purpose, now: Timestamp)
      requires Valid() && CanSubmit(Value(), sig, message, signers, purpose)
      modifies this`createdTxs, this`created, this`sent, deposits, submitted
      ensures Valid() && Value() == Submitted(old(Value()), sig, message, signers, purpose, now)
    {
      hide SentOf, CanSend, CanSweep, PlanOf, Picked, Elems, OrderedMap<Signature, MinterTransaction>.Insert,
           Deposits.Value, InsertionOrderedMap<Signature, MinterTransaction>.Value,
           InsertionOrderedMap<Signature, MinterTransaction>.Valid;
      match purpose {
        case Withdrawal(burns) =>
          SentMatches(Value(), message, signers, burns);
          var tx := SendNonceWithdrawal(sig, message, signers, burns, now);
          var _ := submitted.Insert(sig, tx);
        case SweepDeposit(ids, height) =>
          var _ := deposits.SweepDeposits(ids, MinterAddress(key.value), message, sig);
          var _ := submitted.Insert(sig, SweepTx(height));
      }
    }

    method MoveToSuccessful(sig: Signature)
      modifies this`sent, this`successful, this`succeededTxs
      ensures sent == old(sent) - SentBy(old(sent), sig).Keys && successful == old(successful) + SentBy(old(sent), sig)
      ensures succeededTxs == old(succeededTxs) + {sig}
    {
      succeededTxs := succeededTxs + {sig};
      var rest, extracted := ExtractSent(sent, sig);
      sent, successful := rest, successful + extracted;
    }

    method MoveToFailed(sig: Signature)
      modifies this`sent, this`failed
      ensures sent == old(sent) - SentBy(old(sent), sig).Keys && failed == old(failed) + SentBy(old(sent), sig)
    {
      var rest, extracted := ExtractSent(sent, sig);
      sent, failed := rest, failed + extracted;
    }

    method ProcessTransactionSucceeded(sig: Signature)
      requires Valid() && CanSucceed(Value(), sig)
      modifies this`succeededTxs, this`sent, this`successful, deposits, submitted, pool
      ensures Valid() && Value() == Succeeded(old(Value()), sig)
    {
      hide SentBy, CanFinalize, Finalize, CanFree, Freed, Deposits.Value, InsertionOrderedMap<Signature, MinterTransaction>.Value,
           InsertionOrderedMap<Signature, MinterTransaction>.Valid;
      var transaction := submitted.Remove(sig);
      match transaction.value {
        case SweepTx(_) => deposits.FinalizeSwept(sig);
        case WithdrawalTx(_, a, _, _) => pool.Free(a);
      }
      MoveToSuccessful(sig);
    }

    method ProcessTransactionFailed(sig: Signature)
      requires Valid() && CanFail(Value(), sig)
      modifies this`sent, this`failed, deposits, submitted, failedTxs, pool
      ensures Valid() && Value() == FailedBy(old(Value()), sig)
    {
      hide SentBy, CanDropSwept, DropSwept, CanFree, Freed, Deposits.Value, InsertionOrderedMap<Signature, MinterTransaction>.Value,
           InsertionOrderedMap<Signature, MinterTransaction>.Valid;
      var transaction := submitted.Remove(sig);
      match transaction.value {
        case SweepTx(_) => deposits.DropSwept(sig);
        case WithdrawalTx(_, a, _, _) => pool.Free(a);
      }
      var _ := failedTxs.Insert(sig, transaction.value);
      MoveToFailed(sig);
    }

    method ProcessTransactionExpired(sig: Signature)
      requires Valid() && CanExpire(Value(), sig)
      modifies deposits, submitted
      ensures Valid() && Value() == Expired(old(Value()), sig)
    {
      hide CanDropSwept, DropSwept;
      var _ := submitted.Remove(sig);
      deposits.DropSwept(sig);
    }

    /** Takes over every parameter that is given. */
    method Reconfigure(a: UpgradeArgs)
      modifies this`config
      ensures config == Reconfigured(old(config), a)
    {
      if a.solRpcCanister.Some? {
        config := config.(solRpcCanister := a.solRpcCanister.value);
      }
      if a.withdrawalFee.Some? {
        config := config.(withdrawalFee := a.withdrawalFee.value);
      }
      if a.minimumWithdrawalAmount.Some? {
        config := config.(minimumWithdrawalAmount := a.minimumWithdrawalAmount.value);
      }
      if a.minimumDepositAmount.Some? {
        config := config.(minimumDepositAmount := a.minimumDepositAmount.value);
      }
      if a.depositSolRequiredCycles.Some? {
        config := config.(depositSolRequiredCycles := a.depositSolRequiredCycles.value);
      }
      if a.depositSolFee.Some? {
        config := config.(depositSolFee := a.depositSolFee.value);
      }
      if a.automaticDepositFee.Some? {
        config := config.(automaticDepositFee := a.automaticDepositFee);
      }
    }

    /** Fails when the new parameters are invalid, an address does not parse, is already in the
        pool or is the destination of an incomplete withdrawal; the caller then traps. */
    method Upgrade(a: UpgradeArgs) returns (ok: bool)
      requires Valid()
      modifies this`config, pool
      ensures Valid()
      ensures ok <==> CanUpgrade(old(Value()), a)
      ensures ok ==> Value() == Upgraded(old(Value()), a)
    {
      Reconfigure(a);
      hide Reconfigured, Parsed, Added;
      if a.nonceAccountsToAdd.Some? {
        var parsed := ParseNonceAccounts(a.nonceAccountsToAdd.value);
        if parsed.None? {
          return false;
        }
        var clear := NoneIsDestination(parsed.value);
        if !clear {
          return false;
        }
        var duplicate := pool.AddAccounts(parsed.value);
        if duplicate.Some? {
          return false;
        }
      }
      ok := Validate(config) == None;
    }

    method NoneIsDestination(addresses: seq<Address>) returns (clear: bool)
      ensures clear <==> forall x | x in addresses :: NoIncompleteWithdrawalTo(Value(), x)
    {
      var destinations := (set i | i in pending :: pending[i].request.solanaAddress)
                        + (set i | i in created :: created[i].request.solanaAddress)
                        + (set i | i in sent :: sent[i].request.solanaAddress);
      forall x ensures x !in destinations <==> NoIncompleteWithdrawalTo(Value(), x) {}
      clear := forall x | x in addresses :: x !in destinations;
    }

    /** Updates the state to reflect the given event. */
    method ApplyStateTransition(e: Event, now: Timestamp)
      requires Valid() && CanApply(Value(), e)
      modifies this, deposits, submitted, failedTxs, pool
      ensures Valid() && Value() == Apply(old(Value()), e, now)
    {
      hide CanUpgrade, CanSubmit, Submitted, CanSucceed, Succeeded, CanFail, FailedBy, CanExpire, Expired, CanQueue, Queue,
           CanCreditSweep, SweepCredited, CanMint, Mint, QuarantineMint, QuarantineSweep, CanCreate, Created, Upgraded;
      match e {
        case Upgrade(a) => var ok := Upgrade(a);
        case AcceptedWithdrawalRequest(r) => ProcessAcceptedWithdrawal(r, now);
        case SubmittedTransaction(sig, message, signers, purpose) =>
          ProcessTransactionSubmitted(sig, message, signers, purpose, now);
        case SucceededTransaction(sig) => ProcessTransactionSucceeded(sig);
        case FailedTransaction(sig) => ProcessTransactionFailed(sig);
        case ExpiredTransaction(sig) => ProcessTransactionExpired(sig);
        case QueuedDepositEvent(id, d) => ProcessQueuedDeposit(id, d, now);
        case CreditedSweep(sig, amount, mints) => ProcessCreditedSweep(sig, amount, mints, now);
        case QuarantinedSweep(sig) => deposits.QuarantineSweep(sig);
        case MinterPublicKeyFetched(k) => CacheMinterPublicKey(k);
        case MintedSweptDeposit(id, index) => deposits.Mint(id, index);
        case QuarantinedPendingMint(id) => deposits.QuarantinePendingMint(id);
        case CreatedWithdrawalTransaction(burns, a, nonce) => ProcessTransactionCreated(burns, a, nonce);
      }
    }
  }

  /** A sent transaction serves exactly the requests bound to its nonce account. */
  lemma SentMatches(s: MinterState, message: Message, signers: seq<Signer>, burns: seq<BurnIndex>)
    requires CanSend(s, message, signers, burns)
    ensures AdvancedNonceAccount(message).Some? && AdvancedNonceAccount(message).value in s.createdTxs
    ensures burns == s.createdTxs[AdvancedNonceAccount(message).value].burnIndices
    ensures forall b | b in burns :: b in s.created
  {}

  /** Builds the state from the arguments of the first event, if they are valid. */
  method FromInitArgs(a: InitArgs) returns (s: State?)
    ensures s != null <==> CanInit(a)
    ensures s != null ==> fresh(s) && fresh(s.deposits) && fresh(s.submitted) && fresh(s.failedTxs) && fresh(s.pool)
    ensures s != null ==> s.Valid() && s.Value() == InitialState(a)
  {
    var parsed := ParseNonceAccounts(a.nonceAccounts);
    if parsed.None? {
      return null;
    }
    var state := new State(a.config);
    var duplicate := state.pool.AddAccounts(parsed.value);
    if duplicate.Some? || Validate(a.config) != None {
      return null;
    }
    s := state;
  }

  /** Rebuilds the state from a log that replays without a trap. */
  method ReplayEvents(log: seq<LoggedEvent>) returns (s: State)
    requires Replay(log).Some?
    ensures s.Valid() && s.Value() == Replay(log).value
  {
    hide Apply, CanApply, CanInit, InitialState, State.Value, State.Valid;
    ReplayPrefix(log, 1);
    hide Replay;
    var initial := FromInitArgs(log[0].payload.initArgs);
    s := initial;
    var k := 1;
    while k < |log|
      invariant 1 <= k <= |log|
      invariant Replay(log[..k]).Some? && s.Valid() && s.Value() == Replay(log[..k]).value
      invariant fresh(s) && fresh(s.deposits) && fresh(s.submitted) && fresh(s.failedTxs) && fresh(s.pool)
    {
      ReplayPrefix(log, k + 1);
      s.ApplyStateTransition(log[k].payload, log[k].timestamp);
      k := k + 1;
    }
    assert log[..k] == log;
  }

  /** A log that replays does so up to any point, one event at a time. */
  lemma {:induction false} ReplayPrefix(log: seq<LoggedEvent>, k: nat)
    requires Replay(log).Some? && 1 <= k <= |log|
    ensures Replay(log[..k]).Some?
    ensures k == 1 ==> log[0].payload.Init? && CanInit(log[0].payload.initArgs)
                       && Replay(log[..1]).value == InitialState(log[0].payload.initArgs)
    ensures k > 1 ==> Replay(log[..k - 1]).Some? && CanApply(Replay(log[..k - 1]).value, log[k - 1].payload)
    ensures k > 1 ==> Replay(log[..k]).value ==
                      Apply(Replay(log[..k - 1]).value, log[k - 1].payload, log[k - 1].timestamp)
    decreases |log|
  {
    hide Apply, CanApply, CanInit, InitialState;
    if k < |log| {
      var n := |log| - 1;
      ReplayPrefix(log[..n], k);
      assert log[..n][..k] == log[..k] && log[..n][..k - 1] == log[..k - 1];
    } else {
      assert log[..k] == log;
      assert log[..k][..k - 1] == log[..k - 1];
    }
  }
}
