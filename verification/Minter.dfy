/** The state of the minter, its events, and the transition each event makes, as functions
    (minter/src/state/mod.rs, minter/src/state/event.rs, minter/src/state/audit.rs).
    `CanX` collects the assertions of a transition: where one fails the source traps. */
module Minter {
  import opened Prelude
  import opened Solana
  import opened InsertionOrdered
  import opened NoncePool
  import opened Sweeps
  import opened ScanSchedule
  import opened DepositBook

  type BurnIndex = nat

  // ---------- data ----------

  datatype WithdrawalRequest = WithdrawalRequest(account: Account, solanaAddress: Address, burnIndex: BurnIndex,
                                                 burnedAmount: Lamport, amountToTransfer: Lamport)

  datatype PendingWithdrawal = PendingWithdrawal(request: WithdrawalRequest, createdAt: Timestamp)

  datatype SentWithdrawal = SentWithdrawal(request: WithdrawalRequest, signature: Signature, createdAt: Timestamp)

  datatype CreatedTx = CreatedTx(nonceValue: Hash, burnIndices: seq<BurnIndex>)

  datatype MinterTransaction =
    | SweepTx(blockHeight: BlockHeight)
    | WithdrawalTx(message: Message, nonceAccount: Address, nonceValue: Hash, submittedAt: Timestamp)

  datatype TaskType = SweepDeposits | MintTask | FinalizeTransactions | WithdrawalProcessing

  datatype Config = Config(
    ledgerCanister: Principal, solRpcCanister: Principal,
    withdrawalFee: Lamport, minimumWithdrawalAmount: Lamport, minimumDepositAmount: Lamport,
    depositSolRequiredCycles: nat, depositSolFee: nat, automaticDepositFee: Option<Lamport>)

  datatype MinterState = MinterState(
    config: Config,
    key: Option<SchnorrPublicKey>,
    collectedFees: Lamport,
    book: Book,
    pending: map<BurnIndex, PendingWithdrawal>,
    created: map<BurnIndex, PendingWithdrawal>,
    sent: map<BurnIndex, SentWithdrawal>,
    successful: map<BurnIndex, SentWithdrawal>,
    failed: map<BurnIndex, SentWithdrawal>,
    submitted: OrderedMap<Signature, MinterTransaction>,
    createdTxs: map<Address, CreatedTx>,
    succeededTxs: set<Signature>,
    failedTxs: OrderedMap<Signature, MinterTransaction>,
    pool: Pool,
    balance: Lamport,
    // Transient: not recorded in the event log.
    depositGuards: set<Account>,
    withdrawalGuards: set<Account>,
    activeTasks: set<TaskType>)

  /** How many accounts may hold a request guard at a time. */
  const MAX_CONCURRENT: nat := 100

  // ---------- events ----------

  datatype Signer = SignedByMinter | SignedByAccount(account: Account)

  datatype Purpose =
    | SweepDeposit(depositIds: seq<DepositId>, blockHeight: BlockHeight)
    | Withdrawal(burnIndices: seq<BurnIndex>)

  /** Nonce accounts are given as text; None stands for one that does not parse. */
  datatype InitArgs = InitArgs(config: Config, nonceAccounts: seq<Option<Address>>)

  datatype UpgradeArgs = UpgradeArgs(
    solRpcCanister: Option<Principal>, minimumWithdrawalAmount: Option<Lamport>, minimumDepositAmount: Option<Lamport>,
    withdrawalFee: Option<Lamport>, depositSolRequiredCycles: Option<nat>, depositSolFee: Option<nat>,
    nonceAccountsToAdd: Option<seq<Option<Address>>>, automaticDepositFee: Option<Lamport>)

  datatype Event =
    | Init(initArgs: InitArgs)
    | Upgrade(upgradeArgs: UpgradeArgs)
    | AcceptedWithdrawalRequest(request: WithdrawalRequest)
    | SubmittedTransaction(signature: Signature, message: Message, signers: seq<Signer>, purpose: Purpose)
    | SucceededTransaction(signature: Signature)
    | FailedTransaction(signature: Signature)
    | ExpiredTransaction(signature: Signature)
    | QueuedDepositEvent(depositId: DepositId, deposit: QueuedDeposit)
    | CreditedSweep(signature: Signature, amountReceived: Lamport, mints: seq<CreditedDeposit>)
    | QuarantinedSweep(signature: Signature)
    | MinterPublicKeyFetched(key: SchnorrPublicKey)
    | MintedSweptDeposit(depositId: DepositId, mintBlockIndex: MintIndex)
    | QuarantinedPendingMint(depositId: DepositId)
    | CreatedWithdrawalTransaction(burnIndices: seq<BurnIndex>, nonceAccount: Address, nonceValue: Hash)

  // ---------- parameters ----------

  const GET_BALANCE_CYCLES: nat := 10_000_000_000

  /** The largest automatic deposit fee that leaves a lamport to mint of a minimum deposit. */
  function MaxAutomaticDepositFee(c: Config): Lamport {
    SaturatingSub(SaturatingSub(SaturatingSub(c.minimumDepositAmount, RENT_EXEMPTION_THRESHOLD), FEE_PER_SIGNATURE), 1)
  }

  function SaturatingSub(a: nat, b: nat): nat {
    if a < b then 0 else a - b
  }

  datatype InvalidState =
    | AnonymousCanisterId
    | IndistinctCanisterIds
    | InvalidMinimumDepositAmount
    | MinimumDepositAmountLeavesMainAddressBelowRent
    | InvalidMinimumWithdrawalAmount
    | DepositSolRequiredCyclesTooLow
    | AutomaticDepositFeeTooHigh

  /** The first constraint the parameters violate, if any. */
  function Validate(c: Config): Option<InvalidState> {
    if c.solRpcCanister == Anonymous || c.ledgerCanister == Anonymous then Some(AnonymousCanisterId)
    else if c.solRpcCanister == c.ledgerCanister then Some(IndistinctCanisterIds)
    else if c.minimumDepositAmount < MAX_SIGNATURES * FEE_PER_SIGNATURE + RENT_EXEMPTION_THRESHOLD then
      Some(InvalidMinimumDepositAmount)
    else if c.minimumDepositAmount < 2 * RENT_EXEMPTION_THRESHOLD + FEE_PER_SIGNATURE then
      Some(MinimumDepositAmountLeavesMainAddressBelowRent)
    else if c.minimumWithdrawalAmount < c.withdrawalFee + RENT_EXEMPTION_THRESHOLD then
      Some(InvalidMinimumWithdrawalAmount)
    else if c.depositSolRequiredCycles < GET_BALANCE_CYCLES + c.depositSolFee then
      Some(DepositSolRequiredCyclesTooLow)
    else if c.automaticDepositFee.Some? && c.automaticDepositFee.value > MaxAutomaticDepositFee(c) then
      Some(AutomaticDepositFeeTooHigh)
    else None
  }

  function Or<T>(o: Option<T>, d: T): T {
    match o case None => d case Some(v) => v
  }

  function Reconfigured(c: Config, a: UpgradeArgs): Config {
    c.(solRpcCanister := Or(a.solRpcCanister, c.solRpcCanister),
       minimumWithdrawalAmount := Or(a.minimumWithdrawalAmount, c.minimumWithdrawalAmount),
       minimumDepositAmount := Or(a.minimumDepositAmount, c.minimumDepositAmount),
       withdrawalFee := Or(a.withdrawalFee, c.withdrawalFee),
       depositSolRequiredCycles := Or(a.depositSolRequiredCycles, c.depositSolRequiredCycles),
       depositSolFee := Or(a.depositSolFee, c.depositSolFee),
       automaticDepositFee := if a.automaticDepositFee.Some? then a.automaticDepositFee else c.automaticDepositFee)
  }

  /** Every address parses. */
  predicate Parses(texts: seq<Option<Address>>) {
    forall i | 0 <= i < |texts| :: texts[i].Some?
  }

  function Parsed(texts: seq<Option<Address>>): seq<Address>
    requires Parses(texts)
  {
    seq(|texts|, i requires 0 <= i < |texts| => texts[i].value)
  }

  // ---------- init and upgrade ----------

  ghost predicate CanInit(a: InitArgs) {
    Parses(a.nonceAccounts) && CanAdd(map[], Parsed(a.nonceAccounts)) && Validate(a.config) == None
  }

  function InitialState(a: InitArgs): MinterState
    requires Parses(a.nonceAccounts)
  {
    MinterState(a.config, None, 0, EMPTY_BOOK, map[], map[], map[], map[], map[],
                OrderedMap([], map[]), map[], {}, OrderedMap([], map[]),
                Added(map[], Parsed(a.nonceAccounts)), 0, {}, {}, {})
  }

  /** No queued or in-flight withdrawal pays to the address. */
  ghost predicate NoIncompleteWithdrawalTo(s: MinterState, a: Address) {
    && (forall i | i in s.pending :: s.pending[i].request.solanaAddress != a)
    && (forall i | i in s.created :: s.created[i].request.solanaAddress != a)
    && (forall i | i in s.sent :: s.sent[i].request.solanaAddress != a)
  }

  ghost predicate CanUpgrade(s: MinterState, a: UpgradeArgs) {
    && Validate(Reconfigured(s.config, a)) == None
    && (a.nonceAccountsToAdd.Some? ==>
          && Parses(a.nonceAccountsToAdd.value)
          && (forall x | x in Parsed(a.nonceAccountsToAdd.value) :: NoIncompleteWithdrawalTo(s, x))
          && CanAdd(s.pool, Parsed(a.nonceAccountsToAdd.value)))
  }

  function Upgraded(s: MinterState, a: UpgradeArgs): MinterState
    requires a.nonceAccountsToAdd.Some? ==> Parses(a.nonceAccountsToAdd.value)
  {
    s.(config := Reconfigured(s.config, a),
       pool := if a.nonceAccountsToAdd.Some? then Added(s.pool, Parsed(a.nonceAccountsToAdd.value)) else s.pool)
  }

  // ---------- withdrawals ----------

  predicate CanAccept(s: MinterState, r: WithdrawalRequest) {
    r.burnIndex !in s.pending
  }

  function Accepted(s: MinterState, r: WithdrawalRequest, now: Timestamp): MinterState {
    s.(pending := s.pending[r.burnIndex := PendingWithdrawal(r, now)])
  }

  /** The amounts the requests transfer, in the given order. */
  function TransferAmounts(m: map<BurnIndex, PendingWithdrawal>, burns: seq<BurnIndex>): seq<Lamport>
    requires forall b | b in burns :: b in m
  {
    seq(|burns|, i requires 0 <= i < |burns| => m[burns[i]].request.amountToTransfer)
  }

  function CostOf(m: map<BurnIndex, PendingWithdrawal>, burns: seq<BurnIndex>): Lamport
    requires forall b | b in burns :: b in m
  {
    Sum(TransferAmounts(m, burns)) + BATCH_WITHDRAWAL_TX_FEE
  }

  function PickedRequests(m: map<BurnIndex, PendingWithdrawal>, burns: seq<BurnIndex>): map<BurnIndex, PendingWithdrawal>
    requires forall b | b in burns :: b in m
  {
    map b | b in burns :: m[b]
  }

  ghost predicate CanCreate(s: MinterState, burns: seq<BurnIndex>, a: Address, nonce: Hash) {
    && CanBind(s.pool, a, nonce)
    && Distinct(burns)
    && (forall b | b in burns :: b in s.pending && b !in s.created)
    && CostOf(s.pending, burns) <= s.balance
    && a !in s.createdTxs
  }

  function Created(s: MinterState, burns: seq<BurnIndex>, a: Address, nonce: Hash): MinterState
    requires a in s.pool && (forall b | b in burns :: b in s.pending) && CostOf(s.pending, burns) <= s.balance
  {
    s.(pool := Bound(s.pool, a, nonce),
       pending := s.pending - Elems(burns),
       created := s.created + PickedRequests(s.pending, burns),
       balance := s.balance - CostOf(s.pending, burns),
       createdTxs := s.createdTxs[a := CreatedTx(nonce, burns)])
  }

  function Transfers(m: map<BurnIndex, PendingWithdrawal>, burns: seq<BurnIndex>): seq<(Address, Lamport)>
    requires forall b | b in burns :: b in m
  {
    seq(|burns|, i requires 0 <= i < |burns| => (m[burns[i]].request.solanaAddress, m[burns[i]].request.amountToTransfer))
  }

  /** The one message a created transaction stands for: its binding determines it. */
  function BoundMessage(key: SchnorrPublicKey, created: map<BurnIndex, PendingWithdrawal>, a: Address, tx: CreatedTx): Message
    requires forall b | b in tx.burnIndices :: b in created
  {
    WithdrawalMessage(MinterAddress(key), a, tx.nonceValue, Transfers(created, tx.burnIndices))
  }

  ghost predicate CanSend(s: MinterState, message: Message, signers: seq<Signer>, burns: seq<BurnIndex>) {
    && AdvancedNonceAccount(message).Some?
    && var a := AdvancedNonceAccount(message).value;
       && a in s.createdTxs
       && burns == s.createdTxs[a].burnIndices
       && Distinct(burns)
       && (forall b | b in burns :: b in s.created && b !in s.sent)
       && s.key.Some?
       && message == BoundMessage(s.key.value, s.created, a, s.createdTxs[a])
       && TransactionSize(message) <= MAX_TX_SIZE
       && signers == [SignedByMinter]
  }

  function SentOf(m: map<BurnIndex, PendingWithdrawal>, burns: seq<BurnIndex>, sig: Signature): map<BurnIndex, SentWithdrawal>
    requires forall b | b in burns :: b in m
  {
    map b | b in burns :: SentWithdrawal(m[b].request, sig, m[b].createdAt)
  }

  function Sent(s: MinterState, sig: Signature, message: Message, a: Address, now: Timestamp): MinterState
    requires a in s.createdTxs && forall b | b in s.createdTxs[a].burnIndices :: b in s.created
  {
    var burns := s.createdTxs[a].burnIndices;
    s.(createdTxs := s.createdTxs - {a},
       created := s.created - Elems(burns),
       sent := s.sent + SentOf(s.created, burns, sig),
       submitted := s.submitted.Insert(sig, WithdrawalTx(message, a, s.createdTxs[a].nonceValue, now)))
  }

  // ---------- submission ----------

  ghost predicate CanSubmit(s: MinterState, sig: Signature, message: Message, signers: seq<Signer>, purpose: Purpose) {
    && sig !in s.succeededTxs && !s.failedTxs.Has(sig) && !s.submitted.Has(sig)
    && match purpose
       case Withdrawal(burns) => CanSend(s, message, signers, burns)
       case SweepDeposit(ids, _) => s.key.Some? && CanSweep(s.book, ids, MinterAddress(s.key.value), message, sig)
  }

  ghost function Submitted(s: MinterState, sig: Signature, message: Message, signers: seq<Signer>, purpose: Purpose,
                           now: Timestamp): MinterState
    requires CanSubmit(s, sig, message, signers, purpose)
  {
    match purpose
    case Withdrawal(_) => Sent(s, sig, message, AdvancedNonceAccount(message).value, now)
    case SweepDeposit(ids, height) =>
      s.(book := SweepQueued(s.book, ids, MinterAddress(s.key.value), sig),
         submitted := s.submitted.Insert(sig, SweepTx(height)))
  }

  // ---------- outcomes ----------

  /** The sent withdrawals of one transaction. */
  function SentBy(sent: map<BurnIndex, SentWithdrawal>, sig: Signature): map<BurnIndex, SentWithdrawal> {
    map b | b in sent && sent[b].signature == sig :: sent[b]
  }

  ghost predicate CanSucceed(s: MinterState, sig: Signature) {
    && !s.failedTxs.Has(sig) && s.submitted.Has(sig) && sig !in s.succeededTxs
    && match s.submitted.values[sig]
       case SweepTx(_) => CanFinalize(s.book, sig)
       case WithdrawalTx(_, a, _, _) => CanFree(s.pool, a)
  }

  ghost function Succeeded(s: MinterState, sig: Signature): MinterState
    requires CanSucceed(s, sig)
  {
    var s' := s.(submitted := s.submitted.Remove(sig),
                 succeededTxs := s.succeededTxs + {sig},
                 sent := s.sent - SentBy(s.sent, sig).Keys,
                 successful := s.successful + SentBy(s.sent, sig));
    match s.submitted.values[sig]
    case SweepTx(_) => s'.(book := Finalize(s.book, sig))
    case WithdrawalTx(_, a, _, _) => s'.(pool := Freed(s.pool, a))
  }

  ghost predicate CanFail(s: MinterState, sig: Signature) {
    && sig !in s.succeededTxs && s.submitted.Has(sig) && !s.failedTxs.Has(sig)
    && match s.submitted.values[sig]
       case SweepTx(_) => CanDropSwept(s.book, sig)
       case WithdrawalTx(_, a, _, _) => CanFree(s.pool, a)
  }

  ghost function FailedBy(s: MinterState, sig: Signature): MinterState
    requires CanFail(s, sig)
  {
    var tx := s.submitted.values[sig];
    var s' := s.(submitted := s.submitted.Remove(sig),
                 failedTxs := s.failedTxs.Insert(sig, tx),
                 sent := s.sent - SentBy(s.sent, sig).Keys,
                 failed := s.failed + SentBy(s.sent, sig));
    match tx
    case SweepTx(_) => s'.(book := DropSwept(s.book, sig))
    case WithdrawalTx(_, a, _, _) => s'.(pool := Freed(s.pool, a))
  }

  /** What recording a submission or an outcome leaves alone. */
  ghost predicate SameElsewhere(s: MinterState, s': MinterState) {
    && s'.config == s.config && s'.key == s.key && s'.collectedFees == s.collectedFees && s'.balance == s.balance
    && s'.pending == s.pending && s'.depositGuards == s.depositGuards && s'.withdrawalGuards == s.withdrawalGuards
    && s'.activeTasks == s.activeTasks
  }

  lemma SubmittedParts(s: MinterState, sig: Signature, message: Message, signers: seq<Signer>, purpose: Purpose, now: Timestamp)
    requires CanSubmit(s, sig, message, signers, purpose)
    ensures var s' := Submitted(s, sig, message, signers, purpose, now);
            && SameElsewhere(s, s') && s'.pool == s.pool && sig !in s.submitted.values
            && match purpose
               case Withdrawal(_) => s'.book == s.book && WithdrawalAdded(s, s', sig)
               case SweepDeposit(ids, height) =>
                 && s.key.Some? && CanSweep(s.book, ids, MinterAddress(s.key.value), message, sig)
                 && s'.book == SweepQueued(s.book, ids, MinterAddress(s.key.value), sig)
                 && s'.createdTxs == s.createdTxs && s'.submitted.values == s.submitted.values[sig := SweepTx(height)]
  {
    hide CanSend, CanSweep, SentOf, SweepQueued, Without;
  }

  ghost predicate WithdrawalAdded(s: MinterState, s': MinterState, sig: Signature) {
    && s'.submitted.values.Keys == s.submitted.values.Keys + {sig} && s'.submitted.values[sig].WithdrawalTx?
    && forall k | k in s.submitted.values :: s'.submitted.values[k] == s.submitted.values[k]
  }

  /** What an outcome does to the parts other than the withdrawal buckets. */
  ghost predicate OutcomeParts(s: MinterState, s': MinterState, sig: Signature)
    requires s.submitted.Has(sig)
  {
    && SameElsewhere(s, s') && s'.createdTxs == s.createdTxs && s'.submitted == s.submitted.Remove(sig)
    && match s.submitted.values[sig]
       case SweepTx(_) => s'.pool == s.pool
       case WithdrawalTx(_, a, _, _) => a in s.pool && s'.pool == Freed(s.pool, a) && s'.book == s.book
  }

  lemma SucceededParts(s: MinterState, sig: Signature)
    requires CanSucceed(s, sig)
    ensures s.submitted.Has(sig) && OutcomeParts(s, Succeeded(s, sig), sig)
    ensures s.submitted.values[sig].SweepTx? ==>
              CanFinalize(s.book, sig) && Succeeded(s, sig).book == Finalize(s.book, sig)
  {
    hide CanFinalize, Finalize, SentBy, Without;
  }

  lemma FailedParts(s: MinterState, sig: Signature)
    requires CanFail(s, sig)
    ensures s.submitted.Has(sig) && OutcomeParts(s, FailedBy(s, sig), sig)
    ensures s.submitted.values[sig].SweepTx? ==>
              CanDropSwept(s.book, sig) && FailedBy(s, sig).book == DropSwept(s.book, sig)
  {
    hide CanDropSwept, DropSwept, SentBy, Without;
  }

  ghost predicate CanExpire(s: MinterState, sig: Signature) {
    && sig !in s.succeededTxs && !s.failedTxs.Has(sig)
    && s.submitted.Has(sig) && s.submitted.values[sig].SweepTx? && CanDropSwept(s.book, sig)
  }

  function Expired(s: MinterState, sig: Signature): MinterState
    requires sig in s.book.swept
  {
    s.(submitted := s.submitted.Remove(sig), book := DropSwept(s.book, sig))
  }

  ghost predicate CanCreditSweep(s: MinterState, sig: Signature, amountReceived: Lamport, mints: seq<CreditedDeposit>) {
    && CanCredit(s.book, sig, mints)
    && Sum(AmountsToMint(mints)) + DepositFees(s.book.finalized[sig]) <= amountReceived
  }

  ghost function SweepCredited(s: MinterState, sig: Signature, amountReceived: Lamport, mints: seq<CreditedDeposit>,
                               now: Timestamp): MinterState
    requires sig in s.book.finalized
  {
    s.(book := Credit(s.book, sig, mints, now),
       collectedFees := s.collectedFees + DepositFees(s.book.finalized[sig]),
       balance := s.balance + amountReceived)
  }

  // ---------- the transition of an event ----------

  ghost predicate CanApply(s: MinterState, e: Event) {
    match e
    case Init(_) => false
    case Upgrade(a) => CanUpgrade(s, a)
    case AcceptedWithdrawalRequest(r) => CanAccept(s, r)
    case SubmittedTransaction(sig, message, signers, purpose) => CanSubmit(s, sig, message, signers, purpose)
    case SucceededTransaction(sig) => CanSucceed(s, sig)
    case FailedTransaction(sig) => CanFail(s, sig)
    case ExpiredTransaction(sig) => CanExpire(s, sig)
    case QueuedDepositEvent(id, d) => CanQueue(s.book, id, d)
    case CreditedSweep(sig, amount, mints) => CanCreditSweep(s, sig, amount, mints)
    case QuarantinedSweep(sig) => CanQuarantineSweep(s.book, sig)
    case MinterPublicKeyFetched(key) => s.key == None || s.key == Some(key)
    case MintedSweptDeposit(id, _) => CanMint(s.book, id)
    case QuarantinedPendingMint(id) => CanQuarantineMint(s.book, id)
    case CreatedWithdrawalTransaction(burns, a, nonce) => CanCreate(s, burns, a, nonce)
  }

  ghost function Apply(s: MinterState, e: Event, now: Timestamp): MinterState
    requires CanApply(s, e)
  {
    match e
    case Upgrade(a) => Upgraded(s, a)
    case AcceptedWithdrawalRequest(r) => Accepted(s, r, now)
    case SubmittedTransaction(sig, message, signers, purpose) => Submitted(s, sig, message, signers, purpose, now)
    case SucceededTransaction(sig) => Succeeded(s, sig)
    case FailedTransaction(sig) => FailedBy(s, sig)
    case ExpiredTransaction(sig) => Expired(s, sig)
    case QueuedDepositEvent(id, d) => s.(book := Queue(s.book, id, d, now))
    case CreditedSweep(sig, amount, mints) => SweepCredited(s, sig, amount, mints, now)
    case QuarantinedSweep(sig) => s.(book := QuarantineSweep(s.book, sig))
    case MinterPublicKeyFetched(key) => s.(key := Some(key))
    case MintedSweptDeposit(id, index) => s.(book := Mint(s.book, id, index))
    case QuarantinedPendingMint(id) => s.(book := QuarantineMint(s.book, id))
    case CreatedWithdrawalTransaction(burns, a, nonce) => Created(s, burns, a, nonce)
  }

  // ---------- logs ----------

  datatype LoggedEvent = LoggedEvent(payload: Event, timestamp: Timestamp)

  /** Replaying a log: it must start with Init, and no event may trap. */
  ghost function Replay(log: seq<LoggedEvent>): Option<MinterState> {
    if log == [] then None
    else
      var n := |log| - 1;
      if n == 0 then
        if log[0].payload.Init? && CanInit(log[0].payload.initArgs)
        then Some(InitialState(log[0].payload.initArgs))
        else None
      else match Replay(log[..n])
        case None => None
        case Some(s) => if CanApply(s, log[n].payload) then Some(Apply(s, log[n].payload, log[n].timestamp)) else None
  }
}
