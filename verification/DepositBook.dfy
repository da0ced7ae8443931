/** The deposits of the minter by the stage they have reached, and every transition between
    stages as a function (minter/src/state/deposits/mod.rs). `CanX` collects the assertions a
    transition makes: where one fails the source traps and the message is rolled back. */
module DepositBook {
  import opened Prelude
  import opened Solana
  import opened Sweeps
  import opened Settlement
  import opened ScanSchedule

  type MintIndex = nat

  datatype SweptDeposit = SweptDeposit(deposit: QueuedDeposit, signature: Signature)

  datatype PendingMint = PendingMint(deposit: SweptDeposit, amountToMint: Lamport, createdAtTime: Timestamp) {
    function Account(): Account {
      deposit.deposit.account
    }
  }

  datatype QuarantineCause =
    | SweepUnreadable
    | MintUnresolved(amountToMint: Lamport, createdAtTime: Timestamp)

  datatype QuarantinedDeposit = QuarantinedDeposit(deposit: SweptDeposit, cause: QuarantineCause)

  datatype MintedSweep = MintedSweep(deposit: SweptDeposit, mintedAmount: Lamport, mintBlockIndex: MintIndex)

  datatype Registration = Registration(progress: ScanProgress, validUntil: Timestamp)

  datatype Book = Book(
    nextId: DepositId,
    queued: Batch,
    swept: map<Signature, Sweep>,
    finalized: map<Signature, Sweep>,
    pendingMints: map<DepositId, PendingMint>,
    minted: map<DepositId, MintedSweep>,
    dropped: map<DepositId, SweptDeposit>,
    quarantined: map<DepositId, QuarantinedDeposit>,
    inFlightIds: map<Account, DepositId>,
    latestIds: map<Account, DepositId>,
    queuedAtById: map<DepositId, Timestamp>,
    watchlist: map<Account, Registration>)

  const EMPTY_BOOK: Book :=
    Book(0, map[], map[], map[], map[], map[], map[], map[], map[], map[], map[], map[])

  // ---------- queue ----------

  predicate CanQueue(b: Book, id: DepositId, d: QueuedDeposit) {
    id == b.nextId && d.account !in b.inFlightIds
  }

  function Queue(b: Book, id: DepositId, d: QueuedDeposit, now: Timestamp): Book {
    b.(nextId := b.nextId + 1,
       queued := b.queued[id := d],
       inFlightIds := b.inFlightIds[d.account := id],
       latestIds := b.latestIds[d.account := id],
       queuedAtById := b.queuedAtById[id := now],
       watchlist := b.watchlist - {d.account})
  }

  // ---------- sweep ----------

  function Picked(queued: Batch, ids: seq<DepositId>): Batch
    requires forall id | id in ids :: id in queued
  {
    map id | id in ids :: queued[id]
  }

  /** No sweep of the map holds the deposit. */
  ghost predicate Unheld(sweeps: map<Signature, Sweep>, id: DepositId) {
    forall sig | sig in sweeps :: id !in sweeps[sig].deposits
  }

  ghost predicate CanSweep(b: Book, ids: seq<DepositId>, minter: Address, message: Message, sig: Signature) {
    && ids != [] && Distinct(ids)
    && (forall id | id in ids :: id in b.queued && Unheld(b.swept, id))
    && CanPlan(Picked(b.queued, ids))
    && message == SweepMessage(PlanOf(Picked(b.queued, ids), minter), message.blockhash)
    && sig !in b.swept
  }

  ghost function SweepQueued(b: Book, ids: seq<DepositId>, minter: Address, sig: Signature): Book
    requires (forall id | id in ids :: id in b.queued) && CanPlan(Picked(b.queued, ids))
  {
    b.(queued := b.queued - Elems(ids),
       swept := b.swept[sig := PlanOf(Picked(b.queued, ids), minter)])
  }

  // ---------- drop, finalize, quarantine ----------

  /** The deposit is the one its account has in flight. */
  predicate HoldsAccount(b: Book, id: DepositId, account: Account) {
    account in b.inFlightIds && b.inFlightIds[account] == id
  }

  predicate CanDropSwept(b: Book, sig: Signature) {
    sig in b.swept && forall id | id in b.swept[sig].deposits :: HoldsAccount(b, id, b.swept[sig].deposits[id].account)
  }

  function AccountsOf(m: Batch): set<Account> {
    set id | id in m :: m[id].account
  }

  function DropSwept(b: Book, sig: Signature): Book
    requires sig in b.swept
  {
    var m := b.swept[sig].deposits;
    b.(swept := b.swept - {sig},
       inFlightIds := b.inFlightIds - AccountsOf(m),
       queuedAtById := b.queuedAtById - m.Keys,
       dropped := b.dropped + DroppedOf(m, sig))
  }

  function DroppedOf(m: Batch, sig: Signature): map<DepositId, SweptDeposit> {
    map id | id in m :: SweptDeposit(m[id], sig)
  }

  ghost predicate CanFinalize(b: Book, sig: Signature) {
    && sig in b.swept && sig !in b.finalized
    && forall id | id in b.swept[sig].deposits :: Unheld(b.finalized, id)
  }

  function Finalize(b: Book, sig: Signature): Book
    requires sig in b.swept
  {
    b.(swept := b.swept - {sig}, finalized := b.finalized[sig := b.swept[sig]])
  }

  predicate CanQuarantineSweep(b: Book, sig: Signature) {
    sig in b.finalized
  }

  function QuarantineSweep(b: Book, sig: Signature): Book
    requires sig in b.finalized
  {
    var m := b.finalized[sig].deposits;
    b.(finalized := b.finalized - {sig},
       queuedAtById := b.queuedAtById - m.Keys,
       quarantined := b.quarantined + UnreadableOf(m, sig))
  }

  function UnreadableOf(m: Batch, sig: Signature): map<DepositId, QuarantinedDeposit> {
    map id | id in m :: QuarantinedDeposit(SweptDeposit(m[id], sig), SweepUnreadable)
  }

  // ---------- credit ----------

  function MintMap(mints: seq<CreditedDeposit>): map<DepositId, Lamport> {
    if mints == [] then map[] else
      var last := mints[|mints| - 1];
      MintMap(mints[..|mints| - 1])[last.depositId := last.amountToMint]
  }

  ghost predicate DistinctMints(mints: seq<CreditedDeposit>) {
    forall i, j | 0 <= i < j < |mints| :: mints[i].depositId != mints[j].depositId
  }

  ghost predicate CanCredit(b: Book, sig: Signature, mints: seq<CreditedDeposit>) {
    && sig in b.finalized
    && |mints| == |b.finalized[sig].deposits|
    && DistinctMints(mints)
    && forall i | 0 <= i < |mints| ::
         var id := mints[i].depositId;
         && id in b.finalized[sig].deposits
         && mints[i].amountToMint <= b.finalized[sig].deposits[id].Sweepable()
         && id !in b.pendingMints
  }

  function PendingOf(m: Batch, sig: Signature, amounts: map<DepositId, Lamport>, now: Timestamp): map<DepositId, PendingMint>
  {
    map id | id in amounts && id in m :: PendingMint(SweptDeposit(m[id], sig), amounts[id], now)
  }

  function Credit(b: Book, sig: Signature, mints: seq<CreditedDeposit>, now: Timestamp): Book
    requires sig in b.finalized
  {
    b.(finalized := b.finalized - {sig},
       pendingMints := b.pendingMints + PendingOf(b.finalized[sig].deposits, sig, MintMap(mints), now))
  }

  lemma {:induction false} MintMapAt(mints: seq<CreditedDeposit>, i: nat)
    requires DistinctMints(mints) && i < |mints|
    ensures mints[i].depositId in MintMap(mints) && MintMap(mints)[mints[i].depositId] == mints[i].amountToMint
  {
    var n := |mints| - 1;
    if i < n {
      MintMapAt(mints[..n], i);
    }
  }

  lemma {:induction false} MintMapFrom(mints: seq<CreditedDeposit>, id: DepositId) returns (i: nat)
    requires id in MintMap(mints)
    ensures i < |mints| && mints[i].depositId == id
  {
    var n := |mints| - 1;
    if mints[n].depositId == id {
      i := n;
    } else {
      i := MintMapFrom(mints[..n], id);
    }
  }

  lemma {:induction false} MintMapCard(mints: seq<CreditedDeposit>)
    requires DistinctMints(mints)
    ensures |MintMap(mints).Keys| == |mints|
  {
    if mints != [] {
      var n := |mints| - 1;
      var front, id := mints[..n], mints[n].depositId;
      MintMapCard(front);
      if id in MintMap(front) {
        var i := MintMapFrom(front, id);
      }
      assert MintMap(mints).Keys == MintMap(front).Keys + {id};
    }
  }

  /** As many distinct mints as deposits, all for deposits of the sweep, cover every deposit. */
  lemma CreditCovers(b: Book, sig: Signature, mints: seq<CreditedDeposit>)
    requires CanCredit(b, sig, mints)
    ensures MintMap(mints).Keys == b.finalized[sig].deposits.Keys
  {
    var keys, all := MintMap(mints).Keys, b.finalized[sig].deposits.Keys;
    MintMapCard(mints);
    forall id | id in keys ensures id in all {
      var i := MintMapFrom(mints, id);
    }
    assert all == keys + (all - keys);
    assert |all - keys| == 0;
  }

  // ---------- mint ----------

  predicate CanMint(b: Book, id: DepositId) {
    id in b.pendingMints && HoldsAccount(b, id, b.pendingMints[id].Account())
  }

  function Mint(b: Book, id: DepositId, index: MintIndex): Book
    requires id in b.pendingMints
  {
    var p := b.pendingMints[id];
    b.(pendingMints := b.pendingMints - {id},
       inFlightIds := b.inFlightIds - {p.Account()},
       queuedAtById := b.queuedAtById - {id},
       minted := b.minted[id := MintedSweep(p.deposit, p.amountToMint, index)])
  }

  predicate CanQuarantineMint(b: Book, id: DepositId) {
    id in b.pendingMints
  }

  function QuarantineMint(b: Book, id: DepositId): Book
    requires id in b.pendingMints
  {
    var p := b.pendingMints[id];
    b.(pendingMints := b.pendingMints - {id},
       queuedAtById := b.queuedAtById - {id},
       quarantined := b.quarantined[id :=
         QuarantinedDeposit(p.deposit, MintUnresolved(p.amountToMint, p.createdAtTime))])
  }

  // ---------- status ----------

  datatype Status =
    | StatusQueued(sweepable: Lamport)
    | StatusSwept(signature: Signature)
    | StatusFinalized(signature: Signature)
    | StatusMinted(blockIndex: MintIndex, mintedAmount: Lamport)
    | StatusDropped(signature: Signature)
    | StatusQuarantined(signature: Signature)
    | StatusNotFound

  /** The sweep holding the deposit, if any. */
  ghost function SweepHolding(sweeps: map<Signature, Sweep>, id: DepositId): Option<Signature> {
    if Unheld(sweeps, id) then None else
      var sig :| sig in sweeps && id in sweeps[sig].deposits;
      Some(sig)
  }

  /** Looks the stages up one after the other, as the canister endpoint does. */
  ghost function StatusOf(b: Book, id: DepositId): Status {
    if id in b.queued then StatusQueued(b.queued[id].Sweepable())
    else if SweepHolding(b.swept, id).Some? then StatusSwept(SweepHolding(b.swept, id).value)
    else if SweepHolding(b.finalized, id).Some? then StatusFinalized(SweepHolding(b.finalized, id).value)
    else if id in b.pendingMints then StatusFinalized(b.pendingMints[id].deposit.signature)
    else if id in b.minted then StatusMinted(b.minted[id].mintBlockIndex, b.minted[id].mintedAmount)
    else if id in b.dropped then StatusDropped(b.dropped[id].signature)
    else if id in b.quarantined then StatusQuarantined(b.quarantined[id].deposit.signature)
    else StatusNotFound
  }

  datatype InFlight = NotInFlight | Processing(id: DepositId) | Rejected(id: DepositId) | InFlightTrap

  /** The deposit of the account in flight; a minted, dropped or unknown one is a trap. */
  ghost function InFlightOf(b: Book, account: Account): InFlight {
    if account !in b.inFlightIds then NotInFlight else
      var id := b.inFlightIds[account];
      match StatusOf(b, id)
      case StatusQueued(_) => Processing(id)
      case StatusSwept(_) => Processing(id)
      case StatusFinalized(_) => Processing(id)
      case StatusQuarantined(_) => Rejected(id)
      case StatusMinted(_, _) => InFlightTrap
      case StatusDropped(_) => InFlightTrap
      case StatusNotFound => InFlightTrap
  }
}
