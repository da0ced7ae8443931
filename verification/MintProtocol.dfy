/** Minting against a ledger that deduplicates transactions, with replies lost, callbacks that
    trap and restarts (minter/src/deposit/sweep/mint/mod.rs). */
module MintProtocol {
  import opened Prelude
  import opened Solana
  import opened Sweeps
  import opened ScanSchedule
  import opened DepositBook
  import opened DepositLifecycle
  import opened Minter
  import opened WithdrawalRecords
  import opened MinterRuns
  import opened Memos
  import opened Solvency

  // ---------- the ledger ----------

  /** The arguments of a mint that the ledger compares transactions by. */
  datatype MintArg = MintArg(to: Account, createdAt: Timestamp, memo: seq<Byte>, amount: Lamport)

  const LEDGER_DEDUPLICATION_WINDOW: nat := 86_400_000_000_000
  const PERMITTED_DRIFT: nat := 120_000_000_000

  predicate TooOld(arg: MintArg, now: Timestamp) {
    arg.createdAt + LEDGER_DEDUPLICATION_WINDOW + PERMITTED_DRIFT < now
  }

  predicate CreatedInFuture(arg: MintArg, now: Timestamp) {
    arg.createdAt > now + PERMITTED_DRIFT
  }

  /** The ledger remembers a transaction as long as it would accept it again. */
  ghost predicate Remembers(blocks: seq<MintArg>, arg: MintArg, now: Timestamp) {
    exists j | 0 <= j < |blocks| :: blocks[j] == arg && !TooOld(blocks[j], now)
  }

  /** The rule of ICRC-1: neither too old, nor in the future, nor a duplicate. */
  ghost predicate Accepts(blocks: seq<MintArg>, arg: MintArg, now: Timestamp) {
    !TooOld(arg, now) && !CreatedInFuture(arg, now) && !Remembers(blocks, arg, now)
  }

  /** A transaction that is accepted was never recorded before, at any time. */
  lemma AcceptedIsNew(blocks: seq<MintArg>, arg: MintArg, now: Timestamp)
    requires Accepts(blocks, arg, now)
    ensures arg !in blocks
  {
    forall j | 0 <= j < |blocks| ensures blocks[j] != arg {}
  }

  // ---------- what the minter sends ----------

  function MintMemo(id: DepositId, signature: Signature): seq<Byte>
    requires id <= U64_MAX
  {
    Encode(MintSweep(signature, id))
  }

  /** A pure function of the recorded pending mint. */
  function MintTransferArg(id: DepositId, p: PendingMint): MintArg
    requires id <= U64_MAX
  {
    MintArg(p.Account(), p.createdAtTime, MintMemo(id, p.deposit.signature), p.amountToMint)
  }

  predicate IsBeyondDeduplicationWindow(p: PendingMint, now: Timestamp) {
    SaturatingSub(now, p.createdAtTime) > LEDGER_DEDUPLICATION_WINDOW
  }

  /** A mint is given up exactly when a ledger whose clock is ahead by the permitted drift would reject it
      as too old: more than a day after it was credited. */
  lemma BeyondWindowIff(id: DepositId, p: PendingMint, now: Timestamp)
    requires id <= U64_MAX
    ensures IsBeyondDeduplicationWindow(p, now) <==> now > p.createdAtTime + 86_400_000_000_000
    ensures IsBeyondDeduplicationWindow(p, now) <==> TooOld(MintTransferArg(id, p), now + PERMITTED_DRIFT)
  {}

  /** Distinct deposits never send equal arguments. */
  lemma ArgsDiffer(id: DepositId, p: PendingMint, id': DepositId, p': PendingMint)
    requires id <= U64_MAX && id' <= U64_MAX && MintTransferArg(id, p) == MintTransferArg(id', p')
    ensures id == id' && p.deposit.signature == p'.deposit.signature && p.amountToMint == p'.amountToMint
  {
    MemoInjective(MintSweep(p.deposit.signature, id), MintSweep(p'.deposit.signature, id'));
  }

  /** What the ledger answers. */
  datatype Reply =
    | Minted(index: nat)
    | Duplicate(of: nat)
    | RejectedTooOld
    | RejectedForever
    | Transient
    | NoReply

  /** What the minter records for a reply, if anything. */
  function RecordedFor(id: DepositId, reply: Reply): Option<Event> {
    match reply
    case Minted(index) => Some(MintedSweptDeposit(id, index))
    case Duplicate(of) => Some(MintedSweptDeposit(id, of))
    case RejectedTooOld => Some(QuarantinedPendingMint(id))
    case RejectedForever => Some(QuarantinedPendingMint(id))
    case Transient => None
    case NoReply => None
  }

  // ---------- the world ----------

  /** The minter, the blocks of the ledger with the deposit each one is for, the arguments ever
      sent for each deposit, and the snapshot of the round with the call awaiting its reply. */
  datatype World = World(
    s: MinterState,
    h: History,
    blocks: seq<MintArg>,
    owners: seq<DepositId>,
    sent: map<DepositId, MintArg>,
    round: map<DepositId, PendingMint>,
    call: Option<DepositId>)

  /** The recorded claim of a deposit: its pending mint, also when its outcome is unresolved. */
  ghost function ClaimOf(b: Book, id: DepositId): Option<PendingMint> {
    if id in b.pendingMints then Some(b.pendingMints[id])
    else if id in b.quarantined && b.quarantined[id].cause.MintUnresolved? then
      var q := b.quarantined[id];
      Some(PendingMint(q.deposit, q.cause.amountToMint, q.cause.createdAtTime))
    else None
  }

  /** Everything ever sent for a deposit is what its record says. */
  ghost predicate SentAgrees(b: Book, blocks: seq<MintArg>, id: DepositId, arg: MintArg) {
    && id <= U64_MAX
    && if id in b.minted then
         && b.minted[id].mintBlockIndex < |blocks| && blocks[b.minted[id].mintBlockIndex] == arg
         && arg.amount == b.minted[id].mintedAmount && arg.to == b.minted[id].deposit.deposit.account
         && arg.memo == MintMemo(id, b.minted[id].deposit.signature)
       else ClaimOf(b, id).Some? && arg == MintTransferArg(id, ClaimOf(b, id).value)
  }

  ghost predicate AllSentAgree(b: Book, blocks: seq<MintArg>, sent: map<DepositId, MintArg>) {
    && (forall id | id in sent :: SentAgrees(b, blocks, id, sent[id]))
    && (forall id | id in b.minted :: id in sent)
  }

  /** Every block is the mint of one deposit, and no deposit has two. */
  ghost predicate BlocksAgree(blocks: seq<MintArg>, owners: seq<DepositId>, sent: map<DepositId, MintArg>) {
    && |owners| == |blocks| && Distinct(owners)
    && forall j | 0 <= j < |blocks| :: owners[j] in sent && blocks[j] == sent[owners[j]]
  }

  /** The snapshot of the round is still pending, as it was taken. */
  ghost predicate RoundAgrees(b: Book, round: map<DepositId, PendingMint>) {
    forall id | id in round :: id in b.pendingMints && b.pendingMints[id] == round[id]
  }

  ghost predicate CallAgrees(x: World) {
    x.call.Some? ==>
      && x.call.value in x.round && x.call.value <= U64_MAX
      && x.call.value in x.sent && x.sent[x.call.value] == MintTransferArg(x.call.value, x.round[x.call.value])
  }

  ghost predicate MintInv(x: World) {
    && Inv(x.s, x.h) && AllSentAgree(x.s.book, x.blocks, x.sent) && BlocksAgree(x.blocks, x.owners, x.sent)
    && RoundAgrees(x.s.book, x.round) && CallAgrees(x)
  }

  // ---------- steps ----------

  /** A round of the minting timer begins with a snapshot of pending mints. */
  ghost predicate Begins(x: World, x': World) {
    x' == x.(round := x'.round, call := None) && RoundAgrees(x.s.book, x'.round)
  }

  /** A pending mint within the window is sent. */
  ghost predicate Sends(x: World, x': World, id: DepositId, now: Timestamp) {
    && x.call.None? && id in x.round && id <= U64_MAX && !IsBeyondDeduplicationWindow(x.round[id], now)
    && x' == x.(sent := x.sent[id := MintTransferArg(id, x.round[id])], call := Some(id))
  }

  /** The ledger executes anything ever sent, as often as it likes, whether or not anybody still
      waits for the reply. */
  ghost predicate LedgerExecutes(x: World, x': World, id: DepositId, now: Timestamp) {
    && id in x.sent && Accepts(x.blocks, x.sent[id], now)
    && x' == x.(blocks := x.blocks + [x.sent[id]], owners := x.owners + [id])
  }

  /** A reply names a block only if the block holds what was sent. */
  ghost predicate Truthful(x: World, reply: Reply)
    requires x.call.Some? && x.call.value in x.sent
  {
    match reply
    case Minted(j) => j < |x.blocks| && x.blocks[j] == x.sent[x.call.value]
    case Duplicate(j) => j < |x.blocks| && x.blocks[j] == x.sent[x.call.value]
    case _ => true
  }

  /** The reply arrives and is recorded; an error or a lost reply leaves the mint pending. */
  ghost predicate Replies(x: World, x': World, reply: Reply, now: Timestamp) {
    && x.call.Some? && x.call.value in x.sent && Truthful(x, reply)
    && var id := x.call.value;
       match RecordedFor(id, reply)
       case None => x' == x.(round := x.round - {id}, call := None)
       case Some(e) => Resolves(x, x', e, id, now)
  }

  /** A mint beyond the window, or whose callback trapped, is quarantined. */
  ghost predicate Quarantines(x: World, x': World, id: DepositId, now: Timestamp) {
    id in x.round && Resolves(x, x', QuarantinedPendingMint(id), id, now)
  }

  ghost predicate Resolves(x: World, x': World, e: Event, id: DepositId, now: Timestamp) {
    && CanApply(x.s, e)
    && x' == x.(s := Apply(x.s, e, now), h := MinterRuns.After(x.s, x.h, e, now), round := x.round - {id}, call := None)
  }

  /** The events of the minting timer. */
  ghost predicate ResolvesMint(e: Event) {
    e.MintedSweptDeposit? || e.QuarantinedPendingMint?
  }

  /** Any event of anybody else. */
  ghost predicate Elsewhere(x: World, x': World, e: Event, now: Timestamp) {
    && CanApply(x.s, e) && Admissible(x.s, x.h, e) && !ResolvesMint(e)
    && x' == x.(s := Apply(x.s, e, now), h := MinterRuns.After(x.s, x.h, e, now))
  }

  /** An upgrade loses the round and the call; what was sent may still be executed. */
  ghost predicate Restarts(x: World, x': World) {
    x' == x.(round := map[], call := None)
  }

  // ---------- no step traps ----------

  /** Recording a mint or a quarantine for a deposit of the round never traps. */
  lemma ResolvingNeverTraps(x: World, id: DepositId, index: MintIndex)
    requires MintInv(x) && id in x.round
    ensures CanApply(x.s, MintedSweptDeposit(id, index)) && CanApply(x.s, QuarantinedPendingMint(id))
  {
    hide Buckets, Listed, TxsAgree, NoncesAgree, Keyed, Agrees, AllSentAgree, BlocksAgree;
    MintAgrees(x.s.book, x.h.deposits, id, index);
  }

  // ---------- every step keeps the invariant ----------

  lemma SendKeeps(x: World, x': World, id: DepositId, now: Timestamp)
    requires MintInv(x) && Sends(x, x', id, now)
    ensures MintInv(x') && (id in x.sent ==> x.sent[id] == x'.sent[id])
  {
    hide Inv, MintTransferArg, SentAgrees;
    PendingNotMinted(x.s, x.h, id);
    var arg := MintTransferArg(id, x.round[id]);
    SendAgrees(x.s.book, x.blocks, x.sent, id, arg);
  }

  /** Every retry sends what was sent before. */
  lemma SendAgrees(b: Book, blocks: seq<MintArg>, sent: map<DepositId, MintArg>, id: DepositId, arg: MintArg)
    requires AllSentAgree(b, blocks, sent) && id in b.pendingMints && id !in b.minted && id <= U64_MAX
    requires arg == MintTransferArg(id, b.pendingMints[id])
    ensures id in sent ==> sent[id] == arg
    ensures AllSentAgree(b, blocks, sent[id := arg])
  {
    hide MintTransferArg;
    assert id in sent ==> SentAgrees(b, blocks, id, sent[id]);
    assert SentAgrees(b, blocks, id, arg);
  }

  lemma PendingNotMinted(s: MinterState, h: History, id: DepositId)
    requires Inv(s, h) && id in s.book.pendingMints
    ensures id !in s.book.minted && id !in s.book.quarantined
  {
    hide Buckets, Listed, TxsAgree, NoncesAgree, Keyed, Records, InFlightAgree, LatestAgree, AllPlans, Located;
    PendingElsewhere(s.book, h.deposits, id);
  }

  lemma ExecuteKeeps(x: World, x': World, id: DepositId, now: Timestamp)
    requires MintInv(x) && LedgerExecutes(x, x', id, now)
    ensures MintInv(x')
  {
    hide Inv, Accepts, MintTransferArg, MintMemo;
    AcceptedIsNew(x.blocks, x.sent[id], now);
    forall j | 0 <= j < |x.owners| ensures x.owners[j] != id {
      assert x.blocks[j] == x.sent[x.owners[j]] && x.blocks[j] in x.blocks;
    }
    BlocksGrow(x.s.book, x.blocks, x.sent, x.sent[id]);
  }

  lemma BlocksGrow(b: Book, blocks: seq<MintArg>, sent: map<DepositId, MintArg>, arg: MintArg)
    requires AllSentAgree(b, blocks, sent)
    ensures AllSentAgree(b, blocks + [arg], sent)
  {
    hide MintTransferArg, MintMemo, ClaimOf;
    forall id | id in sent ensures SentAgrees(b, blocks + [arg], id, sent[id]) {
      assert SentAgrees(b, blocks, id, sent[id]);
    }
  }

  /** What the other events leave alone: claims stay as recorded, and mints stay minted. */
  ghost predicate ClaimsStay(b: Book, b': Book) {
    && b'.minted == b.minted
    && forall id :: ClaimOf(b, id).Some? ==> ClaimOf(b', id) == ClaimOf(b, id)
  }

  lemma ClaimsStaySent(b: Book, b': Book, blocks: seq<MintArg>, sent: map<DepositId, MintArg>)
    requires AllSentAgree(b, blocks, sent) && ClaimsStay(b, b')
    ensures AllSentAgree(b', blocks, sent)
  {
    hide ClaimOf, MintMemo, MintTransferArg;
    forall id | id in sent ensures SentAgrees(b', blocks, id, sent[id]) {
      assert SentAgrees(b, blocks, id, sent[id]);
    }
  }

  lemma ElsewhereKeeps(x: World, x': World, e: Event, now: Timestamp)
    requires MintInv(x) && Elsewhere(x, x', e, now)
    ensures MintInv(x')
  {
    hide Inv, CanApply, Apply, MinterRuns.After, Admissible, AllSentAgree, BlocksAgree, ClaimOf, MintTransferArg;
    EventKeeps(x.s, x.h, e, now);
    ClaimsStayed(x.s, x.h, e, now);
    ClaimsStaySent(x.s.book, x'.s.book, x.blocks, x.sent);
  }

  /** An event of anybody else leaves pending mints as they are. */
  lemma ClaimsStayed(s: MinterState, h: History, e: Event, now: Timestamp)
    requires Inv(s, h) && CanApply(s, e) && !ResolvesMint(e)
    ensures ClaimsStay(s.book, Apply(s, e, now).book)
    ensures forall id | id in s.book.pendingMints ::
              id in Apply(s, e, now).book.pendingMints && Apply(s, e, now).book.pendingMints[id] == s.book.pendingMints[id]
  {
    hide Inv, CanUpgrade, CanAccept, CanSubmit, CanSucceed, CanFail, CanQueue, CanCreate, CanCreditSweep, CanSweep,
         CanFinalize, CanDropSwept, Submitted, Succeeded, FailedBy, SweepQueued, Finalize, DropSwept, Credit, QuarantineSweep,
         DepositFees;
    match e
    case CreditedSweep(sig, _, mints) => CreditClaimsStay(s, h, sig, e.amountReceived, mints, now);
    case QuarantinedSweep(sig) => UnreadableClaimsStay(s, h, sig);
    case SubmittedTransaction(sig, message, signers, purpose) =>
      SubmittedParts(s, sig, message, signers, purpose, now);
      if purpose.SweepDeposit? {
        SweepStages(s.book, purpose.depositIds, MinterAddress(s.key.value), message, sig);
      }
    case SucceededTransaction(sig) =>
      SucceededParts(s, sig);
      ResolvedStages(s.book, sig);
    case FailedTransaction(sig) =>
      FailedParts(s, sig);
      ResolvedStages(s.book, sig);
    case ExpiredTransaction(sig) => ResolvedStages(s.book, sig);
    case _ =>
  }

  ghost predicate SameClaimStages(b: Book, b': Book) {
    b'.minted == b.minted && b'.pendingMints == b.pendingMints && b'.quarantined == b.quarantined
  }

  lemma SweepStages(b: Book, ids: seq<DepositId>, minter: Address, message: Message, sig: Signature)
    requires CanSweep(b, ids, minter, message, sig)
    ensures SameClaimStages(b, SweepQueued(b, ids, minter, sig))
  {
    hide PlanOf, Picked, CanPlan;
  }

  lemma ResolvedStages(b: Book, sig: Signature)
    ensures CanFinalize(b, sig) ==> SameClaimStages(b, Finalize(b, sig))
    ensures CanDropSwept(b, sig) ==> SameClaimStages(b, DropSwept(b, sig))
  {
    hide Unheld, HoldsAccount, DroppedOf, AccountsOf;
  }

  lemma CreditClaimsStay(s: MinterState, h: History, sig: Signature, amount: Lamport, mints: seq<CreditedDeposit>, now: Timestamp)
    requires Inv(s, h) && CanCreditSweep(s, sig, amount, mints)
    ensures sig in s.book.finalized && ClaimsStay(s.book, Credit(s.book, sig, mints, now))
    ensures forall id | id in s.book.pendingMints ::
              && id in Credit(s.book, sig, mints, now).pendingMints
              && Credit(s.book, sig, mints, now).pendingMints[id] == s.book.pendingMints[id]
  {
    hide Inv, ClaimsStay, MintMap, DepositFees, AmountsToMint, Sum;
    CreditFresh(s, h, sig, mints);
    PendingAdds(s.book, sig, MintMap(mints), now);
  }

  lemma PendingAdds(b: Book, sig: Signature, amounts: map<DepositId, Lamport>, now: Timestamp)
    requires sig in b.finalized && forall id | id in amounts :: id !in b.pendingMints && id !in b.quarantined
    ensures var more := PendingOf(b.finalized[sig].deposits, sig, amounts, now);
            && ClaimsStay(b, b.(finalized := b.finalized - {sig}, pendingMints := b.pendingMints + more))
            && forall id | id in b.pendingMints ::
                 id in b.pendingMints + more && (b.pendingMints + more)[id] == b.pendingMints[id]
  {}

  /** The deposits of a sweep being credited are not pending or quarantined yet. */
  lemma CreditFresh(s: MinterState, h: History, sig: Signature, mints: seq<CreditedDeposit>)
    requires Inv(s, h) && CanCredit(s.book, sig, mints)
    ensures forall id | id in MintMap(mints) :: id !in s.book.pendingMints && id !in s.book.quarantined
  {
    hide Buckets, Listed, TxsAgree, NoncesAgree, Keyed, Agrees;
    FinalizedElsewhere(s.book, h.deposits, sig);
    CreditCovers(s.book, sig, mints);
    forall id | id in MintMap(mints) ensures id !in s.book.pendingMints && id !in s.book.quarantined.Keys {
      var i := MintMapFrom(mints, id);
      assert id in MintMap(mints).Keys;
    }
  }

  lemma UnreadableClaimsStay(s: MinterState, h: History, sig: Signature)
    requires Inv(s, h) && sig in s.book.finalized
    ensures ClaimsStay(s.book, QuarantineSweep(s.book, sig))
    ensures QuarantineSweep(s.book, sig).pendingMints == s.book.pendingMints
  {
    hide Buckets, Listed, TxsAgree, NoncesAgree, Keyed, Agrees;
    FinalizedElsewhere(s.book, h.deposits, sig);
  }

  // ---------- resolving a mint ----------

  lemma QuarantineKeepsSent(b: Book, blocks: seq<MintArg>, sent: map<DepositId, MintArg>, id: DepositId)
    requires AllSentAgree(b, blocks, sent) && id in b.pendingMints && id !in b.minted
    ensures AllSentAgree(QuarantineMint(b, id), blocks, sent)
  {
    hide MintTransferArg, MintMemo;
    var b' := QuarantineMint(b, id);
    forall x | x in sent ensures SentAgrees(b', blocks, x, sent[x]) {
      assert SentAgrees(b, blocks, x, sent[x]);
      assert ClaimOf(b', x) == ClaimOf(b, x);
    }
  }

  lemma MintKeepsSent(b: Book, blocks: seq<MintArg>, sent: map<DepositId, MintArg>, id: DepositId, index: nat)
    requires AllSentAgree(b, blocks, sent) && id in b.pendingMints && id !in b.minted && id in sent
    requires index < |blocks| && blocks[index] == sent[id]
    ensures AllSentAgree(Mint(b, id, index), blocks, sent)
  {
    hide MintMemo;
    var b' := Mint(b, id, index);
    forall x | x in sent ensures SentAgrees(b', blocks, x, sent[x]) {
      assert SentAgrees(b, blocks, x, sent[x]);
    }
  }

  lemma ResolveKeeps(x: World, x': World, e: Event, id: DepositId, now: Timestamp)
    requires MintInv(x) && id in x.round && Resolves(x, x', e, id, now) && ResolvesMint(e) && e.depositId == id
    requires e.MintedSweptDeposit? ==> id in x.sent && e.mintBlockIndex < |x.blocks| && x.blocks[e.mintBlockIndex] == x.sent[id]
    ensures MintInv(x')
  {
    hide Inv, AllSentAgree, BlocksAgree, MintTransferArg, MinterRuns.After, Mint, QuarantineMint;
    EventKeeps(x.s, x.h, e, now);
    PendingNotMinted(x.s, x.h, id);
    RoundShrinks(x.s.book, x.round, id);
    if e.MintedSweptDeposit? {
      MintKeepsSent(x.s.book, x.blocks, x.sent, id, e.mintBlockIndex);
    } else {
      QuarantineKeepsSent(x.s.book, x.blocks, x.sent, id);
    }
  }

  lemma RoundShrinks(b: Book, round: map<DepositId, PendingMint>, id: DepositId)
    requires RoundAgrees(b, round) && id in b.pendingMints
    ensures forall index :: RoundAgrees(Mint(b, id, index), round - {id})
    ensures RoundAgrees(QuarantineMint(b, id), round - {id})
  {}

  lemma ReplyKeeps(x: World, x': World, reply: Reply, now: Timestamp)
    requires MintInv(x) && Replies(x, x', reply, now)
    ensures MintInv(x')
  {
    hide Inv, AllSentAgree, BlocksAgree, MintTransferArg, Resolves;
    var id := x.call.value;
    match RecordedFor(id, reply)
    case None =>
    case Some(e) => ResolveKeeps(x, x', e, id, now);
  }

  /** What each answer of the ledger leads to: a block, its own or the one it duplicates, makes the
      deposit minted in that block; a definite rejection quarantines it with its claim; anything else
      leaves everything as it was, for the next round. */
  lemma AnswerMeans(x: World, x': World, reply: Reply, now: Timestamp)
    requires MintInv(x) && Replies(x, x', reply, now)
    ensures var id, b := x.call.value, x'.s.book;
            && id in x.s.book.pendingMints && x'.blocks == x.blocks && x'.sent == x.sent
            && match reply
               case Minted(j) => id in b.minted && b.minted[id].mintBlockIndex == j && x.blocks[j] == x.sent[id]
               case Duplicate(j) => id in b.minted && b.minted[id].mintBlockIndex == j && x.blocks[j] == x.sent[id]
               case RejectedTooOld => id in b.quarantined && id !in b.pendingMints && ClaimOf(b, id) == ClaimOf(x.s.book, id)
               case RejectedForever => id in b.quarantined && id !in b.pendingMints && ClaimOf(b, id) == ClaimOf(x.s.book, id)
               case Transient => x'.s == x.s
               case NoReply => x'.s == x.s
  {
    hide Inv, AllSentAgree, BlocksAgree, MintTransferArg, MinterRuns.After;
    PendingNotMinted(x.s, x.h, x.call.value);
  }

  // ---------- runs ----------

  datatype Step =
    | BeginRound
    | Send(id: DepositId, now: Timestamp)
    | Execute(id: DepositId, now: Timestamp)
    | Answer(reply: Reply, now: Timestamp)
    | Quarantine(id: DepositId, now: Timestamp)
    | Other(event: Event, now: Timestamp)
    | Restart

  ghost predicate Takes(x: World, step: Step, x': World) {
    match step
    case BeginRound => Begins(x, x')
    case Send(id, now) => Sends(x, x', id, now)
    case Execute(id, now) => LedgerExecutes(x, x', id, now)
    case Answer(reply, now) => Replies(x, x', reply, now)
    case Quarantine(id, now) => Quarantines(x, x', id, now)
    case Other(e, now) => Elsewhere(x, x', e, now)
    case Restart => Restarts(x, x')
  }

  lemma StepKeeps(x: World, step: Step, x': World)
    requires MintInv(x) && Takes(x, step, x')
    ensures MintInv(x')
  {
    hide Inv, AllSentAgree, BlocksAgree, Sends, LedgerExecutes, Replies, Resolves, Elsewhere;
    match step
    case BeginRound =>
    case Send(id, now) => SendKeeps(x, x', id, now);
    case Execute(id, now) => ExecuteKeeps(x, x', id, now);
    case Answer(reply, now) => ReplyKeeps(x, x', reply, now);
    case Quarantine(id, now) => ResolveKeeps(x, x', QuarantinedPendingMint(id), id, now);
    case Other(e, now) => ElsewhereKeeps(x, x', e, now);
    case Restart =>
  }

  ghost predicate Starts(x: World, a: InitArgs) {
    CanInit(a) && x == World(InitialState(a), EMPTY_HISTORY, [], [], map[], map[], None)
  }

  ghost predicate MintRun(run: seq<World>, steps: seq<Step>) {
    && |run| == |steps| + 1 && (exists a :: Starts(run[0], a))
    && forall i | 0 <= i < |steps| :: Takes(run[i], steps[i], run[i + 1])
  }

  lemma {:induction false} RunKeeps(run: seq<World>, steps: seq<Step>, i: nat)
    requires MintRun(run, steps) && i < |run|
    ensures MintInv(run[i])
  {
    hide MintInv, Takes, Starts;
    if i == 0 {
      var a :| Starts(run[0], a);
      StartsKeeps(run[0], a);
    } else {
      RunKeeps(run, steps, i - 1);
      StepKeeps(run[i - 1], steps[i - 1], run[i]);
    }
  }

  lemma StartsKeeps(x: World, a: InitArgs)
    requires Starts(x, a)
    ensures MintInv(x)
  {
    hide Inv;
    InitialInv(a);
  }

  // ---------- what the protocol guarantees ----------

  /** The blocks that mint a deposit. */
  ghost function MintsOf(x: World, id: DepositId): set<nat> {
    set j | 0 <= j < |x.owners| && x.owners[j] == id
  }

  /** In every run the ledger holds at most one mint per deposit, whatever replies were lost, and
      exactly the one of the recorded amount once the deposit is recorded as minted. */
  lemma MintedAtMostOnce(run: seq<World>, steps: seq<Step>, n: nat, id: DepositId)
    requires MintRun(run, steps) && n < |run|
    ensures |MintsOf(run[n], id)| <= 1
    ensures id in run[n].s.book.minted ==>
              var m := run[n].s.book.minted[id];
              && MintsOf(run[n], id) == {m.mintBlockIndex}
              && m.mintBlockIndex < |run[n].blocks| && run[n].blocks[m.mintBlockIndex].amount == m.mintedAmount
  {
    hide MintRun, Inv;
    RunKeeps(run, steps, n);
    OneMint(run[n], id);
  }

  /** In every run, a deposit reported as minted in a block was minted by that block and no other, for
      the reported amount. */
  lemma MintedStatusIsReal(run: seq<World>, steps: seq<Step>, n: nat, id: DepositId, j: MintIndex, amount: Lamport)
    requires MintRun(run, steps) && n < |run| && StatusOf(run[n].s.book, id) == StatusMinted(j, amount)
    ensures MintsOf(run[n], id) == {j} && j < |run[n].blocks| && run[n].blocks[j].amount == amount
  {
    hide MintRun, Inv, MintsOf, SweepHolding;
    MintedAtMostOnce(run, steps, n, id);
  }

  // ---------- what a block says ----------

  /** The arguments credit the account the deposit was queued for, and their memo decodes to the sweep
      that took the deposit and to its id. */
  ghost predicate NamesDeposit(t: Trace, id: DepositId, arg: MintArg) {
    && id in t.origin && id in t.sweptBy && arg.to == t.origin[id].account
    && Decode(arg.memo) == Some(MintSweep(t.sweptBy[id], id))
  }

  lemma SentNames(x: World, id: DepositId)
    requires MintInv(x) && id in x.sent
    ensures NamesDeposit(x.h.deposits, id, x.sent[id])
  {
    hide Buckets, Listed, TxsAgree, NoncesAgree, Keyed, Located, Numbered, InFlightAgree, LatestAgree, AllPlans, SweepsRecorded,
         BlocksAgree, Encode, Decode;
    assert SentAgrees(x.s.book, x.blocks, id, x.sent[id]);
    assert id in x.h.deposits.origin && id in x.h.deposits.sweptBy;
    MemoRoundTrip(MintSweep(x.h.deposits.sweptBy[id], id));
  }

  /** Some credit of the run gave the deposit this amount at this time, for this sweep. */
  ghost predicate CreditGave(steps: seq<Step>, n: nat, id: DepositId, sig: Signature, amount: Lamport, at: Timestamp)
    requires n <= |steps|
  {
    exists k :: 0 <= k < n && GivenBy(steps[k], id, sig, amount, at)
  }

  ghost predicate GivenBy(step: Step, id: DepositId, sig: Signature, amount: Lamport, at: Timestamp) {
    && step.Other? && step.now == at && step.event.CreditedSweep? && step.event.signature == sig
    && CreditedDeposit(id, amount) in step.event.mints
  }

  ghost predicate ClaimGiven(steps: seq<Step>, n: nat, id: DepositId, p: PendingMint)
    requires n <= |steps|
  {
    CreditGave(steps, n, id, p.deposit.signature, p.amountToMint, p.createdAtTime)
  }

  ghost predicate SentGiven(steps: seq<Step>, n: nat, id: DepositId, arg: MintArg)
    requires n <= |steps|
  {
    id <= U64_MAX && exists sig :: arg.memo == MintMemo(id, sig) && CreditGave(steps, n, id, sig, arg.amount, arg.createdAt)
  }

  ghost predicate AllGiven(x: World, steps: seq<Step>, n: nat)
    requires n <= |steps|
  {
    && (forall id | ClaimOf(x.s.book, id).Some? :: ClaimGiven(steps, n, id, ClaimOf(x.s.book, id).value))
    && (forall id | id in x.sent :: SentGiven(steps, n, id, x.sent[id]))
  }

  lemma GivenStays(steps: seq<Step>, n: nat, id: DepositId, sig: Signature, amount: Lamport, at: Timestamp)
    requires n < |steps| && CreditGave(steps, n, id, sig, amount, at)
    ensures CreditGave(steps, n + 1, id, sig, amount, at)
  {}

  lemma SentStays(steps: seq<Step>, n: nat, id: DepositId, arg: MintArg)
    requires n < |steps| && SentGiven(steps, n, id, arg)
    ensures SentGiven(steps, n + 1, id, arg)
  {
    hide MintMemo, CreditGave;
    var sig :| arg.memo == MintMemo(id, sig) && CreditGave(steps, n, id, sig, arg.amount, arg.createdAt);
    GivenStays(steps, n, id, sig, arg.amount, arg.createdAt);
  }

  /** A claim is an old one, or a credit has just given it. */
  ghost predicate ClaimsFrom(b: Book, step: Step, b': Book) {
    forall id | ClaimOf(b', id).Some? ::
      var p := ClaimOf(b', id).value;
      ClaimOf(b, id) == Some(p) || GivenBy(step, id, p.deposit.signature, p.amountToMint, p.createdAtTime)
  }

  lemma CreditClaimsFrom(b: Book, sig: Signature, amount: Lamport, mints: seq<CreditedDeposit>, now: Timestamp)
    requires CanCredit(b, sig, mints)
    ensures ClaimsFrom(b, Other(CreditedSweep(sig, amount, mints), now), Credit(b, sig, mints, now))
  {
    var b', step := Credit(b, sig, mints, now), Other(CreditedSweep(sig, amount, mints), now);
    forall id | ClaimOf(b', id).Some?
      ensures var p := ClaimOf(b', id).value;
              ClaimOf(b, id) == Some(p) || GivenBy(step, id, p.deposit.signature, p.amountToMint, p.createdAtTime)
    {
      if id in MintMap(mints) && id in b.finalized[sig].deposits {
        var i := MintMapFrom(mints, id);
        MintMapAt(mints, i);
        assert mints[i] == CreditedDeposit(id, MintMap(mints)[id]);
      }
    }
  }

  lemma SameClaimsFrom(b: Book, step: Step, b': Book)
    requires SameClaimStages(b, b')
    ensures ClaimsFrom(b, step, b')
  {}

  lemma UnreadableClaimsFrom(b: Book, step: Step, sig: Signature)
    requires sig in b.finalized
    ensures ClaimsFrom(b, step, QuarantineSweep(b, sig))
  {}

  lemma EventClaimsFrom(s: MinterState, e: Event, now: Timestamp)
    requires CanApply(s, e) && !ResolvesMint(e)
    ensures ClaimsFrom(s.book, Other(e, now), Apply(s, e, now).book)
  {
    hide CanUpgrade, CanAccept, CanSubmit, CanSucceed, CanFail, CanCreate, CanSweep, CanFinalize, CanDropSwept, Submitted, Succeeded,
         FailedBy, SweepQueued, Finalize, DropSwept, Credit, QuarantineSweep, DepositFees, ClaimsFrom, CanCredit, AmountsToMint, Sum;
    match e {
      case CreditedSweep(sig, amount, mints) => CreditClaimsFrom(s.book, sig, amount, mints, now);
      case QuarantinedSweep(sig) => UnreadableClaimsFrom(s.book, Other(e, now), sig);
      case SubmittedTransaction(sig, message, signers, purpose) =>
        SubmittedParts(s, sig, message, signers, purpose, now);
        if purpose.SweepDeposit? {
          SweepStages(s.book, purpose.depositIds, MinterAddress(s.key.value), message, sig);
        }
      case SucceededTransaction(sig) =>
        SucceededParts(s, sig);
        ResolvedStages(s.book, sig);
      case FailedTransaction(sig) =>
        FailedParts(s, sig);
        ResolvedStages(s.book, sig);
      case ExpiredTransaction(sig) => ResolvedStages(s.book, sig);
      case _ =>
    }
    if !e.CreditedSweep? && !e.QuarantinedSweep? {
      SameClaimsFrom(s.book, Other(e, now), Apply(s, e, now).book);
    }
  }

  /** Resolving a mint gives no new claim. */
  lemma ResolveClaimsFrom(x: World, x': World, e: Event, id: DepositId, now: Timestamp, step: Step)
    requires MintInv(x) && Resolves(x, x', e, id, now) && ResolvesMint(e) && e.depositId == id && id in x.s.book.pendingMints
    ensures ClaimsFrom(x.s.book, step, x'.s.book) && x'.sent == x.sent
  {
    hide Inv, AllSentAgree, BlocksAgree, RoundAgrees, CallAgrees, MinterRuns.After;
    PendingNotMinted(x.s, x.h, id);
    ResolvedClaims(x.s.book, step, id);
  }

  lemma ResolvedClaims(b: Book, step: Step, id: DepositId)
    requires id in b.pendingMints && id !in b.quarantined
    ensures forall index :: ClaimsFrom(b, step, Mint(b, id, index))
    ensures ClaimsFrom(b, step, QuarantineMint(b, id))
  {}

  lemma StepClaimsFrom(x: World, step: Step, x': World)
    requires MintInv(x) && Takes(x, step, x')
    ensures ClaimsFrom(x.s.book, step, x'.s.book)
    ensures step.Send? || x'.sent == x.sent
  {
    hide Inv, AllSentAgree, BlocksAgree, CanApply, Apply, MinterRuns.After, Admissible, ClaimsFrom, Resolves, Accepts, MintTransferArg,
         ClaimOf;
    match step
    case Other(e, now) => EventClaimsFrom(x.s, e, now);
    case Answer(reply, now) =>
      var id := x.call.value;
      match RecordedFor(id, reply) {
        case None => SameClaimsFrom(x.s.book, step, x.s.book);
        case Some(e) => ResolveClaimsFrom(x, x', e, id, now, step);
      }
    case Quarantine(id, now) => ResolveClaimsFrom(x, x', QuarantinedPendingMint(id), id, now, step);
    case _ => SameClaimsFrom(x.s.book, step, x.s.book);
  }

  lemma StepGiven(x: World, step: Step, x': World, steps: seq<Step>, n: nat)
    requires MintInv(x) && Takes(x, step, x') && n < |steps| && steps[n] == step && AllGiven(x, steps, n)
    ensures AllGiven(x', steps, n + 1)
  {
    hide MintInv, Takes, CreditGave, ClaimOf, SentGiven, MintMemo, ClaimsFrom, ClaimGiven;
    StepClaimsFrom(x, step, x');
    ClaimsGiven(x.s.book, step, x'.s.book, steps, n);
    forall id | id in x'.sent ensures SentGiven(steps, n + 1, id, x'.sent[id]) {
      StepSentGiven(x, step, x', steps, n, id);
    }
  }

  lemma ClaimsGiven(b: Book, step: Step, b': Book, steps: seq<Step>, n: nat)
    requires n < |steps| && steps[n] == step && ClaimsFrom(b, step, b')
    requires forall id | ClaimOf(b, id).Some? :: ClaimGiven(steps, n, id, ClaimOf(b, id).value)
    ensures forall id | ClaimOf(b', id).Some? :: ClaimGiven(steps, n + 1, id, ClaimOf(b', id).value)
  {
    hide CreditGave, ClaimOf, GivenBy;
    forall id | ClaimOf(b', id).Some? ensures ClaimGiven(steps, n + 1, id, ClaimOf(b', id).value) {
      var p := ClaimOf(b', id).value;
      if ClaimOf(b, id) == Some(p) {
        GivenStays(steps, n, id, p.deposit.signature, p.amountToMint, p.createdAtTime);
      } else {
        GivenNow(steps, n, id, p);
      }
    }
  }

  lemma StepSentGiven(x: World, step: Step, x': World, steps: seq<Step>, n: nat, id: DepositId)
    requires MintInv(x) && Takes(x, step, x') && n < |steps| && AllGiven(x, steps, n) && id in x'.sent
    requires step.Send? || x'.sent == x.sent
    ensures SentGiven(steps, n + 1, id, x'.sent[id])
  {
    hide MintInv, CreditGave, ClaimOf, SentGiven, MintMemo, Sends;
    if step.Send? && step.id == id {
      SendGiven(x, x', id, step.now, steps, n);
    } else {
      hide Takes;
      OthersSent(x, step, x', id);
      SentStays(steps, n, id, x.sent[id]);
    }
  }

  lemma OthersSent(x: World, step: Step, x': World, id: DepositId)
    requires Takes(x, step, x') && (step.Send? || x'.sent == x.sent) && id in x'.sent && !(step.Send? && step.id == id)
    ensures id in x.sent && x.sent[id] == x'.sent[id]
  {
    hide MintTransferArg, CanApply, Apply, MinterRuns.After, Admissible, Resolves, RoundAgrees, Accepts;
  }

  lemma GivenNow(steps: seq<Step>, n: nat, id: DepositId, p: PendingMint)
    requires n < |steps| && GivenBy(steps[n], id, p.deposit.signature, p.amountToMint, p.createdAtTime)
    ensures ClaimGiven(steps, n + 1, id, p)
  {}

  lemma SendGiven(x: World, x': World, id: DepositId, now: Timestamp, steps: seq<Step>, n: nat)
    requires MintInv(x) && Sends(x, x', id, now) && n < |steps| && AllGiven(x, steps, n)
    ensures id in x'.sent && SentGiven(steps, n + 1, id, x'.sent[id])
  {
    hide Inv, AllSentAgree, BlocksAgree, CallAgrees, CreditGave, MintMemo;
    var p := x.round[id];
    assert ClaimOf(x.s.book, id) == Some(p);
    assert ClaimGiven(steps, n, id, p);
    GivenStays(steps, n, id, p.deposit.signature, p.amountToMint, p.createdAtTime);
    assert x'.sent[id].memo == MintMemo(id, p.deposit.signature);
  }

  lemma {:induction false} RunGiven(run: seq<World>, steps: seq<Step>, n: nat)
    requires MintRun(run, steps) && n < |run|
    ensures n <= |steps| && AllGiven(run[n], steps, n)
  {
    hide MintInv, Takes, Starts, AllGiven;
    if n == 0 {
      var a :| Starts(run[0], a);
      NothingGiven(run[0], a, steps);
    } else {
      RunGiven(run, steps, n - 1);
      RunKeeps(run, steps, n - 1);
      StepGiven(run[n - 1], steps[n - 1], run[n], steps, n - 1);
    }
  }

  lemma NothingGiven(x: World, a: InitArgs, steps: seq<Step>)
    requires Starts(x, a)
    ensures AllGiven(x, steps, 0)
  {}

  /** In every run, every block of the ledger, whether or not its deposit is recorded as minted yet,
      credits the account the deposit was queued for, carries a memo that decodes to the sweep that
      took the deposit and to its id, and has the amount and the time of the credit of that sweep. */
  lemma BlocksAreRight(run: seq<World>, steps: seq<Step>, n: nat, j: nat)
    requires MintRun(run, steps) && n < |run| && j < |run[n].blocks|
    ensures n <= |steps| && j < |run[n].owners|
    ensures var t, id, block := run[n].h.deposits, run[n].owners[j], run[n].blocks[j];
            && NamesDeposit(t, id, block)
            && CreditGave(steps, n, id, t.sweptBy[id], block.amount, block.createdAt)
  {
    hide MintRun, Inv, AllSentAgree, RoundAgrees, CallAgrees, CreditGave, NamesDeposit, SentGiven;
    RunKeeps(run, steps, n);
    RunGiven(run, steps, n);
    SentNames(run[n], run[n].owners[j]);
    GivenAsNamed(run[n].h.deposits, steps, n, run[n].owners[j], run[n].blocks[j]);
  }

  lemma GivenAsNamed(t: Trace, steps: seq<Step>, n: nat, id: DepositId, arg: MintArg)
    requires n <= |steps| && NamesDeposit(t, id, arg) && SentGiven(steps, n, id, arg)
    ensures id in t.sweptBy && CreditGave(steps, n, id, t.sweptBy[id], arg.amount, arg.createdAt)
  {
    hide CreditGave, Encode, Decode;
    var sig :| arg.memo == MintMemo(id, sig) && CreditGave(steps, n, id, sig, arg.amount, arg.createdAt);
    MemoRoundTrip(MintSweep(sig, id));
  }

  lemma OneMint(x: World, id: DepositId)
    requires MintInv(x)
    ensures |MintsOf(x, id)| <= 1
    ensures id in x.s.book.minted ==>
              var m := x.s.book.minted[id];
              && MintsOf(x, id) == {m.mintBlockIndex}
              && m.mintBlockIndex < |x.blocks| && x.blocks[m.mintBlockIndex].amount == m.mintedAmount
  {
    hide Inv, AllSentAgree, RoundAgrees, CallAgrees, MintsOf, Distinct;
    if id in x.s.book.minted {
      OwnBlock(x, id);
      OneBlock(x, x.s.book.minted[id].mintBlockIndex);
    } else if id in x.owners {
      var j :| 0 <= j < |x.owners| && x.owners[j] == id;
      OneBlock(x, j);
    } else {
      NoBlock(x, id);
    }
  }

  /** A block is the only one of its deposit. */
  lemma OneBlock(x: World, j: nat)
    requires Distinct(x.owners) && j < |x.owners|
    ensures MintsOf(x, x.owners[j]) == {j}
  {}

  lemma NoBlock(x: World, id: DepositId)
    requires id !in x.owners
    ensures MintsOf(x, id) == {}
  {}

  /** The block a deposit was recorded with is its own. */
  lemma OwnBlock(x: World, id: DepositId)
    requires MintInv(x) && id in x.s.book.minted
    ensures var j := x.s.book.minted[id].mintBlockIndex;
            j < |x.owners| && x.owners[j] == id && x.blocks[j].amount == x.s.book.minted[id].mintedAmount
  {
    hide Inv;
    var b, j := x.s.book, x.s.book.minted[id].mintBlockIndex;
    assert SentAgrees(b, x.blocks, id, x.sent[id]);
    var owner := x.owners[j];
    assert x.blocks[j] == x.sent[owner];
    assert SentAgrees(b, x.blocks, owner, x.sent[owner]);
    SameMemoSameId(b, x.blocks, id, owner, x.sent[id]);
  }

  lemma SameMemoSameId(b: Book, blocks: seq<MintArg>, id: DepositId, id': DepositId, arg: MintArg)
    requires SentAgrees(b, blocks, id, arg) && SentAgrees(b, blocks, id', arg)
    ensures id == id'
  {
    var sig, sig' := SignatureFor(b, blocks, id, arg), SignatureFor(b, blocks, id', arg);
    MemoInjective(MintSweep(sig, id), MintSweep(sig', id'));
  }

  ghost function SignatureFor(b: Book, blocks: seq<MintArg>, id: DepositId, arg: MintArg): (sig: Signature)
    requires SentAgrees(b, blocks, id, arg)
    ensures arg.memo == MintMemo(id, sig)
  {
    if id in b.minted then b.minted[id].deposit.signature else ClaimOf(b, id).value.deposit.signature
  }
}
