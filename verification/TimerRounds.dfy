/** Rounds of the timers that sweep queued deposits and credit finalized sweeps. Each takes a
    snapshot, awaits the network while other events happen, and then records its own events
    (minter/src/deposit/sweep/timer.rs, minter/src/deposit/sweep/finalize/mod.rs). The timer
    guard keeps a second round of the same task from running meanwhile. */
module TimerRounds {
  import opened Prelude
  import opened Solana
  import opened Sweeps
  import opened Settlement
  import opened ScanSchedule
  import opened DepositBook
  import opened DepositLifecycle
  import opened Minter
  import opened WithdrawalRecords
  import opened MinterRuns
  import opened Settings

  const MAX_CONCURRENT_RPC_CALLS: nat := 10
  const MAX_DEPOSITS_PER_SWEEP: nat := MAX_SIGNATURES
  const MAX_DEPOSITS_PER_ROUND: nat := MAX_DEPOSITS_PER_SWEEP * MAX_CONCURRENT_RPC_CALLS

  // ---------- taking a round from the queue ----------

  /** A sequence cut into pieces of n, the last one possibly shorter. */
  function Chunks<T>(s: seq<T>, n: nat): seq<seq<T>>
    requires n > 0
  {
    if |s| == 0 then [] else if |s| <= n then [s] else [s[..n]] + Chunks(s[n..], n)
  }

  lemma {:induction false} ChunksFlatten<T>(s: seq<T>, n: nat)
    requires n > 0
    ensures Flatten(Chunks(s, n)) == s
    ensures forall i | 0 <= i < |Chunks(s, n)| :: 0 < |Chunks(s, n)[i]| <= n
    ensures forall i | 0 <= i < |Chunks(s, n)| - 1 :: |Chunks(s, n)[i]| == n
    decreases |s|
  {
    if |s| == 0 {
    } else if |s| <= n {
      assert Flatten([s]) == s + Flatten([]);
    } else {
      ChunksFlatten(s[n..], n);
      assert Chunks(s, n)[1..] == Chunks(s[n..], n);
      assert s == s[..n] + s[n..];
    }
  }

  datatype Round = Round(batches: seq<seq<DepositId>>, leavesDepositsQueued: bool)

  /** The round is the longest prefix of at most a hundred queued ids, in groups of ten. */
  ghost predicate OldestQueued(queued: Batch, round: Round) {
    && Flatten(round.batches) <= Ascending(queued.Keys)
    && |Flatten(round.batches)| == (if |queued| <= 100 then |queued| else 100)
    && (round.leavesDepositsQueued <==> |queued| > 100)
    && (forall i | 0 <= i < |round.batches| :: 0 < |round.batches[i]| <= 10)
    && (forall i | 0 <= i < |round.batches| - 1 :: |round.batches[i]| == 10)
  }

  /** The oldest queued deposits, at most a hundred, in groups of ten. */
  method TakeFromQueue(queued: Batch) returns (round: Round)
    ensures OldestQueued(queued, round)
  {
    var ids := Ascending(queued.Keys);
    IncreasingDistinct(ids);
    ElemsCard(ids);
    assert |queued| == |queued.Keys|;
    var deposits := if |ids| <= MAX_DEPOSITS_PER_ROUND + 1 then ids else ids[..MAX_DEPOSITS_PER_ROUND + 1];
    var leaves := |deposits| > MAX_DEPOSITS_PER_ROUND;
    if leaves {
      deposits := deposits[..MAX_DEPOSITS_PER_ROUND];
    }
    ChunksFlatten(deposits, MAX_DEPOSITS_PER_SWEEP);
    round := Round(Chunks(deposits, MAX_DEPOSITS_PER_SWEEP), leaves);
  }

  // ---------- a round of sweeps ----------

  /** The batches of a round not recorded yet: still queued as they were taken, and disjoint. */
  ghost predicate RoundOpen(queued: Batch, batches: seq<Batch>) {
    && (forall k | 0 <= k < |batches| ::
          batches[k].Keys != {} && |batches[k]| <= MAX_DEPOSITS_PER_SWEEP && AllQueued(queued, batches[k]))
    && (forall j, k | 0 <= j < k < |batches| :: batches[j].Keys !! batches[k].Keys)
  }

  ghost predicate SubmitsSweep(e: Event) {
    e.SubmittedTransaction? && e.purpose.SweepDeposit?
  }

  /** Nothing but a sweep takes a deposit out of the queue or changes it. */
  lemma QueueStays(s: MinterState, h: History, e: Event, now: Timestamp, batches: seq<Batch>)
    requires Inv(s, h) && CanApply(s, e) && !SubmitsSweep(e) && RoundOpen(s.book.queued, batches)
    ensures RoundOpen(Apply(s, e, now).book.queued, batches)
  {
    hide Inv, Apply, CanApply;
    QueueGrows(s, h, e, now);
    OpenGrows(s.book.queued, Apply(s, e, now).book.queued, batches);
  }

  ghost predicate Extends<K, V>(m: map<K, V>, m': map<K, V>) {
    forall k | k in m :: k in m' && m'[k] == m[k]
  }

  lemma OpenGrows(q: Batch, q': Batch, batches: seq<Batch>)
    requires Extends(q, q') && RoundOpen(q, batches)
    ensures RoundOpen(q', batches)
  {
    forall k | 0 <= k < |batches| ensures AllQueued(q', batches[k]) {
      assert AllQueued(q, batches[k]);
    }
  }

  lemma QueueGrows(s: MinterState, h: History, e: Event, now: Timestamp)
    requires Inv(s, h) && CanApply(s, e) && !SubmitsSweep(e)
    ensures Extends(s.book.queued, Apply(s, e, now).book.queued)
  {
    hide Inv, CanUpgrade, CanAccept, CanSubmit, CanSucceed, CanFail, CanExpire, CanCreditSweep, CanQuarantineSweep,
         CanMint, CanQuarantineMint, CanCreate, CanSweep, CanFinalize, CanDropSwept, Submitted, Succeeded, FailedBy;
    match e
    case QueuedDepositEvent(_, _) => NextIdNotQueued(s, h);
    case SubmittedTransaction(sig, message, signers, purpose) => SubmittedParts(s, sig, message, signers, purpose, now);
    case SucceededTransaction(sig) => SucceededParts(s, sig);
    case FailedTransaction(sig) => FailedParts(s, sig);
    case _ =>
  }

  lemma NextIdNotQueued(s: MinterState, h: History)
    requires Inv(s, h)
    ensures s.book.nextId !in s.book.queued
  {
    hide Buckets, Listed, TxsAgree, NoncesAgree, Keyed, Records, InFlightAgree, LatestAgree, AllPlans;
    assert s.book.nextId !in s.book.queued.Keys;
  }

  ghost function SweepEvent(key: SchnorrPublicKey, m: Batch, sig: Signature, blockhash: Hash, signers: seq<Signer>,
                            height: BlockHeight): Event
    requires CanPlan(m)
  {
    SubmittedTransaction(sig, SweepMessage(PlanOf(m, MinterAddress(key)), blockhash), signers,
                         SweepDeposit(Ascending(m.Keys), height))
  }

  /** Recording a signed sweep of the round under a fresh signature never traps. */
  lemma RecordSweepNeverTraps(s: MinterState, h: History, batches: seq<Batch>, k: nat, sig: Signature, blockhash: Hash,
                              signers: seq<Signer>, height: BlockHeight)
    requires Inv(s, h) && Sound(s, h) && RoundOpen(s.book.queued, batches) && k < |batches| && s.key.Some?
    requires sig !in s.succeededTxs && !s.failedTxs.Has(sig) && !s.submitted.Has(sig)
    ensures CanPlan(batches[k])
    ensures CanApply(s, SweepEvent(s.key.value, batches[k], sig, blockhash, signers, height))
  {
    hide CanPlan, PlanOf, SweepMessage, Ascending, Unheld, Picked, Elems, Agrees, Inv, AllViable, Viable, Validate;
    var m, minter := batches[k], MinterAddress(s.key.value);
    BatchPlans(s, h, m);
    AscendingPicks(s.book.queued, m);
    QueuedUnheld(s, h, m);
    MessageBlockhash(PlanOf(m, minter), blockhash);
    SubmittedIsSwept(s, h, sig);
    IncreasingDistinct(Ascending(m.Keys));
  }

  lemma BatchPlans(s: MinterState, h: History, m: Batch)
    requires Inv(s, h) && Sound(s, h) && AllQueued(s.book.queued, m) && m.Keys != {} && |m| <= MAX_DEPOSITS_PER_SWEEP
    ensures CanPlan(m)
  {
    hide Agrees, Buckets, Listed, TxsAgree, NoncesAgree, Keyed, AllViable, Validate;
    QueuedViable(s.book, h.deposits, m);
    ViablePlans(m);
  }

  /** The other batches of the round stay queued. */
  lemma RecordSweepKeeps(s: MinterState, batches: seq<Batch>, k: nat, e: Event, now: Timestamp)
    requires RoundOpen(s.book.queued, batches) && k < |batches| && CanApply(s, e) && SubmitsSweep(e)
    requires e.purpose.depositIds == Ascending(batches[k].Keys)
    ensures RoundOpen(Apply(s, e, now).book.queued, batches[..k] + batches[k + 1..])
  {
    hide RoundOpen, CanSweep, Ascending, SweepMessage, CanPlan, Picked;
    RestOpen(s.book.queued, batches, k);
  }

  lemma MessageBlockhash(s: Sweep, blockhash: Hash)
    ensures SweepMessage(s, blockhash).blockhash == blockhash
  {}

  lemma SubmittedIsSwept(s: MinterState, h: History, sig: Signature)
    requires Inv(s, h) && !s.submitted.Has(sig)
    ensures sig !in s.book.swept
  {}

  lemma AscendingPicks(queued: Batch, m: Batch)
    requires AllQueued(queued, m) && m.Keys != {}
    ensures var ids := Ascending(m.Keys);
            && ids != [] && Elems(ids) == m.Keys && (forall id | id in ids :: id in queued && id in m)
            && Picked(queued, ids) == m
  {
    hide Ascending;
    var ids := Ascending(m.Keys);
    forall id ensures id in ids <==> id in m {
      assert id in ids <==> id in Elems(ids);
    }
    var id :| id in m.Keys;
    assert id in ids;
    forall x | x in m ensures Picked(queued, ids)[x] == m[x] {}
    assert Picked(queued, ids).Keys == m.Keys;
  }

  lemma QueuedUnheld(s: MinterState, h: History, m: Batch)
    requires Inv(s, h) && AllQueued(s.book.queued, m)
    ensures forall id | id in m :: Unheld(s.book.swept, id)
  {
    hide Buckets, Listed, TxsAgree, NoncesAgree, Keyed, Records, InFlightAgree, LatestAgree, AllPlans, Numbered, Unheld;
    forall id | id in m ensures Unheld(s.book.swept, id) {
      UnheldIff(s.book.swept, id);
      assert id in s.book.queued.Keys;
    }
  }

  lemma RestOpen(queued: Batch, batches: seq<Batch>, k: nat)
    requires RoundOpen(queued, batches) && k < |batches|
    ensures RoundOpen(queued - batches[k].Keys, batches[..k] + batches[k + 1..])
  {
    var rest := batches[..k] + batches[k + 1..];
    forall j | 0 <= j < |rest| ensures AllQueued(queued - batches[k].Keys, rest[j]) {
      var i := if j < k then j else j + 1;
      assert rest[j] == batches[i] && batches[i].Keys !! batches[k].Keys && AllQueued(queued, batches[i]);
    }
  }

  // ---------- a round of credits ----------

  /** The finalized sweeps of a round not settled yet are still finalized, as they were taken. */
  ghost predicate CreditsOpen(finalized: map<Signature, Sweep>, round: map<Signature, Sweep>) {
    forall sig | sig in round :: sig in finalized && finalized[sig] == round[sig]
  }

  ghost predicate SettlesSweep(e: Event) {
    e.CreditedSweep? || e.QuarantinedSweep?
  }

  /** Nothing but a settlement takes a sweep out of the finalized ones or changes it. */
  lemma FinalizedStays(s: MinterState, h: History, e: Event, now: Timestamp, round: map<Signature, Sweep>)
    requires Inv(s, h) && CanApply(s, e) && !SettlesSweep(e) && CreditsOpen(s.book.finalized, round)
    ensures CreditsOpen(Apply(s, e, now).book.finalized, round)
  {
    hide Inv, CanUpgrade, CanAccept, CanSubmit, CanSucceed, CanFail, CanExpire, CanQueue, CanMint, CanQuarantineMint,
         CanCreate, CanSweep, CanDropSwept, Submitted, Succeeded, FailedBy;
    match e
    case SubmittedTransaction(sig, message, signers, purpose) => SubmittedParts(s, sig, message, signers, purpose, now);
    case SucceededTransaction(sig) => SucceededParts(s, sig);
    case FailedTransaction(sig) => FailedParts(s, sig);
    case _ =>
  }

  /** The event a round records for the reported outcome of a sweep, if any. */
  ghost function SettlementEvent(sig: Signature, outcome: Settlement): Option<Event> {
    match outcome
    case Settled(amount, mints) => Some(CreditedSweep(sig, amount, mints))
    case Quarantine(_) => Some(QuarantinedSweep(sig))
    case Retry(_) => None
  }

  /** Whatever outcome the chain reports for a sweep of the round, recording it never traps. */
  lemma SettlementNeverTraps(s: MinterState, h: History, round: map<Signature, Sweep>, sig: Signature,
                             fetched: FetchedMessage, meta: Option<Meta>)
    requires Inv(s, h) && CreditsOpen(s.book.finalized, round) && sig in round
    ensures round[sig].deposits.Keys != {}
    ensures var e := SettlementEvent(sig, Settle(round[sig], fetched, meta)); e.Some? ==> CanApply(s, e.value)
  {
    hide Settle, Inv, IsPlan, CanCreditSweep, Mints;
    var plan := round[sig];
    FinalizedPlan(s, h, sig);
    SettledMeans(plan, fetched, meta);
    if Settle(plan, fetched, meta).Settled? {
      CreditNeverTraps(s, h, sig);
    }
  }

  lemma SettledMeans(plan: Sweep, fetched: FetchedMessage, meta: Option<Meta>)
    requires IsPlan(plan)
    ensures plan.deposits.Keys != {}
    ensures Settle(plan, fetched, meta).Settled? ==>
              Mints(plan).Some? && Settle(plan, fetched, meta) == Settled(plan.expectedReceived, Mints(plan).value)
  {
    hide Settle, Readable, RentExempt, SweepEffect, PlanOf, PreOf, PostOf, SweepMessage, Mints;
    PlanShaped(plan);
    SettleIff(plan, fetched, meta);
  }

  /** Recording the outcome of one sweep leaves the other sweeps of the round finalized. */
  lemma SettlementKeeps(s: MinterState, round: map<Signature, Sweep>, sig: Signature, e: Event, now: Timestamp)
    requires CreditsOpen(s.book.finalized, round) && SettlesSweep(e) && e.signature == sig && CanApply(s, e)
    ensures CreditsOpen(Apply(s, e, now).book.finalized, round - {sig})
  {
    hide CanCredit, DepositFees, AmountsToMint, PendingOf, UnreadableOf;
  }

  lemma FinalizedPlan(s: MinterState, h: History, sig: Signature)
    requires Inv(s, h) && sig in s.book.finalized
    ensures IsPlan(s.book.finalized[sig])
  {
    hide Buckets, Listed, TxsAgree, NoncesAgree, Keyed, Records, InFlightAgree, LatestAgree, Located, Numbered, IsPlan;
    PlanAt(s.book.finalized, sig);
  }

  /** Crediting a settled sweep never violates an assertion: the mints name each deposit of the
      sweep once, none exceeds what was swept for it, and with the deposit fees they add up to
      the amount received. */
  lemma CreditNeverTraps(s: MinterState, h: History, sig: Signature)
    requires Inv(s, h) && sig in s.book.finalized && s.book.finalized[sig].deposits.Keys != {}
    requires Mints(s.book.finalized[sig]).Some?
    ensures CanCreditSweep(s, sig, s.book.finalized[sig].expectedReceived, Mints(s.book.finalized[sig]).value)
  {
    hide Inv, IsPlan, Mints, MintAmounts, AmountsToMint, Sum, DepositFees, AllFeesFit, DistinctMints;
    var plan := s.book.finalized[sig];
    FinalizedPlan(s, h, sig);
    MintsFit(plan);
    MintsConserve(plan);
    MintsNameDeposits(plan);
    NoneMintedYet(s, h, sig);
  }

  lemma MintsFit(plan: Sweep)
    requires plan.deposits.Keys != {} && Mints(plan).Some?
    ensures AllFeesFit(plan)
  {}

  lemma MintsNameDeposits(plan: Sweep)
    requires plan.deposits.Keys != {} && Mints(plan).Some?
    ensures |Mints(plan).value| == |plan.deposits| && DistinctMints(Mints(plan).value)
    ensures forall i | 0 <= i < |Mints(plan).value| ::
              var mint := Mints(plan).value[i];
              mint.depositId in plan.deposits && mint.amountToMint <= plan.deposits[mint.depositId].Sweepable()
  {
    hide FeeShare;
    var ids, mints := Ascending(plan.deposits.Keys), Mints(plan).value;
    IncreasingDistinct(ids);
    ElemsCard(ids);
    forall i | 0 <= i < |mints| ensures mints[i].depositId == ids[i] && ids[i] in plan.deposits
                                        && mints[i].amountToMint == MintAmount(plan, ids[i]) {
      assert ids[i] in Elems(ids);
    }
  }

  lemma NoneMintedYet(s: MinterState, h: History, sig: Signature)
    requires Inv(s, h) && sig in s.book.finalized
    ensures forall id | id in s.book.finalized[sig].deposits :: id !in s.book.pendingMints
  {
    hide Buckets, Listed, TxsAgree, NoncesAgree, Keyed, InFlightAgree, LatestAgree, Numbered, AllPlans;
    FinalizedAt(s.book, h.deposits, sig);
    hide Records;
    forall id | id in s.book.finalized[sig].deposits ensures id !in s.book.pendingMints {
      assert id in s.book.finalized[sig].deposits.Keys;
    }
  }

  // ---------- every execution is credited ----------

  /** The deposits of a batch belong to different accounts and sit on their derived addresses. */
  ghost predicate OwnAddresses(m: Batch, key: SchnorrPublicKey) {
    && (forall id | id in m :: m[id].address == AccountAddress(key, m[id].account))
    && (forall id, id' | id in m && id' in m && m[id].account == m[id'].account :: id == id')
  }

  lemma SourcesDistinct(plan: Sweep, key: SchnorrPublicKey)
    requires IsPlan(plan) && OwnAddresses(plan.deposits, key) && plan.minterAddress == MinterAddress(key)
    ensures DistinctSources(plan)
  {
    hide Sum, Amounts, SweepOrder, TransfersIn, PlanOf;
    var m := plan.deposits;
    var list := SweepOrder(m, m.Keys);
    PlanHead(m);
    PlanLaidOut(plan);
    SourcesAre(m, list, plan.fee, plan.transfers);
    SourcesApart(m, key, list, plan.transfers);
  }

  lemma SourcesApart(m: Batch, key: SchnorrPublicKey, list: seq<DepositId>, transfers: seq<Transfer>)
    requires OwnAddresses(m, key) && Distinct(list) && |transfers| == |list|
    requires forall i | 0 <= i < |list| :: list[i] in m && transfers[i].source == m[list[i]].address
    ensures forall i, j | 0 <= i < j < |transfers| :: transfers[i].source != transfers[j].source
    ensures forall i | 0 <= i < |transfers| :: transfers[i].source != MinterAddress(key)
  {
    forall i, j | 0 <= i < j < |transfers| ensures transfers[i].source != transfers[j].source {
      assert list[i] != list[j] && m[list[i]].account != m[list[j]].account;
    }
  }

  lemma PlanLaidOut(plan: Sweep)
    requires IsPlan(plan)
    ensures var list := SweepOrder(plan.deposits, plan.deposits.Keys);
            && list != [] && (forall i | 0 <= i < |list| :: list[i] in plan.deposits)
            && plan.deposits[list[0]].Sweepable() >= plan.fee
            && plan.transfers == TransfersIn(plan.deposits, list, plan.fee)
  {
    hide Sum, Amounts, SweepOrder, TransfersIn;
    var list := SweepOrder(plan.deposits, plan.deposits.Keys);
    PlanHead(plan.deposits);
    forall i | 0 <= i < |list| ensures list[i] in plan.deposits {
      assert list[i] in Elems(list);
    }
  }

  lemma SourcesAre(m: Batch, list: seq<DepositId>, fee: Lamport, transfers: seq<Transfer>)
    requires (forall i | 0 <= i < |list| :: list[i] in m) && list != [] && m[list[0]].Sweepable() >= fee
    requires transfers == TransfersIn(m, list, fee)
    ensures |transfers| == |list| && forall i | 0 <= i < |list| :: transfers[i].source == m[list[i]].address
  {}

  lemma FinalizedAddresses(s: MinterState, h: History, sig: Signature)
    requires Inv(s, h) && sig in s.book.finalized
    ensures s.key.Some? && OwnAddresses(s.book.finalized[sig].deposits, s.key.value)
    ensures s.book.finalized[sig].minterAddress == MinterAddress(s.key.value)
  {
    hide Buckets, Listed, TxsAgree, NoncesAgree, Numbered, LatestAgree, AllPlans;
    FinalizedAt(s.book, h.deposits, sig);
    hide Records, Located;
    var m, t, f := s.book.finalized[sig].deposits, h.deposits, s.book.inFlightIds;
    forall id | id in m ensures HoldsActive(t, id, m[id].account) && m[id].address == t.origin[id].address {
      assert id in m.Keys;
    }
    forall id, id' | id in m && id' in m && m[id].account == m[id'].account ensures id == id' {
      var a := m[id].account;
      assert a in f && f[a] == id <==> HoldsActive(t, id, a);
      assert a in f && f[a] == id' <==> HoldsActive(t, id', a);
    }
  }

  lemma FinalizedMints(s: MinterState, h: History, sig: Signature)
    requires Inv(s, h) && Sound(s, h) && sig in s.book.finalized
    ensures s.book.finalized[sig].deposits.Keys != {} && Mints(s.book.finalized[sig]).Some?
  {
    hide Buckets, Listed, TxsAgree, NoncesAgree, Keyed, Numbered, LatestAgree, AllPlans, InFlightAgree, Validate;
    var plan := s.book.finalized[sig];
    FinalizedPlan(s, h, sig);
    FinalizedAt(s.book, h.deposits, sig);
    hide Records, Located;
    forall id | id in plan.deposits ensures Viable(plan.deposits[id]) {
      assert h.deposits.origin[id] == plan.deposits[id];
    }
    ViableFees(plan);
  }

  lemma ViableFees(plan: Sweep)
    requires IsPlan(plan) && AllViable(plan.deposits)
    ensures plan.deposits.Keys != {} && Mints(plan).Some?
  {
    FeeShareIsOneSignature(plan);
    hide IsPlan, FeeShare;
    forall id | id in plan.deposits ensures FeesFit(plan, id) {
      assert Viable(plan.deposits[id]);
    }
  }

  /** Whenever the chain executed a finalized sweep, at a fee within the planned one and whatever
      was deposited on the addresses in the meantime, its settlement succeeds. */
  lemma FinalizedSweepSettles(s: MinterState, h: History, sig: Signature, plan: Sweep, blockhash: Hash, pre: Balances,
                              post: Balances, m: Meta)
    requires Inv(s, h) && Sound(s, h) && sig in s.book.finalized && s.book.finalized[sig] == plan
    requires !m.err && m.fee <= plan.fee && Execute(pre, SweepMessage(plan, blockhash), m.fee) == Some(post)
    requires forall id | id in plan.deposits :: Bal(pre, plan.deposits[id].address) >= plan.deposits[id].balance
    requires Reports(plan, blockhash, m, pre, post)
    ensures plan.deposits.Keys != {} && Settle(plan, Legacy(SweepMessage(plan, blockhash)), Some(m)).Settled?
  {
    hide Inv, Sound, IsPlan, Execute, Reports, Settle, SweepMessage, Mints;
    FinalizedPlan(s, h, sig);
    FinalizedAddresses(s, h, sig);
    FinalizedMints(s, h, sig);
    SourcesDistinct(plan, s.key.value);
    PlanShaped(plan);
    EveryExecutionSettles(plan, blockhash, pre, post, m);
  }
}
