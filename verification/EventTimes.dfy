/** The times the state keeps are the times of the events they stand for: when a deposit was queued, when
    a withdrawal was accepted and when its transaction was submitted (minter/src/state/mod.rs,
    minter/src/state/deposits/mod.rs). */
module EventTimes {
  import opened Prelude
  import opened Solana
  import opened InsertionOrdered
  import opened Sweeps
  import opened ScanSchedule
  import opened DepositBook
  import opened Minter

  /** An event queues the deposit, accepts the withdrawal or submits the transaction. */
  ghost predicate Queues(e: Event, id: DepositId) {
    e.QueuedDepositEvent? && e.depositId == id
  }

  ghost predicate Accepts(e: Event, i: BurnIndex) {
    e.AcceptedWithdrawalRequest? && e.request.burnIndex == i
  }

  ghost predicate Submits(e: Event, sig: Signature) {
    e.SubmittedTransaction? && e.signature == sig
  }

  // ---------- what one event stamps ----------

  ghost predicate QueuedStamps(s: MinterState, e: Event, now: Timestamp, s': MinterState) {
    forall id | id in s'.book.queuedAtById ::
      || (id in s.book.queuedAtById && s'.book.queuedAtById[id] == s.book.queuedAtById[id])
      || (Queues(e, id) && s'.book.queuedAtById[id] == now)
  }

  /** When the withdrawal was accepted, according to the bucket that holds it. */
  ghost predicate CreatedAt(s: MinterState, i: BurnIndex, at: Timestamp) {
    || (i in s.pending && s.pending[i].createdAt == at)
    || (i in s.created && s.created[i].createdAt == at)
    || (i in s.sent && s.sent[i].createdAt == at)
    || (i in s.successful && s.successful[i].createdAt == at)
    || (i in s.failed && s.failed[i].createdAt == at)
  }

  ghost predicate AcceptedStamps(s: MinterState, e: Event, now: Timestamp, s': MinterState) {
    forall i, at | CreatedAt(s', i, at) :: CreatedAt(s, i, at) || (Accepts(e, i) && at == now)
  }

  /** When the withdrawal transaction was submitted, also after it has failed. */
  ghost predicate SubmittedAt(s: MinterState, sig: Signature, at: Timestamp) {
    || (sig in s.submitted.values && s.submitted.values[sig].WithdrawalTx? && s.submitted.values[sig].submittedAt == at)
    || (sig in s.failedTxs.values && s.failedTxs.values[sig].WithdrawalTx? && s.failedTxs.values[sig].submittedAt == at)
  }

  ghost predicate SubmittedStamps(s: MinterState, e: Event, now: Timestamp, s': MinterState) {
    forall sig, at | SubmittedAt(s', sig, at) :: SubmittedAt(s, sig, at) || (Submits(e, sig) && at == now)
  }

  ghost predicate Stamps(s: MinterState, e: Event, now: Timestamp, s': MinterState) {
    QueuedStamps(s, e, now, s') && AcceptedStamps(s, e, now, s') && SubmittedStamps(s, e, now, s')
  }

  lemma SubmitStamps(s: MinterState, e: Event, now: Timestamp)
    requires e.SubmittedTransaction? && CanApply(s, e)
    ensures Stamps(s, e, now, Apply(s, e, now))
  {
    hide CanSend, CanSweep, QueuedStamps, AcceptedStamps, SubmittedStamps;
    match e.purpose
    case Withdrawal(burns) => SendStamps(s, e, now);
    case SweepDeposit(_, _) => SweepStamps(s, e, now);
  }

  lemma SweepStamps(s: MinterState, e: Event, now: Timestamp)
    requires e.SubmittedTransaction? && CanApply(s, e) && e.purpose.SweepDeposit?
    ensures Stamps(s, e, now, Apply(s, e, now))
  {
    hide CanSweep, PlanOf, Picked;
  }

  lemma SendStamps(s: MinterState, e: Event, now: Timestamp)
    requires e.SubmittedTransaction? && CanApply(s, e) && e.purpose.Withdrawal?
    ensures Stamps(s, e, now, Apply(s, e, now))
  {
    hide BoundMessage, TransactionSize, QueuedStamps, AcceptedStamps, SubmittedStamps, Sent;
    var a := AdvancedNonceAccount(e.message).value;
    assert QueuedStamps(s, e, now, Sent(s, e.signature, e.message, a, now)) by { SentQueued(s, e, a, now); }
    SentAccepted(s, e, a, now);
    SentSubmitted(s, e, a, now);
  }

  lemma SentQueued(s: MinterState, e: Event, a: Address, now: Timestamp)
    requires e.SubmittedTransaction? && a in s.createdTxs && forall b | b in s.createdTxs[a].burnIndices :: b in s.created
    ensures QueuedStamps(s, e, now, Sent(s, e.signature, e.message, a, now))
  {
    hide SentOf;
  }

  lemma SentAccepted(s: MinterState, e: Event, a: Address, now: Timestamp)
    requires e.SubmittedTransaction? && a in s.createdTxs && forall b | b in s.createdTxs[a].burnIndices :: b in s.created
    ensures AcceptedStamps(s, e, now, Sent(s, e.signature, e.message, a, now))
  {}

  lemma SentSubmitted(s: MinterState, e: Event, a: Address, now: Timestamp)
    requires e.SubmittedTransaction? && a in s.createdTxs && forall b | b in s.createdTxs[a].burnIndices :: b in s.created
    ensures SubmittedStamps(s, e, now, Sent(s, e.signature, e.message, a, now))
  {
    hide SentOf, Without;
  }

  lemma SucceedStamps(s: MinterState, sig: Signature, now: Timestamp)
    requires CanSucceed(s, sig)
    ensures Stamps(s, SucceededTransaction(sig), now, Succeeded(s, sig))
  {
    hide QueuedStamps, AcceptedStamps, SubmittedStamps;
    SucceedQueued(s, sig, now);
    SucceedAccepted(s, sig, now);
    SucceedSubmitted(s, sig, now);
  }

  lemma SucceedQueued(s: MinterState, sig: Signature, now: Timestamp)
    requires CanSucceed(s, sig)
    ensures QueuedStamps(s, SucceededTransaction(sig), now, Succeeded(s, sig))
  {
    hide CanFinalize, SentBy, Without;
  }

  lemma SucceedAccepted(s: MinterState, sig: Signature, now: Timestamp)
    requires CanSucceed(s, sig)
    ensures AcceptedStamps(s, SucceededTransaction(sig), now, Succeeded(s, sig))
  {
    hide CanFinalize, Finalize, Without, AcceptedStamps;
    LandedAccepted(s, SucceededTransaction(sig), sig, now, Succeeded(s, sig));
  }

  lemma SucceedSubmitted(s: MinterState, sig: Signature, now: Timestamp)
    requires CanSucceed(s, sig)
    ensures SubmittedStamps(s, SucceededTransaction(sig), now, Succeeded(s, sig))
  {
    hide CanFinalize, Finalize, SentBy, Without;
  }

  /** A transaction that succeeds or fails moves its withdrawals on with the times they have. */
  lemma LandedAccepted(s: MinterState, e: Event, sig: Signature, now: Timestamp, s': MinterState)
    requires s'.pending == s.pending && s'.created == s.created && s'.sent == s.sent - SentBy(s.sent, sig).Keys
    requires s'.successful == s.successful || s'.successful == s.successful + SentBy(s.sent, sig)
    requires s'.failed == s.failed || s'.failed == s.failed + SentBy(s.sent, sig)
    ensures AcceptedStamps(s, e, now, s')
  {}

  lemma FailStamps(s: MinterState, sig: Signature, now: Timestamp)
    requires CanFail(s, sig)
    ensures Stamps(s, FailedTransaction(sig), now, FailedBy(s, sig))
  {
    hide QueuedStamps, AcceptedStamps, SubmittedStamps;
    FailQueued(s, sig, now);
    FailAccepted(s, sig, now);
    FailSubmitted(s, sig, now);
  }

  lemma FailQueued(s: MinterState, sig: Signature, now: Timestamp)
    requires CanFail(s, sig)
    ensures QueuedStamps(s, FailedTransaction(sig), now, FailedBy(s, sig))
  {
    hide CanDropSwept, AccountsOf, DroppedOf, SentBy, Without;
  }

  lemma FailAccepted(s: MinterState, sig: Signature, now: Timestamp)
    requires CanFail(s, sig)
    ensures AcceptedStamps(s, FailedTransaction(sig), now, FailedBy(s, sig))
  {
    hide CanDropSwept, DropSwept, Without, AcceptedStamps;
    LandedAccepted(s, FailedTransaction(sig), sig, now, FailedBy(s, sig));
  }

  lemma FailSubmitted(s: MinterState, sig: Signature, now: Timestamp)
    requires CanFail(s, sig)
    ensures SubmittedStamps(s, FailedTransaction(sig), now, FailedBy(s, sig))
  {
    hide CanDropSwept, DropSwept, SentBy, Without;
  }

  lemma CreateStamps(s: MinterState, e: Event, now: Timestamp)
    requires e.CreatedWithdrawalTransaction? && CanApply(s, e)
    ensures Stamps(s, e, now, Apply(s, e, now))
  {
    hide CostOf;
  }

  /** The events of deposits leave the withdrawals and their transactions alone. */
  lemma BookStamps(s: MinterState, e: Event, now: Timestamp)
    requires CanApply(s, e)
    requires e.QueuedDepositEvent? || e.CreditedSweep? || e.QuarantinedSweep? || e.MintedSweptDeposit? || e.QuarantinedPendingMint?
    ensures Stamps(s, e, now, Apply(s, e, now))
  {
    hide CanCredit, PendingOf, DepositFees, AmountsToMint, Sum, UnreadableOf, CreatedAt, SubmittedAt;
    assert Apply(s, e, now).submitted == s.submitted;
    SameTimes(s, e, now, Apply(s, e, now));
  }

  lemma SameTimes(s: MinterState, e: Event, now: Timestamp, s': MinterState)
    requires s'.pending == s.pending && s'.created == s.created && s'.sent == s.sent && s'.successful == s.successful
    requires s'.failed == s.failed && s'.submitted == s.submitted && s'.failedTxs == s.failedTxs
    ensures AcceptedStamps(s, e, now, s') && SubmittedStamps(s, e, now, s')
  {}

  lemma ExpireStamps(s: MinterState, sig: Signature, now: Timestamp)
    requires CanExpire(s, sig)
    ensures Stamps(s, ExpiredTransaction(sig), now, Expired(s, sig))
  {
    hide CanDropSwept, AccountsOf, DroppedOf, Without;
  }

  lemma PlainStamps(s: MinterState, e: Event, now: Timestamp)
    requires CanApply(s, e) && (e.Upgrade? || e.AcceptedWithdrawalRequest? || e.MinterPublicKeyFetched?)
    ensures Stamps(s, e, now, Apply(s, e, now))
  {
    hide CanUpgrade, Parsed, Reconfigured;
  }

  lemma EventStamps(s: MinterState, e: Event, now: Timestamp)
    requires CanApply(s, e)
    ensures Stamps(s, e, now, Apply(s, e, now))
  {
    hide Stamps, CanUpgrade, CanSubmit, Submitted, CanSucceed, Succeeded, CanFail, FailedBy, CanCreate, Created, CanCreditSweep,
         SweepCredited, CanExpire, Expired, Upgraded, Accepted, Queue, Mint, QuarantineMint, QuarantineSweep;
    match e
    case SubmittedTransaction(_, _, _, _) => SubmitStamps(s, e, now);
    case SucceededTransaction(sig) => SucceedStamps(s, sig, now);
    case FailedTransaction(sig) => FailStamps(s, sig, now);
    case ExpiredTransaction(sig) => ExpireStamps(s, sig, now);
    case CreatedWithdrawalTransaction(_, _, _) => CreateStamps(s, e, now);
    case Upgrade(_) => PlainStamps(s, e, now);
    case AcceptedWithdrawalRequest(_) => PlainStamps(s, e, now);
    case MinterPublicKeyFetched(_) => PlainStamps(s, e, now);
    case QueuedDepositEvent(_, _) => BookStamps(s, e, now);
    case CreditedSweep(_, _, _) => BookStamps(s, e, now);
    case QuarantinedSweep(_) => BookStamps(s, e, now);
    case MintedSweptDeposit(_, _) => BookStamps(s, e, now);
    case QuarantinedPendingMint(_) => BookStamps(s, e, now);
  }

  // ---------- every run ----------

  ghost predicate QueuedWhen(log: seq<LoggedEvent>, id: DepositId, at: Timestamp) {
    exists k :: 0 <= k < |log| && Queues(log[k].payload, id) && log[k].timestamp == at
  }

  ghost predicate AcceptedWhen(log: seq<LoggedEvent>, i: BurnIndex, at: Timestamp) {
    exists k :: 0 <= k < |log| && Accepts(log[k].payload, i) && log[k].timestamp == at
  }

  ghost predicate SubmittedWhen(log: seq<LoggedEvent>, sig: Signature, at: Timestamp) {
    exists k :: 0 <= k < |log| && Submits(log[k].payload, sig) && log[k].timestamp == at
  }

  /** Every time kept by the state is the time of its event. */
  ghost predicate Timed(log: seq<LoggedEvent>, s: MinterState) {
    && (forall id | id in s.book.queuedAtById :: QueuedWhen(log, id, s.book.queuedAtById[id]))
    && (forall i, at | CreatedAt(s, i, at) :: AcceptedWhen(log, i, at))
    && (forall sig, at | SubmittedAt(s, sig, at) :: SubmittedWhen(log, sig, at))
  }

  lemma WhenStays(log: seq<LoggedEvent>, n: nat)
    requires n < |log|
    ensures forall id, at | QueuedWhen(log[..n], id, at) :: QueuedWhen(log, id, at)
    ensures forall i, at | AcceptedWhen(log[..n], i, at) :: AcceptedWhen(log, i, at)
    ensures forall sig, at | SubmittedWhen(log[..n], sig, at) :: SubmittedWhen(log, sig, at)
  {
    forall id, at | QueuedWhen(log[..n], id, at) ensures QueuedWhen(log, id, at) {
      var k :| 0 <= k < n && Queues(log[..n][k].payload, id) && log[..n][k].timestamp == at;
      assert Queues(log[k].payload, id);
    }
    forall i, at | AcceptedWhen(log[..n], i, at) ensures AcceptedWhen(log, i, at) {
      var k :| 0 <= k < n && Accepts(log[..n][k].payload, i) && log[..n][k].timestamp == at;
      assert Accepts(log[k].payload, i);
    }
    forall sig, at | SubmittedWhen(log[..n], sig, at) ensures SubmittedWhen(log, sig, at) {
      var k :| 0 <= k < n && Submits(log[..n][k].payload, sig) && log[..n][k].timestamp == at;
      assert Submits(log[k].payload, sig);
    }
  }

  /** In every run, the state keeps for each unfinished deposit the time it was queued at, for each
      withdrawal the time it was accepted at, and for each withdrawal transaction in flight or failed
      the time it was submitted at. */
  lemma {:induction false} TimesAreEventTimes(log: seq<LoggedEvent>)
    requires Replay(log).Some?
    ensures Timed(log, Replay(log).value)
  {
    hide CanApply, Apply, CreatedAt, SubmittedAt, Queues, Accepts, Submits, QueuedWhen, AcceptedWhen, SubmittedWhen;
    var n := |log| - 1;
    if n == 0 {
      NothingTimed(log);
    } else {
      TimesAreEventTimes(log[..n]);
      EventStamps(Replay(log[..n]).value, log[n].payload, log[n].timestamp);
      WhenStays(log, n);
      LastWhen(log, n);
    }
  }

  lemma LastWhen(log: seq<LoggedEvent>, n: nat)
    requires n < |log|
    ensures forall id | Queues(log[n].payload, id) :: QueuedWhen(log, id, log[n].timestamp)
    ensures forall i | Accepts(log[n].payload, i) :: AcceptedWhen(log, i, log[n].timestamp)
    ensures forall sig | Submits(log[n].payload, sig) :: SubmittedWhen(log, sig, log[n].timestamp)
  {}

  lemma NothingTimed(log: seq<LoggedEvent>)
    requires |log| == 1 && Replay(log).Some?
    ensures Timed(log, Replay(log).value)
  {
    hide Parsed;
  }
}
