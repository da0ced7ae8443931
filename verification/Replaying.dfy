/** Replay refines live execution: replaying the recorded log gives a state equal to the live
    one on every persisted field, whatever happened to guards, tasks and the watchlist
    (minter/src/state/audit.rs). */
module Replaying {
  import opened Prelude
  import opened Solana
  import opened NoncePool
  import opened Sweeps
  import opened Settlement
  import opened ScanSchedule
  import opened DepositBook
  import opened Minter

  /** The fields that are not recorded in the log. */
  datatype Transient = Transient(depositGuards: set<Account>, withdrawalGuards: set<Account>, activeTasks: set<TaskType>,
                                 watchlist: map<Account, Registration>)

  ghost function TransientOf(s: MinterState): Transient {
    Transient(s.depositGuards, s.withdrawalGuards, s.activeTasks, s.book.watchlist)
  }

  ghost function With(s: MinterState, t: Transient): MinterState {
    s.(depositGuards := t.depositGuards, withdrawalGuards := t.withdrawalGuards, activeTasks := t.activeTasks,
       book := s.book.(watchlist := t.watchlist))
  }

  const EMPTY_TRANSIENT: Transient := Transient({}, {}, {}, map[])

  /** What is left of a state when its transient fields are erased. */
  ghost function Erase(s: MinterState): MinterState {
    With(s, EMPTY_TRANSIENT)
  }

  /** The two states differ in transient fields only. */
  lemma EraseMeans(a: MinterState, b: MinterState)
    ensures Erase(a) == Erase(b) <==> b == With(a, TransientOf(b))
  {
    assert With(b, TransientOf(b)) == b;
  }

  // ---------- erasing commutes with every event ----------

  lemma CanIgnores(s: MinterState, t: Transient, e: Event)
    ensures CanApply(s, e) <==> CanApply(With(s, t), e)
  {
    var s' := With(s, t);
    match e
    case Upgrade(a) => hide Parses, Parsed, CanAdd, Validate, Reconfigured;
    case SubmittedTransaction(sig, message, signers, purpose) =>
      hide BoundMessage, Unheld, CanPlan, Picked, SweepMessage, TransactionSize;
    case CreatedWithdrawalTransaction(burns, a, nonce) => hide CostOf;
    case CreditedSweep(_, _, _) => hide DepositFees, AmountsToMint, Sum, DistinctMints;
    case SucceededTransaction(_) => hide Unheld;
    case _ =>
  }

  /** What an event leaves of the transient fields. */
  ghost function After(t: Transient, e: Event): Transient {
    if e.QueuedDepositEvent? then t.(watchlist := t.watchlist - {e.deposit.account}) else t
  }

  lemma SubmitIgnores(s: MinterState, t: Transient, sig: Signature, message: Message, signers: seq<Signer>,
                      purpose: Purpose, now: Timestamp)
    requires CanSubmit(s, sig, message, signers, purpose) && CanSubmit(With(s, t), sig, message, signers, purpose)
    ensures Submitted(With(s, t), sig, message, signers, purpose, now) ==
            With(Submitted(s, sig, message, signers, purpose, now), t)
  {
    hide CanSubmit, SentOf, Picked, PlanOf, Elems;
  }

  lemma SucceedIgnores(s: MinterState, t: Transient, sig: Signature)
    requires CanSucceed(s, sig) && CanSucceed(With(s, t), sig)
    ensures Succeeded(With(s, t), sig) == With(Succeeded(s, sig), t)
  {
    hide CanFinalize, CanFree, SentBy, Freed;
    match s.submitted.values[sig]
    case SweepTx(_) =>
    case WithdrawalTx(_, _, _, _) =>
  }

  lemma FailIgnores(s: MinterState, t: Transient, sig: Signature)
    requires CanFail(s, sig) && CanFail(With(s, t), sig)
    ensures FailedBy(With(s, t), sig) == With(FailedBy(s, sig), t)
  {
    hide CanDropSwept, CanFree, SentBy, AccountsOf, DroppedOf, Freed;
    match s.submitted.values[sig]
    case SweepTx(_) =>
    case WithdrawalTx(_, _, _, _) =>
  }

  lemma CreateIgnores(s: MinterState, t: Transient, burns: seq<BurnIndex>, a: Address, nonce: Hash)
    requires CanCreate(s, burns, a, nonce)
    ensures Created(With(s, t), burns, a, nonce) == With(Created(s, burns, a, nonce), t)
  {
    hide CostOf, PickedRequests, Bound;
  }

  lemma CreditIgnores(s: MinterState, t: Transient, sig: Signature, amount: Lamport, mints: seq<CreditedDeposit>, now: Timestamp)
    requires sig in s.book.finalized
    ensures SweepCredited(With(s, t), sig, amount, mints, now) == With(SweepCredited(s, sig, amount, mints, now), t)
  {
    hide DepositFees, PendingOf, MintMap;
  }

  lemma ExpireIgnores(s: MinterState, t: Transient, sig: Signature)
    requires sig in s.book.swept
    ensures Expired(With(s, t), sig) == With(Expired(s, sig), t)
  {
    hide AccountsOf, DroppedOf;
  }

  lemma ApplyIgnores(s: MinterState, t: Transient, e: Event, now: Timestamp)
    requires CanApply(s, e) && CanApply(With(s, t), e)
    ensures Apply(With(s, t), e, now) == With(Apply(s, e, now), After(t, e))
  {
    hide CanSubmit, Submitted, CanSucceed, Succeeded, CanFail, FailedBy, CanCreate, Created, SweepCredited, CanCredit,
         CanUpgrade, Parsed, Added, Reconfigured, CanDropSwept, Expired, UnreadableOf, DepositFees;
    match e
    case SubmittedTransaction(sig, message, signers, purpose) =>
      SubmitIgnores(s, t, sig, message, signers, purpose, now);
    case SucceededTransaction(sig) => SucceedIgnores(s, t, sig);
    case FailedTransaction(sig) => FailIgnores(s, t, sig);
    case CreatedWithdrawalTransaction(burns, a, nonce) => CreateIgnores(s, t, burns, a, nonce);
    case CreditedSweep(sig, amount, mints) =>
      Credits(s, sig, amount, mints);
      CreditIgnores(s, t, sig, amount, mints, now);
    case ExpiredTransaction(sig) =>
      Expires(s, sig);
      ExpireIgnores(s, t, sig);
    case _ =>
  }

  lemma Credits(s: MinterState, sig: Signature, amount: Lamport, mints: seq<CreditedDeposit>)
    requires CanCreditSweep(s, sig, amount, mints)
    ensures sig in s.book.finalized
  {}

  lemma Expires(s: MinterState, sig: Signature)
    requires CanExpire(s, sig)
    ensures sig in s.book.swept
  {}

  /** Erasing the transient fields commutes with every event. */
  lemma EraseCommutes(a: MinterState, b: MinterState, e: Event, now: Timestamp)
    requires Erase(a) == Erase(b)
    ensures CanApply(a, e) <==> CanApply(b, e)
    ensures CanApply(a, e) ==> CanApply(b, e) && Erase(Apply(a, e, now)) == Erase(Apply(b, e, now))
  {
    EraseMeans(a, b);
    CanIgnores(a, TransientOf(b), e);
    if CanApply(a, e) {
      ApplyIgnores(a, TransientOf(b), e, now);
      hide CanApply, Apply, After;
    }
  }

  // ---------- live runs ----------

  /** A live state and the log recorded so far. */
  datatype Live = Live(state: MinterState, log: seq<LoggedEvent>)

  ghost predicate Starts(l: Live, a: InitArgs, now: Timestamp) {
    CanInit(a) && l == Live(InitialState(a), [LoggedEvent(Init(a), now)])
  }

  /** An event is applied at the time it is logged with. */
  ghost predicate Records(l: Live, l': Live, e: Event, now: Timestamp) {
    CanApply(l.state, e) && l' == Live(Apply(l.state, e, now), l.log + [LoggedEvent(e, now)])
  }

  /** Guards, tasks and the watchlist change without an event. */
  ghost predicate Touches(l: Live, l': Live) {
    l'.log == l.log && Erase(l'.state) == Erase(l.state)
  }

  /** Between two messages, the canister may be upgraded: its state is rebuilt from the log. */
  ghost predicate Restarts(l: Live, l': Live) {
    l'.log == l.log && Replay(l.log) == Some(l'.state)
  }

  ghost predicate LiveStep(l: Live, l': Live) {
    (exists e, now :: Records(l, l', e, now)) || Touches(l, l') || Restarts(l, l')
  }

  ghost predicate LiveRun(run: seq<Live>) {
    && run != [] && (exists a, now :: Starts(run[0], a, now))
    && forall i | 0 <= i < |run| - 1 :: LiveStep(run[i], run[i + 1])
  }

  /** The replayed log agrees with the live state on every persisted field. */
  ghost predicate Replays(l: Live) {
    Replay(l.log).Some? && Erase(Replay(l.log).value) == Erase(l.state)
  }

  lemma ReplayAppends(log: seq<LoggedEvent>, e: Event, now: Timestamp)
    requires Replay(log).Some? && CanApply(Replay(log).value, e)
    ensures Replay(log + [LoggedEvent(e, now)]) == Some(Apply(Replay(log).value, e, now))
  {
    hide CanApply, Apply, CanInit, InitialState;
    assert (log + [LoggedEvent(e, now)])[..|log|] == log;
  }

  lemma StepReplays(l: Live, l': Live)
    requires Replays(l) && LiveStep(l, l')
    ensures Replays(l')
  {
    hide CanApply, Apply, Erase, Replay;
    if e, now :| Records(l, l', e, now) {
      EraseCommutes(Replay(l.log).value, l.state, e, now);
      ReplayAppends(l.log, e, now);
    }
  }

  /** In every live run, replaying the log at any point rebuilds the persisted state. */
  lemma {:induction false} ReplayRefinesLive(run: seq<Live>, i: nat)
    requires LiveRun(run) && i < |run|
    ensures Replays(run[i])
  {
    hide Replays, LiveStep;
    if i == 0 {
      var a, now :| Starts(run[0], a, now);
      InitReplays(run[0], a, now);
    } else {
      ReplayRefinesLive(run, i - 1);
      StepReplays(run[i - 1], run[i]);
    }
  }

  lemma InitReplays(l: Live, a: InitArgs, now: Timestamp)
    requires Starts(l, a, now)
    ensures Replays(l)
  {
    hide CanInit, InitialState, Erase;
  }

  /** The two reads of the clock must agree: an event logged at another time than it was applied
      at is replayed to a different state. */
  lemma ClockReadsMatter(s: MinterState, r: WithdrawalRequest, applied: Timestamp, logged: Timestamp)
    requires CanAccept(s, r) && applied != logged
    ensures Erase(Apply(s, AcceptedWithdrawalRequest(r), applied)) != Erase(Apply(s, AcceptedWithdrawalRequest(r), logged))
  {
    var i := r.burnIndex;
    assert Accepted(s, r, applied).pending[i] != Accepted(s, r, logged).pending[i];
  }
}
