/** Solvency and the withdrawal fee. Credits that come from settlements are backed exactly, and
    withdraw_sol charges every request the fee in force; so whether a run is solvent only depends on
    how many requests were served by how many transactions (minter/src/withdraw/mod.rs,
    minter/src/deposit/sweep/finalize/mod.rs, minter/src/state/mod.rs). */
module FeeSolvency {
  import opened Prelude
  import opened Solana
  import opened Sweeps
  import opened Settlement
  import opened ScanSchedule
  import opened Minter
  import opened WithdrawalRecords
  import opened MinterRuns
  import opened TimerRounds
  import opened Replaying
  import opened Solvency
  import opened WithdrawCalls

  // ---------- exact backing ----------

  /** A credit is what the settlement of a finalized sweep gives for some report. */
  ghost predicate FromSettlement(s: MinterState, e: Event) {
    e.CreditedSweep? ==>
      && e.signature in s.book.finalized && s.book.finalized[e.signature].deposits.Keys != {}
      && exists fetched, meta :: SettlementEvent(e.signature, Settle(s.book.finalized[e.signature], fetched, meta)) == Some(e)
  }

  /** The mints of a settled sweep and the fees of its deposits add up to what it delivered. */
  lemma SettledInFull(s: MinterState, h: History, e: Event)
    requires Inv(s, h) && e.CreditedSweep? && FromSettlement(s, e)
    ensures Sum(AmountsToMint(e.mints)) + DepositFees(s.book.finalized[e.signature]) == e.amountReceived
  {
    hide Inv, Settle, IsPlan, Mints, MintAmounts, AmountsToMint, Sum, DepositFees, AllFeesFit;
    var plan := s.book.finalized[e.signature];
    var fetched, meta :| SettlementEvent(e.signature, Settle(plan, fetched, meta)) == Some(e);
    FinalizedPlan(s, h, e.signature);
    SettledMeans(plan, fetched, meta);
    MintsFit(plan);
    MintsConserve(plan);
  }

  /** Everything received is minted, owed or collected as fees. */
  ghost predicate FullyBacked(s: MinterState, t: Tally) {
    Claims(s.book) + s.collectedFees == t.received
  }

  lemma EventKeepsBacking(s: MinterState, h: History, t: Tally, e: Event, now: Timestamp)
    requires Inv(s, h) && CanApply(s, e) && FromSettlement(s, e) && FullyBacked(s, t)
    ensures FullyBacked(Apply(s, e, now), Tallied(t, e))
  {
    hide Inv, Claims, DepositFees, AmountsToMint, Sum, FromSettlement;
    if e.CreatedWithdrawalTransaction? {
    } else {
      hide CanApply, Apply;
      EventAmounts(s, h, e, now);
      if e.CreditedSweep? {
        SettledInFull(s, h, e);
      }
    }
  }

  ghost predicate LogSettled(log: seq<LoggedEvent>) {
    forall k | 1 <= k < |log| :: Replay(log[..k]).Some? ==> FromSettlement(Replay(log[..k]).value, log[k].payload)
  }

  /** In every run whose credits come from settlements, everything received is backed exactly. */
  lemma {:induction false} BackedInFull(log: seq<LoggedEvent>, h: History)
    requires Runs(log, h) && LogSettled(log)
    ensures Replay(log).Some? && FullyBacked(Replay(log).value, TallyOf(log))
    decreases |log|
  {
    hide Inv, Apply, MinterRuns.After, CanApply, Admissible, FullyBacked, FromSettlement;
    if |log| == 1 {
      NothingYet(log);
    } else {
      var n := |log| - 1;
      var h0 :| RunStep(log, h0, h);
      forall k | 1 <= k < n ensures log[..n][..k] == log[..k] {}
      BackedInFull(log[..n], h0);
      ReachableInv(log[..n], h0);
      EventKeepsBacking(Replay(log[..n]).value, h0, TallyOf(log[..n]), log[n].payload, log[n].timestamp);
    }
  }

  lemma NothingYet(log: seq<LoggedEvent>)
    requires |log| == 1 && Replay(log).Some?
    ensures FullyBacked(Replay(log).value, TallyOf(log))
  {
    hide Claims;
    InitialAccounts(log);
    assert TallyOf(log[..0]) == Tally(0, 0);
  }

  /** The balance covers everything minted or possibly minted and not burned, the burns still waiting
      for a transaction, and the collected automatic deposit fees. */
  ghost predicate SolventIn(s: MinterState, w: Withdrawals) {
    s.balance + Total(Solvency.Burned(w)) >= Claims(s.book) + Total(BurnedPending(w)) + s.collectedFees
  }

  /** Such a run is solvent exactly when the burns of the served requests cover their transfers and
      the fees of the created transactions. */
  lemma SolventIff(log: seq<LoggedEvent>, h: History)
    requires Runs(log, h) && LogSettled(log)
    ensures Replay(log).Some?
    ensures SolventIn(Replay(log).value, h.withdrawals) <==>
            Total(Transferred(h.withdrawals)) + BATCH_WITHDRAWAL_TX_FEE * TallyOf(log).created
              <= Total(BurnedServed(h.withdrawals))
  {
    hide Runs, Replay, LogSettled, Total, Transferred, TallyOf, Solvency.Burned, BurnedServed, BurnedPending, Claims;
    ReachableAccounts(log, h);
    BackedInFull(log, h);
    BurnsSplit(h.withdrawals);
  }

  // ---------- runs with calls ----------

  ghost function TallyStep(t: Tally, step: Step): Tally {
    if step.Other? then Tallied(t, step.event) else t
  }

  ghost function TallyAt(steps: seq<Step>, n: nat): Tally
    requires n <= |steps|
  {
    if n == 0 then Tally(0, 0) else TallyStep(TallyAt(steps, n - 1), steps[n - 1])
  }

  /** A run of calls, ledger, events and upgrades from the given parameters, in which credits come
      from settlements and no upgrade changes the withdrawal fee. */
  ghost predicate FixedFeeRun(run: seq<World>, steps: seq<Step>, init: InitArgs) {
    && CallRun(run, steps) && WithdrawCalls.Starts(run[0], init)
    && (forall k | 0 <= k < |steps| && steps[k].Other? :: FromSettlement(run[k].s, steps[k].event))
    && (forall k | 0 <= k < |run| :: run[k].s.config.withdrawalFee == init.config.withdrawalFee)
  }

  ghost predicate PaysFee(w: Withdrawals, fee: Lamport) {
    forall i | i in w :: w[i].request.burnedAmount == w[i].request.amountToTransfer + fee
  }

  ghost predicate Booked(x: World, t: Tally, fee: Lamport) {
    Accounted(x.s, x.h, t) && FullyBacked(x.s, t) && PaysFee(x.h.withdrawals, fee)
  }

  lemma EventBooked(s: MinterState, h: History, t: Tally, e: Event, now: Timestamp)
    requires Inv(s, h) && CanApply(s, e) && Admissible(s, h, e) && FromSettlement(s, e)
    requires Accounted(s, h, t) && FullyBacked(s, t)
    ensures Accounted(Apply(s, e, now), MinterRuns.After(s, h, e, now), Tallied(t, e))
    ensures FullyBacked(Apply(s, e, now), Tallied(t, e))
  {
    hide Inv, CanApply, Apply, MinterRuns.After, Admissible, FromSettlement, Accounted, FullyBacked;
    EventKeepsAccounts(s, h, t, e, now);
    EventKeepsBacking(s, h, t, e, now);
  }

  /** Guards and the watchlist do not matter to the accounts. */
  lemma TransientBooked(s: MinterState, s': MinterState, h: History, t: Tally)
    requires Accounted(s, h, t) && FullyBacked(s, t) && s' == With(s, TransientOf(s'))
    ensures Accounted(s', h, t) && FullyBacked(s', t)
  {
    hide Total, Transferred, MintedAmounts, PendingAmounts, UnresolvedAmounts;
  }

  lemma OtherBooked(x: World, x': World, e: Event, now: Timestamp, t: Tally, fee: Lamport)
    requires Ok(x) && OtherEvent(x, x', e, now) && FromSettlement(x.s, e) && Booked(x, t, fee)
    ensures Booked(x', Tallied(t, e), fee)
  {
    OtherRequests(x, x', e, now);
    hide Inv, CanApply, Apply, MinterRuns.After, Admissible, FromSettlement, Accounted, FullyBacked, Validate, RequestsOk, CallsOk,
         BurnsOk;
    EventBooked(x.s, x.h, t, e, now);
  }

  lemma RecordBooked(x: World, x': World, a: Account, now: Timestamp, t: Tally, fee: Lamport)
    requires Ok(x) && CallRecords(x, x', a, now) && Booked(x, t, fee) && x.s.config.withdrawalFee == fee
    ensures Booked(x', t, fee)
  {
    hide Inv, CanApply, Apply, MinterRuns.After, Admissible, Accounted, FullyBacked, Validate, RequestsOk, CallsOk, BurnsOk,
         Tallied, PaysFee;
    ResumeNeverTraps(x, a);
    var r := RequestOf(x.s, a, x.calls[a]);
    var e := AcceptedWithdrawalRequest(r);
    Untallied(t, e);
    EventBooked(x.s, x.h, t, e, now);
    TransientBooked(Apply(x.s, e, now), x'.s, x'.h, t);
    ArrivalPays(x.s, x.h, r, now, fee);
  }

  lemma ArrivalPays(s: MinterState, h: History, r: WithdrawalRequest, now: Timestamp, fee: Lamport)
    requires PaysFee(h.withdrawals, fee) && r.burnedAmount == r.amountToTransfer + fee
    requires CanApply(s, AcceptedWithdrawalRequest(r))
    ensures PaysFee(MinterRuns.After(s, h, AcceptedWithdrawalRequest(r), now).withdrawals, fee)
  {}

  lemma Untallied(t: Tally, e: Event)
    requires !e.CreditedSweep? && !e.CreatedWithdrawalTransaction?
    ensures Tallied(t, e) == t
  {}

  lemma UpgradeBooked(x: World, x': World, args: Option<UpgradeArgs>, now: Timestamp, t: Tally, fee: Lamport)
    requires Ok(x) && Upgrades(x, x', args, now) && Booked(x, t, fee)
    ensures Booked(x', t, fee)
  {
    hide Inv, Accounted, FullyBacked, Validate, RequestsOk, CallsOk, BurnsOk, Tallied, CanUpgrade, Upgraded, Abandoned, Asked;
    OtherTransient(x.s, Erase(x.s), x.h);
    TransientBooked(x.s, Erase(x.s), x.h, t);
    if args.Some? {
      Untallied(t, Upgrade(args.value));
      EventBooked(Erase(x.s), x.h, t, Upgrade(args.value), now);
    }
  }

  lemma CallBooked(x: World, step: Step, x': World, t: Tally, fee: Lamport)
    requires Takes(x, step, x') && Booked(x, t, fee) && !step.Other? && !step.RecordCall? && !step.UpgradeTo?
    ensures Booked(x', t, fee)
  {
    hide Accounted, FullyBacked, CallOutcome, Asked;
    TransientBooked(x.s, x'.s, x.h, t);
  }

  lemma StepBooked(x: World, step: Step, x': World, t: Tally, fee: Lamport)
    requires Ok(x) && Takes(x, step, x') && Booked(x, t, fee) && x.s.config.withdrawalFee == fee
    requires step.Other? ==> FromSettlement(x.s, step.event)
    ensures Booked(x', TallyStep(t, step), fee)
  {
    hide Ok, Booked, CallStarts, LedgerBurns, CallRefused, CallErrs, LedgerBurnsLate, CallRecords, OtherEvent, Upgrades,
         FromSettlement, Tallied;
    match step
    case Other(e, now) => OtherBooked(x, x', e, now, t, fee);
    case RecordCall(a, now) => RecordBooked(x, x', a, now, t, fee);
    case UpgradeTo(args, now) => UpgradeBooked(x, x', args, now, t, fee);
    case _ => CallBooked(x, step, x', t, fee);
  }

  lemma StartBooked(x: World, init: InitArgs, fee: Lamport)
    requires WithdrawCalls.Starts(x, init)
    ensures Booked(x, Tally(0, 0), fee)
  {
    hide Claims, CanInit, InitialState;
    var log := [LoggedEvent(Init(init), 0)];
    InitialAccounts(log);
    NothingYet(log);
    assert TallyOf(log[..0]) == Tally(0, 0);
  }

  lemma {:induction false} RunBooked(run: seq<World>, steps: seq<Step>, init: InitArgs, n: nat)
    requires FixedFeeRun(run, steps, init) && n < |run|
    ensures n <= |steps| && Booked(run[n], TallyAt(steps, n), init.config.withdrawalFee)
  {
    hide Ok, Takes, WithdrawCalls.Starts, Booked, FromSettlement, TallyStep;
    if n == 0 {
      StartBooked(run[0], init, init.config.withdrawalFee);
    } else {
      RunBooked(run, steps, init, n - 1);
      RunKeeps(run, steps, n - 1);
      StepBooked(run[n - 1], steps[n - 1], run[n], TallyAt(steps, n - 1), init.config.withdrawalFee);
    }
  }

  // ---------- when a run is solvent ----------

  lemma {:induction false} TotalConstant<K>(m: map<K, nat>, v: nat)
    requires forall k :: k in m ==> m[k] == v
    ensures Total(m) == v * |m|
    decreases |m|
  {
    if m.Keys != {} {
      var k :| k in m.Keys;
      TotalRemove(m, k);
      CardRemove(m, k);
      TotalConstant(m - {k}, v);
      MulSucc(|m| - 1, v);
    } else {
      assert |m.Keys| == |m|;
    }
  }

  lemma BurnsServe(w: Withdrawals, fee: Lamport)
    requires PaysFee(w, fee)
    ensures Total(BurnedServed(w)) == Total(Transferred(w)) + fee * |Transferred(w)|
  {
    var kept := map i | i in Transferred(w) :: fee;
    TotalPointwise(Transferred(w), kept, BurnedServed(w));
    TotalConstant(kept, fee);
    assert kept.Keys == Transferred(w).Keys;
    assert |kept| == |kept.Keys| && |Transferred(w)| == |Transferred(w).Keys|;
  }

  /** In every run under a fixed fee, at every time: the minter is solvent exactly when the fees of
      the served requests pay for the created transactions. */
  lemma SolventExactlyWhen(run: seq<World>, steps: seq<Step>, init: InitArgs, n: nat)
    requires FixedFeeRun(run, steps, init) && n < |run|
    ensures n <= |steps|
    ensures SolventIn(run[n].s, run[n].h.withdrawals) <==>
            BATCH_WITHDRAWAL_TX_FEE * TallyAt(steps, n).created <= init.config.withdrawalFee * |Transferred(run[n].h.withdrawals)|
  {
    hide FixedFeeRun, Total, Transferred, TallyAt, Solvency.Burned, BurnedServed, BurnedPending, Claims, PaysFee;
    RunBooked(run, steps, init, n);
    BurnsSplit(run[n].h.withdrawals);
    BurnsServe(run[n].h.withdrawals, init.config.withdrawalFee);
  }

  /** A fee that pays for a transaction keeps every run solvent: every transaction serves at least
      one request. */
  lemma CoveringFeeIsSolvent(run: seq<World>, steps: seq<Step>, init: InitArgs, n: nat)
    requires FixedFeeRun(run, steps, init) && n < |run| && init.config.withdrawalFee >= BATCH_WITHDRAWAL_TX_FEE
    ensures SolventIn(run[n].s, run[n].h.withdrawals)
  {
    hide FixedFeeRun, Transferred, TallyAt, SolventIn, FullyBacked, PaysFee, Exact, Backed;
    RunBooked(run, steps, init, n);
    SolventExactlyWhen(run, steps, init, n);
    MulGrows(TallyAt(steps, n).created, |Transferred(run[n].h.withdrawals)|, init.config.withdrawalFee);
  }

  lemma MulGrows(c: nat, n: nat, fee: nat)
    requires c <= n && BATCH_WITHDRAWAL_TX_FEE <= fee
    ensures BATCH_WITHDRAWAL_TX_FEE * c <= fee * n
  {
    assert fee * n == BATCH_WITHDRAWAL_TX_FEE * n + (fee - BATCH_WITHDRAWAL_TX_FEE) * n;
  }
}
