/** A withdrawal fee below the cost of a transaction makes the minter insolvent: from any parameters
    with such a fee there is a run with one credited deposit and one withdrawal after which the
    balance no longer covers what is owed (minter/src/state/mod.rs, minter/src/withdraw/mod.rs). */
module InsolventRuns {
  import opened Prelude
  import opened Solana
  import opened NoncePool
  import opened Sweeps
  import opened Settlement
  import opened ScanSchedule
  import opened DepositBook
  import opened DepositLifecycle
  import opened Minter
  import opened WithdrawalRecords
  import opened MinterRuns
  import opened Settings
  import opened TimerRounds
  import opened Replaying
  import opened Solvency
  import opened WithdrawCalls
  import opened FeeSolvency

  // ---------- extending a run ----------

  lemma Extended(run: seq<World>, steps: seq<Step>, init: InitArgs, step: Step, x: World)
    requires FixedFeeRun(run, steps, init) && |run| == |steps| + 1 && Takes(run[|steps|], step, x)
    requires x.s.config.withdrawalFee == init.config.withdrawalFee
    requires step.Other? ==> FromSettlement(run[|steps|].s, step.event)
    ensures FixedFeeRun(run + [x], steps + [step], init)
    ensures TallyAt(steps + [step], |steps| + 1) == TallyStep(TallyAt(steps, |steps|), step)
  {
    hide Takes, WithdrawCalls.Starts, FromSettlement, CallRun;
    RunExtends(run, steps, step, x);
    var run', steps' := run + [x], steps + [step];
    forall k | 0 <= k < |steps'| && steps'[k].Other? ensures FromSettlement(run'[k].s, steps'[k].event) {
      if k < |steps| {
        assert FromSettlement(run[k].s, steps[k].event);
      }
    }
    TallyPrefix(steps, step, |steps|);
  }

  lemma {:induction false} TallyPrefix(steps: seq<Step>, step: Step, n: nat)
    requires n <= |steps|
    ensures TallyAt(steps + [step], n) == TallyAt(steps, n)
  {
    if n > 0 {
      TallyPrefix(steps, step, n - 1);
    }
  }

  /** A run under a fixed fee that ends in the given world, with no transaction created yet. */
  ghost predicate Reaches(run: seq<World>, steps: seq<Step>, init: InitArgs, x: World) {
    && FixedFeeRun(run, steps, init) && |run| == |steps| + 1 && run[|steps|] == x
    && TallyAt(steps, |steps|).created == 0
  }

  ghost function Recording(x: World, e: Event, now: Timestamp): World
    requires CanApply(x.s, e)
  {
    x.(s := Apply(x.s, e, now), h := MinterRuns.After(x.s, x.h, e, now))
  }

  lemma RunRecords(run: seq<World>, steps: seq<Step>, init: InitArgs, x: World, e: Event, now: Timestamp)
    returns (run': seq<World>, steps': seq<Step>)
    requires Reaches(run, steps, init, x) && CanApply(x.s, e) && Admissible(x.s, x.h, e) && FromSettlement(x.s, e)
    requires !e.AcceptedWithdrawalRequest? && !e.Upgrade? && !e.CreatedWithdrawalTransaction?
    ensures Reaches(run', steps', init, Recording(x, e, now))
  {
    hide CanApply, Apply, MinterRuns.After, Admissible, FromSettlement, TallyAt;
    EventFrame(x.s, x.h, e, now);
    hide FixedFeeRun;
    assert x.s.config.withdrawalFee == init.config.withdrawalFee by { FeeAtEnd(run, steps, init); }
    Extended(run, steps, init, Other(e, now), Recording(x, e, now));
    run', steps' := run + [Recording(x, e, now)], steps + [Other(e, now)];
  }

  lemma FeeAtEnd(run: seq<World>, steps: seq<Step>, init: InitArgs)
    requires FixedFeeRun(run, steps, init) && |run| == |steps| + 1
    ensures run[|steps|].s.config.withdrawalFee == init.config.withdrawalFee
  {}

  lemma OkAtEnd(run: seq<World>, steps: seq<Step>, init: InitArgs, x: World)
    requires Reaches(run, steps, init, x)
    ensures Ok(x)
  {
    RunKeeps(run, steps, |steps|);
  }

  // ---------- a minter with its key and a nonce account ----------

  const KEY: SchnorrPublicKey := SchnorrPublicKey(0, 0)

  const NO_CHANGE: UpgradeArgs := UpgradeArgs(None, None, None, None, None, None, None, None)

  /** The parameters with a nonce account, if they have none. */
  ghost function Equipped(init: InitArgs): InitArgs {
    if init.nonceAccounts == [] then init.(nonceAccounts := [Some(Address.Foreign(2))]) else init
  }

  lemma EquippedInit(init: InitArgs)
    requires CanInit(init)
    ensures CanInit(Equipped(init)) && |Equipped(init).nonceAccounts| > 0 && Equipped(init).config == init.config
  {
    hide Validate;
  }

  lemma Ready(init: InitArgs) returns (run: seq<World>, steps: seq<Step>)
    requires CanInit(init)
    ensures CanInit(Equipped(init)) && Reaches(run, steps, init, Idle(Equipped(init), KEY, {}))
  {
    hide Validate;
    EquippedInit(init);
    KeyArrives(init, KEY, {}, 0);
    var x0, x1 := World(InitialState(init), EMPTY_HISTORY, map[], map[], map[], {}, {}), Idle(init, KEY, {});
    run, steps := [x0], [];
    assert WithdrawCalls.Starts(run[0], init);
    Extended(run, steps, init, Other(MinterPublicKeyFetched(KEY), 0), x1);
    run, steps := run + [x1], steps + [Other(MinterPublicKeyFetched(KEY), 0)];
    if init.nonceAccounts == [] {
      var args := NO_CHANGE.(nonceAccountsToAdd := Some([Some(Address.Foreign(2))]));
      var x2 := Idle(Equipped(init), KEY, {});
      AccountJoins(init, args, x1, x2);
      Extended(run, steps, init, UpgradeTo(Some(args), 0), x2);
      run, steps := run + [x2], steps + [UpgradeTo(Some(args), 0)];
    }
  }

  lemma AccountJoins(init: InitArgs, args: UpgradeArgs, x: World, x': World)
    requires CanInit(init) && init.nonceAccounts == [] && x == Idle(init, KEY, {})
    requires args == NO_CHANGE.(nonceAccountsToAdd := Some([Some(Address.Foreign(2))]))
    requires CanInit(Equipped(init)) && x' == Idle(Equipped(init), KEY, {})
    ensures Takes(x, UpgradeTo(Some(args), 0), x')
  {
    hide Validate;
    assert Erase(x.s) == x.s;
    assert Reconfigured(x.s.config, args) == x.s.config;
    assert Parsed([]) == [] && x.s.pool.Keys == {};
    assert Added(x.s.pool, Parsed(args.nonceAccountsToAdd.value)) == x'.s.pool;
    assert Abandoned(x.fate).Keys == {};
    assert Asked(x.calls) == {};
  }

  // ---------- one credited deposit ----------

  /** What the events of a deposit leave alone. */
  ghost predicate Quiet(x: World, x': World) {
    && x'.s.pool == x.s.pool && x'.s.config == x.s.config && x'.s.key == x.s.key && x'.s.pending == x.s.pending
    && x'.s.createdTxs == x.s.createdTxs && x'.s.withdrawalGuards == x.s.withdrawalGuards
    && x'.h.withdrawals.Keys == x.h.withdrawals.Keys && x' == x.(s := x'.s, h := x'.h)
  }

  ghost predicate OfDeposit(s: MinterState, e: Event) {
    match e
    case QueuedDepositEvent(_, _) => true
    case SubmittedTransaction(_, _, _, purpose) => purpose.SweepDeposit?
    case SucceededTransaction(sig) => sig in s.submitted.values && s.submitted.values[sig].SweepTx?
    case CreditedSweep(_, _, _) => true
    case MintedSweptDeposit(_, _) => true
    case _ => false
  }

  lemma DepositIsQuiet(x: World, e: Event, now: Timestamp)
    requires CanApply(x.s, e) && OfDeposit(x.s, e)
    ensures Quiet(x, Recording(x, e, now))
  {
    hide CanApply, Apply, MinterRuns.After;
    EventFrame(x.s, x.h, e, now);
    DepositFrame(x.s, e, now);
  }

  lemma DepositFrame(s: MinterState, e: Event, now: Timestamp)
    requires CanApply(s, e) && OfDeposit(s, e)
    ensures var s' := Apply(s, e, now);
            && s'.pool == s.pool && s'.config == s.config && s'.key == s.key && s'.pending == s.pending
            && s'.createdTxs == s.createdTxs && s'.withdrawalGuards == s.withdrawalGuards
  {
    hide CanSubmit, CanSucceed, CanCreditSweep, Submitted, Succeeded, DepositFees, Credit, Mint, Queue;
    match e
    case SubmittedTransaction(sig, message, signers, purpose) => SubmittedParts(s, sig, message, signers, purpose, now);
    case SucceededTransaction(sig) => SucceededParts(s, sig);
    case _ =>
  }

  const OWNER: Account := Account(Canister(0), 0)

  const SIGNATURE: Signature := Signature(seq(SIGNATURE_BYTES, _ => 0))

  /** A deposit that delivers at least the given amount. */
  ghost function DepositOf(c: Config, amount: Lamport): QueuedDeposit {
    QueuedDeposit(OWNER, AccountAddress(KEY, OWNER), c.minimumDepositAmount + RENT_EXEMPTION_THRESHOLD + FEE_PER_SIGNATURE + amount,
                  None)
  }

  ghost function SweepOf(d: QueuedDeposit): Sweep
    requires d.Sweepable() >= FEE_PER_SIGNATURE
  {
    SinglePlan(d);
    PlanOf(map[0 := d], MinterAddress(KEY))
  }

  lemma SinglePlan(d: QueuedDeposit)
    requires d.Sweepable() >= FEE_PER_SIGNATURE
    ensures CanPlan(map[0 := d])
  {
    var m: Batch := map[0 := d];
    assert m.Keys == {0} && |m| == |m.Keys|;
  }

  lemma SingleDelivers(d: QueuedDeposit)
    requires d.Sweepable() >= FEE_PER_SIGNATURE
    ensures SweepOf(d).expectedReceived + FEE_PER_SIGNATURE == d.Sweepable()
  {
    var m: Batch := map[0 := d];
    SinglePlan(d);
    hide CanPlan, TransfersOf, First;
    PlanConserves(m, MinterAddress(KEY));
    assert m.Keys == {0} && |m| == |m.Keys|;
    assert SweepableOf(m) - {0} == map[];
    TotalRemove(SweepableOf(m), 0);
    assert Total(SweepableOf(m) - {0}) == 0;
  }

  lemma AdmittedDeposit(c: Config, amount: Lamport)
    requires Validate(c) == None
    ensures Admitted(c, DepositOf(c, amount)) && Viable(DepositOf(c, amount)) && c.minimumDepositAmount > 0
  {
    AdmittedViable(c, DepositOf(c, amount));
  }

  /** The deposit is queued. */
  lemma RunQueues(run: seq<World>, steps: seq<Step>, init: InitArgs, x: World, d: QueuedDeposit)
    returns (run': seq<World>, steps': seq<Step>, x': World)
    requires Reaches(run, steps, init, x) && x.s.book == EMPTY_BOOK && x.s.key == Some(KEY) && Sound(x.s, x.h)
    requires d.account == OWNER && d.address == AccountAddress(KEY, OWNER) && Admitted(x.s.config, d)
    ensures Reaches(run', steps', init, x') && Quiet(x, x') && Sound(x'.s, x'.h)
    ensures x'.s.book.queued == map[0 := d] && x'.s.submitted == x.s.submitted && x'.s.balance == x.s.balance
    ensures x'.s.succeededTxs == x.s.succeededTxs && x'.s.failedTxs == x.s.failedTxs
  {
    hide Sound, Admitted, Reaches;
    var e := QueuedDepositEvent(0, d);
    x' := Recording(x, e, 0);
    DepositIsQuiet(x, e, 0);
    EventKeepsSound(x.s, x.h, e, 0);
    run', steps' := RunRecords(run, steps, init, x, e, 0);
  }

  /** The deposit is swept. */
  lemma RunSweeps(run: seq<World>, steps: seq<Step>, init: InitArgs, x: World, d: QueuedDeposit)
    returns (run': seq<World>, steps': seq<Step>, x': World)
    requires Reaches(run, steps, init, x) && x.s.book.queued == map[0 := d] && x.s.key == Some(KEY) && Sound(x.s, x.h)
    requires d.Sweepable() >= FEE_PER_SIGNATURE && !x.s.submitted.Has(SIGNATURE)
    requires SIGNATURE !in x.s.succeededTxs && !x.s.failedTxs.Has(SIGNATURE)
    ensures Reaches(run', steps', init, x') && Quiet(x, x') && Sound(x'.s, x'.h)
    ensures SIGNATURE in x'.s.book.swept && x'.s.book.swept[SIGNATURE] == SweepOf(d) && x'.s.balance == x.s.balance
    ensures SIGNATURE in x'.s.submitted.values && x'.s.submitted.values[SIGNATURE].SweepTx?
  {
    hide Sound, Reaches, Inv, Apply, MinterRuns.After, CanApply, PlanOf, CanPlan, SweepMessage, Ascending, Validate, CallsOk,
         RequestsOk, BurnsOk, SweepOf, FromSettlement;
    OkAtEnd(run, steps, init, x);
    SinglePlan(d);
    var m: Batch := map[0 := d];
    assert RoundOpen(x.s.book.queued, [m]) by { assert m.Keys == {0} && |m| == |m.Keys|; }
    hide RoundOpen;
    RecordSweepNeverTraps(x.s, x.h, [m], 0, SIGNATURE, 0, [SignedByMinter], 0);
    var e := SweepEvent(KEY, m, SIGNATURE, 0, [SignedByMinter], 0);
    x' := Recording(x, e, 0);
    DepositIsQuiet(x, e, 0);
    EventKeepsSound(x.s, x.h, e, 0);
    SweepRecorded(x.s, d, e);
    NoCredit(x.s, e);
    run', steps' := RunRecords(run, steps, init, x, e, 0);
  }

  lemma SweepRecorded(s: MinterState, d: QueuedDeposit, e: Event)
    requires s.book.queued == map[0 := d] && s.key == Some(KEY) && d.Sweepable() >= FEE_PER_SIGNATURE && CanApply(s, e)
    requires CanPlan(map[0 := d]) && e == SweepEvent(KEY, map[0 := d], SIGNATURE, 0, [SignedByMinter], 0)
    ensures var s' := Apply(s, e, 0);
            && SIGNATURE in s'.book.swept && s'.book.swept[SIGNATURE] == SweepOf(d) && s'.balance == s.balance
            && SIGNATURE in s'.submitted.values && s'.submitted.values[SIGNATURE].SweepTx?
  {
    hide PlanOf, CanPlan, SweepMessage, Ascending, CanSubmit, CanSweep, Submitted, Picked;
    var m: Batch := map[0 := d];
    SubmittedParts(s, SIGNATURE, e.message, [SignedByMinter], e.purpose, 0);
    assert m.Keys == {0};
    AscendingPicks(s.book.queued, m);
  }

  /** The sweep succeeds. */
  lemma RunLands(run: seq<World>, steps: seq<Step>, init: InitArgs, x: World, plan: Sweep)
    returns (run': seq<World>, steps': seq<Step>, x': World)
    requires Reaches(run, steps, init, x) && Sound(x.s, x.h)
    requires SIGNATURE in x.s.book.swept && x.s.book.swept[SIGNATURE] == plan
    requires SIGNATURE in x.s.submitted.values && x.s.submitted.values[SIGNATURE].SweepTx?
    ensures Reaches(run', steps', init, x') && Quiet(x, x') && Sound(x'.s, x'.h)
    ensures SIGNATURE in x'.s.book.finalized && x'.s.book.finalized[SIGNATURE] == plan && x'.s.balance == x.s.balance
  {
    hide Sound, Reaches, Inv, MinterRuns.After, CanSucceed, Succeeded, CanFinalize;
    OkAtEnd(run, steps, init, x);
    var e := SucceededTransaction(SIGNATURE);
    OutcomeNeverTraps(x.s, x.h, SIGNATURE);
    x' := Recording(x, e, 0);
    DepositIsQuiet(x, e, 0);
    EventKeepsSound(x.s, x.h, e, 0);
    SucceededParts(x.s, SIGNATURE);
    run', steps' := RunRecords(run, steps, init, x, e, 0);
  }

  /** A single deposit address with the recorded balance: the report of the executed sweep settles. */
  lemma SingleSettles(s: MinterState, h: History, d: QueuedDeposit) returns (fetched: FetchedMessage, meta: Option<Meta>)
    requires Inv(s, h) && Sound(s, h) && SIGNATURE in s.book.finalized
    requires d.Sweepable() >= FEE_PER_SIGNATURE && s.book.finalized[SIGNATURE] == SweepOf(d)
    ensures SweepOf(d).deposits.Keys != {} && Mints(SweepOf(d)).Some?
    ensures Settle(SweepOf(d), fetched, meta) == Settled(SweepOf(d).expectedReceived, Mints(SweepOf(d)).value)
  {
    hide Inv, Sound, PlanOf, CanPlan, Settle, Execute, SweepMessage, Mints, AccountKeys;
    var plan := SweepOf(d);
    var pre: Balances := map[d.address := d.balance];
    FinalizedPlan(s, h, SIGNATURE);
    FinalizedAddresses(s, h, SIGNATURE);
    SourcesDistinct(plan, s.key.value);
    PlanShaped(plan);
    assert plan.deposits == map[0 := d] by { SingleDeposits(d); }
    ExecutionEffect(plan, 0, plan.fee, pre);
    var post := Execute(pre, SweepMessage(plan, 0), plan.fee).value;
    var keys := AccountKeys(SweepMessage(plan, 0));
    var m := Meta(false, plan.fee, seq(|keys|, i requires 0 <= i < |keys| => Bal(pre, keys[i])),
                  seq(|keys|, i requires 0 <= i < |keys| => Bal(post, keys[i])));
    fetched, meta := Legacy(SweepMessage(plan, 0)), Some(m);
    FinalizedSweepSettles(s, h, SIGNATURE, plan, 0, pre, post, m);
    SettledMeans(plan, fetched, meta);
  }

  lemma SingleDeposits(d: QueuedDeposit)
    requires d.Sweepable() >= FEE_PER_SIGNATURE
    ensures SweepOf(d).deposits == map[0 := d]
  {}

  /** The sweep is credited, from its settlement. */
  lemma RunCredits(run: seq<World>, steps: seq<Step>, init: InitArgs, x: World, d: QueuedDeposit)
    returns (run': seq<World>, steps': seq<Step>, x': World)
    requires Reaches(run, steps, init, x) && Sound(x.s, x.h) && SIGNATURE in x.s.book.finalized
    requires d.Sweepable() >= FEE_PER_SIGNATURE && x.s.book.finalized[SIGNATURE] == SweepOf(d)
    ensures Reaches(run', steps', init, x') && Quiet(x, x')
    ensures x'.s.balance == x.s.balance + SweepOf(d).expectedReceived && 0 in x'.s.book.pendingMints
  {
    hide Sound, Reaches, Inv, MinterRuns.After, PlanOf, CanPlan, Settle, Mints, CanCreditSweep, Credit, DepositFees;
    OkAtEnd(run, steps, init, x);
    var plan := SweepOf(d);
    var fetched, meta := SingleSettles(x.s, x.h, d);
    var e := CreditedSweep(SIGNATURE, plan.expectedReceived, Mints(plan).value);
    SettlementNeverTraps(x.s, x.h, map[SIGNATURE := plan], SIGNATURE, fetched, meta);
    assert SettlementEvent(e.signature, Settle(plan, fetched, meta)) == Some(e);
    x' := Recording(x, e, 0);
    DepositIsQuiet(x, e, 0);
    CreditPends(x.s, plan.expectedReceived, Mints(plan).value, d);
    run', steps' := RunRecords(run, steps, init, x, e, 0);
  }

  lemma CreditPends(s: MinterState, amount: Lamport, mints: seq<CreditedDeposit>, d: QueuedDeposit)
    requires CanCreditSweep(s, SIGNATURE, amount, mints) && d.Sweepable() >= FEE_PER_SIGNATURE
    requires s.book.finalized[SIGNATURE] == SweepOf(d)
    ensures 0 in Credit(s.book, SIGNATURE, mints, 0).pendingMints
  {
    CreditCovers(s.book, SIGNATURE, mints);
    hide CanPlan, PlanOf, MintMap;
    SingleDeposits(d);
  }

  /** The depositor is minted the credited amount. */
  lemma RunMints(run: seq<World>, steps: seq<Step>, init: InitArgs, x: World)
    returns (run': seq<World>, steps': seq<Step>, x': World)
    requires Reaches(run, steps, init, x) && 0 in x.s.book.pendingMints
    ensures Reaches(run', steps', init, x') && Quiet(x, x') && x'.s.balance == x.s.balance && 0 in x'.s.book.minted
  {
    hide Reaches, Inv, MinterRuns.After, CanMint, CallsOk, RequestsOk, BurnsOk, Validate;
    OkAtEnd(run, steps, init, x);
    var e := MintedSweptDeposit(0, 0);
    PendingCanMint(x.s, x.h);
    x' := Recording(x, e, 0);
    DepositIsQuiet(x, e, 0);
    run', steps' := RunRecords(run, steps, init, x, e, 0);
  }

  lemma PendingCanMint(s: MinterState, h: History)
    requires Inv(s, h) && 0 in s.book.pendingMints
    ensures CanMint(s.book, 0)
  {
    hide Agrees, Buckets, Listed, TxsAgree, NoncesAgree, Keyed;
    MintAgrees(s.book, h.deposits, 0, 0);
  }

  /** A run with a credited deposit that delivered more than the given amount. */
  lemma Funded(init: InitArgs, amount: Lamport) returns (run: seq<World>, steps: seq<Step>, x: World)
    requires CanInit(init)
    ensures CanInit(Equipped(init)) && Reaches(run, steps, init, x) && Quiet(Idle(Equipped(init), KEY, {}), x)
    ensures x.s.balance > amount && 0 in x.s.book.minted
  {
    hide Reaches, CanInit, Sound, Admitted, Viable, PlanOf, CanPlan, Validate;
    EquippedInit(init);
    run, steps := Ready(init);
    var init' := Equipped(init);
    InitParses(init');
    x := Idle(init', KEY, {});
    IdleFacts(init', x);
    var d := DepositOf(init.config, amount);
    AdmittedDeposit(init.config, amount);
    SingleDelivers(d);
    run, steps, x := RunQueues(run, steps, init, x, d);
    run, steps, x := RunSweeps(run, steps, init, x, d);
    run, steps, x := RunLands(run, steps, init, x, SweepOf(d));
    run, steps, x := RunCredits(run, steps, init, x, d);
    run, steps, x := RunMints(run, steps, init, x);
  }

  lemma IdleFacts(init: InitArgs, x: World)
    requires CanInit(init) && x == Idle(init, KEY, {})
    ensures Validate(init.config) == None && Sound(x.s, x.h) && x.s.book == EMPTY_BOOK && x.s.key == Some(KEY)
    ensures x.s.config == init.config && x.s.balance == 0 && x.s.submitted.values.Keys == {}
    ensures !x.s.submitted.Has(SIGNATURE) && SIGNATURE !in x.s.succeededTxs && !x.s.failedTxs.Has(SIGNATURE)
  {
    hide Validate, CanAdd;
  }

  // ---------- one withdrawal ----------

  /** An address outside a finite set. */
  lemma {:induction false} FreshForeign(s: set<Address>) returns (n: nat)
    ensures forall m: nat | n <= m :: Address.Foreign(m) !in s
  {
    if s == {} {
      n := 0;
    } else {
      var a :| a in s;
      n := FreshForeign(s - {a});
      if a.Foreign? && a.id >= n {
        n := a.id + 1;
      }
    }
  }

  /** What is known before the withdrawal: nothing was withdrawn and some nonce account is free. */
  ghost predicate CanWithdraw(x: World, a: Address, amount: Lamport) {
    && x.s.key == Some(KEY) && x.s.pending == map[] && x.s.createdTxs == map[] && x.s.withdrawalGuards == {}
    && x.h.withdrawals.Keys == {} && x.calls == map[] && x.ledger == map[] && x.reserved == {}
    && CanBind(x.s.pool, a, 0) && amount >= x.s.config.minimumWithdrawalAmount
    && amount + BATCH_WITHDRAWAL_TX_FEE <= x.s.balance
  }

  lemma QuietCanWithdraw(init: InitArgs, x: World, amount: Lamport) returns (a: Address)
    requires CanInit(init) && |init.nonceAccounts| > 0 && Quiet(Idle(init, KEY, {}), x)
    requires amount >= init.config.minimumWithdrawalAmount && amount + BATCH_WITHDRAWAL_TX_FEE <= x.s.balance
    ensures CanWithdraw(x, a, amount)
  {
    hide Validate, CanAdd;
    a := Parsed(init.nonceAccounts)[0];
    assert a in Idle(init, KEY, {}).s.pool;
  }

  /** A call burns. */
  lemma RunBurns(run: seq<World>, steps: seq<Step>, init: InitArgs, x: World, a: Address, amount: Lamport)
    returns (run': seq<World>, steps': seq<Step>, x': World)
    requires Reaches(run, steps, init, x) && CanWithdraw(x, a, amount)
    ensures Reaches(run', steps', init, x') && x' == x.(s := x'.s, calls := x'.calls, ledger := x'.ledger, fate := x'.fate)
    ensures x'.s == x.s.(withdrawalGuards := x'.s.withdrawalGuards)
    ensures OWNER in x'.calls && x'.calls[OWNER].burn == Some(0) && x'.calls[OWNER].amount == amount
  {
    hide FixedFeeRun, TallyAt, CallOutcome, CanBind, Takes;
    var n := FreshForeign(x.s.pool.Keys);
    var d := Address.Foreign(n);
    var x1 := Calling(x, OWNER, Call(amount, d, None, x.s.config));
    x' := Charged(x1, OWNER, 0);
    FeeAtEnd(run, steps, init);
    FirstCalls(x, a, amount, d);
    Extended(run, steps, init, StartCall(OWNER, amount, Some(d)), x1);
    run', steps' := run + [x1], steps + [StartCall(OWNER, amount, Some(d))];
    Extended(run', steps', init, BurnLands(OWNER, 0), x');
    run', steps' := run' + [x'], steps' + [BurnLands(OWNER, 0)];
  }

  /** A call burns and records its request. */
  lemma RunWithdraws(run: seq<World>, steps: seq<Step>, init: InitArgs, x: World, a: Address, amount: Lamport)
    returns (run': seq<World>, steps': seq<Step>, x': World)
    requires Reaches(run, steps, init, x) && CanWithdraw(x, a, amount)
    ensures Reaches(run', steps', init, x') && x'.s.key == Some(KEY) && x'.s.createdTxs == map[] && x'.s.pool == x.s.pool
    ensures x'.s.balance == x.s.balance
    ensures 0 in x'.s.pending && x'.h.withdrawals.Keys == {0} && x'.s.pending[0].request.amountToTransfer <= amount
  {
    hide FixedFeeRun, Ok, TallyAt, CanApply, Apply, MinterRuns.After, CanBind, Takes, Resumed, Admissible;
    var x2;
    run', steps', x2 := RunBurns(run, steps, init, x, a, amount);
    OkAtEnd(run', steps', init, x2);
    FeeAtEnd(run', steps', init);
    ResumeNeverTraps(x2, OWNER);
    x' := Resumed(x2);
    ResumedIs(x2);
    Extended(run', steps', init, RecordCall(OWNER, 0), x');
    run', steps' := run' + [x'], steps' + [RecordCall(OWNER, 0)];
  }

  lemma FirstCalls(x: World, a: Address, amount: Lamport, d: Address)
    requires CanWithdraw(x, a, amount) && d !in x.s.pool && d.Foreign?
    ensures var x1 := Calling(x, OWNER, Call(amount, d, None, x.s.config));
            && Takes(x, StartCall(OWNER, amount, Some(d)), x1)
            && Takes(x1, BurnLands(OWNER, 0), Charged(x1, OWNER, 0))
  {
    assert a in x.s.pool.Keys;
    assert CallOutcome(x.s, x.reserved, OWNER, amount, Some(d)) == Awaiting(d);
  }

  lemma ResumedIs(x: World)
    requires OWNER in x.calls && x.calls[OWNER].burn == Some(0) && x.calls[OWNER].amount >= x.s.config.withdrawalFee
    requires CanApply(x.s, AcceptedWithdrawalRequest(RequestOf(x.s, OWNER, x.calls[OWNER])))
    ensures Takes(x, RecordCall(OWNER, 0), Resumed(x))
    ensures var x' := Resumed(x);
            && x'.s.key == x.s.key && x'.s.createdTxs == x.s.createdTxs && x'.s.pool == x.s.pool && x'.s.config == x.s.config
            && x'.s.balance == x.s.balance && x'.h.withdrawals.Keys == x.h.withdrawals.Keys + {0}
            && 0 in x'.s.pending && x'.s.pending[0].request.amountToTransfer <= x.calls[OWNER].amount
  {}

  ghost function Resumed(x: World): World
    requires OWNER in x.calls && x.calls[OWNER].burn.Some? && x.calls[OWNER].amount >= x.s.config.withdrawalFee
    requires CanApply(x.s, AcceptedWithdrawalRequest(RequestOf(x.s, OWNER, x.calls[OWNER])))
  {
    var e := AcceptedWithdrawalRequest(RequestOf(x.s, OWNER, x.calls[OWNER]));
    x.(s := Released(Apply(x.s, e, 0), OWNER), h := MinterRuns.After(x.s, x.h, e, 0),
       calls := x.calls - {OWNER}, fate := x.fate[x.calls[OWNER].burn.value := Recorded])
  }

  /** A transaction is created for that request alone. */
  lemma RunCreates(run: seq<World>, steps: seq<Step>, init: InitArgs, x: World, a: Address)
    returns (run': seq<World>, steps': seq<Step>, x': World)
    requires Reaches(run, steps, init, x) && x.s.key == Some(KEY) && x.s.createdTxs == map[] && CanBind(x.s.pool, a, 0)
    requires 0 in x.s.pending && x.h.withdrawals.Keys == {0}
    requires x.s.pending[0].request.amountToTransfer + BATCH_WITHDRAWAL_TX_FEE <= x.s.balance
    ensures FixedFeeRun(run', steps', init) && |run'| == |steps'| + 1 && run'[|steps'|] == x'
    ensures TallyAt(steps', |steps'|).created == 1 && |Transferred(x'.h.withdrawals)| == 1
  {
    hide FixedFeeRun, Ok, TallyAt, CanBind, CanApply, Apply, MinterRuns.After, Takes, Transferred, FromSettlement;
    OkAtEnd(run, steps, init, x);
    FeeAtEnd(run, steps, init);
    var e := CreatedWithdrawalTransaction([0], a, 0);
    CreationTakes(x, a, e);
    x' := Recording(x, e, 0);
    assert FromSettlement(x.s, e) by { NoCredit(x.s, e); }
    Extended(run, steps, init, Other(e, 0), x');
    run', steps' := run + [x'], steps + [Other(e, 0)];
  }

  lemma NoCredit(s: MinterState, e: Event)
    requires !e.CreditedSweep?
    ensures FromSettlement(s, e)
  {}

  lemma CreationTakes(x: World, a: Address, e: Event)
    requires Ok(x) && x.s.key == Some(KEY) && x.s.createdTxs == map[] && CanBind(x.s.pool, a, 0)
    requires 0 in x.s.pending && x.h.withdrawals.Keys == {0} && e == CreatedWithdrawalTransaction([0], a, 0)
    requires x.s.pending[0].request.amountToTransfer + BATCH_WITHDRAWAL_TX_FEE <= x.s.balance
    ensures CanApply(x.s, e) && Takes(x, Other(e, 0), Recording(x, e, 0))
    ensures Recording(x, e, 0).s.config == x.s.config && |Transferred(Recording(x, e, 0).h.withdrawals)| == 1
  {
    hide Inv, CanBind, Bound, Transferred, Restaged, Validate, CallsOk, RequestsOk, BurnsOk, Sum, TransferAmounts, Elems;
    NotCreated(x.s, x.h);
    OneCost(x.s.pending);
    ServedOne(x.h.withdrawals, a);
  }

  lemma OneCost(pending: map<BurnIndex, PendingWithdrawal>)
    requires 0 in pending
    ensures CostOf(pending, [0]) == pending[0].request.amountToTransfer + BATCH_WITHDRAWAL_TX_FEE
  {
    SumOne(pending[0].request.amountToTransfer);
    assert TransferAmounts(pending, [0]) == [pending[0].request.amountToTransfer];
  }

  lemma SumOne(v: Lamport)
    ensures Sum([v]) == v
  {
    assert [v] == [] + [v];
    SumAppend([], v);
  }

  lemma NotCreated(s: MinterState, h: History)
    requires Inv(s, h) && 0 in s.pending
    ensures 0 !in s.created
  {
    hide Agrees, Listed, TxsAgree, NoncesAgree, Keyed, UnsentRecorded, SentRecorded;
    assert 0 in s.pending.Keys;
  }

  lemma ServedOne(w: Withdrawals, a: Address)
    requires w.Keys == {0}
    ensures |Transferred(Restaged(w, Elems([0]), IsCreated(a)))| == 1
  {
    var t := Transferred(Restaged(w, Elems([0]), IsCreated(a)));
    assert 0 in Elems([0]);
    assert t.Keys == {0};
    assert |t| == |t.Keys|;
  }

  // ---------- the exact condition on the fee ----------

  /** Under any parameters whose withdrawal fee is below the cost of a transaction, a run with one
      credited and minted deposit and one transaction for one request is not solvent. */
  lemma LowFeeIsInsolvent(init: InitArgs) returns (run: seq<World>, steps: seq<Step>)
    requires CanInit(init) && init.config.withdrawalFee < BATCH_WITHDRAWAL_TX_FEE
    ensures FixedFeeRun(run, steps, init) && |run| == |steps| + 1
    ensures !SolventIn(run[|steps|].s, run[|steps|].h.withdrawals)
  {
    hide FixedFeeRun, CanInit, Quiet, SolventIn, Transferred, TallyAt, CanBind;
    EquippedInit(init);
    var amount, x: World := init.config.minimumWithdrawalAmount, *;
    run, steps, x := Funded(init, amount + BATCH_WITHDRAWAL_TX_FEE);
    var a := QuietCanWithdraw(Equipped(init), x, amount);
    run, steps, x := RunWithdraws(run, steps, init, x, a, amount);
    run, steps, x := RunCreates(run, steps, init, x, a);
    SolventExactlyWhen(run, steps, init, |steps|);
  }

  ghost predicate SolventThroughout(run: seq<World>) {
    forall n | 0 <= n < |run| :: SolventIn(run[n].s, run[n].h.withdrawals)
  }

  /** For any parameters: every run under their withdrawal fee is solvent throughout if and only if
      that fee covers the cost of a transaction. */
  lemma SolventIffFeeCovers(init: InitArgs)
    requires CanInit(init)
    ensures (forall run, steps | FixedFeeRun(run, steps, init) :: SolventThroughout(run)) <==>
            init.config.withdrawalFee >= BATCH_WITHDRAWAL_TX_FEE
  {
    hide FixedFeeRun, CanInit, SolventIn;
    if init.config.withdrawalFee >= BATCH_WITHDRAWAL_TX_FEE {
      forall run: seq<World>, steps | FixedFeeRun(run, steps, init) ensures SolventThroughout(run) {
        forall n | 0 <= n < |run| ensures SolventIn(run[n].s, run[n].h.withdrawals) {
          CoveringFeeIsSolvent(run, steps, init, n);
        }
      }
    } else {
      var run, steps := LowFeeIsInsolvent(init);
      assert !SolventThroughout(run);
    }
  }
}
