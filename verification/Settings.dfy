/** What the validated parameters of the minter guarantee about sweeps, across every sequence
    of initialization and upgrades (minter/src/state/mod.rs, `validate` and `upgrade`). */
module Settings {
  import opened Prelude
  import opened Solana
  import opened Sweeps
  import opened ScanSchedule
  import opened DepositBook
  import opened DepositLifecycle
  import opened Minter
  import opened WithdrawalRecords
  import opened MinterRuns

  /** Queued at or above the minimum, with a fee within the bound, that the parameters set. */
  ghost predicate Admitted(c: Config, d: QueuedDeposit) {
    d.balance >= c.minimumDepositAmount && d.Fee() <= MaxAutomaticDepositFee(c)
  }

  /** What stays true of an admitted deposit under any later parameters. */
  ghost predicate Viable(d: QueuedDeposit) {
    && d.Sweepable() >= MAX_SIGNATURES * FEE_PER_SIGNATURE
    && d.Sweepable() >= RENT_EXEMPTION_THRESHOLD + FEE_PER_SIGNATURE
    && d.Sweepable() >= FEE_PER_SIGNATURE + d.Fee() + 1
  }

  lemma AdmittedViable(c: Config, d: QueuedDeposit)
    requires Validate(c) == None && Admitted(c, d)
    ensures Viable(d)
  {}

  ghost predicate AllViable(m: Batch) {
    forall id | id in m :: Viable(m[id])
  }

  // ---------- planning ----------

  /** At most ten viable deposits can always be planned together. */
  lemma ViablePlans(m: Batch)
    requires m.Keys != {} && |m| <= MAX_SIGNATURES && AllViable(m)
    ensures CanPlan(m)
  {
    assert Viable(m[First(m, m.Keys)]);
  }

  /** Such a plan mints at least one lamport per deposit. */
  lemma ViableMints(m: Batch, minter: Address)
    requires m.Keys != {} && |m| <= MAX_SIGNATURES && AllViable(m) && CanPlan(m)
    ensures var s := PlanOf(m, minter);
            && AllFeesFit(s) && Mints(s).Some? && |Mints(s).value| == |m|
            && forall i | 0 <= i < |Mints(s).value| :: Mints(s).value[i].amountToMint >= 1
  {
    var s := PlanOf(m, minter);
    hide TransfersOf, First, CanPlan, Sum, Amounts, Ascending, FeeShare, Elems;
    FeeShareIsOneSignature(s);
    forall id | id in m ensures FeesFit(s, id) && MintAmount(s, id) >= 1 {
      assert Viable(m[id]);
    }
    AscendingListing(m);
  }

  /** Listed in order, every id of a batch appears once. */
  lemma AscendingListing(m: Batch)
    ensures |Ascending(m.Keys)| == |m|
    ensures forall i | 0 <= i < |Ascending(m.Keys)| :: Ascending(m.Keys)[i] in m
  {
    hide Ascending;
    var ids := Ascending(m.Keys);
    IncreasingDistinct(ids);
    ElemsCard(ids);
    assert |m.Keys| == |m|;
    forall i | 0 <= i < |ids| ensures ids[i] in m {
      assert ids[i] in Elems(ids);
    }
  }

  /** Such a plan delivers at least the rent threshold to the main address. */
  lemma ViableDelivers(m: Batch, minter: Address)
    requires m.Keys != {} && |m| <= MAX_SIGNATURES && AllViable(m) && CanPlan(m)
    ensures PlanOf(m, minter).expectedReceived >= RENT_EXEMPTION_THRESHOLD
  {
    PlanConserves(m, minter);
    hide TransfersOf, First, CanPlan, Sum, Amounts;
    assert forall id | id in SweepableOf(m) :: Viable(m[id]);
    TotalAtLeast(SweepableOf(m), RENT_EXEMPTION_THRESHOLD + FEE_PER_SIGNATURE);
    assert SweepableOf(m).Keys == m.Keys;
  }

  // ---------- every run ----------

  /** The parameters in force are valid, and every deposit ever queued is viable. */
  ghost predicate Sound(s: MinterState, h: History) {
    Validate(s.config) == None && AllViable(h.deposits.origin)
  }

  /** Each deposit is queued at or above the minimum then in force, with a fee within the bound
      then in force. */
  ghost predicate QueuesAdmitted(s: MinterState, e: Event) {
    e.QueuedDepositEvent? ==> Admitted(s.config, e.deposit)
  }

  lemma EventKeepsSound(s: MinterState, h: History, e: Event, now: Timestamp)
    requires Sound(s, h) && CanApply(s, e) && QueuesAdmitted(s, e)
    ensures Sound(Apply(s, e, now), After(s, h, e, now))
  {
    hide Validate, Viable, CanSubmit, CanCreate, CanCreditSweep, CanSucceed, CanFail, CanExpire, CostOf, Submitted, Succeeded,
         FailedBy, Restaged, Reconfigured, Credit, DropSwept, QuarantineSweep;
    match e
    case QueuedDepositEvent(_, d) => AdmittedViable(s.config, d);
    case SubmittedTransaction(sig, message, signers, purpose) => SubmittedParts(s, sig, message, signers, purpose, now);
    case SucceededTransaction(sig) => SucceededParts(s, sig);
    case FailedTransaction(sig) => FailedParts(s, sig);
    case _ =>
  }

  ghost predicate LogAdmitted(log: seq<LoggedEvent>) {
    forall k | 1 <= k < |log| ::
      Replay(log[..k]).Some? ==> QueuesAdmitted(Replay(log[..k]).value, log[k].payload)
  }

  lemma {:induction false} ReachableSound(log: seq<LoggedEvent>, h: History)
    requires Runs(log, h) && LogAdmitted(log)
    ensures Replay(log).Some? && Sound(Replay(log).value, h)
    decreases |log|
  {
    hide Sound, Apply, After, CanApply, Admissible, QueuesAdmitted;
    if |log| == 1 {
      InitialSound(log[0].payload.initArgs);
    } else {
      var n := |log| - 1;
      var h0 :| RunStep(log, h0, h);
      forall k | 1 <= k < n ensures log[..n][..k] == log[..k] {}
      ReachableSound(log[..n], h0);
      EventKeepsSound(Replay(log[..n]).value, h0, log[n].payload, log[n].timestamp);
    }
  }

  lemma InitialSound(a: InitArgs)
    requires CanInit(a)
    ensures Sound(InitialState(a), EMPTY_HISTORY)
  {}

  ghost predicate AllQueued(queued: Batch, m: Batch) {
    forall id | id in m :: id in queued && queued[id] == m[id]
  }

  /** In every state of every run, any one to ten queued deposits can be swept together: the
      plan exists, mints at least one lamport each and keeps the main address rent-exempt. */
  lemma QueuedDepositsCanBeSwept(log: seq<LoggedEvent>, h: History, m: Batch, minter: Address)
    requires Runs(log, h) && LogAdmitted(log) && m.Keys != {} && |m| <= MAX_SIGNATURES
    requires Replay(log).Some? && AllQueued(Replay(log).value.book.queued, m)
    ensures CanPlan(m) && PlanOf(m, minter).expectedReceived >= RENT_EXEMPTION_THRESHOLD
    ensures Mints(PlanOf(m, minter)).Some? && |Mints(PlanOf(m, minter)).value| == |m|
    ensures forall i | 0 <= i < |Mints(PlanOf(m, minter)).value| :: Mints(PlanOf(m, minter)).value[i].amountToMint >= 1
  {
    ReachableInv(log, h);
    ReachableSound(log, h);
    var s := Replay(log).value;
    hide Runs, LogAdmitted, Replay, PlanOf, Mints, CanPlan, Viable, Located, InFlightAgree, LatestAgree, Buckets, Listed,
         TxsAgree, NoncesAgree, Keyed, AllPlans, Numbered;
    QueuedViable(s.book, h.deposits, m);
    ViablePlans(m);
    ViableMints(m, minter);
    ViableDelivers(m, minter);
  }

  lemma QueuedViable(b: Book, t: Trace, m: Batch)
    requires Agrees(b, t) && AllViable(t.origin) && AllQueued(b.queued, m)
    ensures AllViable(m)
  {
    hide Located, InFlightAgree, LatestAgree, AllPlans, Numbered, Viable;
    forall id | id in m ensures Viable(m[id]) {
      assert t.origin[id] == m[id];
    }
  }

  // ---------- which parameters are accepted ----------

  /** The seven constraints, in the order they are checked. */
  ghost predicate Meets(c: Config, k: nat) {
    match k
    case 0 => c.solRpcCanister != Anonymous && c.ledgerCanister != Anonymous
    case 1 => c.solRpcCanister != c.ledgerCanister
    case 2 => c.minimumDepositAmount >= 10 * 5_000 + 890_880
    case 3 => c.minimumDepositAmount >= 2 * 890_880 + 5_000
    case 4 => c.minimumWithdrawalAmount >= c.withdrawalFee + 890_880
    case 5 => c.depositSolRequiredCycles >= 10_000_000_000 + c.depositSolFee
    case 6 => c.automaticDepositFee.Some? ==>
                c.automaticDepositFee.value + 890_880 + 5_000 + 1 <= c.minimumDepositAmount || c.automaticDepositFee.value == 0
    case _ => true
  }

  function ErrorAt(k: nat): InvalidState {
    match k
    case 0 => AnonymousCanisterId
    case 1 => IndistinctCanisterIds
    case 2 => InvalidMinimumDepositAmount
    case 3 => MinimumDepositAmountLeavesMainAddressBelowRent
    case 4 => InvalidMinimumWithdrawalAmount
    case 5 => DepositSolRequiredCyclesTooLow
    case _ => AutomaticDepositFeeTooHigh
  }

  /** The first k constraints are met. */
  ghost predicate MeetsBelow(c: Config, k: nat) {
    k == 0 || (MeetsBelow(c, k - 1) && Meets(c, k - 1))
  }

  /** Parameters are refused with the error of the first constraint they violate, and for no other
      reason. */
  lemma ValidateIs(c: Config)
    ensures Validate(c) == None <==> MeetsBelow(c, 7)
    ensures forall k: nat | k < 7 :: Validate(c) == Some(ErrorAt(k)) <==> MeetsBelow(c, k) && !Meets(c, k)
  {
    Unfolded(c);
    forall k: nat | k < 7 ensures Validate(c) == Some(ErrorAt(k)) <==> MeetsBelow(c, k) && !Meets(c, k) {
      if k == 0 {
      } else if k == 1 {
      } else if k == 2 {
      } else if k == 3 {
      } else if k == 4 {
      } else if k == 5 {
      } else {
        assert k == 6;
      }
    }
  }

  lemma Unfolded(c: Config)
    ensures MeetsBelow(c, 0)
    ensures MeetsBelow(c, 1) <==> Meets(c, 0)
    ensures MeetsBelow(c, 2) <==> MeetsBelow(c, 1) && Meets(c, 1)
    ensures MeetsBelow(c, 3) <==> MeetsBelow(c, 2) && Meets(c, 2)
    ensures MeetsBelow(c, 4) <==> MeetsBelow(c, 3) && Meets(c, 3)
    ensures MeetsBelow(c, 5) <==> MeetsBelow(c, 4) && Meets(c, 4)
    ensures MeetsBelow(c, 6) <==> MeetsBelow(c, 5) && Meets(c, 5)
    ensures MeetsBelow(c, 7) <==> MeetsBelow(c, 6) && Meets(c, 6)
  {}

  // ---------- which parameters are in force ----------

  /** What each event of a log gives for a parameter, and the value given last. */
  ghost predicate LastGiven<T(!new)>(given: seq<Option<T>>, v: T) {
    exists k :: LastAt(given, v, k)
  }

  ghost predicate LastAt<T>(given: seq<Option<T>>, v: T, k: int) {
    0 <= k < |given| && given[k] == Some(v) && forall j | k < j < |given| :: given[j] == None
  }

  /** What an event gives for a parameter: initialization gives all, an upgrade some. */
  ghost function Given<T(!new)>(e: Event, initial: Config -> T, argument: UpgradeArgs -> Option<T>): Option<T> {
    match e
    case Init(a) => Some(initial(a.config))
    case Upgrade(a) => argument(a)
    case _ => None
  }

  ghost function AllGiven<T(!new)>(log: seq<LoggedEvent>, initial: Config -> T, argument: UpgradeArgs -> Option<T>): seq<Option<T>> {
    seq(|log|, i requires 0 <= i < |log| => Given(log[i].payload, initial, argument))
  }

  /** The parameter of every state of a run follows what was given last, if every upgrade takes over
      what it gives and keeps the rest. */
  lemma {:induction false} FollowsLastGiven<T(!new)>(log: seq<LoggedEvent>, initial: Config -> T, argument: UpgradeArgs -> Option<T>)
    requires Replay(log).Some?
    requires forall c, a :: initial(Reconfigured(c, a)) == if argument(a).Some? then argument(a).value else initial(c)
    ensures LastGiven(AllGiven(log, initial, argument), initial(Replay(log).value.config))
  {
    hide CanApply, Apply, CanInit, InitialState, Reconfigured, LastGiven;
    var all := AllGiven(log, initial, argument);
    if |log| == 1 {
      InitGives(log);
      LastIs(all, initial(Replay(log).value.config), 0);
    } else {
      var n := |log| - 1;
      FollowsLastGiven(log[..n], initial, argument);
      assert all == AllGiven(log[..n], initial, argument) + [all[n]];
      ConfigAfter(Replay(log[..n]).value, log[n].payload, log[n].timestamp);
      LastMoves(AllGiven(log[..n], initial, argument), initial(Replay(log[..n]).value.config), all[n]);
    }
  }

  lemma LastIs<T(!new)>(given: seq<Option<T>>, v: T, k: nat)
    requires LastAt(given, v, k)
    ensures LastGiven(given, v)
  {}

  lemma LastMoves<T(!new)>(given: seq<Option<T>>, v: T, next: Option<T>)
    requires LastGiven(given, v)
    ensures LastGiven(given + [next], if next.Some? then next.value else v)
  {
    if next.Some? {
      assert LastAt(given + [next], next.value, |given|);
    } else {
      var k :| LastAt(given, v, k);
      assert LastAt(given + [next], v, k);
    }
  }

  lemma InitGives(log: seq<LoggedEvent>)
    requires |log| == 1 && Replay(log).Some?
    ensures log[0].payload.Init? && Replay(log).value.config == log[0].payload.initArgs.config
  {}

  lemma TransactionKeepsConfig(s: MinterState, e: Event, now: Timestamp)
    requires CanApply(s, e)
    requires e.SubmittedTransaction? || e.SucceededTransaction? || e.FailedTransaction? || e.ExpiredTransaction?
    ensures Apply(s, e, now).config == s.config
  {
    hide CanSubmit, CanSucceed, CanFail, CanExpire, Submitted, Succeeded, FailedBy, DropSwept;
    match e
    case SubmittedTransaction(sig, message, signers, purpose) => SubmittedParts(s, sig, message, signers, purpose, now);
    case SucceededTransaction(sig) => SucceededParts(s, sig);
    case FailedTransaction(sig) => FailedParts(s, sig);
    case ExpiredTransaction(sig) => assert CanExpire(s, sig);
  }

  lemma CreationKeepsConfig(s: MinterState, e: Event, now: Timestamp)
    requires CanApply(s, e) && e.CreatedWithdrawalTransaction?
    ensures Apply(s, e, now).config == s.config
  {
    hide CostOf, PickedRequests;
  }

  lemma CreditKeepsConfig(s: MinterState, e: Event, now: Timestamp)
    requires CanApply(s, e) && e.CreditedSweep?
    ensures Apply(s, e, now).config == s.config
  {
    hide CanCredit, Credit, DepositFees;
  }

  lemma UpgradeConfig(s: MinterState, e: Event, now: Timestamp)
    requires CanApply(s, e) && e.Upgrade?
    ensures Apply(s, e, now).config == Reconfigured(s.config, e.upgradeArgs)
  {
    hide Reconfigured;
  }

  /** The events of deposits, requests and the key. */
  lemma OtherKeepsConfig(s: MinterState, e: Event, now: Timestamp)
    requires CanApply(s, e)
    requires || e.AcceptedWithdrawalRequest? || e.QueuedDepositEvent? || e.QuarantinedSweep? || e.MinterPublicKeyFetched?
             || e.MintedSweptDeposit? || e.QuarantinedPendingMint?
    ensures Apply(s, e, now).config == s.config
  {
    hide CanQueue, Queue, CanMint, Mint, CanQuarantineMint, QuarantineMint, CanQuarantineSweep, QuarantineSweep;
    match e
    case AcceptedWithdrawalRequest(_) =>
    case QueuedDepositEvent(id, d) => assert CanQueue(s.book, id, d);
    case QuarantinedSweep(sig) => assert CanQuarantineSweep(s.book, sig);
    case MinterPublicKeyFetched(_) =>
    case MintedSweptDeposit(id, _) => assert CanMint(s.book, id);
    case QuarantinedPendingMint(id) => assert CanQuarantineMint(s.book, id);
  }

  lemma ConfigAfter(s: MinterState, e: Event, now: Timestamp)
    requires CanApply(s, e)
    ensures !e.Init? && Apply(s, e, now).config == if e.Upgrade? then Reconfigured(s.config, e.upgradeArgs) else s.config
  {
    assert !e.Init?;
    hide CanApply, Apply, Reconfigured;
    match e
    case SubmittedTransaction(_, _, _, _) => TransactionKeepsConfig(s, e, now);
    case SucceededTransaction(_) => TransactionKeepsConfig(s, e, now);
    case FailedTransaction(_) => TransactionKeepsConfig(s, e, now);
    case ExpiredTransaction(_) => TransactionKeepsConfig(s, e, now);
    case CreatedWithdrawalTransaction(_, _, _) => CreationKeepsConfig(s, e, now);
    case CreditedSweep(_, _, _) => CreditKeepsConfig(s, e, now);
    case Upgrade(_) => UpgradeConfig(s, e, now);
    case _ => OtherKeepsConfig(s, e, now);
  }

  /** In every run, each parameter is the one last given for it, at initialization or by an upgrade; the
      ledger is the one given at initialization. */
  lemma ParametersAreLastGiven(log: seq<LoggedEvent>)
    requires Replay(log).Some?
    ensures var c := Replay(log).value.config;
            && LastGiven(AllGiven(log, (c: Config) => c.solRpcCanister, (a: UpgradeArgs) => a.solRpcCanister), c.solRpcCanister)
            && LastGiven(AllGiven(log, (c: Config) => c.withdrawalFee, (a: UpgradeArgs) => a.withdrawalFee), c.withdrawalFee)
            && LastGiven(AllGiven(log, (c: Config) => c.minimumWithdrawalAmount, (a: UpgradeArgs) => a.minimumWithdrawalAmount),
                         c.minimumWithdrawalAmount)
            && LastGiven(AllGiven(log, (c: Config) => c.minimumDepositAmount, (a: UpgradeArgs) => a.minimumDepositAmount),
                         c.minimumDepositAmount)
            && LastGiven(AllGiven(log, (c: Config) => c.depositSolRequiredCycles, (a: UpgradeArgs) => a.depositSolRequiredCycles),
                         c.depositSolRequiredCycles)
            && LastGiven(AllGiven(log, (c: Config) => c.depositSolFee, (a: UpgradeArgs) => a.depositSolFee), c.depositSolFee)
            && LastGiven(AllGiven(log, (c: Config) => c.automaticDepositFee, GivenFee), c.automaticDepositFee)
            && LastGiven(AllGiven(log, (c: Config) => c.ledgerCanister, (a: UpgradeArgs) => None), c.ledgerCanister)
  {
    hide LastGiven, AllGiven, Replay;
    FollowsLastGiven(log, (c: Config) => c.solRpcCanister, (a: UpgradeArgs) => a.solRpcCanister);
    FollowsLastGiven(log, (c: Config) => c.withdrawalFee, (a: UpgradeArgs) => a.withdrawalFee);
    FollowsLastGiven(log, (c: Config) => c.minimumWithdrawalAmount, (a: UpgradeArgs) => a.minimumWithdrawalAmount);
    FollowsLastGiven(log, (c: Config) => c.minimumDepositAmount, (a: UpgradeArgs) => a.minimumDepositAmount);
    FollowsLastGiven(log, (c: Config) => c.depositSolRequiredCycles, (a: UpgradeArgs) => a.depositSolRequiredCycles);
    FollowsLastGiven(log, (c: Config) => c.depositSolFee, (a: UpgradeArgs) => a.depositSolFee);
    FollowsLastGiven(log, (c: Config) => c.automaticDepositFee, GivenFee);
    FollowsLastGiven(log, (c: Config) => c.ledgerCanister, (a: UpgradeArgs) => None);
  }

  /** An upgrade can give an automatic deposit fee, but not take it away. */
  function GivenFee(a: UpgradeArgs): Option<Option<Lamport>> {
    if a.automaticDepositFee.Some? then Some(a.automaticDepositFee) else None
  }
}
