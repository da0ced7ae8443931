/** The main address as a part of the chain: sweeps that are executed deliver to it, withdrawal
    transactions that land take from it. The tracked balance never exceeds what is there, and every
    withdrawal transaction is funded whenever it lands (minter/src/state/mod.rs,
    minter/src/withdraw/mod.rs, minter/src/deposit/sweep/finalize/mod.rs). */
module FundedLandings {
  import opened Prelude
  import opened Solana
  import opened NoncePool
  import opened NonceChain
  import opened Sweeps
  import opened Settlement
  import opened ScanSchedule
  import opened DepositBook
  import opened DepositLifecycle
  import opened Minter
  import opened WithdrawalRecords
  import opened MinterRuns
  import opened TimerRounds
  import opened Solvency
  import opened WithdrawalProtocol
  import opened WithdrawalTasks
  import opened MainAddress
  import FeeSolvency

  /** The protocol, the lamports on the main address, the sweeps that were executed and the ones
      that were credited. */
  datatype Vault = Vault(p: Protocol, main: Lamport, delivered: map<Signature, Sweep>, credited: set<Signature>)

  ghost function Receipts(sweeps: map<Signature, Sweep>): map<Signature, Lamport> {
    map sig | sig in sweeps :: sweeps[sig].expectedReceived
  }

  ghost function Picks(sweeps: map<Signature, Sweep>, sigs: set<Signature>): map<Signature, Sweep> {
    map sig | sig in sweeps && sig in sigs :: sweeps[sig]
  }

  // ---------- steps ----------

  /** A sweep is executed: its message runs on balances in which the main address holds what it
      holds, at whatever fee is charged. */
  ghost predicate SweepExecutes(v: Vault, v': Vault, sig: Signature, plan: Sweep, blockhash: Hash, pre: Balances, fee: Lamport) {
    && sig !in v.delivered && Shaped(plan) && DistinctSources(plan)
    && v.p.x.s.key.Some? && plan.minterAddress == MinterAddress(v.p.x.s.key.value) && Bal(pre, plan.minterAddress) == v.main
    && Execute(pre, SweepMessage(plan, blockhash), fee).Some?
    && v' == v.(main := Bal(Execute(pre, SweepMessage(plan, blockhash), fee).value, plan.minterAddress),
                delivered := v.delivered[sig := plan])
  }

  /** A credit settles a sweep that was executed as planned. */
  ghost predicate Delivered(v: Vault, e: Event) {
    && e.CreditedSweep? && FeeSolvency.FromSettlement(v.p.x.s, e)
    && e.signature in v.delivered && e.signature in v.p.x.s.book.finalized
    && v.delivered[e.signature] == v.p.x.s.book.finalized[e.signature]
  }

  /** What a step of the protocol means for the main address: a message that lands is charged to it. */
  ghost predicate MinterMoves(v: Vault, v': Vault, step: Step) {
    && Takes(v.p, step, v'.p) && v'.delivered == v.delivered
    && (if step.Land? then v'.main + Charge(step.message, step.ok) == v.main else v'.main == v.main)
    && (if step.Other? && step.event.CreditedSweep?
        then Delivered(v, step.event) && v'.credited == v.credited + {step.event.signature}
        else v'.credited == v.credited)
  }

  datatype Move =
    | Minter(step: Step)
    | ExecuteSweep(signature: Signature, plan: Sweep, blockhash: Hash, pre: Balances, fee: Lamport)
    | Gift(amount: Lamport)

  ghost predicate Moves(v: Vault, move: Move, v': Vault) {
    match move
    case Minter(step) => MinterMoves(v, v', step)
    case ExecuteSweep(sig, plan, blockhash, pre, fee) => SweepExecutes(v, v', sig, plan, blockhash, pre, fee)
    case Gift(amount) => v' == v.(main := v.main + amount)
  }

  // ---------- the sweeps of the minter can be executed so ----------

  /** Every sweep the minter has recorded has the shape of a plan and distinct sources. */
  lemma SweptIsExecutable(s: MinterState, h: History, sig: Signature)
    requires Inv(s, h) && sig in s.book.swept
    ensures Shaped(s.book.swept[sig]) && DistinctSources(s.book.swept[sig])
    ensures s.key.Some? && s.book.swept[sig].minterAddress == MinterAddress(s.key.value)
  {
    hide Buckets, Listed, TxsAgree, NoncesAgree, IsPlan, Shaped, DistinctSources;
    var plan := s.book.swept[sig];
    SweptAddresses(s, h, sig);
    SourcesDistinct(plan, s.key.value);
    PlanShaped(plan);
  }

  lemma SweptAddresses(s: MinterState, h: History, sig: Signature)
    requires Inv(s, h) && sig in s.book.swept
    ensures s.key.Some? && OwnAddresses(s.book.swept[sig].deposits, s.key.value) && IsPlan(s.book.swept[sig])
    ensures s.book.swept[sig].minterAddress == MinterAddress(s.key.value)
  {
    hide Buckets, Listed, TxsAgree, NoncesAgree, Numbered, LatestAgree, IsPlan;
    PlanAt(s.book.swept, sig);
    SweptAt(s.book, h.deposits, sig);
    hide Records, Located;
    var m, t, f := s.book.swept[sig].deposits, h.deposits, s.book.inFlightIds;
    forall id | id in m ensures HoldsActive(t, id, m[id].account) && m[id].address == t.origin[id].address {
      assert id in m.Keys;
    }
    forall id, id' | id in m && id' in m && m[id].account == m[id'].account ensures id == id' {
      var a := m[id].account;
      assert a in f && f[a] == id <==> HoldsActive(t, id, a);
      assert a in f && f[a] == id' <==> HoldsActive(t, id', a);
    }
  }

  // ---------- the invariant ----------

  /** No credited sweep will be credited again: its signature has succeeded and is not finalized. */
  ghost predicate CreditedOnce(s: MinterState, credited: set<Signature>) {
    credited <= s.succeededTxs && credited !! s.book.finalized.Keys
  }

  ghost predicate Held(v: Vault, t: Tally) {
    && Ok(v.p) && Funded(v.p.x, t)
    && v.main + Total(Charges(v.p.x.c.landed)) >= Total(Receipts(v.delivered))
    && v.credited <= v.delivered.Keys && t.received == Total(Receipts(Picks(v.delivered, v.credited)))
    && CreditedOnce(v.p.x.s, v.credited)
  }

  // ---------- signatures only move forward ----------

  /** Succeeded signatures stay, and only a signature that has just succeeded becomes finalized. */
  ghost predicate Onward(s: MinterState, s': MinterState) {
    && s.succeededTxs <= s'.succeededTxs
    && forall sig | sig in s'.book.finalized :: sig in s.book.finalized || sig !in s.succeededTxs
  }

  lemma OnwardKeeps(s: MinterState, s': MinterState, credited: set<Signature>)
    requires Onward(s, s') && CreditedOnce(s, credited)
    ensures CreditedOnce(s', credited)
  {}

  lemma EventOnward(s: MinterState, e: Event, now: Timestamp)
    requires CanApply(s, e)
    ensures Onward(s, Apply(s, e, now))
    ensures e.CreditedSweep? ==> e.signature !in Apply(s, e, now).book.finalized && e.signature in s.book.finalized
  {
    hide CanUpgrade, CanSubmit, CanSucceed, CanFail, CanExpire, CanCreate, CanMint, CanCreditSweep, Submitted, Succeeded, FailedBy,
         Expired, SweepCredited, Created, Queue, Mint, QuarantineMint, Onward, QuarantineSweep;
    SameOnward(s);
    match e
    case SubmittedTransaction(sig, message, signers, purpose) => SubmitOnward(s, sig, message, signers, purpose, now);
    case SucceededTransaction(sig) => SucceedOnward(s, sig);
    case FailedTransaction(sig) => FailOnward(s, sig);
    case CreditedSweep(sig, amount, mints) => CreditOnward(s, sig, amount, mints, now);
    case _ => RestOnward(s, e, now);
  }

  lemma SucceedOnward(s: MinterState, sig: Signature)
    requires CanSucceed(s, sig)
    ensures Onward(s, Succeeded(s, sig))
  {
    hide CanFinalize, CanFree, SentBy;
  }

  lemma FailOnward(s: MinterState, sig: Signature)
    requires CanFail(s, sig)
    ensures Onward(s, FailedBy(s, sig))
  {
    hide CanDropSwept, CanFree, SentBy, DroppedOf, AccountsOf;
  }

  lemma CreditOnward(s: MinterState, sig: Signature, amount: Lamport, mints: seq<CreditedDeposit>, now: Timestamp)
    requires CanCreditSweep(s, sig, amount, mints)
    ensures sig in s.book.finalized && Onward(s, SweepCredited(s, sig, amount, mints, now))
    ensures sig !in SweepCredited(s, sig, amount, mints, now).book.finalized
  {
    hide DepositFees, PendingOf, MintMap, AmountsToMint, Sum, DistinctMints;
  }

  lemma RestOnward(s: MinterState, e: Event, now: Timestamp)
    requires CanApply(s, e) && !e.SubmittedTransaction? && !e.SucceededTransaction? && !e.FailedTransaction? && !e.CreditedSweep?
    ensures Onward(s, Apply(s, e, now))
  {
    hide CanUpgrade, CanDropSwept, CanCreate, CostOf, PickedRequests, UnreadableOf, DroppedOf, AccountsOf;
    if e.CreatedWithdrawalTransaction? {
      assert CanCreate(s, e.burnIndices, e.nonceAccount, e.nonceValue);
    }
  }

  lemma SubmitOnward(s: MinterState, sig: Signature, message: Message, signers: seq<Signer>, purpose: Purpose, now: Timestamp)
    requires CanSubmit(s, sig, message, signers, purpose)
    ensures Onward(s, Submitted(s, sig, message, signers, purpose, now))
  {
    hide CanSend, CanSweep, PlanOf, Picked, SentOf;
  }

  lemma StepOnward(p: Protocol, step: Step, p': Protocol)
    requires Takes(p, step, p')
    ensures Onward(p.x.s, p'.x.s)
    ensures step.Other? && step.event.CreditedSweep? ==> step.event.signature !in p'.x.s.book.finalized
    ensures step.Other? ==> CanApply(p.x.s, step.event)
  {
    hide CanApply, Apply, MinterRuns.After, Admissible, BoundMessage, WithdrawalMessage, LedgerWith, BoundAt, Onward, Reserved,
         TransfersFor, Ok;
    match step
    case Create(k, v, now) =>
      EventOnward(p.x.s, CreatedWithdrawalTransaction(BurnsOf(p.t.reserved[k].requests), p.t.reserved[k].nonceAccount, v), now);
    case Record(a, sig, now) =>
      EventOnward(p.x.s, SubmittedTransaction(sig, p.t.unsigned[a].message, [SignedByMinter], Withdrawal(p.t.unsigned[a].burns)), now);
    case FinalizeOne(sig, success, now) => EventOnward(p.x.s, OutcomeEvent(sig, success), now);
    case Other(e, now) => EventOnward(p.x.s, e, now);
    case _ => SameOnward(p.x.s);
  }

  lemma SameOnward(s: MinterState)
    ensures Onward(s, s)
  {}

  // ---------- every move keeps the invariant ----------

  ghost function TallyMove(t: Tally, move: Move): Tally {
    if move.Minter? then TallyStep(t, move.step) else t
  }

  lemma LandingCharges(p: Protocol, p': Protocol, m: Message, next: Hash, ok: bool)
    requires Ok(p) && ChainMoves(p, p', m, next, ok)
    ensures Total(Charges(p'.x.c.landed)) == Total(Charges(p.x.c.landed)) + Charge(m, ok)
  {
    hide Ok, Charge, Total, CanLand, Charges, Costs;
    LandingOutstanding(p, m, next);
    ChargedOnce(p.x.c.landed, SlotOf(m), m, ok);
  }

  lemma ChargedOnce(landed: map<Slot, Execution>, k: Slot, m: Message, ok: bool)
    requires k !in landed
    ensures Total(Charges(landed[k := Execution(m, ok)])) == Total(Charges(landed)) + Charge(m, ok)
  {
    hide Charge, Total;
    TotalAdd(Charges(landed), k, Charge(m, ok));
    assert Charges(landed[k := Execution(m, ok)]) == Charges(landed)[k := Charge(m, ok)];
  }

  /** Only a landing charges the main address. */
  lemma OthersCharge(p: Protocol, step: Step, p': Protocol)
    requires Takes(p, step, p') && !step.Land?
    ensures p'.x.c.landed == p.x.c.landed
  {
    hide CanApply, Apply, MinterRuns.After, Admissible, BoundMessage, WithdrawalMessage, LedgerWith, Reserved, TransfersFor;
  }

  lemma CreditReceives(v: Vault, h: History, e: Event)
    requires Inv(v.p.x.s, h) && Delivered(v, e) && e.signature !in v.credited && v.credited <= v.delivered.Keys
    ensures Total(Receipts(Picks(v.delivered, v.credited + {e.signature}))) ==
            Total(Receipts(Picks(v.delivered, v.credited))) + e.amountReceived
  {
    hide Inv, Settle, Total;
    var plan, sig := v.delivered[e.signature], e.signature;
    assert e.amountReceived == plan.expectedReceived by {
      var fetched, meta :| SettlementEvent(sig, Settle(plan, fetched, meta)) == Some(e);
      FinalizedPlan(v.p.x.s, h, sig);
      SettledMeans(plan, fetched, meta);
    }
    TotalAdd(Receipts(Picks(v.delivered, v.credited)), sig, plan.expectedReceived);
    assert Receipts(Picks(v.delivered, v.credited + {sig})) ==
           Receipts(Picks(v.delivered, v.credited))[sig := plan.expectedReceived];
  }

  lemma MinterKeeps(v: Vault, v': Vault, step: Step, t: Tally)
    requires Held(v, t) && MinterMoves(v, v', step)
    ensures Held(v', TallyStep(t, step))
  {
    hide Ok, Funded, Takes, Total, Charges, Receipts, Picks, Delivered, CreditedOnce, Charge, Tallied, Onward;
    StepKeeps(v.p, step, v'.p);
    StepFunded(v.p, step, v'.p, t);
    StepOnward(v.p, step, v'.p);
    OnwardKeeps(v.p.x.s, v'.p.x.s, v.credited);
    LandedCharges(v.p, step, v'.p);
    if step.Other? && step.event.CreditedSweep? {
      CreditKeeps(v, v', step.event, step.now, t);
    } else {
      SameReceived(t, step);
    }
  }

  lemma LandedCharges(p: Protocol, step: Step, p': Protocol)
    requires Ok(p) && Takes(p, step, p')
    ensures Total(Charges(p'.x.c.landed)) == Total(Charges(p.x.c.landed)) + if step.Land? then Charge(step.message, step.ok) else 0
  {
    hide Ok, Total, Charges, Charge;
    if step.Land? {
      hide Lands;
      LandingCharges(p, p', step.message, step.next, step.ok);
    } else {
      hide Takes;
      OthersCharge(p, step, p');
    }
  }

  lemma SameReceived(t: Tally, step: Step)
    requires !(step.Other? && step.event.CreditedSweep?)
    ensures TallyStep(t, step).received == t.received
  {}

  lemma CreditKeeps(v: Vault, v': Vault, e: Event, now: Timestamp, t: Tally)
    requires Held(v, t) && MinterMoves(v, v', Other(e, now)) && e.CreditedSweep? && CreditedOnce(v'.p.x.s, v.credited)
    ensures v'.credited <= v'.delivered.Keys && CreditedOnce(v'.p.x.s, v'.credited)
    ensures Tallied(t, e).received == Total(Receipts(Picks(v'.delivered, v'.credited)))
  {
    hide Funded, Takes, Total, Charges, Receipts, Picks, Inv, TasksOk, Tied, NonceChain.ChainOk, FeeSolvency.FromSettlement, Onward;
    StepOnward(v.p, Other(e, now), v'.p);
    CreditReceives(v, v.p.x.h, e);
    FinalizedSucceeded(v.p.x.s, v.p.x.h, e.signature);
    OnwardStays(v.p.x.s, v'.p.x.s, e.signature);
  }

  lemma OnwardStays(s: MinterState, s': MinterState, sig: Signature)
    requires Onward(s, s') && sig in s.succeededTxs
    ensures sig in s'.succeededTxs
  {}

  lemma FinalizedSucceeded(s: MinterState, h: History, sig: Signature)
    requires Inv(s, h) && sig in s.book.finalized
    ensures sig in s.succeededTxs
  {
    hide Agrees, Buckets, Listed, NoncesAgree, Keyed, Witnessed, Apart;
    assert sig in s.book.finalized.Keys;
  }

  lemma SweepKeeps(v: Vault, v': Vault, sig: Signature, plan: Sweep, blockhash: Hash, pre: Balances, fee: Lamport, t: Tally)
    requires Held(v, t) && SweepExecutes(v, v', sig, plan, blockhash, pre, fee)
    ensures Held(v', t)
  {
    hide Ok, Funded, Total, Charges, CreditedOnce, Execute, Shaped, DistinctSources, SweepMessage;
    ExecutionEffect(plan, blockhash, fee, pre);
    TotalAdd(Receipts(v.delivered), sig, plan.expectedReceived);
    assert Receipts(v'.delivered) == Receipts(v.delivered)[sig := plan.expectedReceived];
    assert Picks(v'.delivered, v.credited) == Picks(v.delivered, v.credited);
  }

  lemma MoveKeeps(v: Vault, move: Move, v': Vault, t: Tally)
    requires Held(v, t) && Moves(v, move, v')
    ensures Held(v', TallyMove(t, move))
  {
    hide MinterMoves, SweepExecutes;
    match move
    case Minter(step) =>
      hide Held;
      MinterKeeps(v, v', step, t);
    case ExecuteSweep(sig, plan, blockhash, pre, fee) =>
      hide Held;
      SweepKeeps(v, v', sig, plan, blockhash, pre, fee, t);
    case Gift(_) => hide Ok, Funded, Total, Charges, Receipts, Picks, CreditedOnce;
  }

  // ---------- runs ----------

  /** The main address may hold anything at the start. */
  ghost predicate VaultStarts(v: Vault, a: InitArgs) {
    Starts(v.p, a) && v.delivered == map[] && v.credited == {}
  }

  ghost predicate VaultRun(run: seq<Vault>, moves: seq<Move>) {
    && |run| == |moves| + 1 && (exists a :: VaultStarts(run[0], a))
    && forall i | 0 <= i < |moves| :: Moves(run[i], moves[i], run[i + 1])
  }

  ghost function TallyAfter(moves: seq<Move>, n: nat): Tally
    requires n <= |moves|
  {
    if n == 0 then Tally(0, 0) else TallyMove(TallyAfter(moves, n - 1), moves[n - 1])
  }

  lemma StartHeld(v: Vault, a: InitArgs)
    requires VaultStarts(v, a)
    ensures Held(v, Tally(0, 0))
  {
    hide Ok, Funded, Charges, Starts;
    StartFunded(v.p, a);
    StartsOk(v.p, a);
    assert Receipts(v.delivered).Keys == {};
    assert Receipts(Picks(v.delivered, v.credited)).Keys == {};
  }

  lemma {:induction false} RunHeld(run: seq<Vault>, moves: seq<Move>, n: nat)
    requires VaultRun(run, moves) && n < |run|
    ensures n <= |moves| && Held(run[n], TallyAfter(moves, n))
  {
    hide Held, Moves, VaultStarts, TallyMove;
    if n == 0 {
      var a :| VaultStarts(run[0], a);
      StartHeld(run[0], a);
    } else {
      RunHeld(run, moves, n - 1);
      MoveKeeps(run[n - 1], moves[n - 1], run[n], TallyAfter(moves, n - 1));
    }
  }

  /** What was credited is within what was delivered. */
  lemma ReceivedWithin(v: Vault)
    ensures Total(Receipts(Picks(v.delivered, v.credited))) <= Total(Receipts(v.delivered))
  {
    hide Total;
    var all := Receipts(v.delivered);
    TotalSplit(all, v.credited);
    assert Receipts(Picks(v.delivered, v.credited)) == map sig | sig in all && sig in v.credited :: all[sig];
  }

  lemma HeldCovers(v: Vault, t: Tally)
    requires Held(v, t)
    ensures v.p.x.s.balance + Total(Outstanding(v.p.x.c)) <= v.main
  {
    hide TasksOk, Outstanding, Charges, Costs, Total, Transferred, Inv, NonceChain.ChainOk, Tied, Receipts, Picks, CreditedOnce;
    ReceivedWithin(v);
    ChargesWithin(v.p.x.s.pool, v.p.x.c);
  }

  /** In every run, the tracked balance and everything the signed and unsigned messages still to land
      may take are on the main address. */
  lemma MainAddressCovers(run: seq<Vault>, moves: seq<Move>, n: nat)
    requires VaultRun(run, moves) && n < |run|
    ensures run[n].p.x.s.balance + Total(Outstanding(run[n].p.x.c)) <= run[n].main
  {
    hide VaultRun, Held, Total, Outstanding;
    RunHeld(run, moves, n);
    HeldCovers(run[n], TallyAfter(moves, n));
  }

  /** In every run, a withdrawal transaction that lands finds the lamports for all its transfers and
      its fee on the main address, and leaves the rent threshold there. */
  lemma LandingIsFunded(run: seq<Vault>, moves: seq<Move>, n: nat, m: Message, next: Hash)
    requires VaultRun(run, moves) && n < |run| && CanLand(run[n].p.x.c, m, next)
    ensures run[n].main >= Charge(m, true) + RENT_EXEMPTION_THRESHOLD
  {
    hide VaultRun, Charges, Charge, Total, Ok, Funded, CanLand, CreditedOnce, Receipts, Picks;
    RunHeld(run, moves, n);
    var v := run[n];
    HeldCovers(v, TallyAfter(moves, n));
    LandingOutstanding(v.p, m, next);
    TotalRemove(Outstanding(v.p.x.c), SlotOf(m));
    RentKept(v.p.x, TallyAfter(moves, n), SlotOf(m));
  }
}
