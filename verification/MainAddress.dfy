/** The lamports on the main address against the balance the minter tracks: what withdrawal
    transactions take from the main address on chain never exceeds what the minter has set aside
    for them, so that every one of them is funded when it lands
    (minter/src/state/mod.rs, minter/src/withdraw/mod.rs). */
module MainAddress {
  import opened Prelude
  import opened Solana
  import opened NoncePool
  import opened NonceChain
  import opened ScanSchedule
  import opened DepositLifecycle
  import opened Minter
  import opened WithdrawalRecords
  import opened MinterRuns
  import opened Solvency
  import opened WithdrawalProtocol
  import opened WithdrawalTasks

  // ---------- what a message takes from its fee payer ----------

  function TransferredBy(i: Instruction): Lamport {
    match i
    case AdvanceNonceAccount(_, _) => 0
    case TransferLamports(_, _, amount) => amount
  }

  function InstructionAmounts(instructions: seq<Instruction>): seq<Lamport> {
    seq(|instructions|, i requires 0 <= i < |instructions| => TransferredBy(instructions[i]))
  }

  /** The fee is charged in any case, the transfers only when the message is executed without an
      error. */
  function Charge(m: Message, ok: bool): Lamport {
    TransactionFee(m) + if ok then Sum(InstructionAmounts(m.instructions)) else 0
  }

  /** What the messages included on chain took. */
  ghost function Charges(landed: map<Slot, Execution>): map<Slot, Lamport> {
    map k | k in landed :: Charge(landed[k].message, landed[k].ok)
  }

  /** What a message takes when it succeeds, for every slot ever bound. */
  ghost function Costs(bindings: map<Slot, Message>): map<Slot, Lamport> {
    map k | k in bindings :: Charge(bindings[k], true)
  }

  /** The same for the slots not used up yet. */
  ghost function Outstanding(c: Chain): map<Slot, Lamport> {
    Costs(c.bindings) - c.landed.Keys
  }

  function SecondParts(transfers: seq<(Address, Lamport)>): seq<Lamport> {
    seq(|transfers|, i requires 0 <= i < |transfers| => transfers[i].1)
  }

  lemma WithdrawalCharge(minter: Address, a: Address, v: Hash, transfers: seq<(Address, Lamport)>)
    ensures Charge(WithdrawalMessage(minter, a, v, transfers), true) == Sum(SecondParts(transfers)) + BATCH_WITHDRAWAL_TX_FEE
  {
    var m := WithdrawalMessage(minter, a, v, transfers);
    WithdrawalSigners(minter, a, v, transfers);
    assert |Signers(m)| == 1;
    var amounts := InstructionAmounts(m.instructions);
    assert amounts == [0] + SecondParts(transfers);
    SumConcat([0], SecondParts(transfers));
    assert Sum([0]) == 0 by {
      assert [0] == [] + [0];
      SumAppend([], 0);
    }
  }

  // ---------- the tally of a run ----------

  ghost function TallyStep(t: Tally, step: Step): Tally {
    match step
    case Create(_, _, _) => t.(created := t.created + 1)
    case Other(e, _) => Tallied(t, e)
    case _ => t
  }

  ghost function TallyAt(steps: seq<Step>, n: nat): Tally
    requires n <= |steps|
  {
    if n == 0 then Tally(0, 0) else TallyStep(TallyAt(steps, n - 1), steps[n - 1])
  }

  /** The slots ever bound cost what the minter has taken off its balance for them, and once a
      transaction was created the balance stays above the rent threshold. */
  ghost predicate Funded(x: World, t: Tally) {
    && Accounted(x.s, x.h, t)
    && Total(Costs(x.c.bindings)) == Total(Transferred(x.h.withdrawals)) + BATCH_WITHDRAWAL_TX_FEE * t.created
    && (t.created > 0 ==> x.s.balance >= RENT_EXEMPTION_THRESHOLD)
    && (t.created == 0 ==> x.c.bindings.Keys == {})
  }

  // ---------- steps ----------

  lemma CreateFunded(p: Protocol, p': Protocol, k: nat, v: Hash, now: Timestamp, t: Tally)
    requires Ok(p) && CreatesOne(p, p', k, v, now) && Funded(p.x, t)
    ensures Funded(p'.x, t.(created := t.created + 1))
  {
    hide WorldInv, TasksOk, CanApply, Apply, MinterRuns.After, Accounted, WithdrawalMessage, Costs, Transferred, Total,
         LedgerWith, BoundAt, Admissible, Creates;
    var burns, a := BurnsOf(p.t.reserved[k].requests), p.t.reserved[k].nonceAccount;
    CreatesOneKeeps(p, p', k, v, now);
    InvOf(p.x);
    CreateAccounts(p.x, p'.x, burns, a, v, now, t);
    CreateCosts(p.x, p'.x, burns, a, v, now);
    CreateServes(p.x, p'.x, burns, a, v, now);
  }

  lemma CreateAccounts(x: World, x': World, burns: seq<BurnIndex>, a: Address, v: Hash, now: Timestamp, t: Tally)
    requires Inv(x.s, x.h) && Creates(x, x', burns, a, v, now) && Accounted(x.s, x.h, t)
    ensures Accounted(x'.s, x'.h, t.(created := t.created + 1))
  {
    hide Inv, CanApply, Apply, MinterRuns.After, Accounted, WithdrawalMessage, TransfersFor, LedgerWith, BoundAt, Admissible;
    EventKeepsAccounts(x.s, x.h, t, CreatedWithdrawalTransaction(burns, a, v), now);
  }

  /** A new slot costs the transfers of its requests and one fee. */
  lemma CreateCosts(x: World, x': World, burns: seq<BurnIndex>, a: Address, v: Hash, now: Timestamp)
    requires WorldInv(x) && Creates(x, x', burns, a, v, now)
    ensures forall b | b in burns :: b in x.h.withdrawals
    ensures Total(Costs(x'.c.bindings)) ==
            Total(Costs(x.c.bindings)) + Sum(SecondParts(TransfersFor(x.h.withdrawals, burns))) + BATCH_WITHDRAWAL_TX_FEE
    ensures x'.c.bindings.Keys != {}
  {
    hide Inv, Tied, ChainOk, CanCreate, Apply, MinterRuns.After, WithdrawalMessage, TransfersFor, LedgerWith, Total, Charge, Sum,
         SecondParts;
    CanBindOf(x.s, burns, a, v);
    FreeUnbound(x.s.pool, x.c, a, v);
    var minter, transfers := MinterAddress(x.s.key.value), TransfersFor(x.h.withdrawals, burns);
    var m := WithdrawalMessage(minter, a, v, transfers);
    WithdrawalCharge(minter, a, v, transfers);
    TotalAdd(Costs(x.c.bindings), Slot(a, v), Charge(m, true));
    assert Costs(x'.c.bindings) == Costs(x.c.bindings)[Slot(a, v) := Charge(m, true)];
  }

  lemma CreateServes(x: World, x': World, burns: seq<BurnIndex>, a: Address, v: Hash, now: Timestamp)
    requires WorldInv(x) && Creates(x, x', burns, a, v, now)
    ensures forall b | b in burns :: b in x.h.withdrawals
    ensures Total(Transferred(x'.h.withdrawals)) ==
            Total(Transferred(x.h.withdrawals)) + Sum(SecondParts(TransfersFor(x.h.withdrawals, burns)))
  {
    hide ChainOk, Tied, Agrees, Listed, TxsAgree, NoncesAgree, Keyed, KeysAt, Total, Sum, Transferred, Restaged, Apply, CostOf,
         WithdrawalMessage, LedgerWith, BoundAt;
    CreateTransferred(x.s.pending, x.h.withdrawals, burns, a);
    assert TransferAmounts(x.s.pending, burns) == SecondParts(TransfersFor(x.h.withdrawals, burns));
  }

  /** A step that creates nothing keeps the costs, the transfers served and the balance. */
  lemma EventFunded(x: World, x': World, e: Event, now: Timestamp, t: Tally)
    requires Inv(x.s, x.h) && CanApply(x.s, e) && Admissible(x.s, x.h, e) && !e.CreatedWithdrawalTransaction? && Funded(x, t)
    requires x'.s == Apply(x.s, e, now) && x'.h == MinterRuns.After(x.s, x.h, e, now) && x'.c.bindings == x.c.bindings
    requires x'.s.balance >= x.s.balance
    ensures Funded(x', Tallied(t, e))
  {
    hide Inv, CanApply, Apply, MinterRuns.After, Admissible, Accounted, Transferred, Costs, Total;
    EventKeepsAccounts(x.s, x.h, t, e, now);
    ServedStays(x.s, x.h, e, now);
  }

  lemma RecordFunded(p: Protocol, p': Protocol, a: Address, sig: Signature, now: Timestamp, t: Tally)
    requires Ok(p) && RecordsOne(p, p', a, sig, now) && Funded(p.x, t)
    ensures Funded(p'.x, t)
  {
    hide WorldInv, Reserved, AdvancedOk, CanApply, Apply, MinterRuns.After, Funded, Inv, ChainOk;
    InvOf(p.x);
    RecordEffect(p.x, p'.x, a, sig, now);
    var e := SubmittedTransaction(sig, p.t.unsigned[a].message, [SignedByMinter], Withdrawal(p.t.unsigned[a].burns));
    EventFunded(p.x, p'.x, e, now, t);
  }

  lemma FinalizeFunded(p: Protocol, p': Protocol, sig: Signature, success: bool, now: Timestamp, t: Tally)
    requires Ok(p) && FinalizesOne(p, p', sig, success, now) && Funded(p.x, t)
    ensures Funded(p'.x, t)
  {
    hide WorldInv, Reserved, UnsignedOk, CanApply, Apply, MinterRuns.After, Funded, Inv, ChainOk;
    InvOf(p.x);
    FinalizeEffect(p.x, p'.x, sig, success, now);
    EventFunded(p.x, p'.x, OutcomeEvent(sig, success), now, t);
  }

  lemma OtherFunded(p: Protocol, p': Protocol, e: Event, now: Timestamp, t: Tally)
    requires Ok(p) && OtherEvent(p, p', e, now) && Funded(p.x, t)
    ensures Funded(p'.x, Tallied(t, e))
  {
    hide WorldInv, TasksOk, CanApply, Apply, MinterRuns.After, Funded, Inv, ChainOk, Admissible, Parses, Parsed;
    InvOf(p.x);
    OutsideReserves(p.x.s, p.x.h, e, now);
    EventFunded(p.x, p'.x, e, now, t);
  }

  lemma LandFunded(p: Protocol, p': Protocol, m: Message, next: Hash, ok: bool, t: Tally)
    requires ChainMoves(p, p', m, next, ok) && Funded(p.x, t)
    ensures Funded(p'.x, t)
  {
    hide Accounted, Costs, Transferred, Total;
  }

  lemma SignFunded(p: Protocol, p': Protocol, a: Address, t: Tally)
    requires SignsOne(p, p', a) && Funded(p.x, t)
    ensures Funded(p'.x, t)
  {
    hide Accounted, Costs, Transferred, Total;
  }

  lemma StepFunded(p: Protocol, step: Step, p': Protocol, t: Tally)
    requires Ok(p) && Takes(p, step, p') && Funded(p.x, t)
    ensures Funded(p'.x, TallyStep(t, step))
  {
    hide Ok, Funded, CreatesOne, SignsOne, RecordsOne, FinalizesOne, OtherEvent, ChainMoves, Reserved, BoundMessage,
         Tallied;
    match step
    case Create(k, v, now) => CreateFunded(p, p', k, v, now, t);
    case Sign(a) => SignFunded(p, p', a, t);
    case Record(a, sig, now) => RecordFunded(p, p', a, sig, now, t);
    case FinalizeOne(sig, success, now) => FinalizeFunded(p, p', sig, success, now, t);
    case Other(e, now) => OtherFunded(p, p', e, now, t);
    case Land(m, next, ok) => LandFunded(p, p', m, next, ok, t);
    case _ =>
  }

  lemma StartFunded(p: Protocol, a: InitArgs)
    requires Starts(p, a)
    ensures Funded(p.x, Tally(0, 0))
  {
    var log := [LoggedEvent(Init(a), 0)];
    InitialAccounts(log);
    assert TallyOf(log[..0]) == Tally(0, 0);
    assert Costs(p.x.c.bindings).Keys == {};
  }

  lemma {:induction false} RunFunded(run: seq<Protocol>, steps: seq<Step>, n: nat)
    requires ProtocolRun(run, steps) && n < |run|
    ensures n <= |steps| && Funded(run[n].x, TallyAt(steps, n))
  {
    hide Ok, Takes, Starts, Funded;
    if n == 0 {
      var a :| Starts(run[0], a);
      StartFunded(run[0], a);
    } else {
      RunFunded(run, steps, n - 1);
      RunOk(run, steps, n - 1);
      StepFunded(run[n - 1], steps[n - 1], run[n], TallyAt(steps, n - 1));
    }
  }

  // ---------- what it means for the main address ----------

  lemma {:induction false} TotalWithin<K>(a: map<K, nat>, b: map<K, nat>)
    requires a.Keys == b.Keys && forall k | k in a :: a[k] <= b[k]
    ensures Total(a) <= Total(b)
  {
    var rest := map k | k in a :: b[k] - a[k];
    TotalPointwise(a, rest, b);
  }

  /** What was taken on chain and what may still be taken is within what the slots cost. */
  lemma ChargesWithin(pool: Pool, c: Chain)
    requires NonceChain.ChainOk(pool, c)
    ensures Total(Charges(c.landed)) + Total(Outstanding(c)) <= Total(Costs(c.bindings))
  {
    hide AllInStep, BindingsAgree, SignedAgree, Total, Charge;
    var used := map k | k in Costs(c.bindings) && k in c.landed.Keys :: Costs(c.bindings)[k];
    TotalSplit(Costs(c.bindings), c.landed.Keys);
    assert used.Keys == Charges(c.landed).Keys;
    forall k | k in used ensures Charges(c.landed)[k] <= used[k] {
      ChargeMost(c.bindings[k], c.landed[k].ok);
    }
    TotalWithin(Charges(c.landed), used);
  }

  lemma ChargeMost(m: Message, ok: bool)
    ensures Charge(m, ok) <= Charge(m, true)
  {}

  /** In every run, the tracked balance is at most what sweeps delivered less what withdrawals took
      from the main address on chain, with everything set aside for the transactions still to land
      on top: the tracked balance never exceeds the actual one. */
  lemma TrackedBalanceIsReal(run: seq<Protocol>, steps: seq<Step>, n: nat)
    requires ProtocolRun(run, steps) && n < |run|
    ensures n <= |steps|
    ensures var x := run[n].x;
            x.s.balance + Total(Outstanding(x.c)) + Total(Charges(x.c.landed)) <= TallyAt(steps, n).received
  {
    hide ProtocolRun, TasksOk, Outstanding, Charges, Costs, Total, Transferred, Inv, ChainOk, Tied;
    RunOk(run, steps, n);
    RunFunded(run, steps, n);
    ChargesWithin(run[n].x.s.pool, run[n].x.c);
  }

  lemma RentKept(x: World, t: Tally, k: Slot)
    requires Funded(x, t) && k in x.c.bindings
    ensures x.s.balance >= RENT_EXEMPTION_THRESHOLD
  {
    hide Accounted, Total, Costs, Transferred;
    assert k in x.c.bindings.Keys;
  }

  lemma LandingOutstanding(p: Protocol, m: Message, next: Hash)
    requires Ok(p) && CanLand(p.x.c, m, next)
    ensures AdvancedNonceAccount(m).Some? && SlotOf(m) in p.x.c.bindings
    ensures SlotOf(m) in Outstanding(p.x.c) && Outstanding(p.x.c)[SlotOf(m)] == Charge(m, true)
  {
    hide TasksOk, Inv, Tied, AllInStep, BindingsAgree, Charge;
    LandKeeps(p.x.s.pool, p.x.c, m, next, true);
  }
}
