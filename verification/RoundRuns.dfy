/** Whole runs of the timers that sweep queued deposits and credit finalized sweeps, across their
    awaits and interleaved with every other event. The timer guards are part of the state
    (minter/src/deposit/sweep/timer.rs, minter/src/deposit/sweep/finalize/mod.rs,
    minter/src/guard/mod.rs). */
module RoundRuns {
  import opened Prelude
  import opened Solana
  import opened Sweeps
  import opened Settlement
  import opened ScanSchedule
  import opened DepositBook
  import opened Minter
  import opened MinterRuns
  import opened Settings
  import opened TimerRounds
  import opened Replaying
  import DepositCalls

  /** The batches a sweep round has still to record and the sweeps a credit round has still to
      settle, while such a round is running. */
  datatype World = World(s: MinterState, h: History, sweeping: Option<seq<Batch>>, crediting: Option<map<Signature, Sweep>>)

  // ---------- a round taken from the queue ----------

  function BatchesOf(queued: Batch, groups: seq<seq<DepositId>>): seq<Batch>
    requires forall k | 0 <= k < |groups| :: forall id | id in groups[k] :: id in queued
  {
    seq(|groups|, k requires 0 <= k < |groups| => Picked(queued, groups[k]))
  }

  lemma {:induction false} FlattenParts<T>(parts: seq<seq<T>>, k: nat)
    requires k < |parts|
    ensures forall x | x in parts[k] :: x in Flatten(parts)
  {
    if k > 0 {
      FlattenParts(parts[1..], k - 1);
      assert parts[1..][k - 1] == parts[k];
    }
  }

  lemma {:induction false} FlattenApart<T>(parts: seq<seq<T>>, j: nat, k: nat)
    requires Distinct(Flatten(parts)) && j < k < |parts|
    ensures forall x | x in parts[j] :: x !in parts[k]
  {
    var rest := Flatten(parts[1..]);
    DistinctParts(parts[0], rest);
    if j > 0 {
      FlattenApart(parts[1..], j - 1, k - 1);
      assert parts[1..][j - 1] == parts[j] && parts[1..][k - 1] == parts[k];
    } else {
      FlattenParts(parts[1..], k - 1);
      assert parts[1..][k - 1] == parts[k];
    }
  }

  lemma DistinctParts<T>(a: seq<T>, b: seq<T>)
    requires Distinct(a + b)
    ensures Distinct(b) && forall x | x in a :: x !in b
  {
    forall i, j | 0 <= i < j < |b| ensures b[i] != b[j] {
      assert (a + b)[|a| + i] == b[i] && (a + b)[|a| + j] == b[j];
    }
    forall x | x in a ensures x !in b {
      var i :| 0 <= i < |a| && a[i] == x;
      if j :| 0 <= j < |b| && b[j] == x {
        assert (a + b)[i] == (a + b)[|a| + j];
      }
    }
  }

  /** The groups a round takes from the queue are disjoint, queued and of one to ten deposits. */
  lemma TakenIsOpen(queued: Batch, round: Round)
    requires OldestQueued(queued, round)
    ensures forall k | 0 <= k < |round.batches| :: forall id | id in round.batches[k] :: id in queued
    ensures RoundOpen(queued, BatchesOf(queued, round.batches))
  {
    var groups, ids := round.batches, Ascending(queued.Keys);
    hide Ascending, Flatten;
    IncreasingDistinct(ids);
    var taken := Flatten(groups);
    forall k, id | 0 <= k < |groups| && id in groups[k] ensures id in queued {
      FlattenParts(groups, k);
      var i :| 0 <= i < |taken| && taken[i] == id;
      assert ids[i] == id && id in Elems(ids);
    }
    forall k | 0 <= k < |groups| ensures GroupOk(queued, groups[k]) {
      GroupSize(queued, groups[k]);
    }
    forall j, k | 0 <= j < k < |groups| ensures BatchesOf(queued, groups)[j].Keys !! BatchesOf(queued, groups)[k].Keys {
      FlattenApart(groups, j, k);
    }
  }

  ghost predicate GroupOk(queued: Batch, ids: seq<DepositId>)
    requires forall id | id in ids :: id in queued
  {
    var m := Picked(queued, ids);
    m.Keys != {} && |m| <= MAX_DEPOSITS_PER_SWEEP && AllQueued(queued, m)
  }

  lemma GroupSize(queued: Batch, ids: seq<DepositId>)
    requires 0 < |ids| <= MAX_DEPOSITS_PER_SWEEP && forall id | id in ids :: id in queued
    ensures GroupOk(queued, ids)
  {
    var m := Picked(queued, ids);
    assert ids[0] in m.Keys;
    assert m.Keys == Elems(ids);
    ElemsWithin(ids);
    assert |m| == |m.Keys|;
  }

  lemma {:induction false} ElemsWithin<T>(s: seq<T>)
    ensures |Elems(s)| <= |s|
  {
    if s == [] {
      assert Elems(s) == {};
    } else {
      var n := |s| - 1;
      ElemsWithin(s[..n]);
      assert s == s[..n] + [s[n]];
      ElemsAppend(s[..n], s[n]);
      assert |Elems(s[..n]) + {s[n]}| <= |Elems(s[..n])| + 1;
    }
  }

  // ---------- the invariant ----------

  ghost predicate RoundsOpen(x: World) {
    && (x.sweeping.Some? <==> SweepDeposits in x.s.activeTasks)
    && (x.crediting.Some? <==> FinalizeTransactions in x.s.activeTasks)
    && (x.sweeping.Some? ==> RoundOpen(x.s.book.queued, x.sweeping.value))
    && (x.sweeping.Some? && x.sweeping.value != [] ==> x.s.key.Some?)
    && (x.crediting.Some? ==> CreditsOpen(x.s.book.finalized, x.crediting.value))
  }

  ghost predicate Ok(x: World) {
    Inv(x.s, x.h) && Sound(x.s, x.h) && RoundsOpen(x)
  }

  // ---------- steps ----------

  ghost function Busy(s: MinterState, task: TaskType): MinterState {
    s.(activeTasks := s.activeTasks + {task})
  }

  ghost function Done(s: MinterState, task: TaskType): MinterState {
    s.(activeTasks := s.activeTasks - {task})
  }

  /** The sweep timer takes its guard and a round from the queue; without the key it takes nothing. */
  ghost predicate SweepsStart(x: World, x': World, round: Round) {
    && SweepDeposits !in x.s.activeTasks && OldestQueued(x.s.book.queued, round)
    && (forall k | 0 <= k < |round.batches| :: forall id | id in round.batches[k] :: id in x.s.book.queued)
    && x' == x.(s := Busy(x.s, SweepDeposits),
                sweeping := Some(if x.s.key.Some? then BatchesOf(x.s.book.queued, round.batches) else []))
  }

  /** A batch of the round was signed: the sweep is recorded under a signature not used before. */
  ghost predicate SweepRecords(x: World, x': World, k: nat, sig: Signature, blockhash: Hash, signers: seq<Signer>,
                               height: BlockHeight, now: Timestamp) {
    && x.sweeping.Some? && k < |x.sweeping.value| && x.s.key.Some? && CanPlan(x.sweeping.value[k])
    && sig !in x.s.succeededTxs && !x.s.failedTxs.Has(sig) && !x.s.submitted.Has(sig)
    && var e := SweepEvent(x.s.key.value, x.sweeping.value[k], sig, blockhash, signers, height);
       && CanApply(x.s, e)
       && x' == x.(s := Apply(x.s, e, now), h := MinterRuns.After(x.s, x.h, e, now),
                   sweeping := Some(x.sweeping.value[..k] + x.sweeping.value[k + 1..]))
  }

  /** The round ends, with its remaining batches unsigned, and drops its guard. */
  ghost predicate SweepsEnd(x: World, x': World) {
    x.sweeping.Some? && x' == x.(s := Done(x.s, SweepDeposits), sweeping := None)
  }

  ghost predicate FinalizationStarts(x: World, x': World) {
    && FinalizeTransactions !in x.s.activeTasks
    && x' == x.(s := Busy(x.s, FinalizeTransactions), crediting := Some(map[]))
  }

  /** Within its round, the finalization timer takes finalized sweeps to credit. */
  ghost predicate CreditsStart(x: World, x': World, round: map<Signature, Sweep>) {
    && x.crediting.Some? && CreditsOpen(x.s.book.finalized, round) && |round| <= 10
    && x' == x.(crediting := Some(round))
  }

  /** The outcome of a sweep of the round is settled against its plan, and recorded unless it has to
      be fetched again. */
  ghost predicate CreditSettles(x: World, x': World, sig: Signature, fetched: FetchedMessage, meta: Option<Meta>, now: Timestamp)
  {
    && x.crediting.Some? && sig in x.crediting.value && x.crediting.value[sig].deposits.Keys != {}
    && match SettlementEvent(sig, Settle(x.crediting.value[sig], fetched, meta))
       case None => x' == x.(crediting := Some(x.crediting.value - {sig}))
       case Some(e) =>
         && CanApply(x.s, e)
         && x' == x.(s := Apply(x.s, e, now), h := MinterRuns.After(x.s, x.h, e, now),
                     crediting := Some(x.crediting.value - {sig}))
  }

  ghost predicate FinalizationEnds(x: World, x': World) {
    x.crediting.Some? && x' == x.(s := Done(x.s, FinalizeTransactions), crediting := None)
  }

  /** Any event of anybody else. */
  ghost predicate Elsewhere(x: World, x': World, e: Event, now: Timestamp) {
    && CanApply(x.s, e) && Admissible(x.s, x.h, e) && QueuesAdmitted(x.s, e) && !SubmitsSweep(e) && !SettlesSweep(e)
    && x' == x.(s := Apply(x.s, e, now), h := MinterRuns.After(x.s, x.h, e, now))
  }

  /** Request guards, the watchlist and the tasks of other timers change without an event. */
  ghost predicate Touches(x: World, x': World) {
    && x' == x.(s := x'.s) && x'.s == With(x.s, TransientOf(x'.s))
    && (SweepDeposits in x'.s.activeTasks <==> SweepDeposits in x.s.activeTasks)
    && (FinalizeTransactions in x'.s.activeTasks <==> FinalizeTransactions in x.s.activeTasks)
  }

  /** An upgrade rebuilds the state: rounds and guards are gone. */
  ghost predicate Restarts(x: World, x': World) {
    x' == World(Erase(x.s), x.h, None, None)
  }

  datatype Step =
    | StartSweeps(round: Round)
    | RecordSweep(batch: nat, signature: Signature, blockhash: Hash, signers: seq<Signer>, height: BlockHeight, now: Timestamp)
    | EndSweeps
    | StartFinalization
    | StartCredits(credits: map<Signature, Sweep>)
    | SettleCredit(signature: Signature, fetched: FetchedMessage, meta: Option<Meta>, now: Timestamp)
    | EndFinalization
    | Other(event: Event, now: Timestamp)
    | Touch
    | Restart

  ghost predicate Takes(x: World, step: Step, x': World) {
    match step
    case StartSweeps(round) => SweepsStart(x, x', round)
    case RecordSweep(k, sig, blockhash, signers, height, now) => SweepRecords(x, x', k, sig, blockhash, signers, height, now)
    case EndSweeps => SweepsEnd(x, x')
    case StartFinalization => FinalizationStarts(x, x')
    case StartCredits(round) => CreditsStart(x, x', round)
    case SettleCredit(sig, fetched, meta, now) => CreditSettles(x, x', sig, fetched, meta, now)
    case EndFinalization => FinalizationEnds(x, x')
    case Other(e, now) => Elsewhere(x, x', e, now)
    case Touch => Touches(x, x')
    case Restart => Restarts(x, x')
  }

  // ---------- every step keeps the invariant ----------

  lemma TransientOk(s: MinterState, s': MinterState, h: History)
    requires Inv(s, h) && Sound(s, h) && s' == With(s, TransientOf(s'))
    ensures Inv(s', h) && Sound(s', h)
  {
    hide Inv, Validate;
    DepositCalls.TransientInv(s, h, TransientOf(s'));
  }

  lemma TransientSteps(x: World, step: Step, x': World)
    requires Ok(x) && Takes(x, step, x')
    requires step.EndSweeps? || step.StartFinalization? || step.StartCredits? || step.EndFinalization? || step.Touch? || step.Restart?
    ensures Ok(x')
  {
    hide Inv, Sound, RoundOpen, CreditsOpen;
    TransientOk(x.s, x'.s, x.h);
    assert CreditsOpen(x.s.book.finalized, map[]) by { NoCredits(x.s.book.finalized); }
  }

  lemma NoCredits(finalized: map<Signature, Sweep>)
    ensures CreditsOpen(finalized, map[])
  {}

  lemma SweepsStartKeeps(x: World, x': World, round: Round)
    requires Ok(x) && SweepsStart(x, x', round)
    ensures Ok(x')
  {
    hide Inv, Sound, RoundOpen, CreditsOpen, OldestQueued, BatchesOf;
    TransientOk(x.s, x'.s, x.h);
    TakenIsOpen(x.s.book.queued, round);
    assert RoundOpen(x.s.book.queued, []) by { NoBatches(x.s.book.queued); }
  }

  lemma NoBatches(queued: Batch)
    ensures RoundOpen(queued, [])
  {}

  /** What an event does to the guards, the key and the rounds that are not its own. */
  lemma EventRounds(s: MinterState, h: History, e: Event, now: Timestamp)
    requires Inv(s, h) && CanApply(s, e)
    ensures Apply(s, e, now).activeTasks == s.activeTasks && (s.key.Some? ==> Apply(s, e, now).key == s.key)
  {
    hide Inv, CanUpgrade, CanSubmit, CanSucceed, CanFail, CanExpire, CanCreditSweep, CanCreate, CanMint, Submitted, Succeeded,
         FailedBy, Queue, Mint, DropSwept, Credit, QuarantineSweep, QuarantineMint, CostOf, PickedRequests, DepositFees;
    match e
    case SubmittedTransaction(sig, message, signers, purpose) => SubmittedParts(s, sig, message, signers, purpose, now);
    case SucceededTransaction(sig) => SucceededParts(s, sig);
    case FailedTransaction(sig) => FailedParts(s, sig);
    case CreatedWithdrawalTransaction(burns, a, nonce) => CreateTasks(s, burns, a, nonce);
    case CreditedSweep(sig, amount, mints) => CreditTasks(s, sig, amount, mints, now);
    case ExpiredTransaction(sig) => ExpireTasks(s, sig);
    case _ =>
  }

  lemma CreateTasks(s: MinterState, burns: seq<BurnIndex>, a: Address, nonce: Hash)
    requires CanCreate(s, burns, a, nonce)
    ensures Created(s, burns, a, nonce).activeTasks == s.activeTasks && Created(s, burns, a, nonce).key == s.key
  {}

  lemma CreditTasks(s: MinterState, sig: Signature, amount: Lamport, mints: seq<CreditedDeposit>, now: Timestamp)
    requires CanCreditSweep(s, sig, amount, mints)
    ensures SweepCredited(s, sig, amount, mints, now).activeTasks == s.activeTasks
    ensures SweepCredited(s, sig, amount, mints, now).key == s.key
  {
    hide Credit, DepositFees;
  }

  lemma ExpireTasks(s: MinterState, sig: Signature)
    requires CanExpire(s, sig)
    ensures Expired(s, sig).activeTasks == s.activeTasks && Expired(s, sig).key == s.key
  {
    hide DropSwept;
  }

  lemma SweepRecordsKeeps(x: World, x': World, k: nat, sig: Signature, blockhash: Hash, signers: seq<Signer>,
                          height: BlockHeight, now: Timestamp)
    requires Ok(x) && SweepRecords(x, x', k, sig, blockhash, signers, height, now)
    ensures Ok(x')
  {
    hide Inv, Sound, RoundOpen, CreditsOpen, CanApply, Apply, MinterRuns.After, CanPlan, PlanOf, SweepMessage, Ascending;
    var e := SweepEvent(x.s.key.value, x.sweeping.value[k], sig, blockhash, signers, height);
    EventKeeps(x.s, x.h, e, now);
    EventKeepsSound(x.s, x.h, e, now);
    EventRounds(x.s, x.h, e, now);
    RecordSweepKeeps(x.s, x.sweeping.value, k, e, now);
    if x.crediting.Some? {
      FinalizedStays(x.s, x.h, e, now, x.crediting.value);
    }
  }

  lemma CreditSettlesKeeps(x: World, x': World, sig: Signature, fetched: FetchedMessage, meta: Option<Meta>, now: Timestamp)
    requires Ok(x) && CreditSettles(x, x', sig, fetched, meta, now)
    ensures Ok(x')
  {
    hide Inv, Sound, RoundOpen, CanApply, Apply, MinterRuns.After, Settle;
    match SettlementEvent(sig, Settle(x.crediting.value[sig], fetched, meta))
    case None =>
    case Some(e) =>
      hide CreditsOpen;
      EventKeeps(x.s, x.h, e, now);
      EventKeepsSound(x.s, x.h, e, now);
      EventRounds(x.s, x.h, e, now);
      SettlementKeeps(x.s, x.crediting.value, sig, e, now);
      if x.sweeping.Some? {
        QueueStays(x.s, x.h, e, now, x.sweeping.value);
      }
  }

  lemma ElsewhereKeeps(x: World, x': World, e: Event, now: Timestamp)
    requires Ok(x) && Elsewhere(x, x', e, now)
    ensures Ok(x')
  {
    hide Inv, Sound, RoundOpen, CreditsOpen, CanApply, Apply, MinterRuns.After, Admissible, QueuesAdmitted;
    EventKeeps(x.s, x.h, e, now);
    EventKeepsSound(x.s, x.h, e, now);
    EventRounds(x.s, x.h, e, now);
    if x.sweeping.Some? {
      QueueStays(x.s, x.h, e, now, x.sweeping.value);
    }
    if x.crediting.Some? {
      FinalizedStays(x.s, x.h, e, now, x.crediting.value);
    }
  }

  lemma StepKeeps(x: World, step: Step, x': World)
    requires Ok(x) && Takes(x, step, x')
    ensures Ok(x')
  {
    hide Ok, SweepsStart, SweepRecords, SweepsEnd, FinalizationStarts, CreditsStart, CreditSettles, FinalizationEnds, Elsewhere,
         Touches, Restarts;
    match step
    case StartSweeps(round) => SweepsStartKeeps(x, x', round);
    case RecordSweep(k, sig, blockhash, signers, height, now) =>
      SweepRecordsKeeps(x, x', k, sig, blockhash, signers, height, now);
    case SettleCredit(sig, fetched, meta, now) => CreditSettlesKeeps(x, x', sig, fetched, meta, now);
    case Other(e, now) => ElsewhereKeeps(x, x', e, now);
    case _ => TransientSteps(x, step, x');
  }

  // ---------- runs ----------

  ghost predicate Starts(x: World, a: InitArgs) {
    CanInit(a) && x == World(InitialState(a), EMPTY_HISTORY, None, None)
  }

  ghost predicate RoundRun(run: seq<World>, steps: seq<Step>) {
    && |run| == |steps| + 1 && (exists a :: Starts(run[0], a))
    && forall i | 0 <= i < |steps| :: Takes(run[i], steps[i], run[i + 1])
  }

  lemma StartsOk(x: World, a: InitArgs)
    requires Starts(x, a)
    ensures Ok(x)
  {
    hide Inv, Sound;
    InitialInv(a);
    InitialSound(a);
  }

  lemma {:induction false} RunOk(run: seq<World>, steps: seq<Step>, n: nat)
    requires RoundRun(run, steps) && n < |run|
    ensures Ok(run[n])
  {
    hide Ok, Takes, Starts;
    if n == 0 {
      var a :| Starts(run[0], a);
      StartsOk(run[0], a);
    } else {
      RunOk(run, steps, n - 1);
      StepKeeps(run[n - 1], steps[n - 1], run[n]);
    }
  }

  /** In every run, every batch a sweep round still holds can be planned, and recorded under any fresh
      signature. */
  lemma SweepRoundsNeverTrap(run: seq<World>, steps: seq<Step>, n: nat, k: nat, sig: Signature, blockhash: Hash,
                             signers: seq<Signer>, height: BlockHeight)
    requires RoundRun(run, steps) && n < |run| && run[n].sweeping.Some? && k < |run[n].sweeping.value|
    requires var s := run[n].s; sig !in s.succeededTxs && !s.failedTxs.Has(sig) && !s.submitted.Has(sig)
    ensures run[n].s.key.Some? && CanPlan(run[n].sweeping.value[k])
    ensures CanApply(run[n].s, SweepEvent(run[n].s.key.value, run[n].sweeping.value[k], sig, blockhash, signers, height))
  {
    hide RoundRun, Inv, Sound, RoundOpen, CanPlan, CanApply, CreditsOpen;
    RunOk(run, steps, n);
    RecordSweepNeverTraps(run[n].s, run[n].h, run[n].sweeping.value, k, sig, blockhash, signers, height);
  }

  /** In every run, whatever is reported for a sweep a credit round still holds, recording its
      settlement never traps. */
  lemma CreditRoundsNeverTrap(run: seq<World>, steps: seq<Step>, n: nat, sig: Signature, fetched: FetchedMessage, meta: Option<Meta>)
    requires RoundRun(run, steps) && n < |run| && run[n].crediting.Some? && sig in run[n].crediting.value
    ensures run[n].crediting.value[sig].deposits.Keys != {}
    ensures var e := SettlementEvent(sig, Settle(run[n].crediting.value[sig], fetched, meta));
            e.Some? ==> CanApply(run[n].s, e.value)
  {
    hide RoundRun, Inv, Sound, RoundOpen, CanApply, CreditsOpen, Settle;
    RunOk(run, steps, n);
    SettlementNeverTraps(run[n].s, run[n].h, run[n].crediting.value, sig, fetched, meta);
  }

  /** The deposit is a pending mint of the amount the plan gives it, credited now. */
  ghost predicate Credited(b: Book, plan: Sweep, sig: Signature, id: DepositId, now: Timestamp) {
    && id in plan.deposits && id in b.pendingMints
    && var p := b.pendingMints[id];
       && p.deposit == SweptDeposit(plan.deposits[id], sig) && p.createdAtTime == now
       && p.amountToMint + 890_880 + 5_000 + RecordedFee(plan.deposits[id]) == plan.deposits[id].balance
  }

  /** What the settlement of a sweep leads to: a settled one makes every deposit a pending mint of its
      balance less the rent threshold, one signature fee and its recorded fee, and adds what the sweep
      delivered to the balance; a quarantined one quarantines every deposit; one to be fetched again
      stays finalized. */
  lemma SettlementMeans(x: World, x': World, sig: Signature, fetched: FetchedMessage, meta: Option<Meta>, now: Timestamp)
    requires Ok(x) && CreditSettles(x, x', sig, fetched, meta, now)
    ensures var plan := x.crediting.value[sig];
            match Settle(plan, fetched, meta)
            case Settled(_, _) =>
              && sig !in x'.s.book.finalized && x'.s.balance == x.s.balance + plan.expectedReceived
              && forall id | id in plan.deposits :: Credited(x'.s.book, plan, sig, id, now)
            case Quarantine(_) =>
              && sig !in x'.s.book.finalized && x'.s.balance == x.s.balance
              && forall id | id in plan.deposits ::
                   id in x'.s.book.quarantined
                   && x'.s.book.quarantined[id] == QuarantinedDeposit(SweptDeposit(plan.deposits[id], sig), SweepUnreadable)
            case Retry(_) => x'.s == x.s
  {
    hide Inv, Sound, MinterRuns.After, Settle, IsPlan, CanCreditSweep, Credit, DepositFees, Mints, RoundOpen;
    var plan := x.crediting.value[sig];
    FinalizedPlan(x.s, x.h, sig);
    SettledMeans(plan, fetched, meta);
    if Settle(plan, fetched, meta).Settled? {
      CreditGives(x.s, sig, Mints(plan).value, now);
    }
  }

  lemma CreditGives(s: MinterState, sig: Signature, mints: seq<CreditedDeposit>, now: Timestamp)
    requires sig in s.book.finalized && IsPlan(s.book.finalized[sig]) && s.book.finalized[sig].deposits.Keys != {}
    requires Mints(s.book.finalized[sig]) == Some(mints)
    requires CanCreditSweep(s, sig, s.book.finalized[sig].expectedReceived, mints)
    ensures sig !in Credit(s.book, sig, mints, now).finalized
    ensures forall id | id in s.book.finalized[sig].deposits ::
              Credited(Credit(s.book, sig, mints, now), s.book.finalized[sig], sig, id, now)
  {
    hide IsPlan, DepositFees, AmountsToMint, Sum, Mints, MintMap, DistinctMints, MintIs, Credited, Credit, RecordedFees, Total;
    var plan := s.book.finalized[sig];
    MintsAre(plan);
    CreditCovers(s.book, sig, mints);
    forall id | id in plan.deposits ensures Credited(Credit(s.book, sig, mints, now), plan, sig, id, now) {
      assert id in MintMap(mints).Keys;
      var i := MintMapFrom(mints, id);
      MintMapAt(mints, i);
      CreditGivesOne(s.book, sig, mints, id, i, now);
    }
    assert sig !in Credit(s.book, sig, mints, now).finalized by { CreditTakes(s.book, sig, mints, now); }
  }

  lemma CreditTakes(b: Book, sig: Signature, mints: seq<CreditedDeposit>, now: Timestamp)
    requires sig in b.finalized
    ensures sig !in Credit(b, sig, mints, now).finalized
  {
    hide PendingOf, MintMap;
  }

  lemma CreditGivesOne(b: Book, sig: Signature, mints: seq<CreditedDeposit>, id: DepositId, i: nat, now: Timestamp)
    requires sig in b.finalized && id in b.finalized[sig].deposits && i < |mints| && mints[i].depositId == id
    requires id in MintMap(mints) && MintMap(mints)[id] == mints[i].amountToMint && MintIs(b.finalized[sig].deposits, mints[i])
    ensures Credited(Credit(b, sig, mints, now), b.finalized[sig], sig, id, now)
  {
    hide MintMap;
  }

  // ---------- one round at a time ----------

  /** The two timers whose rounds are modelled. */
  predicate Modelled(task: TaskType) {
    task == SweepDeposits || task == FinalizeTransactions
  }

  ghost predicate Opens(step: Step, task: TaskType) {
    if task == SweepDeposits then step.StartSweeps? else step.StartFinalization?
  }

  /** A round is over: it dropped its guard, or an upgrade did. */
  ghost predicate Closes(step: Step, task: TaskType) {
    step.Restart? || if task == SweepDeposits then step.EndSweeps? else step.EndFinalization?
  }

  ghost predicate Running(x: World, task: TaskType) {
    if task == SweepDeposits then x.sweeping.Some? else x.crediting.Some?
  }

  lemma {:induction false} StaysOpen(run: seq<World>, steps: seq<Step>, task: TaskType, i: nat, j: nat)
    requires RoundRun(run, steps) && i < j <= |steps| && Modelled(task) && Opens(steps[i], task)
    requires forall k | i < k < j :: !Closes(steps[k], task)
    ensures Running(run[j], task)
  {
    hide Takes, Starts;
    if j > i + 1 {
      StaysOpen(run, steps, task, i, j - 1);
    }
    assert Takes(run[j - 1], steps[j - 1], run[j]);
    OpenAfter(run[j - 1], steps[j - 1], run[j], task);
  }

  lemma OpenAfter(x: World, step: Step, x': World, task: TaskType)
    requires Takes(x, step, x') && Modelled(task) && !Closes(step, task) && (Running(x, task) || Opens(step, task))
    ensures Running(x', task)
  {
    hide CanApply, Apply, MinterRuns.After, Settle, CanPlan, CreditsOpen, OldestQueued;
  }

  /** In every run, between two rounds of a timer the first one has ended: the timer guard never lets
      two run at a time. */
  lemma OneRoundAtATime(run: seq<World>, steps: seq<Step>, task: TaskType, i: nat, j: nat)
    requires RoundRun(run, steps) && i < j < |steps| && Modelled(task) && Opens(steps[i], task) && Opens(steps[j], task)
    ensures exists k :: i < k < j && Closes(steps[k], task)
  {
    RunOk(run, steps, j);
    hide Inv, Sound, RoundOpen, CreditsOpen;
    assert Takes(run[j], steps[j], run[j + 1]);
    assert !Running(run[j], task);
    if forall k | i < k < j :: !Closes(steps[k], task) {
      StaysOpen(run, steps, task, i, j);
    }
  }

  /** Without the guard a second round traps: what one round has recorded, another one that took the
      same deposits cannot record again, under any signature. */
  lemma SecondRoundTraps(s: MinterState, m: Batch, key: SchnorrPublicKey, e: Event, now: Timestamp, sig: Signature, blockhash: Hash,
                         signers: seq<Signer>, height: BlockHeight)
    requires CanApply(s, e) && SubmitsSweep(e) && m.Keys != {} && CanPlan(m) && e.purpose.depositIds == Ascending(m.Keys)
    ensures !CanApply(Apply(s, e, now), SweepEvent(key, m, sig, blockhash, signers, height))
  {
    hide CanPlan, PlanOf, SweepMessage, Ascending, Picked;
    var ids := Ascending(m.Keys);
    var id :| id in m.Keys;
    assert id in Elems(ids);
    assert id in ids;
    assert id !in Apply(s, e, now).book.queued;
  }
}
