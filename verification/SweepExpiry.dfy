/** Outcomes of sweep transactions: a blockhash is accepted for 150 blocks, the monitor reads the
    finalized height first and the statuses second, records what was found as succeeded or failed,
    and drops a sweep that is not found although its blockhash is too old
    (minter/src/monitor/mod.rs). */
module SweepExpiry {
  import opened Prelude
  import opened Solana
  import opened InsertionOrdered
  import opened Sweeps
  import opened ScanSchedule
  import opened DepositBook
  import opened DepositLifecycle
  import opened Minter
  import opened WithdrawalRecords
  import opened MinterRuns

  const MAX_BLOCKHASH_AGE_IN_BLOCKS: nat := 150

  predicate IsBlockhashExpired(transactionHeight: BlockHeight, currentHeight: BlockHeight) {
    SaturatingSub(currentHeight, transactionHeight) > MAX_BLOCKHASH_AGE_IN_BLOCKS
  }

  // ---------- the chain ----------

  /** The block in which a transaction was finalized, and whether it ended without an error. */
  datatype Inclusion = Inclusion(height: BlockHeight, ok: bool)

  /** The finalized height, where each executed transaction was finalized, and the height of the
      block whose blockhash each transaction uses. */
  datatype Chain = Chain(height: BlockHeight, landed: map<Signature, Inclusion>, born: map<Signature, BlockHeight>)

  /** A block may hold a transaction for 150 blocks after the one whose blockhash it uses. */
  predicate MayHold(born: BlockHeight, height: BlockHeight) {
    born < height <= born + 150
  }

  ghost predicate ChainOk(c: Chain) {
    forall sig | sig in c.landed ::
      sig in c.born && MayHold(c.born[sig], c.landed[sig].height) && c.landed[sig].height <= c.height
  }

  /** One more block is finalized, holding some transactions not executed before. */
  ghost predicate Grows(c: Chain, c': Chain) {
    && c'.height == c.height + 1 && c'.born == c.born
    && (forall sig | sig in c.landed :: sig in c'.landed && c'.landed[sig] == c.landed[sig])
    && (forall sig | sig in c'.landed && sig !in c.landed ::
          sig in c.born && c'.landed[sig].height == c'.height && MayHold(c.born[sig], c'.height))
  }

  /** What a status query answered from the finalized view at a height reports as missing. */
  predicate NotFound(c: Chain, sig: Signature, view: BlockHeight) {
    sig !in c.landed || c.landed[sig].height > view
  }

  /** The transaction was not executed and is too old to ever be. */
  ghost predicate Doomed(c: Chain, sig: Signature) {
    sig !in c.landed && sig in c.born && c.born[sig] + MAX_BLOCKHASH_AGE_IN_BLOCKS <= c.height
  }

  /** The lamports were moved: the transaction was executed without an error. */
  ghost predicate Moved(c: Chain, sig: Signature) {
    sig in c.landed && c.landed[sig].ok
  }

  /** The lamports were not moved and never will be. */
  ghost predicate Unmoved(c: Chain, sig: Signature) {
    Doomed(c, sig) || (sig in c.landed && !c.landed[sig].ok)
  }

  /** A later state of the chain: what was executed stays, the rest is in higher blocks. */
  ghost predicate Later(c: Chain, c': Chain) {
    && c.height <= c'.height
    && (forall sig | sig in c.born :: sig in c'.born && c'.born[sig] == c.born[sig])
    && (forall sig | sig in c.landed :: sig in c'.landed && c'.landed[sig] == c.landed[sig])
    && (forall sig | sig in c'.landed && sig !in c.landed :: c'.landed[sig].height > c.height)
  }

  lemma LaterThrough(c0: Chain, c1: Chain, c2: Chain)
    requires Later(c0, c1) && Later(c1, c2)
    ensures Later(c0, c2)
  {}

  /** Nothing about a transaction that has ended changes. */
  lemma OutcomeStays(c: Chain, c': Chain, sig: Signature)
    requires Later(c, c') && ChainOk(c')
    ensures Doomed(c, sig) ==> Doomed(c', sig)
    ensures Moved(c, sig) ==> Moved(c', sig)
    ensures Unmoved(c, sig) ==> Unmoved(c', sig)
  {}

  /** A blockhash has expired at a height exactly when neither the block of that height nor any later
      one may hold its transaction. */
  lemma ExpiredIff(born: BlockHeight, height: BlockHeight)
    ensures IsBlockhashExpired(born, height) <==> forall later: BlockHeight | height <= later :: !MayHold(born, later)
  {
    if !IsBlockhashExpired(born, height) {
      assert MayHold(born, if height <= born then born + 1 else height);
    }
  }

  /** Missing in a view at least as recent as a height its blockhash is too old for. */
  lemma ExpiredIsDoomed(c: Chain, sig: Signature, heightRead: BlockHeight)
    requires ChainOk(c) && sig in c.born && heightRead <= c.height && NotFound(c, sig, heightRead)
    requires IsBlockhashExpired(c.born[sig], heightRead)
    ensures Doomed(c, sig)
  {}

  /** Reading the statuses before the height would not do: a sweep missing at height 100 is
      finalized in block 150, and then found too old at height 151. */
  lemma StatusBeforeHeightIsUnsafe(sig: Signature)
    ensures var c := Chain(151, map[sig := Inclusion(150, true)], map[sig := 0]);
            ChainOk(c) && NotFound(c, sig, 100) && IsBlockhashExpired(0, 151) && !Doomed(c, sig)
  {}

  // ---------- the world ----------

  /** A round of the monitor: the height it read and, once the statuses are in, what was missing
      and what was found. */
  datatype Check = Check(heightRead: BlockHeight, missing: set<Signature>, found: set<Signature>)

  datatype World = World(s: MinterState, h: History, c: Chain, check: Option<Check>)

  ghost predicate IsSweep(s: MinterState, sig: Signature) {
    s.submitted.Has(sig) && s.submitted.values[sig].SweepTx?
  }

  /** Sweeps are recorded with the height of the block whose blockhash they use. */
  ghost predicate HeightsAgree(s: MinterState, c: Chain) {
    forall sig | IsSweep(s, sig) :: sig in c.born && s.submitted.values[sig].blockHeight == c.born[sig]
  }

  ghost predicate CheckAgrees(x: World, k: Check) {
    && k.heightRead <= x.c.height && k.missing !! k.found
    && (forall sig | sig in k.missing || sig in k.found :: IsSweep(x.s, sig))
    && (forall sig | sig in k.missing :: NotFound(x.c, sig, k.heightRead))
    && (forall sig | sig in k.found :: sig in x.c.landed)
  }

  /** What the stage of a deposit says about the sweep that took it. */
  ghost predicate StageTied(stage: Stage, sig: Signature, c: Chain) {
    match stage
    case Queued => true
    case Swept => true
    case Dropped => Unmoved(c, sig)
    case _ => Moved(c, sig)
  }

  ghost predicate OutcomesTied(t: Trace, c: Chain) {
    forall id | id in t.sweptBy && id in t.stage :: StageTied(t.stage[id], t.sweptBy[id], c)
  }

  ghost predicate ExpiryInv(x: World) {
    && Inv(x.s, x.h) && ChainOk(x.c) && HeightsAgree(x.s, x.c)
    && (x.check.Some? ==> CheckAgrees(x, x.check.value))
    && OutcomesTied(x.h.deposits, x.c)
  }

  // ---------- steps ----------

  ghost predicate ChainGrows(x: World, x': World) {
    Grows(x.c, x'.c) && x' == x.(c := x'.c)
  }

  /** The height is read first. */
  ghost predicate ReadsHeight(x: World, x': World, height: BlockHeight) {
    height <= x.c.height && x' == x.(check := Some(Check(height, {}, {})))
  }

  /** The statuses come second, from a view no older than the height read. */
  ghost predicate ReadsStatuses(x: World, x': World, view: BlockHeight, missing: set<Signature>, found: set<Signature>) {
    && x.check.Some? && x.check.value.heightRead <= view <= x.c.height
    && (forall sig | sig in missing :: IsSweep(x.s, sig) && NotFound(x.c, sig, view))
    && (forall sig | sig in found :: IsSweep(x.s, sig) && !NotFound(x.c, sig, view))
    && x' == x.(check := Some(Check(x.check.value.heightRead, missing, found)))
  }

  /** A missing sweep whose blockhash is too old is recorded as expired. */
  ghost predicate Expires(x: World, x': World, sig: Signature, now: Timestamp) {
    && x.check.Some? && sig in x.check.value.missing && IsSweep(x.s, sig)
    && IsBlockhashExpired(x.s.submitted.values[sig].blockHeight, x.check.value.heightRead)
    && CanApply(x.s, ExpiredTransaction(sig))
    && x' == x.(s := Apply(x.s, ExpiredTransaction(sig), now), h := After(x.s, x.h, ExpiredTransaction(sig), now),
                check := Some(x.check.value.(missing := x.check.value.missing - {sig})))
  }

  /** The outcome of a sweep that was found is recorded, as the status gives it. */
  ghost predicate Resolves(x: World, x': World, sig: Signature, success: bool, now: Timestamp) {
    && x.check.Some? && sig in x.check.value.found && sig in x.c.landed && x.c.landed[sig].ok == success
    && var e := if success then SucceededTransaction(sig) else FailedTransaction(sig);
       && CanApply(x.s, e)
       && x' == x.(s := Apply(x.s, e, now), h := After(x.s, x.h, e, now),
                   check := Some(x.check.value.(found := x.check.value.found - {sig})))
  }

  /** Events of this task. */
  ghost predicate OfMonitor(s: MinterState, e: Event) {
    e.ExpiredTransaction? || ((e.SucceededTransaction? || e.FailedTransaction?) && IsSweep(s, e.signature))
  }

  /** A sweep is submitted with a blockhash of the chain. */
  ghost predicate HeightGiven(c: Chain, e: Event) {
    e.SubmittedTransaction? && e.purpose.SweepDeposit? ==>
      e.signature in c.born && c.born[e.signature] == e.purpose.blockHeight
  }

  ghost predicate Elsewhere(x: World, x': World, e: Event, now: Timestamp) {
    && CanApply(x.s, e) && Admissible(x.s, x.h, e) && !OfMonitor(x.s, e) && HeightGiven(x.c, e)
    && x' == x.(s := Apply(x.s, e, now), h := After(x.s, x.h, e, now))
  }

  /** The minter signs a transaction with the blockhash of some block. */
  ghost predicate Signs(x: World, x': World, sig: Signature, height: BlockHeight) {
    sig !in x.c.born && x' == x.(c := x.c.(born := x.c.born[sig := height]))
  }

  ghost predicate Restarts(x: World, x': World) {
    x' == x.(check := None)
  }

  // ---------- no step traps ----------

  lemma ExpiringNeverTraps(x: World, sig: Signature)
    requires ExpiryInv(x) && x.check.Some? && (sig in x.check.value.missing || sig in x.check.value.found)
    ensures CanApply(x.s, ExpiredTransaction(sig)) && CanApply(x.s, SucceededTransaction(sig))
    ensures CanApply(x.s, FailedTransaction(sig))
  {
    hide Inv, CanSucceed, CanFail, CanExpire;
    OutcomeNeverTraps(x.s, x.h, sig);
  }

  // ---------- every step keeps the invariant ----------

  lemma {:induction false} TiedLater(t: Trace, c: Chain, c': Chain)
    requires OutcomesTied(t, c) && Later(c, c') && ChainOk(c')
    ensures OutcomesTied(t, c')
  {
    hide Later, Moved, Unmoved, ChainOk;
    forall id | id in t.sweptBy && id in t.stage ensures StageTied(t.stage[id], t.sweptBy[id], c') {
      OutcomeStays(c, c', t.sweptBy[id]);
    }
  }

  lemma GrowKeeps(x: World, x': World)
    requires ExpiryInv(x) && ChainGrows(x, x')
    ensures ExpiryInv(x') && Later(x.c, x'.c)
  {
    hide Inv, IsSweep, OutcomesTied;
    TiedLater(x.h.deposits, x.c, x'.c);
  }

  // ---------- deposits and the outcome of their sweep ----------

  /** Outside the monitor, no deposit leaves the swept stage. */
  ghost predicate SweptStay(t: Trace, t': Trace) {
    forall id | id in t'.sweptBy && id in t'.stage ::
      || t'.stage[id] == Swept
      || (&& id in t.sweptBy && id in t.stage && t'.sweptBy[id] == t.sweptBy[id]
          && (t'.stage[id] == Finalized || t'.stage[id] == Dropped ==> t.stage[id] == t'.stage[id]))
  }

  lemma EventStages(s: MinterState, h: History, e: Event, now: Timestamp)
    requires Inv(s, h) && CanApply(s, e) && !OfMonitor(s, e)
    ensures SweptStay(h.deposits, After(s, h, e, now).deposits)
  {
    hide Inv, CanUpgrade, CanSubmit, CanFinalize, CanDropSwept, CanExpire, CanCreditSweep, CanCreate, Restaged, Arrival;
    SweptOnes(s, h);
  }

  /** Deposits taken by a sweep are deposits past the queue. */
  lemma SweptOnes(s: MinterState, h: History)
    requires Inv(s, h)
    ensures forall id | id in h.deposits.sweptBy :: id in h.deposits.stage && h.deposits.stage[id] != Queued
    ensures forall id | id in h.deposits.stage :: id < s.book.nextId
  {
    hide Located, Records, InFlightAgree, LatestAgree, AllPlans, Buckets, Listed, TxsAgree, NoncesAgree, Keyed;
  }

  lemma TiedElsewhere(t: Trace, t': Trace, c: Chain)
    requires OutcomesTied(t, c) && SweptStay(t, t') && Follows(t, t')
    ensures OutcomesTied(t', c)
  {
    hide Moved, Unmoved;
    forall id | id in t'.sweptBy && id in t'.stage ensures StageTied(t'.stage[id], t'.sweptBy[id], c) {
      if t'.stage[id] != Swept {
        assert StageTied(t.stage[id], t.sweptBy[id], c);
      }
    }
  }

  /** The deposits of a sweep end as its transaction does. */
  lemma TiedOutcome(s: MinterState, h: History, sig: Signature, stage: Stage, c: Chain)
    requires Inv(s, h) && sig in s.book.swept && OutcomesTied(h.deposits, c) && StageTied(stage, sig, c)
    ensures OutcomesTied(MovedTo(h.deposits, s.book.swept[sig].deposits.Keys, stage), c)
  {
    hide Moved, Unmoved, StageTied, Located, Numbered, InFlightAgree, LatestAgree, AllPlans, Buckets, Listed, TxsAgree, NoncesAgree,
         Keyed;
    assert BatchRecorded(s.book.swept[sig].deposits, sig, h.deposits);
  }

  ghost predicate SweepIn(txs: Txs, sig: Signature) {
    sig in txs && txs[sig].SweepTx?
  }

  /** What an event does to the submitted sweeps: it removes one or none, or adds one. */
  ghost predicate SweepsAfter(txs: Txs, e: Event, txs': Txs) {
    forall sig :: SweepIn(txs', sig) ==>
      || (SweepIn(txs, sig) && txs'[sig] == txs[sig])
      || (e.SubmittedTransaction? && e.purpose.SweepDeposit? && e.signature == sig
          && txs'[sig].blockHeight == e.purpose.blockHeight)
  }

  ghost predicate SweepsLeft(txs: Txs, removed: set<Signature>, txs': Txs) {
    forall sig | SweepIn(txs, sig) && sig !in removed :: SweepIn(txs', sig) && txs'[sig] == txs[sig]
  }

  ghost function RemovedBy(s: MinterState, e: Event): set<Signature> {
    if OfMonitor(s, e) then {e.signature} else {}
  }

  lemma SweepsSame(txs: Txs, e: Event)
    ensures SweepsAfter(txs, e, txs) && SweepsLeft(txs, {}, txs)
  {}

  lemma SweepsAdded(txs: Txs, e: Event, txs': Txs)
    requires e.SubmittedTransaction? && e.signature !in txs && txs'.Keys == txs.Keys + {e.signature}
    requires forall k | k in txs :: txs'[k] == txs[k]
    requires if e.purpose.SweepDeposit? then txs'[e.signature] == SweepTx(e.purpose.blockHeight)
             else txs'[e.signature].WithdrawalTx?
    ensures SweepsAfter(txs, e, txs') && SweepsLeft(txs, {}, txs')
  {}

  lemma SweepsRemoved(txs: Txs, e: Event, sig: Signature, removed: set<Signature>)
    requires sig in txs && removed == (if txs[sig].SweepTx? then {sig} else {})
    ensures SweepsAfter(txs, e, txs - {sig}) && SweepsLeft(txs, removed, txs - {sig})
  {}

  lemma EventSweeps(s: MinterState, h: History, e: Event, now: Timestamp)
    requires Inv(s, h) && CanApply(s, e)
    ensures SweepsAfter(s.submitted.values, e, Apply(s, e, now).submitted.values)
    ensures SweepsLeft(s.submitted.values, RemovedBy(s, e), Apply(s, e, now).submitted.values)
  {
    hide Inv, CanUpgrade, CanSubmit, CanSucceed, CanFail, CanDropSwept, CanSweep, CanFinalize, CanCreditSweep, CanCreate, CanMint,
         Submitted, Succeeded, FailedBy, SweepQueued, Finalize, DropSwept, Credit, QuarantineSweep, Queue, Mint, QuarantineMint,
         Without, SweepsAfter, SweepsLeft;
    SweepsSame(s.submitted.values, e);
    match e
    case SubmittedTransaction(sig, message, signers, purpose) =>
      SubmittedParts(s, sig, message, signers, purpose, now);
      SweepsAdded(s.submitted.values, e, Apply(s, e, now).submitted.values);
    case SucceededTransaction(sig) =>
      SucceededParts(s, sig);
      SweepsRemoved(s.submitted.values, e, sig, RemovedBy(s, e));
    case FailedTransaction(sig) =>
      FailedParts(s, sig);
      SweepsRemoved(s.submitted.values, e, sig, RemovedBy(s, e));
    case ExpiredTransaction(sig) => SweepsRemoved(s.submitted.values, e, sig, RemovedBy(s, e));
    case _ =>
  }

  lemma HeightsKept(s: MinterState, s': MinterState, c: Chain, e: Event)
    requires HeightsAgree(s, c) && SweepsAfter(s.submitted.values, e, s'.submitted.values) && HeightGiven(c, e)
    ensures HeightsAgree(s', c)
  {
    forall sig | IsSweep(s', sig) ensures sig in c.born && s'.submitted.values[sig].blockHeight == c.born[sig] {
      assert SweepIn(s'.submitted.values, sig);
      assert SweepIn(s.submitted.values, sig) ==> IsSweep(s, sig);
    }
  }

  /** The signatures a check still has to deal with stay submitted. */
  lemma CheckKept(x: World, x': World, k: Check, k': Check, removed: set<Signature>)
    requires CheckAgrees(x, k) && SweepsLeft(x.s.submitted.values, removed, x'.s.submitted.values)
    requires x'.c == x.c && k'.heightRead == k.heightRead && k'.missing <= k.missing && k'.found <= k.found
    requires k'.missing !! removed && k'.found !! removed
    ensures CheckAgrees(x', k')
  {
    forall sig | sig in k'.missing || sig in k'.found ensures IsSweep(x'.s, sig) {
      assert IsSweep(x.s, sig) && SweepIn(x.s.submitted.values, sig);
    }
  }

  lemma ElsewhereKeeps(x: World, x': World, e: Event, now: Timestamp)
    requires ExpiryInv(x) && Elsewhere(x, x', e, now)
    ensures ExpiryInv(x')
  {
    hide Inv, CanApply, Apply, After, Admissible, HeightsAgree, CheckAgrees, SweepsAfter, SweepsLeft, HeightGiven, OfMonitor,
         OutcomesTied, SweptStay, Follows, WithdrawalsFollow;
    EventKeeps(x.s, x.h, e, now);
    EventStages(x.s, x.h, e, now);
    TiedElsewhere(x.h.deposits, x'.h.deposits, x.c);
    EventSweeps(x.s, x.h, e, now);
    HeightsKept(x.s, x'.s, x.c, e);
    if x.check.Some? {
      CheckKept(x, x', x.check.value, x'.check.value, {});
    }
  }

  /** A sweep recorded as expired is doomed: it was not executed and never will be. */
  lemma ExpireKeeps(x: World, x': World, sig: Signature, now: Timestamp)
    requires ExpiryInv(x) && Expires(x, x', sig, now)
    ensures ExpiryInv(x') && Doomed(x.c, sig)
  {
    hide Inv, CanApply, Apply, HeightsAgree, SweepsAfter, SweepsLeft, ChainOk, NotFound, Doomed, OutcomesTied, MovedTo, Follows,
         WithdrawalsFollow;
    HeightIs(x.s, x.c, sig);
    SubmittedIs(x.s, x.h, sig);
    ExpiredIsDoomed(x.c, sig, x.check.value.heightRead);
    TiedOutcome(x.s, x.h, sig, Dropped, x.c);
    var e := ExpiredTransaction(sig);
    EventKeeps(x.s, x.h, e, now);
    EventSweeps(x.s, x.h, e, now);
    HeightsKept(x.s, x'.s, x.c, e);
    CheckKept(x, x', x.check.value, x'.check.value, {sig});
  }

  lemma HeightIs(s: MinterState, c: Chain, sig: Signature)
    requires HeightsAgree(s, c) && IsSweep(s, sig)
    ensures sig in c.born && s.submitted.values[sig].blockHeight == c.born[sig]
  {}

  lemma ResolveKeeps(x: World, x': World, sig: Signature, success: bool, now: Timestamp)
    requires ExpiryInv(x) && Resolves(x, x', sig, success, now)
    ensures ExpiryInv(x')
  {
    hide Inv, CanApply, Apply, HeightsAgree, SweepsAfter, SweepsLeft, ChainOk, NotFound, Doomed, OutcomesTied, MovedTo, Follows,
         WithdrawalsFollow, Restaged, SentWith;
    SubmittedIs(x.s, x.h, sig);
    TiedOutcome(x.s, x.h, sig, if success then Finalized else Dropped, x.c);
    var e := if success then SucceededTransaction(sig) else FailedTransaction(sig);
    EventKeeps(x.s, x.h, e, now);
    EventSweeps(x.s, x.h, e, now);
    HeightsKept(x.s, x'.s, x.c, e);
    CheckKept(x, x', x.check.value, x'.check.value, {sig});
  }

  lemma SignKeeps(x: World, x': World, sig: Signature, height: BlockHeight)
    requires ExpiryInv(x) && Signs(x, x', sig, height)
    ensures ExpiryInv(x') && Later(x.c, x'.c)
  {
    hide Inv, IsSweep, OutcomesTied;
    TiedLater(x.h.deposits, x.c, x'.c);
  }

  // ---------- runs ----------

  datatype Step =
    | Block
    | Sign(signature: Signature, height: BlockHeight)
    | ReadHeight(height: BlockHeight)
    | ReadStatuses(view: BlockHeight, missing: set<Signature>, found: set<Signature>)
    | Expire(signature: Signature, now: Timestamp)
    | Resolve(signature: Signature, success: bool, now: Timestamp)
    | Other(event: Event, now: Timestamp)
    | Restart

  ghost predicate Takes(x: World, step: Step, x': World) {
    match step
    case Block => ChainGrows(x, x')
    case Sign(sig, height) => Signs(x, x', sig, height)
    case ReadHeight(height) => ReadsHeight(x, x', height)
    case ReadStatuses(view, missing, found) => ReadsStatuses(x, x', view, missing, found)
    case Expire(sig, now) => Expires(x, x', sig, now)
    case Resolve(sig, success, now) => Resolves(x, x', sig, success, now)
    case Other(e, now) => Elsewhere(x, x', e, now)
    case Restart => Restarts(x, x')
  }

  lemma StepKeeps(x: World, step: Step, x': World)
    requires ExpiryInv(x) && Takes(x, step, x')
    ensures ExpiryInv(x') && Later(x.c, x'.c)
  {
    hide Inv, CanApply, Apply, After, IsSweep, Doomed, HeightsAgree, OutcomesTied, Moved, Unmoved;
    match step
    case Block => GrowKeeps(x, x');
    case Sign(sig, height) => SignKeeps(x, x', sig, height);
    case ReadHeight(_) =>
    case ReadStatuses(_, _, _) =>
    case Expire(sig, now) => ExpireKeeps(x, x', sig, now);
    case Resolve(sig, success, now) => ResolveKeeps(x, x', sig, success, now);
    case Other(e, now) => ElsewhereKeeps(x, x', e, now);
    case Restart =>
  }

  ghost predicate Starts(x: World, a: InitArgs) {
    CanInit(a) && x == World(InitialState(a), EMPTY_HISTORY, Chain(x.c.height, map[], map[]), None)
  }

  lemma StartsKeeps(x: World, a: InitArgs)
    requires Starts(x, a)
    ensures ExpiryInv(x)
  {
    hide Inv;
    InitialInv(a);
  }

  ghost predicate ExpiryRun(run: seq<World>, steps: seq<Step>) {
    && |run| == |steps| + 1 && (exists a :: Starts(run[0], a))
    && forall i | 0 <= i < |steps| :: Takes(run[i], steps[i], run[i + 1])
  }

  lemma {:induction false} RunKeeps(run: seq<World>, steps: seq<Step>, i: nat, j: nat)
    requires ExpiryRun(run, steps) && i <= j < |run|
    ensures ExpiryInv(run[j]) && Later(run[i].c, run[j].c)
    decreases j
  {
    hide ExpiryInv, Takes, Starts, Later;
    LaterItself(run[j].c);
    if j == 0 {
      var a :| Starts(run[0], a);
      StartsKeeps(run[0], a);
    } else {
      RunKeeps(run, steps, if i < j then i else j - 1, j - 1);
      StepKeeps(run[j - 1], steps[j - 1], run[j]);
      if i < j {
        LaterThrough(run[i].c, run[j - 1].c, run[j].c);
      }
    }
  }

  lemma LaterItself(c: Chain)
    ensures Later(c, c)
  {}

  /** In every run, a sweep once recorded as expired is never executed, neither before nor at any
      later time. */
  lemma ExpiredNeverLands(run: seq<World>, steps: seq<Step>, i: nat, j: nat, sig: Signature, now: Timestamp)
    requires ExpiryRun(run, steps) && i <= j < |run| && i < |steps| && steps[i] == Expire(sig, now)
    ensures sig !in run[j].c.landed
  {
    hide ExpiryInv, Later, Expires;
    RunKeeps(run, steps, i, i);
    RunKeeps(run, steps, i, j);
    assert Takes(run[i], steps[i], run[i + 1]);
    ExpireKeeps(run[i], run[i + 1], sig, now);
    ChainIsOk(run[j]);
    OutcomeStays(run[i].c, run[j].c, sig);
  }

  lemma ChainIsOk(x: World)
    requires ExpiryInv(x)
    ensures ChainOk(x.c)
  {}

  /** What a deposit is reported as tells what became of its lamports: reported as dropped, the
      sweep moved nothing; as finalized, minted or quarantined, it did. */
  ghost predicate ReportIsReal(x: World, c: Chain, id: DepositId) {
    match StatusOf(x.s.book, id)
    case StatusDropped(sig) => Unmoved(c, sig)
    case StatusFinalized(sig) => Moved(c, sig)
    case StatusQuarantined(sig) => Moved(c, sig)
    case StatusMinted(_, _) => id in x.s.book.minted && Moved(c, x.s.book.minted[id].deposit.signature)
    case _ => true
  }

  /** In every run, the status a deposit has at some time is true of the chain then and at all
      later times: no dropped deposit was or will be moved by its sweep, and every deposit past the
      sweep was moved. */
  lemma StatusIsReal(run: seq<World>, steps: seq<Step>, i: nat, j: nat, id: DepositId)
    requires ExpiryRun(run, steps) && i <= j < |run|
    ensures ReportIsReal(run[i], run[j].c, id)
  {
    hide ExpiryInv, Later, ExpiryRun, ReportIsReal;
    RunKeeps(run, steps, i, i);
    RunKeeps(run, steps, i, j);
    ChainIsOk(run[j]);
    ReportTied(run[i], run[j].c, id);
  }

  lemma ReportTied(x: World, c: Chain, id: DepositId)
    requires ExpiryInv(x) && Later(x.c, c) && ChainOk(c)
    ensures ReportIsReal(x, c, id)
  {
    hide Agrees, Buckets, Listed, TxsAgree, NoncesAgree, Keyed, HeightsAgree, CheckAgrees, ChainOk, Later, Moved, Unmoved, StatusOf;
    StatusAgrees(x.s.book, x.h.deposits, id);
    MintedBy(x.s.book, x.h.deposits, id);
    var t := x.h.deposits;
    if id < x.s.book.nextId && t.stage[id] != Queued {
      assert StageTied(t.stage[id], t.sweptBy[id], x.c);
      OutcomeStays(x.c, c, t.sweptBy[id]);
    }
  }

  /** A minted deposit names the sweep that took it. */
  lemma MintedBy(b: Book, t: Trace, id: DepositId)
    requires Agrees(b, t)
    ensures id in t.stage && t.stage[id] == Minted ==>
              id in b.minted && id in t.sweptBy && b.minted[id].deposit.signature == t.sweptBy[id]
  {
    hide SweepsRecorded, QueuedRecorded, PendingRecorded, DroppedRecorded, QuarantinedRecorded, InFlightAgree, LatestAgree,
         AllPlans;
  }
}
