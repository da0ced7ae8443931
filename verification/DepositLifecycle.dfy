/** The life of a deposit: every deposit ever queued is in exactly one stage, stages only move
    forward, and the indexes by account and by time agree with the stages. The trace keeps,
    for every id, the stage it is in, the deposit as it was queued, and the sweep that took it. */
module DepositLifecycle {
  import opened Prelude
  import opened Solana
  import opened Sweeps
  import opened ScanSchedule
  import opened DepositBook

  datatype Stage = Queued | Swept | Finalized | Pending | Minted | Dropped | Quarantined

  datatype Trace = Trace(stage: map<DepositId, Stage>, origin: Batch, sweptBy: map<DepositId, Signature>)

  const EMPTY_TRACE: Trace := Trace(map[], map[], map[])

  /** The stages in which a deposit still reserves its account. */
  const ACTIVE: set<Stage> := {Queued, Swept, Finalized, Pending, Quarantined}

  /** The stages in which a deposit is still being processed. */
  const UNFINISHED: set<Stage> := {Queued, Swept, Finalized, Pending}

  /** The stages that may follow one another. */
  predicate Next(s: Stage, s': Stage) {
    match s
    case Queued => s' == Swept
    case Swept => s' == Finalized || s' == Dropped
    case Finalized => s' == Pending || s' == Quarantined
    case Pending => s' == Minted || s' == Quarantined
    case Minted => false
    case Dropped => false
    case Quarantined => false
  }

  /** One step of history: no deposit is forgotten, rewritten or swept again, and each one stays
      where it is or moves along one edge. */
  ghost predicate Follows(t: Trace, t': Trace) {
    && (forall id | id in t.stage ::
          id in t'.stage && (t'.stage[id] == t.stage[id] || Next(t.stage[id], t'.stage[id])))
    && (forall id | id in t.origin :: id in t'.origin && t'.origin[id] == t.origin[id])
    && (forall id | id in t.sweptBy :: id in t'.sweptBy && t'.sweptBy[id] == t.sweptBy[id])
  }

  // ---------- agreement of the book with a trace ----------

  /** The keys are exactly the deposits in one of the given stages. */
  ghost predicate KeysIn(keys: set<DepositId>, t: Trace, stages: set<Stage>) {
    forall id :: id in keys <==> id in t.stage && t.stage[id] in stages
  }

  /** The deposits held by some sweep. */
  ghost function HeldIds(sweeps: map<Signature, Sweep>): set<DepositId> {
    set sig, id | sig in sweeps && id in sweeps[sig].deposits :: id
  }

  ghost predicate Located(b: Book, t: Trace) {
    && KeysIn(b.queued.Keys, t, {Queued})
    && KeysIn(HeldIds(b.swept), t, {Swept})
    && KeysIn(HeldIds(b.finalized), t, {Finalized})
    && KeysIn(b.pendingMints.Keys, t, {Pending})
    && KeysIn(b.minted.Keys, t, {Minted})
    && KeysIn(b.dropped.Keys, t, {Dropped})
    && KeysIn(b.quarantined.Keys, t, {Quarantined})
    && KeysIn(b.queuedAtById.Keys, t, UNFINISHED)
  }

  /** The ids below nextId are exactly the deposits ever queued; those past the queue were swept. */
  ghost predicate Numbered(nextId: nat, t: Trace) {
    && (forall id: nat :: id in t.stage <==> id < nextId)
    && t.origin.Keys == t.stage.Keys
    && (forall id :: id in t.sweptBy <==> id in t.stage && t.stage[id] != Queued)
  }

  /** A sweep holds its deposits as they were queued, and no deposit is in two sweeps. */
  ghost predicate SweepsRecorded(sweeps: map<Signature, Sweep>, t: Trace) {
    forall sig | sig in sweeps :: BatchRecorded(sweeps[sig].deposits, sig, t)
  }

  ghost predicate AllPlans(sweeps: map<Signature, Sweep>) {
    forall sig | sig in sweeps :: IsPlan(sweeps[sig])
  }

  ghost predicate BatchRecorded(m: Batch, sig: Signature, t: Trace) {
    forall id | id in m ::
      id in t.sweptBy && t.sweptBy[id] == sig && id in t.origin && m[id] == t.origin[id]
  }

  ghost predicate Recorded(t: Trace, id: DepositId, d: SweptDeposit) {
    && id in t.origin && d.deposit == t.origin[id]
    && id in t.sweptBy && d.signature == t.sweptBy[id]
  }

  ghost predicate QueuedRecorded(queued: Batch, t: Trace) {
    forall id | id in queued :: id in t.origin && queued[id] == t.origin[id]
  }

  ghost predicate PendingRecorded(pending: map<DepositId, PendingMint>, t: Trace) {
    forall id | id in pending ::
      && Recorded(t, id, pending[id].deposit)
      && pending[id].amountToMint <= pending[id].deposit.deposit.Sweepable()
  }

  ghost predicate MintedRecorded(minted: map<DepositId, MintedSweep>, t: Trace) {
    forall id | id in minted :: Recorded(t, id, minted[id].deposit)
  }

  ghost predicate DroppedRecorded(dropped: map<DepositId, SweptDeposit>, t: Trace) {
    forall id | id in dropped :: Recorded(t, id, dropped[id])
  }

  ghost predicate QuarantinedRecorded(quarantined: map<DepositId, QuarantinedDeposit>, t: Trace) {
    forall id | id in quarantined :: Recorded(t, id, quarantined[id].deposit)
  }

  ghost predicate Records(b: Book, t: Trace) {
    && QueuedRecorded(b.queued, t)
    && SweepsRecorded(b.swept, t)
    && SweepsRecorded(b.finalized, t)
    && PendingRecorded(b.pendingMints, t)
    && MintedRecorded(b.minted, t)
    && DroppedRecorded(b.dropped, t)
    && QuarantinedRecorded(b.quarantined, t)
  }

  /** Records stay true as the history grows. */
  lemma RecordsExtend(b: Book, t: Trace, t': Trace)
    requires Records(b, t)
    requires forall id | id in t.origin :: id in t'.origin && t'.origin[id] == t.origin[id]
    requires forall id | id in t.sweptBy :: id in t'.sweptBy && t'.sweptBy[id] == t.sweptBy[id]
    ensures Records(b, t')
  {
    assert QueuedRecorded(b.queued, t');
    assert SweepsRecorded(b.swept, t') by {
      forall sig | sig in b.swept ensures BatchRecorded(b.swept[sig].deposits, sig, t') {}
    }
    assert SweepsRecorded(b.finalized, t') by {
      forall sig | sig in b.finalized ensures BatchRecorded(b.finalized[sig].deposits, sig, t') {}
    }
  }

  /** The accounts in flight are exactly those of the active deposits, one each. */
  ghost predicate InFlightAgree(inFlight: map<Account, DepositId>, t: Trace) {
    && (forall a | a in inFlight :: inFlight[a] in t.stage)
    && (forall a, id :: a in inFlight && inFlight[a] == id <==> HoldsActive(t, id, a))
  }

  ghost predicate HoldsActive(t: Trace, id: DepositId, a: Account) {
    id in t.stage && t.stage[id] in ACTIVE && id in t.origin && t.origin[id].account == a
  }

  /** The latest deposit of an account is the one queued last, and the one in flight if any. */
  ghost predicate LatestAgree(latest: map<Account, DepositId>, inFlight: map<Account, DepositId>, origin: Batch) {
    && (forall a | a in latest :: latest[a] in origin && origin[latest[a]].account == a)
    && (forall id | id in origin :: origin[id].account in latest && id <= latest[origin[id].account])
    && (forall a | a in inFlight :: a in latest && latest[a] == inFlight[a])
  }

  ghost predicate Agrees(b: Book, t: Trace) {
    && Numbered(b.nextId, t)
    && Located(b, t)
    && Records(b, t)
    && InFlightAgree(b.inFlightIds, t)
    && LatestAgree(b.latestIds, b.inFlightIds, t.origin)
    && AllPlans(b.swept) && AllPlans(b.finalized)
  }

  // ---------- moving a group of deposits ----------

  ghost predicate AllAt(t: Trace, ids: set<DepositId>, s: Stage) {
    forall id | id in ids :: id in t.stage && t.stage[id] == s
  }

  /** All the given deposits move to the given stage. */
  ghost function MovedTo(t: Trace, ids: set<DepositId>, s: Stage): Trace {
    t.(stage := t.stage + map id | id in ids :: s)
  }

  /** What a move makes of the key set of an index over the given stages. */
  function Shift(keys: set<DepositId>, ids: set<DepositId>, p: Stage, s: Stage, stages: set<Stage>): set<DepositId> {
    if p in stages && s !in stages then keys - ids
    else if p !in stages && s in stages then keys + ids
    else keys
  }

  lemma MoveKeys(keys: set<DepositId>, t: Trace, ids: set<DepositId>, p: Stage, s: Stage, stages: set<Stage>)
    requires KeysIn(keys, t, stages) && AllAt(t, ids, p)
    ensures KeysIn(Shift(keys, ids, p, s, stages), MovedTo(t, ids, s), stages)
  {}

  /** The group leaves the indexes of its old stage and enters those of its new one; the other
      indexes keep their keys. */
  ghost predicate Shifts(b: Book, b': Book, ids: set<DepositId>, p: Stage, s: Stage) {
    && b'.queued.Keys == Shift(b.queued.Keys, ids, p, s, {Queued})
    && HeldIds(b'.swept) == Shift(HeldIds(b.swept), ids, p, s, {Swept})
    && HeldIds(b'.finalized) == Shift(HeldIds(b.finalized), ids, p, s, {Finalized})
    && b'.pendingMints.Keys == Shift(b.pendingMints.Keys, ids, p, s, {Pending})
    && b'.minted.Keys == Shift(b.minted.Keys, ids, p, s, {Minted})
    && b'.dropped.Keys == Shift(b.dropped.Keys, ids, p, s, {Dropped})
    && b'.quarantined.Keys == Shift(b.quarantined.Keys, ids, p, s, {Quarantined})
    && b'.queuedAtById.Keys == Shift(b.queuedAtById.Keys, ids, p, s, UNFINISHED)
  }

  lemma MoveLocated(b: Book, b': Book, t: Trace, ids: set<DepositId>, p: Stage, s: Stage)
    requires Located(b, t) && AllAt(t, ids, p) && Shifts(b, b', ids, p, s)
    ensures Located(b', MovedTo(t, ids, s))
  {
    var t' := MovedTo(t, ids, s);
    assert KeysIn(b'.queued.Keys, t', {Queued}) by { MoveKeys(b.queued.Keys, t, ids, p, s, {Queued}); }
    assert KeysIn(HeldIds(b'.swept), t', {Swept}) by { MoveKeys(HeldIds(b.swept), t, ids, p, s, {Swept}); }
    assert KeysIn(HeldIds(b'.finalized), t', {Finalized}) by {
      MoveKeys(HeldIds(b.finalized), t, ids, p, s, {Finalized});
    }
    assert KeysIn(b'.pendingMints.Keys, t', {Pending}) by { MoveKeys(b.pendingMints.Keys, t, ids, p, s, {Pending}); }
    assert KeysIn(b'.minted.Keys, t', {Minted}) by { MoveKeys(b.minted.Keys, t, ids, p, s, {Minted}); }
    assert KeysIn(b'.dropped.Keys, t', {Dropped}) by { MoveKeys(b.dropped.Keys, t, ids, p, s, {Dropped}); }
    assert KeysIn(b'.quarantined.Keys, t', {Quarantined}) by {
      MoveKeys(b.quarantined.Keys, t, ids, p, s, {Quarantined});
    }
    assert KeysIn(b'.queuedAtById.Keys, t', UNFINISHED) by {
      MoveKeys(b.queuedAtById.Keys, t, ids, p, s, UNFINISHED);
    }
  }

  lemma MoveFollows(t: Trace, ids: set<DepositId>, p: Stage, s: Stage)
    requires AllAt(t, ids, p) && Next(p, s)
    ensures Follows(t, MovedTo(t, ids, s))
  {}

  lemma MoveNumbered(nextId: nat, t: Trace, ids: set<DepositId>, p: Stage, s: Stage)
    requires Numbered(nextId, t) && AllAt(t, ids, p) && p != Queued && s != Queued
    ensures Numbered(nextId, MovedTo(t, ids, s))
  {
    assert MovedTo(t, ids, s).stage.Keys == t.stage.Keys;
  }

  lemma MoveInFlight(inFlight: map<Account, DepositId>, t: Trace, ids: set<DepositId>, p: Stage, s: Stage)
    requires InFlightAgree(inFlight, t) && AllAt(t, ids, p) && p in ACTIVE && s in ACTIVE
    ensures InFlightAgree(inFlight, MovedTo(t, ids, s))
  {
    var t' := MovedTo(t, ids, s);
    forall a, id ensures a in inFlight && inFlight[a] == id <==> HoldsActive(t', id, a) {
      assert HoldsActive(t', id, a) <==> HoldsActive(t, id, a);
    }
  }

  /** When a group retires, its accounts are released. */
  lemma RetireInFlight(inFlight: map<Account, DepositId>, t: Trace, m: Batch, p: Stage, s: Stage)
    requires InFlightAgree(inFlight, t) && AllAt(t, m.Keys, p) && p in ACTIVE && s !in ACTIVE
    requires forall id | id in m :: id in t.origin && t.origin[id] == m[id]
    ensures InFlightAgree(inFlight - AccountsOf(m), MovedTo(t, m.Keys, s))
    ensures forall id | id in m :: m[id].account in inFlight && inFlight[m[id].account] == id
  {
    var t', rest := MovedTo(t, m.Keys, s), inFlight - AccountsOf(m);
    forall id | id in m ensures m[id].account in inFlight && inFlight[m[id].account] == id {
      assert HoldsActive(t, id, m[id].account);
    }
    forall a, id ensures a in rest && rest[a] == id <==> HoldsActive(t', id, a) {
      assert a in inFlight && inFlight[a] == id <==> HoldsActive(t, id, a);
    }
  }

  // ---------- sweeps and the deposits they hold ----------

  lemma HeldAdd(sweeps: map<Signature, Sweep>, sig: Signature, s: Sweep)
    requires sig !in sweeps
    ensures HeldIds(sweeps[sig := s]) == HeldIds(sweeps) + s.deposits.Keys
  {
    var more := sweeps[sig := s];
    forall id | id in HeldIds(sweeps) ensures id in HeldIds(more) {
      var g :| g in sweeps && id in sweeps[g].deposits;
      assert g in more && id in more[g].deposits;
    }
    forall id | id in s.deposits ensures id in HeldIds(more) {
      assert sig in more && id in more[sig].deposits;
    }
  }

  lemma HeldRemove(sweeps: map<Signature, Sweep>, t: Trace, sig: Signature)
    requires SweepsRecorded(sweeps, t) && sig in sweeps
    ensures HeldIds(sweeps - {sig}) == HeldIds(sweeps) - sweeps[sig].deposits.Keys
    ensures sweeps[sig].deposits.Keys <= HeldIds(sweeps)
  {
    var fewer := sweeps - {sig};
    forall id | id in HeldIds(sweeps) && id !in sweeps[sig].deposits ensures id in HeldIds(fewer) {
      var g :| g in sweeps && id in sweeps[g].deposits;
      assert g in fewer && id in fewer[g].deposits;
    }
    forall id | id in HeldIds(fewer) ensures id in HeldIds(sweeps) && id !in sweeps[sig].deposits {
      var g :| g in fewer && id in fewer[g].deposits;
      assert g in sweeps && id in sweeps[g].deposits;
      assert t.sweptBy[id] == g;
    }
  }

  /** The deposits of one sweep are all at the stage of its map. */
  lemma SweepAt(sweeps: map<Signature, Sweep>, t: Trace, sig: Signature, s: Stage)
    requires sig in sweeps && KeysIn(HeldIds(sweeps), t, {s})
    ensures AllAt(t, sweeps[sig].deposits.Keys, s)
  {
    forall id | id in sweeps[sig].deposits.Keys ensures id in t.stage && t.stage[id] == s {
      assert id in HeldIds(sweeps);
    }
  }

  // ---------- the transitions ----------

  lemma EmptyAgrees()
    ensures Agrees(EMPTY_BOOK, EMPTY_TRACE)
  {}

  ghost function Arrived(t: Trace, id: DepositId, d: QueuedDeposit): Trace {
    t.(stage := t.stage[id := Queued], origin := t.origin[id := d])
  }

  lemma ArrivalKeys(keys: set<DepositId>, t: Trace, id: DepositId, d: QueuedDeposit, stages: set<Stage>)
    requires KeysIn(keys, t, stages) && id !in t.stage
    ensures KeysIn(if Queued in stages then keys + {id} else keys, Arrived(t, id, d), stages)
  {}

  lemma QueueAgrees(b: Book, t: Trace, id: DepositId, d: QueuedDeposit, now: Timestamp)
    requires Agrees(b, t) && CanQueue(b, id, d)
    ensures Agrees(Queue(b, id, d, now), Arrived(t, id, d)) && Follows(t, Arrived(t, id, d))
  {
    hide Located, Records, InFlightAgree, LatestAgree, Numbered, AllPlans, Follows;
    ArrivalNumbered(b.nextId, t, d);
    ArrivalLocated(b, t, id, d, now);
    ArrivalRecords(b, t, id, d, now);
    ArrivalInFlight(b, t, id, d);
    ArrivalLatest(b, t, id, d);
  }

  lemma ArrivalLocated(b: Book, t: Trace, id: DepositId, d: QueuedDeposit, now: Timestamp)
    requires Located(b, t) && id !in t.stage
    ensures Located(Queue(b, id, d, now), Arrived(t, id, d))
  {
    var b', t' := Queue(b, id, d, now), Arrived(t, id, d);
    hide KeysIn;
    ArrivalKeys(b.queued.Keys, t, id, d, {Queued});
    assert b'.queued.Keys == b.queued.Keys + {id};
    ArrivalKeys(HeldIds(b.swept), t, id, d, {Swept});
    ArrivalKeys(HeldIds(b.finalized), t, id, d, {Finalized});
    ArrivalKeys(b.pendingMints.Keys, t, id, d, {Pending});
    ArrivalKeys(b.minted.Keys, t, id, d, {Minted});
    ArrivalKeys(b.dropped.Keys, t, id, d, {Dropped});
    ArrivalKeys(b.quarantined.Keys, t, id, d, {Quarantined});
    ArrivalKeys(b.queuedAtById.Keys, t, id, d, UNFINISHED);
    assert b'.queuedAtById.Keys == b.queuedAtById.Keys + {id};
  }

  lemma ArrivalRecords(b: Book, t: Trace, id: DepositId, d: QueuedDeposit, now: Timestamp)
    requires Records(b, t) && id !in t.origin
    ensures Records(Queue(b, id, d, now), Arrived(t, id, d))
  {
    hide SweepsRecorded, PendingRecorded, MintedRecorded, DroppedRecorded, QuarantinedRecorded;
    RecordsExtend(b, t, Arrived(t, id, d));
    assert QueuedRecorded(b.queued[id := d], Arrived(t, id, d));
  }

  lemma ArrivalNumbered(nextId: nat, t: Trace, d: QueuedDeposit)
    requires Numbered(nextId, t)
    ensures nextId !in t.stage && nextId !in t.origin
    ensures Numbered(nextId + 1, Arrived(t, nextId, d)) && Follows(t, Arrived(t, nextId, d))
  {
    assert nextId !in t.stage.Keys;
  }

  lemma ArrivalInFlight(b: Book, t: Trace, id: DepositId, d: QueuedDeposit)
    requires Numbered(b.nextId, t) && id == b.nextId && d.account !in b.inFlightIds
    requires InFlightAgree(b.inFlightIds, t)
    ensures InFlightAgree(b.inFlightIds[d.account := id], Arrived(t, id, d))
  {
    var f, f', t' := b.inFlightIds, b.inFlightIds[d.account := id], Arrived(t, id, d);
    forall a, x ensures a in f' && f'[a] == x <==> HoldsActive(t', x, a) {
      assert a in f && f[a] == x <==> HoldsActive(t, x, a);
      assert x != id ==> (HoldsActive(t', x, a) <==> HoldsActive(t, x, a));
    }
  }

  lemma ArrivalLatest(b: Book, t: Trace, id: DepositId, d: QueuedDeposit)
    requires Numbered(b.nextId, t) && id == b.nextId && d.account !in b.inFlightIds
    requires LatestAgree(b.latestIds, b.inFlightIds, t.origin)
    ensures LatestAgree(b.latestIds[d.account := id], b.inFlightIds[d.account := id], Arrived(t, id, d).origin)
  {
    assert id !in t.origin;
  }

  // A sweep takes its deposits out of the queue.

  ghost function SweptUp(t: Trace, ids: set<DepositId>, sig: Signature): Trace {
    MovedTo(t, ids, Swept).(sweptBy := t.sweptBy + map id | id in ids :: sig)
  }

  ghost predicate SweepPlanned(b: Book, group: set<DepositId>, plan: Sweep, sig: Signature) {
    && IsPlan(plan) && plan.deposits.Keys == group && sig !in b.swept
    && forall id | id in group :: id in b.queued && plan.deposits[id] == b.queued[id]
  }

  ghost function TakenBy(b: Book, plan: Sweep, sig: Signature): Book {
    b.(queued := b.queued - plan.deposits.Keys, swept := b.swept[sig := plan])
  }

  lemma SweepAgrees(b: Book, t: Trace, ids: seq<DepositId>, minter: Address, sig: Signature)
    requires Agrees(b, t)
    requires (forall id | id in ids :: id in b.queued) && CanPlan(Picked(b.queued, ids)) && sig !in b.swept
    ensures Agrees(SweepQueued(b, ids, minter, sig), SweptUp(t, Elems(ids), sig))
    ensures Follows(t, SweptUp(t, Elems(ids), sig))
  {
    hide Agrees;
    var plan := PlanOf(Picked(b.queued, ids), minter);
    assert plan.deposits.Keys == Elems(ids);
    TakenAgrees(b, t, Elems(ids), plan, sig);
  }

  lemma TakenAgrees(b: Book, t: Trace, group: set<DepositId>, plan: Sweep, sig: Signature)
    requires Agrees(b, t) && SweepPlanned(b, group, plan, sig)
    ensures Agrees(TakenBy(b, plan, sig), SweptUp(t, group, sig)) && Follows(t, SweptUp(t, group, sig))
  {
    hide Located, Records, InFlightAgree, LatestAgree, Numbered, AllPlans, Follows, IsPlan, AllAt, Shifts;
    var b', t' := TakenBy(b, plan, sig), SweptUp(t, group, sig);
    GroupQueued(b, t, group);
    TakenShifts(b, group, plan, sig);
    MoveLocated(b, b', t, group, Queued, Swept);
    SameStageLocated(b', MovedTo(t, group, Swept), t');
    TakenRecords(b, t, group, plan, sig);
    MoveInFlight(b.inFlightIds, t, group, Queued, Swept);
    SameStageInFlight(b.inFlightIds, MovedTo(t, group, Swept), t');
    TakenFollows(b.nextId, t, group, sig);
    PlansAdd(b.swept, plan, sig);
  }

  lemma GroupQueued(b: Book, t: Trace, group: set<DepositId>)
    requires Located(b, t) && group <= b.queued.Keys
    ensures AllAt(t, group, Queued)
  {}

  lemma PlansAdd(sweeps: map<Signature, Sweep>, plan: Sweep, sig: Signature)
    requires AllPlans(sweeps) && IsPlan(plan)
    ensures AllPlans(sweeps[sig := plan])
  {
    hide IsPlan;
  }

  lemma PlansRemove(sweeps: map<Signature, Sweep>, sig: Signature)
    requires AllPlans(sweeps)
    ensures AllPlans(sweeps - {sig})
  {
    hide IsPlan;
  }

  lemma TakenFollows(nextId: nat, t: Trace, group: set<DepositId>, sig: Signature)
    requires AllAt(t, group, Queued) && Numbered(nextId, t)
    ensures Follows(t, SweptUp(t, group, sig)) && Numbered(nextId, SweptUp(t, group, sig))
  {
    assert SweptUp(t, group, sig).stage.Keys == t.stage.Keys;
  }

  lemma SameStageLocated(b: Book, t: Trace, t': Trace)
    requires Located(b, t) && t'.stage == t.stage
    ensures Located(b, t')
  {}

  lemma SameStageInFlight(inFlight: map<Account, DepositId>, t: Trace, t': Trace)
    requires InFlightAgree(inFlight, t) && t'.stage == t.stage && t'.origin == t.origin
    ensures InFlightAgree(inFlight, t')
  {
    forall a, id ensures a in inFlight && inFlight[a] == id <==> HoldsActive(t', id, a) {
      assert HoldsActive(t', id, a) <==> HoldsActive(t, id, a);
    }
  }

  lemma TakenShifts(b: Book, group: set<DepositId>, plan: Sweep, sig: Signature)
    requires SweepPlanned(b, group, plan, sig)
    ensures Shifts(b, TakenBy(b, plan, sig), group, Queued, Swept)
  {
    hide IsPlan, HeldIds;
    HeldAdd(b.swept, sig, plan);
    assert (b.queued - group).Keys == b.queued.Keys - group;
  }

  lemma TakenRecords(b: Book, t: Trace, group: set<DepositId>, plan: Sweep, sig: Signature)
    requires Records(b, t) && Numbered(b.nextId, t) && AllAt(t, group, Queued) && SweepPlanned(b, group, plan, sig)
    ensures Records(TakenBy(b, plan, sig), SweptUp(t, group, sig))
  {
    hide IsPlan;
    var t' := SweptUp(t, group, sig);
    assert forall id | id in t.sweptBy :: id !in group;
    TakenBatch(b, t, group, plan, sig);
    RecordsExtend(b, t, t');
    RecordsTaken(b, t', plan, sig);
  }

  lemma TakenBatch(b: Book, t: Trace, group: set<DepositId>, plan: Sweep, sig: Signature)
    requires QueuedRecorded(b.queued, t) && SweepPlanned(b, group, plan, sig)
    ensures BatchRecorded(plan.deposits, sig, SweptUp(t, group, sig))
  {
    hide IsPlan;
  }

  lemma RecordsTaken(b: Book, t: Trace, plan: Sweep, sig: Signature)
    requires Records(b, t) && BatchRecorded(plan.deposits, sig, t)
    ensures Records(TakenBy(b, plan, sig), t)
  {
    hide BatchRecorded, PendingRecorded, MintedRecorded, DroppedRecorded, QuarantinedRecorded;
    assert SweepsRecorded(b.swept[sig := plan], t);
    assert QueuedRecorded(b.queued - plan.deposits.Keys, t);
  }

  // A swept sweep fails or expires: its deposits are dropped and their accounts released.

  lemma DropAgrees(b: Book, t: Trace, sig: Signature)
    requires Agrees(b, t) && sig in b.swept
    ensures CanDropSwept(b, sig)
    ensures var t' := MovedTo(t, b.swept[sig].deposits.Keys, Dropped);
            Agrees(DropSwept(b, sig), t') && Follows(t, t')
  {
    hide Located, Records, InFlightAgree, LatestAgree, Numbered, AllPlans, Follows, AllAt, Shifts, MovedTo;
    var m := b.swept[sig].deposits;
    SweptAt(b, t, sig);
    DropShifts(b, sig);
    MoveLocated(b, DropSwept(b, sig), t, m.Keys, Swept, Dropped);
    MoveNumbered(b.nextId, t, m.Keys, Swept, Dropped);
    MoveFollows(t, m.Keys, Swept, Dropped);
    RetireInFlight(b.inFlightIds, t, m, Swept, Dropped);
    LatestShrinks(b.latestIds, b.inFlightIds, AccountsOf(m), t.origin);
    MovedOrigin(t, m.Keys, Dropped);
    RecordsMove(b, t, m.Keys, Dropped);
    DropRecords(b, MovedTo(t, m.Keys, Dropped), sig);
    PlansRemove(b.swept, sig);
  }

  lemma MovedOrigin(t: Trace, ids: set<DepositId>, s: Stage)
    ensures MovedTo(t, ids, s).origin == t.origin && MovedTo(t, ids, s).sweptBy == t.sweptBy
  {}

  lemma RecordsMove(b: Book, t: Trace, ids: set<DepositId>, s: Stage)
    requires Records(b, t)
    ensures Records(b, MovedTo(t, ids, s))
  {
    hide Records;
    RecordsExtend(b, t, MovedTo(t, ids, s));
  }

  lemma LatestShrinks(latest: map<Account, DepositId>, inFlight: map<Account, DepositId>, gone: set<Account>, origin: Batch)
    requires LatestAgree(latest, inFlight, origin)
    ensures LatestAgree(latest, inFlight - gone, origin)
  {}

  /** What holds of the deposits of a swept sweep. */
  lemma SweptAt(b: Book, t: Trace, sig: Signature)
    requires Located(b, t) && Records(b, t) && sig in b.swept
    ensures AllAt(t, b.swept[sig].deposits.Keys, Swept)
    ensures HeldIds(b.swept - {sig}) == HeldIds(b.swept) - b.swept[sig].deposits.Keys
    ensures forall id | id in b.swept[sig].deposits :: id in t.origin && t.origin[id] == b.swept[sig].deposits[id]
  {
    hide AllAt, KeysIn, HeldIds, QueuedRecorded, PendingRecorded, MintedRecorded, DroppedRecorded, QuarantinedRecorded;
    SweepAt(b.swept, t, sig, Swept);
    HeldRemove(b.swept, t, sig);
    assert BatchRecorded(b.swept[sig].deposits, sig, t);
  }

  lemma DropShifts(b: Book, sig: Signature)
    requires sig in b.swept && HeldIds(b.swept - {sig}) == HeldIds(b.swept) - b.swept[sig].deposits.Keys
    ensures Shifts(b, DropSwept(b, sig), b.swept[sig].deposits.Keys, Swept, Dropped)
  {
    hide HeldIds;
    var m := b.swept[sig].deposits;
    assert DroppedOf(m, sig).Keys == m.Keys;
    MinusKeys(b.queuedAtById, m.Keys);
    PlusKeys(b.dropped, DroppedOf(m, sig));
  }

  lemma DropRecords(b: Book, t: Trace, sig: Signature)
    requires Records(b, t) && sig in b.swept
    ensures Records(DropSwept(b, sig), t)
  {
    hide QueuedRecorded, PendingRecorded, MintedRecorded, QuarantinedRecorded;
    var m := b.swept[sig].deposits;
    assert BatchRecorded(m, sig, t);
    assert DroppedRecorded(DropSwept(b, sig).dropped, t);
    hide BatchRecorded;
    assert SweepsRecorded(b.swept - {sig}, t);
  }

  // A swept sweep is finalized.

  lemma FinalizeAgrees(b: Book, t: Trace, sig: Signature)
    requires Agrees(b, t) && sig in b.swept && sig !in b.finalized
    ensures CanFinalize(b, sig)
    ensures var t' := MovedTo(t, b.swept[sig].deposits.Keys, Finalized);
            Agrees(Finalize(b, sig), t') && Follows(t, t')
  {
    hide Located, Records, InFlightAgree, LatestAgree, Numbered, AllPlans, Follows, AllAt, Shifts, MovedTo, Unheld, IsPlan;
    var m := b.swept[sig].deposits;
    SweptAt(b, t, sig);
    FinalizeShifts(b, sig);
    MoveLocated(b, Finalize(b, sig), t, m.Keys, Swept, Finalized);
    MoveNumbered(b.nextId, t, m.Keys, Swept, Finalized);
    MoveFollows(t, m.Keys, Swept, Finalized);
    MoveInFlight(b.inFlightIds, t, m.Keys, Swept, Finalized);
    MovedOrigin(t, m.Keys, Finalized);
    RecordsMove(b, t, m.Keys, Finalized);
    FinalizeRecords(b, MovedTo(t, m.Keys, Finalized), sig);
    PlansRemove(b.swept, sig);
    PlanAt(b.swept, sig);
    PlansAdd(b.finalized, b.swept[sig], sig);
    SweptUnheld(b, t, sig);
  }

  lemma PlanAt(sweeps: map<Signature, Sweep>, sig: Signature)
    requires AllPlans(sweeps) && sig in sweeps
    ensures IsPlan(sweeps[sig])
  {
    hide IsPlan;
  }

  lemma FinalizeShifts(b: Book, sig: Signature)
    requires sig in b.swept && sig !in b.finalized
    requires HeldIds(b.swept - {sig}) == HeldIds(b.swept) - b.swept[sig].deposits.Keys
    ensures Shifts(b, Finalize(b, sig), b.swept[sig].deposits.Keys, Swept, Finalized)
  {
    hide HeldIds;
    HeldAdd(b.finalized, sig, b.swept[sig]);
  }

  lemma FinalizeRecords(b: Book, t: Trace, sig: Signature)
    requires Records(b, t) && sig in b.swept
    ensures Records(Finalize(b, sig), t)
  {
    hide QueuedRecorded, PendingRecorded, MintedRecorded, DroppedRecorded, QuarantinedRecorded, BatchRecorded;
    assert SweepsRecorded(b.swept - {sig}, t);
    assert SweepsRecorded(b.finalized[sig := b.swept[sig]], t);
  }

  lemma SweptUnheld(b: Book, t: Trace, sig: Signature)
    requires sig in b.swept && AllAt(t, b.swept[sig].deposits.Keys, Swept) && Located(b, t)
    ensures forall id | id in b.swept[sig].deposits :: Unheld(b.finalized, id)
  {
    hide HeldIds;
    forall id | id in b.swept[sig].deposits ensures Unheld(b.finalized, id) {
      assert id !in HeldIds(b.finalized);
      UnheldIff(b.finalized, id);
    }
  }

  lemma UnheldIff(sweeps: map<Signature, Sweep>, id: DepositId)
    ensures Unheld(sweeps, id) <==> id !in HeldIds(sweeps)
  {
    if !Unheld(sweeps, id) {
      var sig :| sig in sweeps && id in sweeps[sig].deposits;
      assert id in HeldIds(sweeps);
    }
  }

  // A finalized sweep is quarantined or credited.

  /** What holds of the deposits of a finalized sweep. */
  lemma FinalizedAt(b: Book, t: Trace, sig: Signature)
    requires Located(b, t) && Records(b, t) && sig in b.finalized
    ensures AllAt(t, b.finalized[sig].deposits.Keys, Finalized)
    ensures HeldIds(b.finalized - {sig}) == HeldIds(b.finalized) - b.finalized[sig].deposits.Keys
    ensures forall id | id in b.finalized[sig].deposits :: id in t.origin && t.origin[id] == b.finalized[sig].deposits[id]
  {
    hide AllAt, KeysIn, HeldIds, QueuedRecorded, PendingRecorded, MintedRecorded, DroppedRecorded, QuarantinedRecorded;
    SweepAt(b.finalized, t, sig, Finalized);
    HeldRemove(b.finalized, t, sig);
    assert BatchRecorded(b.finalized[sig].deposits, sig, t);
  }

  lemma QuarantineSweepAgrees(b: Book, t: Trace, sig: Signature)
    requires Agrees(b, t) && sig in b.finalized
    ensures var t' := MovedTo(t, b.finalized[sig].deposits.Keys, Quarantined);
            Agrees(QuarantineSweep(b, sig), t') && Follows(t, t')
  {
    hide Located, Records, InFlightAgree, LatestAgree, Numbered, AllPlans, Follows, AllAt, Shifts, MovedTo;
    var m := b.finalized[sig].deposits;
    FinalizedAt(b, t, sig);
    QuarantineSweepShifts(b, sig);
    MoveLocated(b, QuarantineSweep(b, sig), t, m.Keys, Finalized, Quarantined);
    MoveNumbered(b.nextId, t, m.Keys, Finalized, Quarantined);
    MoveFollows(t, m.Keys, Finalized, Quarantined);
    MoveInFlight(b.inFlightIds, t, m.Keys, Finalized, Quarantined);
    MovedOrigin(t, m.Keys, Quarantined);
    RecordsMove(b, t, m.Keys, Quarantined);
    QuarantineSweepRecords(b, MovedTo(t, m.Keys, Quarantined), sig);
    PlansRemove(b.finalized, sig);
  }

  lemma QuarantineSweepShifts(b: Book, sig: Signature)
    requires sig in b.finalized
    requires HeldIds(b.finalized - {sig}) == HeldIds(b.finalized) - b.finalized[sig].deposits.Keys
    ensures Shifts(b, QuarantineSweep(b, sig), b.finalized[sig].deposits.Keys, Finalized, Quarantined)
  {
    hide HeldIds;
    var m := b.finalized[sig].deposits;
    assert UnreadableOf(m, sig).Keys == m.Keys;
    MinusKeys(b.queuedAtById, m.Keys);
    PlusKeys(b.quarantined, UnreadableOf(m, sig));
  }

  lemma QuarantineSweepRecords(b: Book, t: Trace, sig: Signature)
    requires Records(b, t) && sig in b.finalized
    ensures Records(QuarantineSweep(b, sig), t)
  {
    hide QueuedRecorded, PendingRecorded, MintedRecorded, DroppedRecorded;
    assert BatchRecorded(b.finalized[sig].deposits, sig, t);
    assert QuarantinedRecorded(QuarantineSweep(b, sig).quarantined, t);
    hide BatchRecorded;
    assert SweepsRecorded(b.finalized - {sig}, t);
  }

  lemma CreditAgrees(b: Book, t: Trace, sig: Signature, mints: seq<CreditedDeposit>, now: Timestamp)
    requires Agrees(b, t) && CanCredit(b, sig, mints)
    ensures var t' := MovedTo(t, b.finalized[sig].deposits.Keys, Pending);
            Agrees(Credit(b, sig, mints, now), t') && Follows(t, t')
  {
    hide Located, Records, InFlightAgree, LatestAgree, Numbered, AllPlans, Follows, AllAt, Shifts, MovedTo, MintMap, DistinctMints;
    var m := b.finalized[sig].deposits;
    CreditCovers(b, sig, mints);
    FinalizedAt(b, t, sig);
    CreditShifts(b, sig, mints, now);
    MoveLocated(b, Credit(b, sig, mints, now), t, m.Keys, Finalized, Pending);
    MoveNumbered(b.nextId, t, m.Keys, Finalized, Pending);
    MoveFollows(t, m.Keys, Finalized, Pending);
    MoveInFlight(b.inFlightIds, t, m.Keys, Finalized, Pending);
    MovedOrigin(t, m.Keys, Pending);
    RecordsMove(b, t, m.Keys, Pending);
    CreditRecords(b, MovedTo(t, m.Keys, Pending), sig, mints, now);
    PlansRemove(b.finalized, sig);
  }

  lemma CreditShifts(b: Book, sig: Signature, mints: seq<CreditedDeposit>, now: Timestamp)
    requires sig in b.finalized && MintMap(mints).Keys == b.finalized[sig].deposits.Keys
    requires HeldIds(b.finalized - {sig}) == HeldIds(b.finalized) - b.finalized[sig].deposits.Keys
    ensures Shifts(b, Credit(b, sig, mints, now), b.finalized[sig].deposits.Keys, Finalized, Pending)
  {
    hide HeldIds, MintMap;
    var m := b.finalized[sig].deposits;
    assert PendingOf(m, sig, MintMap(mints), now).Keys == m.Keys;
    PlusKeys(b.pendingMints, PendingOf(m, sig, MintMap(mints), now));
  }

  lemma CreditRecords(b: Book, t: Trace, sig: Signature, mints: seq<CreditedDeposit>, now: Timestamp)
    requires Records(b, t) && CanCredit(b, sig, mints)
    ensures Records(Credit(b, sig, mints, now), t)
  {
    hide QueuedRecorded, QuarantinedRecorded, MintedRecorded, DroppedRecorded, MintMap;
    var m, amounts := b.finalized[sig].deposits, MintMap(mints);
    assert BatchRecorded(m, sig, t);
    CreditBounded(b, sig, mints);
    PendingAdded(b.pendingMints, PendingOf(m, sig, amounts, now), t);
    hide BatchRecorded;
    assert SweepsRecorded(b.finalized - {sig}, t);
  }

  lemma CreditBounded(b: Book, sig: Signature, mints: seq<CreditedDeposit>)
    requires CanCredit(b, sig, mints)
    ensures forall id | id in MintMap(mints) ::
              id in b.finalized[sig].deposits && MintMap(mints)[id] <= b.finalized[sig].deposits[id].Sweepable()
  {
    forall id | id in MintMap(mints)
      ensures id in b.finalized[sig].deposits && MintMap(mints)[id] <= b.finalized[sig].deposits[id].Sweepable()
    {
      var i := MintMapFrom(mints, id);
      MintMapAt(mints, i);
    }
  }

  lemma PendingAdded(pending: map<DepositId, PendingMint>, more: map<DepositId, PendingMint>, t: Trace)
    requires PendingRecorded(pending, t) && PendingRecorded(more, t)
    ensures PendingRecorded(pending + more, t)
  {}

  // A pending mint is minted or quarantined.

  lemma PendingAt(b: Book, t: Trace, id: DepositId)
    requires Located(b, t) && Records(b, t) && id in b.pendingMints
    ensures AllAt(t, {id}, Pending)
    ensures id in t.origin && b.pendingMints[id].deposit.deposit == t.origin[id]
  {
    hide HeldIds, QueuedRecorded, MintedRecorded, DroppedRecorded, QuarantinedRecorded, SweepsRecorded;
  }

  lemma MintAgrees(b: Book, t: Trace, id: DepositId, index: MintIndex)
    requires Agrees(b, t) && id in b.pendingMints
    ensures CanMint(b, id)
    ensures var t' := MovedTo(t, {id}, Minted); Agrees(Mint(b, id, index), t') && Follows(t, t')
  {
    hide Located, Records, InFlightAgree, LatestAgree, Numbered, AllPlans, Follows, AllAt, Shifts, MovedTo;
    var d := b.pendingMints[id].deposit.deposit;
    PendingAt(b, t, id);
    MintShifts(b, id, index);
    MoveLocated(b, Mint(b, id, index), t, {id}, Pending, Minted);
    MoveNumbered(b.nextId, t, {id}, Pending, Minted);
    MoveFollows(t, {id}, Pending, Minted);
    RetireOne(b.inFlightIds, t, id, d, Pending, Minted);
    LatestShrinks(b.latestIds, b.inFlightIds, {d.account}, t.origin);
    MovedOrigin(t, {id}, Minted);
    RecordsMove(b, t, {id}, Minted);
    MintRecords(b, MovedTo(t, {id}, Minted), id, index);
  }

  lemma RetireOne(inFlight: map<Account, DepositId>, t: Trace, id: DepositId, d: QueuedDeposit, p: Stage, s: Stage)
    requires InFlightAgree(inFlight, t) && AllAt(t, {id}, p) && p in ACTIVE && s !in ACTIVE
    requires id in t.origin && t.origin[id] == d
    ensures InFlightAgree(inFlight - {d.account}, MovedTo(t, {id}, s))
    ensures d.account in inFlight && inFlight[d.account] == id
  {
    hide InFlightAgree;
    var one := map[id := d];
    assert one.Keys == {id} && one[id] == d && AccountsOf(one) == {d.account};
    RetireInFlight(inFlight, t, one, p, s);
  }

  lemma MintShifts(b: Book, id: DepositId, index: MintIndex)
    requires id in b.pendingMints
    ensures Shifts(b, Mint(b, id, index), {id}, Pending, Minted)
  {
    hide HeldIds;
    MinusKeys(b.queuedAtById, {id});
    MinusKeys(b.pendingMints, {id});
  }

  lemma MintRecords(b: Book, t: Trace, id: DepositId, index: MintIndex)
    requires Records(b, t) && id in b.pendingMints
    ensures Records(Mint(b, id, index), t)
  {
    hide QueuedRecorded, SweepsRecorded, DroppedRecorded, QuarantinedRecorded;
    assert Recorded(t, id, b.pendingMints[id].deposit);
    assert PendingRecorded(b.pendingMints - {id}, t);
    assert MintedRecorded(Mint(b, id, index).minted, t);
  }

  lemma QuarantineMintAgrees(b: Book, t: Trace, id: DepositId)
    requires Agrees(b, t) && id in b.pendingMints
    ensures var t' := MovedTo(t, {id}, Quarantined); Agrees(QuarantineMint(b, id), t') && Follows(t, t')
  {
    hide Located, Records, InFlightAgree, LatestAgree, Numbered, AllPlans, Follows, AllAt, Shifts, MovedTo;
    PendingAt(b, t, id);
    QuarantineMintShifts(b, id);
    MoveLocated(b, QuarantineMint(b, id), t, {id}, Pending, Quarantined);
    MoveNumbered(b.nextId, t, {id}, Pending, Quarantined);
    MoveFollows(t, {id}, Pending, Quarantined);
    MoveInFlight(b.inFlightIds, t, {id}, Pending, Quarantined);
    MovedOrigin(t, {id}, Quarantined);
    RecordsMove(b, t, {id}, Quarantined);
    QuarantineMintRecords(b, MovedTo(t, {id}, Quarantined), id);
  }

  lemma QuarantineMintShifts(b: Book, id: DepositId)
    requires id in b.pendingMints
    ensures Shifts(b, QuarantineMint(b, id), {id}, Pending, Quarantined)
  {
    hide HeldIds;
    MinusKeys(b.queuedAtById, {id});
    MinusKeys(b.pendingMints, {id});
  }

  lemma QuarantineMintRecords(b: Book, t: Trace, id: DepositId)
    requires Records(b, t) && id in b.pendingMints
    ensures Records(QuarantineMint(b, id), t)
  {
    hide QueuedRecorded, SweepsRecorded, DroppedRecorded, MintedRecorded;
    assert Recorded(t, id, b.pendingMints[id].deposit);
    assert PendingRecorded(b.pendingMints - {id}, t);
    assert QuarantinedRecorded(QuarantineMint(b, id).quarantined, t);
  }

  // ---------- what agreement means ----------

  /** How often a deposit is listed, over all stages. */
  ghost function Listings(b: Book, id: DepositId): nat {
    (if id in b.queued then 1 else 0) + (if !Unheld(b.swept, id) then 1 else 0)
    + (if !Unheld(b.finalized, id) then 1 else 0) + (if id in b.pendingMints then 1 else 0)
    + (if id in b.minted then 1 else 0) + (if id in b.dropped then 1 else 0)
    + (if id in b.quarantined then 1 else 0)
  }

  /** Each index lists the deposit exactly when it is in the stage of the index. */
  lemma ListedIn(b: Book, t: Trace, id: DepositId)
    requires Located(b, t)
    ensures var s := if id in t.stage then Some(t.stage[id]) else None;
            && (id in b.queued <==> s == Some(Queued))
            && (!Unheld(b.swept, id) <==> s == Some(Swept))
            && (!Unheld(b.finalized, id) <==> s == Some(Finalized))
            && (id in b.pendingMints <==> s == Some(Pending))
            && (id in b.minted <==> s == Some(Minted))
            && (id in b.dropped <==> s == Some(Dropped))
            && (id in b.quarantined <==> s == Some(Quarantined))
  {
    hide HeldIds, Unheld;
    UnheldIff(b.swept, id);
    UnheldIff(b.finalized, id);
  }

  /** Every id below nextId is in exactly one stage, and no other id is in any. */
  lemma ExactlyOneStage(b: Book, t: Trace, id: DepositId)
    requires Agrees(b, t)
    ensures Listings(b, id) == if id < b.nextId then 1 else 0
  {
    hide Located, Records, InFlightAgree, LatestAgree, AllPlans, Unheld;
    ListedIn(b, t, id);
  }

  /** The status reports the stage the deposit is in, with the sweep that took it. */
  lemma StatusAgrees(b: Book, t: Trace, id: DepositId)
    requires Agrees(b, t)
    ensures StatusOf(b, id) == StatusNotFound <==> id >= b.nextId
    ensures id < b.nextId ==>
            && id in t.stage && id in t.origin && (t.stage[id] != Queued ==> id in t.sweptBy)
            && match t.stage[id]
               case Queued => StatusOf(b, id) == StatusQueued(t.origin[id].Sweepable())
               case Swept => StatusOf(b, id) == StatusSwept(t.sweptBy[id])
               case Finalized => StatusOf(b, id) == StatusFinalized(t.sweptBy[id])
               case Pending => StatusOf(b, id) == StatusFinalized(t.sweptBy[id])
               case Minted =>
                 && id in b.minted
                 && StatusOf(b, id) == StatusMinted(b.minted[id].mintBlockIndex, b.minted[id].mintedAmount)
               case Dropped => StatusOf(b, id) == StatusDropped(t.sweptBy[id])
               case Quarantined => StatusOf(b, id) == StatusQuarantined(t.sweptBy[id])
  {
    hide Located, InFlightAgree, LatestAgree, AllPlans, Unheld, SweepHolding, SweepsRecorded;
    ListedIn(b, t, id);
    HolderIs(b.swept, t, id);
    HolderIs(b.finalized, t, id);
  }

  lemma HolderIs(sweeps: map<Signature, Sweep>, t: Trace, id: DepositId)
    requires SweepsRecorded(sweeps, t)
    ensures SweepHolding(sweeps, id).Some? <==> !Unheld(sweeps, id)
    ensures SweepHolding(sweeps, id).Some? ==> id in t.sweptBy && SweepHolding(sweeps, id).value == t.sweptBy[id]
  {}

  /** Asking for the deposit an account has in flight never traps, and answers with the one
      active deposit of the account. */
  lemma InFlightNeverTraps(b: Book, t: Trace, a: Account)
    requires Agrees(b, t)
    ensures InFlightOf(b, a) != InFlightTrap
    ensures InFlightOf(b, a) == NotInFlight <==> forall id :: !HoldsActive(t, id, a)
    ensures InFlightOf(b, a).Processing? ==>
              HoldsActive(t, InFlightOf(b, a).id, a) && t.stage[InFlightOf(b, a).id] in UNFINISHED
    ensures InFlightOf(b, a).Rejected? ==>
              HoldsActive(t, InFlightOf(b, a).id, a) && t.stage[InFlightOf(b, a).id] == Quarantined
  {
    hide Located, Records, LatestAgree, AllPlans, StatusOf;
    if a in b.inFlightIds {
      var id := b.inFlightIds[a];
      assert HoldsActive(t, id, a);
      StatusAgrees(b, t, id);
    }
  }
}
