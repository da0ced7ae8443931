/** Calls to deposit_sol interleaved across their awaits with each other, with the balance scan of the
    automatic flow across its own await, and with everything else (minter/src/deposit/sweep/mod.rs,
    minter/src/guard/mod.rs; the scan as docs/src/development/design.md describes it). */
module DepositCalls {
  import opened Prelude
  import opened Solana
  import opened Sweeps
  import opened ScanSchedule
  import opened DepositBook
  import opened DepositLifecycle
  import opened Minter
  import opened WithdrawalRecords
  import opened MinterRuns
  import opened Replaying
  import opened Settings

  /** A call that holds the guard of its account and awaits the balance of its address. */
  datatype Call = Call(minimumDepositAmount: Lamport)

  /** `scans` holds the accounts whose balance a scan awaits, with the registration it read. */
  datatype World = World(s: MinterState, h: History, calls: map<Account, Call>, scans: map<Account, Registration>)

  datatype Outcome =
    | AlreadyProcessing
    | TooManyConcurrentRequests
    | AlreadyQueued(id: DepositId)
    | QuarantinedDepositOf(id: DepositId)
    | KeyUnavailable
    | Awaiting
    | Trapped

  /** What a call does before its await. */
  ghost function CallOutcome(s: MinterState, a: Account): Outcome {
    if a in s.depositGuards then AlreadyProcessing
    else if |s.depositGuards| >= MAX_CONCURRENT then TooManyConcurrentRequests
    else match InFlightOf(s.book, a)
      case Processing(id) => AlreadyQueued(id)
      case Rejected(id) => QuarantinedDepositOf(id)
      case InFlightTrap => Trapped
      case NotInFlight => if s.key.None? then KeyUnavailable else Awaiting
  }

  // ---------- the invariant ----------

  ghost predicate CallsAgree(s: MinterState, calls: map<Account, Call>) {
    && s.depositGuards == calls.Keys && |calls| <= MAX_CONCURRENT
    && (forall a | a in calls :: a !in s.book.inFlightIds)
    && (forall a | a in calls :: calls[a].minimumDepositAmount == s.config.minimumDepositAmount)
  }

  /** An account on the watchlist never has a deposit in flight. */
  ghost predicate WatchedIdle(b: Book) {
    forall a | a in b.watchlist :: a !in b.inFlightIds
  }

  ghost predicate Ok(x: World) {
    && Inv(x.s, x.h) && Sound(x.s, x.h)
    && CallsAgree(x.s, x.calls) && WatchedIdle(x.s.book)
    && (x.calls.Keys != {} ==> x.s.key.Some?)
  }

  // ---------- steps ----------

  /** A call takes the guard of its account and awaits the balance. */
  ghost predicate CallStarts(x: World, x': World, a: Account) {
    && CallOutcome(x.s, a) == Awaiting
    && x' == x.(s := x.s.(depositGuards := x.s.depositGuards + {a}),
                calls := x.calls[a := Call(x.s.config.minimumDepositAmount)])
  }

  ghost function Released(s: MinterState, a: Account): MinterState {
    s.(depositGuards := s.depositGuards - {a})
  }

  /** The balance could not be read or is below the minimum: the guard is dropped. */
  ghost predicate CallEnds(x: World, x': World, a: Account) {
    a in x.calls && x' == x.(s := Released(x.s, a), calls := x.calls - {a})
  }

  ghost function ManualDeposit(s: MinterState, a: Account, balance: DepositBalance): QueuedDeposit
    requires s.key.Some?
  {
    QueuedDeposit(a, AccountAddress(s.key.value, a), balance, None)
  }

  /** The balance is at or above the minimum the call has read: the deposit is queued. */
  ghost predicate CallQueues(x: World, x': World, a: Account, balance: Lamport, now: Timestamp) {
    && a in x.calls && x.s.key.Some? && balance >= x.calls[a].minimumDepositAmount && balance >= RENT_EXEMPTION_THRESHOLD
    && var e := QueuedDepositEvent(x.s.book.nextId, ManualDeposit(x.s, a, balance));
       && CanApply(x.s, e)
       && x' == World(Released(Apply(x.s, e, now), a), MinterRuns.After(x.s, x.h, e, now), x.calls - {a}, x.scans)
  }

  /** Before its await, a scan skips the accounts with a call in progress. */
  ghost predicate ScanReads(x: World, x': World, a: Account) {
    && a in x.s.book.watchlist && a !in x.s.depositGuards
    && x' == x.(scans := x.scans[a := x.s.book.watchlist[a]])
  }

  /** What the documented scan checks after its await: the account is still watched under the same
      registration, its window is open, and it has no deposit in flight. */
  ghost predicate StillWatched(x: World, a: Account, now: Timestamp) {
    && a in x.scans && a in x.s.book.watchlist && x.s.book.watchlist[a] == x.scans[a]
    && now <= x.scans[a].validUntil && a !in x.s.book.inFlightIds
  }

  ghost function AutomaticDeposit(s: MinterState, a: Account, balance: DepositBalance): QueuedDeposit
    requires s.key.Some?
  {
    QueuedDeposit(a, AccountAddress(s.key.value, a), balance, s.config.automaticDepositFee)
  }

  /** The documented scan queues a balance at or above the minimum in force, with the fee in force. */
  ghost predicate DocumentedScanQueues(x: World, x': World, a: Account, balance: Lamport, now: Timestamp) {
    && StillWatched(x, a, now) && x.s.key.Some? && x.s.config.automaticDepositFee.Some?
    && balance >= x.s.config.minimumDepositAmount && balance >= RENT_EXEMPTION_THRESHOLD
    && var e := QueuedDepositEvent(x.s.book.nextId, AutomaticDeposit(x.s, a, balance));
       && CanApply(x.s, e)
       && x' == World(Apply(x.s, e, now), MinterRuns.After(x.s, x.h, e, now), x.calls, x.scans - {a})
  }

  /** A scan that also checks the guard again after its await. */
  ghost predicate ScanQueues(x: World, x': World, a: Account, balance: Lamport, now: Timestamp) {
    a !in x.s.depositGuards && DocumentedScanQueues(x, x', a, balance, now)
  }

  /** The balance could not be read or is below the minimum, or the account is skipped. */
  ghost predicate ScanEnds(x: World, x': World, a: Account) {
    x' == x.(scans := x.scans - {a})
  }

  /** An account without a deposit in flight is registered on the watchlist. */
  ghost predicate Registers(x: World, x': World, a: Account, entry: Registration) {
    && InFlightOf(x.s.book, a) == NotInFlight
    && x' == x.(s := x.s.(book := x.s.book.(watchlist := x.s.book.watchlist[a := entry])))
  }

  ghost predicate OtherEvent(x: World, x': World, e: Event, now: Timestamp) {
    && CanApply(x.s, e) && Admissible(x.s, x.h, e) && !e.QueuedDepositEvent? && !e.Upgrade?
    && x' == x.(s := Apply(x.s, e, now), h := MinterRuns.After(x.s, x.h, e, now))
  }

  /** An upgrade loses the calls and the scan; some of the watchlist may be carried over, and parameters
      may change. */
  ghost predicate Upgrades(x: World, x': World, kept: map<Account, Registration>, args: Option<UpgradeArgs>, now: Timestamp) {
    && kept.Keys <= x.s.book.watchlist.Keys
    && var s := With(x.s, Transient({}, {}, {}, kept));
       && (args.Some? ==> CanApply(s, Upgrade(args.value)))
       && x' == World(if args.Some? then Apply(s, Upgrade(args.value), now) else s, x.h, map[], map[])
  }

  // ---------- no step traps ----------

  /** Before its await, a call never traps. */
  lemma StartNeverTraps(x: World, a: Account)
    requires Ok(x)
    ensures CallOutcome(x.s, a) != Trapped
    ensures CallOutcome(x.s, a) == Awaiting ==> a !in x.s.book.inFlightIds
  {
    hide Buckets, Listed, TxsAgree, NoncesAgree, Keyed, Agrees;
    InFlightNeverTraps(x.s.book, x.h.deposits, a);
  }

  /** After its await, a call never violates an assertion of the queue: the guard has kept every
      other call away from the account. */
  lemma QueueNeverTraps(x: World, a: Account, balance: DepositBalance)
    requires Ok(x) && a in x.calls
    ensures x.s.key.Some? && CanApply(x.s, QueuedDepositEvent(x.s.book.nextId, ManualDeposit(x.s, a, balance)))
  {
    hide Inv, Sound;
  }

  /** The balance a call accepts always covers the rent threshold. */
  lemma AcceptedBalanceIsValid(x: World, a: Account, balance: Lamport)
    requires Ok(x) && a in x.calls && balance >= x.calls[a].minimumDepositAmount
    ensures balance >= RENT_EXEMPTION_THRESHOLD
  {
    hide Inv, AllViable, Validate;
    ValidMinimum(x.s.config);
  }

  /** Whatever a call or a scan queues was admitted under the parameters in force: it is at or above the
      minimum, with a fee within the bound. */
  lemma QueuedIsAdmitted(x: World, a: Account, balance: DepositBalance)
    requires Ok(x) && x.s.key.Some?
    ensures a in x.calls && balance >= x.calls[a].minimumDepositAmount ==> Admitted(x.s.config, ManualDeposit(x.s, a, balance))
    ensures x.s.config.automaticDepositFee.Some? && balance >= x.s.config.minimumDepositAmount ==>
              Admitted(x.s.config, AutomaticDeposit(x.s, a, balance))
  {
    hide Inv, AllViable;
  }

  /** The deposit is queued last, under the next id, for the address derived from its account. */
  ghost predicate QueuedLast(b: Book, b': Book, key: SchnorrPublicKey, a: Account, balance: Lamport, fee: Option<Lamport>) {
    && b'.nextId == b.nextId + 1 && b.nextId in b'.queued && b'.queued - {b.nextId} == b.queued - {b.nextId}
    && var d := b'.queued[b.nextId];
       d.account == a && d.address == AccountAddress(key, a) && d.balance == balance && d.depositFee == fee
  }

  lemma EventQueuesLast(s: MinterState, key: SchnorrPublicKey, d: QueuedDeposit, now: Timestamp)
    requires CanApply(s, QueuedDepositEvent(s.book.nextId, d)) && d.address == AccountAddress(key, d.account)
    ensures QueuedLast(s.book, Apply(s, QueuedDepositEvent(s.book.nextId, d), now).book, key, d.account, d.balance, d.depositFee)
  {
    hide AccountAddress;
  }

  /** A call queues what it has read, without a fee. */
  lemma CallQueuesWhatItRead(x: World, x': World, a: Account, balance: Lamport, now: Timestamp)
    requires CallQueues(x, x', a, balance, now)
    ensures QueuedLast(x.s.book, x'.s.book, x.s.key.value, a, balance, None) && x'.calls == x.calls - {a}
  {
    hide MinterRuns.After, CanApply, Apply, QueuedLast, AccountAddress;
    EventQueuesLast(x.s, x.s.key.value, ManualDeposit(x.s, a, balance), now);
  }

  /** A scan queues what it has read, with the automatic fee in force. */
  lemma ScanQueuesWhatItRead(x: World, x': World, a: Account, balance: Lamport, now: Timestamp)
    requires ScanQueues(x, x', a, balance, now)
    ensures QueuedLast(x.s.book, x'.s.book, x.s.key.value, a, balance, x.s.config.automaticDepositFee) && x'.calls == x.calls
  {
    hide MinterRuns.After, CanApply, Apply, QueuedLast, AccountAddress;
    EventQueuesLast(x.s, x.s.key.value, AutomaticDeposit(x.s, a, balance), now);
  }

  /** What a call is answered before its await, or that it goes on. */
  lemma StartAnswers(x: World, a: Account)
    requires Ok(x)
    ensures var r, t := CallOutcome(x.s, a), x.h.deposits;
            && (r == AlreadyProcessing <==> a in x.calls)
            && (r == TooManyConcurrentRequests <==> a !in x.calls && |x.calls| >= 100)
            && (a !in x.calls && |x.calls| < 100 ==>
                  && (forall id :: r == AlreadyQueued(id) <==> HoldsActive(t, id, a) && t.stage[id] != Quarantined)
                  && (forall id :: r == QuarantinedDepositOf(id) <==> HoldsActive(t, id, a) && t.stage[id] == Quarantined)
                  && ((forall id :: !HoldsActive(t, id, a)) ==> r == if x.s.key.None? then KeyUnavailable else Awaiting))
  {
    hide Buckets, Listed, TxsAgree, NoncesAgree, Keyed, Agrees, Sound, InFlightOf, WatchedIdle;
    assert |x.calls.Keys| == |x.calls|;
    InFlightNeverTraps(x.s.book, x.h.deposits, a);
    forall id | HoldsActive(x.h.deposits, id, a)
      ensures InFlightOf(x.s.book, a) == if x.h.deposits.stage[id] == Quarantined then Rejected(id) else Processing(id)
    {
      ActiveIs(x.s.book, x.h.deposits, a, id);
    }
  }

  lemma ActiveIs(b: Book, t: Trace, a: Account, id: DepositId)
    requires Agrees(b, t) && HoldsActive(t, id, a)
    ensures InFlightOf(b, a) == if t.stage[id] == Quarantined then Rejected(id) else Processing(id)
  {
    InFlightNeverTraps(b, t, a);
    hide Numbered, Located, DepositLifecycle.Records, LatestAgree, AllPlans, HoldsActive, StatusOf;
    var f := b.inFlightIds;
    assert a in f && f[a] == id <==> HoldsActive(t, id, a);
    StageOf(b, t, a, id);
  }

  lemma StageOf(b: Book, t: Trace, a: Account, id: DepositId)
    requires Agrees(b, t) && HoldsActive(t, id, a) && a in b.inFlightIds && b.inFlightIds[a] == id
    ensures InFlightOf(b, a) == if t.stage[id] == Quarantined then Rejected(id) else Processing(id)
  {
    hide Located, DepositLifecycle.Records, LatestAgree, AllPlans, InFlightAgree, StatusOf;
    StatusAgrees(b, t, id);
  }

  /** The assertion of the queue fires exactly when the account got a deposit in flight during the
      await. */
  lemma QueueTrapsIff(s: MinterState, a: Account, balance: DepositBalance)
    requires s.key.Some?
    ensures !CanApply(s, QueuedDepositEvent(s.book.nextId, ManualDeposit(s, a, balance))) <==> a in s.book.inFlightIds
  {}

  /** The documented scan makes a call trap when it resumes exactly if it queues a deposit for the
      account of the call: the guard must be checked again after the await of the scan. */
  lemma DocumentedScanTrapsIff(x: World, x': World, a: Account, scanned: Lamport, now: Timestamp, b: Account,
                               balance: DepositBalance)
    requires Ok(x) && DocumentedScanQueues(x, x', a, scanned, now) && b in x.calls
    ensures x'.s.key.Some?
    ensures !CanApply(x'.s, QueuedDepositEvent(x'.s.book.nextId, ManualDeposit(x'.s, b, balance))) <==> b == a
  {
    hide Inv, Sound, WatchedIdle, CanApply, Apply, MinterRuns.After;
    QueueReserves(x.s, AutomaticDeposit(x.s, a, scanned), now);
    QueueTrapsIff(x'.s, b, balance);
  }

  lemma QueueReserves(s: MinterState, d: QueuedDeposit, now: Timestamp)
    requires CanApply(s, QueuedDepositEvent(s.book.nextId, d))
    ensures var s' := Apply(s, QueuedDepositEvent(s.book.nextId, d), now);
            s'.book.inFlightIds.Keys == s.book.inFlightIds.Keys + {d.account} && s'.key == s.key
  {}

  /** And this happens, in every state with a watched account and room for a call: the scan reads the
      registration, the call starts, the scan queues its deposit, and the call traps. */
  lemma ScanThenCallTraps(x: World, a: Account, scanned: Lamport, balance: DepositBalance, now: Timestamp)
    returns (x1: World, x2: World, x3: World)
    requires Ok(x) && x.s.key.Some? && a in x.s.book.watchlist && now <= x.s.book.watchlist[a].validUntil
    requires a !in x.s.depositGuards && |x.s.depositGuards| < MAX_CONCURRENT
    requires x.s.config.automaticDepositFee.Some? && scanned >= x.s.config.minimumDepositAmount
    ensures ScanReads(x, x1, a) && CallStarts(x1, x2, a) && DocumentedScanQueues(x2, x3, a, scanned, now)
    ensures a in x3.calls && x3.s.key.Some?
    ensures !CanApply(x3.s, QueuedDepositEvent(x3.s.book.nextId, ManualDeposit(x3.s, a, balance)))
  {
    hide Inv, AllViable, Validate, CanApply, Apply, MinterRuns.After, CallOutcome, WatchedIdle, DocumentedScanQueues, CallsAgree;
    WatchedIsIdle(x, a);
    x1 := x.(scans := x.scans[a := x.s.book.watchlist[a]]);
    ScansIgnored(x, x1);
    x2 := x1.(s := x1.s.(depositGuards := x1.s.depositGuards + {a}),
              calls := x1.calls[a := Call(x1.s.config.minimumDepositAmount)]);
    StartKeeps(x1, x2, a);
    x3 := ScanCompletes(x2, a, scanned, now);
    DocumentedScanTrapsIff(x2, x3, a, scanned, now, a, balance);
  }

  lemma ScanCompletes(x: World, a: Account, scanned: Lamport, now: Timestamp) returns (x': World)
    requires StillWatched(x, a, now) && x.s.key.Some? && x.s.config.automaticDepositFee.Some?
    requires Validate(x.s.config) == None && scanned >= x.s.config.minimumDepositAmount
    ensures DocumentedScanQueues(x, x', a, scanned, now) && x'.calls == x.calls
  {
    hide Validate, CanApply, Apply, MinterRuns.After;
    ValidMinimum(x.s.config);
    var d := AutomaticDeposit(x.s, a, scanned);
    NextCanQueue(x.s, d);
    var e := QueuedDepositEvent(x.s.book.nextId, d);
    x' := World(Apply(x.s, e, now), MinterRuns.After(x.s, x.h, e, now), x.calls, x.scans - {a});
  }

  lemma WatchedIsIdle(x: World, a: Account)
    requires Ok(x) && a in x.s.book.watchlist && x.s.key.Some?
    requires a !in x.s.depositGuards && |x.s.depositGuards| < MAX_CONCURRENT
    ensures CallOutcome(x.s, a) == Awaiting && a !in x.s.book.inFlightIds
  {
    hide Inv, Sound;
  }

  lemma NextCanQueue(s: MinterState, d: QueuedDeposit)
    requires d.account !in s.book.inFlightIds
    ensures CanApply(s, QueuedDepositEvent(s.book.nextId, d))
  {}

  // ---------- every step keeps the invariant ----------

  lemma TransientInv(s: MinterState, h: History, t: Transient)
    requires Inv(s, h)
    ensures Inv(With(s, t), h)
  {
    hide Agrees, Listed, Keyed, KeysAt, UnsentRecorded, SentRecorded, Occupied, NoncesSeen, SweepsTracked, Apart, Witnessed;
    WatchlistIgnored(s.book, h.deposits, t.watchlist);
  }

  lemma TransientOk(s: MinterState, s': MinterState, h: History)
    requires Inv(s, h) && Sound(s, h) && s' == With(s, TransientOf(s'))
    ensures Inv(s', h) && Sound(s', h)
  {
    hide Inv, Validate, AllViable;
    TransientInv(s, h, TransientOf(s'));
  }

  lemma WatchlistIgnored(b: Book, t: Trace, watchlist: map<Account, Registration>)
    requires Agrees(b, t)
    ensures Agrees(b.(watchlist := watchlist), t)
  {
    hide Numbered, KeysIn, InFlightAgree, LatestAgree, AllPlans, QueuedRecorded, SweepsRecorded, PendingRecorded, MintedRecorded,
         DroppedRecorded, QuarantinedRecorded;
  }

  lemma StartKeeps(x: World, x': World, a: Account)
    requires Ok(x) && CallStarts(x, x', a)
    ensures Ok(x')
  {
    hide Inv, Sound, CallOutcome;
    StartNeverTraps(x, a);
    AwaitingMeans(x.s, a);
    TransientOk(x.s, x'.s, x.h);
    CallAdded(x.calls, a, Call(x.s.config.minimumDepositAmount));
  }

  lemma AwaitingMeans(s: MinterState, a: Account)
    requires CallOutcome(s, a) == Awaiting
    ensures a !in s.depositGuards && |s.depositGuards| < MAX_CONCURRENT && s.key.Some?
  {
    hide InFlightOf;
  }

  lemma CallAdded(calls: map<Account, Call>, a: Account, call: Call)
    requires a !in calls
    ensures |calls[a := call]| == |calls| + 1 && calls[a := call].Keys == calls.Keys + {a}
    ensures |calls| == |calls.Keys|
  {
    assert calls[a := call].Keys == calls.Keys + {a};
  }

  lemma ValidMinimum(c: Config)
    requires Validate(c) == None
    ensures c.minimumDepositAmount >= RENT_EXEMPTION_THRESHOLD
  {}

  lemma EndKeeps(x: World, x': World, a: Account)
    requires Ok(x) && CallEnds(x, x', a)
    ensures Ok(x')
  {
    hide Inv, Sound;
    TransientOk(x.s, x'.s, x.h);
    CallDropped(x.calls, a);
  }

  lemma CallDropped(calls: map<Account, Call>, a: Account)
    requires a in calls
    ensures |calls - {a}| == |calls| - 1 && (calls - {a}).Keys == calls.Keys - {a}
  {
    CardRemove(calls, a);
  }

  /** What a queued deposit does to the parts the calls look at. */
  lemma QueueEffect(s: MinterState, id: DepositId, d: QueuedDeposit, now: Timestamp)
    requires CanApply(s, QueuedDepositEvent(id, d)) && WatchedIdle(s.book)
    ensures var s' := Apply(s, QueuedDepositEvent(id, d), now);
            && s'.book.inFlightIds.Keys == s.book.inFlightIds.Keys + {d.account} && WatchedIdle(s'.book)
            && s'.depositGuards == s.depositGuards && s'.config == s.config && s'.key == s.key
  {}

  lemma CallQueueKeeps(x: World, x': World, a: Account, balance: Lamport, now: Timestamp)
    requires Ok(x) && CallQueues(x, x', a, balance, now)
    ensures Ok(x') && a !in x'.calls
  {
    hide Inv, CanApply, Apply, MinterRuns.After, Sound, WatchedIdle;
    var d := ManualDeposit(x.s, a, balance);
    var e := QueuedDepositEvent(x.s.book.nextId, d);
    EventKeeps(x.s, x.h, e, now);
    QueuedIsAdmitted(x, a, balance);
    EventKeepsSound(x.s, x.h, e, now);
    QueueEffect(x.s, x.s.book.nextId, d, now);
    ReleaseKeeps(Apply(x.s, e, now), x'.h, a);
    CallDropped(x.calls, a);
  }

  lemma ReleaseKeeps(s: MinterState, h: History, a: Account)
    requires Inv(s, h) && Sound(s, h)
    ensures Inv(Released(s, a), h) && Sound(Released(s, a), h) && (WatchedIdle(s.book) ==> WatchedIdle(Released(s, a).book))
  {
    hide Inv, Sound, WatchedIdle;
    TransientOk(s, Released(s, a), h);
  }

  lemma ScanKeeps(x: World, x': World, a: Account, balance: Lamport, now: Timestamp)
    requires Ok(x) && ScanQueues(x, x', a, balance, now)
    ensures Ok(x')
  {
    hide Inv, CanApply, Apply, MinterRuns.After, Sound, WatchedIdle;
    var d := AutomaticDeposit(x.s, a, balance);
    EventKeeps(x.s, x.h, QueuedDepositEvent(x.s.book.nextId, d), now);
    QueuedIsAdmitted(x, a, balance);
    EventKeepsSound(x.s, x.h, QueuedDepositEvent(x.s.book.nextId, d), now);
    QueueEffect(x.s, x.s.book.nextId, d, now);
  }

  lemma RegisterKeeps(x: World, x': World, a: Account, entry: Registration)
    requires Ok(x) && Registers(x, x', a, entry)
    ensures Ok(x')
  {
    hide Inv, Sound, StatusOf;
    TransientOk(x.s, x'.s, x.h);
  }

  lemma UpgradeKeeps(x: World, x': World, kept: map<Account, Registration>, args: Option<UpgradeArgs>, now: Timestamp)
    requires Ok(x) && Upgrades(x, x', kept, args, now)
    ensures Ok(x')
  {
    hide Inv, Sound, CanUpgrade, Upgraded;
    var s := With(x.s, Transient({}, {}, {}, kept));
    TransientOk(x.s, s, x.h);
    if args.Some? {
      EventKeeps(s, x.h, Upgrade(args.value), now);
      EventKeepsSound(s, x.h, Upgrade(args.value), now);
      UpgradeLeaves(s, args.value);
    }
    NoCalls(x'.s);
  }

  lemma UpgradeLeaves(s: MinterState, a: UpgradeArgs)
    requires CanUpgrade(s, a)
    ensures var s' := Upgraded(s, a);
            s'.book == s.book && s'.depositGuards == s.depositGuards && s'.key == s.key
  {
    hide Validate, Reconfigured;
  }

  lemma NoCalls(s: MinterState)
    requires s.depositGuards == {}
    ensures CallsAgree(s, map[])
  {
    var none: map<Account, Call> := map[];
    assert |none| == 0;
  }

  // ---------- the other events ----------

  /** Only a queued deposit reserves an account; no event touches guards or registers an account. */
  ghost predicate Untouched(s: MinterState, s': MinterState) {
    && s'.book.inFlightIds.Keys <= s.book.inFlightIds.Keys && s'.book.watchlist == s.book.watchlist
    && s'.depositGuards == s.depositGuards && (s.key.Some? ==> s'.key == s.key)
    && s'.config == s.config
  }

  lemma BookUntouched(b: Book, sig: Signature)
    ensures CanFinalize(b, sig) ==> Finalize(b, sig).inFlightIds == b.inFlightIds && Finalize(b, sig).watchlist == b.watchlist
    ensures CanDropSwept(b, sig) ==>
              DropSwept(b, sig).inFlightIds.Keys <= b.inFlightIds.Keys && DropSwept(b, sig).watchlist == b.watchlist
  {
    hide Unheld, HoldsAccount, DroppedOf, AccountsOf;
  }

  lemma EventUntouched(s: MinterState, e: Event, now: Timestamp)
    requires CanApply(s, e) && !e.QueuedDepositEvent? && !e.Upgrade?
    ensures Untouched(s, Apply(s, e, now))
  {
    hide CanSubmit, CanSucceed, CanFail, CanCreditSweep, CanCreate, CanSweep, CanFinalize, CanDropSwept, Submitted, Succeeded,
         FailedBy, Finalize, DropSwept, DepositFees, PendingOf, UnreadableOf, CostOf, Validate, PickedRequests, PlanOf, Picked;
    match e
    case SubmittedTransaction(sig, message, signers, purpose) => SubmittedParts(s, sig, message, signers, purpose, now);
    case SucceededTransaction(sig) =>
      SucceededParts(s, sig);
      BookUntouched(s.book, sig);
    case FailedTransaction(sig) =>
      FailedParts(s, sig);
      BookUntouched(s.book, sig);
    case ExpiredTransaction(sig) => BookUntouched(s.book, sig);
    case _ =>
  }

  lemma OtherKeeps(x: World, x': World, e: Event, now: Timestamp)
    requires Ok(x) && OtherEvent(x, x', e, now)
    ensures Ok(x')
  {
    hide Inv, CanApply, Apply, MinterRuns.After, Admissible, Sound;
    EventKeeps(x.s, x.h, e, now);
    EventKeepsSound(x.s, x.h, e, now);
    EventUntouched(x.s, e, now);
  }

  // ---------- runs ----------

  datatype Step =
    | StartCall(account: Account)
    | EndCall(account: Account)
    | QueueFromCall(account: Account, balance: Lamport, now: Timestamp)
    | ReadByScan(account: Account)
    | QueueFromScan(account: Account, balance: Lamport, now: Timestamp)
    | EndScan(account: Account)
    | Register(account: Account, entry: Registration)
    | Other(event: Event, now: Timestamp)
    | UpgradeTo(kept: map<Account, Registration>, args: Option<UpgradeArgs>, now: Timestamp)

  ghost predicate Takes(x: World, step: Step, x': World) {
    match step
    case StartCall(a) => CallStarts(x, x', a)
    case EndCall(a) => CallEnds(x, x', a)
    case QueueFromCall(a, balance, now) => CallQueues(x, x', a, balance, now)
    case ReadByScan(a) => ScanReads(x, x', a)
    case QueueFromScan(a, balance, now) => ScanQueues(x, x', a, balance, now)
    case EndScan(a) => ScanEnds(x, x', a)
    case Register(a, entry) => Registers(x, x', a, entry)
    case Other(e, now) => OtherEvent(x, x', e, now)
    case UpgradeTo(kept, args, now) => Upgrades(x, x', kept, args, now)
  }

  lemma ScansIgnored(x: World, x': World)
    requires Ok(x) && x' == x.(scans := x'.scans)
    ensures Ok(x')
  {
    hide Inv, Sound;
  }

  lemma StepKeeps(x: World, step: Step, x': World)
    requires Ok(x) && Takes(x, step, x')
    ensures Ok(x')
  {
    hide Ok, CallStarts, CallEnds, CallQueues, ScanQueues, Registers, OtherEvent, Upgrades;
    match step
    case StartCall(a) => StartKeeps(x, x', a);
    case EndCall(a) => EndKeeps(x, x', a);
    case QueueFromCall(a, balance, now) => CallQueueKeeps(x, x', a, balance, now);
    case ReadByScan(_) => ScansIgnored(x, x');
    case QueueFromScan(a, balance, now) => ScanKeeps(x, x', a, balance, now);
    case EndScan(_) => ScansIgnored(x, x');
    case Register(a, entry) => RegisterKeeps(x, x', a, entry);
    case Other(e, now) => OtherKeeps(x, x', e, now);
    case UpgradeTo(kept, args, now) => UpgradeKeeps(x, x', kept, args, now);
  }

  ghost predicate Starts(x: World, a: InitArgs) {
    CanInit(a) && x == World(InitialState(a), EMPTY_HISTORY, map[], map[])
  }

  ghost predicate CallRun(run: seq<World>, steps: seq<Step>) {
    && |run| == |steps| + 1 && (exists a :: Starts(run[0], a))
    && forall i | 0 <= i < |steps| :: Takes(run[i], steps[i], run[i + 1])
  }

  lemma {:induction false} RunKeeps(run: seq<World>, steps: seq<Step>, i: nat)
    requires CallRun(run, steps) && i < |run|
    ensures Ok(run[i])
  {
    hide Ok, Takes, Starts;
    if i == 0 {
      var a :| Starts(run[0], a);
      StartsKeeps(run[0], a);
    } else {
      RunKeeps(run, steps, i - 1);
      StepKeeps(run[i - 1], steps[i - 1], run[i]);
    }
  }

  lemma StartsKeeps(x: World, a: InitArgs)
    requires Starts(x, a)
    ensures Ok(x)
  {
    hide Inv, Sound;
    InitialInv(a);
    InitialSound(a);
  }

  /** In every interleaving, at most a hundred calls hold a guard, a call that resumes can always
      queue its deposit, no account has two deposits in flight, a watched account has none, and every
      deposit ever queued is viable: it can be swept and mints at least one lamport. */
  lemma InterleavingsAreSafe(run: seq<World>, steps: seq<Step>, n: nat)
    requires CallRun(run, steps) && n < |run|
    ensures |run[n].s.depositGuards| <= MAX_CONCURRENT
    ensures forall a, balance: DepositBalance | a in run[n].calls ::
              run[n].s.key.Some? &&
              CanApply(run[n].s, QueuedDepositEvent(run[n].s.book.nextId, ManualDeposit(run[n].s, a, balance)))
    ensures forall a, id, id' | HoldsActive(run[n].h.deposits, id, a) && HoldsActive(run[n].h.deposits, id', a) :: id == id'
    ensures forall a | a in run[n].s.book.watchlist :: a !in run[n].s.book.inFlightIds
    ensures AllViable(run[n].h.deposits.origin)
  {
    hide CallRun, CanApply, Inv, Validate, AllViable;
    RunKeeps(run, steps, n);
    var x := run[n];
    assert |x.calls.Keys| == |x.calls|;
    forall a, balance: DepositBalance | a in x.calls
      ensures x.s.key.Some? && CanApply(x.s, QueuedDepositEvent(x.s.book.nextId, ManualDeposit(x.s, a, balance)))
    {
      QueueNeverTraps(x, a, balance);
    }
    forall a, id, id' | HoldsActive(x.h.deposits, id, a) && HoldsActive(x.h.deposits, id', a) ensures id == id' {
      OneInFlight(x.s, x.h, a, id, id');
    }
  }

  lemma OneInFlight(s: MinterState, h: History, a: Account, id: DepositId, id': DepositId)
    requires Inv(s, h) && HoldsActive(h.deposits, id, a) && HoldsActive(h.deposits, id', a)
    ensures id == id'
  {
    hide Buckets, Listed, TxsAgree, NoncesAgree, Keyed, Numbered, Located, DepositLifecycle.Records, LatestAgree, AllPlans, HoldsActive;
    var f := s.book.inFlightIds;
    assert a in f && f[a] == id <==> HoldsActive(h.deposits, id, a);
    assert a in f && f[a] == id' <==> HoldsActive(h.deposits, id', a);
  }
}
