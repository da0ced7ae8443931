/** Calls to withdraw_sol interleaved across the await of their burn with each other and with
    everything else (minter/src/withdraw/mod.rs, minter/src/guard/mod.rs, minter/src/lifecycle.rs). */
module WithdrawCalls {
  import opened Prelude
  import opened Solana
  import opened NoncePool
  import opened ScanSchedule
  import opened Sweeps
  import opened DepositBook
  import opened DepositLifecycle
  import opened Minter
  import opened WithdrawalRecords
  import opened MinterRuns
  import opened Replaying
  import opened Solvency
  import DepositCalls

  /** A call that holds the guard of its account and awaits the ledger; the burn index once the
      ledger has burned, and the configuration the call has read. */
  datatype Call = Call(amount: Lamport, destination: Address, burn: Option<BurnIndex>, config: Config)

  /** A burn on the ledger: the account, the amount, and the destination its memo names. */
  datatype Burn = Burn(account: Account, amount: Lamport, destination: Address)

  /** What became of a burn: its call is still to resume, it is recorded, or its call has ended
      without recording it. */
  datatype Fate = InCall(account: Account) | Recorded | Lost

  /** `late` holds what calls that have ended asked for: the ledger may still execute it, at any time
      and, as far as the model cares, any number of times. */
  datatype World = World(s: MinterState, h: History, calls: map<Account, Call>, ledger: map<BurnIndex, Burn>,
                         fate: map<BurnIndex, Fate>, late: set<Burn>, reserved: set<Address>)

  datatype Outcome =
    | ValueTooSmall(minimum: Lamport)
    | MalformedAddress
    | ReservedDestination
    | NonceAccountDestination
    | KeyUnavailable
    | MainAddressDestination
    | PoolEmpty
    | AlreadyProcessing
    | TooManyConcurrentRequests
    | Awaiting(destination: Address)

  /** What a call does before its await; the destination is None when it does not parse. */
  function CallOutcome(s: MinterState, reserved: set<Address>, a: Account, amount: Lamport, text: Option<Address>): Outcome {
    if amount < s.config.minimumWithdrawalAmount then ValueTooSmall(s.config.minimumWithdrawalAmount)
    else if text.None? then MalformedAddress
    else if text.value in reserved then ReservedDestination
    else if text.value in s.pool then NonceAccountDestination
    else if s.key.None? then KeyUnavailable
    else if text.value == MinterAddress(s.key.value) then MainAddressDestination
    else if s.pool.Keys == {} then PoolEmpty
    else if a in s.withdrawalGuards then AlreadyProcessing
    else if |s.withdrawalGuards| >= MAX_CONCURRENT then TooManyConcurrentRequests
    else Awaiting(text.value)
  }

  /** The nine checks before the await, in the order they are made. */
  ghost predicate Passes(s: MinterState, reserved: set<Address>, a: Account, amount: Lamport, text: Option<Address>, k: nat) {
    match k
    case 0 => amount >= s.config.minimumWithdrawalAmount
    case 1 => text.Some?
    case 2 => text.Some? ==> text.value !in reserved
    case 3 => text.Some? ==> text.value !in s.pool
    case 4 => s.key.Some?
    case 5 => s.key.Some? ==> text != Some(MinterAddress(s.key.value))
    case 6 => s.pool.Keys != {}
    case 7 => a !in s.withdrawalGuards
    case 8 => |s.withdrawalGuards| < 100
    case _ => true
  }

  ghost predicate PassesBelow(s: MinterState, reserved: set<Address>, a: Account, amount: Lamport, text: Option<Address>, k: nat) {
    k == 0 || (PassesBelow(s, reserved, a, amount, text, k - 1) && Passes(s, reserved, a, amount, text, k - 1))
  }

  function AnswerAt(s: MinterState, k: nat): Outcome {
    match k
    case 0 => ValueTooSmall(s.config.minimumWithdrawalAmount)
    case 1 => MalformedAddress
    case 2 => ReservedDestination
    case 3 => NonceAccountDestination
    case 4 => KeyUnavailable
    case 5 => MainAddressDestination
    case 6 => PoolEmpty
    case 7 => AlreadyProcessing
    case _ => TooManyConcurrentRequests
  }

  /** A call goes on exactly when it passes every check, and is otherwise answered for the first one it
      does not pass. */
  lemma CallAnswers(s: MinterState, reserved: set<Address>, a: Account, amount: Lamport, text: Option<Address>)
    ensures var r := CallOutcome(s, reserved, a, amount, text);
            && (forall d :: r == Awaiting(d) <==> PassesBelow(s, reserved, a, amount, text, 9) && text == Some(d))
            && (forall k: nat | k < 9 ::
                  r == AnswerAt(s, k) <==>
                    PassesBelow(s, reserved, a, amount, text, k) && !Passes(s, reserved, a, amount, text, k))
  {
    ChecksUnfold(s, reserved, a, amount, text);
    forall k: nat | k < 9
      ensures CallOutcome(s, reserved, a, amount, text) == AnswerAt(s, k) <==>
                PassesBelow(s, reserved, a, amount, text, k) && !Passes(s, reserved, a, amount, text, k)
    {
      if k == 0 {
      } else if k == 1 {
      } else if k == 2 {
      } else if k == 3 {
      } else if k == 4 {
      } else if k == 5 {
      } else if k == 6 {
      } else if k == 7 {
      } else {
        assert k == 8;
      }
    }
  }

  lemma ChecksUnfold(s: MinterState, reserved: set<Address>, a: Account, amount: Lamport, text: Option<Address>)
    ensures forall k: nat | k < 9 ::
              PassesBelow(s, reserved, a, amount, text, k + 1) <==>
                PassesBelow(s, reserved, a, amount, text, k) && Passes(s, reserved, a, amount, text, k)
    ensures PassesBelow(s, reserved, a, amount, text, 0)
    ensures PassesBelow(s, reserved, a, amount, text, 3) <==> forall k | 0 <= k < 3 :: Passes(s, reserved, a, amount, text, k)
    ensures PassesBelow(s, reserved, a, amount, text, 6) <==> forall k | 0 <= k < 6 :: Passes(s, reserved, a, amount, text, k)
    ensures PassesBelow(s, reserved, a, amount, text, 9) <==> forall k | 0 <= k < 9 :: Passes(s, reserved, a, amount, text, k)
  {
    forall n: nat ensures PassesBelow(s, reserved, a, amount, text, n) <==>
                          forall k | 0 <= k < n :: Passes(s, reserved, a, amount, text, k) {
      BelowAll(s, reserved, a, amount, text, n);
    }
  }

  lemma {:induction false} BelowAll(s: MinterState, reserved: set<Address>, a: Account, amount: Lamport, text: Option<Address>, n: nat)
    ensures PassesBelow(s, reserved, a, amount, text, n) <==> forall k | 0 <= k < n :: Passes(s, reserved, a, amount, text, k)
  {
    if n > 0 {
      BelowAll(s, reserved, a, amount, text, n - 1);
    }
  }

  /** The request a call records when it resumes: the fee is read after the await. */
  function RequestOf(s: MinterState, a: Account, c: Call): WithdrawalRequest
    requires c.burn.Some? && c.amount >= s.config.withdrawalFee
  {
    WithdrawalRequest(a, c.destination, c.burn.value, burnedAmount := c.amount,
                      amountToTransfer := c.amount - s.config.withdrawalFee)
  }

  // ---------- the invariant ----------

  ghost predicate Incomplete(st: WithdrawalStage) {
    st.IsPending? || st.IsCreated? || st.IsSent?
  }

  /** Neither reserved by the runtime nor the main address of the minter. */
  ghost predicate Foreign(s: MinterState, reserved: set<Address>, destination: Address) {
    destination !in reserved && s.key.Some? && destination != MinterAddress(s.key.value)
  }

  ghost predicate CallOk(s: MinterState, reserved: set<Address>, c: Call) {
    && c.config == s.config && c.amount >= s.config.minimumWithdrawalAmount
    && Foreign(s, reserved, c.destination) && c.destination !in s.pool && s.pool.Keys != {}
  }

  ghost predicate CallsOk(s: MinterState, reserved: set<Address>, calls: map<Account, Call>) {
    && s.withdrawalGuards == calls.Keys && |calls| <= MAX_CONCURRENT
    && forall a | a in calls :: CallOk(s, reserved, calls[a])
  }

  /** A request pays at least the rent threshold to an address that is not the minter's own; an
      incomplete one does not pay to a nonce account. */
  ghost predicate RequestOk(s: MinterState, reserved: set<Address>, w: Withdrawal) {
    && Foreign(s, reserved, w.request.solanaAddress)
    && (Incomplete(w.stage) ==> w.request.solanaAddress !in s.pool)
    && RENT_EXEMPTION_THRESHOLD <= w.request.amountToTransfer <= w.request.burnedAmount
  }

  ghost predicate RequestsOk(s: MinterState, reserved: set<Address>, w: Withdrawals) {
    forall i | i in w :: RequestOk(s, reserved, w[i])
  }

  ghost predicate RecordedBurn(x: World, i: BurnIndex, r: WithdrawalRequest) {
    i in x.ledger && i in x.fate && x.fate[i] == Recorded && x.ledger[i] == Burn(r.account, r.burnedAmount, r.solanaAddress)
  }

  ghost predicate HeldBurn(x: World, i: BurnIndex, a: Account, c: Call) {
    i in x.ledger && i in x.fate && x.fate[i] == InCall(a) && x.ledger[i] == Burn(a, c.amount, c.destination)
  }

  /** Every burn is recorded, held by one call, or lost; the records and the calls say what the
      ledger burned. */
  ghost predicate BurnsOk(x: World) {
    && x.ledger.Keys == x.fate.Keys
    && (forall i | i in x.h.withdrawals :: RecordedBurn(x, i, x.h.withdrawals[i].request))
    && (forall i | i in x.fate && x.fate[i] == Recorded :: i in x.h.withdrawals)
    && (forall a | a in x.calls && x.calls[a].burn.Some? :: HeldBurn(x, x.calls[a].burn.value, a, x.calls[a]))
    && (forall i | i in x.fate && x.fate[i].InCall? :: x.fate[i].account in x.calls && x.calls[x.fate[i].account].burn == Some(i))
  }

  ghost predicate Ok(x: World) {
    && Inv(x.s, x.h) && Validate(x.s.config) == None
    && CallsOk(x.s, x.reserved, x.calls) && RequestsOk(x.s, x.reserved, x.h.withdrawals) && BurnsOk(x)
  }

  // ---------- steps ----------

  ghost predicate CallStarts(x: World, x': World, a: Account, amount: Lamport, text: Option<Address>) {
    && CallOutcome(x.s, x.reserved, a, amount, text).Awaiting?
    && x' == x.(s := x.s.(withdrawalGuards := x.s.withdrawalGuards + {a}),
                calls := x.calls[a := Call(amount, CallOutcome(x.s, x.reserved, a, amount, text).destination, None, x.s.config)])
  }

  /** The ledger burns, at an index not used before. */
  ghost predicate LedgerBurns(x: World, x': World, a: Account, i: BurnIndex) {
    && a in x.calls && x.calls[a].burn.None? && i !in x.ledger
    && x' == x.(calls := x.calls[a := x.calls[a].(burn := Some(i))],
                ledger := x.ledger[i := Burn(a, x.calls[a].amount, x.calls[a].destination)],
                fate := x.fate[i := InCall(a)])
  }

  ghost function Released(s: MinterState, a: Account): MinterState {
    s.(withdrawalGuards := s.withdrawalGuards - {a})
  }

  /** The ledger answered that it did not burn: the guard is dropped. */
  ghost predicate CallRefused(x: World, x': World, a: Account) {
    && a in x.calls && x.calls[a].burn.None?
    && x' == x.(s := Released(x.s, a), calls := x.calls - {a})
  }

  ghost function Asked(calls: map<Account, Call>): set<Burn> {
    set a | a in calls && calls[a].burn.None? :: Burn(a, calls[a].amount, calls[a].destination)
  }

  /** The call to the ledger fails without an answer, before the ledger executes it or after: the
      guard is dropped and nothing is recorded. */
  ghost predicate CallErrs(x: World, x': World, a: Account) {
    && a in x.calls
    && x' == x.(s := Released(x.s, a), calls := x.calls - {a},
                fate := if x.calls[a].burn.Some? then x.fate[x.calls[a].burn.value := Lost] else x.fate,
                late := x.late + Asked(map[a := x.calls[a]]))
  }

  /** The ledger executes what a call asked for that has ended. */
  ghost predicate LedgerBurnsLate(x: World, x': World, b: Burn, i: BurnIndex) {
    b in x.late && i !in x.ledger && x' == x.(ledger := x.ledger[i := b], fate := x.fate[i := Lost])
  }

  /** The call resumes with the index of its burn and records the request. */
  ghost predicate CallRecords(x: World, x': World, a: Account, now: Timestamp) {
    && a in x.calls && x.calls[a].burn.Some? && x.calls[a].amount >= x.s.config.withdrawalFee
    && var e := AcceptedWithdrawalRequest(RequestOf(x.s, a, x.calls[a]));
       && CanApply(x.s, e)
       && x' == x.(s := Released(Apply(x.s, e, now), a), h := MinterRuns.After(x.s, x.h, e, now),
                   calls := x.calls - {a}, fate := x.fate[x.calls[a].burn.value := Recorded])
  }

  ghost predicate OtherEvent(x: World, x': World, e: Event, now: Timestamp) {
    && CanApply(x.s, e) && Admissible(x.s, x.h, e) && !e.AcceptedWithdrawalRequest? && !e.Upgrade?
    && x' == x.(s := Apply(x.s, e, now), h := MinterRuns.After(x.s, x.h, e, now))
  }

  /** An upgrade replays the log, which loses the calls, and may change settings and pool. */
  ghost predicate Upgrades(x: World, x': World, args: Option<UpgradeArgs>, now: Timestamp) {
    && (args.Some? ==> CanApply(Erase(x.s), Upgrade(args.value)))
    && x' == x.(s := if args.Some? then Apply(Erase(x.s), Upgrade(args.value), now) else Erase(x.s),
                calls := map[], fate := Abandoned(x.fate), late := x.late + Asked(x.calls))
  }

  ghost function Abandoned(fate: map<BurnIndex, Fate>): map<BurnIndex, Fate> {
    map i | i in fate :: if fate[i].InCall? then Lost else fate[i]
  }

  // ---------- no step traps ----------

  /** The fee was already covered by the amount when the call started, and only an upgrade, which
      loses the call, changes it. */
  lemma AmountCoversFee(s: MinterState, reserved: set<Address>, c: Call)
    requires Validate(s.config) == None && CallOk(s, reserved, c)
    ensures c.amount >= c.config.withdrawalFee + RENT_EXEMPTION_THRESHOLD && c.config.withdrawalFee == s.config.withdrawalFee
  {}

  /** A call that resumes never traps: neither on the fee nor on the burn index. */
  lemma ResumeNeverTraps(x: World, a: Account)
    requires Ok(x) && a in x.calls && x.calls[a].burn.Some?
    ensures x.calls[a].amount >= x.s.config.withdrawalFee
    ensures var e := AcceptedWithdrawalRequest(RequestOf(x.s, a, x.calls[a]));
            CanApply(x.s, e) && Admissible(x.s, x.h, e)
  {
    hide Agrees, Listed, TxsAgree, NoncesAgree, Keyed, Validate, UnsentRecorded, SentRecorded, RequestsOk, Foreign;
    AmountCoversFee(x.s, x.reserved, x.calls[a]);
    assert HeldBurn(x, x.calls[a].burn.value, a, x.calls[a]);
    assert x.calls[a].burn.value !in x.h.withdrawals;
  }

  /** A recorded request leaves the cost of a transaction to the minter exactly when the fee in
      force covers it. */
  lemma RequestKeepsFeeIff(s: MinterState, a: Account, c: Call)
    requires c.burn.Some? && c.amount >= s.config.withdrawalFee
    ensures KeepsFee(RequestOf(s, a, c)) <==> s.config.withdrawalFee >= BATCH_WITHDRAWAL_TX_FEE
  {}

  // ---------- every step keeps the invariant ----------

  lemma OtherTransient(s: MinterState, s': MinterState, h: History)
    requires Inv(s, h) && s' == With(s, TransientOf(s'))
    ensures Inv(s', h)
  {
    DepositCalls.TransientInv(s, h, TransientOf(s'));
  }

  lemma StartKeeps(x: World, x': World, a: Account, amount: Lamport, text: Option<Address>)
    requires Ok(x) && CallStarts(x, x', a, amount, text)
    ensures Ok(x')
  {
    hide Inv, Validate, CallsOk, RequestsOk, BurnsOk, Foreign;
    OtherTransient(x.s, x'.s, x.h);
    assert a !in x.s.withdrawalGuards ==> a !in x.calls by { GuardsAre(x.s, x.reserved, x.calls); }
    AwaitingMeans(x.s, x.reserved, a, amount, text);
    CallsWith(x, x', a);
    SameRequests(x, x');
    BurnsFrame(x, x');
  }

  lemma AwaitingMeans(s: MinterState, reserved: set<Address>, a: Account, amount: Lamport, text: Option<Address>)
    requires CallOutcome(s, reserved, a, amount, text).Awaiting?
    ensures var d := CallOutcome(s, reserved, a, amount, text).destination;
            && amount >= s.config.minimumWithdrawalAmount && Foreign(s, reserved, d) && d !in s.pool && s.pool.Keys != {}
            && a !in s.withdrawalGuards && |s.withdrawalGuards| < MAX_CONCURRENT
  {}

  lemma CallsWith(x: World, x': World, a: Account)
    requires CallsOk(x.s, x.reserved, x.calls) && a !in x.calls && |x.s.withdrawalGuards| < MAX_CONCURRENT
    requires a in x'.calls && x'.calls == x.calls[a := x'.calls[a]] && CallOk(x.s, x.reserved, x'.calls[a])
    requires x'.s == x.s.(withdrawalGuards := x.s.withdrawalGuards + {a}) && x'.reserved == x.reserved
    ensures CallsOk(x'.s, x'.reserved, x'.calls)
  {
    assert |x.calls.Keys| == |x.calls|;
    CardAdd(x.calls, a, x'.calls[a]);
    assert forall b | b in x'.calls :: CallOk(x.s, x.reserved, x'.calls[b]);
  }

  /** Guards do not matter to the requests. */
  lemma SameRequests(x: World, x': World)
    requires RequestsOk(x.s, x.reserved, x.h.withdrawals) && x'.reserved == x.reserved && x'.h == x.h
    requires x'.s.key == x.s.key && x'.s.pool == x.s.pool
    ensures RequestsOk(x'.s, x'.reserved, x'.h.withdrawals)
  {
    forall i | i in x'.h.withdrawals ensures RequestOk(x'.s, x'.reserved, x'.h.withdrawals[i]) {
      assert RequestOk(x.s, x.reserved, x.h.withdrawals[i]);
    }
  }

  /** Calls without a burn do not matter to the burns. */
  lemma BurnsFrame(x: World, x': World)
    requires BurnsOk(x) && x'.ledger == x.ledger && x'.fate == x.fate && x'.h == x.h
    requires forall a :: Awaited(x', a) <==> Awaited(x, a)
    requires forall a | Awaited(x, a) :: a in x'.calls && x'.calls[a] == x.calls[a]
    ensures BurnsOk(x')
  {
    forall a | a in x'.calls && x'.calls[a].burn.Some? ensures HeldBurn(x', x'.calls[a].burn.value, a, x'.calls[a]) {
      assert Awaited(x', a);
      assert HeldBurn(x, x.calls[a].burn.value, a, x.calls[a]);
    }
    forall i | i in x'.h.withdrawals ensures RecordedBurn(x', i, x'.h.withdrawals[i].request) {
      assert RecordedBurn(x, i, x.h.withdrawals[i].request);
    }
    forall i | i in x'.fate && x'.fate[i].InCall?
      ensures x'.fate[i].account in x'.calls && x'.calls[x'.fate[i].account].burn == Some(i)
    {
      assert Awaited(x, x.fate[i].account);
    }
  }

  lemma GuardsAre(s: MinterState, reserved: set<Address>, calls: map<Account, Call>)
    requires CallsOk(s, reserved, calls)
    ensures s.withdrawalGuards == calls.Keys
  {}

  lemma CardAdd(calls: map<Account, Call>, a: Account, c: Call)
    requires a !in calls
    ensures |calls[a := c]| == |calls| + 1
  {
    assert calls[a := c].Keys == calls.Keys + {a};
  }

  lemma BurnKeeps(x: World, x': World, a: Account, i: BurnIndex)
    requires Ok(x) && LedgerBurns(x, x', a, i)
    ensures Ok(x')
  {
    hide Inv, Validate, RequestsOk, CallsOk, BurnsOk;
    BurnCalls(x, x', a, i);
    BurnBurns(x, x', a, i);
  }

  lemma BurnCalls(x: World, x': World, a: Account, i: BurnIndex)
    requires CallsOk(x.s, x.reserved, x.calls) && LedgerBurns(x, x', a, i)
    ensures CallsOk(x'.s, x'.reserved, x'.calls)
  {
    hide Foreign;
    assert x'.calls.Keys == x.calls.Keys;
    assert |x'.calls.Keys| == |x'.calls| && |x.calls.Keys| == |x.calls|;
    assert forall b | b in x'.calls :: CallOk(x.s, x.reserved, x.calls[b]);
  }

  lemma BurnBurns(x: World, x': World, a: Account, i: BurnIndex)
    requires BurnsOk(x) && LedgerBurns(x, x', a, i)
    ensures BurnsOk(x')
  {
    forall b | b in x'.calls && x'.calls[b].burn.Some? ensures HeldBurn(x', x'.calls[b].burn.value, b, x'.calls[b]) {
      if b != a {
        assert HeldBurn(x, x.calls[b].burn.value, b, x.calls[b]);
      }
    }
    forall j | j in x'.h.withdrawals ensures RecordedBurn(x', j, x'.h.withdrawals[j].request) {
      assert RecordedBurn(x, j, x.h.withdrawals[j].request);
    }
  }

  lemma RefuseKeeps(x: World, x': World, a: Account)
    requires Ok(x) && CallRefused(x, x', a)
    ensures Ok(x')
  {
    hide Inv, Validate, CallsOk, RequestsOk, BurnsOk;
    OtherTransient(x.s, x'.s, x.h);
    CallsAfter(x, x', a);
    SameRequests(x, x');
    BurnsFrame(x, x');
  }

  lemma ErrKeeps(x: World, x': World, a: Account)
    requires Ok(x) && CallErrs(x, x', a)
    ensures Ok(x')
  {
    hide Inv, Validate, CallsOk, RequestsOk, BurnsOk, Asked;
    OtherTransient(x.s, x'.s, x.h);
    CallsAfter(x, x', a);
    SameRequests(x, x');
    ErrBurns(x, x', a);
  }

  lemma ErrBurns(x: World, x': World, a: Account)
    requires BurnsOk(x) && CallErrs(x, x', a)
    ensures BurnsOk(x')
  {
    hide Asked;
    assert x.calls[a].burn.Some? ==> HeldBurn(x, x.calls[a].burn.value, a, x.calls[a]);
    forall i | i in x'.h.withdrawals ensures RecordedBurn(x', i, x'.h.withdrawals[i].request) {
      assert RecordedBurn(x, i, x.h.withdrawals[i].request);
    }
    forall b | b in x'.calls && x'.calls[b].burn.Some? ensures HeldBurn(x', x'.calls[b].burn.value, b, x'.calls[b]) {
      assert HeldBurn(x, x.calls[b].burn.value, b, x.calls[b]);
    }
  }

  lemma LateKeeps(x: World, x': World, b: Burn, i: BurnIndex)
    requires Ok(x) && LedgerBurnsLate(x, x', b, i)
    ensures Ok(x')
  {
    hide Inv, Validate, CallsOk, RequestsOk;
    forall j | j in x'.h.withdrawals ensures RecordedBurn(x', j, x'.h.withdrawals[j].request) {
      assert RecordedBurn(x, j, x.h.withdrawals[j].request);
    }
    forall a | a in x'.calls && x'.calls[a].burn.Some? ensures HeldBurn(x', x'.calls[a].burn.value, a, x'.calls[a]) {
      assert HeldBurn(x, x.calls[a].burn.value, a, x.calls[a]);
    }
  }

  lemma RecordKeeps(x: World, x': World, a: Account, now: Timestamp)
    requires Ok(x) && CallRecords(x, x', a, now)
    ensures Ok(x')
  {
    hide Inv, Validate, Foreign, BurnsOk, CallsOk, RequestsOk;
    var r := RequestOf(x.s, a, x.calls[a]);
    ResumeNeverTraps(x, a);
    EventKeeps(x.s, x.h, AcceptedWithdrawalRequest(r), now);
    OtherTransient(Apply(x.s, AcceptedWithdrawalRequest(r), now), x'.s, x'.h);
    CallsAfter(x, x', a);
    assert CallOk(x.s, x.reserved, x.calls[a]) by { CallIsOk(x.s, x.reserved, x.calls, a); }
    AmountCoversFee(x.s, x.reserved, x.calls[a]);
    RequestsAfter(x, x', r, now);
    BurnsAfter(x, x', a, r, now);
  }

  lemma CallIsOk(s: MinterState, reserved: set<Address>, calls: map<Account, Call>, a: Account)
    requires CallsOk(s, reserved, calls) && a in calls
    ensures CallOk(s, reserved, calls[a])
  {}

  lemma CallsAfter(x: World, x': World, a: Account)
    requires CallsOk(x.s, x.reserved, x.calls) && a in x.calls && x'.calls == x.calls - {a} && x'.reserved == x.reserved
    requires x'.s.withdrawalGuards == x.s.withdrawalGuards - {a}
    requires x'.s.config == x.s.config && x'.s.key == x.s.key && x'.s.pool == x.s.pool
    ensures CallsOk(x'.s, x'.reserved, x'.calls)
  {
    CardRemove(x.calls, a);
  }

  lemma RequestsAfter(x: World, x': World, r: WithdrawalRequest, now: Timestamp)
    requires RequestsOk(x.s, x.reserved, x.h.withdrawals) && x'.reserved == x.reserved
    requires x'.h.withdrawals == Arrival(x.h.withdrawals, r, now)
    requires x'.s.key == x.s.key && x'.s.pool == x.s.pool
    requires Foreign(x.s, x.reserved, r.solanaAddress) && r.solanaAddress !in x.s.pool
    requires RENT_EXEMPTION_THRESHOLD <= r.amountToTransfer <= r.burnedAmount
    ensures RequestsOk(x'.s, x'.reserved, x'.h.withdrawals)
  {
    forall i | i in x'.h.withdrawals ensures RequestOk(x'.s, x'.reserved, x'.h.withdrawals[i]) {
      if i != r.burnIndex {
        assert RequestOk(x.s, x.reserved, x.h.withdrawals[i]);
      }
    }
  }

  lemma BurnsAfter(x: World, x': World, a: Account, r: WithdrawalRequest, now: Timestamp)
    requires BurnsOk(x) && a in x.calls && x.calls[a].burn == Some(r.burnIndex) && x'.ledger == x.ledger
    requires r.account == a && r.burnedAmount == x.calls[a].amount && r.solanaAddress == x.calls[a].destination
    requires x'.calls == x.calls - {a} && x'.fate == x.fate[r.burnIndex := Recorded]
    requires x'.h.withdrawals == Arrival(x.h.withdrawals, r, now)
    ensures BurnsOk(x')
  {
    assert HeldBurn(x, r.burnIndex, a, x.calls[a]);
    forall i | i in x'.h.withdrawals ensures RecordedBurn(x', i, x'.h.withdrawals[i].request) {
      if i != r.burnIndex {
        assert RecordedBurn(x, i, x.h.withdrawals[i].request);
      }
    }
    forall b | b in x'.calls && x'.calls[b].burn.Some? ensures HeldBurn(x', x'.calls[b].burn.value, b, x'.calls[b]) {
      assert HeldBurn(x, x.calls[b].burn.value, b, x.calls[b]);
    }
  }

  // ---------- the other events ----------

  /** No other event touches guards, settings or the addresses of the pool, or accepts a request. */
  lemma EventFrame(s: MinterState, h: History, e: Event, now: Timestamp)
    requires CanApply(s, e) && !e.AcceptedWithdrawalRequest? && !e.Upgrade?
    ensures var s' := Apply(s, e, now);
            && s'.pool.Keys == s.pool.Keys && s'.config == s.config && s'.withdrawalGuards == s.withdrawalGuards
            && (s.key.Some? ==> s'.key == s.key)
    ensures MinterRuns.After(s, h, e, now).withdrawals.Keys == h.withdrawals.Keys
  {
    hide CanSubmit, CanCreditSweep, CanSweep, CanFinalize, CanDropSwept, Submitted, Succeeded,
         FailedBy, Finalize, DropSwept, DepositFees, PendingOf, UnreadableOf, CostOf, PickedRequests, PlanOf, Picked, SweptUp,
         MovedTo, Arrived, SentWith, Mint, QuarantineMint, Queue, Credit, QuarantineSweep;
    match e
    case SubmittedTransaction(sig, message, signers, purpose) => SubmittedParts(s, sig, message, signers, purpose, now);
    case SucceededTransaction(sig) => SucceededParts(s, sig);
    case FailedTransaction(sig) => FailedParts(s, sig);
    case _ =>
  }

  lemma OtherKeeps(x: World, x': World, e: Event, now: Timestamp)
    requires Ok(x) && OtherEvent(x, x', e, now)
    ensures Ok(x')
  {
    hide Inv, CanApply, Apply, MinterRuns.After, Admissible, Validate, Follows;
    EventKeeps(x.s, x.h, e, now);
    EventFrame(x.s, x.h, e, now);
    assert RequestsOk(x'.s, x'.reserved, x'.h.withdrawals) by {
      forall i | i in x'.h.withdrawals ensures RequestOk(x'.s, x'.reserved, x'.h.withdrawals[i]) {
        assert i in x.h.withdrawals.Keys;
        assert RequestOk(x.s, x.reserved, x.h.withdrawals[i]);
      }
    }
    assert CallsOk(x'.s, x'.reserved, x'.calls) by {
      assert forall a | a in x.calls :: CallOk(x.s, x.reserved, x.calls[a]);
    }
    SameBurns(x, x');
  }

  lemma SameBurns(x: World, x': World)
    requires BurnsOk(x) && x'.ledger == x.ledger && x'.fate == x.fate && x'.calls == x.calls
    requires x'.h.withdrawals.Keys == x.h.withdrawals.Keys
    requires forall i | i in x.h.withdrawals :: x'.h.withdrawals[i].request == x.h.withdrawals[i].request
    ensures BurnsOk(x')
  {
    forall i | i in x'.h.withdrawals ensures RecordedBurn(x', i, x'.h.withdrawals[i].request) {
      assert i in x.h.withdrawals.Keys;
      assert RecordedBurn(x, i, x.h.withdrawals[i].request);
    }
    forall i | i in x'.fate && x'.fate[i] == Recorded ensures i in x'.h.withdrawals {
      assert i in x.h.withdrawals.Keys;
    }
    forall a | a in x'.calls && x'.calls[a].burn.Some? ensures HeldBurn(x', x'.calls[a].burn.value, a, x'.calls[a]) {
      assert HeldBurn(x, x.calls[a].burn.value, a, x.calls[a]);
    }
  }

  /** An address only joins the pool when no incomplete withdrawal pays to it. */
  lemma PoolGrowth(s: MinterState, h: History, a: UpgradeArgs, i: BurnIndex)
    requires Inv(s, h) && CanUpgrade(s, a) && i in h.withdrawals && Incomplete(h.withdrawals[i].stage)
    requires h.withdrawals[i].request.solanaAddress !in s.pool
    ensures h.withdrawals[i].request.solanaAddress !in Upgraded(s, a).pool
  {
    hide Inv, Validate, Reconfigured, NoIncompleteWithdrawalTo, CanAdd;
    var d := h.withdrawals[i].request.solanaAddress;
    if a.nonceAccountsToAdd.Some? && d in Parsed(a.nonceAccountsToAdd.value) {
      IncompleteIsListed(s, h, i);
    }
  }

  lemma IncompleteIsListed(s: MinterState, h: History, i: BurnIndex)
    requires Inv(s, h) && i in h.withdrawals && Incomplete(h.withdrawals[i].stage)
    ensures !NoIncompleteWithdrawalTo(s, h.withdrawals[i].request.solanaAddress)
  {
    hide Agrees, Listed, TxsAgree, NoncesAgree, Keyed;
    assert i in s.pending || i in s.created || i in s.sent;
  }

  lemma UpgradeKeeps(x: World, x': World, args: Option<UpgradeArgs>, now: Timestamp)
    requires Ok(x) && Upgrades(x, x', args, now)
    ensures Ok(x')
  {
    hide Inv, Validate, CanUpgrade, Upgraded, CallsOk, BurnsOk, RequestsOk, Reconfigured;
    OtherTransient(x.s, Erase(x.s), x.h);
    if args.Some? {
      EventKeeps(Erase(x.s), x.h, Upgrade(args.value), now);
      UpgradedConfig(Erase(x.s), args.value);
    }
    UpgradeRequests(x, x', args);
    UpgradeBurns(x, x');
    assert CallsOk(x'.s, x'.reserved, x'.calls) by { NoCalls(x'.s, x'.reserved, x'.calls); }
  }

  lemma UpgradedConfig(s: MinterState, a: UpgradeArgs)
    requires CanUpgrade(s, a)
    ensures Validate(Upgraded(s, a).config) == None && Upgraded(s, a).key == s.key
    ensures Upgraded(s, a).withdrawalGuards == s.withdrawalGuards
  {
    hide Validate, Reconfigured;
  }

  lemma NoCalls(s: MinterState, reserved: set<Address>, calls: map<Account, Call>)
    requires s.withdrawalGuards == {} && calls.Keys == {}
    ensures CallsOk(s, reserved, calls)
  {
    assert |calls.Keys| == |calls|;
  }

  lemma UpgradeRequests(x: World, x': World, args: Option<UpgradeArgs>)
    requires Inv(Erase(x.s), x.h) && RequestsOk(x.s, x.reserved, x.h.withdrawals) && x'.reserved == x.reserved && x'.h == x.h
    requires args.Some? ==> CanUpgrade(Erase(x.s), args.value)
    requires x'.s == if args.Some? then Upgraded(Erase(x.s), args.value) else Erase(x.s)
    ensures RequestsOk(x'.s, x'.reserved, x'.h.withdrawals)
  {
    hide Inv, CanUpgrade, Validate, Reconfigured, Upgraded;
    if args.Some? {
      UpgradedConfig(Erase(x.s), args.value);
    }
    forall i | i in x'.h.withdrawals ensures RequestOk(x'.s, x'.reserved, x'.h.withdrawals[i]) {
      assert RequestOk(x.s, x.reserved, x.h.withdrawals[i]);
      if args.Some? && Incomplete(x.h.withdrawals[i].stage) {
        PoolGrowth(Erase(x.s), x.h, args.value, i);
      }
    }
  }

  lemma UpgradeBurns(x: World, x': World)
    requires BurnsOk(x) && x'.calls.Keys == {} && x'.fate == Abandoned(x.fate) && x'.ledger == x.ledger && x'.h == x.h
    ensures BurnsOk(x')
  {
    assert x'.fate.Keys == x.fate.Keys;
    forall i | i in x'.h.withdrawals ensures RecordedBurn(x', i, x'.h.withdrawals[i].request) {
      assert RecordedBurn(x, i, x.h.withdrawals[i].request);
    }
  }

  // ---------- runs ----------

  datatype Step =
    | StartCall(account: Account, amount: Lamport, text: Option<Address>)
    | BurnLands(account: Account, index: BurnIndex)
    | RefuseCall(account: Account)
    | ErrorCall(account: Account)
    | BurnLandsLate(burn: Burn, index: BurnIndex)
    | RecordCall(account: Account, now: Timestamp)
    | Other(event: Event, now: Timestamp)
    | UpgradeTo(args: Option<UpgradeArgs>, now: Timestamp)

  ghost predicate Takes(x: World, step: Step, x': World) {
    match step
    case StartCall(a, amount, text) => CallStarts(x, x', a, amount, text)
    case BurnLands(a, i) => LedgerBurns(x, x', a, i)
    case RefuseCall(a) => CallRefused(x, x', a)
    case ErrorCall(a) => CallErrs(x, x', a)
    case BurnLandsLate(b, i) => LedgerBurnsLate(x, x', b, i)
    case RecordCall(a, now) => CallRecords(x, x', a, now)
    case Other(e, now) => OtherEvent(x, x', e, now)
    case UpgradeTo(args, now) => Upgrades(x, x', args, now)
  }

  lemma StepKeeps(x: World, step: Step, x': World)
    requires Ok(x) && Takes(x, step, x')
    ensures Ok(x')
  {
    hide Ok, CallStarts, LedgerBurns, CallRefused, CallErrs, LedgerBurnsLate, CallRecords, OtherEvent, Upgrades;
    match step
    case StartCall(a, amount, text) => StartKeeps(x, x', a, amount, text);
    case BurnLands(a, i) => BurnKeeps(x, x', a, i);
    case RefuseCall(a) => RefuseKeeps(x, x', a);
    case ErrorCall(a) => ErrKeeps(x, x', a);
    case BurnLandsLate(b, i) => LateKeeps(x, x', b, i);
    case RecordCall(a, now) => RecordKeeps(x, x', a, now);
    case Other(e, now) => OtherKeeps(x, x', e, now);
    case UpgradeTo(args, now) => UpgradeKeeps(x, x', args, now);
  }

  ghost predicate Starts(x: World, a: InitArgs) {
    CanInit(a) && x == World(InitialState(a), EMPTY_HISTORY, map[], map[], map[], {}, x.reserved)
  }

  ghost predicate CallRun(run: seq<World>, steps: seq<Step>) {
    && |run| == |steps| + 1 && (exists a :: Starts(run[0], a))
    && forall i | 0 <= i < |steps| :: Takes(run[i], steps[i], run[i + 1])
  }

  lemma StartsKeeps(x: World, a: InitArgs)
    requires Starts(x, a)
    ensures Ok(x) && !SomeLost(x)
  {
    hide Inv, Validate;
    InitialInv(a);
  }

  lemma {:induction false} RunKeeps(run: seq<World>, steps: seq<Step>, n: nat)
    requires CallRun(run, steps) && n < |run|
    ensures Ok(run[n])
  {
    hide Ok, Takes, Starts;
    if n == 0 {
      var a :| Starts(run[0], a);
      StartsKeeps(run[0], a);
    } else {
      RunKeeps(run, steps, n - 1);
      StepKeeps(run[n - 1], steps[n - 1], run[n]);
    }
  }

  // ---------- what it means ----------

  /** In every run, no withdrawal pays to a key reserved by the runtime or to the main address, no
      incomplete one pays to a nonce account, not even one added since, and each transfers at least
      the rent threshold. */
  lemma DestinationsAreSafe(run: seq<World>, steps: seq<Step>, n: nat, i: BurnIndex)
    requires CallRun(run, steps) && n < |run| && i in run[n].h.withdrawals
    ensures var x, w := run[n], run[n].h.withdrawals[i];
            && w.request.solanaAddress !in x.reserved
            && x.s.key.Some? && w.request.solanaAddress != MinterAddress(x.s.key.value)
            && (i in x.s.pending || i in x.s.created || i in x.s.sent ==> w.request.solanaAddress !in x.s.pool)
            && RENT_EXEMPTION_THRESHOLD <= w.request.amountToTransfer <= w.request.burnedAmount
  {
    hide CallRun, Agrees, Listed, TxsAgree, NoncesAgree, Keyed, Validate, UnsentRecorded, SentRecorded, CallsOk, BurnsOk;
    RunKeeps(run, steps, n);
    assert RequestOk(run[n].s, run[n].reserved, run[n].h.withdrawals[i]);
  }

  /** In every run, at most a hundred calls are in progress, tokens are only burned while the pool
      has an account, and a call whose tokens were burned records them with the fee it started with. */
  lemma CallsAlwaysComplete(run: seq<World>, steps: seq<Step>, n: nat, a: Account)
    requires CallRun(run, steps) && n < |run|
    ensures |run[n].s.withdrawalGuards| <= MAX_CONCURRENT
    ensures a in run[n].calls ==> run[n].s.pool.Keys != {}
    ensures var x := run[n];
            a in x.calls && x.calls[a].burn.Some? ==>
              && x.calls[a].amount >= x.s.config.withdrawalFee
              && var r := RequestOf(x.s, a, x.calls[a]);
                 && r.burnedAmount == r.amountToTransfer + x.calls[a].config.withdrawalFee
                 && CanApply(x.s, AcceptedWithdrawalRequest(r)) && Admissible(x.s, x.h, AcceptedWithdrawalRequest(r))
  {
    hide CallRun, Inv, Validate, CanApply, Admissible, RequestsOk, BurnsOk, Foreign;
    RunKeeps(run, steps, n);
    var x := run[n];
    assert |x.calls.Keys| == |x.calls|;
    if a in x.calls {
      CallIsOk(x.s, x.reserved, x.calls, a);
      if x.calls[a].burn.Some? {
        ResumeNeverTraps(x, a);
      }
    }
  }

  lemma FeeStep(x: World, step: Step, x': World)
    requires Ok(x) && Takes(x, step, x') && AllKeepFee(x.h.withdrawals)
    requires x.s.config.withdrawalFee >= BATCH_WITHDRAWAL_TX_FEE
    ensures AllKeepFee(x'.h.withdrawals)
  {
    hide Inv, Validate, RequestsOk, CallsOk, BurnsOk, CanApply, Apply, Erase, Admissible, Follows;
    match step
    case RecordCall(a, now) => RequestKeepsFeeIff(x.s, a, x.calls[a]);
    case Other(e, now) =>
      OtherRequests(x, x', e, now);
    case _ =>
  }

  lemma OtherRequests(x: World, x': World, e: Event, now: Timestamp)
    requires Ok(x) && OtherEvent(x, x', e, now)
    ensures x'.h.withdrawals.Keys == x.h.withdrawals.Keys
    ensures forall i | i in x.h.withdrawals :: x'.h.withdrawals[i].request == x.h.withdrawals[i].request
  {
    hide Inv, Validate, CanApply, Apply, MinterRuns.After, Admissible, Follows, RequestsOk, CallsOk, BurnsOk;
    EventKeeps(x.s, x.h, e, now);
    EventFrame(x.s, x.h, e, now);
  }

  /** In every run in which the withdrawal fee has always covered the cost of a transaction, every
      accepted request keeps that cost, which is what solvency asks of the requests. */
  lemma {:induction false} FeesAreKept(run: seq<World>, steps: seq<Step>, n: nat)
    requires CallRun(run, steps) && n < |run|
    requires forall k | 0 <= k < n :: run[k].s.config.withdrawalFee >= BATCH_WITHDRAWAL_TX_FEE
    ensures AllKeepFee(run[n].h.withdrawals)
  {
    hide Ok, Takes;
    if n > 0 {
      FeesAreKept(run, steps, n - 1);
      RunKeeps(run, steps, n - 1);
      FeeStep(run[n - 1], steps[n - 1], run[n]);
    }
  }

  ghost function Burned(ledger: map<BurnIndex, Burn>): map<BurnIndex, Lamport> {
    map i | i in ledger :: ledger[i].amount
  }

  ghost function RecordedAmounts(w: Withdrawals): map<BurnIndex, Lamport> {
    map i | i in w :: w[i].request.burnedAmount
  }

  /** In every run, what the ledger burned is what the accepted requests say was burned, and what
      the burns not recorded burned. */
  lemma BurnsAreConserved(run: seq<World>, steps: seq<Step>, n: nat)
    requires CallRun(run, steps) && n < |run|
    ensures var x := run[n];
            Total(Burned(x.ledger)) == Total(RecordedAmounts(x.h.withdrawals)) + Total(Burned(x.ledger) - x.h.withdrawals.Keys)
  {
    hide CallRun, Inv, Validate, CallsOk, RequestsOk, Total;
    RunKeeps(run, steps, n);
    var x := run[n];
    var m := Burned(x.ledger);
    TotalSplit(m, x.h.withdrawals.Keys);
    forall i | i in x.h.withdrawals ensures i in m && m[i] == x.h.withdrawals[i].request.burnedAmount {
      assert RecordedBurn(x, i, x.h.withdrawals[i].request);
    }
    assert (map i | i in m && i in x.h.withdrawals.Keys :: m[i]) == RecordedAmounts(x.h.withdrawals);
  }

  /** A burn no call will ever record. */
  ghost predicate SomeLost(x: World) {
    exists i :: i in x.fate && x.fate[i] == Lost
  }

  ghost predicate Awaited(x: World, a: Account) {
    a in x.calls && x.calls[a].burn.Some?
  }

  /** A call ends between its burn and its resumption, through an upgrade or an error of the call to
      the ledger; or the ledger burns for a call that has so ended before. */
  ghost predicate Interrupts(x: World, step: Step) {
    match step
    case UpgradeTo(_, _) => exists a :: Awaited(x, a)
    case ErrorCall(a) => Awaited(x, a)
    case BurnLandsLate(_, _) => true
    case _ => false
  }

  lemma LossStep(x: World, step: Step, x': World)
    requires Ok(x) && Takes(x, step, x')
    ensures SomeLost(x') <==> SomeLost(x) || Interrupts(x, step)
  {
    hide Inv, Validate, RequestsOk, CallsOk, CanApply, Apply, MinterRuns.After, Erase, RecordedBurn, Asked, CallOutcome;
    if SomeLost(x) {
      var i :| i in x.fate && x.fate[i] == Lost;
      assert step.RecordCall? || step.ErrorCall? ==> HeldOne(x, step.account);
      assert i in x'.fate && x'.fate[i] == Lost;
    }
    if Interrupts(x, step) {
      LossHappens(x, step, x');
    }
    if SomeLost(x') {
      var i :| i in x'.fate && x'.fate[i] == Lost;
      if (i !in x.fate || x.fate[i] != Lost) && step.UpgradeTo? {
        assert Awaited(x, x.fate[i].account);
      }
    }
  }

  /** The burn of a call is not lost yet. */
  ghost predicate HeldOne(x: World, a: Account) {
    a in x.calls && x.calls[a].burn.Some? ==> HeldBurn(x, x.calls[a].burn.value, a, x.calls[a])
  }

  lemma LossHappens(x: World, step: Step, x': World)
    requires BurnsOk(x) && Takes(x, step, x') && Interrupts(x, step)
    ensures SomeLost(x')
  {
    hide CanApply, Apply, MinterRuns.After, Erase, RecordedBurn, Asked, CallOutcome;
    match step
    case UpgradeTo(_, _) =>
      var a :| Awaited(x, a);
      assert HeldBurn(x, x.calls[a].burn.value, a, x.calls[a]);
      assert x'.fate[x.calls[a].burn.value] == Lost;
    case ErrorCall(a) => assert x'.fate[x.calls[a].burn.value] == Lost;
    case BurnLandsLate(_, i) => assert x'.fate[i] == Lost;
  }

  /** In every run, a burn is lost exactly when an upgrade or an error of the call to the ledger ended
      a call after its burn, or the ledger burned for a call that had ended so before. */
  lemma {:induction false} LostIffInterrupted(run: seq<World>, steps: seq<Step>, n: nat)
    requires CallRun(run, steps) && n < |run|
    ensures SomeLost(run[n]) <==> exists k :: 0 <= k < n && Interrupts(run[k], steps[k])
  {
    hide Ok, Takes, Starts, SomeLost, Interrupts;
    if n == 0 {
      var a :| Starts(run[0], a);
      StartsKeeps(run[0], a);
    } else {
      LostIffInterrupted(run, steps, n - 1);
      RunKeeps(run, steps, n - 1);
      LossStep(run[n - 1], steps[n - 1], run[n]);
    }
  }

  /** In every run, whenever no call is in progress: the ledger's burns and the accepted requests
      are the same, exactly when no burn was interrupted in this way. */
  lemma EveryBurnIsRecordedIff(run: seq<World>, steps: seq<Step>, n: nat)
    requires CallRun(run, steps) && n < |run| && run[n].calls.Keys == {}
    ensures run[n].ledger.Keys == run[n].h.withdrawals.Keys <==> !exists k :: 0 <= k < n && Interrupts(run[k], steps[k])
  {
    hide CallRun, Interrupts, Inv, Validate, CallsOk, RequestsOk;
    RunKeeps(run, steps, n);
    LostIffInterrupted(run, steps, n);
    var x := run[n];
    if !SomeLost(x) {
      forall i | i in x.ledger.Keys ensures i in x.h.withdrawals.Keys {
        assert i in x.fate.Keys;
        assert x.fate[i] == Recorded;
      }
      forall i | i in x.h.withdrawals.Keys ensures i in x.ledger.Keys {
        assert RecordedBurn(x, i, x.h.withdrawals[i].request);
      }
    } else {
      var i :| i in x.fate && x.fate[i] == Lost;
      assert i in x.ledger.Keys;
      assert i in x.h.withdrawals ==> RecordedBurn(x, i, x.h.withdrawals[i].request);
    }
  }

  // The worlds of a run with one call that is interrupted.

  ghost function Idle(init: InitArgs, key: SchnorrPublicKey, reserved: set<Address>): World
    requires Parses(init.nonceAccounts)
  {
    World(InitialState(init).(key := Some(key)), EMPTY_HISTORY, map[], map[], map[], {}, reserved)
  }

  ghost function Calling(x: World, a: Account, c: Call): World {
    x.(s := x.s.(withdrawalGuards := x.s.withdrawalGuards + {a}), calls := x.calls[a := c])
  }

  lemma KeyArrives(init: InitArgs, key: SchnorrPublicKey, reserved: set<Address>, now: Timestamp)
    requires CanInit(init)
    ensures var x := World(InitialState(init), EMPTY_HISTORY, map[], map[], map[], {}, reserved);
            Starts(x, init) && Takes(x, Other(MinterPublicKeyFetched(key), now), Idle(init, key, reserved))
  {
    hide Validate, CanAdd, Added;
  }

  lemma FirstCall(init: InitArgs, key: SchnorrPublicKey, a: Account, amount: Lamport, d: Address, reserved: set<Address>)
    requires CanInit(init) && |init.nonceAccounts| > 0 && amount >= init.config.minimumWithdrawalAmount
    requires d !in reserved && d !in Parsed(init.nonceAccounts) && d != MinterAddress(key)
    ensures var x := Idle(init, key, reserved);
            Takes(x, StartCall(a, amount, Some(d)), Calling(x, a, Call(amount, d, None, init.config)))
  {
    hide Validate, CanAdd;
    var x := Idle(init, key, reserved);
    assert Parsed(init.nonceAccounts)[0] in x.s.pool.Keys;
    assert CallOutcome(x.s, reserved, a, amount, Some(d)) == Awaiting(d);
  }

  /** A call whose tokens the ledger has burned. */
  ghost function Charged(x: World, a: Account, i: BurnIndex): World
    requires a in x.calls
  {
    var c := x.calls[a];
    x.(calls := x.calls[a := c.(burn := Some(i))], ledger := x.ledger[i := Burn(a, c.amount, c.destination)],
       fate := x.fate[i := InCall(a)])
  }

  /** The steps up to the burn of the first call. */
  lemma FirstBurn(init: InitArgs, key: SchnorrPublicKey, a: Account, amount: Lamport, d: Address, i: BurnIndex,
                  reserved: set<Address>, now: Timestamp)
    returns (run: seq<World>, steps: seq<Step>)
    requires CanInit(init) && |init.nonceAccounts| > 0 && amount >= init.config.minimumWithdrawalAmount
    requires d !in reserved && d !in Parsed(init.nonceAccounts) && d != MinterAddress(key)
    ensures CallRun(run, steps) && |run| == 3 && run[2].h.withdrawals.Keys == {} && run[2].fate.Keys == {}
    ensures run[2].calls == map[a := Call(amount, d, None, init.config)] && run[2].ledger.Keys == {}
    ensures Takes(run[2], BurnLands(a, i), Charged(run[2], a, i))
  {
    hide CanInit, InitialState, Parsed, Starts, CallStarts, OtherEvent;
    assert Parses(init.nonceAccounts) by { InitParses(init); }
    KeyArrives(init, key, reserved, now);
    FirstCall(init, key, a, amount, d, reserved);
    var x1 := Idle(init, key, reserved);
    run := [World(InitialState(init), EMPTY_HISTORY, map[], map[], map[], {}, reserved), x1,
            Calling(x1, a, Call(amount, d, None, init.config))];
    steps := [Other(MinterPublicKeyFetched(key), now), StartCall(a, amount, Some(d))];
    assert Starts(run[0], init);
    forall k | 0 <= k < |steps| ensures Takes(run[k], steps[k], run[k + 1]) {
      assert k == 0 || k == 1;
    }
  }

  lemma RunExtends(run: seq<World>, steps: seq<Step>, step: Step, x: World)
    requires CallRun(run, steps) && Takes(run[|steps|], step, x)
    ensures CallRun(run + [x], steps + [step])
  {
    hide Takes, Starts;
    var run', steps' := run + [x], steps + [step];
    var a :| Starts(run[0], a);
    assert Starts(run'[0], a);
    forall i | 0 <= i < |steps'| ensures Takes(run'[i], steps'[i], run'[i + 1]) {
      if i < |steps| {
        assert Takes(run[i], steps[i], run[i + 1]);
      }
    }
  }

  /** A run that ends without a call in progress and with one burn that is not recorded. */
  ghost predicate LosesBurn(run: seq<World>, steps: seq<Step>, i: BurnIndex) {
    && CallRun(run, steps)
    && var x := run[|steps|]; x.calls.Keys == {} && x.ledger.Keys == {i} && x.h.withdrawals.Keys == {}
  }

  // Each of the three interruptions happens, from every initial state with a nonce account.

  /** An upgrade right after the burn of a call loses it. */
  lemma UpgradeLosesBurn(init: InitArgs, key: SchnorrPublicKey, a: Account, amount: Lamport, d: Address, i: BurnIndex,
                         reserved: set<Address>, now: Timestamp)
    returns (run: seq<World>, steps: seq<Step>)
    requires CanInit(init) && |init.nonceAccounts| > 0 && amount >= init.config.minimumWithdrawalAmount
    requires d !in reserved && d !in Parsed(init.nonceAccounts) && d != MinterAddress(key)
    ensures LosesBurn(run, steps, i) && |steps| == 4 && steps[3] == UpgradeTo(None, now)
  {
    hide CanInit, Parsed, CallRun, CallStarts, OtherEvent, Erase, Asked;
    run, steps := FirstBurn(init, key, a, amount, d, i, reserved, now);
    RunLengths(run, steps);
    var y := Charged(run[2], a, i);
    RunExtends(run, steps, BurnLands(a, i), y);
    var z := y.(s := Erase(y.s), calls := map[], fate := Abandoned(y.fate), late := y.late + Asked(y.calls));
    run, steps := run + [y], steps + [BurnLands(a, i)];
    RunExtends(run, steps, UpgradeTo(None, now), z);
    run, steps := run + [z], steps + [UpgradeTo(None, now)];
  }

  /** So does an error of the call to the ledger after it has burned. */
  lemma ErrorLosesBurn(init: InitArgs, key: SchnorrPublicKey, a: Account, amount: Lamport, d: Address, i: BurnIndex,
                       reserved: set<Address>, now: Timestamp)
    returns (run: seq<World>, steps: seq<Step>)
    requires CanInit(init) && |init.nonceAccounts| > 0 && amount >= init.config.minimumWithdrawalAmount
    requires d !in reserved && d !in Parsed(init.nonceAccounts) && d != MinterAddress(key)
    ensures LosesBurn(run, steps, i) && |steps| == 4 && steps[3] == ErrorCall(a)
  {
    hide CanInit, Parsed, CallRun, CallStarts, OtherEvent, Asked;
    run, steps := FirstBurn(init, key, a, amount, d, i, reserved, now);
    RunLengths(run, steps);
    var y := Charged(run[2], a, i);
    RunExtends(run, steps, BurnLands(a, i), y);
    var z := y.(s := Released(y.s, a), calls := y.calls - {a}, fate := y.fate[i := Lost],
                late := y.late + Asked(map[a := y.calls[a]]));
    run, steps := run + [y], steps + [BurnLands(a, i)];
    RunExtends(run, steps, ErrorCall(a), z);
    run, steps := run + [z], steps + [ErrorCall(a)];
  }

  /** So does an error before the ledger has burned, when it burns later. */
  lemma LateBurnIsLost(init: InitArgs, key: SchnorrPublicKey, a: Account, amount: Lamport, d: Address, i: BurnIndex,
                       reserved: set<Address>, now: Timestamp)
    returns (run: seq<World>, steps: seq<Step>)
    requires CanInit(init) && |init.nonceAccounts| > 0 && amount >= init.config.minimumWithdrawalAmount
    requires d !in reserved && d !in Parsed(init.nonceAccounts) && d != MinterAddress(key)
    ensures LosesBurn(run, steps, i) && |steps| == 4 && steps[3] == BurnLandsLate(Burn(a, amount, d), i)
  {
    hide CanInit, Parsed, CallRun, CallStarts, OtherEvent;
    run, steps := FirstBurn(init, key, a, amount, d, i, reserved, now);
    RunLengths(run, steps);
    var x, b := run[2], Burn(a, amount, d);
    var y := x.(s := Released(x.s, a), calls := x.calls - {a}, late := x.late + Asked(map[a := x.calls[a]]));
    assert b in Asked(map[a := x.calls[a]]) by { assert a in map[a := x.calls[a]]; }
    RunExtends(run, steps, ErrorCall(a), y);
    var z := y.(ledger := y.ledger[i := b], fate := y.fate[i := Lost]);
    run, steps := run + [y], steps + [ErrorCall(a)];
    RunExtends(run, steps, BurnLandsLate(b, i), z);
    run, steps := run + [z], steps + [BurnLandsLate(b, i)];
  }

  lemma RunLengths(run: seq<World>, steps: seq<Step>)
    requires CallRun(run, steps)
    ensures |run| == |steps| + 1
  {}

  lemma InitParses(init: InitArgs)
    requires CanInit(init)
    ensures Parses(init.nonceAccounts)
  {}
}
