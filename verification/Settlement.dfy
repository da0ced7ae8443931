/** The message of a sweep, its recovery from a submitted transaction, and the settlement of
    the reported outcome (minter/src/state/deposits/sweeps/mod.rs), against a model of how
    Solana executes the message. */
module Settlement {
  import opened Prelude
  import opened Solana
  import opened Sweeps

  // ---------- the sweep message ----------

  function SweepInstructions(transfers: seq<Transfer>, minter: Address): seq<Instruction> {
    seq(|transfers|, i requires 0 <= i < |transfers| =>
      TransferLamports(transfers[i].source, minter, transfers[i].amount))
  }

  function SweepMessage(s: Sweep, blockhash: Hash): Message {
    Message(if s.transfers == [] then None else Some(s.transfers[0].source),
            SweepInstructions(s.transfers, s.minterAddress), blockhash)
  }

  /** Plans again and accepts the submitted message only if the plan builds that very message. */
  method Recover(list: seq<(DepositId, QueuedDeposit)>, minter: Address, submitted: Message)
    returns (r: Option<Sweep>)
    requires DistinctIds(list) && CanPlan(BatchOf(list))
    ensures r.Some? <==> submitted == SweepMessage(PlanOf(BatchOf(list), minter), submitted.blockhash)
    ensures r.Some? ==> r.value == PlanOf(BatchOf(list), minter)
  {
    var s := Plan(list, minter);
    r := if SweepMessage(s, submitted.blockhash) == submitted then Some(s) else None;
  }

  /** A message determines its destination and every transfer: no plan toward another address,
      or of other sources or amounts, builds it. */
  lemma MessageDeterminesPlan(a: Sweep, b: Sweep, h: Hash)
    requires Shaped(a) && Shaped(b) && SweepMessage(a, h) == SweepMessage(b, h)
    ensures a.minterAddress == b.minterAddress && |a.transfers| == |b.transfers|
    ensures a.expectedReceived == b.expectedReceived
    ensures forall i | 0 <= i < |a.transfers| ::
              a.transfers[i].source == b.transfers[i].source && a.transfers[i].amount == b.transfers[i].amount
  {
    var x, y := SweepInstructions(a.transfers, a.minterAddress), SweepInstructions(b.transfers, b.minterAddress);
    assert x == y && x[0] == y[0];
    forall i | 0 <= i < |x|
      ensures a.transfers[i].source == b.transfers[i].source && a.transfers[i].amount == b.transfers[i].amount
    {
      assert x[i] == y[i];
    }
    assert Amounts(a.transfers) == Amounts(b.transfers);
  }

  // ---------- the shape of a plan ----------

  /** What a source gives up: its transfer, plus the fee charged when it is the fee payer. */
  function Decrease(s: Sweep, i: nat, fee: Lamport): Lamport
    requires i < |s.transfers|
  {
    s.transfers[i].amount + if i == 0 then fee else 0
  }

  /** What the settlement relies on: the fee payer comes first, each transfer and the planned
      fee together empty one deposit down to the rent threshold, and the transfers add up. */
  ghost predicate Shaped(s: Sweep) {
    && s.transfers != [] && s.deposits.Keys != {}
    && s.expectedReceived == Sum(Amounts(s.transfers))
    && (forall i | 0 <= i < |s.transfers| :: s.transfers[i].depositId == s.feePayer <==> i == 0)
    && (forall i | 0 <= i < |s.transfers| ::
          && s.transfers[i].depositId in s.deposits
          && s.transfers[i].source == s.deposits[s.transfers[i].depositId].address
          && Decrease(s, i, s.fee) == s.deposits[s.transfers[i].depositId].Sweepable())
  }

  lemma PlanShaped(s: Sweep)
    requires IsPlan(s)
    ensures Shaped(s) && |s.transfers| == |s.deposits|
  {
    var list := SweepOrder(s.deposits, s.deposits.Keys);
    PlanHead(s.deposits);
    assert s.transfers == TransfersIn(s.deposits, list, s.fee) && s.expectedReceived == Sum(Amounts(s.transfers));
    LaidOutShaped(s, list);
  }

  lemma LaidOutShaped(s: Sweep, list: seq<DepositId>)
    requires list != [] && Distinct(list) && Elems(list) == s.deposits.Keys && s.feePayer == list[0]
    requires forall i | 0 <= i < |list| :: list[i] in s.deposits
    requires s.deposits[list[0]].Sweepable() >= s.fee
    requires s.transfers == TransfersIn(s.deposits, list, s.fee) && s.expectedReceived == Sum(Amounts(s.transfers))
    ensures Shaped(s)
  {
    hide Sum, Amounts;
  }

  // ---------- size of a sweep transaction ----------

  ghost predicate DistinctSources(s: Sweep) {
    && (forall i, j | 0 <= i < j < |s.transfers| :: s.transfers[i].source != s.transfers[j].source)
    && (forall i | 0 <= i < |s.transfers| :: s.transfers[i].source != s.minterAddress)
  }

  function Sources(transfers: seq<Transfer>): seq<Address> {
    seq(|transfers|, i requires 0 <= i < |transfers| => transfers[i].source)
  }

  lemma {:induction false} SweepKeys(transfers: seq<Transfer>, minter: Address)
    ensures Elems(KeysOf(SweepInstructions(transfers, minter))) ==
            Elems(Sources(transfers)) + (if transfers == [] then {} else {minter})
  {
    if transfers != [] {
      var n := |transfers| - 1;
      var all := SweepInstructions(transfers, minter);
      assert all[..n] == SweepInstructions(transfers[..n], minter);
      SweepKeys(transfers[..n], minter);
      ElemsConcat(KeysOf(all[..n]), InstructionAccounts(all[n]));
      assert Elems([transfers[n].source, minter]) == {transfers[n].source, minter};
      assert Sources(transfers) == Sources(transfers[..n]) + [transfers[n].source];
      ElemsAppend(Sources(transfers[..n]), transfers[n].source);
    }
  }

  lemma {:induction false} SweepInstructionsSize(transfers: seq<Transfer>, minter: Address)
    ensures InstructionsSize(SweepInstructions(transfers, minter)) == 17 * |transfers|
  {
    if transfers != [] {
      var n := |transfers| - 1;
      assert SweepInstructions(transfers, minter)[..n] == SweepInstructions(transfers[..n], minter);
      SweepInstructionsSize(transfers[..n], minter);
    }
  }

  lemma SweepSigners(s: Sweep, h: Hash)
    ensures Signers(SweepMessage(s, h)) == Elems(Sources(s.transfers))
  {
    var m := SweepMessage(s, h);
    forall a | a in Elems(Sources(s.transfers)) ensures a in Signers(m) {
      var i :| 0 <= i < |s.transfers| && Sources(s.transfers)[i] == a;
      assert m.instructions[i] in m.instructions;
    }
    forall a | a in Signers(m) ensures a in Elems(Sources(s.transfers)) {
      if a in Payer(m) {
        assert Sources(s.transfers)[0] == a;
      } else {
        var x :| x in m.instructions && InstructionSigner(x) == a;
        var i :| 0 <= i < |m.instructions| && m.instructions[i] == x;
        assert Sources(s.transfers)[i] == a;
      }
    }
  }

  /** A sweep of n deposits takes 102 + 113 n bytes while its lengths fit into one byte, so that ten deposits fill the 1232 bytes
      of a transaction exactly, and eleven do not fit. */
  lemma SweepFitsIff(s: Sweep, h: Hash)
    requires s.transfers != [] && DistinctSources(s)
    requires SYSTEM_PROGRAM != s.minterAddress
    requires forall i | 0 <= i < |s.transfers| :: s.transfers[i].source != SYSTEM_PROGRAM
    ensures |s.transfers| <= 125 ==> TransactionSize(SweepMessage(s, h)) == 102 + 113 * |s.transfers|
    ensures TransactionSize(SweepMessage(s, h)) <= 1_232 <==> |s.transfers| <= 10
  {
    var m, sources := SweepMessage(s, h), Sources(s.transfers);
    SweepKeyCount(s, h);
    SweepSigners(s, h);
    SweepInstructionsSize(s.transfers, s.minterAddress);
    assert Distinct(sources);
    ElemsCard(sources);
  }

  lemma SweepKeyCount(s: Sweep, h: Hash)
    requires s.transfers != [] && DistinctSources(s)
    requires SYSTEM_PROGRAM != s.minterAddress
    requires forall i | 0 <= i < |s.transfers| :: s.transfers[i].source != SYSTEM_PROGRAM
    ensures |AccountKeys(SweepMessage(s, h))| == |s.transfers| + 2
  {
    hide SweepMessage, AccountKeys;
    var m, sources := SweepMessage(s, h), Sources(s.transfers);
    SweepReferenced(s, h);
    assert Distinct(sources);
    ElemsCard(sources);
    assert s.minterAddress !in Elems(sources);
    assert SYSTEM_PROGRAM !in Elems(sources) + {s.minterAddress};
    KeysDistinct(m);
    ElemsCard(AccountKeys(m));
  }

  lemma KeysDistinct(m: Message)
    ensures Distinct(AccountKeys(m))
  {
    hide Distinct;
  }

  lemma SweepReferenced(s: Sweep, h: Hash)
    requires s.transfers != []
    ensures Elems(AccountKeys(SweepMessage(s, h))) ==
            Elems(Sources(s.transfers)) + {s.minterAddress} + {SYSTEM_PROGRAM}
  {
    var m, sources := SweepMessage(s, h), Sources(s.transfers);
    SweepKeys(s.transfers, s.minterAddress);
    ElemsConcat(Payer(m), KeysOf(m.instructions));
    ElemsAppend(Payer(m) + KeysOf(m.instructions), SYSTEM_PROGRAM);
    assert sources[0] in Elems(sources);
    assert Elems(Payer(m)) == {sources[0]};
  }

  // ---------- execution ----------

  type Balances = map<Address, Lamport>

  function Bal(b: Balances, a: Address): Lamport {
    if a in b then b[a] else 0
  }

  function Moved(b: Balances, source: Address, target: Address, amount: Lamport): Balances
    requires Bal(b, source) >= amount
  {
    var b1 := b[source := Bal(b, source) - amount];
    b1[target := Bal(b1, target) + amount]
  }

  /** The transfers of a message, one after the other; one the source cannot pay aborts all. */
  function Executed(b: Balances, instructions: seq<Instruction>): Option<Balances> {
    if instructions == [] then Some(b) else
      var n := |instructions| - 1;
      match Executed(b, instructions[..n])
      case None => None
      case Some(b') =>
        match instructions[n]
        case AdvanceNonceAccount(_, _) => Some(b')
        case TransferLamports(source, target, amount) =>
          if Bal(b', source) >= amount then Some(Moved(b', source, target, amount)) else None
  }

  /** The fee payer is charged first, then the instructions run. */
  function Execute(b: Balances, m: Message, fee: Lamport): Option<Balances> {
    if m.feePayer.Some? && Bal(b, m.feePayer.value) >= fee
    then Executed(b[m.feePayer.value := Bal(b, m.feePayer.value) - fee], m.instructions)
    else None
  }

  /** The sources of the first k transfers are down by their amounts, the destination is up by
      their sum, and the other sources have not moved. */
  ghost predicate AfterTransfers(b: Balances, r: Balances, s: Sweep, k: nat)
    requires k <= |s.transfers|
  {
    && (forall i | 0 <= i < |s.transfers| ::
          Bal(b, s.transfers[i].source) == Bal(r, s.transfers[i].source) + if i < k then s.transfers[i].amount else 0)
    && Bal(r, s.minterAddress) == Bal(b, s.minterAddress) + Sum(Amounts(s.transfers)[..k])
  }

  lemma {:induction false} TransfersExecute(b: Balances, s: Sweep, k: nat)
    requires DistinctSources(s) && k <= |s.transfers|
    requires forall i | 0 <= i < |s.transfers| :: Bal(b, s.transfers[i].source) >= s.transfers[i].amount
    ensures var r := Executed(b, SweepInstructions(s.transfers, s.minterAddress)[..k]);
            r.Some? && AfterTransfers(b, r.value, s, k)
  {
    var all := SweepInstructions(s.transfers, s.minterAddress);
    if k == 0 {
      assert all[..0] == [];
    } else {
      TransfersExecute(b, s, k - 1);
      assert all[..k][..k - 1] == all[..k - 1];
      var r := Executed(b, all[..k - 1]).value;
      TransferStep(b, r, s, k);
    }
  }

  lemma TransferStep(b: Balances, r: Balances, s: Sweep, k: nat)
    requires DistinctSources(s) && 0 < k <= |s.transfers| && AfterTransfers(b, r, s, k - 1)
    requires forall i | 0 <= i < |s.transfers| :: Bal(b, s.transfers[i].source) >= s.transfers[i].amount
    ensures var t := s.transfers[k - 1];
            Bal(r, t.source) >= t.amount && AfterTransfers(b, Moved(r, t.source, s.minterAddress, t.amount), s, k)
  {
    var t := s.transfers[k - 1];
    assert Amounts(s.transfers)[..k] == Amounts(s.transfers)[..k - 1] + [t.amount];
    SumAppend(Amounts(s.transfers)[..k - 1], t.amount);
    hide Sum;
    var r' := Moved(r, t.source, s.minterAddress, t.amount);
    assert Bal(r', t.source) == Bal(r, t.source) - t.amount;
    forall i | 0 <= i < |s.transfers| && i != k - 1
      ensures Bal(r', s.transfers[i].source) == Bal(r, s.transfers[i].source)
    {
      assert s.transfers[i].source != t.source && s.transfers[i].source != s.minterAddress;
    }
  }

  /** Execution needs every source to cover its transfer. */
  lemma {:induction false} TransfersNeedFunds(b: Balances, s: Sweep, k: nat)
    requires DistinctSources(s) && k <= |s.transfers|
    requires Executed(b, SweepInstructions(s.transfers, s.minterAddress)[..k]).Some?
    ensures forall i | 0 <= i < k :: Bal(b, s.transfers[i].source) >= s.transfers[i].amount
    ensures var r := Executed(b, SweepInstructions(s.transfers, s.minterAddress)[..k]).value;
            forall i | k <= i < |s.transfers| :: Bal(r, s.transfers[i].source) == Bal(b, s.transfers[i].source)
  {
    var all := SweepInstructions(s.transfers, s.minterAddress);
    if k > 0 {
      assert all[..k][..k - 1] == all[..k - 1];
      assert all[..k][k - 1] == all[k - 1];
      TransfersNeedFunds(b, s, k - 1);
    }
  }

  /** The balances before and after are those of an execution of the sweep at the given fee. */
  ghost predicate SweepEffect(s: Sweep, fee: Lamport, pre: Balances, post: Balances) {
    && (forall i | 0 <= i < |s.transfers| ::
          Bal(pre, s.transfers[i].source) == Bal(post, s.transfers[i].source) + Decrease(s, i, fee))
    && Bal(post, s.minterAddress) == Bal(pre, s.minterAddress) + s.expectedReceived
  }

  /** Every execution has that effect, and the message executes exactly when the sources can pay. */
  lemma ExecutionEffect(s: Sweep, h: Hash, fee: Lamport, pre: Balances)
    requires Shaped(s) && DistinctSources(s)
    ensures Execute(pre, SweepMessage(s, h), fee).Some? <==> CanPay(s, fee, pre)
    ensures Execute(pre, SweepMessage(s, h), fee).Some? ==>
              SweepEffect(s, fee, pre, Execute(pre, SweepMessage(s, h), fee).value)
  {
    hide Executed, SweepEffect;
    var payer := s.transfers[0].source;
    if Bal(pre, payer) >= fee {
      ChargedExecution(s, fee, pre, pre[payer := Bal(pre, payer) - fee]);
    } else {
      assert Bal(pre, payer) < Decrease(s, 0, fee);
    }
  }

  ghost predicate CanPay(s: Sweep, fee: Lamport, pre: Balances) {
    forall i | 0 <= i < |s.transfers| :: Bal(pre, s.transfers[i].source) >= Decrease(s, i, fee)
  }

  lemma ChargedExecution(s: Sweep, fee: Lamport, pre: Balances, charged: Balances)
    requires Shaped(s) && DistinctSources(s)
    requires Bal(pre, s.transfers[0].source) >= fee
    requires charged == pre[s.transfers[0].source := Bal(pre, s.transfers[0].source) - fee]
    ensures var r := Executed(charged, SweepInstructions(s.transfers, s.minterAddress));
            (r.Some? <==> CanPay(s, fee, pre)) && (r.Some? ==> SweepEffect(s, fee, pre, r.value))
  {
    var n := |s.transfers|;
    var all := SweepInstructions(s.transfers, s.minterAddress);
    assert all[..n] == all && Amounts(s.transfers)[..n] == Amounts(s.transfers);
    ChargedFunds(s, fee, pre, charged);
    if Executed(charged, all).Some? {
      TransfersNeedFunds(charged, s, n);
    }
    if forall i | 0 <= i < n :: Bal(charged, s.transfers[i].source) >= s.transfers[i].amount {
      TransfersExecute(charged, s, n);
    }
  }

  lemma ChargedFunds(s: Sweep, fee: Lamport, pre: Balances, charged: Balances)
    requires s.transfers != [] && DistinctSources(s)
    requires Bal(pre, s.transfers[0].source) >= fee
    requires charged == pre[s.transfers[0].source := Bal(pre, s.transfers[0].source) - fee]
    ensures Bal(charged, s.minterAddress) == Bal(pre, s.minterAddress)
    ensures forall i | 0 <= i < |s.transfers| ::
              Bal(pre, s.transfers[i].source) - Bal(charged, s.transfers[i].source) == if i == 0 then fee else 0
  {}

  // ---------- settlement ----------

  datatype FetchedMessage = Legacy(message: Message) | V0

  datatype Meta = Meta(err: bool, fee: Lamport, preBalances: seq<Lamport>, postBalances: seq<Lamport>)

  datatype Unreadable = NoMetaField | IncompleteBalances

  datatype Mismatch =
    | TransactionFailed
    | UnexpectedMessage
    | UnexpectedFee(expected: Lamport, actual: Lamport)
    | UnexpectedBalanceChange(address: Address, pre: Lamport, post: Lamport, expectedDecrease: Lamport)
    | NotRentExempt(address: Address, post: Lamport)
    | MainAccountDebited(pre: Lamport, post: Lamport)
    | UnexpectedAmountReceived(expected: Lamport, actual: Lamport)
    | FeesExceedSweepableAmount

  datatype Settlement =
    | Settled(amountReceived: Lamport, mints: seq<CreditedDeposit>)
    | Retry(reason: Unreadable)
    | Quarantine(mismatch: Mismatch)

  /** The balances the metadata reports for the given keys. */
  function Reported(keys: seq<Address>, amounts: seq<Lamport>): Balances
    requires |keys| == |amounts|
  {
    if keys == [] then map[] else
      var n := |keys| - 1;
      Reported(keys[..n], amounts[..n])[keys[n] := amounts[n]]
  }

  /** The first transfer whose source did not change as planned, or ended below the rent threshold. */
  function CheckTransfers(s: Sweep, fee: Lamport, pre: Balances, post: Balances, i: nat): Option<Mismatch>
    requires i <= |s.transfers|
    decreases |s.transfers| - i
  {
    if i == |s.transfers| then None else
      var t := s.transfers[i];
      var paid := if t.depositId == s.feePayer then fee else 0;
      if t.source !in pre || t.source !in post then Some(UnexpectedMessage)
      else if pre[t.source] != post[t.source] + t.amount + paid then
        Some(UnexpectedBalanceChange(t.source, pre[t.source], post[t.source], t.amount + paid))
      else if post[t.source] < RENT_EXEMPTION_THRESHOLD then Some(NotRentExempt(t.source, post[t.source]))
      else CheckTransfers(s, fee, pre, post, i + 1)
  }

  /** The checks on the reported balances, once the executed message is known to be the planned one. */
  function SettleBalances(s: Sweep, fee: Lamport, pre: Balances, post: Balances): Settlement
    requires s.deposits.Keys != {}
  {
    match CheckTransfers(s, fee, pre, post, 0)
    case Some(mismatch) => Quarantine(mismatch)
    case None =>
      if s.minterAddress !in pre || s.minterAddress !in post then Quarantine(UnexpectedMessage)
      else if post[s.minterAddress] < pre[s.minterAddress] then
        Quarantine(MainAccountDebited(pre[s.minterAddress], post[s.minterAddress]))
      else
        var received := post[s.minterAddress] - pre[s.minterAddress];
        if received != s.expectedReceived then Quarantine(UnexpectedAmountReceived(s.expectedReceived, received))
        else match Mints(s)
          case None => Quarantine(FeesExceedSweepableAmount)
          case Some(mints) => Settled(received, mints)
  }

  function Settle(s: Sweep, fetched: FetchedMessage, meta: Option<Meta>): Settlement
    requires s.deposits.Keys != {}
  {
    if meta.None? then Retry(NoMetaField)
    else if meta.value.err then Quarantine(TransactionFailed)
    else if fetched.V0? then Quarantine(UnexpectedMessage)
    else if fetched.message != SweepMessage(s, fetched.message.blockhash) then Quarantine(UnexpectedMessage)
    else
      var keys, m := AccountKeys(fetched.message), meta.value;
      if |m.preBalances| != |keys| || |m.postBalances| != |keys| then Retry(IncompleteBalances)
      else if m.fee > s.fee then Quarantine(UnexpectedFee(s.fee, m.fee))
      else SettleBalances(s, m.fee, Reported(keys, m.preBalances), Reported(keys, m.postBalances))
  }

  lemma {:induction false} ReportedKeys(keys: seq<Address>, amounts: seq<Lamport>)
    requires |keys| == |amounts| && Distinct(keys)
    ensures Reported(keys, amounts).Keys == Elems(keys)
    ensures forall i | 0 <= i < |keys| :: Bal(Reported(keys, amounts), keys[i]) == amounts[i]
  {
    if keys != [] {
      var n := |keys| - 1;
      ReportedKeys(keys[..n], amounts[..n]);
      assert keys == keys[..n] + [keys[n]];
      ElemsAppend(keys[..n], keys[n]);
      forall i | 0 <= i < |keys| ensures Bal(Reported(keys, amounts), keys[i]) == amounts[i] {
        if i < n {
          assert keys[..n][i] == keys[i] && keys[i] != keys[n];
        }
      }
    }
  }

  ghost predicate RentExempt(s: Sweep, post: Balances) {
    forall i | 0 <= i < |s.transfers| :: Bal(post, s.transfers[i].source) >= RENT_EXEMPTION_THRESHOLD
  }

  ghost predicate SourceAsPlanned(s: Sweep, fee: Lamport, pre: Balances, post: Balances, i: nat)
    requires i < |s.transfers|
  {
    && Bal(pre, s.transfers[i].source) == Bal(post, s.transfers[i].source) + Decrease(s, i, fee)
    && Bal(post, s.transfers[i].source) >= RENT_EXEMPTION_THRESHOLD
  }

  lemma {:induction false} CheckTransfersIff(s: Sweep, fee: Lamport, pre: Balances, post: Balances, i: nat)
    requires i <= |s.transfers|
    requires forall j | 0 <= j < |s.transfers| :: s.transfers[j].depositId == s.feePayer <==> j == 0
    requires forall j | 0 <= j < |s.transfers| :: s.transfers[j].source in pre && s.transfers[j].source in post
    ensures CheckTransfers(s, fee, pre, post, i).None? <==>
            forall j | i <= j < |s.transfers| :: SourceAsPlanned(s, fee, pre, post, j)
    decreases |s.transfers| - i
  {
    if i < |s.transfers| {
      CheckTransfersIff(s, fee, pre, post, i + 1);
      var t := s.transfers[i];
      assert t.depositId == s.feePayer <==> i == 0;
      assert CheckTransfers(s, fee, pre, post, i).None? <==>
             SourceAsPlanned(s, fee, pre, post, i) && CheckTransfers(s, fee, pre, post, i + 1).None?;
    }
  }

  lemma SettleBalancesIff(s: Sweep, fee: Lamport, pre: Balances, post: Balances)
    requires Shaped(s)
    requires forall j | 0 <= j < |s.transfers| :: s.transfers[j].source in pre && s.transfers[j].source in post
    requires s.minterAddress in pre && s.minterAddress in post
    ensures SettleBalances(s, fee, pre, post).Settled? <==>
              SweepEffect(s, fee, pre, post) && RentExempt(s, post) && Mints(s).Some?
    ensures SettleBalances(s, fee, pre, post).Settled? ==>
              SettleBalances(s, fee, pre, post) == Settled(s.expectedReceived, Mints(s).value)
  {
    CheckTransfersIff(s, fee, pre, post, 0);
    AsPlannedIff(s, fee, pre, post);
  }

  lemma AsPlannedIff(s: Sweep, fee: Lamport, pre: Balances, post: Balances)
    ensures SweepEffect(s, fee, pre, post) && RentExempt(s, post) <==>
            && (forall j | 0 <= j < |s.transfers| :: SourceAsPlanned(s, fee, pre, post, j))
            && Bal(post, s.minterAddress) == Bal(pre, s.minterAddress) + s.expectedReceived
  {
    if forall j | 0 <= j < |s.transfers| :: SourceAsPlanned(s, fee, pre, post, j) {
      forall i | 0 <= i < |s.transfers|
        ensures Bal(pre, s.transfers[i].source) == Bal(post, s.transfers[i].source) + Decrease(s, i, fee)
        ensures Bal(post, s.transfers[i].source) >= RENT_EXEMPTION_THRESHOLD
      {
        assert SourceAsPlanned(s, fee, pre, post, i);
      }
    }
  }

  /** The chain's report is readable: it covers the keys of the executed message. */
  ghost predicate Readable(s: Sweep, h: Hash, m: Meta) {
    var keys := AccountKeys(SweepMessage(s, h));
    |m.preBalances| == |keys| && |m.postBalances| == |keys|
  }

  ghost function PreOf(s: Sweep, h: Hash, m: Meta): Balances
    requires Readable(s, h, m)
  {
    Reported(AccountKeys(SweepMessage(s, h)), m.preBalances)
  }

  ghost function PostOf(s: Sweep, h: Hash, m: Meta): Balances
    requires Readable(s, h, m)
  {
    Reported(AccountKeys(SweepMessage(s, h)), m.postBalances)
  }

  /** A settlement succeeds exactly when the planned message was executed without error, at a
      fee within the planned one, with the effect of an execution of the plan, leaving every
      source rent-exempt, and the fees of every deposit fit into what was swept for it. */
  lemma SettleIff(s: Sweep, fetched: FetchedMessage, meta: Option<Meta>)
    requires Shaped(s)
    ensures Settle(s, fetched, meta).Settled? <==>
            && meta.Some? && !meta.value.err && fetched.Legacy?
            && fetched.message == SweepMessage(s, fetched.message.blockhash)
            && Readable(s, fetched.message.blockhash, meta.value)
            && meta.value.fee <= s.fee
            && SweepEffect(s, meta.value.fee, PreOf(s, fetched.message.blockhash, meta.value),
                           PostOf(s, fetched.message.blockhash, meta.value))
            && RentExempt(s, PostOf(s, fetched.message.blockhash, meta.value))
            && Mints(s).Some?
    ensures Settle(s, fetched, meta).Settled? ==>
              Settle(s, fetched, meta) == Settled(s.expectedReceived, Mints(s).value)
  {
    hide SettleBalances, SweepEffect, RentExempt, Mints, Reported, AccountKeys, SweepMessage;
    if meta.Some? && fetched.Legacy? && fetched.message == SweepMessage(s, fetched.message.blockhash)
       && Readable(s, fetched.message.blockhash, meta.value) {
      var h, m := fetched.message.blockhash, meta.value;
      ReportCovers(s, h, m);
      SettleBalancesIff(s, m.fee, PreOf(s, h, m), PostOf(s, h, m));
    }
  }

  /** The report names every source and the destination. */
  lemma ReportCovers(s: Sweep, h: Hash, m: Meta)
    requires Shaped(s) && Readable(s, h, m)
    ensures s.minterAddress in PreOf(s, h, m) && s.minterAddress in PostOf(s, h, m)
    ensures forall i | 0 <= i < |s.transfers| ::
              s.transfers[i].source in PreOf(s, h, m) && s.transfers[i].source in PostOf(s, h, m)
  {
    var keys := AccountKeys(SweepMessage(s, h));
    ReportedKeys(keys, m.preBalances);
    ReportedKeys(keys, m.postBalances);
    SweepReferenced(s, h);
    forall i | 0 <= i < |s.transfers| ensures s.transfers[i].source in Elems(keys) {
      assert Sources(s.transfers)[i] in Elems(Sources(s.transfers));
    }
  }

  // ---------- what is retried and what is quarantined ----------

  /** The executed message is the one the plan builds. */
  ghost predicate Planned(s: Sweep, fetched: FetchedMessage) {
    fetched.Legacy? && fetched.message == SweepMessage(s, fetched.message.blockhash)
  }

  /** The mismatch that the i-th transfer of a report shows. */
  ghost predicate Shows(s: Sweep, fee: Lamport, pre: Balances, post: Balances, i: nat, m: Mismatch)
    requires i < |s.transfers|
  {
    var a := s.transfers[i].source;
    if Bal(pre, a) != Bal(post, a) + Decrease(s, i, fee)
    then m == UnexpectedBalanceChange(a, Bal(pre, a), Bal(post, a), Decrease(s, i, fee))
    else m == NotRentExempt(a, Bal(post, a)) && Bal(post, a) < 890_880
  }

  /** The first transfer that is not as planned decides the mismatch. */
  ghost predicate FirstShows(s: Sweep, fee: Lamport, pre: Balances, post: Balances, i: nat, m: Mismatch)
    requires i < |s.transfers|
  {
    && (forall j | 0 <= j < i :: SourceAsPlanned(s, fee, pre, post, j))
    && !SourceAsPlanned(s, fee, pre, post, i) && Shows(s, fee, pre, post, i, m)
  }

  lemma {:induction false} CheckTransfersShows(s: Sweep, fee: Lamport, pre: Balances, post: Balances, i: nat)
    requires Shaped(s) && i <= |s.transfers|
    requires forall j | 0 <= j < |s.transfers| :: s.transfers[j].source in pre && s.transfers[j].source in post
    requires forall j | 0 <= j < i :: SourceAsPlanned(s, fee, pre, post, j)
    ensures CheckTransfers(s, fee, pre, post, i).Some? ==>
              exists k | 0 <= k < |s.transfers| :: FirstShows(s, fee, pre, post, k, CheckTransfers(s, fee, pre, post, i).value)
    decreases |s.transfers| - i
  {
    if i < |s.transfers| {
      if SourceAsPlanned(s, fee, pre, post, i) {
        CheckTransfersShows(s, fee, pre, post, i + 1);
      } else {
        assert FirstShows(s, fee, pre, post, i, CheckTransfers(s, fee, pre, post, i).value);
      }
    }
  }

  /** Every source is as planned. */
  ghost predicate SourcesAsPlanned(s: Sweep, fee: Lamport, pre: Balances, post: Balances) {
    forall i | 0 <= i < |s.transfers| :: SourceAsPlanned(s, fee, pre, post, i)
  }

  /** The mismatch of a readable report of the planned message: the first source that is not as
      planned; or else the main address, which lost lamports or received another amount; or else the
      fees of some deposit, which exceed what was swept for it. */
  ghost predicate Mismatched(s: Sweep, fee: Lamport, pre: Balances, post: Balances, m: Mismatch) {
    if !SourcesAsPlanned(s, fee, pre, post) then
      exists i | 0 <= i < |s.transfers| :: FirstShows(s, fee, pre, post, i, m)
    else
      var before, after := Bal(pre, s.minterAddress), Bal(post, s.minterAddress);
      if after < before then m == MainAccountDebited(before, after)
      else if after - before != s.expectedReceived then m == UnexpectedAmountReceived(s.expectedReceived, after - before)
      else m == FeesExceedSweepableAmount && s.deposits.Keys != {} && Mints(s).None?
  }

  lemma SettleBalancesShows(s: Sweep, fee: Lamport, pre: Balances, post: Balances)
    requires Shaped(s) && s.minterAddress in pre && s.minterAddress in post
    requires forall i | 0 <= i < |s.transfers| :: s.transfers[i].source in pre && s.transfers[i].source in post
    ensures !SettleBalances(s, fee, pre, post).Retry?
    ensures SettleBalances(s, fee, pre, post).Quarantine? ==>
              Mismatched(s, fee, pre, post, SettleBalances(s, fee, pre, post).mismatch)
  {
    hide Mints, Shows;
    CheckTransfersIff(s, fee, pre, post, 0);
    CheckTransfersShows(s, fee, pre, post, 0);
  }

  /** Every report has one of these outcomes, exactly when it says. A report without metadata, or one of
      the planned message that lists too few or too many balances, is fetched again. A transaction that
      failed, another message or a fee above the planned one is a mismatch of that name. Any other
      report settles, or is quarantined for what it shows. */
  lemma SettleOutcome(s: Sweep, fetched: FetchedMessage, meta: Option<Meta>)
    requires Shaped(s)
    ensures Settle(s, fetched, meta) == Retry(NoMetaField) <==> meta.None?
    ensures Settle(s, fetched, meta) == Quarantine(TransactionFailed) <==> meta.Some? && meta.value.err
    ensures Settle(s, fetched, meta) == Quarantine(UnexpectedMessage) <==> meta.Some? && !meta.value.err && !Planned(s, fetched)
    ensures Settle(s, fetched, meta) == Retry(IncompleteBalances) <==>
            && meta.Some? && !meta.value.err && Planned(s, fetched)
            && !Readable(s, fetched.message.blockhash, meta.value)
    ensures meta.Some? && !meta.value.err && Planned(s, fetched) && Readable(s, fetched.message.blockhash, meta.value) ==>
              var h, m, r := fetched.message.blockhash, meta.value, Settle(s, fetched, meta);
              if m.fee > s.fee then r == Quarantine(UnexpectedFee(s.fee, m.fee))
              else r.Settled? || (r.Quarantine? && Mismatched(s, m.fee, PreOf(s, h, m), PostOf(s, h, m), r.mismatch))
  {
    hide SettleBalances, Mints, Reported, AccountKeys, SweepMessage, Mismatched;
    if meta.Some? && Planned(s, fetched) && Readable(s, fetched.message.blockhash, meta.value) {
      var h, m := fetched.message.blockhash, meta.value;
      ReportCovers(s, h, m);
      SettleBalancesShows(s, m.fee, PreOf(s, h, m), PostOf(s, h, m));
      NoSuchMismatch(s, m.fee, PreOf(s, h, m), PostOf(s, h, m));
    }
  }

  /** What balances show is never a failure or another message. */
  lemma NoSuchMismatch(s: Sweep, fee: Lamport, pre: Balances, post: Balances)
    ensures !Mismatched(s, fee, pre, post, TransactionFailed) && !Mismatched(s, fee, pre, post, UnexpectedMessage)
  {}

  // ---------- soundness and completeness ----------

  ghost function Decreases(s: Sweep, fee: Lamport): seq<Lamport> {
    seq(|s.transfers|, i requires 0 <= i < |s.transfers| => Decrease(s, i, fee))
  }

  /** Lamports are conserved: what left the deposit addresses is what the main address
      received plus the fee charged. */
  lemma EffectConserves(s: Sweep, fee: Lamport)
    requires Shaped(s)
    ensures Sum(Decreases(s, fee)) == s.expectedReceived + fee
  {
    var d, a := Decreases(s, fee), Amounts(s.transfers);
    assert d[1..] == a[1..];
    SumHead(d);
    SumHead(a);
  }

  /** Completeness: every execution of the planned message, at a fee within the planned one and
      with at least the recorded balance on every deposit address, settles, whatever was
      deposited on the addresses in the meantime. */
  lemma EveryExecutionSettles(s: Sweep, h: Hash, pre: Balances, post: Balances, m: Meta)
    requires Shaped(s) && DistinctSources(s) && Mints(s).Some?
    requires m.fee <= s.fee && !m.err
    requires forall id | id in s.deposits :: Bal(pre, s.deposits[id].address) >= s.deposits[id].balance
    requires Execute(pre, SweepMessage(s, h), m.fee) == Some(post)
    requires Reports(s, h, m, pre, post)
    ensures Settle(s, Legacy(SweepMessage(s, h)), Some(m)) == Settled(s.expectedReceived, Mints(s).value)
  {
    ExecutionEffect(s, h, m.fee, pre);
    EffectRentExempt(s, m.fee, pre, post);
    ReportedEffect(s, h, m, pre, post);
    SettleIff(s, Legacy(SweepMessage(s, h)), Some(m));
  }

  /** Whatever parts of a truthful report are missing, an execution of the planned message is never
      quarantined: it settles once the report is complete, and is retried until then. */
  lemma MissingReportsOnlyDelay(s: Sweep, h: Hash, pre: Balances, post: Balances, fee: Lamport, meta: Option<Meta>)
    requires Shaped(s) && DistinctSources(s) && Mints(s).Some? && fee <= s.fee
    requires forall id | id in s.deposits :: Bal(pre, s.deposits[id].address) >= s.deposits[id].balance
    requires Execute(pre, SweepMessage(s, h), fee) == Some(post)
    requires meta.Some? ==> !meta.value.err && meta.value.fee == fee
    requires meta.Some? && Readable(s, h, meta.value) ==> Reports(s, h, meta.value, pre, post)
    ensures var complete := meta.Some? && Readable(s, h, meta.value);
            && (complete ==> Settle(s, Legacy(SweepMessage(s, h)), meta) == Settled(s.expectedReceived, Mints(s).value))
            && (!complete ==> Settle(s, Legacy(SweepMessage(s, h)), meta).Retry?)
  {
    hide Mints, Execute, Reported, AccountKeys, SettleBalances, Shaped, DistinctSources, Reports;
    if meta.Some? && Readable(s, h, meta.value) {
      EveryExecutionSettles(s, h, pre, post, meta.value);
    }
  }

  /** A truthful report shows the effect that took place. */
  lemma ReportedEffect(s: Sweep, h: Hash, m: Meta, pre: Balances, post: Balances)
    requires Shaped(s) && Reports(s, h, m, pre, post)
    requires SweepEffect(s, m.fee, pre, post) && RentExempt(s, post)
    ensures SweepEffect(s, m.fee, PreOf(s, h, m), PostOf(s, h, m)) && RentExempt(s, PostOf(s, h, m))
  {
    ReportAgrees(s, h, m, pre, post);
  }

  /** At a fee within the planned one no deposit address drops below the rent threshold. */
  lemma EffectRentExempt(s: Sweep, fee: Lamport, pre: Balances, post: Balances)
    requires Shaped(s) && fee <= s.fee && SweepEffect(s, fee, pre, post)
    requires forall id | id in s.deposits :: Bal(pre, s.deposits[id].address) >= s.deposits[id].balance
    ensures RentExempt(s, post)
  {
    forall i | 0 <= i < |s.transfers| ensures Bal(post, s.transfers[i].source) >= RENT_EXEMPTION_THRESHOLD {
      assert Bal(pre, s.deposits[s.transfers[i].depositId].address) >= s.deposits[s.transfers[i].depositId].balance;
    }
  }

  /** The metadata lists the balances before and after for every key of the message. */
  ghost predicate Reports(s: Sweep, h: Hash, m: Meta, pre: Balances, post: Balances) {
    var keys := AccountKeys(SweepMessage(s, h));
    && Readable(s, h, m)
    && (forall i | 0 <= i < |keys| :: m.preBalances[i] == Bal(pre, keys[i]))
    && (forall i | 0 <= i < |keys| :: m.postBalances[i] == Bal(post, keys[i]))
  }

  lemma ReportAgrees(s: Sweep, h: Hash, m: Meta, pre: Balances, post: Balances)
    requires Shaped(s) && Reports(s, h, m, pre, post)
    ensures forall a | a in Elems(AccountKeys(SweepMessage(s, h))) ::
              Bal(PreOf(s, h, m), a) == Bal(pre, a) && Bal(PostOf(s, h, m), a) == Bal(post, a)
    ensures forall i | 0 <= i < |s.transfers| :: s.transfers[i].source in Elems(AccountKeys(SweepMessage(s, h)))
    ensures s.minterAddress in Elems(AccountKeys(SweepMessage(s, h)))
  {
    var keys := AccountKeys(SweepMessage(s, h));
    ReportedKeys(keys, m.preBalances);
    ReportedKeys(keys, m.postBalances);
    ReportCovers(s, h, m);
    forall a | a in Elems(keys)
      ensures Bal(PreOf(s, h, m), a) == Bal(pre, a) && Bal(PostOf(s, h, m), a) == Bal(post, a)
    {
      var i :| 0 <= i < |keys| && keys[i] == a;
    }
  }
}
