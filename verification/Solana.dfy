/** Solana values as the minter sees them: keys, addresses, signatures and messages.

    Key derivation is modelled as a free algebra: distinct derivation paths give distinct
    addresses, and the master address is never a deposit address. */
module Solana {
  import opened Prelude

  type Lamport = nat
  type Hash = nat
  type BlockHeight = nat

  newtype Byte = x: int | 0 <= x < 256

  const SIGNATURE_BYTES: nat := 64

  type Bytes64 = s: seq<Byte> | |s| == SIGNATURE_BYTES witness seq(SIGNATURE_BYTES, _ => 0)

  datatype Signature = Signature(bytes: Bytes64)

  datatype Principal = Anonymous | Canister(id: nat)

  datatype Account = Account(owner: Principal, subaccount: nat)

  datatype SchnorrPublicKey = SchnorrPublicKey(publicKey: nat, chainCode: nat)

  datatype Address =
    | Master(publicKey: nat)
    | Deposit(key: SchnorrPublicKey, account: Account)
    | Foreign(id: nat)

  /** The minter's main address: the master public key itself. */
  function MinterAddress(key: SchnorrPublicKey): Address {
    Master(key.publicKey)
  }

  function AccountAddress(key: SchnorrPublicKey, account: Account): Address {
    Deposit(key, account)
  }

  const SYSTEM_PROGRAM: Address := Foreign(0)
  const RECENT_BLOCKHASHES_SYSVAR: Address := Foreign(1)

  // ---------- fees and limits ----------

  const FEE_PER_SIGNATURE: Lamport := 5_000
  const RENT_EXEMPTION_THRESHOLD: Lamport := 890_880
  const MAX_SIGNATURES: nat := 10
  const MAX_TX_SIZE: nat := 1_232
  const MAX_WITHDRAWALS_PER_NONCE_TX: nat := 10
  const BATCH_WITHDRAWAL_TX_FEE: Lamport := FEE_PER_SIGNATURE

  // ---------- messages ----------

  datatype Instruction =
    | AdvanceNonceAccount(nonceAccount: Address, authority: Address)
    | TransferLamports(source: Address, target: Address, amount: Lamport)

  datatype Message = Message(feePayer: Option<Address>, instructions: seq<Instruction>, blockhash: Hash)

  /** The nonce account advanced by the first instruction, if that is what it does. */
  function AdvancedNonceAccount(m: Message): Option<Address> {
    if m.instructions != [] && m.instructions[0].AdvanceNonceAccount?
    then Some(m.instructions[0].nonceAccount)
    else None
  }

  function InstructionAccounts(i: Instruction): seq<Address> {
    match i
    case AdvanceNonceAccount(nonceAccount, authority) =>
      [nonceAccount, RECENT_BLOCKHASHES_SYSVAR, authority]
    case TransferLamports(source, target, _) => [source, target]
  }

  function InstructionSigner(i: Instruction): Address {
    match i
    case AdvanceNonceAccount(_, authority) => authority
    case TransferLamports(source, _, _) => source
  }

  /** The accounts a message refers to: its fee payer, those of its instructions, and the
      system program that runs them. The order of the compiled key list is not modelled
      beyond the fee payer coming first. */
  function KeysOf(instructions: seq<Instruction>): seq<Address> {
    if instructions == [] then [] else
      KeysOf(instructions[..|instructions| - 1]) + InstructionAccounts(instructions[|instructions| - 1])
  }

  function Payer(m: Message): seq<Address> {
    match m.feePayer case None => [] case Some(a) => [a]
  }

  function Referenced(m: Message): seq<Address> {
    Payer(m) + KeysOf(m.instructions) + [SYSTEM_PROGRAM]
  }

  /** A sequence with the repetitions removed, first occurrences kept. */
  function Dedup(s: seq<Address>): (r: seq<Address>)
    ensures Elems(r) == Elems(s) && Distinct(r)
  {
    if s == [] then [] else
      var front, last := s[..|s| - 1], s[|s| - 1];
      assert s == front + [last];
      ElemsAppend(front, last);
      ElemsAppend(Dedup(front), last);
      assert last in Dedup(front) <==> last in Elems(Dedup(front));
      if last in Dedup(front) then Dedup(front) else Dedup(front) + [last]
  }

  function AccountKeys(m: Message): seq<Address> {
    Dedup(Referenced(m))
  }

  function Signers(m: Message): set<Address> {
    Elems(Payer(m)) + set i | i in m.instructions :: InstructionSigner(i)
  }

  function TransactionFee(m: Message): Lamport {
    FEE_PER_SIGNATURE * |Signers(m)|
  }

  // ---------- transaction size ----------

  /** Bytes of a compact-u16 length. */
  function CompactLen(n: nat): nat {
    if n < 0x80 then 1 else if n < 0x4000 then 2 else 3
  }

  /** Program index, account indexes and data (a u32 tag, and a u64 amount for a transfer). */
  function InstructionSize(i: Instruction): nat {
    var data := if i.AdvanceNonceAccount? then 4 else 12;
    1 + CompactLen(|InstructionAccounts(i)|) + |InstructionAccounts(i)| + CompactLen(data) + data
  }

  function InstructionsSize(s: seq<Instruction>): nat {
    if s == [] then 0 else InstructionsSize(s[..|s| - 1]) + InstructionSize(s[|s| - 1])
  }

  /** The serialized message: header, key list, blockhash and instructions. */
  function MessageSize(m: Message): nat {
    3 + CompactLen(|AccountKeys(m)|) + 32 * |AccountKeys(m)| + 32
    + CompactLen(|m.instructions|) + InstructionsSize(m.instructions)
  }

  /** The signed transaction, its signature count in one byte. */
  function TransactionSize(m: Message): nat {
    1 + MessageSize(m) + SIGNATURE_BYTES * |Signers(m)|
  }

  // ---------- withdrawal messages ----------

  function TransfersFrom(source: Address, transfers: seq<(Address, Lamport)>): seq<Instruction> {
    seq(|transfers|, i requires 0 <= i < |transfers| =>
      TransferLamports(source, transfers[i].0, transfers[i].1))
  }

  function WithdrawalMessage(minter: Address, nonceAccount: Address, nonce: Hash,
                             transfers: seq<(Address, Lamport)>): Message {
    Message(Some(minter), [AdvanceNonceAccount(nonceAccount, minter)] + TransfersFrom(minter, transfers), nonce)
  }

  /** Builds the message of a batch withdrawal, or fails when it is too large to send. */
  method BuildBatchWithdrawalMessage(minter: Address, nonceAccount: Address, nonce: Hash,
                                     transfers: seq<(Address, Lamport)>) returns (r: Option<Message>)
    ensures r.Some? <==> TransactionSize(WithdrawalMessage(minter, nonceAccount, nonce, transfers)) <= 1_232
    ensures r.Some? ==> r.value == WithdrawalMessage(minter, nonceAccount, nonce, transfers)
    // A batch within the limit is always small enough.
    ensures |transfers| <= MAX_WITHDRAWALS_PER_NONCE_TX ==> r.Some?
  {
    var instructions := [AdvanceNonceAccount(nonceAccount, minter)];
    var i := 0;
    while i < |transfers|
      invariant 0 <= i <= |transfers|
      invariant instructions == [AdvanceNonceAccount(nonceAccount, minter)] + TransfersFrom(minter, transfers[..i])
    {
      instructions := instructions + [TransferLamports(minter, transfers[i].0, transfers[i].1)];
      i := i + 1;
    }
    assert transfers[..|transfers|] == transfers;
    var message := Message(Some(minter), instructions, nonce);
    if |transfers| <= MAX_WITHDRAWALS_PER_NONCE_TX {
      WithdrawalFits(minter, nonceAccount, nonce, transfers);
    }
    r := if TransactionSize(message) <= MAX_TX_SIZE then Some(message) else None;
  }

  lemma {:induction false} TransfersSize(source: Address, transfers: seq<(Address, Lamport)>)
    ensures InstructionsSize(TransfersFrom(source, transfers)) == 17 * |transfers|
  {
    if transfers != [] {
      var n := |transfers| - 1;
      assert TransfersFrom(source, transfers)[..n] == TransfersFrom(source, transfers[..n]);
      TransfersSize(source, transfers[..n]);
    }
  }

  lemma {:induction false} InstructionsSizeCons(i: Instruction, s: seq<Instruction>)
    ensures InstructionsSize([i] + s) == InstructionSize(i) + InstructionsSize(s)
  {
    if s == [] {
      assert [i] + s == [i];
      assert [i][..0] == [];
    } else {
      assert ([i] + s)[..|s|] == [i] + s[..|s| - 1];
      InstructionsSizeCons(i, s[..|s| - 1]);
    }
  }

  lemma {:induction false} TransfersKeys(source: Address, transfers: seq<(Address, Lamport)>)
    ensures Elems(KeysOf(TransfersFrom(source, transfers))) ==
            (set t | t in transfers :: t.0) + (if transfers == [] then {} else {source})
  {
    if transfers != [] {
      var n := |transfers| - 1;
      var all := TransfersFrom(source, transfers);
      assert all[..n] == TransfersFrom(source, transfers[..n]);
      TransfersKeys(source, transfers[..n]);
      TargetsAppend(transfers[..n], transfers[n]);
      assert transfers == transfers[..n] + [transfers[n]];
      ElemsConcat(KeysOf(all[..n]), InstructionAccounts(all[n]));
      assert KeysOf(all) == KeysOf(all[..n]) + [source, transfers[n].0];
      hide KeysOf, TransfersFrom;
      assert Elems([source, transfers[n].0]) == {source, transfers[n].0};
    }
  }

  lemma TargetsAppend(transfers: seq<(Address, Lamport)>, last: (Address, Lamport))
    ensures (set t | t in transfers + [last] :: t.0) == (set t | t in transfers :: t.0) + {last.0}
  {}

  lemma {:induction false} KeysCons(i: Instruction, s: seq<Instruction>)
    ensures Elems(KeysOf([i] + s)) == Elems(InstructionAccounts(i)) + Elems(KeysOf(s))
  {
    if s == [] {
      assert [i] + s == [i];
      assert [i][..0] == [];
      assert [] + InstructionAccounts(i) == InstructionAccounts(i);
    } else {
      var n := |s| - 1;
      assert ([i] + s)[..n + 1] == [i] + s[..n];
      KeysCons(i, s[..n]);
      ElemsConcat(KeysOf([i] + s[..n]), InstructionAccounts(s[n]));
      ElemsConcat(KeysOf(s[..n]), InstructionAccounts(s[n]));
    }
  }

  lemma {:induction false} TargetsCard(transfers: seq<(Address, Lamport)>)
    ensures |set t | t in transfers :: t.0| <= |transfers|
  {
    if transfers != [] {
      var n := |transfers| - 1;
      TargetsCard(transfers[..n]);
      assert transfers == transfers[..n] + [transfers[n]];
      TargetsAppend(transfers[..n], transfers[n]);
    }
  }

  /** A withdrawal message is signed by the minter alone. */
  lemma WithdrawalSigners(minter: Address, nonceAccount: Address, nonce: Hash, transfers: seq<(Address, Lamport)>)
    ensures Signers(WithdrawalMessage(minter, nonceAccount, nonce, transfers)) == {minter}
  {}

  /** At most ten withdrawals never exceed the size limit of a transaction. */
  lemma WithdrawalFits(minter: Address, nonceAccount: Address, nonce: Hash, transfers: seq<(Address, Lamport)>)
    requires |transfers| <= 10
    ensures TransactionSize(WithdrawalMessage(minter, nonceAccount, nonce, transfers)) <= 1_232
  {
    var m := WithdrawalMessage(minter, nonceAccount, nonce, transfers);
    var advance := AdvanceNonceAccount(nonceAccount, minter);
    WithdrawalKeysBound(minter, nonceAccount, nonce, transfers);
    WithdrawalSigners(minter, nonceAccount, nonce, transfers);
    InstructionsSizeCons(advance, TransfersFrom(minter, transfers));
    TransfersSize(minter, transfers);
    assert |Signers(m)| == 1;
  }

  ghost predicate DistinctTargets(minter: Address, nonceAccount: Address, transfers: seq<(Address, Lamport)>) {
    && Distinct([minter, nonceAccount, RECENT_BLOCKHASHES_SYSVAR, SYSTEM_PROGRAM] + Targets(transfers))
  }

  function Targets(transfers: seq<(Address, Lamport)>): seq<Address> {
    seq(|transfers|, i requires 0 <= i < |transfers| => transfers[i].0)
  }

  /** A withdrawal to n different addresses takes 240 + 49 n bytes: twenty would fit, twenty-one would
      not. */
  lemma WithdrawalSizeIs(minter: Address, nonceAccount: Address, nonce: Hash, transfers: seq<(Address, Lamport)>)
    requires DistinctTargets(minter, nonceAccount, transfers) && 1 <= |transfers| <= 100
    ensures TransactionSize(WithdrawalMessage(minter, nonceAccount, nonce, transfers)) == 240 + 49 * |transfers|
    ensures TransactionSize(WithdrawalMessage(minter, nonceAccount, nonce, transfers)) <= 1_232 <==> |transfers| <= 20
  {
    hide KeysOf, TransfersFrom, InstructionsSize, AccountKeys, Signers;
    var m := WithdrawalMessage(minter, nonceAccount, nonce, transfers);
    WithdrawalKeyCount(minter, nonceAccount, nonce, transfers);
    assert Signers(m) == {minter} by { WithdrawalSigners(minter, nonceAccount, nonce, transfers); }
    InstructionsSizeCons(AdvanceNonceAccount(nonceAccount, minter), TransfersFrom(minter, transfers));
    TransfersSize(minter, transfers);
    assert |TransfersFrom(minter, transfers)| == |transfers| by { TransfersCount(minter, transfers); }
  }

  lemma TransfersCount(source: Address, transfers: seq<(Address, Lamport)>)
    ensures |TransfersFrom(source, transfers)| == |transfers|
  {}

  lemma WithdrawalKeyCount(minter: Address, nonceAccount: Address, nonce: Hash, transfers: seq<(Address, Lamport)>)
    requires DistinctTargets(minter, nonceAccount, transfers)
    ensures |AccountKeys(WithdrawalMessage(minter, nonceAccount, nonce, transfers))| == 4 + |transfers|
  {
    hide KeysOf, TransfersFrom, Referenced;
    var four := [minter, nonceAccount, RECENT_BLOCKHASHES_SYSVAR, SYSTEM_PROGRAM];
    WithdrawalReferenced(minter, nonceAccount, nonce, transfers);
    TargetsAre(transfers);
    ElemsConcat(four, Targets(transfers));
    assert Elems(four) == {minter, nonceAccount, RECENT_BLOCKHASHES_SYSVAR, SYSTEM_PROGRAM};
    ElemsCard(four + Targets(transfers));
    ElemsCard(AccountKeys(WithdrawalMessage(minter, nonceAccount, nonce, transfers)));
  }

  lemma TargetsAre(transfers: seq<(Address, Lamport)>)
    ensures Elems(Targets(transfers)) == set t | t in transfers :: t.0
  {
    forall t | t in transfers ensures t.0 in Elems(Targets(transfers)) {
      var i :| 0 <= i < |transfers| && transfers[i] == t;
      assert Targets(transfers)[i] == t.0;
    }
  }

  lemma WithdrawalKeysBound(minter: Address, nonceAccount: Address, nonce: Hash, transfers: seq<(Address, Lamport)>)
    ensures |AccountKeys(WithdrawalMessage(minter, nonceAccount, nonce, transfers))| <= 4 + |transfers|
  {
    var m := WithdrawalMessage(minter, nonceAccount, nonce, transfers);
    var targets := set t | t in transfers :: t.0;
    var others := {minter, nonceAccount, RECENT_BLOCKHASHES_SYSVAR, SYSTEM_PROGRAM};
    WithdrawalReferenced(minter, nonceAccount, nonce, transfers);
    TargetsCard(transfers);
    SubsetCard(Elems(Referenced(m)), others + targets);
    UnionCard(others, targets);
    FourCard(minter, nonceAccount);
    ElemsCard(AccountKeys(m));
  }

  lemma WithdrawalReferenced(minter: Address, nonceAccount: Address, nonce: Hash, transfers: seq<(Address, Lamport)>)
    ensures Elems(Referenced(WithdrawalMessage(minter, nonceAccount, nonce, transfers))) ==
            {minter, nonceAccount, RECENT_BLOCKHASHES_SYSVAR, SYSTEM_PROGRAM} + set t | t in transfers :: t.0
  {
    var m := WithdrawalMessage(minter, nonceAccount, nonce, transfers);
    var advance := AdvanceNonceAccount(nonceAccount, minter);
    KeysCons(advance, TransfersFrom(minter, transfers));
    TransfersKeys(minter, transfers);
    ElemsConcat(Payer(m), KeysOf(m.instructions));
    ElemsAppend(Payer(m) + KeysOf(m.instructions), SYSTEM_PROGRAM);
    hide KeysOf, TransfersFrom;
    assert Elems(InstructionAccounts(advance)) == {nonceAccount, RECENT_BLOCKHASHES_SYSVAR, minter};
    assert Elems(Payer(m)) == {minter};
  }

  lemma FourCard(a: Address, b: Address)
    ensures |{a, b, RECENT_BLOCKHASHES_SYSVAR, SYSTEM_PROGRAM}| <= 4
  {
    ElemsCard([a, b, RECENT_BLOCKHASHES_SYSVAR, SYSTEM_PROGRAM]);
    assert Elems([a, b, RECENT_BLOCKHASHES_SYSVAR, SYSTEM_PROGRAM]) ==
           {a, b, RECENT_BLOCKHASHES_SYSVAR, SYSTEM_PROGRAM};
  }

  lemma SubsetCard<T>(a: set<T>, b: set<T>)
    requires a <= b
    ensures |a| <= |b|
  {
    assert b == a + (b - a);
  }

  lemma UnionCard<T>(a: set<T>, b: set<T>)
    ensures |a + b| <= |a| + |b|
  {
    assert a + b == a + (b - a);
    SubsetCard(b - a, b);
  }
}
