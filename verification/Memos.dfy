/** The memos the minter attaches to ledger transactions and their CBOR encoding
    (libs/types/src/memo/mod.rs; the heads follow section 3.1 of RFC 8949). */
module Memos {
  import opened Prelude
  import opened Solana
  import opened ScanSchedule

  const MAX_SERIALIZED_MEMO_BYTES: nat := 81

  type Bytes32 = s: seq<Byte> | |s| == 32 witness seq(32, _ => 0)

  datatype Memo =
    | MintSweep(signature: Signature, depositId: nat)
    | BurnConvert(toAddress: Bytes32)

  // ---------- numbers ----------

  function Power256(k: nat): nat {
    if k == 0 then 1 else 256 * Power256(k - 1)
  }

  /** The k low bytes of a number, most significant first. */
  function BigEndian(n: nat, k: nat): seq<Byte>
    ensures |BigEndian(n, k)| == k
  {
    if k == 0 then [] else BigEndian(n / 256, k - 1) + [(n % 256) as Byte]
  }

  function FromBigEndian(s: seq<Byte>): nat {
    if s == [] then 0 else 256 * FromBigEndian(s[..|s| - 1]) + s[|s| - 1] as nat
  }

  lemma DivBelow(n: nat, p: nat)
    requires n < 256 * p
    ensures n / 256 < p
  {}

  lemma {:induction false} BigEndianRoundTrip(n: nat, k: nat)
    requires n < Power256(k)
    ensures FromBigEndian(BigEndian(n, k)) == n
  {
    if k > 0 {
      DivBelow(n, Power256(k - 1));
      BigEndianRoundTrip(n / 256, k - 1);
      assert BigEndian(n, k)[..k - 1] == BigEndian(n / 256, k - 1);
    }
  }

  lemma PowersOf256()
    ensures Power256(1) == 0x100 && Power256(2) == 0x1_0000
    ensures Power256(4) == 0x1_0000_0000 && Power256(8) == 0x1_0000_0000_0000_0000
  {
    assert Power256(1) == 256 * Power256(0);
    assert Power256(2) == 256 * Power256(1);
    assert Power256(3) == 256 * Power256(2);
    assert Power256(4) == 256 * Power256(3);
    assert Power256(5) == 256 * Power256(4);
    assert Power256(6) == 256 * Power256(5);
    assert Power256(7) == 256 * Power256(6);
    assert Power256(8) == 256 * Power256(7);
  }

  /** An unsigned integer in as few bytes as possible. */
  function EncodeUint(n: nat): seq<Byte>
    requires n <= U64_MAX
  {
    if n < 24 then [n as Byte]
    else if n < 0x100 then [0x18] + BigEndian(n, 1)
    else if n < 0x1_0000 then [0x19] + BigEndian(n, 2)
    else if n <= U32_MAX then [0x1a] + BigEndian(n, 4)
    else [0x1b] + BigEndian(n, 8)
  }

  /** The number of bytes that follow the head of an unsigned integer. */
  function UintTail(head: Byte): Option<nat> {
    if head < 24 then Some(0)
    else if head == 0x18 then Some(1)
    else if head == 0x19 then Some(2)
    else if head == 0x1a then Some(4)
    else if head == 0x1b then Some(8)
    else None
  }

  function DecodeUint(s: seq<Byte>): Option<nat> {
    if s == [] || UintTail(s[0]) != Some(|s| - 1) then None
    else if |s| == 1 then Some(s[0] as nat)
    else Some(FromBigEndian(s[1..]))
  }

  lemma UintRoundTrip(n: nat)
    requires n <= U64_MAX
    ensures DecodeUint(EncodeUint(n)) == Some(n)
    ensures 1 <= |EncodeUint(n)| <= 9
    ensures |EncodeUint(n)| <= 5 <==> n <= U32_MAX
  {
    PowersOf256();
    hide BigEndian, FromBigEndian, Power256;
    if 24 <= n {
      var k := if n < 0x100 then 1 else if n < 0x1_0000 then 2 else if n <= U32_MAX then 4 else 8;
      BigEndianRoundTrip(n, k);
      assert EncodeUint(n)[1..] == BigEndian(n, k);
    }
  }

  // ---------- memos ----------

  const MINT_SWEEP_HEAD: seq<Byte> := [0x82, 0x00, 0x81, 0x82, 0x01, 0x82, 0x58, 0x40]
  const BURN_CONVERT_HEAD: seq<Byte> := [0x82, 0x01, 0x81, 0x82, 0x00, 0x81, 0x58, 0x20]

  ghost predicate Encodable(m: Memo) {
    m.MintSweep? ==> m.depositId <= U64_MAX
  }

  function Encode(m: Memo): seq<Byte>
    requires m.MintSweep? ==> m.depositId <= U64_MAX
  {
    match m
    case MintSweep(signature, depositId) => MINT_SWEEP_HEAD + signature.bytes + EncodeUint(depositId)
    case BurnConvert(toAddress) => BURN_CONVERT_HEAD + toAddress
  }

  function Decode(s: seq<Byte>): Option<Memo> {
    if |s| >= 73 && s[..8] == MINT_SWEEP_HEAD then
      match DecodeUint(s[72..])
      case None => None
      case Some(id) => Some(MintSweep(Signature(s[8..72]), id))
    else if |s| == 40 && s[..8] == BURN_CONVERT_HEAD then Some(BurnConvert(s[8..]))
    else None
  }

  /** Decoding a memo gives back what was encoded. */
  lemma MemoRoundTrip(m: Memo)
    requires Encodable(m)
    ensures Decode(Encode(m)) == Some(m)
  {
    hide EncodeUint, DecodeUint;
    var s := Encode(m);
    match m
    case MintSweep(signature, id) =>
      UintRoundTrip(id);
      assert s[..8] == MINT_SWEEP_HEAD && s[8..72] == signature.bytes && s[72..] == EncodeUint(id);
    case BurnConvert(toAddress) =>
      assert s[..8] == BURN_CONVERT_HEAD && s[8..] == toAddress;
      assert s[1] != MINT_SWEEP_HEAD[1];
  }

  /** Memos of different deposits, sweeps or withdrawal addresses never coincide. */
  lemma MemoInjective(a: Memo, b: Memo)
    requires Encodable(a) && Encodable(b) && Encode(a) == Encode(b)
    ensures a == b
  {
    hide Encode, Decode;
    MemoRoundTrip(a);
    MemoRoundTrip(b);
  }

  /** No memo exceeds 81 bytes, and one exceeds 80 only for a deposit id beyond 32 bits. */
  lemma MemoLength(m: Memo)
    requires Encodable(m)
    ensures |Encode(m)| <= MAX_SERIALIZED_MEMO_BYTES
    ensures |Encode(m)| > 80 <==> m.MintSweep? && m.depositId > U32_MAX
  {
    hide DecodeUint;
    if m.MintSweep? {
      UintRoundTrip(m.depositId);
    }
  }

  // ---------- the encoding as CBOR ----------

  /** The data items that memos are made of. */
  datatype Item = Uint(n: nat) | Bytes(bytes: seq<Byte>) | Array(items: seq<Item>)

  ghost predicate Small(item: Item) {
    match item
    case Uint(n) => n <= U64_MAX
    case Bytes(bytes) => |bytes| <= U64_MAX
    case Array(items) => |items| <= U64_MAX && forall i | 0 <= i < |items| :: Small(items[i])
  }

  /** The head of an item: its major type in the three high bits of the first byte, and its argument in
      as few bytes as possible. */
  ghost function Head(major: nat, n: nat): seq<Byte>
    requires major < 8 && n <= U64_MAX
  {
    var high := 32 * major;
    if n < 24 then [(high + n) as Byte]
    else if n < 0x100 then [(high + 24) as Byte] + BigEndian(n, 1)
    else if n < 0x1_0000 then [(high + 25) as Byte] + BigEndian(n, 2)
    else if n <= U32_MAX then [(high + 26) as Byte] + BigEndian(n, 4)
    else [(high + 27) as Byte] + BigEndian(n, 8)
  }

  /** Section 3.1 of RFC 8949: unsigned integers have major type 0, byte strings 2, arrays 4. */
  ghost function EncodeItem(item: Item): seq<Byte>
    requires Small(item)
  {
    match item
    case Uint(n) => Head(0, n)
    case Bytes(bytes) => Head(2, |bytes|) + bytes
    case Array(items) => Head(4, |items|) + EncodeItems(items)
  }

  ghost function EncodeItems(items: seq<Item>): seq<Byte>
    requires forall i | 0 <= i < |items| :: Small(items[i])
  {
    if items == [] then [] else EncodeItem(items[0]) + EncodeItems(items[1..])
  }

  /** A memo as a data item: a tagged variant is its index and an array of its fields. */
  ghost function ItemOf(m: Memo): Item {
    match m
    case MintSweep(signature, depositId) =>
      Array([Uint(0), Array([Array([Uint(1), Array([Bytes(signature.bytes), Uint(depositId)])])])])
    case BurnConvert(toAddress) =>
      Array([Uint(1), Array([Array([Uint(0), Array([Bytes(toAddress)])])])])
  }

  lemma OneItem(a: Item)
    requires Small(a)
    ensures EncodeItems([a]) == EncodeItem(a)
  {
    assert [a][1..] == [];
    assert EncodeItems([a]) == EncodeItem(a) + EncodeItems([]);
  }

  lemma TwoItems(a: Item, b: Item)
    requires Small(a) && Small(b)
    ensures EncodeItems([a, b]) == EncodeItem(a) + EncodeItem(b)
  {
    assert [a, b][1..] == [b];
    OneItem(b);
  }

  /** Wrapped as the only item of an array, behind its index: three bytes in front. */
  lemma Variant(index: nat, fields: Item)
    requires index < 24 && Small(fields)
    ensures Small(Array([Array([Uint(index), fields])]))
    ensures EncodeItem(Array([Array([Uint(index), fields])])) == [0x81, 0x82, index as Byte] + EncodeItem(fields)
  {
    hide EncodeItems;
    var inner := Array([Uint(index), fields]);
    assert Small(Uint(index));
    TwoItems(Uint(index), fields);
    assert EncodeItem(inner) == Head(4, 2) + (Head(0, index) + EncodeItem(fields));
    OneItem(inner);
    assert EncodeItem(Array([inner])) == Head(4, 1) + EncodeItem(inner);
  }

  /** The memo bytes are the CBOR encoding of the memo. */
  lemma MemoIsCbor(m: Memo)
    requires Encodable(m)
    ensures Small(ItemOf(m)) && Encode(m) == EncodeItem(ItemOf(m))
  {
    hide EncodeItem, EncodeItems, Small, EncodeUint;
    match m
    case MintSweep(signature, id) =>
      var fields := Array([Bytes(signature.bytes), Uint(id)]);
      SweepFields(signature, id);
      Variant(1, fields);
      Tagged(0, Array([Array([Uint(1), fields])]));
      assert Encode(m) == [0x82, 0x00] + ([0x81, 0x82, 0x01] + ([0x82, 0x58, 0x40] + signature.bytes + EncodeUint(id)));
    case BurnConvert(toAddress) =>
      var fields := Array([Bytes(toAddress)]);
      ConvertFields(toAddress);
      Variant(0, fields);
      Tagged(1, Array([Array([Uint(0), fields])]));
      assert Encode(m) == [0x82, 0x01] + ([0x81, 0x82, 0x00] + ([0x81, 0x58, 0x20] + toAddress));
  }

  lemma Tagged(index: nat, rest: Item)
    requires index < 24 && Small(rest)
    ensures Small(Array([Uint(index), rest]))
    ensures EncodeItem(Array([Uint(index), rest])) == [0x82, index as Byte] + EncodeItem(rest)
  {
    hide EncodeItems;
    assert Small(Uint(index));
    TwoItems(Uint(index), rest);
    assert EncodeItem(Uint(index)) == [index as Byte];
    assert EncodeItem(Array([Uint(index), rest])) == [0x82] + ([index as Byte] + EncodeItem(rest));
  }

  lemma SweepFields(signature: Signature, id: nat)
    requires id <= U64_MAX
    ensures Small(Array([Bytes(signature.bytes), Uint(id)]))
    ensures EncodeItem(Array([Bytes(signature.bytes), Uint(id)])) == [0x82, 0x58, 0x40] + signature.bytes + EncodeUint(id)
  {
    hide EncodeItems;
    var a, b := Bytes(signature.bytes), Uint(id);
    assert Small(a) && Small(b);
    Byte64();
    assert EncodeItem(a) == [0x58, 0x40] + signature.bytes;
    assert EncodeItem(b) == EncodeUint(id);
    TwoItems(a, b);
    assert EncodeItem(Array([a, b])) == [0x82] + (EncodeItem(a) + EncodeItem(b));
  }

  lemma ConvertFields(toAddress: Bytes32)
    ensures Small(Array([Bytes(toAddress)]))
    ensures EncodeItem(Array([Bytes(toAddress)])) == [0x81, 0x58, 0x20] + toAddress
  {
    hide EncodeItems;
    var a := Bytes(toAddress);
    assert Small(a);
    Byte64();
    assert EncodeItem(a) == [0x58, 0x20] + toAddress;
    OneItem(a);
    assert EncodeItem(Array([a])) == [0x81] + EncodeItem(a);
  }

  lemma Byte64()
    ensures BigEndian(64, 1) == [0x40] && BigEndian(32, 1) == [0x20]
  {
    assert BigEndian(0, 0) == [];
  }
}
