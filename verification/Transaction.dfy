/** Unsigned and signed transactions, their RLP layout and normalisation. */
module Transactions {
  import opened Wrappers
  import opened Rlp
  import opened Hex

  datatype Error = Negative | Malformed | IndexOutOfRange

  /** types.UnsignedTransaction; None is a nil pointer. */
  datatype UnsignedTransaction = UnsignedTransaction(
    from: Option<string>, nonce: Option<int>, gasPrice: Option<int>, gas: Option<int>, value: Option<int>,
    storageLimit: Option<int>, epochHeight: Option<int>, chainId: Option<int>, to: Option<string>, data: bytes)

  /** unsignedTransactionForRlp; an address is 20 bytes. */
  datatype Fields = Fields(
    nonce: Option<int>, gasPrice: Option<int>, gas: Option<int>, to: Option<bytes>, value: Option<int>,
    storageLimit: Option<int>, epochHeight: Option<int>, chainId: Option<int>, data: bytes)

  datatype SignedTransaction = SignedTransaction(unsigned: UnsignedTransaction, v: byte, r: bytes, s: bytes)

  // ---- addresses ----

  const ADDRESS_LENGTH: nat := 20

  function FromHex(s: string): bytes {
    var t := if |s| >= 2 && s[0] == '0' && (s[1] == 'x' || s[1] == 'X') then s[2..] else s;
    DecodePrefix(if |t| % 2 == 1 then "0" + t else t)
  }

  function Zeros(n: nat): (b: bytes)
    ensures |b| == n
  {
    seq(n, i => 0)
  }

  /** common.HexToAddress: the last 20 bytes, padded on the left. */
  function HexToAddress(s: string): (a: bytes)
    ensures |a| == ADDRESS_LENGTH
  {
    var b := FromHex(s);
    if |b| >= ADDRESS_LENGTH then b[|b| - ADDRESS_LENGTH..] else Zeros(ADDRESS_LENGTH - |b|) + b
  }

  /** strings.ToLower(addr.Hex()): the checksum casing is lowered away. */
  function LowerHex(a: bytes): string {
    "0x" + EncodeToString(a)
  }

  predicate WellFormed(address: string) {
    |address| == 2 + 2 * ADDRESS_LENGTH && address[..2] == "0x" && IsHex(address[2..])
  }

  lemma AddressRoundTrip(a: bytes)
    requires |a| == ADDRESS_LENGTH
    ensures HexToAddress(LowerHex(a)) == a && WellFormed(LowerHex(a))
  {
    DecodeEncoded(a);
    assert LowerHex(a)[2..] == EncodeToString(a);
  }

  lemma WellFormedBytes(address: string)
    requires WellFormed(address)
    ensures HexToAddress(address) == DecodePrefix(address[2..])
    ensures EncodeToString(HexToAddress(address)) == Lower(address[2..])
  {
    EncodeDecoded(address[2..]);
    assert address[..2][0] == '0' && address[..2][1] == 'x';
  }

  /** A well-formed address comes back in lower case. */
  lemma AddressLowers(address: string)
    requires WellFormed(address)
    ensures LowerHex(HexToAddress(address)) == Lower(address)
  {
    WellFormedBytes(address);
    LowerAfterPrefix(address);
  }

  lemma LowerAfterPrefix(s: string)
    requires |s| >= 2 && s[..2] == "0x"
    ensures Lower(s) == "0x" + Lower(s[2..])
  {
    assert s[0] == s[..2][0] && s[1] == s[..2][1];
  }

  // ---- unsigned transactions ----

  function ToFields(tx: UnsignedTransaction): Fields {
    Fields(tx.nonce, tx.gasPrice, tx.gas, if tx.to.Some? then Some(HexToAddress(tx.to.value)) else None,
           tx.value, tx.storageLimit, tx.epochHeight, tx.chainId, tx.data)
  }

  function ToUnsigned(f: Fields): UnsignedTransaction
    requires f.to.Some?
  {
    UnsignedTransaction(None, f.nonce, f.gasPrice, f.gas, f.value, f.storageLimit, f.epochHeight, f.chainId,
                        Some(LowerHex(f.to.value)), f.data)
  }

  /** An integer field: nil counts as zero, a negative number has no encoding. */
  predicate IntOk(n: Option<int>) {
    n.Some? ==> n.value >= 0
  }

  function IntItem(n: Option<int>): Item
    requires IntOk(n)
  {
    Str(ToBE(if n.Some? then n.value else 0))
  }

  /** A nil address is written as an empty string. */
  function AddressItem(a: Option<bytes>): Item {
    Str(if a.Some? then a.value else [])
  }

  predicate FieldsOk(f: Fields) {
    IntOk(f.nonce) && IntOk(f.gasPrice) && IntOk(f.gas) && IntOk(f.value) &&
    IntOk(f.storageLimit) && IntOk(f.epochHeight) && IntOk(f.chainId)
  }

  function FieldsItem(f: Fields): Item
    requires FieldsOk(f)
  {
    List([IntItem(f.nonce), IntItem(f.gasPrice), IntItem(f.gas), AddressItem(f.to), IntItem(f.value),
          IntItem(f.storageLimit), IntItem(f.epochHeight), IntItem(f.chainId), Str(f.data)])
  }

  predicate CanonicalInt(x: Item) {
    x.Str? && NoLeadingZero(x.s)
  }

  function ReadInt(x: Item): Option<int>
    requires CanonicalInt(x)
  {
    Some(FromBE(x.s))
  }

  /** Nine strings: canonical integers, a 20-byte address and free data. */
  predicate FieldsShape(x: Item) {
    x.List? && |x.items| == 9 &&
    (forall i :: 0 <= i < 9 && i != 3 && i != 8 ==> CanonicalInt(x.items[i])) &&
    x.items[3].Str? && |x.items[3].s| == ADDRESS_LENGTH && x.items[8].Str?
  }

  function ReadFields(x: Item): Fields
    requires FieldsShape(x)
  {
    var i := x.items;
    Fields(ReadInt(i[0]), ReadInt(i[1]), ReadInt(i[2]), Some(i[3].s), ReadInt(i[4]),
           ReadInt(i[5]), ReadInt(i[6]), ReadInt(i[7]), i[8].s)
  }

  function EncodeUnsigned(tx: UnsignedTransaction): Result<bytes, Error> {
    if FieldsOk(ToFields(tx)) then Ok(Encode(FieldsItem(ToFields(tx)))) else Err(Negative)
  }

  function DecodeUnsigned(b: bytes): Result<UnsignedTransaction, Error> {
    var x := Decode(b);
    if x.None? || !FieldsShape(x.value) then Err(Malformed) else Ok(ToUnsigned(ReadFields(x.value)))
  }

  /** Small enough for the format, as every transaction that fits in memory is. */
  predicate Fits(tx: UnsignedTransaction) {
    FieldsOk(ToFields(tx)) && Encodable(FieldsItem(ToFields(tx)))
  }

  function NormalInt(n: Option<int>): Option<int> {
    if n.Some? then n else Some(0)
  }

  /** What a transaction looks like after a round trip. */
  function Normal(tx: UnsignedTransaction): UnsignedTransaction {
    UnsignedTransaction(
      None, NormalInt(tx.nonce), NormalInt(tx.gasPrice), NormalInt(tx.gas), NormalInt(tx.value),
      NormalInt(tx.storageLimit), NormalInt(tx.epochHeight), NormalInt(tx.chainId),
      if tx.to.Some? then Some(LowerHex(HexToAddress(tx.to.value))) else None, tx.data)
  }

  lemma IntRoundTrip(n: Option<int>)
    requires IntOk(n)
    ensures CanonicalInt(IntItem(n)) && ReadInt(IntItem(n)) == NormalInt(n)
  {
    var k := if n.Some? then n.value else 0;
    FromToBE(k);
    ToBEMinimal(k);
  }

  lemma IntBack(x: Item)
    requires CanonicalInt(x)
    ensures IntOk(ReadInt(x)) && IntItem(ReadInt(x)) == x
  {
    ToFromBE(x.s);
  }

  lemma FieldsRoundTrip(f: Fields)
    requires FieldsOk(f) && f.to.Some? && |f.to.value| == ADDRESS_LENGTH
    ensures FieldsShape(FieldsItem(f))
    ensures ReadFields(FieldsItem(f)) ==
            Fields(NormalInt(f.nonce), NormalInt(f.gasPrice), NormalInt(f.gas), f.to, NormalInt(f.value),
                   NormalInt(f.storageLimit), NormalInt(f.epochHeight), NormalInt(f.chainId), f.data)
  {
    IntRoundTrip(f.nonce);
    IntRoundTrip(f.gasPrice);
    IntRoundTrip(f.gas);
    IntRoundTrip(f.value);
    IntRoundTrip(f.storageLimit);
    IntRoundTrip(f.epochHeight);
    IntRoundTrip(f.chainId);
  }

  lemma FieldsBack(x: Item)
    requires FieldsShape(x)
    ensures FieldsOk(ReadFields(x)) && FieldsItem(ReadFields(x)) == x
  {
    forall i | 0 <= i < 9 && i != 3 && i != 8 ensures IntOk(ReadInt(x.items[i])) && IntItem(ReadInt(x.items[i])) == x.items[i] {
      IntBack(x.items[i]);
    }
    assert FieldsItem(ReadFields(x)).items == x.items;
  }

  lemma UnsignedBack(x: Item)
    requires FieldsShape(x)
    ensures var f := ToFields(ToUnsigned(ReadFields(x))); FieldsOk(f) && FieldsItem(f) == x
  {
    FieldsBack(x);
    var f := ReadFields(x);
    AddressRoundTrip(f.to.value);
    assert ToFields(ToUnsigned(f)) == f;
  }

  /**
    Decode after Encode.  A transaction encodes exactly when no integer is negative; what comes back
    is its normal form (From dropped, nil integers zero, To in lower case) exactly when it has a To.
   */
  lemma UnsignedRoundTrip(tx: UnsignedTransaction)
    requires FieldsOk(ToFields(tx)) ==> Encodable(FieldsItem(ToFields(tx)))
    ensures EncodeUnsigned(tx).Ok? <==> FieldsOk(ToFields(tx))
    ensures EncodeUnsigned(tx).Ok? && tx.to.Some? ==> DecodeUnsigned(EncodeUnsigned(tx).value) == Ok(Normal(tx))
    ensures EncodeUnsigned(tx).Ok? && tx.to.None? ==> DecodeUnsigned(EncodeUnsigned(tx).value) == Err(Malformed)
    ensures tx.to.Some? && WellFormed(tx.to.value) ==> Normal(tx).to == Some(Lower(tx.to.value))
  {
    var f := ToFields(tx);
    if FieldsOk(f) {
      DecodeIffEncoded(Encode(FieldsItem(f)), FieldsItem(f));
      if tx.to.Some? {
        FieldsRoundTrip(f);
      }
    }
    if tx.to.Some? && WellFormed(tx.to.value) {
      AddressLowers(tx.to.value);
    }
  }

  /** Encode after Decode: every accepted byte string is the encoding of what it decodes to. */
  lemma UnsignedBytesRoundTrip(b: bytes)
    requires DecodeUnsigned(b).Ok?
    ensures EncodeUnsigned(DecodeUnsigned(b).value) == Ok(b)
    ensures Fits(DecodeUnsigned(b).value) && Normal(DecodeUnsigned(b).value) == DecodeUnsigned(b).value
  {
    var x := Decode(b).value;
    DecodeIffEncoded(b, x);
    UnsignedBack(x);
    FieldsBack(x);
    AddressRoundTrip(ReadFields(x).to.value);
  }

  // ---- signed transactions ----

  function SignedItem(tx: SignedTransaction): Item
    requires FieldsOk(ToFields(tx.unsigned))
  {
    List([FieldsItem(ToFields(tx.unsigned)), Str(ToBE(tx.v)), Str(ToBE(FromBE(tx.r))), Str(ToBE(FromBE(tx.s)))])
  }

  function EncodeSigned(tx: SignedTransaction): Result<bytes, Error> {
    if FieldsOk(ToFields(tx.unsigned)) then Ok(Encode(SignedItem(tx))) else Err(Negative)
  }

  predicate SignedShape(x: Item) {
    x.List? && |x.items| == 4 && FieldsShape(x.items[0]) &&
    CanonicalInt(x.items[1]) && CanonicalInt(x.items[2]) && CanonicalInt(x.items[3])
  }

  /** V.Bytes()[0] is an index error when V is zero and the top byte of a larger number. */
  function DecodeSigned(b: bytes): Result<SignedTransaction, Error> {
    var x := Decode(b);
    if x.None? || !SignedShape(x.value) then Err(Malformed)
    else
      var v, r, s := x.value.items[1].s, x.value.items[2].s, x.value.items[3].s;
      if v == [] then Err(IndexOutOfRange)
      else Ok(SignedTransaction(ToUnsigned(ReadFields(x.value.items[0])), v[0], ToBE(FromBE(r)), ToBE(FromBE(s))))
  }

  function StripZeros(b: bytes): bytes {
    if b != [] && b[0] == 0 then StripZeros(b[1..]) else b
  }

  lemma {:induction false} FromBEZero(b: bytes)
    ensures FromBE([0] + b) == FromBE(b)
  {
    if b == [] {
      assert ([0] + b)[..0] == [];
    } else {
      FromBEZero(b[..|b| - 1]);
      assert ([0] + b)[..|b|] == [0] + b[..|b| - 1];
    }
  }

  lemma {:induction false} Stripped(b: bytes)
    ensures ToBE(FromBE(b)) == StripZeros(b)
  {
    if b != [] && b[0] == 0 {
      assert b == [0] + b[1..];
      FromBEZero(b[1..]);
      Stripped(b[1..]);
    } else {
      ToFromBE(b);
    }
  }

  predicate SignedFits(tx: SignedTransaction) {
    FieldsOk(ToFields(tx.unsigned)) && Encodable(SignedItem(tx))
  }

  lemma ByteBE(v: byte)
    ensures ToBE(v) == if v == 0 then [] else [v]
  {
    assert v / 256 == 0 && v % 256 == v;
  }

  lemma CanonicalStr(n: nat)
    ensures CanonicalInt(Str(ToBE(n)))
  {
    ToBEMinimal(n);
  }

  lemma SignedItemShape(tx: SignedTransaction)
    requires FieldsOk(ToFields(tx.unsigned)) && tx.unsigned.to.Some?
    ensures var x := SignedItem(tx);
            && SignedShape(x)
            && x.items[0] == FieldsItem(ToFields(tx.unsigned))
            && x.items[1].s == (if tx.v == 0 then [] else [tx.v])
            && x.items[2].s == StripZeros(tx.r) && x.items[3].s == StripZeros(tx.s)
  {
    assert FieldsShape(FieldsItem(ToFields(tx.unsigned))) by { FieldsRoundTrip(ToFields(tx.unsigned)); }
    ByteBE(tx.v);
    CanonicalStr(tx.v);
    CanonicalStr(FromBE(tx.r));
    CanonicalStr(FromBE(tx.s));
    Stripped(tx.r);
    Stripped(tx.s);
  }

  /** Signed round trip: the normal form with R and S stripped of leading zeros, exactly when V is not zero. */
  lemma SignedRoundTrip(tx: SignedTransaction)
    requires SignedFits(tx) && tx.unsigned.to.Some?
    ensures EncodeSigned(tx).Ok?
    ensures DecodeSigned(EncodeSigned(tx).value) ==
            if tx.v == 0 then Err(IndexOutOfRange)
            else Ok(SignedTransaction(Normal(tx.unsigned), tx.v, StripZeros(tx.r), StripZeros(tx.s)))
  {
    var x := SignedItem(tx);
    DecodeIffEncoded(Encode(x), x);
    SignedItemShape(tx);
    FieldsRoundTrip(ToFields(tx.unsigned));
    assert ToUnsigned(ReadFields(x.items[0])) == Normal(tx.unsigned);
    ToFromBE(x.items[2].s);
    ToFromBE(x.items[3].s);
  }

  /** Encoding a decoded signed transaction changes V at most. */
  lemma SignedItemBack(b: bytes)
    requires DecodeSigned(b).Ok?
    ensures var tx := DecodeSigned(b).value;
            && FieldsOk(ToFields(tx.unsigned))
            && SignedItem(tx) == List(Decode(b).value.items[1 := Str([Decode(b).value.items[1].s[0]])])
  {
    var x := Decode(b).value;
    var tx := DecodeSigned(b).value;
    UnsignedBack(x.items[0]);
    ToFromBE(x.items[2].s);
    ToFromBE(x.items[3].s);
    SignedItemIs(tx, x.items[0], x.items[1].s[0], x.items[2].s, x.items[3].s);
    var items := x.items[1 := Str([x.items[1].s[0]])];
    assert items == [x.items[0], Str([x.items[1].s[0]]), x.items[2], x.items[3]];
  }

  lemma SignedItemIs(tx: SignedTransaction, fields: Item, v: byte, r: bytes, s: bytes)
    requires FieldsOk(ToFields(tx.unsigned)) && FieldsItem(ToFields(tx.unsigned)) == fields
    requires tx.v == v != 0 && ToBE(FromBE(tx.r)) == r && ToBE(FromBE(tx.s)) == s
    ensures SignedItem(tx) == List([fields, Str([v]), Str(r), Str(s)])
  {
    ByteBE(v);
  }

  /** An accepted signed transaction encodes back to its bytes exactly when its V fits in one byte. */
  lemma SignedBytesRoundTrip(b: bytes)
    requires DecodeSigned(b).Ok?
    ensures EncodeSigned(DecodeSigned(b).value) == Ok(b) <==> FromBE(Decode(b).value.items[1].s) < 256
  {
    var x := Decode(b).value;
    var v := x.items[1].s;
    DecodeIffEncoded(b, x);
    SignedItemBack(b);
    OneByte(v);
    if |v| == 1 {
      assert v == [v[0]];
      assert x.items[1 := Str([v[0]])] == x.items;
    } else {
      DecodeSignedOther(x, SignedItem(DecodeSigned(b).value));
    }
  }

  lemma OneByte(v: bytes)
    requires v != [] && v[0] != 0
    ensures FromBE(v) < 256 <==> |v| == 1
  {
    ToFromBE(v);
    ToBELength(FromBE(v), 1);
    assert Pow256(1) == 256 * Pow256(0);
  }

  /** Items that differ in V alone have different encodings. */
  lemma DecodeSignedOther(x: Item, y: Item)
    requires Encodable(x) && x.List? && y.List? && |x.items| == |y.items| == 4
    requires x.items[0] == y.items[0] && x.items[2..] == y.items[2..]
    requires x.items[1].Str? && y.items[1].Str? && |x.items[1].s| > 1 && |y.items[1].s| == 1 && y.items[1].s[0] != 0
    ensures Encode(x) != Encode(y)
  {
    assert AllEncodable(y.items) by {
      assert AllEncodable(x.items);
      assert AllEncodable(x.items[1..]) && AllEncodable(x.items[1..][1..]);
      assert x.items[1..][1..] == x.items[2..] && y.items[1..][1..] == y.items[2..];
      assert AllEncodable(y.items[1..]);
    }
    assert |EncodeAll(y.items)| <= |EncodeAll(x.items)| by {
      assert x.items[1..][1..] == y.items[1..][1..];
      assert EncodeAll(x.items) == Encode(x.items[0]) + (Encode(x.items[1]) + EncodeAll(x.items[1..][1..]));
      assert EncodeAll(y.items) == Encode(y.items[0]) + (Encode(y.items[1]) + EncodeAll(y.items[1..][1..]));
    }
    if Encode(x) == Encode(y) {
      EncodeInjective(x, y);
    }
  }

  // ---- signing a transaction that is already encoded ----

  /** What SignEncodedTransactionAndSend hands to cfx_sendRawTransaction. */
  function SignEncoded(encodedTx: bytes, v: byte, r: bytes, s: bytes): Result<bytes, Error> {
    var tx := DecodeUnsigned(encodedTx);
    if tx.Err? then Err(tx.error) else EncodeSigned(SignedTransaction(tx.value, v, r, s))
  }

  /**
    The caller's encoding goes into the sent list byte for byte, followed by V, R and S, and it is
    also the payload that the signature's hash is taken over.
   */
  lemma SignedContainsEncodedTx(encodedTx: bytes, v: byte, r: bytes, s: bytes)
    requires DecodeUnsigned(encodedTx).Ok?
    ensures var payload := encodedTx + (EncodeStr(ToBE(v)) + (EncodeStr(StripZeros(r)) + EncodeStr(StripZeros(s))));
            && SignEncoded(encodedTx, v, r, s) == Ok(Header(0xC0, |payload|) + payload)
            && EncodeUnsigned(DecodeUnsigned(encodedTx).value) == Ok(encodedTx)
  {
    UnsignedBytesRoundTrip(encodedTx);
    var tx := DecodeUnsigned(encodedTx).value;
    var signed := SignedTransaction(tx, v, r, s);
    Stripped(r);
    Stripped(s);
    FourItems(SignedItem(signed).items);
  }

  lemma FourItems(items: seq<Item>)
    requires |items| == 4
    ensures EncodeAll(items) == Encode(items[0]) + (Encode(items[1]) + (Encode(items[2]) + Encode(items[3])))
  {
    assert items[1..][1..] == items[2..] && items[2..][1..] == items[3..] && items[3..][1..] == [];
    assert EncodeAll(items[3..]) == Encode(items[3]);
    assert EncodeAll(items[2..]) == Encode(items[2]) + EncodeAll(items[3..]);
    assert EncodeAll(items[1..]) == Encode(items[1]) + EncodeAll(items[2..]);
  }

  // ---- the format's golden bytes ----

  function GoldenTx(to: string): UnsignedTransaction {
    UnsignedTransaction(None, Some(16), Some(32), Some(64), Some(128), Some(256), Some(512), Some(1024), Some(to), [1, 2, 3])
  }

  lemma SmallBE(n: nat)
    requires n < 0x1_0000
    ensures ToBE(n) == if n == 0 then [] else if n < 256 then [n] else [n / 256, n % 256]
  {
    if n >= 256 {
      assert ToBE(n / 256) == [n / 256] by { ByteBE(n / 256); }
    } else {
      ByteBE(n);
    }
  }

  lemma NineItems(items: seq<Item>)
    requires |items| == 9
    ensures EncodeAll(items) ==
            Encode(items[0]) + (Encode(items[1]) + (Encode(items[2]) + (Encode(items[3]) + (Encode(items[4]) + EncodeAll(items[5..])))))
    ensures EncodeAll(items[5..]) == Encode(items[5]) + (Encode(items[6]) + (Encode(items[7]) + Encode(items[8])))
  {
    FourItems(items[5..]);
    assert items[4..][1..] == items[5..] && items[3..][1..] == items[4..] && items[2..][1..] == items[3..] && items[1..][1..] == items[2..];
    assert EncodeAll(items[4..]) == Encode(items[4]) + EncodeAll(items[5..]);
    assert EncodeAll(items[3..]) == Encode(items[3]) + EncodeAll(items[4..]);
    assert EncodeAll(items[2..]) == Encode(items[2]) + EncodeAll(items[3..]);
    assert EncodeAll(items[1..]) == Encode(items[1]) + EncodeAll(items[2..]);
  }

  lemma IntItemBytes(n: nat)
    requires n < 0x1_0000
    ensures Encode(IntItem(Some(n))) ==
            if n == 0 then [128] else if n < 128 then [n] else if n < 256 then [129, n] else [130, n / 256, n % 256]
  {
    SmallBE(n);
  }

  function GoldenPayload(a: bytes): bytes {
    [16, 32, 64, 148] + a + [129, 128, 130, 1, 0, 130, 2, 0, 130, 4, 0, 131, 1, 2, 3]
  }

  lemma GoldenJoin(a: bytes, tail: bytes)
    requires tail == [130, 1, 0] + ([130, 2, 0] + ([130, 4, 0] + [131, 1, 2, 3]))
    ensures [16] + ([32] + ([64] + (([148] + a) + ([129, 128] + tail)))) == GoldenPayload(a)
  {
  }

  predicate GoldenList(items: seq<Item>, a: bytes) {
    |items| == 9 &&
    items[0] == IntItem(Some(16)) && items[1] == IntItem(Some(32)) && items[2] == IntItem(Some(64)) &&
    items[3] == Str(a) && items[4] == IntItem(Some(128)) && items[5] == IntItem(Some(256)) &&
    items[6] == IntItem(Some(512)) && items[7] == IntItem(Some(1024)) && items[8] == Str([1, 2, 3])
  }

  lemma GoldenTail(items: seq<Item>, a: bytes)
    requires GoldenList(items, a)
    ensures EncodeAll(items[5..]) == [130, 1, 0] + ([130, 2, 0] + ([130, 4, 0] + [131, 1, 2, 3]))
  {
    assert Encode(items[5]) == [130, 1, 0] by { IntItemBytes(256); }
    assert Encode(items[6]) == [130, 2, 0] by { IntItemBytes(512); }
    assert Encode(items[7]) == [130, 4, 0] by { IntItemBytes(1024); }
    assert Encode(items[8]) == [131, 1, 2, 3];
    NineItems(items);
  }

  lemma GoldenItems(items: seq<Item>, a: bytes)
    requires GoldenList(items, a) && |a| == 20
    ensures EncodeAll(items) == GoldenPayload(a)
  {
    IntItemBytes(16);
    IntItemBytes(32);
    IntItemBytes(64);
    IntItemBytes(128);
    NineItems(items);
    GoldenTail(items, a);
    GoldenJoin(a, EncodeAll(items[5..]));
  }

  /** The repository's test vector, for its address a and any way of writing it. */
  lemma GoldenEncoding(to: string, a: bytes)
    requires HexToAddress(to) == a
    ensures EncodeUnsigned(GoldenTx(to)) == Ok([231] + GoldenPayload(a))
  {
    var x := FieldsItem(ToFields(GoldenTx(to)));
    assert GoldenList(x.items, a);
    GoldenItems(x.items, a);
    assert |GoldenPayload(a)| == 39;
  }

  lemma GoldenSignature(items: seq<Item>, first: bytes)
    requires |items| == 4 && Encode(items[0]) == first && |first| == 40
    requires items[1] == Str([27]) && items[2] == Str([1, 2, 3, 4, 5]) && items[3] == Str([10, 11, 12])
    ensures Encode(List(items)) == [243] + (first + ([27] + ([133, 1, 2, 3, 4, 5] + [131, 10, 11, 12])))
  {
    FourItems(items);
    assert Encode(items[1]) == [27];
    assert Encode(items[2]) == [133, 1, 2, 3, 4, 5];
    assert Encode(items[3]) == [131, 10, 11, 12];
    assert |EncodeAll(items)| == 51;
  }

  function GoldenSigned(to: string): SignedTransaction {
    SignedTransaction(GoldenTx(to), 27, [1, 2, 3, 4, 5], [10, 11, 12])
  }

  lemma GoldenSignedItems(to: string)
    ensures SignedItem(GoldenSigned(to)).items ==
            [FieldsItem(ToFields(GoldenTx(to))), Str([27]), Str([1, 2, 3, 4, 5]), Str([10, 11, 12])]
  {
    ByteBE(27);
    ToFromBE([1, 2, 3, 4, 5]);
    ToFromBE([10, 11, 12]);
  }

  /** The vector for EncodeWithSignature: the unsigned encoding, then V, R and S. */
  lemma GoldenSignedEncoding(to: string, a: bytes)
    requires HexToAddress(to) == a
    ensures EncodeSigned(GoldenSigned(to)) ==
            Ok([243] + (([231] + GoldenPayload(a)) + ([27] + ([133, 1, 2, 3, 4, 5] + [131, 10, 11, 12]))))
  {
    GoldenEncoding(to, a);
    GoldenSignedItems(to);
    GoldenSignature(SignedItem(GoldenSigned(to)).items, [231] + GoldenPayload(a));
  }

  // ---- Decode as the method it is ----

  /** A variable of type UnsignedTransaction that Decode is called on. */
  class UnsignedVariable {
    var tx: UnsignedTransaction

    /** Overwrites the whole transaction on success and leaves it alone on failure. */
    method Decode(data: bytes) returns (err: Option<Error>)
      modifies this
      ensures err.None? <==> DecodeUnsigned(data).Ok?
      ensures tx == if err.None? then DecodeUnsigned(data).value else old(tx)
      ensures err.None? ==> EncodeUnsigned(tx) == Ok(data)
    {
      var x := Rlp.Decode(data);
      if x.None? || !FieldsShape(x.value) {
        return Some(Malformed);
      }
      tx := ToUnsigned(ReadFields(x.value));
      UnsignedBytesRoundTrip(data);
      return None;
    }
  }
}
