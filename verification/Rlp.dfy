/** Recursive Length Prefix, Appendix B of the Ethereum Yellow Paper, with a strict decoder. */
module Rlp {
  import opened Wrappers

  type byte = n: int | 0 <= n < 256
  type bytes = seq<byte>

  const LIMIT: nat := 0x1_0000_0000_0000_0000

  datatype Item = Str(s: bytes) | List(items: seq<Item>)

  // ---- big-endian numbers ----

  /** Shortest big-endian form; zero is the empty string. */
  function ToBE(n: nat): bytes {
    if n == 0 then [] else ToBE(n / 256) + [n % 256]
  }

  function FromBE(b: bytes): nat {
    if b == [] then 0 else 256 * FromBE(b[..|b| - 1]) + b[|b| - 1]
  }

  predicate NoLeadingZero(b: bytes) {
    b == [] || b[0] != 0
  }

  lemma {:induction false} FromToBE(n: nat)
    ensures FromBE(ToBE(n)) == n
  {
    if n != 0 {
      FromToBE(n / 256);
      assert ToBE(n)[..|ToBE(n)| - 1] == ToBE(n / 256);
    }
  }

  lemma {:induction false} ToBEMinimal(n: nat)
    ensures NoLeadingZero(ToBE(n))
  {
    if n >= 256 {
      ToBEMinimal(n / 256);
      assert ToBE(n)[0] == ToBE(n / 256)[0];
    }
  }

  lemma {:induction false} FromBEPositive(b: bytes)
    requires b != [] && b[0] != 0
    ensures FromBE(b) > 0
  {
    if |b| > 1 {
      FromBEPositive(b[..|b| - 1]);
    }
  }

  lemma {:induction false} ToFromBE(b: bytes)
    requires NoLeadingZero(b)
    ensures ToBE(FromBE(b)) == b
  {
    if b != [] {
      var front := b[..|b| - 1];
      ToFromBE(front);
      FromBEPositive(b);
      assert FromBE(b) / 256 == FromBE(front) && FromBE(b) % 256 == b[|b| - 1];
      assert b == front + [b[|b| - 1]];
    }
  }

  function Pow256(k: nat): (p: nat)
    ensures p > 0
  {
    if k == 0 then 1 else 256 * Pow256(k - 1)
  }

  lemma {:induction false} ToBELength(n: nat, k: nat)
    ensures |ToBE(n)| <= k <==> n < Pow256(k)
  {
    if n != 0 && k != 0 {
      ToBELength(n / 256, k - 1);
    } else if n != 0 {
      assert |ToBE(n)| > 0;
    }
  }

  lemma LengthOfLength(n: nat)
    ensures |ToBE(n)| <= 8 <==> n < LIMIT
    ensures n > 0 ==> |ToBE(n)| >= 1
  {
    ToBELength(n, 8);
    assert Pow256(4) == 0x1_0000_0000;
    assert Pow256(8) == LIMIT;
  }

  // ---- encoding ----

  /** The length prefix of a string (offset 0x80) or a list (offset 0xC0). */
  function Header(offset: nat, len: nat): bytes
    requires offset == 0x80 || offset == 0xC0
  {
    if len < 56 then [offset + len]
    else var be := ToBE(len); [offset + 55 + (if |be| <= 8 then |be| else 8)] + be
  }

  function EncodeStr(s: bytes): bytes {
    if |s| == 1 && s[0] < 0x80 then s else Header(0x80, |s|) + s
  }

  function Encode(x: Item): bytes
    decreases x, 0
  {
    match x
    case Str(s) => EncodeStr(s)
    case List(items) => var p := EncodeAll(items); Header(0xC0, |p|) + p
  }

  function EncodeAll(items: seq<Item>): bytes
    decreases items, 1
  {
    if items == [] then [] else Encode(items[0]) + EncodeAll(items[1..])
  }

  /** Within the format's reach: every payload is shorter than 2^64 bytes. */
  predicate Encodable(x: Item)
    decreases x, 0
  {
    match x
    case Str(s) => |s| < LIMIT
    case List(items) => |EncodeAll(items)| < LIMIT && AllEncodable(items)
  }

  predicate AllEncodable(items: seq<Item>)
    decreases items, 1
  {
    items == [] || (Encodable(items[0]) && AllEncodable(items[1..]))
  }

  // ---- strict decoding ----

  /** A parsed length prefix: size bytes of prefix announce len bytes of payload. */
  datatype Prefix = Prefix(list: bool, size: nat, len: nat)

  /** The prefix at the front of b, if it is canonical and its payload is there. */
  function ReadPrefix(b: bytes): (r: Option<Prefix>)
    requires b != [] && b[0] >= 0x80
    ensures r.Some? ==> 1 <= r.value.size && r.value.size + r.value.len <= |b|
  {
    var list := b[0] >= 0xC0;
    var offset := if list then 0xC0 else 0x80;
    var r := if b[0] - offset < 56 then Some(Prefix(list, 1, b[0] - offset))
             else
               var n := b[0] - offset - 55;
               if |b| < 1 + n || b[1] == 0 then None
               else
                 var len := FromBE(b[1..1 + n]);
                 if len < 56 then None else Some(Prefix(list, 1 + n, len));
    if r.Some? && r.value.size + r.value.len <= |b| then r else None
  }

  /** One item and what follows it. */
  function DecodeItem(b: bytes): (r: Option<(Item, bytes)>)
    ensures r.Some? ==> |r.value.1| < |b|
    decreases |b|, 0
  {
    if b == [] then None
    else if b[0] < 0x80 then Some((Str([b[0]]), b[1..]))
    else
      var p := ReadPrefix(b);
      if p.None? then None
      else
        var end := p.value.size + p.value.len;
        var payload := b[p.value.size..end];
        if p.value.list then
          var items := DecodeAll(payload);
          if items.None? then None else Some((List(items.value), b[end..]))
        else if |payload| == 1 && payload[0] < 0x80 then None
        else Some((Str(payload), b[end..]))
  }

  function DecodeAll(b: bytes): Option<seq<Item>>
    decreases |b|, 1
  {
    if b == [] then Some([])
    else
      var first := DecodeItem(b);
      if first.None? then None
      else
        var rest := DecodeAll(first.value.1);
        if rest.None? then None else Some([first.value.0] + rest.value)
  }

  /** A whole input: one item and no trailing bytes. */
  function Decode(b: bytes): Option<Item> {
    var r := DecodeItem(b);
    if r.None? || r.value.1 != [] then None else Some(r.value.0)
  }

  // ---- the two directions ----

  lemma HeaderReads(list: bool, payload: bytes, rest: bytes)
    requires |payload| < LIMIT
    ensures var h := Header(if list then 0xC0 else 0x80, |payload|);
            && h[0] >= 0x80
            && ReadPrefix(h + payload + rest) == Some(Prefix(list, |h|, |payload|))
  {
    if |payload| >= 56 {
      LongHeaderReads(list, payload, rest);
    }
  }

  lemma LongHeaderReads(list: bool, payload: bytes, rest: bytes)
    requires 56 <= |payload| < LIMIT
    ensures var h := Header(if list then 0xC0 else 0x80, |payload|);
            h[0] >= 0xB8 && ReadPrefix(h + payload + rest) == Some(Prefix(list, |h|, |payload|))
  {
    var h := Header(if list then 0xC0 else 0x80, |payload|);
    var be := ToBE(|payload|);
    LengthOfLength(|payload|);
    FromToBE(|payload|);
    ToBEMinimal(|payload|);
    var b := h + payload + rest;
    assert b[1..1 + |be|] == be;
    assert b[1] == be[0] && b[0] == h[0];
  }

  lemma {:induction false} DecodesWhatWasEncoded(x: Item, rest: bytes)
    requires Encodable(x)
    ensures DecodeItem(Encode(x) + rest) == Some((x, rest))
    decreases x, 0
  {
    var b := Encode(x) + rest;
    match x
    case Str(s) =>
      if |s| == 1 && s[0] < 0x80 {
        assert s == [s[0]] && b[1..] == rest;
      } else {
        HeaderReads(false, s, rest);
        var h := Header(0x80, |s|);
        assert b == h + s + rest;
        assert b[|h|..|h| + |s|] == s && b[|h| + |s|..] == rest;
      }
    case List(items) =>
      var p := EncodeAll(items);
      HeaderReads(true, p, rest);
      var h := Header(0xC0, |p|);
      assert b == h + p + rest;
      assert b[|h|..|h| + |p|] == p && b[|h| + |p|..] == rest;
      DecodesAllThatWasEncoded(items);
  }

  lemma {:induction false} DecodesAllThatWasEncoded(items: seq<Item>)
    requires AllEncodable(items)
    ensures DecodeAll(EncodeAll(items)) == Some(items)
    decreases items, 1
  {
    if items != [] {
      DecodesWhatWasEncoded(items[0], EncodeAll(items[1..]));
      DecodesAllThatWasEncoded(items[1..]);
      assert items == [items[0]] + items[1..];
    }
  }

  lemma PrefixIsHeader(b: bytes)
    requires b != [] && b[0] >= 0x80 && ReadPrefix(b).Some?
    ensures var p := ReadPrefix(b).value;
            p.len < LIMIT && b[..p.size] == Header(if p.list then 0xC0 else 0x80, p.len)
  {
    var p := ReadPrefix(b).value;
    var offset := if p.list then 0xC0 else 0x80;
    if b[0] - offset >= 56 {
      var n := b[0] - offset - 55;
      ToFromBE(b[1..1 + n]);
      LengthOfLength(p.len);
      assert b[..1 + n] == [b[0]] + b[1..1 + n];
    }
  }

  lemma {:induction false} EncodesWhatWasDecoded(b: bytes)
    requires DecodeItem(b).Some?
    ensures var (x, rest) := DecodeItem(b).value; Encodable(x) && b == Encode(x) + rest
    decreases |b|, 0
  {
    if b[0] < 0x80 {
      assert b == [b[0]] + b[1..];
    } else {
      PrefixIsHeader(b);
      var p := ReadPrefix(b).value;
      var end := p.size + p.len;
      var payload := b[p.size..end];
      assert b == b[..p.size] + payload + b[end..];
      if p.list {
        EncodesAllThatWasDecoded(payload);
      }
    }
  }

  lemma {:induction false} EncodesAllThatWasDecoded(b: bytes)
    requires DecodeAll(b).Some?
    ensures AllEncodable(DecodeAll(b).value) && EncodeAll(DecodeAll(b).value) == b
    decreases |b|, 1
  {
    if b != [] {
      EncodesWhatWasDecoded(b);
      var (x, rest) := DecodeItem(b).value;
      EncodesAllThatWasDecoded(rest);
      var xs := DecodeAll(rest).value;
      assert ([x] + xs)[1..] == xs;
    }
  }

  /** The strict decoder accepts exactly the encodings, and each as the item it encodes. */
  lemma DecodeIffEncoded(b: bytes, x: Item)
    ensures Decode(b) == Some(x) <==> Encodable(x) && b == Encode(x)
  {
    if Decode(b) == Some(x) {
      EncodesWhatWasDecoded(b);
      assert b == Encode(x) + [];
    }
    if Encodable(x) && b == Encode(x) {
      DecodesWhatWasEncoded(x, []);
      assert Encode(x) + [] == b;
    }
  }

  /** Two items never share an encoding. */
  lemma EncodeInjective(x: Item, y: Item)
    requires Encodable(x) && Encodable(y) && Encode(x) == Encode(y)
    ensures x == y
  {
    DecodeIffEncoded(Encode(x), x);
    DecodeIffEncoded(Encode(y), y);
  }
}
