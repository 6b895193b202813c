/** Addresses as numbers: reading one keeps the value of its hex text modulo 2^160, however long the text. */
module AddressValues {
  import opened Wrappers
  import opened Rlp
  import opened Hex
  import opened Ids
  import opened Transactions

  lemma {:induction false} FromBESplit(a: bytes, b: bytes)
    ensures FromBE(a + b) == FromBE(a) * Pow256(|b|) + FromBE(b)
  {
    if b == [] {
      assert a + b == a;
    } else {
      var n := |b| - 1;
      FromBESplit(a, b[..n]);
      assert (a + b)[..|a| + n] == a + b[..n];
      assert Pow256(n + 1) == 256 * Pow256(n);
      assert 256 * (FromBE(a) * Pow256(n)) == FromBE(a) * (256 * Pow256(n));
    }
  }

  lemma {:induction false} FromBEBound(b: bytes)
    ensures FromBE(b) < Pow256(|b|)
  {
    if b != [] {
      FromBEBound(b[..|b| - 1]);
      assert Pow256(|b|) == 256 * Pow256(|b| - 1);
    }
  }

  lemma {:induction false} FromBEZeros(n: nat)
    ensures FromBE(Zeros(n)) == 0
  {
    if n > 0 {
      FromBEZeros(n - 1);
      assert Zeros(n)[..n - 1] == Zeros(n - 1);
    }
  }

  lemma Remainder(q: nat, m: nat, r: nat)
    requires r < m
    ensures (q * m + r) % m == r
  {
    var k, z := (q * m + r) / m, (q * m + r) % m;
    assert (q - k) * m == z - r;
    SmallMultiple(q - k, m);
  }

  lemma SmallMultiple(d: int, m: int)
    requires m > 0
    ensures d == 0 || d * m >= m || d * m <= -m
  {
    if d > 0 {
      Product(d, m);
    } else if d < 0 {
      Product(-d, m);
      assert (-d) * m == -(d * m);
    }
  }

  lemma {:induction false} Product(d: nat, m: nat)
    requires d > 0
    ensures d * m >= m
  {
    if d > 1 {
      Product(d - 1, m);
      assert d * m == (d - 1) * m + m;
    }
  }

  /** The last bytes of a number are the number modulo a power of 256. */
  lemma LowBytes(b: bytes, n: nat)
    requires n <= |b|
    ensures FromBE(b[|b| - n..]) == FromBE(b) % Pow256(n)
  {
    var high, low := b[..|b| - n], b[|b| - n..];
    assert b == high + low;
    FromBESplit(high, low);
    FromBEBound(low);
    Remainder(FromBE(high), Pow256(n), FromBE(low));
  }

  lemma {:induction false} NumberOfLower(s: string)
    requires IsHex(s)
    ensures IsHex(Lower(s)) && Number(Lower(s)) == Number(s)
  {
    if s != "" {
      NumberOfLower(s[..|s| - 1]);
      assert Lower(s)[..|s| - 1] == Lower(s[..|s| - 1]);
    }
  }

  lemma DecodedValue(s: string)
    requires IsHex(s) && |s| % 2 == 0
    ensures FromBE(DecodePrefix(s)) == Number(s)
  {
    EncodeDecoded(s);
    NumberOfBytes(DecodePrefix(s));
    NumberOfLower(s);
  }

  /** The digits of a hex text, after 0x or 0X if that is there. */
  function Digits(text: string): string {
    if |text| >= 2 && (text[..2] == "0x" || text[..2] == "0X") then text[2..] else text
  }

  lemma FromHexValue(text: string)
    requires IsHex(Digits(text))
    ensures FromBE(FromHex(text)) == Number(Digits(text))
  {
    var t := Digits(text);
    if |text| >= 2 {
      assert text[..2] == [text[0], text[1]];
    }
    if |t| % 2 == 1 {
      NumberZero(t);
      DecodedValue("0" + t);
    } else {
      DecodedValue(t);
    }
  }

  lemma PaddedValue(b: bytes, n: nat)
    requires |b| <= n
    ensures FromBE(Zeros(n - |b|) + b) == FromBE(b) < Pow256(n)
  {
    var zeros := Zeros(n - |b|);
    FromBEZeros(n - |b|);
    FromBESplit(zeros, b);
    assert FromBE(zeros) * Pow256(|b|) == 0;
    FromBEBound(zeros + b);
  }

  /** common.HexToAddress on any hex text: twenty bytes with its value modulo 2^160. */
  lemma AddressKeepsValue(text: string)
    requires IsHex(Digits(text))
    ensures |HexToAddress(text)| == 20 && FromBE(HexToAddress(text)) == Number(Digits(text)) % Pow256(20)
  {
    var b := FromHex(text);
    FromHexValue(text);
    if |b| >= 20 {
      LowBytes(b, 20);
    } else {
      PaddedValue(b, 20);
      SmallRemainder(FromBE(b), Pow256(20));
    }
  }

  lemma SmallRemainder(x: nat, m: nat)
    requires x < m
    ensures x % m == x
  {
  }
}
