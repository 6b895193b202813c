/** Hexadecimal text, as used by addresses and subscription ids. */
module Hex {
  import opened Wrappers
  import opened Rlp

  const DIGITS: string := "0123456789abcdef"

  function Digit(n: nat): char
    requires n < 16
  {
    DIGITS[n]
  }

  lemma DigitIs(n: nat)
    requires n < 16
    ensures Digit(n) == if n < 10 then '0' + n as char else 'a' + (n - 10) as char
  {
  }

  /** The value of a hex digit of either case. */
  function Value(c: char): Option<nat> {
    if '0' <= c <= '9' then Some((c - '0') as nat)
    else if 'a' <= c <= 'f' then Some((c - 'a') as nat + 10)
    else if 'A' <= c <= 'F' then Some((c - 'A') as nat + 10)
    else None
  }

  function LowerChar(c: char): char {
    if 'A' <= c <= 'Z' then 'a' + (c - 'A') else c
  }

  function Lower(s: string): (r: string)
    ensures |r| == |s|
  {
    seq(|s|, i requires 0 <= i < |s| => LowerChar(s[i]))
  }

  predicate IsHex(s: string) {
    forall i :: 0 <= i < |s| ==> Value(s[i]).Some?
  }

  lemma DigitValue(n: nat)
    requires n < 16
    ensures Value(Digit(n)) == Some(n)
  {
  }

  lemma ValueDigit(c: char)
    requires Value(c).Some?
    ensures Value(c).value < 16 && Digit(Value(c).value) == LowerChar(c)
  {
    var n := Value(c).value;
    assert DIGITS[n] == LowerChar(c);
  }

  /** hex.EncodeToString */
  function EncodeToString(b: bytes): (s: string)
    ensures |s| == 2 * |b|
  {
    if b == [] then "" else EncodeToString(b[..|b| - 1]) + [Digit(b[|b| - 1] / 16), Digit(b[|b| - 1] % 16)]
  }

  /** hex.DecodeString with its error ignored: what was decoded before the first bad digit. */
  function DecodePrefix(s: string): bytes {
    if |s| < 2 || Value(s[0]).None? || Value(s[1]).None? then []
    else
      ValueDigit(s[0]);
      ValueDigit(s[1]);
      [Value(s[0]).value * 16 + Value(s[1]).value] + DecodePrefix(s[2..])
  }

  lemma {:induction false} DecodeJoin(s: string, t: string)
    requires IsHex(s) && |s| % 2 == 0
    ensures DecodePrefix(s + t) == DecodePrefix(s) + DecodePrefix(t)
  {
    if s == "" {
      assert s + t == t;
    } else {
      assert (s + t)[2..] == s[2..] + t;
      DecodeJoin(s[2..], t);
    }
  }

  lemma {:induction false} DecodeEncoded(b: bytes)
    ensures IsHex(EncodeToString(b)) && DecodePrefix(EncodeToString(b)) == b
    ensures Lower(EncodeToString(b)) == EncodeToString(b)
  {
    if b != [] {
      var front, last := b[..|b| - 1], b[|b| - 1];
      DecodeEncoded(front);
      DigitValue(last / 16);
      DigitValue(last % 16);
      var pair := [Digit(last / 16), Digit(last % 16)];
      DecodeJoin(EncodeToString(front), pair);
      assert pair[2..] == [];
      assert DecodePrefix(pair) == [last];
      LowerDigit(last / 16);
      LowerDigit(last % 16);
    }
  }

  lemma LowerDigit(n: nat)
    requires n < 16
    ensures LowerChar(Digit(n)) == Digit(n)
  {
    DigitValue(n);
    ValueDigit(Digit(n));
  }

  lemma {:induction false} EncodeJoin(a: bytes, b: bytes)
    ensures EncodeToString(a + b) == EncodeToString(a) + EncodeToString(b)
  {
    if b == [] {
      assert a + b == a;
    } else {
      EncodeJoin(a, b[..|b| - 1]);
      assert (a + b)[..|a + b| - 1] == a + b[..|b| - 1];
    }
  }

  lemma EncodeFirst(x: byte, rest: bytes)
    ensures EncodeToString([x] + rest) == [Digit(x / 16), Digit(x % 16)] + EncodeToString(rest)
  {
    EncodeJoin([x], rest);
    assert [x][..0] == [];
  }

  lemma PairDigits(c: char, d: char)
    requires Value(c).Some? && Value(d).Some?
    ensures var x := Value(c).value * 16 + Value(d).value;
            x < 256 && Digit(x / 16) == LowerChar(c) && Digit(x % 16) == LowerChar(d)
  {
    ValueDigit(c);
    ValueDigit(d);
  }

  lemma LowerPair(s: string)
    requires |s| >= 2
    ensures Lower(s) == [LowerChar(s[0]), LowerChar(s[1])] + Lower(s[2..])
  {
  }

  /** Decoding an even number of hex digits and printing them again lower-cases them. */
  lemma {:induction false} EncodeDecoded(s: string)
    requires IsHex(s) && |s| % 2 == 0
    ensures EncodeToString(DecodePrefix(s)) == Lower(s)
    ensures |DecodePrefix(s)| == |s| / 2
  {
    if s != "" {
      EncodeDecoded(s[2..]);
      PairDigits(s[0], s[1]);
      LowerPair(s);
      EncodeFirst(Value(s[0]).value * 16 + Value(s[1]).value, DecodePrefix(s[2..]));
    }
  }
}
