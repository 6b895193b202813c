/** Identifiers: subscription ids printed from random bytes and request ids counted in 32 bits. */
module Ids {
  import opened Wrappers
  import opened Rlp
  import opened Hex

  // ---- encodeID ----

  /** strings.TrimLeft(s, "0") */
  function TrimZeros(s: string): string {
    if s != "" && s[0] == '0' then TrimZeros(s[1..]) else s
  }

  function EncodeId(b: bytes): string {
    var id := TrimZeros(EncodeToString(b));
    "0x" + if id == "" then "0" else id
  }

  /** The number a hex string stands for. */
  function Number(s: string): nat
    requires IsHex(s)
  {
    if s == "" then 0 else 16 * Number(s[..|s| - 1]) + Value(s[|s| - 1]).value
  }

  predicate LowerHexText(s: string) {
    forall i :: 0 <= i < |s| ==> Value(s[i]).Some? && LowerChar(s[i]) == s[i]
  }

  lemma NumberOfPair(s: string, c: char, d: char)
    requires IsHex(s) && Value(c).Some? && Value(d).Some?
    ensures IsHex(s + [c, d]) && Number(s + [c, d]) == 256 * Number(s) + 16 * Value(c).value + Value(d).value
  {
    assert (s + [c, d])[..|s| + 1] == s + [c];
    assert (s + [c])[..|s|] == s;
  }

  lemma {:induction false} NumberOfBytes(b: bytes)
    ensures LowerHexText(EncodeToString(b)) && IsHex(EncodeToString(b))
    ensures Number(EncodeToString(b)) == FromBE(b)
  {
    if b != [] {
      var front, last := b[..|b| - 1], b[|b| - 1];
      NumberOfBytes(front);
      DigitValue(last / 16);
      DigitValue(last % 16);
      LowerDigit(last / 16);
      LowerDigit(last % 16);
      NumberOfPair(EncodeToString(front), Digit(last / 16), Digit(last % 16));
    }
  }

  lemma {:induction false} NumberZero(s: string)
    requires IsHex(s)
    ensures IsHex("0" + s) && Number("0" + s) == Number(s)
  {
    if s == "" {
      assert ("0" + s)[..0] == "";
    } else {
      NumberZero(s[..|s| - 1]);
      assert ("0" + s)[..|s|] == "0" + s[..|s| - 1];
    }
  }

  lemma {:induction false} TrimKeepsNumber(s: string)
    requires LowerHexText(s)
    ensures var t := TrimZeros(s);
            LowerHexText(t) && IsHex(t) && Number(t) == Number(s) && (t == "" || t[0] != '0')
  {
    if s != "" && s[0] == '0' {
      assert s == "0" + s[1..];
      NumberZero(s[1..]);
      TrimKeepsNumber(s[1..]);
    }
  }

  lemma {:induction false} NumberPositive(s: string)
    requires LowerHexText(s) && s != "" && s[0] != '0'
    ensures Number(s) > 0
  {
    if |s| == 1 {
      ValueDigit(s[0]);
    } else {
      NumberPositive(s[..|s| - 1]);
    }
  }

  /** Lower-case hex without leading zeros is determined by its number. */
  lemma {:induction false} NumberInjective(s: string, t: string)
    requires LowerHexText(s) && LowerHexText(t) && Number(s) == Number(t)
    requires s == "" || s[0] != '0'
    requires t == "" || t[0] != '0'
    ensures s == t
  {
    if s == "" {
      if t != "" { NumberPositive(t); }
    } else if t == "" {
      NumberPositive(s);
    } else {
      ValueDigit(s[|s| - 1]);
      ValueDigit(t[|t| - 1]);
      NumberInjective(s[..|s| - 1], t[..|t| - 1]);
      assert s == s[..|s| - 1] + [s[|s| - 1]] && t == t[..|t| - 1] + [t[|t| - 1]];
    }
  }

  /** The printed id is the shortest hex quantity of the bytes' value: no leading zero but in "0x0". */
  lemma EncodeIdMinimal(b: bytes)
    ensures var id := EncodeId(b);
            && id[..2] == "0x" && LowerHexText(id[2..]) && IsHex(id[2..])
            && Number(id[2..]) == FromBE(b)
            && (id[2] == '0' ==> id == "0x0")
  {
    NumberOfBytes(b);
    TrimKeepsNumber(EncodeToString(b));
    var t := TrimZeros(EncodeToString(b));
    assert EncodeId(b)[2..] == if t == "" then "0" else t;
    if t == "" {
      assert Number("0") == 0 by { NumberZero(""); }
    }
  }

  lemma {:induction false} FromBEInjective(a: bytes, b: bytes)
    requires |a| == |b| && FromBE(a) == FromBE(b)
    ensures a == b
  {
    if a != [] {
      FromBEInjective(a[..|a| - 1], b[..|b| - 1]);
      assert a == a[..|a| - 1] + [a[|a| - 1]] && b == b[..|b| - 1] + [b[|b| - 1]];
    }
  }

  /** Two ids are equal exactly when their bytes have the same value; for equal lengths, when they are the same bytes. */
  lemma EncodeIdInjective(a: bytes, b: bytes)
    ensures EncodeId(a) == EncodeId(b) <==> FromBE(a) == FromBE(b)
    ensures |a| == |b| ==> (EncodeId(a) == EncodeId(b) <==> a == b)
  {
    EncodeIdMinimal(a);
    EncodeIdMinimal(b);
    if FromBE(a) == FromBE(b) {
      NumberOfBytes(a);
      NumberOfBytes(b);
      TrimKeepsNumber(EncodeToString(a));
      TrimKeepsNumber(EncodeToString(b));
      NumberInjective(TrimZeros(EncodeToString(a)), TrimZeros(EncodeToString(b)));
      if |a| == |b| {
        FromBEInjective(a, b);
      }
    }
  }

  // ---- nextID ----

  const WRAP: nat := 0x1_0000_0000

  /** strconv.AppendUint(nil, n, 10) */
  function Decimal(n: nat): string {
    if n < 10 then [Digit(n)] else Decimal(n / 10) + [Digit(n % 10)]
  }

  predicate AllDigits(s: string) {
    forall i :: 0 <= i < |s| ==> '0' <= s[i] <= '9'
  }

  /** The number that decimal digits stand for. */
  function Place(s: string): nat
    requires AllDigits(s)
  {
    if s == "" then 0 else 10 * Place(s[..|s| - 1]) + (s[|s| - 1] - '0') as nat
  }

  /** The decimal numeral of n as JSON wants it. */
  predicate IsNumeral(s: string, n: nat) {
    s != "" && AllDigits(s) && Place(s) == n && (s[0] == '0' ==> s == "0")
  }

  lemma DigitChar(n: nat)
    requires n < 10
    ensures '0' <= Digit(n) <= '9' && (Digit(n) - '0') as nat == n
  {
    DigitValue(n);
  }

  lemma AppendDigit(s: string, n: nat, d: char)
    requires IsNumeral(s, n) && n > 0 && '0' <= d <= '9'
    ensures IsNumeral(s + [d], 10 * n + (d - '0') as nat)
  {
    assert (s + [d])[..|s|] == s;
    assert "0"[..0] == "" && Place("0") == 0;
  }

  lemma {:induction false} DecimalIsNumeral(n: nat)
    ensures IsNumeral(Decimal(n), n)
  {
    DigitChar(n % 10);
    if n >= 10 {
      DecimalIsNumeral(n / 10);
      AppendDigit(Decimal(n / 10), n / 10, Digit(n % 10));
    } else {
      assert Decimal(n)[..0] == "";
    }
  }

  lemma DecimalInjective(m: nat, n: nat)
    requires Decimal(m) == Decimal(n)
    ensures m == n
  {
    DecimalIsNumeral(m);
    DecimalIsNumeral(n);
  }

  /** The k-th id handed out by a counter that stands at c. */
  function IdAfter(c: nat, k: nat): string {
    Decimal((c + 1 + k) % WRAP)
  }

  /** Ids repeat exactly at multiples of 2^32, so any fewer than that many in a row are distinct. */
  lemma IdsRepeatAtWrap(c: nat, j: nat, k: nat)
    ensures IdAfter(c, j) == IdAfter(c, k) <==> j % 0x1_0000_0000 == k % 0x1_0000_0000
    ensures j < k < j + 0x1_0000_0000 ==> IdAfter(c, j) != IdAfter(c, k)
  {
    if IdAfter(c, j) == IdAfter(c, k) {
      DecimalInjective((c + 1 + j) % WRAP, (c + 1 + k) % WRAP);
      ShiftMod(c + 1, j, k);
    } else if j % WRAP == k % WRAP {
      ShiftMod(c + 1, j, k);
    }
    if j < k < j + WRAP {
      NearMod(j, k);
    }
  }

  lemma ShiftMod(a: nat, j: nat, k: nat)
    ensures (a + j) % WRAP == (a + k) % WRAP <==> j % WRAP == k % WRAP
  {
  }

  lemma NearMod(j: nat, k: nat)
    requires j < k < j + WRAP
    ensures j % WRAP != k % WRAP
  {
  }

  class IdCounter {
    var counter: nat

    /** atomic.AddUint32(&c.idCounter, 1), printed. */
    method NextId() returns (id: string)
      requires counter < WRAP
      modifies this
      ensures counter == (old(counter) + 1) % WRAP
      ensures id == IdAfter(old(counter), 0)
      ensures IsNumeral(id, (old(counter) + 1) % 0x1_0000_0000)
    {
      counter := (counter + 1) % WRAP;
      DecimalIsNumeral(counter);
      id := Decimal(counter);
    }

    /** As many ids as a batch needs; all different as long as there are fewer than 2^32. */
    method NextIds(n: nat) returns (ids: seq<string>)
      requires counter < WRAP
      modifies this
      ensures counter == (old(counter) + n) % WRAP
      ensures |ids| == n && forall k :: 0 <= k < n ==> ids[k] == IdAfter(old(counter), k)
      ensures forall k :: 0 <= k < n ==> IsNumeral(ids[k], (old(counter) + 1 + k) % 0x1_0000_0000)
      ensures n <= 0x1_0000_0000 ==> Distinct(ids)
    {
      ids := [];
      ghost var c := counter;
      while |ids| < n
        invariant |ids| <= n && counter == (c + |ids|) % WRAP
        invariant forall k :: 0 <= k < |ids| ==> ids[k] == IdAfter(c, k) && IsNumeral(ids[k], (c + 1 + k) % WRAP)
      {
        ghost var i := |ids|;
        assert ((c + i) % WRAP + 1) % WRAP == (c + 1 + i) % WRAP;
        var id := NextId();
        ids := ids + [id];
      }
      forall j, k | 0 <= j < k < n && n <= WRAP ensures ids[j] != ids[k] {
        IdsRepeatAtWrap(c, j, k);
      }
    }
  }
}
