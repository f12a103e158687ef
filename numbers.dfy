/**
 * Decimal text for integers, as the bot's f-strings and regular expressions
 * use it: `str(n)`, `f"{n:,}"` (thousands separators), zero padding, and
 * `int()` on a run of digits matched by `\d`.
 */
module Numbers {

  /** An ASCII decimal digit. */
  predicate IsDigit(c: char) {
    '0' <= c <= '9'
  }

  function DigitValue(c: char): (d: nat)
    requires IsDigit(c)
    ensures d < 10
  {
    (c as int) - ('0' as int)
  }

  function DigitChar(d: nat): (c: char)
    requires d < 10
    ensures IsDigit(c) && DigitValue(c) == d
  {
    (('0' as int) + d) as char
  }

  predicate AllDigits(s: string) {
    forall i :: 0 <= i < |s| ==> IsDigit(s[i])
  }

  /** `int(s)` for a non-empty run of digits (leading zeros allowed). */
  function DigitsValue(s: string): nat
    requires AllDigits(s)
    decreases |s|
  {
    if s == [] then 0 else DigitsValue(s[..|s| - 1]) * 10 + DigitValue(s[|s| - 1])
  }

  function Pow10(k: nat): (p: nat)
    ensures p >= 1
  {
    if k == 0 then 1 else 10 * Pow10(k - 1)
  }

  /** `str(n)` for a natural number: no sign, no leading zero. */
  function NatToString(n: nat): (s: string)
    ensures AllDigits(s) && 1 <= |s|
    ensures |s| > 1 ==> s[0] != '0'
    decreases n
  {
    if n < 10 then [DigitChar(n)] else NatToString(n / 10) + [DigitChar(n % 10)]
  }

  /** `str(i)` for any integer. */
  function IntToString(i: int): (s: string)
    ensures 1 <= |s|
    ensures i >= 0 ==> AllDigits(s)
    ensures i < 0 ==> s[0] == '-'
    ensures forall k :: 0 <= k < |s| ==> s[k] == '-' || IsDigit(s[k])
  {
    if i < 0 then "-" + NatToString(-i) else NatToString(i)
  }

  function Zeros(k: nat): (s: string)
    ensures |s| == k && AllDigits(s)
  {
    if k == 0 then "" else "0" + Zeros(k - 1)
  }

  /** `f"{n:0{width}d}"`: at least `width` digits, padded with leading zeros. */
  function Padded(n: nat, width: nat): (s: string)
    ensures AllDigits(s) && |s| >= width
    ensures |NatToString(n)| <= width ==> |s| == width
  {
    var t := NatToString(n);
    (if |t| < width then Zeros(width - |t|) else "") + t
  }

  /** `f"{i:,}"`: decimal text with a comma between groups of three digits. */
  function Grouped(i: int): (s: string)
    ensures 1 <= |s|
  {
    if i < 0 then "-" + GroupedNat(-i) else GroupedNat(i)
  }

  function GroupedNat(n: nat): (s: string)
    ensures 1 <= |s|
    decreases n
  {
    if n < 1000 then NatToString(n) else GroupedNat(n / 1000) + "," + Padded(n % 1000, 3)
  }

  /** The text with every comma taken out. */
  function WithoutCommas(s: string): string {
    if s == [] then [] else WithoutCommas(s[..|s| - 1]) + (if s[|s| - 1] == ',' then [] else [s[|s| - 1]])
  }

  lemma {:induction false} WithoutCommasAppend(a: string, b: string)
    ensures WithoutCommas(a + b) == WithoutCommas(a) + WithoutCommas(b)
    decreases |b|
  {
    if b == [] {
      assert a + b == a;
    } else {
      var b' := b[..|b| - 1];
      assert (a + b)[..|a + b| - 1] == a + b';
      WithoutCommasAppend(a, b');
    }
  }

  lemma {:induction false} WithoutCommasOfDigits(s: string)
    requires AllDigits(s)
    ensures WithoutCommas(s) == s
    decreases |s|
  {
    if s != [] {
      WithoutCommasOfDigits(s[..|s| - 1]);
      assert s == s[..|s| - 1] + [s[|s| - 1]];
    }
  }

  lemma {:induction false} DigitsValueAppend(a: string, b: string)
    requires AllDigits(a) && AllDigits(b)
    ensures AllDigits(a + b)
    ensures DigitsValue(a + b) == DigitsValue(a) * Pow10(|b|) + DigitsValue(b)
    decreases |b|
  {
    assert AllDigits(a + b) by {
      forall i | 0 <= i < |a + b| ensures IsDigit((a + b)[i]) {
        if i < |a| { assert (a + b)[i] == a[i]; } else { assert (a + b)[i] == b[i - |a|]; }
      }
    }
    if b == [] {
      assert a + b == a;
    } else {
      var b' := b[..|b| - 1];
      var c := b[|b| - 1];
      assert (a + b)[..|a + b| - 1] == a + b';
      assert (a + b)[|a + b| - 1] == c;
      DigitsValueAppend(a, b');
      var x, y, p, d := DigitsValue(a), DigitsValue(b'), Pow10(|b'|), DigitValue(c);
      assert DigitsValue(a + b) == DigitsValue(a + b') * 10 + d;
      assert DigitsValue(b) == y * 10 + d;
      assert Pow10(|b|) == p * 10;
      Distribute(x, p, y, d);
    }
  }

  lemma Distribute(x: int, p: int, y: int, d: int)
    ensures (x * p + y) * 10 + d == x * (p * 10) + (y * 10 + d)
  {
  }

  lemma {:induction false} ZerosValue(k: nat)
    ensures DigitsValue(Zeros(k)) == 0
  {
    if k > 0 {
      ZerosValue(k - 1);
      DigitsValueAppend("0", Zeros(k - 1));
      assert "0" + Zeros(k - 1) == Zeros(k);
    }
  }

  /** Reading back `str(n)` with `int()` gives `n`. */
  lemma {:induction false} NatToStringRoundTrip(n: nat)
    ensures DigitsValue(NatToString(n)) == n
    decreases n
  {
    if n >= 10 {
      NatToStringRoundTrip(n / 10);
      var s := NatToString(n);
      assert s[..|s| - 1] == NatToString(n / 10);
    }
  }

  /** Digits of value zero in front change nothing. */
  lemma LeadingZerosValue(z: string, t: string)
    requires AllDigits(z) && AllDigits(t) && DigitsValue(z) == 0
    ensures DigitsValue(z + t) == DigitsValue(t)
  {
    DigitsValueAppend(z, t);
    assert DigitsValue(z) * Pow10(|t|) == 0;
  }

  /** Zero padding does not change the value read back. */
  lemma PaddedRoundTrip(n: nat, width: nat)
    ensures DigitsValue(Padded(n, width)) == n
  {
    var t := NatToString(n);
    NatToStringRoundTrip(n);
    if |t| < width {
      var z := Zeros(width - |t|);
      assert Padded(n, width) == z + t;
      ZerosValue(width - |t|);
      LeadingZerosValue(z, t);
    } else {
      assert Padded(n, width) == t;
    }
  }

  /**
   * The thousands separators are the only thing `f"{n:,}"` adds: without its
   * commas the text is a digit string whose value is `n`.
   */
  lemma {:induction false} GroupedNatRoundTrip(n: nat)
    ensures AllDigits(WithoutCommas(GroupedNat(n)))
    ensures DigitsValue(WithoutCommas(GroupedNat(n))) == n
    decreases n
  {
    if n < 1000 {
      NatToStringRoundTrip(n);
      WithoutCommasOfDigits(NatToString(n));
    } else {
      var hi := GroupedNat(n / 1000);
      var lo := Padded(n % 1000, 3);
      GroupedNatRoundTrip(n / 1000);
      DropGroupComma(hi, lo);
      PaddedRoundTrip(n % 1000, 3);
      assert Pow10(3) == 1000;
      NatToStringLength(n % 1000, 3);
      GroupValue(WithoutCommas(hi), lo);
    }
  }

  /** Taking the commas out of `hi,lo` for a digit group `lo`. */
  lemma DropGroupComma(hi: string, lo: string)
    requires AllDigits(lo)
    ensures WithoutCommas(hi + "," + lo) == WithoutCommas(hi) + lo
  {
    WithoutCommasAppend(hi + ",", lo);
    WithoutCommasAppend(hi, ",");
    WithoutCommasOfDigits(lo);
    assert WithoutCommas(",") == [] by {
      assert ","[..0] == [];
    }
  }

  /** A group of three digits after `hi` multiplies the value of `hi` by 1000. */
  lemma GroupValue(hi: string, lo: string)
    requires AllDigits(hi) && AllDigits(lo) && |lo| == 3
    ensures AllDigits(hi + lo) && DigitsValue(hi + lo) == DigitsValue(hi) * 1000 + DigitsValue(lo)
  {
    DigitsValueAppend(hi, lo);
    assert Pow10(3) == 1000;
  }

  /** `str(n)` has at most `k >= 1` digits when `n < 10^k`. */
  lemma {:induction false} NatToStringLength(n: nat, k: nat)
    requires 1 <= k && n < Pow10(k)
    ensures |NatToString(n)| <= k
    decreases n
  {
    if n >= 10 {
      assert Pow10(1) == 10;
      assert n / 10 < Pow10(k - 1);
      NatToStringLength(n / 10, k - 1);
    }
  }
}
