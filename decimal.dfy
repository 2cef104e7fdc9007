/** Decimal numerals: Python's str() on integers, zero-padded fields and six-decimal fixed point. */
module Decimal {
  import opened Wrappers

  predicate IsDigit(c: char)
  {
    '0' <= c <= '9'
  }

  function DigitChar(d: nat): (c: char)
    requires d < 10
    ensures IsDigit(c) && c as int - '0' as int == d
  {
    ('0' as int + d) as char
  }

  function DigitValue(c: char): (d: nat)
    requires IsDigit(c)
    ensures d < 10
  {
    c as int - '0' as int
  }

  predicate AllDigits(s: string)
  {
    forall i :: 0 <= i < |s| ==> IsDigit(s[i])
  }

  function Pow10(k: nat): (r: nat)
    ensures r >= 1
  {
    if k == 0 then 1 else 10 * Pow10(k - 1)
  }

  /** Python's str(n) for n >= 0: the decimal numeral without leading zeros. */
  function NatToStr(n: nat): (r: string)
    ensures |r| >= 1 && AllDigits(r)
    ensures r[0] == '0' ==> n == 0
    decreases n
  {
    if n < 10 then [DigitChar(n)] else NatToStr(n / 10) + [DigitChar(n % 10)]
  }

  /** Python's str(i) for any int. */
  function IntToStr(i: int): (r: string)
    ensures |r| >= 1
    ensures r[0] == '-' <==> i < 0
    ensures i >= 0 ==> AllDigits(r)
    ensures i < 0 ==> |r| >= 2 && AllDigits(r[1..])
  {
    assert i < 0 ==> ("-" + NatToStr(-i))[1..] == NatToStr(-i);
    if i < 0 then "-" + NatToStr(-i) else NatToStr(i)
  }

  /** The value of a numeral, leading zeros allowed, as int() reads it. */
  function StrToNat(s: string): nat
    requires AllDigits(s)
    decreases |s|
  {
    if s == [] then 0 else StrToNat(s[..|s| - 1]) * 10 + DigitValue(s[|s| - 1])
  }

  /** Reading back what str() printed gives the number again. */
  lemma {:induction false} NatToStrRoundTrip(n: nat)
    ensures StrToNat(NatToStr(n)) == n
    decreases n
  {
    if n >= 10 {
      NatToStrRoundTrip(n / 10);
      var s := NatToStr(n);
      assert s[..|s| - 1] == NatToStr(n / 10);
    }
  }

  /** str(n) has at most k digits exactly when n < 10^k. */
  lemma {:induction false} NatToStrLength(n: nat, k: nat)
    requires k >= 1
    ensures |NatToStr(n)| <= k <==> n < Pow10(k)
    decreases n
  {
    if n >= 10 && k >= 2 {
      NatToStrLength(n / 10, k - 1);
    } else if n >= 10 {
      assert |NatToStr(n)| == |NatToStr(n / 10)| + 1;
    } else {
      assert Pow10(k) == 10 * Pow10(k - 1);
    }
  }

  /** k zero digits. */
  function Zeros(k: nat): (r: string)
    ensures |r| == k && AllDigits(r)
  {
    if k == 0 then "" else "0" + Zeros(k - 1)
  }

  /** Python's format(n, '0<width>d'): the numeral of n, zero-filled on the left to `width`. */
  /** Multiplying by 10^k appends k zeros to the numeral of a positive number. */
  lemma {:induction false} NatToStrShift(d: nat, k: nat)
    requires d >= 1
    ensures NatToStr(d * Pow10(k)) == NatToStr(d) + Zeros(k)
  {
    if k > 0 {
      NatToStrShift(d, k - 1);
      var m := d * Pow10(k - 1);
      PositiveTimesPow10(d, k);
      NatToStrTimes10(m);
      ZerosAppend(k);
    }
  }

  lemma {:induction false} ZerosAppend(k: nat)
    requires k >= 1
    ensures Zeros(k - 1) + "0" == Zeros(k)
  {
    if k > 1 {
      ZerosAppend(k - 1);
      assert Zeros(k) == "0" + (Zeros(k - 2) + "0");
    }
  }

  lemma PositiveTimesPow10(d: nat, k: nat)
    requires d >= 1 && k >= 1
    ensures d * Pow10(k - 1) >= 1 && d * Pow10(k) == d * Pow10(k - 1) * 10
  {
    assert Pow10(k) == 10 * Pow10(k - 1);
  }

  lemma NatToStrTimes10(m: nat)
    requires m >= 1
    ensures NatToStr(m * 10) == NatToStr(m) + "0"
  {
    assert (m * 10) / 10 == m && (m * 10) % 10 == 0;
    assert DigitChar(0) == '0';
  }

  function ZeroPad(n: nat, width: nat): (r: string)
    ensures AllDigits(r)
  {
    var d := NatToStr(n);
    if |d| >= width then d else Zeros(width - |d|) + d
  }

  lemma {:induction false} LeadingZero(s: string)
    requires AllDigits(s)
    ensures AllDigits("0" + s) && StrToNat("0" + s) == StrToNat(s)
    decreases |s|
  {
    var t := "0" + s;
    if s == [] {
      assert t[..|t| - 1] == [];
    } else {
      assert t[..|t| - 1] == "0" + s[..|s| - 1];
      LeadingZero(s[..|s| - 1]);
    }
  }

  lemma {:induction false} LeadingZeros(k: nat, s: string)
    requires AllDigits(s)
    ensures AllDigits(Zeros(k) + s) && StrToNat(Zeros(k) + s) == StrToNat(s)
  {
    if k == 0 {
      assert Zeros(k) + s == s;
    } else {
      LeadingZeros(k - 1, s);
      assert Zeros(k) + s == "0" + (Zeros(k - 1) + s);
      LeadingZero(Zeros(k - 1) + s);
    }
  }

  /** The zero fill changes the width, never the value; a number below 10^width fills it exactly. */
  lemma ZeroPadFacts(n: nat, width: nat)
    ensures StrToNat(ZeroPad(n, width)) == n
    ensures width >= 1 && n < Pow10(width) ==> |ZeroPad(n, width)| == width
  {
    var d := NatToStr(n);
    NatToStrRoundTrip(n);
    if |d| < width {
      LeadingZeros(width - |d|, d);
      assert ZeroPad(n, width) == Zeros(width - |d|) + d;
    } else {
      assert ZeroPad(n, width) == d;
    }
    if width >= 1 && n < Pow10(width) {
      NatToStrLength(n, width);
    }
  }

  const Million: nat := 1000000

  /** Python's f'{u / 10**6:.6f}' for a non-negative count u of millionths. */
  function Fixed6(u: nat): (r: string)
    ensures |r| >= 8 && r[|r| - 7] == '.'
    ensures AllDigits(r[..|r| - 7]) && AllDigits(r[|r| - 6..])
  {
    Pow10Six();
    ZeroPadFacts(u % Million, 6);
    PointLayout(NatToStr(u / Million), ZeroPad(u % Million, 6));
    NatToStr(u / Million) + "." + ZeroPad(u % Million, 6)
  }

  lemma Pow10Six()
    ensures Pow10(6) == Million
  {
  }

  /** Where the whole part and the fraction sit in "<whole>.<frac>". */
  lemma PointLayout(whole: string, frac: string)
    requires |frac| == 6
    ensures var r := whole + "." + frac;
            |r| == |whole| + 7 && r[|r| - 7] == '.' && r[..|r| - 7] == whole && r[|r| - 6..] == frac
  {
    var r := whole + "." + frac;
    assert r[..|r| - 7] == whole;
    assert r[|r| - 6..] == frac;
  }

  /** Reads "<digits>.<six digits>" back as a count of millionths. */
  function ParseFixed6(s: string): Option<nat>
  {
    if |s| >= 8 && s[|s| - 7] == '.' && AllDigits(s[..|s| - 7]) && AllDigits(s[|s| - 6..])
    then Some(StrToNat(s[..|s| - 7]) * Million + StrToNat(s[|s| - 6..]))
    else None
  }

  /** The six-decimal rendering has six digits after the point and reads back exactly. */
  lemma Fixed6RoundTrip(u: nat)
    ensures |Fixed6(u)| >= 8 && Fixed6(u)[|Fixed6(u)| - 7] == '.'
    ensures ParseFixed6(Fixed6(u)) == Some(u)
  {
    var whole, frac := NatToStr(u / Million), ZeroPad(u % Million, 6);
    assert Pow10(6) == Million;
    ZeroPadFacts(u % Million, 6);
    NatToStrRoundTrip(u / Million);
    var s := Fixed6(u);
    assert s == whole + "." + frac;
    assert s[..|s| - 7] == whole;
    assert s[|s| - 6..] == frac;
  }
}
