/** Decimal rendering of integers as Python's `str(n)` and `f"{n:0Wd}"`
    produce it, with the reading that undoes it. */
module PyFormat {

  predicate IsDigit(c: char) {
    '0' <= c <= '9'
  }

  function DigitChar(d: nat): (c: char)
    requires d < 10
    ensures IsDigit(c)
  {
    ('0' as int + d) as char
  }

  function DigitValue(c: char): (d: nat)
    requires IsDigit(c)
    ensures d < 10
  {
    c as int - '0' as int
  }

  /** The decimal digits of `n`, most significant first, without leading
      zeros (`"0"` for zero). */
  function Digits(n: nat): (s: string)
    ensures |s| > 0
    ensures forall i :: 0 <= i < |s| ==> IsDigit(s[i])
    ensures n < 10 <==> |s| == 1
    ensures n < 100 ==> |s| <= 2
    ensures n < 1000 ==> |s| <= 3
    decreases n
  {
    if n < 10 then [DigitChar(n)] else Digits(n / 10) + [DigitChar(n % 10)]
  }

  /** The number a digit string denotes. */
  predicate AllDigits(s: string) {
    forall i :: 0 <= i < |s| ==> IsDigit(s[i])
  }

  function Value(s: string): nat
    requires AllDigits(s)
  {
    if |s| == 0 then 0 else 10 * Value(s[..|s| - 1]) + DigitValue(s[|s| - 1])
  }

  /** Reading the digits back gives the number. */
  lemma {:induction false} DigitsValue(n: nat)
    ensures Value(Digits(n)) == n
    decreases n
  {
    if n >= 10 {
      DigitsValue(n / 10);
      var s := Digits(n);
      assert s[..|s| - 1] == Digits(n / 10);
    }
  }

  /** `w - |s|` zeros in front of `s`, when `s` is shorter than `w`. */
  function ZeroPad(s: string, w: nat): (r: string)
    ensures |r| == if |s| < w then w else |s|
    ensures r[|r| - |s|..] == s
    ensures forall i :: 0 <= i < |r| - |s| ==> r[i] == '0'
  {
    if |s| < w then seq(w - |s|, i => '0') + s else s
  }

  /** Leading zeros add nothing to the value. */
  lemma {:induction false} LeadingZeros(z: nat, s: string)
    requires forall i :: 0 <= i < |s| ==> IsDigit(s[i])
    ensures Value(seq(z, i => '0') + s) == Value(s)
    decreases |s|
  {
    var t := seq(z, i => '0') + s;
    if |s| == 0 {
      ZerosValue(z);
      assert t == seq(z, i => '0');
    } else {
      LeadingZeros(z, s[..|s| - 1]);
      assert t[..|t| - 1] == seq(z, i => '0') + s[..|s| - 1];
    }
  }

  lemma {:induction false} ZerosValue(z: nat)
    ensures Value(seq(z, i => '0')) == 0
  {
    if z > 0 {
      ZerosValue(z - 1);
      assert seq(z, i => '0')[..z - 1] == seq(z - 1, i => '0');
    }
  }

  /** `f"{n:0{w}d}"`: the decimal digits, zero-filled to width `w`, a minus
      sign counting toward the width. */
  function FormatInt(n: int, w: nat): (r: string)
    ensures n >= 0 ==> r == ZeroPad(Digits(n), w)
    ensures n < 0 ==> r == "-" + ZeroPad(Digits(-n), if w > 0 then w - 1 else 0)
  {
    if n >= 0 then ZeroPad(Digits(n), w)
    else "-" + ZeroPad(Digits(-n), if w > 0 then w - 1 else 0)
  }

  /** `str(n)` for a non-negative `n`. */
  function NatToString(n: nat): string {
    Digits(n)
  }

  /** A zero-filled field of a number that fits the width is exactly the
      width wide, all digits, and reads back as the number. */
  lemma FormatIntRoundTrip(n: nat, w: nat)
    requires |Digits(n)| <= w
    ensures |FormatInt(n, w)| == w
    ensures forall i :: 0 <= i < w ==> IsDigit(FormatInt(n, w)[i])
    ensures Value(FormatInt(n, w)) == n
  {
    var s := Digits(n);
    DigitsValue(n);
    LeadingZeros(w - |s|, s);
  }
}
