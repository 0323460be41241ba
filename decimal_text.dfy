/**
 * The JavaScript string operations the two identifier formatters are built from: `String(n)` on
 * an integer, `padStart` with a one-character fill, and `slice(-k)`; plus reading a digit string
 * back as a number, which states what the formatters' segments mean.
 */
module DecimalText {

  predicate IsDigit(c: char) {
    '0' <= c <= '9'
  }

  predicate AllDigits(s: string) {
    forall i | 0 <= i < |s| :: IsDigit(s[i])
  }

  function DigitChar(d: nat): (c: char)
    requires d < 10
    ensures IsDigit(c) && DigitValue(c) == d
  {
    "0123456789"[d]
  }

  function DigitValue(c: char): nat
    requires IsDigit(c)
  {
    c as int - '0' as int
  }

  function Pow10(k: nat): nat {
    if k == 0 then 1 else 10 * Pow10(k - 1)
  }

  /** The number a digit string denotes (leading zeros allowed). */
  function ParseNat(s: string): nat
    requires AllDigits(s)
  {
    if s == [] then 0 else ParseNat(s[..|s| - 1]) * 10 + DigitValue(s[|s| - 1])
  }

  /** The number of decimal digits of `n` (1 for 0). */
  function NumDigits(n: nat): (k: nat)
    ensures k >= 1
  {
    if n < 10 then 1 else 1 + NumDigits(n / 10)
  }

  /** `String(n)` for a non-negative integer: its decimal digits, without leading zeros. */
  function NatToString(n: nat): (s: string)
    ensures |s| == NumDigits(n)
    ensures AllDigits(s)
    ensures s[0] == '0' ==> n == 0
  {
    if n < 10 then [DigitChar(n)] else NatToString(n / 10) + [DigitChar(n % 10)]
  }

  /** `String(n)` reads back as `n`. */
  lemma {:induction false} ParseNatToString(n: nat)
    ensures ParseNat(NatToString(n)) == n
  {
    if n >= 10 {
      var s := NatToString(n);
      assert s[..|s| - 1] == NatToString(n / 10);
      ParseNatToString(n / 10);
    }
  }

  /** `String(i)` for any integer: a minus sign in front of a negative one. */
  function IntToString(i: int): (s: string)
    ensures i >= 0 ==> s == NatToString(i)
    ensures i < 0 ==> s == "-" + NatToString(-i)
  {
    if i >= 0 then NatToString(i) else "-" + NatToString(-i)
  }

  /** `s.padStart(width, fill)` for a one-character fill: unchanged when already `width` long. */
  function PadStart(s: string, width: nat, fill: char): (r: string)
    ensures |r| == if |s| >= width then |s| else width
    ensures r[|r| - |s|..] == s
    ensures forall i | 0 <= i < |r| - |s| :: r[i] == fill
  {
    if |s| >= width then s else seq(width - |s|, _ => fill) + s
  }

  /** `String(n).padStart(width, "0")`: at least `width` digits, denoting `n`. */
  function ZeroPadded(n: nat, width: nat): (s: string)
    ensures |s| == if NumDigits(n) >= width then NumDigits(n) else width
    ensures AllDigits(s) && ParseNat(s) == n
  {
    ParseNatToString(n);
    ParsePadded(NatToString(n), width);
    PadStart(NatToString(n), width, '0')
  }

  /** Below 10^width the padded text is exactly `width` long. */
  lemma ZeroPaddedWidth(n: nat, width: nat)
    requires width >= 1 && n < Pow10(width)
    ensures |ZeroPadded(n, width)| == width
  {
    NumDigitsBound(n, width);
  }

  /** `String(n).padStart(2, "0")` for a number below 100. */
  function TwoDigits(n: nat): (s: string)
    requires n < 100
    ensures |s| == 2 && AllDigits(s) && ParseNat(s) == n
  {
    ZeroPaddedWidth(n, 2);
    ZeroPadded(n, 2)
  }

  /** The two characters are the tens digit then the units digit. */
  lemma TwoDigitsForm(n: nat)
    requires n < 100
    ensures TwoDigits(n) == [DigitChar(n / 10), DigitChar(n % 10)]
  {
    if n < 10 {
      assert NatToString(n) == [DigitChar(n)];
      assert seq(1, _ => '0') == [DigitChar(0)];
      assert n / 10 == 0 && n % 10 == n;
    } else {
      assert n / 10 < 10;
      assert NatToString(n / 10) == [DigitChar(n / 10)];
      assert NatToString(n) == [DigitChar(n / 10)] + [DigitChar(n % 10)];
      assert PadStart(NatToString(n), 2, '0') == NatToString(n);
    }
  }

  /** The last character of `String(n)` is its units digit. */
  lemma LastDigit(n: nat)
    ensures NatToString(n)[|NatToString(n)| - 1] == DigitChar(n % 10)
  {
  }

  /** `s.slice(-k)`: the last `k` characters, or all of `s` when it is shorter. */
  function SliceLast(s: string, k: nat): (r: string)
    ensures |r| == if |s| <= k then |s| else k
    ensures r == s[|s| - |r|..]
  {
    if |s| <= k then s else s[|s| - k..]
  }

  /** Reading a concatenation: the left part shifted by the length of the right. */
  lemma {:induction false} ParseConcat(a: string, b: string)
    requires AllDigits(a) && AllDigits(b)
    ensures AllDigits(a + b)
    ensures ParseNat(a + b) == ParseNat(a) * Pow10(|b|) + ParseNat(b)
  {
    if b != [] {
      var b', last := b[..|b| - 1], b[|b| - 1];
      assert (a + b)[..|a + b| - 1] == a + b';
      assert (a + b)[|a + b| - 1] == last;
      ParseConcat(a, b');
      var x, p, y := ParseNat(a), Pow10(|b'|), ParseNat(b');
      assert Pow10(|b|) == 10 * p;
      assert ParseNat(b) == y * 10 + DigitValue(last);
      calc {
        ParseNat(a + b);
        ParseNat(a + b') * 10 + DigitValue(last);
        (x * p + y) * 10 + DigitValue(last);
        { MultiplyOut(x, p, y); }
        x * (10 * p) + (y * 10 + DigitValue(last));
      }
    } else {
      assert a + b == a;
    }
  }

  lemma MultiplyOut(x: nat, p: nat, y: nat)
    ensures (x * p + y) * 10 == x * (10 * p) + y * 10
  {
  }

  lemma {:induction false} ParseZeros(k: nat)
    ensures AllDigits(seq(k, _ => '0')) && ParseNat(seq(k, _ => '0')) == 0
  {
    if k > 0 {
      assert seq(k, _ => '0')[..k - 1] == seq(k - 1, _ => '0');
      ParseZeros(k - 1);
    }
  }

  /** Zero padding does not change the number a digit string denotes. */
  lemma ParsePadded(s: string, width: nat)
    requires AllDigits(s)
    ensures AllDigits(PadStart(s, width, '0'))
    ensures ParseNat(PadStart(s, width, '0')) == ParseNat(s)
  {
    if |s| < width {
      ParseZeros(width - |s|);
      ParseConcat(seq(width - |s|, _ => '0'), s);
    }
  }

  /** `n` has at most `k` digits exactly when it is below 10^k. */
  lemma {:induction false} NumDigitsBound(n: nat, k: nat)
    ensures NumDigits(n) <= k <==> k >= 1 && n < Pow10(k)
  {
    if n >= 10 && k >= 1 {
      NumDigitsBound(n / 10, k - 1);
    }
    if k == 1 {
      assert Pow10(1) == 10;
    }
    if k >= 1 && n < 10 {
      Pow10Positive(k);
    }
  }

  lemma {:induction false} Pow10Positive(k: nat)
    ensures Pow10(k) >= 10 || k == 0
  {
    if k > 1 {
      Pow10Positive(k - 1);
    }
  }
}
