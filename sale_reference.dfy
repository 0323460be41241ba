/**
 * `generateSaleReference` (iris-client-management/lib/utils/generate-reference.ts): "SO"
 * followed by the last two characters of the year, the two-digit month and day, and a random
 * number below 1000 padded to three digits. The date and `Math.random()` are parameters:
 * `fullYear` is `getFullYear()`, `monthIndex` is `getMonth()` (January is 0), `day` is
 * `getDate()` and `rnd` is the value of `Math.random()`, in [0, 1).
 */
module SaleReferenceFormat {
  import opened DecimalText

  /** `Math.floor(Math.random() * 1000)`. */
  function RandomPart(rnd: real): (k: nat)
    requires 0.0 <= rnd < 1.0
    ensures k < 1000
    ensures k as real <= rnd * 1000.0 < k as real + 1.0
  {
    (rnd * 1000.0).Floor
  }

  /** `String(date.getFullYear()).slice(-2)`. */
  function YearSegment(fullYear: int): string {
    SliceLast(IntToString(fullYear), 2)
  }

  /** The random number as written: `.toString().padStart(3, "0")`. */
  function RandomSegment(rnd: real): (s: string)
    requires 0.0 <= rnd < 1.0
    ensures |s| == 3 && AllDigits(s) && ParseNat(s) == RandomPart(rnd)
  {
    ZeroPaddedWidth(RandomPart(rnd), 3);
    ZeroPadded(RandomPart(rnd), 3)
  }

  function GenerateSaleReference(fullYear: int, monthIndex: int, day: int, rnd: real): (r: string)
    requires 0 <= monthIndex <= 11 && 1 <= day <= 31 && 0.0 <= rnd < 1.0
    ensures |r| == 9 + |YearSegment(fullYear)|
  {
    "SO" + YearSegment(fullYear) + TwoDigits(monthIndex + 1) + TwoDigits(day) + RandomSegment(rnd)
  }

  /** From year 10 on, the year segment is the tens digit then the units digit of the year. */
  lemma YearSegmentForm(fullYear: int)
    requires fullYear >= 10
    ensures YearSegment(fullYear) == [DigitChar(fullYear / 10 % 10), DigitChar(fullYear % 10)]
  {
    assert NatToString(fullYear) == NatToString(fullYear / 10) + [DigitChar(fullYear % 10)];
    LastDigit(fullYear / 10);
  }

  /** From year 10 on, the year segment is two digits denoting the year modulo 100. */
  lemma YearSegmentDigits(fullYear: int)
    requires fullYear >= 10
    ensures var y := YearSegment(fullYear);
      |y| == 2 && AllDigits(y) && ParseNat(y) == fullYear % 100
  {
    YearSegmentForm(fullYear);
    var y := YearSegment(fullYear);
    assert y[..1] == [DigitChar(fullYear / 10 % 10)];
    assert ParseNat(y[..1]) == fullYear / 10 % 10 by {
      assert y[..1][..0] == [];
    }
    TensAndUnits(fullYear);
  }

  lemma TensAndUnits(n: nat)
    ensures (n / 10 % 10) * 10 + n % 10 == n % 100
  {
    var q := n / 100;
    var t := n % 100;
    assert n == 100 * q + t;
    assert n / 10 == 10 * q + t / 10;
    assert n / 10 % 10 == t / 10;
    assert n % 10 == t % 10;
  }

  /**
   * The segments of a reference from year 10 on: eleven characters, "SO" and then only digits,
   * which read back as the year modulo 100, the month (1 to 12), the day and the random number.
   */
  lemma SaleReferenceSegments(fullYear: int, monthIndex: int, day: int, rnd: real)
    requires fullYear >= 10
    requires 0 <= monthIndex <= 11 && 1 <= day <= 31 && 0.0 <= rnd < 1.0
    ensures var r := GenerateSaleReference(fullYear, monthIndex, day, rnd);
      && |r| == 11 && r[..2] == "SO" && AllDigits(r[2..])
      && ParseNat(r[2..4]) == fullYear % 100
      && ParseNat(r[4..6]) == monthIndex + 1
      && ParseNat(r[6..8]) == day
      && ParseNat(r[8..]) == RandomPart(rnd)
  {
    YearSegmentDigits(fullYear);
    var y, m, d, k := YearSegment(fullYear), TwoDigits(monthIndex + 1), TwoDigits(day),
      RandomSegment(rnd);
    assert GenerateSaleReference(fullYear, monthIndex, day, rnd) == "SO" + y + m + d + k;
    Layout("SO", y, m, d, k);
  }

  /** Where the five parts of a reference sit, and that the four after "SO" are all digits. */
  lemma Layout(so: string, y: string, m: string, d: string, k: string)
    requires |so| == 2 && |y| == 2 && |m| == 2 && |d| == 2 && |k| == 3
    requires AllDigits(y) && AllDigits(m) && AllDigits(d) && AllDigits(k)
    ensures var r := so + y + m + d + k;
      && |r| == 11 && r[..2] == so && r[2..4] == y && r[4..6] == m && r[6..8] == d
      && r[8..] == k && AllDigits(r[2..])
  {
    var r := so + y + m + d + k;
    assert r[2..] == y + m + d + k;
  }

  /** On one day, two references are equal exactly when the random numbers are. */
  lemma SaleReferenceDistinguishesRandom(fullYear: int, monthIndex: int, day: int, rnd1: real, rnd2: real)
    requires fullYear >= 10
    requires 0 <= monthIndex <= 11 && 1 <= day <= 31 && 0.0 <= rnd1 < 1.0 && 0.0 <= rnd2 < 1.0
    ensures GenerateSaleReference(fullYear, monthIndex, day, rnd1) == GenerateSaleReference(fullYear, monthIndex, day, rnd2)
      <==> RandomPart(rnd1) == RandomPart(rnd2)
  {
    SaleReferenceSegments(fullYear, monthIndex, day, rnd1);
    SaleReferenceSegments(fullYear, monthIndex, day, rnd2);
  }

  /** 15 March 2024 with random number 1. */
  lemma ReferenceOf15March2024()
    ensures GenerateSaleReference(2024, 2, 15, 0.0015) == "SO240315001"
  {
    YearOf2024();
    TwoDigitsForm(3);
    TwoDigitsForm(15);
    RandomOne();
    assert GenerateSaleReference(2024, 2, 15, 0.0015) == "SO" + "24" + "03" + "15" + "001";
  }

  lemma YearOf2024()
    ensures YearSegment(2024) == "24"
  {
    YearEndingIn24(2024);
  }

  lemma YearEndingIn24(y: int)
    requires y >= 10 && y / 10 % 10 == 2 && y % 10 == 4
    ensures YearSegment(y) == "24"
  {
    YearSegmentForm(y);
    assert DigitChar(2) == '2' && DigitChar(4) == '4';
  }

  lemma RandomOne()
    ensures RandomSegment(0.0015) == "001"
  {
    assert RandomPart(0.0015) == 1;
    assert NatToString(1) == "1";
    var zeros := seq(2, _ => '0');
    assert zeros == "00";
    assert PadStart("1", 3, '0') == zeros + "1";
  }
}
