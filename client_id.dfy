/**
 * `generateClientId` (iris-client-management/lib/utils/generate-client-id.ts): the display form
 * of a client number, "M/<year>/<month>/<number>", where the month is two digits and the number
 * is zero-padded to at least four. The current date is a parameter: `year` is `getFullYear()` and
 * `monthIndex` is `getMonth()`, which counts January as 0.
 */
module ClientIdFormat {
  import opened DecimalText

  /** `String(date.getMonth() + 1).padStart(2, "0")`: "01" for January up to "12". */
  function MonthSegment(monthIndex: int): (m: string)
    requires 0 <= monthIndex <= 11
    ensures |m| == 2 && AllDigits(m) && ParseNat(m) == monthIndex + 1
  {
    TwoDigits(monthIndex + 1)
  }

  /** The id as it appears after the last '/'. */
  function IdSegment(clientId: int): string {
    PadStart(IntToString(clientId), 4, '0')
  }

  function GenerateClientId(year: int, monthIndex: int, clientId: int): (r: string)
    requires 0 <= monthIndex <= 11
    ensures |r| == 6 + |IntToString(year)| + |IdSegment(clientId)|
  {
    "M/" + IntToString(year) + "/" + MonthSegment(monthIndex) + "/" + IdSegment(clientId)
  }

  /** Everything before the number: "M/<year>/<month>/". */
  function ClientIdHead(year: int, monthIndex: int): string
    requires 0 <= monthIndex <= 11
  {
    "M/" + IntToString(year) + "/" + MonthSegment(monthIndex) + "/"
  }

  /**
   * The head of a client id: "M/", the year as written, '/', the two-digit month and '/'.
   */
  lemma ClientIdHeadSegments(year: int, monthIndex: int)
    requires 0 <= monthIndex <= 11
    ensures var h, n := ClientIdHead(year, monthIndex), |IntToString(year)|;
      && |h| == 6 + n && h[..2] == "M/" && h[2..2 + n] == IntToString(year) && h[2 + n] == '/'
      && h[3 + n..5 + n] == MonthSegment(monthIndex) && h[5 + n] == '/'
  {
    var y, m := IntToString(year), MonthSegment(monthIndex);
    var n := |y|;
    var h1 := "M/" + y;
    var h3 := h1 + "/" + m;
    assert ClientIdHead(year, monthIndex) == h3 + "/";
    SliceOfConcat(h3, "/", 0, 2);
    SliceOfConcat(h3, "/", 2, 2 + n);
    SliceOfConcat(h3, "/", 3 + n, 5 + n);
    SliceOfConcat(h1 + "/", m, 0, 2);
    SliceOfConcat(h1 + "/", m, 2, 2 + n);
    SliceOfConcat(h1, "/", 2, 2 + n);
    assert h3 == (h1 + "/") + m;
    assert h1[2..2 + n] == y;
  }

  /**
   * A client id is its head followed by the number, never truncated, with at least four
   * digits, which reads back as `clientId`.
   */
  lemma ClientIdNumberSegment(year: int, monthIndex: int, clientId: nat)
    requires 0 <= monthIndex <= 11
    ensures var r, k := GenerateClientId(year, monthIndex, clientId), |ClientIdHead(year, monthIndex)|;
      && r[..k] == ClientIdHead(year, monthIndex)
      && |r[k..]| == (if NumDigits(clientId) >= 4 then NumDigits(clientId) else 4)
      && AllDigits(r[k..]) && ParseNat(r[k..]) == clientId
  {
    var head, id := ClientIdHead(year, monthIndex), IdSegment(clientId);
    assert GenerateClientId(year, monthIndex, clientId) == head + id;
    SliceOfConcat(head, id, 0, |head|);
    assert id == ZeroPadded(clientId, 4);
  }

  /** A slice inside the left operand of a concatenation is a slice of that operand; the whole
      right operand is the tail after the left. */
  lemma SliceOfConcat(a: string, b: string, i: nat, j: nat)
    requires i <= j <= |a|
    ensures (a + b)[i..j] == a[i..j]
    ensures (a + b)[|a|..] == b
  {
  }

  /** The month segment is the tens digit then the units digit of the month number, so it runs
      from "01" for January to "12" for December. */
  lemma MonthSegmentDigits(monthIndex: int)
    requires 0 <= monthIndex <= 11
    ensures MonthSegment(monthIndex) == [DigitChar((monthIndex + 1) / 10), DigitChar((monthIndex + 1) % 10)]
  {
    TwoDigitsForm(monthIndex + 1);
  }

  /** January is "01" and December is "12". */
  lemma MonthSegmentEnds()
    ensures MonthSegment(0) == "01" && MonthSegment(11) == "12"
  {
    TwoDigitsForm(1);
    TwoDigitsForm(12);
    assert DigitChar(0) == '0' && DigitChar(1) == '1' && DigitChar(2) == '2';
  }

  /** For a fixed date, distinct non-negative numbers give distinct ids. */
  lemma ClientIdInjective(year: int, monthIndex: int, a: nat, b: nat)
    requires 0 <= monthIndex <= 11
    ensures GenerateClientId(year, monthIndex, a) == GenerateClientId(year, monthIndex, b) <==> a == b
  {
    ClientIdNumberSegment(year, monthIndex, a);
    ClientIdNumberSegment(year, monthIndex, b);
  }

  /** Client 1 registered in March 2024. */
  lemma FirstClientOfMarch2024()
    ensures GenerateClientId(2024, 2, 1) == "M/2024/03/0001"
  {
    YearText2024();
    MonthSegmentDigits(2);
    IdSegmentOne();
    assert GenerateClientId(2024, 2, 1) == "M/" + "2024" + "/" + "03" + "/" + "0001";
  }

  lemma YearText2024()
    ensures IntToString(2024) == "2024"
  {
    assert NatToString(2) == "2";
    assert NatToString(20) == NatToString(2) + "0";
    assert NatToString(202) == NatToString(20) + "2";
    assert NatToString(2024) == NatToString(202) + "4";
  }

  lemma IdSegmentOne()
    ensures IdSegment(1) == "0001"
  {
    assert NatToString(1) == "1";
    var zeros := seq(3, _ => '0');
    assert zeros == "000";
    assert PadStart("1", 4, '0') == zeros + "1";
  }
}
