/** `formatDate` of the form component (src/components/form.tsx:12-17), applied to
    the calendar components that `new Date(...)` exposes. */
module Dates {
  import opened Text

  /** What `getFullYear()`, `getMonth()` and `getDate()` return: a calendar date
      with a 0-based month, or NaN in all three for an invalid date. */
  datatype DateValue = InvalidDate | CalendarDate(year: int, month0: int, day: int)

  /** The ranges `getMonth()` and `getDate()` stay within for a valid date. */
  predicate WellFormed(d: DateValue) {
    d.CalendarDate? ==> 0 <= d.month0 <= 11 && 1 <= d.day <= 31
  }

  /** `String(n).padStart(2, "0")`. */
  function TwoDigits(n: int): (r: string)
    ensures |r| >= 2
    ensures n >= 10 ==> r == IntToString(n)
  {
    PadStart(IntToString(n), 2, '0')
  }

  /** `${year}-${month}-${day}`. An invalid date renders each NaN as "NaN",
      which `padStart(2, "0")` leaves alone. */
  function FormatDate(d: DateValue): string {
    match d
    case InvalidDate => "NaN-NaN-NaN"
    case CalendarDate(y, m0, dd) => IntToString(y) + "-" + TwoDigits(m0 + 1) + "-" + TwoDigits(dd)
  }

  /** Reads a `year-MM-DD` string back into components with a 0-based month;
      anything else reads as an invalid date. */
  function ParseFormatted(s: string): DateValue {
    if |s| >= 7 && s[|s| - 6] == '-' && s[|s| - 3] == '-'
       && IsIntLiteral(s[..|s| - 6]) && AllDigits(s[|s| - 5..|s| - 3]) && AllDigits(s[|s| - 2..])
    then CalendarDate(ParseInt(s[..|s| - 6]), ParseNat(s[|s| - 5..|s| - 3]) - 1, ParseNat(s[|s| - 2..]))
    else InvalidDate
  }

  /** A month or a day, padded: exactly two digits that read back as `n`. */
  lemma TwoDigitsOfSmall(n: int)
    requires 1 <= n <= 99
    ensures |TwoDigits(n)| == 2 && AllDigits(TwoDigits(n))
    ensures ParseNat(TwoDigits(n)) == n
  {
    NatToStringLength(n);
    ParseNatToString(n);
    PadStartShape(IntToString(n), 2, '0');
    if n < 10 {
      var t := TwoDigits(n);
      assert t == ['0'] + NatToString(n);
      assert t[..1] == ['0'];
    }
  }

  /** Where the pieces of `ys + "-" + mm + "-" + ds` sit, for two-character `mm` and `ds`. */
  lemma DashedLayout(ys: string, mm: string, ds: string)
    requires |mm| == 2 && |ds| == 2
    ensures var r, k := ys + "-" + mm + "-" + ds, |ys|;
      |r| == k + 6 && r[..k] == ys && r[k] == '-' && r[k + 3] == '-'
      && r[k + 1..k + 3] == mm && r[k + 4..] == ds
  {
  }

  /** The layout of a formatted valid date: the year as `String(year)` writes it,
      a dash, the 1-based month in two digits, a dash, the day in two digits. */
  lemma FormatDateLayout(y: int, m0: int, d: int)
    requires 0 <= m0 <= 11 && 1 <= d <= 31
    ensures var r, k := FormatDate(CalendarDate(y, m0, d)), |IntToString(y)|;
      |r| == k + 6 && r[..k] == IntToString(y) && r[k] == '-' && r[k + 3] == '-'
      && AllDigits(r[k + 1..k + 3]) && ParseNat(r[k + 1..k + 3]) == m0 + 1
      && AllDigits(r[k + 4..]) && ParseNat(r[k + 4..]) == d
  {
    var r := FormatDate(CalendarDate(y, m0, d));
    TwoDigitsOfSmall(m0 + 1);
    TwoDigitsOfSmall(d);
    var ys, mm, ds := IntToString(y), TwoDigits(m0 + 1), TwoDigits(d);
    DashedLayout(ys, mm, ds);
    assert r == ys + "-" + mm + "-" + ds;
  }

  /** With a four-digit year the result is exactly `YYYY-MM-DD`. */
  lemma FormatDateLength(y: int, m0: int, d: int)
    requires 1000 <= y <= 9999 && 0 <= m0 <= 11 && 1 <= d <= 31
    ensures var r := FormatDate(CalendarDate(y, m0, d));
      |r| == 10 && r[4] == '-' && r[7] == '-' && AllDigits(r[..4])
      && AllDigits(r[5..7]) && AllDigits(r[8..])
  {
    NatToStringLength(y);
    FormatDateLayout(y, m0, d);
  }

  /** `ParseFormatted` splits `ys + "-" + mm + "-" + ds` back into its pieces. */
  lemma ParseDashed(ys: string, mm: string, ds: string)
    requires |mm| == 2 && |ds| == 2 && IsIntLiteral(ys) && AllDigits(mm) && AllDigits(ds)
    ensures ParseFormatted(ys + "-" + mm + "-" + ds)
      == CalendarDate(ParseInt(ys), ParseNat(mm) - 1, ParseNat(ds))
  {
    var r := ys + "-" + mm + "-" + ds;
    DashedLayout(ys, mm, ds);
    assert r[..|r| - 6] == ys;
    assert r[|r| - 5..|r| - 3] == mm;
    assert r[|r| - 2..] == ds;
  }

  /** Formatting loses nothing: every date `new Date` can produce, the invalid
      one included, is read back unchanged. So distinct dates format to distinct
      strings. */
  lemma FormatDateRoundTrip(d: DateValue)
    requires WellFormed(d)
    ensures ParseFormatted(FormatDate(d)) == d
  {
    match d
    case InvalidDate =>
      assert FormatDate(d)[5] == 'a';
    case CalendarDate(y, m0, dd) =>
      TwoDigitsOfSmall(m0 + 1);
      TwoDigitsOfSmall(dd);
      IntToStringRoundTrip(y);
      var ys, mm, ds := IntToString(y), TwoDigits(m0 + 1), TwoDigits(dd);
      ParseDashed(ys, mm, ds);
      assert FormatDate(d) == ys + "-" + mm + "-" + ds;
  }
}
