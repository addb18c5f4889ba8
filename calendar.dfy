/**
 * Calendar dates and the two textual forms app.py gives them: `str(date)`
 * ("YYYY-MM-DD", written into the ledger sheet) and `strftime("%Y-%m")`
 * (the month key the balance tab compares against the current month).
 */
module Calendar {
  import opened Optional

  datatype Date = Date(year: nat, month: nat, day: nat)

  predicate IsLeapYear(y: nat) {
    y % 4 == 0 && (y % 100 != 0 || y % 400 == 0)
  }

  function DaysInMonth(y: nat, m: nat): nat
    requires 1 <= m <= 12
  {
    if m == 2 then (if IsLeapYear(y) then 29 else 28)
    else if m == 4 || m == 6 || m == 9 || m == 11 then 30
    else 31
  }

  /** A date Python's `datetime.date` can hold. */
  predicate ValidDate(d: Date) {
    1 <= d.year <= 9999 && 1 <= d.month <= 12 && 1 <= d.day <= DaysInMonth(d.year, d.month)
  }

  // ---------------------------------------------------------------------------
  // Fixed-width decimal digits

  function Pow10(w: nat): (p: nat)
    ensures p >= 1
  {
    if w == 0 then 1 else 10 * Pow10(w - 1)
  }

  predicate IsDigit(c: char) {
    '0' <= c <= '9'
  }

  predicate AllDigits(s: string) {
    forall i :: 0 <= i < |s| ==> IsDigit(s[i])
  }

  function DigitChar(k: nat): (c: char)
    requires k < 10
    ensures IsDigit(c)
  {
    (48 + k) as char
  }

  function DigitValue(c: char): (k: nat)
    requires IsDigit(c)
    ensures k < 10 && DigitChar(k) == c
  {
    c as int - 48
  }

  /** The last `w` decimal digits of `n`, most significant first, zero-padded (`%0wd`). */
  function PadDigits(n: nat, w: nat): (s: string)
    ensures |s| == w && AllDigits(s)
  {
    if w == 0 then [] else PadDigits(n / 10, w - 1) + [DigitChar(n % 10)]
  }

  /** The number a string of decimal digits denotes. */
  function DigitsValue(s: string): (n: nat)
    requires AllDigits(s)
    ensures n < Pow10(|s|)
  {
    if s == [] then 0 else 10 * DigitsValue(s[..|s| - 1]) + DigitValue(s[|s| - 1])
  }

  /** Padding a number that fits into `w` digits loses nothing. */
  lemma {:induction false} DigitsValuePad(n: nat, w: nat)
    requires n < Pow10(w)
    ensures DigitsValue(PadDigits(n, w)) == n
  {
    if w > 0 {
      DigitsValuePad(n / 10, w - 1);
      var s := PadDigits(n, w);
      assert s[..w - 1] == PadDigits(n / 10, w - 1);
    }
  }

  /** A digit string is the padded form of its own value: fixed-width digits are canonical. */
  lemma {:induction false} PadDigitsValue(s: string)
    requires AllDigits(s)
    ensures PadDigits(DigitsValue(s), |s|) == s
  {
    if s != [] {
      var init := s[..|s| - 1];
      var n := DigitsValue(s);
      PadDigitsValue(init);
      assert n / 10 == DigitsValue(init) && n % 10 == DigitValue(s[|s| - 1]);
      assert s == init + [s[|s| - 1]];
    }
  }

  // ---------------------------------------------------------------------------
  // Textual forms of a date

  /** `strftime("%Y-%m")`: the month key, e.g. "2025-03". */
  function MonthKey(d: Date): (key: string)
    ensures |key| == 7 && key[4] == '-'
  {
    PadDigits(d.year, 4) + "-" + PadDigits(d.month, 2)
  }

  /** `str(date)`: the ISO form "YYYY-MM-DD" written into the ledger sheet. */
  function IsoDate(d: Date): (text: string)
    ensures |text| == 10 && text[..7] == MonthKey(d)
  {
    MonthKey(d) + "-" + PadDigits(d.day, 2)
  }

  /** Reads back an ISO date; anything that is not a valid "YYYY-MM-DD" gives None. */
  function ParseIsoDate(text: string): (r: Option<Date>)
    ensures r.Some? ==> ValidDate(r.value)
  {
    if |text| == 10 && text[4] == '-' && text[7] == '-'
       && AllDigits(text[..4]) && AllDigits(text[5..7]) && AllDigits(text[8..])
    then
      var d := Date(DigitsValue(text[..4]), DigitsValue(text[5..7]), DigitsValue(text[8..]));
      if ValidDate(d) then Some(d) else None
    else None
  }

  /** Writing a valid date with `str` and reading it back gives the same date. */
  lemma IsoDateRoundTrip(d: Date)
    requires ValidDate(d)
    ensures ParseIsoDate(IsoDate(d)) == Some(d)
  {
    var text := IsoDate(d);
    assert text[..4] == PadDigits(d.year, 4);
    assert text[5..7] == PadDigits(d.month, 2);
    assert text[8..] == PadDigits(d.day, 2);
    DigitsValuePad(d.year, 4);
    DigitsValuePad(d.month, 2);
    DigitsValuePad(d.day, 2);
  }

  /** Every text that parses is exactly the ISO form of what it parses to. */
  lemma ParsedIsoDateIsCanonical(text: string)
    requires ParseIsoDate(text).Some?
    ensures IsoDate(ParseIsoDate(text).value) == text
  {
    PadDigitsValue(text[..4]);
    PadDigitsValue(text[5..7]);
    PadDigitsValue(text[8..]);
    var d := ParseIsoDate(text).value;
    assert IsoDate(d) == text[..4] + "-" + text[5..7] + "-" + text[8..];
  }

  /** Two valid dates have the same month key exactly when they lie in the same calendar month. */
  lemma MonthKeySameMonth(d: Date, e: Date)
    requires ValidDate(d) && ValidDate(e)
    ensures MonthKey(d) == MonthKey(e) <==> d.year == e.year && d.month == e.month
  {
    if MonthKey(d) == MonthKey(e) {
      assert MonthKey(d)[..4] == PadDigits(d.year, 4);
      assert MonthKey(e)[..4] == PadDigits(e.year, 4);
      assert MonthKey(d)[5..] == PadDigits(d.month, 2);
      assert MonthKey(e)[5..] == PadDigits(e.month, 2);
      DigitsValuePad(d.year, 4);
      DigitsValuePad(e.year, 4);
      DigitsValuePad(d.month, 2);
      DigitsValuePad(e.month, 2);
    }
  }
}
