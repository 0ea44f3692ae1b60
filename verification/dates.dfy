/**
 * `datetime.strptime(s, '%Y-%m-%d')` and `strftime('%Y-%m')`.
 *
 * Python's strptime matches the format with the regular expression
 *   (?P<Y>\d\d\d\d)-(?P<m>1[0-2]|0[1-9]|[1-9])-(?P<d>3[01]|[12]\d|0[1-9]|[1-9]| [1-9])
 * and then refuses unconverted trailing text and impossible calendar dates.
 */
module Dates {
  import opened Json
  import opened Text

  datatype Date = Date(year: nat, month: nat, day: nat)

  predicate IsLeap(y: nat)
  {
    (y % 4 == 0 && y % 100 != 0) || y % 400 == 0
  }

  function DaysInMonth(y: nat, m: nat): nat
  {
    if m == 2 then (if IsLeap(y) then 29 else 28)
    else if m == 4 || m == 6 || m == 9 || m == 11 then 30
    else 31
  }

  predicate ValidDate(d: Date)
  {
    1 <= d.year <= 9999 && 1 <= d.month <= 12 && 1 <= d.day <= DaysInMonth(d.year, d.month)
  }

  /** The month field: one digit 1-9, or two digits 01-12. */
  function ParseMonth(m: string): Option<nat>
  {
    if 1 <= |m| <= 2 && AllDigits(m) && 1 <= DigitsValue(m) <= 12 then Some(DigitsValue(m)) else None
  }

  /** The day field: one digit 1-9, two digits 01-31, or a space and a digit 1-9. */
  function ParseDay(d: string): Option<nat>
  {
    if |d| == 1 && IsDigit(d[0]) && d[0] != '0' then Some(DigitValue(d[0]))
    else if |d| == 2 && AllDigits(d) && 1 <= DigitsValue(d) <= 31 then Some(DigitsValue(d))
    else if |d| == 2 && d[0] == ' ' && IsDigit(d[1]) && d[1] != '0' then Some(DigitValue(d[1]))
    else None
  }

  /** `strptime(s, '%Y-%m-%d')`: None where Python raises ValueError. */
  function ParseDate(s: string): (r: Option<Date>)
    ensures r.Some? ==> ValidDate(r.value)
  {
    if |s| < 5 || !AllDigits(s[..4]) || s[4] != '-' then None
    else
      var rest := s[5..];
      var j := Find(rest, '-');
      if j < 0 then None
      else
        match (ParseMonth(rest[..j]), ParseDay(rest[j + 1..]))
        case (Some(m), Some(d)) =>
          var date := Date(DigitsValue(s[..4]), m, d);
          if ValidDate(date) then Some(date) else None
        case _ => None
  }

  /** strptime on an arbitrary Python value: a non-string raises TypeError, which every
      caller in the pipeline catches together with ValueError. */
  function ParseDateValue(v: Value): Option<Date>
  {
    if v.Str? then ParseDate(v.s) else None
  }

  /** Chronological order of dates. */
  predicate DateLe(a: Date, b: Date)
  {
    a.year < b.year
    || (a.year == b.year && (a.month < b.month || (a.month == b.month && a.day <= b.day)))
  }

  function Pad2(n: nat): string
  {
    if n < 10 then "0" + NatToString(n) else NatToString(n)
  }

  /** `strftime('%Y-%m')`; glibc prints the year without leading zeros. */
  function MonthKey(d: Date): string
  {
    NatToString(d.year) + "-" + Pad2(d.month)
  }

  /** `strftime('%Y-%m-%d')`. */
  function DateText(d: Date): string
  {
    NatToString(d.year) + "-" + Pad2(d.month) + "-" + Pad2(d.day)
  }

  lemma {:induction false} PadDigits(n: nat)
    requires n < 100
    ensures |Pad2(n)| == 2 && AllDigits(Pad2(n)) && DigitsValue(Pad2(n)) == n
  {
    NatToStringRoundTrip(n);
    var t := NatToString(n);
    if n < 10 {
      assert t == [DigitChar(n)];
      assert Pad2(n) == ['0', DigitChar(n)];
      assert Pad2(n)[..1] == "0";
    } else {
      assert t == NatToString(n / 10) + [DigitChar(n % 10)];
      assert NatToString(n / 10) == [DigitChar(n / 10)];
    }
  }

  /** A parsed date printed back with `%Y-%m-%d` parses to the same date when the
      year has four digits. */
  lemma ParsePrintedDate(d: Date)
    requires ValidDate(d) && d.year >= 1000
    ensures ParseDate(DateText(d)) == Some(d)
  {
    var y := NatToString(d.year);
    NatToStringRoundTrip(d.year);
    assert |y| == 4 by {
      var a := d.year / 10;
      var b := a / 10;
      var c := b / 10;
      assert 100 <= a < 1000 && 10 <= b < 100 && 1 <= c < 10;
      assert |NatToString(b)| == 2;
      assert |NatToString(a)| == 3;
    }
    PadDigits(d.month);
    PadDigits(d.day);
    var s := DateText(d);
    assert s[..4] == y;
    assert s[4] == '-';
    var rest := s[5..];
    assert rest == Pad2(d.month) + "-" + Pad2(d.day);
    assert rest[2] == '-' && '-' !in rest[..2];
    assert Find(rest, '-') == 2;
    assert rest[..2] == Pad2(d.month);
    assert rest[3..] == Pad2(d.day);
  }
}
