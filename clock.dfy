/** The app's two clock formatters, "YYYY-MM-DD" for today and "HH:MM"
    for the current minute, built from the fields of a clock reading. A
    parser for each format shows the formatting loses nothing, so two
    readings that format the same are the same minute. */
module Clock {
  import opened Types

  /** A local wall-clock reading as the Date getters report it:
      `month` is the 0-based getMonth(), `day` is getDate(). */
  datatype Reading = Reading(year: nat, month: nat, day: nat, hours: nat, minutes: nat)

  /** The ranges the Date getters return. */
  predicate Valid(c: Reading) {
    c.month < 12 && 1 <= c.day <= 31 && c.hours < 24 && c.minutes < 60
  }

  predicate IsDigit(ch: char) {
    '0' <= ch <= '9'
  }

  predicate AllDigits(s: string) {
    forall i :: 0 <= i < |s| ==> IsDigit(s[i])
  }

  function Digit(d: nat): (ch: char)
    requires d < 10
    ensures IsDigit(ch) && ch as int - '0' as int == d
  {
    ('0' as int + d) as char
  }

  /** `n.toString()` for a non-negative integer: no leading zeros. */
  function Decimal(n: nat): (s: string)
    ensures AllDigits(s)
    ensures n < 10 <==> |s| == 1
    ensures n >= 10 ==> |s| >= 2
    ensures n > 0 ==> s[0] != '0'
  {
    if n < 10 then [Digit(n)] else Decimal(n / 10) + [Digit(n % 10)]
  }

  /** `n.toString().padStart(2, '0')`. */
  function Pad2(n: nat): (s: string)
    ensures AllDigits(s)
    ensures n < 100 ==> |s| == 2
  {
    var d := Decimal(n);
    if |d| < 2 then "0" + d else d
  }

  /** getTodayDateString: year, 1-based month and day joined by '-'. For a
      valid reading it has the form "Y-MM-DD": a run of digits, then two
      two-digit groups, each after a '-'. */
  function DateString(c: Reading): (s: string)
    ensures Valid(c) ==>
      && |s| >= 7 && s[|s| - 6] == '-' && s[|s| - 3] == '-'
      && AllDigits(s[..|s| - 6]) && AllDigits(s[|s| - 5..|s| - 3]) && AllDigits(s[|s| - 2..])
  {
    var s := Decimal(c.year) + "-" + Pad2(c.month + 1) + "-" + Pad2(c.day);
    assert Valid(c) ==>
      && |s| >= 7 && s[|s| - 6] == '-' && s[|s| - 3] == '-'
      && AllDigits(s[..|s| - 6]) && AllDigits(s[|s| - 5..|s| - 3]) && AllDigits(s[|s| - 2..])
    by {
      if Valid(c) {
        DateShape(Decimal(c.year), Pad2(c.month + 1), Pad2(c.day));
      }
    }
    s
  }

  lemma DateShape(y: string, m: string, d: string)
    requires AllDigits(y) && AllDigits(m) && AllDigits(d) && |y| >= 1 && |m| == 2 && |d| == 2
    ensures var s := y + "-" + m + "-" + d;
      && |s| >= 7 && s[|s| - 6] == '-' && s[|s| - 3] == '-'
      && AllDigits(s[..|s| - 6]) && AllDigits(s[|s| - 5..|s| - 3]) && AllDigits(s[|s| - 2..])
  {
    var s := y + "-" + m + "-" + d;
    assert s[..|s| - 6] == y && s[|s| - 5..|s| - 3] == m && s[|s| - 2..] == d;
  }

  /** getCurrentTimeFormatted: hours and minutes joined by ':'. For a valid
      reading it has the form "HH:MM". */
  function TimeString(c: Reading): (s: string)
    ensures Valid(c) ==> |s| == 5 && s[2] == ':' && AllDigits(s[..2]) && AllDigits(s[3..])
  {
    var s := Pad2(c.hours) + ":" + Pad2(c.minutes);
    assert Valid(c) ==> |s| == 5 && s[2] == ':' && AllDigits(s[..2]) && AllDigits(s[3..]) by {
      if Valid(c) {
        TimeShape(Pad2(c.hours), Pad2(c.minutes));
      }
    }
    s
  }

  lemma TimeShape(h: string, m: string)
    requires AllDigits(h) && AllDigits(m) && |h| == 2 && |m| == 2
    ensures var s := h + ":" + m;
      |s| == 5 && s[2] == ':' && AllDigits(s[..2]) && AllDigits(s[3..])
  {
    var s := h + ":" + m;
    assert s[..2] == h && s[3..] == m;
  }

  // ---------------------------------------------------------------------
  // Reading the formats back

  /** The value of a string of decimal digits. */
  function DigitsValue(s: string): nat
    requires AllDigits(s)
  {
    if s == [] then 0 else DigitsValue(s[..|s| - 1]) * 10 + (s[|s| - 1] as int - '0' as int)
  }

  function ParseNat(s: string): Option<nat> {
    if s != [] && AllDigits(s) then Some(DigitsValue(s)) else None
  }

  /** Reads "Y-MM-DD" back into (year, month, day), the year of any length. */
  function ParseDate(s: string): Option<(nat, nat, nat)> {
    if |s| >= 7 && s[|s| - 6] == '-' && s[|s| - 3] == '-' then
      match (ParseNat(s[..|s| - 6]), ParseNat(s[|s| - 5..|s| - 3]), ParseNat(s[|s| - 2..]))
      case (Some(y), Some(m), Some(d)) => Some((y, m, d))
      case _ => None
    else None
  }

  /** Reads "HH:MM" back into (hours, minutes). */
  function ParseTime(s: string): Option<(nat, nat)> {
    if |s| == 5 && s[2] == ':' then
      match (ParseNat(s[..2]), ParseNat(s[3..]))
      case (Some(h), Some(m)) => Some((h, m))
      case _ => None
    else None
  }

  lemma {:induction false} DecimalRoundTrip(n: nat)
    ensures ParseNat(Decimal(n)) == Some(n)
  {
    var s := Decimal(n);
    if n >= 10 {
      DecimalRoundTrip(n / 10);
      assert s[..|s| - 1] == Decimal(n / 10);
      assert DigitsValue(s) == (n / 10) * 10 + n % 10;
    } else {
      assert s[..0] == [];
    }
  }

  lemma Pad2RoundTrip(n: nat)
    requires n < 100
    ensures ParseNat(Pad2(n)) == Some(n)
  {
    if n < 10 {
      var s := Pad2(n);
      assert s[..1] == "0";
      assert DigitsValue(s[..1]) == 0 by {
        assert s[..1][..0] == [];
      }
    } else {
      DecimalRoundTrip(n);
    }
  }

  /** The date string reads back as the calendar year, month and day. */
  lemma DateRoundTrip(c: Reading)
    requires Valid(c)
    ensures ParseDate(DateString(c)) == Some((c.year, c.month + 1, c.day))
  {
    var s := DateString(c);
    var y, m, d := Decimal(c.year), Pad2(c.month + 1), Pad2(c.day);
    assert s == y + "-" + m + "-" + d;
    assert s[..|s| - 6] == y;
    assert s[|s| - 5..|s| - 3] == m;
    assert s[|s| - 2..] == d;
    DecimalRoundTrip(c.year);
    Pad2RoundTrip(c.month + 1);
    Pad2RoundTrip(c.day);
  }

  /** The time string reads back as the hours and minutes. */
  lemma TimeRoundTrip(c: Reading)
    requires Valid(c)
    ensures ParseTime(TimeString(c)) == Some((c.hours, c.minutes))
  {
    var s := TimeString(c);
    assert s[..2] == Pad2(c.hours);
    assert s[3..] == Pad2(c.minutes);
    Pad2RoundTrip(c.hours);
    Pad2RoundTrip(c.minutes);
  }

  /** Two valid readings with the same date and time strings are the same
      minute: an exact string match names exactly one clock minute. */
  lemma SameStringsSameMinute(c1: Reading, c2: Reading)
    requires Valid(c1) && Valid(c2)
    requires DateString(c1) == DateString(c2) && TimeString(c1) == TimeString(c2)
    ensures c1 == c2
  {
    DateRoundTrip(c1);
    DateRoundTrip(c2);
    TimeRoundTrip(c1);
    TimeRoundTrip(c2);
  }
}
