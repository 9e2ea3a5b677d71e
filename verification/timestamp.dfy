/** `_format_timestamp` of helpers.py: an ISO 8601 timestamp shown as day,
    abbreviated month and two-digit year (`'4 Jan 26'`). The parser accepts
    the fixed form `YYYY-MM-DD[THH:MM:SS[(+|-)HH:MM]]` that `fromisoformat`
    reads once every `Z` has been replaced by `+00:00`. */
module Timestamp {
  import opened Options
  import opened Text

  /** `s.replace("Z", "+00:00")`: every `Z`, not only a trailing one. */
  function ReplaceZ(s: string): string
    decreases |s|
  {
    if |s| == 0 then ""
    else (if s[0] == 'Z' then "+00:00" else [s[0]]) + ReplaceZ(s[1..])
  }

  lemma {:induction false} ReplaceZConcat(a: string, b: string)
    ensures ReplaceZ(a + b) == ReplaceZ(a) + ReplaceZ(b)
    decreases |a|
  {
    if |a| > 0 {
      assert (a + b)[1..] == a[1..] + b;
      ReplaceZConcat(a[1..], b);
    } else {
      assert a + b == b;
    }
  }

  lemma {:induction false} ReplaceZIdentity(s: string)
    requires forall i :: 0 <= i < |s| ==> s[i] != 'Z'
    ensures ReplaceZ(s) == s
    decreases |s|
  {
    if |s| > 0 {
      ReplaceZIdentity(s[1..]);
    }
  }

  /** The calendar date of a parsed timestamp; the time of day and the
      offset are checked but not shown. */
  datatype Date = Date(year: nat, month: nat, day: nat)

  predicate IsLeapYear(y: nat) {
    (y % 4 == 0 && y % 100 != 0) || y % 400 == 0
  }

  function DaysInMonth(y: nat, m: nat): nat
    requires 1 <= m <= 12
  {
    if m == 2 then (if IsLeapYear(y) then 29 else 28)
    else if m == 4 || m == 6 || m == 9 || m == 11 then 30
    else 31
  }

  predicate DigitsAt(t: string, i: nat, n: nat) {
    i + n <= |t| && AllDigits(t[i..i + n])
  }

  function NumberAt(t: string, i: nat, n: nat): nat
    requires DigitsAt(t, i, n)
  {
    DigitsValue(t[i..i + n])
  }

  /** `HH:MM:SS` with hour, minute and second in range. */
  predicate IsTime(u: string) {
    && |u| == 8 && u[2] == ':' && u[5] == ':'
    && DigitsAt(u, 0, 2) && DigitsAt(u, 3, 2) && DigitsAt(u, 6, 2)
    && NumberAt(u, 0, 2) < 24 && NumberAt(u, 3, 2) < 60 && NumberAt(u, 6, 2) < 60
  }

  /** `+HH:MM` or `-HH:MM`, less than a day. */
  predicate IsOffset(o: string) {
    && |o| == 6 && (o[0] == '+' || o[0] == '-') && o[3] == ':'
    && DigitsAt(o, 1, 2) && DigitsAt(o, 4, 2)
    && NumberAt(o, 1, 2) < 24 && NumberAt(o, 4, 2) < 60
  }

  /** What may follow the date: nothing, a time, or a time and an offset. */
  predicate IsTimePart(rest: string) {
    || rest == ""
    || (|rest| == 9 && rest[0] == 'T' && IsTime(rest[1..]))
    || (|rest| == 15 && rest[0] == 'T' && IsTime(rest[1..9]) && IsOffset(rest[9..]))
  }

  predicate IsDateShape(t: string) {
    |t| >= 10 && DigitsAt(t, 0, 4) && t[4] == '-' && DigitsAt(t, 5, 2) && t[7] == '-' && DigitsAt(t, 8, 2)
  }

  /** `datetime.fromisoformat(t)`: `None` where it raises `ValueError`. */
  function ParseIso(t: string): (d: Option<Date>)
    ensures d.Some? ==> 1 <= d.value.year && 1 <= d.value.month <= 12
                        && 1 <= d.value.day <= DaysInMonth(d.value.year, d.value.month)
  {
    if !IsDateShape(t) then None
    else
      var y := NumberAt(t, 0, 4);
      var m := NumberAt(t, 5, 2);
      var d := NumberAt(t, 8, 2);
      if 1 <= y && 1 <= m <= 12 && 1 <= d <= DaysInMonth(y, m) && IsTimePart(t[10..]) then
        Some(Date(y, m, d))
      else None
  }

  /** `strftime('%b')` in the C locale. */
  function MonthAbbrev(m: nat): (r: string)
    requires 1 <= m <= 12
    ensures |r| == 3
  {
    ["Jan", "Feb", "Mar", "Apr", "May", "Jun", "Jul", "Aug", "Sep", "Oct", "Nov", "Dec"][m - 1]
  }

  /** The display form: day without padding, month abbreviation, `%y`. */
  function ShortDate(d: Date): string
    requires 1 <= d.month <= 12
  {
    NatToString(d.day) + " " + MonthAbbrev(d.month) + " " + TwoDigits(d.year % 100)
  }

  /** `_format_timestamp`: empty in, empty out; a parsable timestamp becomes
      its short date; anything else comes back unchanged. */
  function FormatTimestamp(s: string): (r: string)
    ensures s == "" ==> r == ""
    ensures s != "" && ParseIso(ReplaceZ(s)).None? ==> r == s
    ensures s != "" && ParseIso(ReplaceZ(s)).Some? ==> r == ShortDate(ParseIso(ReplaceZ(s)).value)
  {
    if s == "" then ""
    else match ParseIso(ReplaceZ(s))
      case Some(d) => ShortDate(d)
      case None => s
  }

  /** The wire form the agent sends: a UTC timestamp with a `Z` suffix. */
  function IsoUtc(d: Date, hour: nat, minute: nat, second: nat): string
    requires d.year < 10000 && d.month < 100 && d.day < 100 && hour < 100 && minute < 100 && second < 100
  {
    IsoDate(d) + "T" + IsoTime(hour, minute, second) + "Z"
  }

  function IsoDate(d: Date): (r: string)
    requires d.year < 10000 && d.month < 100 && d.day < 100
    ensures |r| == 10
  {
    FourDigits(d.year) + "-" + TwoDigits(d.month) + "-" + TwoDigits(d.day)
  }

  function IsoTime(hour: nat, minute: nat, second: nat): (r: string)
    requires hour < 100 && minute < 100 && second < 100
    ensures |r| == 8
  {
    TwoDigits(hour) + ":" + TwoDigits(minute) + ":" + TwoDigits(second)
  }

  /** Every valid UTC timestamp is shown as its own day, month and year. */
  lemma FormatIsoUtc(d: Date, hour: nat, minute: nat, second: nat)
    requires 1 <= d.year <= 9999 && 1 <= d.month <= 12 && 1 <= d.day <= DaysInMonth(d.year, d.month)
    requires hour < 24 && minute < 60 && second < 60
    ensures FormatTimestamp(IsoUtc(d, hour, minute, second)) == ShortDate(d)
  {
    ReplaceWire(d, hour, minute, second);
    ParseWire(d, hour, minute, second);
  }

  lemma ReplaceWire(d: Date, hour: nat, minute: nat, second: nat)
    requires d.year < 10000 && d.month < 100 && d.day < 100 && hour < 100 && minute < 100 && second < 100
    ensures ReplaceZ(IsoUtc(d, hour, minute, second)) == IsoDate(d) + "T" + IsoTime(hour, minute, second) + "+00:00"
  {
    var body := IsoDate(d) + "T" + IsoTime(hour, minute, second);
    assert IsoUtc(d, hour, minute, second) == body + "Z";
    assert forall i :: 0 <= i < |body| ==> body[i] != 'Z';
    ReplaceZConcat(body, "Z");
    ReplaceZIdentity(body);
    assert ReplaceZ("Z") == "+00:00";
  }

  lemma ParseWire(d: Date, hour: nat, minute: nat, second: nat)
    requires 1 <= d.year <= 9999 && 1 <= d.month <= 12 && 1 <= d.day <= DaysInMonth(d.year, d.month)
    requires hour < 24 && minute < 60 && second < 60
    ensures ParseIso(IsoDate(d) + "T" + IsoTime(hour, minute, second) + "+00:00") == Some(d)
  {
    var date := IsoDate(d);
    var time := IsoTime(hour, minute, second);
    var t := date + "T" + time + "+00:00";
    DateFields(d);
    assert t[0..4] == date[0..4] && t[5..7] == date[5..7] && t[8..10] == date[8..10];
    assert t[10..] == "T" + time + "+00:00";
    TimePart(time, hour, minute, second);
  }

  lemma DateFields(d: Date)
    requires d.year < 10000 && d.month < 100 && d.day < 100
    ensures IsDateShape(IsoDate(d))
    ensures NumberAt(IsoDate(d), 0, 4) == d.year
    ensures NumberAt(IsoDate(d), 5, 2) == d.month
    ensures NumberAt(IsoDate(d), 8, 2) == d.day
  {
    var date := IsoDate(d);
    FourAt(date, 0, d.year);
    TwoAt(date, 5, d.month);
    TwoAt(date, 8, d.day);
  }

  lemma TimePart(time: string, hour: nat, minute: nat, second: nat)
    requires hour < 24 && minute < 60 && second < 60
    requires time == IsoTime(hour, minute, second)
    ensures IsTimePart("T" + time + "+00:00")
  {
    var rest := "T" + time + "+00:00";
    TwoAt(time, 0, hour);
    TwoAt(time, 3, minute);
    TwoAt(time, 6, second);
    assert IsTime(time);
    assert rest[1..9] == time;
    var o := rest[9..];
    assert o == "+00:00";
    TwoAt(o, 1, 0);
    TwoAt(o, 4, 0);
    assert IsOffset(o);
  }

  /** Two digits rendered at position `i` read back as their number. */
  lemma TwoAt(t: string, i: nat, n: nat)
    requires n < 100 && i + 2 <= |t|
    requires t[i] == TwoDigits(n)[0] && t[i + 1] == TwoDigits(n)[1]
    ensures DigitsAt(t, i, 2) && NumberAt(t, i, 2) == n
  {
    assert t[i..i + 2] == TwoDigits(n);
  }

  lemma FourAt(t: string, i: nat, n: nat)
    requires n < 10000 && i + 4 <= |t|
    requires forall k :: 0 <= k < 4 ==> t[i + k] == FourDigits(n)[k]
    ensures DigitsAt(t, i, 4) && NumberAt(t, i, 4) == n
  {
    assert t[i..i + 4] == FourDigits(n);
  }

  lemma FormatExample()
    ensures FormatTimestamp("2026-01-04T10:00:00Z") == "4 Jan 26"
  {
    FormatIsoUtc(Date(2026, 1, 4), 10, 0, 0);
    ExampleWireForm();
    ExampleShortDate();
  }

  lemma ExampleWireForm()
    ensures IsoUtc(Date(2026, 1, 4), 10, 0, 0) == "2026-01-04T10:00:00Z"
  {
  }

  lemma ExampleShortDate()
    ensures ShortDate(Date(2026, 1, 4)) == "4 Jan 26"
  {
  }

  /** A timestamp that does not start with a date is shown as it is. */
  lemma UnparsableUnchanged(s: string)
    requires s != "" && !IsDateShape(ReplaceZ(s))
    ensures FormatTimestamp(s) == s
  {
  }
}
