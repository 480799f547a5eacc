/**
 `convert_to_datetime_obj`: an ISO date or date-time string rendered as
 "YYYY/MM/DD (曜)" or "YYYY/MM/DD (曜) HH:MM", with the Japanese one-letter
 weekday. The weekday is computed from the proleptic Gregorian day count, as
 Python's `datetime.weekday()` does.
 */
module Dates {
  import opened PyJson
  import Text

  datatype DateTime = DateTime(year: int, month: int, day: int, hour: int, minute: int, second: int)

  predicate IsLeap(y: int) {
    y % 4 == 0 && (y % 100 != 0 || y % 400 == 0)
  }

  function DaysInMonth(y: int, m: int): (r: int)
    requires 1 <= m <= 12
    ensures 28 <= r <= 31
  {
    if m == 2 then (if IsLeap(y) then 29 else 28)
    else if m == 4 || m == 6 || m == 9 || m == 11 then 30
    else 31
  }

  /** The date-time fields Python's `datetime` accepts. */
  predicate Valid(dt: DateTime) {
    && 1 <= dt.year <= 9999
    && 1 <= dt.month <= 12
    && 1 <= dt.day <= DaysInMonth(dt.year, dt.month)
    && 0 <= dt.hour < 24 && 0 <= dt.minute < 60 && 0 <= dt.second < 60
  }

  /** Days in the years before `y`. */
  function DaysBeforeYear(y: int): int
    requires y >= 1
  {
    var p := y - 1;
    p * 365 + p / 4 - p / 100 + p / 400
  }

  /** Days in the months of year `y` before month `m`, from the cumulative month table. */
  function DaysBeforeMonth(y: int, m: int): int
    requires 1 <= m <= 12
  {
    [0, 31, 59, 90, 120, 151, 181, 212, 243, 273, 304, 334][m - 1] + (if m > 2 && IsLeap(y) then 1 else 0)
  }

  /** The cumulative table agrees with the month lengths. */
  lemma DaysBeforeNextMonth(y: int, m: int)
    requires 1 <= m < 12
    ensures DaysBeforeMonth(y, m + 1) == DaysBeforeMonth(y, m) + DaysInMonth(y, m)
  {
  }

  /** `date.toordinal()`: 0001-01-01 is day 1. */
  function Ordinal(dt: DateTime): int
    requires Valid(dt)
  {
    DaysBeforeYear(dt.year) + DaysBeforeMonth(dt.year, dt.month) + dt.day
  }

  /** `date.weekday()`: Monday is 0, Sunday is 6. */
  function Weekday(dt: DateTime): (r: int)
    requires Valid(dt)
    ensures 0 <= r < 7
  {
    (Ordinal(dt) + 6) % 7
  }

  /** The weekday labels, Monday first. */
  const WeekdayLabels: seq<char> := ['月', '火', '水', '木', '金', '土', '日']

  /** The calendar day after `dt` (same time of day). */
  function NextDay(dt: DateTime): DateTime
    requires Valid(dt)
  {
    if dt.day < DaysInMonth(dt.year, dt.month) then dt.(day := dt.day + 1)
    else if dt.month < 12 then dt.(month := dt.month + 1, day := 1)
    else dt.(year := dt.year + 1, month := 1, day := 1)
  }

  lemma DaysInYear(y: int)
    requires y >= 1
    ensures DaysBeforeMonth(y, 12) + 31 == (if IsLeap(y) then 366 else 365)
  {
  }

  /** Leap-year counting: one more multiple of `k` exactly when `p + 1` is one. */
  lemma DivSucc(p: int, k: int)
    requires p >= 0 && (k == 4 || k == 100 || k == 400)
    ensures (p + 1) / k == p / k + (if (p + 1) % k == 0 then 1 else 0)
  {
  }

  lemma DaysBeforeNextYear(y: int)
    requires y >= 1
    ensures DaysBeforeYear(y + 1) == DaysBeforeYear(y) + (if IsLeap(y) then 366 else 365)
  {
    var p := y - 1;
    DivSucc(p, 4);
    DivSucc(p, 100);
    DivSucc(p, 400);
    DivisibleChain(y);
    assert DaysBeforeYear(y + 1) == y * 365 + y / 4 - y / 100 + y / 400;
    assert DaysBeforeYear(y) == p * 365 + p / 4 - p / 100 + p / 400;
    assert y * 365 == p * 365 + 365;
  }

  /** Multiples of 400 are multiples of 100, which are multiples of 4. */
  lemma DivisibleChain(y: int)
    ensures y % 400 == 0 ==> y % 100 == 0
    ensures y % 100 == 0 ==> y % 4 == 0
  {
    if y % 400 == 0 {
      Hundreds(y, 4 * (y / 400));
    }
    if y % 100 == 0 {
      Fours(y, 25 * (y / 100));
    }
  }

  lemma Hundreds(y: int, k: int)
    requires y == 100 * k
    ensures y % 100 == 0
  {
    var d, r := y / 100, y % 100;
    assert 100 * (k - d) == r;
  }

  lemma Fours(y: int, k: int)
    requires y == 4 * k
    ensures y % 4 == 0
  {
    var d, r := y / 4, y % 4;
    assert 4 * (k - d) == r;
  }

  lemma ModSucc(a: int)
    ensures (a + 1) % 7 == (a % 7 + 1) % 7
  {
  }

  /** Consecutive days have consecutive ordinals. */
  lemma OrdinalNextDay(dt: DateTime)
    requires Valid(dt) && dt.year < 9999
    ensures Valid(NextDay(dt))
    ensures Ordinal(NextDay(dt)) == Ordinal(dt) + 1
  {
    if dt.day == DaysInMonth(dt.year, dt.month) {
      if dt.month == 12 {
        DaysInYear(dt.year);
        DaysBeforeNextYear(dt.year);
      } else {
        DaysBeforeNextMonth(dt.year, dt.month);
      }
    }
  }

  /** The weekday advances by one, cyclically, from one day to the next. */
  lemma WeekdayNextDay(dt: DateTime)
    requires Valid(dt) && dt.year < 9999
    ensures Valid(NextDay(dt))
    ensures Weekday(NextDay(dt)) == (Weekday(dt) + 1) % 7
  {
    OrdinalNextDay(dt);
    ModSucc(Ordinal(dt) + 6);
  }

  /** 0001-01-01 was a Monday in the proleptic Gregorian calendar. */
  lemma FirstDayIsMonday()
    ensures Weekday(DateTime(1, 1, 1, 0, 0, 0)) == 0
  {
  }

  // ---------------------------------------------------------------- digits

  function Pow10(w: nat): nat
  {
    if w == 0 then 1 else 10 * Pow10(w - 1)
  }

  function DigitChar(d: nat): char
    requires d < 10
  {
    (('0' as int) + d) as char
  }

  /** `n` zero-padded to `w` digits, as `%02d` / `%Y` print it. */
  function Pad(n: nat, w: nat): (r: string)
    ensures |r| == w
  {
    if w == 0 then "" else Pad(n / 10, w - 1) + [DigitChar(n % 10)]
  }

  /** The value of a non-empty run of decimal digits. */
  function DigitsValue(s: string): Option<nat>
  {
    if |s| == 0 then Some(0)
    else if !('0' <= s[|s| - 1] <= '9') then None
    else
      match DigitsValue(s[..|s| - 1])
      case None => None
      case Some(v) => Some(10 * v + (s[|s| - 1] as int - '0' as int))
  }

  lemma {:induction false} DigitsOfPad(n: nat, w: nat)
    requires n < Pow10(w)
    ensures DigitsValue(Pad(n, w)) == Some(n)
  {
    if w > 0 {
      assert n / 10 < Pow10(w - 1);
      DigitsOfPad(n / 10, w - 1);
      var s := Pad(n, w);
      assert s[..|s| - 1] == Pad(n / 10, w - 1);
    } else {
      assert n == 0;
    }
  }

  // ---------------------------------------------------------------- parsing

  /** The digits of a fixed-width field. */
  function Field(s: string, lo: nat, hi: nat): Option<nat>
    requires lo <= hi <= |s|
  {
    if lo == hi then None else DigitsValue(s[lo..hi])
  }

  /** Characters that may follow the seconds: a fraction or a UTC offset. */
  predicate SuffixStart(c: char) {
    c == '.' || c == ',' || c == '+' || c == '-' || c == 'Z'
  }

  /**
   `datetime.fromisoformat` for "YYYY-MM-DD", "YYYY-MM-DDTHH:MM" and
   "YYYY-MM-DDTHH:MM:SS" with an optional fraction or offset after the
   seconds, which does not change the rendered fields.
   */
  function ParseIso(s: string): (r: Result<DateTime>)
    ensures r.Ok? ==> Valid(r.value)
    ensures r.Err? ==> r.error == ValueError
  {
    if |s| < 10 || s[4] != '-' || s[7] != '-' then Err(ValueError)
    else
      var y := Field(s, 0, 4);
      var mo := Field(s, 5, 7);
      var d := Field(s, 8, 10);
      if y.None? || mo.None? || d.None? then Err(ValueError)
      else
        var time :=
          if |s| == 10 then Some((0, 0, 0))
          else if |s| < 16 || s[10] != 'T' || s[13] != ':' then None
          else
            var h := Field(s, 11, 13);
            var mi := Field(s, 14, 16);
            if h.None? || mi.None? then None
            else if |s| == 16 then Some((h.value, mi.value, 0))
            else if |s| < 19 || s[16] != ':' then None
            else
              var sec := Field(s, 17, 19);
              if sec.None? || (|s| > 19 && !SuffixStart(s[19])) then None
              else Some((h.value, mi.value, sec.value));
        if time.None? then Err(ValueError)
        else
          var dt := DateTime(y.value, mo.value, d.value, time.value.0, time.value.1, time.value.2);
          if Valid(dt) then Ok(dt) else Err(ValueError)
  }

  /** `dt.isoformat()` for a whole-second date-time. */
  function IsoFormat(dt: DateTime): string
    requires Valid(dt)
  {
    IsoDate(dt) + "T" + IsoTime(dt)
  }

  /** The `YYYY-MM-DD` half of `isoformat`. */
  function IsoDate(dt: DateTime): string
    requires Valid(dt)
  {
    Pad(dt.year, 4) + "-" + Pad(dt.month, 2) + "-" + Pad(dt.day, 2)
  }

  /** The `HH:MM:SS` half of `isoformat`. */
  function IsoTime(dt: DateTime): string
    requires Valid(dt)
  {
    Pad(dt.hour, 2) + ":" + Pad(dt.minute, 2) + ":" + Pad(dt.second, 2)
  }

  /** Parsing what `isoformat` printed gives the date-time back. */
  lemma ParseIsoRoundTrip(dt: DateTime)
    requires Valid(dt)
    ensures ParseIso(IsoFormat(dt)) == Ok(dt)
  {
    var s, date, time := IsoFormat(dt), IsoDate(dt), IsoTime(dt);
    var year, month, day := Pad(dt.year, 4), Pad(dt.month, 2), Pad(dt.day, 2);
    var hour, minute, second := Pad(dt.hour, 2), Pad(dt.minute, 2), Pad(dt.second, 2);
    IsoHalves(dt);
    SeparatedSlices(year, month, day, "-");
    SeparatedSlices(hour, minute, second, ":");
    SliceWithin(s, date, 0, 0, 4);
    SliceWithin(s, date, 0, 5, 7);
    SliceWithin(s, date, 0, 8, 10);
    SliceWithin(s, time, 11, 0, 2);
    SliceWithin(s, time, 11, 3, 5);
    SliceWithin(s, time, 11, 6, 8);
    assert s[4] == date[4] && s[7] == date[7];
    assert s[13] == time[2] && s[16] == time[5];
    FieldsOfPads(s, dt);
    ParseFields(s, dt);
  }

  /** A slice inside an occurrence of `p` is the same slice of `p`. */
  lemma SliceWithin(s: string, p: string, i: nat, lo: nat, hi: nat)
    requires Text.Occurs(s, p, i) && lo <= hi <= |p|
    ensures s[i + lo..i + hi] == p[lo..hi]
  {
    forall k | lo <= k < hi
      ensures s[i + k] == p[k]
    {
      assert s[i..i + |p|][k] == p[k];
    }
  }

  /** The pieces of `a-b-c` (or `a:b:c`), `b` and `c` two characters wide, read back by position. */
  lemma SeparatedSlices(a: string, b: string, c: string, sep: string)
    requires |b| == 2 && |c| == 2 && |sep| == 1
    ensures var t, n := a + sep + b + sep + c, |a|;
            && |t| == n + 6 && t[n] == sep[0] && t[n + 3] == sep[0]
            && t[0..n] == a && t[n + 1..n + 3] == b && t[n + 4..n + 6] == c
  {
    var t := a + sep + b + sep + c;
    assert t == "" + a + (sep + b + sep + c);
    Text.ThreeParts("", a, sep + b + sep + c);
    assert t == (a + sep) + b + (sep + c);
    Text.ThreeParts(a + sep, b, sep + c);
    assert t == (a + sep + b + sep) + c + "";
    Text.ThreeParts(a + sep + b + sep, c, "");
  }

  /** The zero-padded fields of `dt`, found in their places, read back as its numbers. */
  lemma FieldsOfPads(s: string, dt: DateTime)
    requires Valid(dt) && |s| == 19
    requires s[0..4] == Pad(dt.year, 4) && s[5..7] == Pad(dt.month, 2) && s[8..10] == Pad(dt.day, 2)
    requires s[11..13] == Pad(dt.hour, 2) && s[14..16] == Pad(dt.minute, 2) && s[17..19] == Pad(dt.second, 2)
    ensures Field(s, 0, 4) == Some(dt.year) && Field(s, 5, 7) == Some(dt.month) && Field(s, 8, 10) == Some(dt.day)
    ensures Field(s, 11, 13) == Some(dt.hour) && Field(s, 14, 16) == Some(dt.minute)
    ensures Field(s, 17, 19) == Some(dt.second)
  {
    assert Pow10(4) == 10000 && Pow10(2) == 100;
    DigitsOfPad(dt.year, 4);
    DigitsOfPad(dt.month, 2);
    DigitsOfPad(dt.day, 2);
    DigitsOfPad(dt.hour, 2);
    DigitsOfPad(dt.minute, 2);
    DigitsOfPad(dt.second, 2);
  }

  /** A 19-character string with the separators in place and the fields of `dt` between them parses as `dt`. */
  lemma ParseFields(s: string, dt: DateTime)
    requires Valid(dt) && |s| == 19
    requires s[4] == '-' && s[7] == '-' && s[10] == 'T' && s[13] == ':' && s[16] == ':'
    requires Field(s, 0, 4) == Some(dt.year) && Field(s, 5, 7) == Some(dt.month) && Field(s, 8, 10) == Some(dt.day)
    requires Field(s, 11, 13) == Some(dt.hour) && Field(s, 14, 16) == Some(dt.minute)
    requires Field(s, 17, 19) == Some(dt.second)
    ensures ParseIso(s) == Ok(dt)
  {
  }

  lemma IsoHalves(dt: DateTime)
    requires Valid(dt)
    ensures var s := IsoFormat(dt);
            && |IsoDate(dt)| == 10 && |IsoTime(dt)| == 8 && |s| == 19
            && Text.Occurs(s, IsoDate(dt), 0) && s[10] == 'T' && Text.Occurs(s, IsoTime(dt), 11)
  {
    var date, time := IsoDate(dt), IsoTime(dt);
    assert IsoFormat(dt) == "" + date + ("T" + time);
    Text.OccursMiddle("", date, "T" + time);
    assert IsoFormat(dt) == date + "T" + time + "";
    Text.OccursMiddle(date + "T", time, "");
  }

  // ---------------------------------------------------------------- rendering

  /** Only midnight-with-zero-seconds renders without a time; the minutes are not looked at. */
  predicate DateOnly(dt: DateTime) {
    dt.hour == 0 && dt.second == 0
  }

  /** `strftime('%Y/%m/%d (曜)')`. */
  function DatePart(dt: DateTime): (r: string)
    requires Valid(dt)
    ensures |r| == 14
  {
    Pad(dt.year, 4) + "/" + Pad(dt.month, 2) + "/" + Pad(dt.day, 2) + " (" + [WeekdayLabels[Weekday(dt)]] + ")"
  }

  /** `strftime(' %H:%M')`. */
  function TimePart(dt: DateTime): (r: string)
    requires Valid(dt)
    ensures |r| == 6
  {
    " " + Pad(dt.hour, 2) + ":" + Pad(dt.minute, 2)
  }

  /** The date part, then the time part unless `DateOnly`. */
  function Render(dt: DateTime): (r: string)
    requires Valid(dt)
    ensures |r| == (if DateOnly(dt) then 14 else 20)
    ensures r[12] == WeekdayLabels[Weekday(dt)] && r[10..12] == " (" && r[13] == ')'
    ensures DigitsValue(r[0..4]) == Some(dt.year) && r[4] == '/'
    ensures DigitsValue(r[5..7]) == Some(dt.month) && r[7] == '/'
    ensures DigitsValue(r[8..10]) == Some(dt.day)
    ensures !DateOnly(dt) ==> r[14] == ' ' && r[17] == ':'
    ensures !DateOnly(dt) ==> DigitsValue(r[15..17]) == Some(dt.hour) && DigitsValue(r[18..20]) == Some(dt.minute)
  {
    DatePartFields(dt);
    if DateOnly(dt) then DatePart(dt)
    else
      TimePartFields(dt);
      ConcatSlices(DatePart(dt), TimePart(dt));
      DatePart(dt) + TimePart(dt)
  }

  lemma ConcatSlices(a: string, b: string)
    ensures forall i, j :: 0 <= i <= j <= |a| ==> (a + b)[i..j] == a[i..j]
    ensures forall i, j :: 0 <= i <= j <= |b| ==> (a + b)[|a| + i..|a| + j] == b[i..j]
  {
  }

  lemma DatePartFields(dt: DateTime)
    requires Valid(dt)
    ensures var r := DatePart(dt);
      && r[12] == WeekdayLabels[Weekday(dt)] && r[10..12] == " (" && r[13] == ')'
      && DigitsValue(r[0..4]) == Some(dt.year) && r[4] == '/'
      && DigitsValue(r[5..7]) == Some(dt.month) && r[7] == '/'
      && DigitsValue(r[8..10]) == Some(dt.day)
  {
    var r := DatePart(dt);
    assert r[0..4] == Pad(dt.year, 4) && r[5..7] == Pad(dt.month, 2) && r[8..10] == Pad(dt.day, 2);
    DigitsOfPad(dt.year, 4);
    DigitsOfPad(dt.month, 2);
    DigitsOfPad(dt.day, 2);
  }

  lemma TimePartFields(dt: DateTime)
    requires Valid(dt)
    ensures var r := TimePart(dt);
      && r[0] == ' ' && r[3] == ':'
      && DigitsValue(r[1..3]) == Some(dt.hour) && DigitsValue(r[4..6]) == Some(dt.minute)
  {
    var r := TimePart(dt);
    assert r[1..3] == Pad(dt.hour, 2) && r[4..6] == Pad(dt.minute, 2);
    DigitsOfPad(dt.hour, 2);
    DigitsOfPad(dt.minute, 2);
  }

  /** Minutes never decide the format: 00:30:00 renders exactly like 00:00:00. */
  lemma MinutesIgnoredAtMidnight(dt: DateTime)
    requires Valid(dt) && DateOnly(dt)
    ensures Render(dt) == Render(dt.(minute := 0))
  {
    var dt0 := dt.(minute := 0);
    assert Ordinal(dt) == Ordinal(dt0);
    assert DatePart(dt) == DatePart(dt0);
  }

  /**
   `convert_to_datetime_obj(time_str)`: `fromisoformat` rejects a non-string
   with TypeError and a malformed or impossible date with ValueError.
   */
  function ConvertToDatetimeObj(v: Json): (r: Result<string>)
    ensures !v.JStr? ==> r == Err(TypeError)
    ensures v.JStr? ==> r.Ok? == ParseIso(v.s).Ok?
    ensures r.Ok? ==> |r.value| == 14 || |r.value| == 20
    ensures r.Ok? ==> r.value[12] in WeekdayLabels
    ensures v.JStr? && ParseIso(v.s).Ok? ==> r == Ok(Render(ParseIso(v.s).value))
    ensures r.Ok? ==> var dt := ParseIso(v.s).value;
      && DigitsValue(r.value[0..4]) == Some(dt.year)
      && DigitsValue(r.value[5..7]) == Some(dt.month)
      && DigitsValue(r.value[8..10]) == Some(dt.day)
      && r.value[12] == WeekdayLabels[Weekday(dt)]
  {
    match v
    case JStr(s) =>
      (match ParseIso(s)
       case Ok(dt) => Ok(Render(dt))
       case Err(e) => Err(e))
    case _ => Err(TypeError)
  }

  /** An ISO timestamp of a valid date and time is shown as that date and time. */
  lemma ConvertIsoFormat(dt: DateTime)
    requires Valid(dt)
    ensures ConvertToDatetimeObj(JStr(IsoFormat(dt))) == Ok(Render(dt))
  {
    ParseIsoRoundTrip(dt);
  }

  /** 1 June 2025 is a Sunday: its label is 日. */
  lemma SundayDeadline()
    ensures Valid(DateTime(2025, 6, 1, 0, 0, 0))
    ensures Weekday(DateTime(2025, 6, 1, 0, 0, 0)) == 6
    ensures Render(DateTime(2025, 6, 1, 0, 0, 0))[12] == '日'
  {
  }
}
