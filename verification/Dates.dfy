/** The one timestamp the importer reads (sigiledd/src/import.rs, iso_epoch): civil-date arithmetic against a calendar
    that steps one Gregorian day at a time (the date and time format is section 5.6 of RFC 3339). */
module Dates {
  import opened Wrappers
  import opened Text

  // ---- the code ----

  /** `str::parse::<i64>` on a short slice: an optional sign, then digits. */
  function ParseI64(s: string): Option<int> {
    if s != "" && s[0] == '-' then (if Digits(s[1..]) then Some(0 - Value(s[1..])) else None)
    else
      var body := if s != "" && s[0] == '+' then s[1..] else s;
      if Digits(body) then Some(Value(body)) else None
  }

  /** Days since 1970-01-01, as the code computes them. Its `div_euclid` is this `/`; its other divisions are of
      numbers that are not negative. */
  function CivilDays(y: int, mo: int, d: int): int {
    var y2 := if mo <= 2 then y - 1 else y;
    var era := y2 / 400;
    var yoe := y2 - era * 400;
    var doy := (153 * (mo + if mo > 2 then -3 else 9) + 2) / 5 + d - 1;
    var doe := yoe * 365 + yoe / 4 - yoe / 100 + doy;
    era * 146097 + doe - 719468
  }

  function IsoEpoch(s: string): Option<nat> {
    if |s| < 19 then None
    else
      var y, mo, d := ParseI64(s[0..4]), ParseI64(s[5..7]), ParseI64(s[8..10]);
      var h, mi, se := ParseI64(s[11..13]), ParseI64(s[14..16]), ParseI64(s[17..19]);
      if y.None? || mo.None? || d.None? || h.None? || mi.None? || se.None? then None
      else if !(1 <= mo.value <= 12) || !(1 <= d.value <= 31) then None
      else
        var secs := CivilDays(y.value, mo.value, d.value) * 86400 + h.value * 3600 + mi.value * 60 + se.value;
        if secs >= 0 then Some(secs) else None
  }

  // ---- the calendar ----

  datatype Date = Date(y: int, m: int, d: int)

  predicate Leap(y: int) { y % 4 == 0 && (y % 100 != 0 || y % 400 == 0) }

  function MonthLength(y: int, m: int): int
    requires 1 <= m <= 12
  {
    if m == 2 then (if Leap(y) then 29 else 28)
    else if m == 4 || m == 6 || m == 9 || m == 11 then 30
    else 31
  }

  predicate Real(t: Date) { 1 <= t.m <= 12 && 1 <= t.d <= MonthLength(t.y, t.m) }

  function NextDay(t: Date): Date
    requires Real(t)
  {
    if t.d < MonthLength(t.y, t.m) then Date(t.y, t.m, t.d + 1)
    else if t.m < 12 then Date(t.y, t.m + 1, 1)
    else Date(t.y + 1, 1, 1)
  }

  /** The date `n` days after 1970-01-01. */
  function Calendar(n: nat): (t: Date)
    ensures Real(t)
  {
    if n == 0 then Date(1970, 1, 1) else NextDay(Calendar(n - 1))
  }

  // ---- the arithmetic agrees with the calendar ----

  /** Days in the years before `y`, up to a constant. */
  function YearStart(y: int): int { 365 * y + y / 4 - y / 100 + y / 400 }

  /** Days in the months since March. */
  function MonthStart(m: int): int { (153 * (m + if m > 2 then -3 else 9) + 2) / 5 }

  /** The era arithmetic is the usual count of leap years. */
  lemma EraFree(y: int, m: int, d: int)
    ensures CivilDays(y, m, d) == YearStart(if m <= 2 then y - 1 else y) + MonthStart(m) + d - 719469
  {
    var y2 := if m <= 2 then y - 1 else y;
    var era := y2 / 400;
    var yoe := y2 - era * 400;
    assert y2 / 4 == era * 100 + yoe / 4;
    assert y2 / 100 == era * 4 + yoe / 100;
  }

  lemma FourthSteps(y: int)
    ensures y / 4 - (y - 1) / 4 == if y % 4 == 0 then 1 else 0
  {
  }

  lemma HundredthSteps(y: int)
    ensures y / 100 - (y - 1) / 100 == if y % 100 == 0 then 1 else 0
  {
  }

  lemma FourHundredthSteps(y: int)
    ensures y / 400 - (y - 1) / 400 == if y % 400 == 0 then 1 else 0
  {
  }

  lemma Multiples(y: int)
    ensures (y % 400 == 0 ==> y % 100 == 0) && (y % 100 == 0 ==> y % 4 == 0)
  {
  }

  lemma YearSteps(y: int)
    ensures YearStart(y) - YearStart(y - 1) == if Leap(y) then 366 else 365
  {
    FourthSteps(y);
    HundredthSteps(y);
    FourHundredthSteps(y);
    Multiples(y);
  }

  /** Passing the end of a month, from its last day or from any later one. */
  lemma OverMonthEnd(y: int, m: int, d: int)
    requires 1 <= m <= 12
    ensures var n := if m < 12 then Date(y, m + 1, d - MonthLength(y, m)) else Date(y + 1, 1, d - 31);
            CivilDays(y, m, d) == CivilDays(n.y, n.m, n.d)
  {
    hide CivilDays, YearStart, Leap;
    EraFree(y, m, d);
    YearSteps(y);
    if m < 12 { EraFree(y, m + 1, d - MonthLength(y, m)); } else { EraFree(y + 1, 1, d - 31); }
  }

  lemma OneDayOn(t: Date)
    requires Real(t)
    ensures var n := NextDay(t); CivilDays(n.y, n.m, n.d) == CivilDays(t.y, t.m, t.d) + 1
  {
    hide CivilDays, Leap;
    EraFree(t.y, t.m, t.d);
    EraFree(t.y, t.m, t.d + 1);
    OverMonthEnd(t.y, t.m, t.d + 1);
  }

  /** The n-th day of the calendar has number n. */
  lemma {:induction false} NumberOfDay(n: nat)
    ensures var t := Calendar(n); CivilDays(t.y, t.m, t.d) == n
  {
    if n > 0 {
      NumberOfDay(n - 1);
      OneDayOn(Calendar(n - 1));
    }
  }

  /** Every real date from 1970 on is the day the code numbers it. */
  lemma {:induction false} DayOfNumber(t: Date)
    requires Real(t) && t.y >= 1970
    ensures CivilDays(t.y, t.m, t.d) >= 0 && Calendar(CivilDays(t.y, t.m, t.d)) == t
    decreases t.y, t.m, t.d
  {
    if t != Date(1970, 1, 1) {
      var p := if t.d > 1 then Date(t.y, t.m, t.d - 1)
               else if t.m > 1 then Date(t.y, t.m - 1, MonthLength(t.y, t.m - 1))
               else Date(t.y - 1, 12, 31);
      assert Real(p) && NextDay(p) == t;
      DayOfNumber(p);
      OneDayOn(p);
    } else {
      assert CivilDays(1970, 1, 1) == 0;
    }
  }

  predicate Earlier(a: Date, b: Date) { a.y < b.y || (a.y == b.y && (a.m < b.m || (a.m == b.m && a.d < b.d))) }

  lemma NextIsLater(t: Date)
    requires Real(t)
    ensures Earlier(t, NextDay(t)) && forall u :: Real(u) && Earlier(t, u) ==> u == NextDay(t) || Earlier(NextDay(t), u)
  {
  }

  lemma {:induction false} CalendarRises(i: nat, j: nat)
    requires i < j
    ensures Earlier(Calendar(i), Calendar(j))
    decreases j
  {
    NextIsLater(Calendar(j - 1));
    if i < j - 1 { CalendarRises(i, j - 1); }
  }

  /** Later real dates have larger numbers. */
  lemma NumbersRise(a: Date, b: Date)
    requires Real(a) && Real(b) && a.y >= 1970 && b.y >= 1970 && Earlier(a, b)
    ensures CivilDays(a.y, a.m, a.d) < CivilDays(b.y, b.m, b.d)
  {
    DayOfNumber(a);
    DayOfNumber(b);
    var i, j := CivilDays(a.y, a.m, a.d), CivilDays(b.y, b.m, b.d);
    if j < i { CalendarRises(j, i); }
  }

  // ---- whole timestamps ----

  datatype Stamp = Stamp(date: Date, h: int, mi: int, se: int)

  predicate RealStamp(t: Stamp) {
    Real(t.date) && 1970 <= t.date.y <= 9999 && 0 <= t.h < 24 && 0 <= t.mi < 60 && 0 <= t.se < 60
  }

  function Two(n: int): string
    requires 0 <= n < 100
  {
    [DigitOf(n / 10), DigitOf(n % 10)]
  }

  function Four(n: int): string
    requires 0 <= n < 10000
  {
    Two(n / 100) + Two(n % 100)
  }

  predicate InForm(t: Stamp) {
    0 <= t.date.y < 10000 && 0 <= t.date.m < 100 && 0 <= t.date.d < 100 && 0 <= t.h < 100 && 0 <= t.mi < 100
    && 0 <= t.se < 100
  }

  /** `YYYY-MM-DDTHH:MM:SS`, with whatever zero offset follows. */
  function Written(t: Stamp, offset: string): string
    requires InForm(t)
  {
    Four(t.date.y) + "-" + Two(t.date.m) + "-" + Two(t.date.d) + "T" + Two(t.h) + ":" + Two(t.mi) + ":" + Two(t.se)
      + offset
  }

  lemma TwoParses(n: int)
    requires 0 <= n < 100
    ensures ParseI64(Two(n)) == Some(n)
  {
    var s := Two(n);
    assert s[..1] == [DigitOf(n / 10)] && s[..1][..0] == "";
    assert Value(s[..1]) == n / 10;
  }

  lemma FourParses(n: int)
    requires 0 <= n < 10000
    ensures ParseI64(Four(n)) == Some(n)
  {
    var s := Four(n);
    assert s[..3][..2] == Two(n / 100) && s[..3] == Two(n / 100) + [DigitOf(n % 100 / 10)] && s[..2][..1][..0] == "";
    assert s[..2] == Two(n / 100);
    TwoParses(n / 100);
    assert Value(s[..2]) == n / 100;
    assert Value(s[..3]) == 10 * (n / 100) + n % 100 / 10;
  }

  /** Days and time of day, counted in seconds, whatever the fields are. */
  function Seconds(t: Stamp): int { CivilDays(t.date.y, t.date.m, t.date.d) * 86400 + t.h * 3600 + t.mi * 60 + t.se }

  /** What the code answers for the written form of any fields: the seconds, unless the month is not one of twelve, the
      day not one of thirty-one, or the seconds fall before 1970. */
  lemma ReadsFields(t: Stamp, offset: string)
    requires InForm(t)
    ensures IsoEpoch(Written(t, offset))
            == if 1 <= t.date.m <= 12 && 1 <= t.date.d <= 31 && Seconds(t) >= 0 then Some(Seconds(t)) else None
  {
    hide ParseI64, Two, Four, CivilDays;
    var s := Written(t, offset);
    Lengths(t);
    assert s[0..4] == Four(t.date.y);
    assert s[5..7] == Two(t.date.m);
    assert s[8..10] == Two(t.date.d);
    assert s[11..13] == Two(t.h);
    assert s[14..16] == Two(t.mi);
    assert s[17..19] == Two(t.se);
    FourParses(t.date.y);
    TwoParses(t.date.m);
    TwoParses(t.date.d);
    TwoParses(t.h);
    TwoParses(t.mi);
    TwoParses(t.se);
  }

  /** The places that hold a digit in every readable stamp. A sign may stand in front of a field. */
  predicate DigitPlace(k: nat) { k in [1, 2, 3, 6, 9, 12, 15, 18] }

  /** Too short a text, or anything but a digit in one of these places, is no stamp. */
  lemma Unreadable(s: string, k: nat)
    requires |s| < 19 || (DigitPlace(k) && !Digit(s[k]))
    ensures IsoEpoch(s).None?
  {
    if |s| >= 19 {
      if k < 4 { NotANumber(s[0..4], k); }
      else if k == 6 { NotANumber(s[5..7], 1); }
      else if k == 9 { NotANumber(s[8..10], 1); }
      else if k == 12 { NotANumber(s[11..13], 1); }
      else if k == 15 { NotANumber(s[14..16], 1); }
      else { NotANumber(s[17..19], 1); }
    }
  }

  lemma NotANumber(field: string, k: nat)
    requires 0 < k < |field| && !Digit(field[k])
    ensures ParseI64(field).None?
  {
    assert field[1..][k - 1] == field[k];
  }

  lemma Lengths(t: Stamp)
    requires InForm(t)
    ensures |Four(t.date.y)| == 4 && |Two(t.date.m)| == |Two(t.date.d)| == |Two(t.h)| == |Two(t.mi)| == |Two(t.se)| == 2
  {
  }

  /** The second count of a real date and time: whole days by stepping the calendar, then the time of day. */
  lemma EpochOfRealStamp(t: Stamp, offset: string, n: nat)
    requires RealStamp(t) && Calendar(n) == t.date
    ensures IsoEpoch(Written(t, offset)) == Some(86400 * n + 3600 * t.h + 60 * t.mi + t.se)
  {
    hide CivilDays, Calendar, IsoEpoch, Written;
    NumberOfDay(n);
    ReadsFields(t, offset);
  }

  /** ... and every real date from 1970 on is some day of the calendar. */
  lemma CalendarReaches(t: Date) returns (n: nat)
    requires Real(t) && t.y >= 1970
    ensures Calendar(n) == t
  {
    DayOfNumber(t);
    n := CivilDays(t.y, t.m, t.d);
  }

  predicate EarlierStamp(a: Stamp, b: Stamp) {
    Earlier(a.date, b.date)
    || (a.date == b.date && (a.h < b.h || (a.h == b.h && (a.mi < b.mi || (a.mi == b.mi && a.se < b.se)))))
  }

  lemma EpochRises(a: Stamp, b: Stamp, offset: string)
    requires RealStamp(a) && RealStamp(b) && EarlierStamp(a, b)
    ensures IsoEpoch(Written(a, offset)).Some? && IsoEpoch(Written(b, offset)).Some?
    ensures IsoEpoch(Written(a, offset)).value < IsoEpoch(Written(b, offset)).value
  {
    hide IsoEpoch, Written, CivilDays;
    var i := CalendarReaches(a.date);
    var j := CalendarReaches(b.date);
    EpochOfRealStamp(a, offset, i);
    EpochOfRealStamp(b, offset, j);
    NumberOfDay(i);
    NumberOfDay(j);
    if Earlier(a.date, b.date) { NumbersRise(a.date, b.date); }
  }

  /** A day that its month does not have is accepted too, and read as the day of the next month it runs into. */
  lemma RunsOver(y: int, m: int, d: int)
    requires 1 <= m <= 12 && MonthLength(y, m) < d <= 31
    ensures m < 12 && Real(Date(y, m + 1, d - MonthLength(y, m)))
    ensures CivilDays(y, m, d) == CivilDays(y, m + 1, d - MonthLength(y, m))
  {
    hide CivilDays;
    OverMonthEnd(y, m, d);
  }

  /** The code answers for `t` what it answers for the real stamp `u`. */
  predicate ReadAs(t: Stamp, u: Stamp, offset: string)
    requires InForm(t)
  {
    u != t && RealStamp(u) && InForm(u) && IsoEpoch(Written(u, offset)) == IsoEpoch(Written(t, offset))
  }

  const LATEST := Stamp(Date(9999, 12, 31), 23, 59, 59)

  /** Every second up to the end of the year 9999 is counted by a real stamp. */
  lemma StampOf(n: nat) returns (u: Stamp)
    requires n <= Seconds(LATEST)
    ensures RealStamp(u) && Seconds(u) == n
  {
    var days := n / 86400;
    var time := n - 86400 * days;
    var minutes := time / 60;
    u := Stamp(Calendar(days), minutes / 60, minutes - 60 * (minutes / 60), time - 60 * minutes);
    NumberOfDay(days);
    assert CivilDays(9999, 12, 31) == 2932896;
    if days > 0 { CalendarRises(0, days); }
    if u.date.y > 9999 { NumbersRise(LATEST.date, u.date); }
  }

  /** Real stamps count no more than the last one. */
  lemma UpToLatest(u: Stamp)
    requires RealStamp(u)
    ensures 0 <= Seconds(u) <= Seconds(LATEST)
  {
    hide CivilDays;
    DayOfNumber(u.date);
    if Earlier(u.date, LATEST.date) { NumbersRise(u.date, LATEST.date); }
  }

  /** A stamp is read as some other, real stamp exactly when it is not real itself and its seconds fall between 1970 and
      the end of 9999. Impossible days, hours, minutes and seconds all do that. */
  lemma ReadAsAnother(t: Stamp, offset: string)
    requires InForm(t) && 1 <= t.date.m <= 12 && 1 <= t.date.d <= 31
    ensures (exists u :: ReadAs(t, u, offset)) <==> !RealStamp(t) && 0 <= Seconds(t) <= Seconds(LATEST)
  {
    hide IsoEpoch, Written, CivilDays, Seconds;
    ReadsFields(t, offset);
    if !RealStamp(t) && 0 <= Seconds(t) <= Seconds(LATEST) {
      var u := StampOf(Seconds(t));
      ReadsFields(u, offset);
      assert ReadAs(t, u, offset);
    }
    forall u | ReadAs(t, u, offset) ensures !RealStamp(t) && 0 <= Seconds(t) <= Seconds(LATEST) {
      ReadsFields(u, offset);
      UpToLatest(u);
      if RealStamp(t) {
        if EarlierStamp(t, u) { EpochRises(t, u, offset); } else { EpochRises(u, t, offset); }
      }
    }
  }

  /** The 31st of February is one such day. */
  lemma ThirtyFirstOfFebruary()
    ensures IsoEpoch("2026-02-31T00:00:00Z") == IsoEpoch("2026-03-03T00:00:00Z")
    ensures IsoEpoch("2026-02-31T00:00:00Z").Some?
  {
    hide IsoEpoch, Written;
    var t, u := Stamp(Date(2026, 2, 31), 0, 0, 0), Stamp(Date(2026, 3, 3), 0, 0, 0);
    ReadsFields(t, "Z");
    ReadsFields(u, "Z");
    Spelled();
  }

  /** 25 o'clock is another one, on a day that exists. */
  lemma TwentyFiveOClock()
    ensures IsoEpoch("2026-01-01T25:00:00Z") == IsoEpoch("2026-01-02T01:00:00Z")
    ensures IsoEpoch("2026-01-01T25:00:00Z").Some?
  {
    hide IsoEpoch, Written;
    ReadsFields(Stamp(Date(2026, 1, 1), 25, 0, 0), "Z");
    ReadsFields(Stamp(Date(2026, 1, 2), 1, 0, 0), "Z");
    SpelledHours();
  }

  /** A sign is accepted as well, and an hour of minus one is an hour of the day before. */
  lemma SignedHour()
    ensures IsoEpoch("2026-01-01T-1:00:00Z") == IsoEpoch("2025-12-31T23:00:00Z")
    ensures IsoEpoch("2026-01-01T-1:00:00Z") == Some(20454 * 86400 - 3600)
  {
    hide Written, ParseI64, CivilDays;
    assert CivilDays(2026, 1, 1) == 20454 && CivilDays(2025, 12, 31) == 20453 by { TwoDays(); }
    ReadsFields(Stamp(Date(2025, 12, 31), 23, 0, 0), "Z");
    SpelledEve();
    SignedFields();
    Numerals();
    FourParses(2026);
    TwoParses(1);
    TwoParses(0);
    MinusOne();
  }

  lemma SignedFields()
    ensures var s := "2026-01-01T-1:00:00Z";
            s[0..4] == "2026" && s[5..7] == s[8..10] == "01" && s[11..13] == "-1" && s[14..16] == s[17..19] == "00"
  {
    var s := "2026-01-01T-1:00:00Z";
    assert s[0..4] == "2026";
    assert s[5..7] == "01";
    assert s[8..10] == "01";
    assert s[11..13] == "-1";
    assert s[14..16] == "00";
    assert s[17..19] == "00";
  }

  lemma TwoDays()
    ensures CivilDays(2026, 1, 1) == 20454 && CivilDays(2025, 12, 31) == 20453
  {
  }

  lemma MinusOne()
    ensures ParseI64("-1") == Some(-1)
  {
    var digits := "-1"[1..];
    assert digits == "1" && digits[..0] == "";
    assert Value(digits) == 1;
  }

  lemma SpelledEve()
    ensures Written(Stamp(Date(2025, 12, 31), 23, 0, 0), "Z") == "2025-12-31T23:00:00Z"
  {
    hide Two, Four;
    Numerals();
    assert "2025" + "-" + "12" + "-" + "31" + "T" + "23" + ":" + "00" + ":" + "00" + "Z" == "2025-12-31T23:00:00Z";
  }

  lemma SpelledHours()
    ensures Written(Stamp(Date(2026, 1, 1), 25, 0, 0), "Z") == "2026-01-01T25:00:00Z"
    ensures Written(Stamp(Date(2026, 1, 2), 1, 0, 0), "Z") == "2026-01-02T01:00:00Z"
  {
    hide Two, Four;
    Numerals();
    assert "2026" + "-" + "01" + "-" + "01" + "T" + "25" + ":" + "00" + ":" + "00" + "Z" == "2026-01-01T25:00:00Z";
    assert "2026" + "-" + "01" + "-" + "02" + "T" + "01" + ":" + "00" + ":" + "00" + "Z" == "2026-01-02T01:00:00Z";
  }

  lemma Spelled()
    ensures Written(Stamp(Date(2026, 2, 31), 0, 0, 0), "Z") == "2026-02-31T00:00:00Z"
    ensures Written(Stamp(Date(2026, 3, 3), 0, 0, 0), "Z") == "2026-03-03T00:00:00Z"
  {
    hide Two, Four;
    Numerals();
    assert "2026" + "-" + "02" + "-" + "31" + "T" + "00" + ":" + "00" + ":" + "00" + "Z" == "2026-02-31T00:00:00Z";
    assert "2026" + "-" + "03" + "-" + "03" + "T" + "00" + ":" + "00" + ":" + "00" + "Z" == "2026-03-03T00:00:00Z";
  }

  lemma Numerals()
    ensures Two(1) == "01" && Two(25) == "25" && Two(2) == "02" && Two(12) == "12" && Two(23) == "23" && Two(3) == "03"
            && Two(31) == "31" && Two(0) == "00" && Four(2026) == "2026" && Four(2025) == "2025"
  {
    assert Two(20) == "20" && Two(26) == "26";
  }
}
