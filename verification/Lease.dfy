/**
 * Lease expiries as ISO 8601 text in UTC. Python leaves the microseconds out when they are zero, and leases
 * are compared as text; for four-digit years that agrees with comparing times.
 */
module Lease {
  import opened Wrappers
  import opened StringOrder

  datatype Instant = Instant(year: nat, month: nat, day: nat, hour: nat, minute: nat, second: nat, micro: nat)

  // ---------- The calendar ----------

  predicate Leap(year: nat) { year % 4 == 0 && (year % 100 != 0 || year % 400 == 0) }

  function DaysIn(year: nat, month: nat): nat {
    if month == 2 then (if Leap(year) then 29 else 28)
    else if month == 4 || month == 6 || month == 9 || month == 11 then 30
    else 31
  }

  predicate Valid(i: Instant) {
    && 1 <= i.year <= 9999 && 1 <= i.month <= 12 && 1 <= i.day <= DaysIn(i.year, i.month)
    && i.hour < 24 && i.minute < 60 && i.second < 60 && i.micro < 1000000
  }

  /** The days before a month of a year. */
  function DaysBeforeMonth(year: nat, month: nat): nat {
    if month <= 1 then 0 else DaysBeforeMonth(year, month - 1) + DaysIn(year, month - 1)
  }

  /** The days before a year, from year 1 on. */
  function DaysBeforeYear(year: nat): nat {
    if year <= 1 then 0 else DaysBeforeYear(year - 1) + if Leap(year - 1) then 366 else 365
  }

  /** In closed form: every fourth year is a day longer, but of the full centuries only every fourth. */
  lemma {:induction false} DaysBeforeYearAre(years: nat)
    ensures DaysBeforeYear(years + 1) == 365 * years + years / 4 - years / 100 + years / 400
  {
    if years > 0 {
      DaysBeforeYearAre(years - 1);
      LeapDay(years);
      assert DaysBeforeYear(years + 1) == DaysBeforeYear(years) + if Leap(years) then 366 else 365;
      hide DaysBeforeYear, Leap;
    }
  }

  lemma LeapDay(year: nat)
    requires year > 0
    ensures var before := year - 1;
            year / 4 - year / 100 + year / 400
            == before / 4 - before / 100 + before / 400 + if Leap(year) then 1 else 0
  {
    assert year / 4 == (year - 1) / 4 + if year % 4 == 0 then 1 else 0;
    assert year / 100 == (year - 1) / 100 + if year % 100 == 0 then 1 else 0;
    assert year / 400 == (year - 1) / 400 + if year % 400 == 0 then 1 else 0;
    RoundYears(year);
  }

  lemma RoundYears(year: nat)
    ensures (year % 400 == 0 ==> year % 100 == 0) && (year % 100 == 0 ==> year % 4 == 0)
  {
    var q, c, n := year / 4, year / 100, year / 400;
    assert year == 4 * q + year % 4;
    assert year == 100 * c + year % 100;
    assert year == 400 * n + year % 400;
    if year % 400 == 0 {
      var d := 4 * n - c;
      assert year % 100 == 100 * d;
    }
    if year % 100 == 0 {
      var d := 25 * c - q;
      assert year % 4 == 4 * d;
    }
  }

  function Day(i: Instant): nat {
    DaysBeforeYear(i.year) + DaysBeforeMonth(i.year, i.month) + i.day
  }

  /** The microseconds since the last midnight. */
  function OfDay(i: Instant): nat { ((i.hour * 60 + i.minute) * 60 + i.second) * 1000000 + i.micro }

  const DAY_MICROS := 86400000000

  /** The microseconds since the start of the calendar. */
  function Micros(i: Instant): nat { Day(i) * DAY_MICROS + OfDay(i) }

  lemma {:induction false} MonthsAddUp(year: nat, month: nat, later: nat)
    requires 1 <= month < later <= 12
    ensures DaysBeforeMonth(year, month) + DaysIn(year, month) <= DaysBeforeMonth(year, later)
  {
    if month + 1 < later { MonthsAddUp(year, month, later - 1); }
  }

  lemma MonthsFillTheYear(year: nat)
    ensures DaysBeforeMonth(year, 13) == if Leap(year) then 366 else 365
  {
    assert DaysBeforeMonth(year, 2) == 31;
    assert DaysBeforeMonth(year, 3) == 31 + DaysIn(year, 2);
    assert DaysBeforeMonth(year, 5) == DaysBeforeMonth(year, 3) + 61;
    assert DaysBeforeMonth(year, 7) == DaysBeforeMonth(year, 5) + 61;
    assert DaysBeforeMonth(year, 9) == DaysBeforeMonth(year, 7) + 62;
    assert DaysBeforeMonth(year, 11) == DaysBeforeMonth(year, 9) + 61;
    assert DaysBeforeMonth(year, 13) == DaysBeforeMonth(year, 11) + 61;
  }

  lemma {:induction false} YearsAddUp(year: nat, later: nat)
    requires 1 <= year < later
    ensures DaysBeforeYear(year) + DaysBeforeMonth(year, 13) <= DaysBeforeYear(later)
  {
    MonthsFillTheYear(year);
    if year + 1 < later { YearsAddUp(year, later - 1); }
  }

  lemma DayIsInItsYear(i: Instant)
    requires Valid(i)
    ensures DaysBeforeMonth(i.year, i.month) + i.day <= DaysBeforeMonth(i.year, 13)
  {
    if i.month < 12 { MonthsAddUp(i.year, i.month, 12); }
  }

  /** Dates in the order of year, month and day are in the order of their day numbers. */
  predicate DateBefore(a: Instant, b: Instant) {
    a.year < b.year || (a.year == b.year && (a.month < b.month || (a.month == b.month && a.day < b.day)))
  }

  lemma DatesInOrder(a: Instant, b: Instant)
    requires Valid(a) && Valid(b) && DateBefore(a, b)
    ensures Day(a) < Day(b)
  {
    DayIsInItsYear(a);
    if a.year < b.year {
      YearsAddUp(a.year, b.year);
    } else if a.month < b.month {
      MonthsAddUp(a.year, a.month, b.month);
    }
    hide DaysBeforeMonth, DaysBeforeYear, Leap;
  }

  predicate TimeBefore(a: Instant, b: Instant) {
    || a.hour < b.hour
    || (a.hour == b.hour
        && (|| a.minute < b.minute
            || (a.minute == b.minute
                && (a.second < b.second || (a.second == b.second && a.micro < b.micro)))))
  }

  predicate SameDate(a: Instant, b: Instant) { a.year == b.year && a.month == b.month && a.day == b.day }

  /** Chronological order, field by field. */
  predicate Before(a: Instant, b: Instant) { DateBefore(a, b) || (SameDate(a, b) && TimeBefore(a, b)) }

  lemma TimesInOrder(a: Instant, b: Instant)
    requires Valid(a) && Valid(b)
    ensures TimeBefore(a, b) <==> OfDay(a) < OfDay(b)
    ensures OfDay(a) < DAY_MICROS
  {
    hide DaysIn;
  }

  lemma BeforeIsEarlier(a: Instant, b: Instant)
    requires Valid(a) && Valid(b)
    ensures Before(a, b) <==> Micros(a) < Micros(b)
  {
    TimesInOrder(a, b);
    TimesInOrder(b, a);
    if DateBefore(a, b) {
      DatesInOrder(a, b);
    } else if DateBefore(b, a) {
      DatesInOrder(b, a);
    }
    assert !DateBefore(a, b) && !DateBefore(b, a) ==> SameDate(a, b);
    assert SameDate(a, b) ==> Day(a) == Day(b);
    hide Day, OfDay, TimeBefore, DaysIn;
  }

  // ---------- The text ----------

  function DigitChar(n: nat): char
    requires n < 10
  {
    (48 + n) as char
  }

  /** The last digits of a number, padded with zeros. */
  function Padded(n: nat, width: nat): string {
    if width == 0 then "" else Padded(n / 10, width - 1) + [DigitChar(n % 10)]
  }

  predicate FitsIn(n: nat, width: nat) { if width == 0 then n == 0 else FitsIn(n / 10, width - 1) }

  function Fraction(micro: nat): string { if micro == 0 then "" else "." + Padded(micro, 6) }

  /** `isoformat()` of an aware UTC datetime. */
  function Iso(i: Instant): string {
    Padded(i.year, 4) + ("-" + (Padded(i.month, 2) + ("-" + (Padded(i.day, 2) + ("T" + ClockText(i))))))
  }

  function ClockText(i: Instant): string {
    Padded(i.hour, 2) + (":" + (Padded(i.minute, 2) + (":" + (Padded(i.second, 2) + (Fraction(i.micro) + "+00:00")))))
  }

  /** The number that digits stand for. */
  function Number(s: string): int {
    if s == "" then 0 else 10 * Number(s[..|s| - 1]) + (s[|s| - 1] as int - 48)
  }

  lemma {:induction false} PaddedReadsBack(n: nat, width: nat)
    requires FitsIn(n, width)
    ensures |Padded(n, width)| == width && Number(Padded(n, width)) == n
  {
    if width > 0 {
      PaddedReadsBack(n / 10, width - 1);
      var front, last := Padded(n / 10, width - 1), DigitChar(n % 10);
      assert (front + [last])[..width - 1] == front;
      assert n == 10 * (n / 10) + n % 10;
    }
  }

  lemma CutBehind(s: string, front: string, mark: string, rest: string, width: nat)
    requires s == front + (mark + rest) && |front| == width && |mark| == 1
    ensures |s| == width + 1 + |rest| && s[..width] == front && s[width..width + 1] == mark && s[width + 1..] == rest
  {
  }

  lemma FieldReads(n: nat, width: nat)
    requires (width == 2 && n < 100) || (width == 4 && n < 10000) || (width == 6 && n < 1000000)
    ensures |Padded(n, width)| == width && Number(Padded(n, width)) == n
  {
    if width == 2 { FitsTwo(n); } else if width == 4 { FitsFour(n); } else { FitsSix(n); }
    hide *;
    PaddedReadsBack(n, width);
  }

  /** A clock as it stands behind the T: hour, minute and second in two digits each, and what follows. */
  lemma ClockReads(i: Instant)
    requires Valid(i)
    ensures |ClockText(i)| >= 8
    ensures var s := ClockText(i);
            var minutes, seconds := s[3..], s[3..][3..];
            && Number(s[..2]) == i.hour && s[2..3] == ":"
            && Number(minutes[..2]) == i.minute && minutes[2..3] == ":"
            && Number(seconds[..2]) == i.second
            && seconds[2..] == (if i.micro == 0 then "" else "." + Padded(i.micro, 6)) + "+00:00"
            && Number(Padded(i.micro, 6)) == i.micro && |Padded(i.micro, 6)| == 6
  {
    LongEnough(i);
    var end := Fraction(i.micro) + "+00:00";
    var seconds := Padded(i.second, 2) + end;
    var minutes := Padded(i.minute, 2) + (":" + seconds);
    hide Padded, Number, FitsIn, DaysIn;
    assert ClockText(i) == Padded(i.hour, 2) + (":" + minutes);
    hide ClockText;
    FieldReads(i.hour, 2); FieldReads(i.minute, 2); FieldReads(i.second, 2); FieldReads(i.micro, 6);
    CutBehind(ClockText(i), Padded(i.hour, 2), ":", minutes, 2);
    CutBehind(minutes, Padded(i.minute, 2), ":", seconds, 2);
  }

  lemma DateFields(i: Instant)
    requires Valid(i)
    ensures i.year < 10000 && i.month < 100 && i.day < 100
  {
  }

  lemma LongEnough(i: Instant)
    requires Valid(i)
    ensures |Iso(i)| >= 11 && |ClockText(i)| >= 8
  {
    DateFields(i);
    hide Padded, Number, FitsIn, DaysIn;
    FieldReads(i.year, 4); FieldReads(i.month, 2); FieldReads(i.day, 2);
    FieldReads(i.hour, 2); FieldReads(i.minute, 2); FieldReads(i.second, 2);
  }

  /** The fields stand where ISO 8601 has them, the time of day behind the T. */
  lemma IsoReads(i: Instant)
    requires Valid(i)
    ensures |Iso(i)| >= 11
    ensures var s := Iso(i);
            var months, days := s[5..], s[5..][3..];
            && Number(s[..4]) == i.year && s[4..5] == "-"
            && Number(months[..2]) == i.month && months[2..3] == "-"
            && Number(days[..2]) == i.day && days[2..3] == "T" && days[3..] == ClockText(i)
  {
    LongEnough(i);
    var days := Padded(i.day, 2) + ("T" + ClockText(i));
    var months := Padded(i.month, 2) + ("-" + days);
    assert Iso(i) == Padded(i.year, 4) + ("-" + months) by { hide Padded, ClockText, Valid; }
    DateFields(i);
    hide *;
    FieldReads(i.year, 4); FieldReads(i.month, 2); FieldReads(i.day, 2);
    CutBehind(Iso(i), Padded(i.year, 4), "-", months, 4);
    CutBehind(months, Padded(i.month, 2), "-", days, 2);
    CutBehind(days, Padded(i.day, 2), "T", ClockText(i), 2);
  }

  /** A field decides the order; where it is equal, what follows does. */
  lemma {:induction false} FieldDecides(a: nat, b: nat, width: nat, r: string, s: string)
    requires FitsIn(a, width) && FitsIn(b, width)
    ensures Less(Padded(a, width) + r, Padded(b, width) + s) <==> a < b || (a == b && Less(r, s))
  {
    if width == 0 {
      assert Padded(a, 0) + r == r && Padded(b, 0) + s == s;
    } else {
      var x, y := DigitChar(a % 10), DigitChar(b % 10);
      assert Padded(a, width) + r == Padded(a / 10, width - 1) + ([x] + r);
      assert Padded(b, width) + s == Padded(b / 10, width - 1) + ([y] + s);
      FieldDecides(a / 10, b / 10, width - 1, [x] + r, [y] + s);
      assert ([x] + r)[1..] == r && ([y] + s)[1..] == s;
      assert Less([x] + r, [y] + s) <==> a % 10 < b % 10 || (a % 10 == b % 10 && Less(r, s));
    }
  }

  lemma TailsInOrder(a: nat, b: nat)
    requires a < 1000000 && b < 1000000
    ensures Less(Fraction(a) + "+00:00", Fraction(b) + "+00:00") <==> a < b
  {
    FitsSix(a);
    FitsSix(b);
    NotLessThanItself("+00:00");
    if a > 0 && b > 0 {
      assert Fraction(a) + "+00:00" == "." + (Padded(a, 6) + "+00:00");
      assert Fraction(b) + "+00:00" == "." + (Padded(b, 6) + "+00:00");
      LessAfterPrefix(".", Padded(a, 6) + "+00:00", Padded(b, 6) + "+00:00");
      FieldDecides(a, b, 6, "+00:00", "+00:00");
      hide Less, Padded, FitsIn;
    } else if a > 0 {
      assert (Fraction(a) + "+00:00")[0] == '.';
      assert Fraction(b) + "+00:00" == "+00:00";
      hide Padded, FitsIn;
    } else if b > 0 {
      assert (Fraction(b) + "+00:00")[0] == '.';
      assert Fraction(a) + "+00:00" == "+00:00";
      hide Padded, FitsIn;
    } else {
      assert Fraction(a) + "+00:00" == Fraction(b) + "+00:00" == "+00:00";
      hide Padded, FitsIn, Less;
    }
  }

  lemma NotLessThanItself(s: string)
    ensures !Less(s, s)
  {
    if Less(s, s) { LessIsStrict(s, s); }
  }

  lemma FitsTwo(n: nat)
    requires n < 100
    ensures FitsIn(n, 2)
  {
    assert FitsIn(n / 10 / 10, 0);
  }

  lemma FitsFour(n: nat)
    requires n < 10000
    ensures FitsIn(n, 4)
  {
    FitsTwo(n / 100);
    assert n / 10 / 10 == n / 100;
    assert FitsIn(n / 10, 3);
  }

  lemma FitsSix(n: nat)
    requires n < 1000000
    ensures FitsIn(n, 6)
  {
    FitsFour(n / 100);
    assert n / 10 / 10 == n / 100;
    assert FitsIn(n / 10, 5);
  }

  lemma ClocksInOrder(a: Instant, b: Instant)
    requires Valid(a) && Valid(b)
    ensures Less(ClockText(a), ClockText(b)) <==> TimeBefore(a, b)
  {
    var ta, tb := Fraction(a.micro) + "+00:00", Fraction(b.micro) + "+00:00";
    TailsInOrder(a.micro, b.micro);
    FitsTwo(a.hour); FitsTwo(a.minute); FitsTwo(a.second);
    FitsTwo(b.hour); FitsTwo(b.minute); FitsTwo(b.second);
    var sa, sb := Padded(a.second, 2) + ta, Padded(b.second, 2) + tb;
    var ma, mb := Padded(a.minute, 2) + (":" + sa), Padded(b.minute, 2) + (":" + sb);
    hide Less, Padded, FitsIn, Fraction, DaysIn;
    FieldDecides(a.second, b.second, 2, ta, tb);
    LessAfterPrefix(":", sa, sb);
    FieldDecides(a.minute, b.minute, 2, ":" + sa, ":" + sb);
    LessAfterPrefix(":", ma, mb);
    FieldDecides(a.hour, b.hour, 2, ":" + ma, ":" + mb);
  }

  /** Comparing two instants as text is comparing them as times, with or without microseconds. */
  lemma TextOrderIsTimeOrder(a: Instant, b: Instant)
    requires Valid(a) && Valid(b)
    ensures Less(Iso(a), Iso(b)) <==> Micros(a) < Micros(b)
  {
    FitsFour(a.year); FitsTwo(a.month); FitsTwo(a.day);
    FitsFour(b.year); FitsTwo(b.month); FitsTwo(b.day);
    ClocksInOrder(a, b);
    BeforeIsEarlier(a, b);
    var ca, cb := ClockText(a), ClockText(b);
    var da, db := Padded(a.day, 2) + ("T" + ca), Padded(b.day, 2) + ("T" + cb);
    var ma, mb := Padded(a.month, 2) + ("-" + da), Padded(b.month, 2) + ("-" + db);
    hide Less, Padded, FitsIn, ClockText, DaysIn, Micros, TimeBefore;
    LessAfterPrefix("T", ca, cb);
    FieldDecides(a.day, b.day, 2, "T" + ca, "T" + cb);
    LessAfterPrefix("-", da, db);
    FieldDecides(a.month, b.month, 2, "-" + da, "-" + db);
    LessAfterPrefix("-", ma, mb);
    FieldDecides(a.year, b.year, 4, "-" + ma, "-" + mb);
  }

  // ---------- Leases ----------

  /** A lease without an expiry, or with an empty one, is not active. */
  predicate Active(expiresAt: Option<string>, now: string) {
    expiresAt.Some? && expiresAt.value != "" && Less(now, expiresAt.value)
  }

  function TtlMicros(ttlSeconds: int): int { 1000000 * MaxInt(5, ttlSeconds) }

  /**
   * A lease taken at one instant is active at another exactly until its time to live, of at least five
   * seconds, has passed.
   */
  lemma ActiveUntilExpiry(taken: Instant, expiry: Instant, now: Instant, ttlSeconds: int)
    requires Valid(taken) && Valid(expiry) && Valid(now)
    requires Micros(expiry) == Micros(taken) + TtlMicros(ttlSeconds)
    ensures Active(Some(Iso(expiry)), Iso(now)) <==> Micros(now) < Micros(taken) + TtlMicros(ttlSeconds)
    ensures Micros(now) < Micros(taken) + 5000000 ==> Active(Some(Iso(expiry)), Iso(now))
  {
    TextOrderIsTimeOrder(now, expiry);
    assert Iso(expiry) != "" by { hide Padded; }
    hide Iso, Micros, Less;
  }
}
