/**
 US Eastern time without a time-zone database: the offset by the daylight saving rules in force
 since 2007, civil dates of instants and the instants of midnights.
 */
module EasternTime {
  import opened Calendar

  /** The UTC day of an instant in seconds, before the epoch too. */
  function DayOf(s: int): int {
    if s >= 0 then Quot(s, 86400) else Quot(s - 86399, 86400)
  }

  function FirstSunday(first: int): int {
    first + Rem(7 - WeekdayFromDays(first), 7)
  }

  function SpringDay(y: int): int {
    FirstSunday(DaysFromCivil(y, 3, 1)) + 7
  }

  function FallDay(y: int): int {
    FirstSunday(DaysFromCivil(y, 11, 1))
  }

  /** From 02:00 EST on the spring day to 02:00 EDT on the fall day. */
  predicate Daylight(s: int, spring: int, fall: int) {
    spring * 86400 + 7 * 3600 <= s < fall * 86400 + 6 * 3600
  }

  /** Seconds east of Greenwich at an instant. */
  function Offset(s: int): int {
    var y := CivilFromDays(DayOf(s)).y;
    if Daylight(s, SpringDay(y), FallDay(y)) then -4 * 3600 else -5 * 3600
  }

  function Ns(s: int): int {
    s * 1_000_000_000
  }

  function Seconds(ns: int): int {
    Quot(ns, 1_000_000_000)
  }

  /** 05:00 UTC, whose offset decides where the day starts. */
  function Probe(days: int): int {
    days * 86400 + 5 * 3600
  }

  function Midnight(days: int): int {
    days * 86400 - Offset(Probe(days))
  }

  function MidnightNs(t: Date): int
    requires IsDate(t)
  {
    Ns(Midnight(DayNumber(t)))
  }

  /** The local clock, in seconds since the local epoch. */
  function Local(s: int): int {
    s + Offset(s)
  }

  function EasternDate(ns: int): Date {
    CivilFromDays(DayOf(Local(Seconds(ns))))
  }

  function ClockMinute(local: int): int {
    var r := Rem(local, 86400);
    Quot(if r < 0 then r + 86400 else r, 60)
  }

  function MinuteOfDay(ns: int): int {
    ClockMinute(Local(Seconds(ns)))
  }

  // ---- the change days ----

  lemma {:induction false} FirstSundayIs(first: int)
    ensures first <= FirstSunday(first) < first + 7 && WeekdayFromDays(FirstSunday(first)) == 0
  {
    WeekdayIs(first);
    WeekdayIs(FirstSunday(first));
    hide WeekdayFromDays;
  }

  /** One Sunday a week. */
  lemma {:induction false} SundaysApart(first: int, day: int)
    requires first <= day < first + 7 && WeekdayFromDays(day) == 0
    ensures day == FirstSunday(first)
  {
    FirstSundayIs(first);
    WeekdayIs(FirstSunday(first));
    WeekdayIs(day);
    hide WeekdayFromDays, FirstSunday;
  }

  lemma {:induction false} DayInMonth(t: Date)
    requires IsDate(t)
    ensures DayNumber(t) == DaysFromCivil(t.y, t.m, 1) + t.d - 1
  {
  }

  lemma {:induction false} SevenDaysOn(z: int)
    ensures WeekdayFromDays(z + 7) == WeekdayFromDays(z)
  {
    WeekdayIs(z);
    WeekdayIs(z + 7);
    hide WeekdayFromDays;
  }

  lemma {:induction false} DatesInMonth(t: Date, m: int, from: int, upTo: int)
    requires IsDate(t) && 1 <= m <= 12 && 1 <= from && upTo <= 28
    requires DaysFromCivil(t.y, m, 1) + from - 1 <= DayNumber(t) < DaysFromCivil(t.y, m, 1) + upTo
    ensures t.m == m && from <= t.d <= upTo
  {
    var d := DayNumber(t) - DaysFromCivil(t.y, m, 1) + 1;
    var u := Date(t.y, m, d);
    hide DaysFromCivil, CivilFromDays, DayNumber;
    DayInMonth(u);
    CivilOfDays(t);
    CivilOfDays(u);
  }

  /** Daylight time starts on the second Sunday of March and on no other date of the year. */
  lemma {:induction false} SpringIsSecondSunday(t: Date)
    requires IsDate(t)
    ensures DayNumber(t) == SpringDay(t.y) <==> t.m == 3 && 8 <= t.d <= 14 && WeekdayFromDays(DayNumber(t)) == 0
  {
    hide DayNumber, DaysFromCivil, WeekdayFromDays, FirstSunday;
    var first := DaysFromCivil(t.y, 3, 1);
    FirstSundayIs(first);
    SevenDaysOn(FirstSunday(first));
    DayInMonth(t);
    if DayNumber(t) == SpringDay(t.y) {
      DatesInMonth(t, 3, 8, 14);
    }
    if t.m == 3 && 8 <= t.d <= 14 && WeekdayFromDays(DayNumber(t)) == 0 {
      SevenDaysOn(DayNumber(t) - 7);
      SundaysApart(first, DayNumber(t) - 7);
    }
  }

  /** It ends on the first Sunday of November. */
  lemma {:induction false} FallIsFirstSunday(t: Date)
    requires IsDate(t)
    ensures DayNumber(t) == FallDay(t.y) <==> t.m == 11 && 1 <= t.d <= 7 && WeekdayFromDays(DayNumber(t)) == 0
  {
    hide DayNumber, DaysFromCivil, WeekdayFromDays, FirstSunday;
    var first := DaysFromCivil(t.y, 11, 1);
    FirstSundayIs(first);
    DayInMonth(t);
    if DayNumber(t) == FallDay(t.y) {
      DatesInMonth(t, 11, 1, 7);
    }
    if t.m == 11 && 1 <= t.d <= 7 && WeekdayFromDays(DayNumber(t)) == 0 {
      SundaysApart(first, DayNumber(t));
    }
  }

  // ---- days and midnights ----

  lemma {:induction false} DayOfIsFloor(s: int)
    ensures DayOf(s) * 86400 <= s < (DayOf(s) + 1) * 86400
  {
  }

  lemma {:induction false} DayOfIs(s: int, n: int)
    requires n * 86400 <= s < (n + 1) * 86400
    ensures DayOf(s) == n
  {
    DayOfIsFloor(s);
    hide DayOf;
  }

  /** A change later in the day than both possible midnights comes before them only on an earlier day. */
  lemma {:induction false} ChangeBefore(day: int, n: int, s: int, offset: int)
    requires n * 86400 + 4 * 3600 <= s <= n * 86400 + 5 * 3600 && 5 * 3600 < offset < 86400
    ensures day * 86400 + offset <= s <==> day < n
  {
  }

  lemma {:induction false} DaylightIs(n: int, s: int, spring: int, fall: int)
    requires n * 86400 + 4 * 3600 <= s <= Probe(n)
    ensures Daylight(s, spring, fall) == Daylight(Probe(n), spring, fall)
  {
    ChangeBefore(spring, n, s, 7 * 3600);
    ChangeBefore(fall, n, s, 6 * 3600);
    ChangeBefore(spring, n, Probe(n), 7 * 3600);
    ChangeBefore(fall, n, Probe(n), 6 * 3600);
  }

  /** The clocks never change between the two instants that may be midnight. */
  lemma {:induction false} SameOffset(n: int, s: int)
    requires n * 86400 + 4 * 3600 <= s <= Probe(n)
    ensures Offset(s) == Offset(Probe(n))
  {
    DayOfIs(s, n);
    DayOfIs(Probe(n), n);
    hide DayOf, SpringDay, FallDay, CivilFromDays, Daylight, Probe;
    var y := CivilFromDays(n).y;
    DaylightIs(n, s, SpringDay(y), FallDay(y));
  }

  lemma {:induction false} OffsetIs(s: int)
    ensures Offset(s) == -4 * 3600 || Offset(s) == -5 * 3600
  {
  }

  /** The local clock has reached day `n` exactly from that day's midnight on. */
  lemma {:induction false} LocalDay(s: int, n: int)
    ensures Local(s) >= n * 86400 <==> s >= Midnight(n)
  {
    OffsetIs(s);
    OffsetIs(Probe(n));
    hide Offset;
    if n * 86400 + 4 * 3600 <= s <= Probe(n) {
      SameOffset(n, s);
    }
  }

  /** A whole second belongs to the date whose midnight it follows. */
  lemma {:induction false} DateOfSecond(s: int, t: Date)
    requires IsDate(t)
    ensures CivilFromDays(DayOf(Local(s))) == t <==> Midnight(DayNumber(t)) <= s < Midnight(DayNumber(t) + 1)
  {
    hide Midnight, Local, DayNumber, CivilFromDays, DayOf;
    LocalDay(s, DayNumber(t));
    LocalDay(s, DayNumber(t) + 1);
    CivilOfDays(t);
    DaysOfCivil(DayOf(Local(s)));
    DayOfExactly(Local(s), DayNumber(t));
  }

  lemma {:induction false} DayOfExactly(s: int, n: int)
    ensures DayOf(s) == n <==> n * 86400 <= s < (n + 1) * 86400
  {
    DayOfIsFloor(s);
    hide DayOf;
  }

  lemma {:induction false} SecondOf(ns: int)
    ensures if ns >= 0 then Ns(Seconds(ns)) <= ns < Ns(Seconds(ns) + 1) else Ns(Seconds(ns) - 1) < ns <= Ns(Seconds(ns))
  {
  }

  lemma {:induction false} WholeSeconds(s: int, a: int, b: int, ns: int)
    requires Ns(a) <= ns < Ns(b)
    requires if ns >= 0 then Ns(s) <= ns < Ns(s + 1) else Ns(s - 1) < ns <= Ns(s)
    ensures a <= s < b <==> !(ns < 0 && Ns(b) - 1_000_000_000 < ns)
  {
  }

  lemma {:induction false} WholeSecond(s: int)
    ensures Seconds(Ns(s)) == s
  {
  }

  /**
   Every instant within the day of a date has that date, except within the last second before a
   midnight that is not after the epoch: there the truncating division rounds up into the next day.
   */
  lemma {:induction false} DateOfInstant(ns: int, t: Date)
    requires IsDate(t) && MidnightNs(t) <= ns < MidnightNs(Tomorrow(t))
    ensures EasternDate(ns) == t <==> !(ns < 0 && MidnightNs(Tomorrow(t)) - 1_000_000_000 < ns)
  {
    DaysCount(t);
    hide Midnight, DayNumber, Seconds, Local, CivilFromDays, DayOf, IsDate, Tomorrow, Ns;
    SecondOf(ns);
    DateOfSecond(Seconds(ns), t);
    WholeSeconds(Seconds(ns), Midnight(DayNumber(t)), Midnight(DayNumber(t) + 1), ns);
  }

  /** The midnight of a date has that date and minute 0, on the change days too. */
  lemma {:induction false} MidnightRoundTrip(t: Date)
    requires IsDate(t)
    ensures EasternDate(MidnightNs(t)) == t && MinuteOfDay(MidnightNs(t)) == 0
  {
    hide DayNumber, CivilFromDays, DayOf, IsDate, Midnight, Local, Ns, Seconds, ClockMinute;
    WholeSecond(Midnight(DayNumber(t)));
    LocalMidnight(DayNumber(t));
    CivilOfDays(t);
  }

  lemma {:induction false} LocalMidnight(n: int)
    ensures Local(Midnight(n)) == n * 86400 && DayOf(n * 86400) == n && ClockMinute(n * 86400) == 0
    ensures Offset(Midnight(n)) == Offset(Probe(n))
  {
    OffsetIs(Probe(n));
    DayOfExactly(n * 86400, n);
    WholeDay(n);
    hide Offset, DayOf, ClockMinute;
    SameOffset(n, Midnight(n));
  }

  lemma {:induction false} WholeDay(n: int)
    ensures ClockMinute(n * 86400) == 0
  {
    ClockIs(n * 86400, n);
    hide ClockMinute;
  }

  lemma {:induction false} ClockIs(local: int, n: int)
    requires n * 86400 <= local < (n + 1) * 86400
    ensures 0 <= ClockMinute(local) < 1440 && 0 <= local - n * 86400 - ClockMinute(local) * 60 < 60
  {
    RemIs(local, n);
    hide Rem;
    MinuteIs(local - n * 86400);
  }

  lemma {:induction false} RemIs(local: int, n: int)
    requires n * 86400 <= local < (n + 1) * 86400
    ensures var r := Rem(local, 86400); (if r < 0 then r + 86400 else r) == local - n * 86400
  {
  }

  lemma {:induction false} MinuteIs(x: int)
    requires 0 <= x < 86400
    ensures var q := Quot(x, 60); 0 <= q < 1440 && 0 <= x - q * 60 < 60
  {
  }

  /** The minute of the day is what is left of the local clock after its date. */
  lemma {:induction false} ClockReads(ns: int)
    ensures IsDate(EasternDate(ns)) && 0 <= MinuteOfDay(ns) < 1440
    ensures 0 <= Local(Seconds(ns)) - DayNumber(EasternDate(ns)) * 86400 - MinuteOfDay(ns) * 60 < 60
  {
    hide Local, CivilFromDays, DayNumber, IsDate, DayOf, Seconds, ClockMinute;
    var local := Local(Seconds(ns));
    DaysOfCivil(DayOf(local));
    DayOfIsFloor(local);
    ClockIs(local, DayOf(local));
  }

  /** Clock time is time since midnight, off by the hour exactly when the clocks have changed since. */
  lemma {:induction false} SinceMidnight(ns: int)
    ensures IsDate(EasternDate(ns))
    ensures var s, midnight := Seconds(ns), Midnight(DayNumber(EasternDate(ns)));
            0 <= (s - midnight) + (Offset(s) - Offset(midnight)) - MinuteOfDay(ns) * 60 < 60
  {
    ClockReads(ns);
    hide Offset, DayNumber, EasternDate, MinuteOfDay, Seconds, IsDate, Probe;
    LocalMidnight(DayNumber(EasternDate(ns)));
  }

  lemma {:induction false} SecondsAdvance(a: int, b: int)
    requires a <= b
    ensures Seconds(a) <= Seconds(b)
  {
  }

  /** Eastern dates never go back, although the clocks do. */
  lemma {:induction false} DatesAdvance(a: int, b: int)
    requires a <= b
    ensures IsDate(EasternDate(a)) && IsDate(EasternDate(b)) && DayNumber(EasternDate(a)) <= DayNumber(EasternDate(b))
  {
    hide IsDate, DayNumber, CivilFromDays, DayOf, Local, Midnight, Seconds;
    SecondsAdvance(a, b);
    var n, m := DayOf(Local(Seconds(a))), DayOf(Local(Seconds(b)));
    DaysOfCivil(n);
    DaysOfCivil(m);
    DayOfIsFloor(Local(Seconds(a)));
    DayOfIsFloor(Local(Seconds(b)));
    LocalDay(Seconds(a), n);
    LocalDay(Seconds(b), n);
  }

  /** One nanosecond before the midnight of a date before 1970, the date is there already. */
  lemma {:induction false} SlipsBefore(t: Date)
    requires IsDate(t) && DayNumber(t) < 0
    ensures EasternDate(MidnightNs(t) - 1) == t
  {
    hide IsDate, DayNumber, CivilFromDays, DayOf, Local, Midnight, Ns, Seconds;
    var n := DayNumber(t);
    MidnightBeforeEpoch(n);
    RoundsUp(Midnight(n));
    LocalMidnight(n);
    CivilOfDays(t);
  }

  lemma {:induction false} MidnightBeforeEpoch(n: int)
    requires n < 0
    ensures Midnight(n) < 0
  {
    OffsetIs(Probe(n));
    hide Offset;
  }

  lemma {:induction false} RoundsUp(s: int)
    requires s < 0
    ensures Seconds(Ns(s) - 1) == s
  {
  }

  /** For example at the end of 30 December 1969. */
  lemma {:induction false} LastNanosecond()
    ensures var eve, t := Date(1969, 12, 30), Date(1969, 12, 31);
            && IsDate(eve) && IsDate(t) && t == Tomorrow(eve)
            && MidnightNs(eve) <= MidnightNs(t) - 1 < MidnightNs(t) && EasternDate(MidnightNs(t) - 1) == t
  {
    var eve, t := Date(1969, 12, 30), Date(1969, 12, 31);
    assert DayNumber(eve) == -2 && DayNumber(t) == -1;
    OffsetIs(Probe(-2));
    OffsetIs(Probe(-1));
    hide DayNumber, EasternDate, Offset;
    SlipsBefore(t);
  }

  // ---- the wall clock, year by year ----

  ghost predicate IsSecondSundayOfMarch(t: Date) {
    IsDate(t) && t.m == 3 && 8 <= t.d <= 14 && WeekdayFromDays(DayNumber(t)) == 0
  }

  ghost predicate IsFirstSundayOfNovember(t: Date) {
    IsDate(t) && t.m == 11 && 1 <= t.d <= 7 && WeekdayFromDays(DayNumber(t)) == 0
  }

  /** The changes of one year. */
  ghost predicate AreChanges(spring: Date, fall: Date) {
    IsSecondSundayOfMarch(spring) && IsFirstSundayOfNovember(fall) && spring.y == fall.y
  }

  /** Hours behind Greenwich: 4 from 07:00 UTC of the spring date to 06:00 UTC of the fall date, otherwise 5. */
  ghost function HoursBehind(s: int, spring: Date, fall: Date): int
    requires AreChanges(spring, fall)
  {
    if DayNumber(spring) * 86400 + 7 * 3600 <= s < DayNumber(fall) * 86400 + 6 * 3600 then 4 else 5
  }

  lemma {:induction false} OffsetInYear(s: int, u: Date, spring: Date, fall: Date)
    requires IsDate(u) && DayNumber(u) * 86400 <= s < (DayNumber(u) + 1) * 86400
    requires AreChanges(spring, fall) && u.y == spring.y
    ensures Offset(s) == -HoursBehind(s, spring, fall) * 3600
  {
    SpringIsSecondSunday(spring);
    FallIsFirstSunday(fall);
    CivilOfDays(u);
    DayOfIs(s, DayNumber(u));
    hide DayNumber, CivilFromDays, SpringDay, FallDay, WeekdayFromDays, DayOf;
  }

  /**
   Date and minute are those of the clock that is 4 or 5 hours behind Greenwich, for every second
   of every UTC date `u` of the year.
   */
  lemma {:induction false} WallClock(s: int, u: Date, spring: Date, fall: Date)
    requires IsDate(u) && DayNumber(u) * 86400 <= s < (DayNumber(u) + 1) * 86400
    requires AreChanges(spring, fall) && u.y == spring.y
    ensures var local, ns := s - HoursBehind(s, spring, fall) * 3600, s * 1_000_000_000;
            && IsDate(EasternDate(ns)) && 0 <= MinuteOfDay(ns) < 1440
            && 0 <= local - DayNumber(EasternDate(ns)) * 86400 - MinuteOfDay(ns) * 60 < 60
  {
    OffsetInYear(s, u, spring, fall);
    WholeSecond(s);
    ClockReads(s * 1_000_000_000);
    hide DayNumber, EasternDate, MinuteOfDay, Offset, AreChanges, HoursBehind, Seconds;
  }

  /** The clock shows `t`, hour `h`, minute `m` and second `sec`; seconds are the same in every zone. */
  ghost predicate Shows(s: int, t: Date, h: int, m: int, sec: int) {
    EasternDate(s * 1_000_000_000) == t && MinuteOfDay(s * 1_000_000_000) == h * 60 + m && s % 60 == sec
  }

  lemma {:induction false} ShowsAt(s: int, t: Date, spring: Date, fall: Date, h: int, m: int, sec: int)
    requires IsDate(t) && AreChanges(spring, fall) && t.y == spring.y
    requires DayNumber(t) * 86400 <= s < (DayNumber(t) + 1) * 86400
    requires 0 <= h < 24 && 0 <= m < 60 && 0 <= sec < 60
    requires s - HoursBehind(s, spring, fall) * 3600 == DayNumber(t) * 86400 + h * 3600 + m * 60 + sec
    ensures Shows(s, t, h, m, sec)
  {
    hide EasternDate, MinuteOfDay, HoursBehind, AreChanges, DayNumber;
    WallClock(s, t, spring, fall);
    var u := EasternDate(s * 1_000_000_000);
    DaySplit(DayNumber(u), MinuteOfDay(s * 1_000_000_000), DayNumber(t), h * 60 + m,
             s - HoursBehind(s, spring, fall) * 3600);
    SecondSplit(s, HoursBehind(s, spring, fall), DayNumber(t), h, m, sec);
    CivilOfDays(u);
    CivilOfDays(t);
  }

  lemma {:induction false} DaySplit(a: int, x: int, b: int, y: int, local: int)
    requires 0 <= x < 1440 && 0 <= y < 1440
    requires 0 <= local - a * 86400 - x * 60 < 60 && 0 <= local - b * 86400 - y * 60 < 60
    ensures a == b && x == y
  {
  }

  lemma {:induction false} SecondSplit(s: int, behind: int, day: int, h: int, m: int, sec: int)
    requires 0 <= sec < 60 && s - behind * 3600 == day * 86400 + h * 3600 + m * 60 + sec
    ensures s % 60 == sec
  {
    assert s == 60 * (behind * 60 + day * 1440 + h * 60 + m) + sec;
  }

  /** Every year has them. */
  lemma {:induction false} EveryYearChanges(y: int) returns (spring: Date, fall: Date)
    ensures AreChanges(spring, fall) && spring.y == y
  {
    var march, november := DaysFromCivil(y, 3, 1), DaysFromCivil(y, 11, 1);
    FirstSundayIs(march);
    FirstSundayIs(november);
    SevenDaysOn(FirstSunday(march));
    spring := Date(y, 3, SpringDay(y) - march + 1);
    fall := Date(y, 11, FallDay(y) - november + 1);
    hide DaysFromCivil, WeekdayFromDays, FirstSunday;
    DayInMonth(spring);
    DayInMonth(fall);
  }

  lemma {:induction false} ChangesApart(spring: Date, fall: Date)
    requires AreChanges(spring, fall)
    ensures DayNumber(spring) < DayNumber(fall)
  {
    DaysIncrease(spring, fall);
  }

  /** On the second Sunday of March 01:59:59 is followed by 03:00:00, in every year. */
  lemma {:induction false} SpringForward(spring: Date, fall: Date)
    requires AreChanges(spring, fall)
    ensures var change := DayNumber(spring) * 86400 + 7 * 3600;
            Shows(change - 1, spring, 1, 59, 59) && Shows(change, spring, 3, 0, 0)
  {
    hide DayNumber, WeekdayFromDays, Shows;
    ChangesApart(spring, fall);
    var change := DayNumber(spring) * 86400 + 7 * 3600;
    ShowsAt(change - 1, spring, spring, fall, 1, 59, 59);
    ShowsAt(change, spring, spring, fall, 3, 0, 0);
  }

  /** On the first Sunday of November 01:59:59 is followed by 01:00:00. */
  lemma {:induction false} FallBack(spring: Date, fall: Date)
    requires AreChanges(spring, fall)
    ensures var change := DayNumber(fall) * 86400 + 6 * 3600;
            Shows(change - 1, fall, 1, 59, 59) && Shows(change, fall, 1, 0, 0)
  {
    hide DayNumber, WeekdayFromDays, Shows;
    ChangesApart(spring, fall);
    var change := DayNumber(fall) * 86400 + 6 * 3600;
    ShowsAt(change - 1, fall, spring, fall, 1, 59, 59);
    ShowsAt(change, fall, spring, fall, 1, 0, 0);
  }

  /**
   A date's midnight comes 5 hours after that of Greenwich up to and including the spring date and
   after the fall date, 4 hours after it in between.
   */
  lemma {:induction false} MidnightsOfYear(t: Date, spring: Date, fall: Date)
    requires IsDate(t) && AreChanges(spring, fall) && t.y == spring.y
    ensures MidnightNs(t) ==
            (DayNumber(t) * 86400 + (if DayNumber(spring) < DayNumber(t) <= DayNumber(fall) then 4 else 5) * 3600)
            * 1_000_000_000
  {
    hide DayNumber, WeekdayFromDays, Offset;
    OffsetInYear(Probe(DayNumber(t)), t, spring, fall);
    ChangeBefore(DayNumber(spring), DayNumber(t), Probe(DayNumber(t)), 7 * 3600);
    ChangeBefore(DayNumber(fall), DayNumber(t), Probe(DayNumber(t)), 6 * 3600);
  }
}
