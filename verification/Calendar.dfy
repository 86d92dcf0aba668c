/**
 Calendar arithmetic without a time-zone database: the proleptic Gregorian calendar as day
 numbers, and US Eastern time by the rules in force since 2007.
 */
module Calendar {

  datatype Date = Date(y: int, m: int, d: int)

  /** C++ integer division, truncating toward zero. */
  function Quot(a: int, b: int): int
    requires b > 0
  {
    if a >= 0 then a / b else -(-a / b)
  }

  function Rem(a: int, b: int): int
    requires b > 0
  {
    a - Quot(a, b) * b
  }

  function DaysFromCivil(y0: int, m: int, d: int): int
    requires 1 <= m <= 12 && 1 <= d
  {
    var y := if m <= 2 then y0 - 1 else y0;
    var era := Quot(if y >= 0 then y else y - 399, 400);
    var yoe := y - era * 400;
    var doy := Quot(153 * (if m > 2 then m - 3 else m + 9) + 2, 5) + d - 1;
    var doe := yoe * 365 + Quot(yoe, 4) - Quot(yoe, 100) + doy;
    era * 146097 + doe - 719468
  }

  /** The year of the era from the day of the era, by the leap days before it. */
  function YearOfEra(doe: int): int {
    Quot(doe - Quot(doe, 1460) + Quot(doe, 36524) - Quot(doe, 146096), 365)
  }

  function DayOfYear(doe: int, yoe: int): int {
    doe - (365 * yoe + Quot(yoe, 4) - Quot(yoe, 100))
  }

  function MonthOfYear(doy: int): int {
    Quot(5 * doy + 2, 153)
  }

  function DayOfMonth(doy: int, mp: int): int {
    doy - Quot(153 * mp + 2, 5) + 1
  }

  function EraOfDay(z: int): int {
    Quot(if z >= 0 then z else z - 146096, 146097)
  }

  function CivilFromDays(z0: int): Date {
    var z := z0 + 719468;
    var era := EraOfDay(z);
    var doe := z - era * 146097;
    var yoe := YearOfEra(doe);
    var yy := yoe + era * 400;
    var doy := DayOfYear(doe, yoe);
    var mp := MonthOfYear(doy);
    var m := if mp < 10 then mp + 3 else mp - 9;
    Date(if m <= 2 then yy + 1 else yy, m, DayOfMonth(doy, mp))
  }

  /** 0 is Sunday. */
  function WeekdayFromDays(z: int): int {
    if z >= -4 then Rem(z + 4, 7) else Rem(z + 5, 7) + 6
  }

  // ---- the Gregorian calendar itself ----

  predicate Leap(y: int) {
    y % 4 == 0 && (y % 100 != 0 || y % 400 == 0)
  }

  function MonthLength(y: int, m: int): int {
    if m == 2 then (if Leap(y) then 29 else 28)
    else if m == 4 || m == 6 || m == 9 || m == 11 then 30
    else 31
  }

  predicate IsDate(t: Date) {
    1 <= t.m <= 12 && 1 <= t.d <= MonthLength(t.y, t.m)
  }

  function Tomorrow(t: Date): (n: Date)
    requires IsDate(t)
    ensures IsDate(n)
  {
    if t.d < MonthLength(t.y, t.m) then Date(t.y, t.m, t.d + 1)
    else if t.m < 12 then Date(t.y, t.m + 1, 1)
    else Date(t.y + 1, 1, 1)
  }

  predicate Before(a: Date, b: Date) {
    a.y < b.y || (a.y == b.y && (a.m < b.m || (a.m == b.m && a.d < b.d)))
  }

  function DayNumber(t: Date): int
    requires IsDate(t)
  {
    DaysFromCivil(t.y, t.m, t.d)
  }

  // ---- eras of 400 years, years that start in March ----

  /** Years since 1 March of year 0, in eras of 400; the year ends with February. */
  function MarchYear(t: Date): int {
    if t.m <= 2 then t.y - 1 else t.y
  }

  /** The day of the era on which its year `yoe` starts. */
  function YearStart(yoe: int): int {
    yoe * 365 + yoe / 4 - yoe / 100 + (if yoe == 400 then 1 else 0)
  }

  /** The day of the year on which its month `mp` (March is 0) starts. */
  function MonthStart(mp: int): int {
    (153 * mp + 2) / 5
  }

  function MonthIndex(m: int): int {
    if m > 2 then m - 3 else m + 9
  }

  /** The adjusted truncating division is floor division. */
  lemma {:induction false} YearEra(y: int)
    ensures var q := Quot(if y >= 0 then y else y - 399, 400); q == y / 400 && y - q * 400 == y % 400
  {
  }

  lemma {:induction false} DayEra(z: int)
    ensures 0 <= z - EraOfDay(z) * 146097 < 146097
  {
  }

  /** A year of the era by centuries, leap cycles and years within the cycle. */
  predicate Parts(c: int, k: int, j: int) {
    0 <= c <= 3 && 0 <= k <= 24 && 0 <= j <= 3
  }

  /** The year's last day is day 364, or 365 when the February that ends it has 29 days. */
  predicate PartsDay(c: int, k: int, j: int, doy: int) {
    0 <= doy <= 364 || (doy == 365 && j == 3 && (k < 24 || c == 3))
  }

  lemma {:induction false} SplitDay(doe: int) returns (c: int, k: int, j: int, doy: int)
    requires 0 <= doe < 146097
    ensures Parts(c, k, j) && PartsDay(c, k, j, doy) && doe == 36524 * c + 1461 * k + 365 * j + doy
  {
    c := if doe / 36524 > 3 then 3 else doe / 36524;
    var r := doe - 36524 * c;
    k := if r / 1461 > 24 then 24 else r / 1461;
    var r' := r - 1461 * k;
    j := if r' / 365 > 3 then 3 else r' / 365;
    doy := r' - 365 * j;
  }

  lemma {:induction false} SplitYear(yoe: int) returns (c: int, k: int, j: int)
    requires 0 <= yoe < 400
    ensures Parts(c, k, j) && yoe == 100 * c + 4 * k + j
  {
    c, k, j := yoe / 100, yoe % 100 / 4, yoe % 4;
  }

  lemma {:induction false} YearStartIs(c: int, k: int, j: int)
    requires Parts(c, k, j)
    ensures YearStart(100 * c + 4 * k + j) == 36524 * c + 1461 * k + 365 * j
  {
    assert (100 * c + 4 * k + j) / 100 == c;
    assert (100 * c + 4 * k + j) / 4 == 25 * c + k;
  }

  /** The formula's corrections add up to the leap days before the day. */
  lemma {:induction false} YearFormula(c: int, k: int, j: int, doy: int)
    requires Parts(c, k, j) && PartsDay(c, k, j, doy)
    ensures var doe := 36524 * c + 1461 * k + 365 * j + doy;
            0 <= doe < 146097 && (doe - doe / 1460 + doe / 36524 - doe / 146096) / 365 == 100 * c + 4 * k + j
  {
    var doe := 36524 * c + 1461 * k + 365 * j + doy;
    var e := LeapCycles(c, k, j, doy);
    Centuries(c, k, j, doy);
    DivBy365(doe - doe / 1460 + doe / 36524 - doe / 146096, 100 * c + 4 * k + j, doy - e);
  }

  lemma {:induction false} DivBy365(a: int, q: int, r: int)
    requires a == 365 * q + r && 0 <= r < 365
    ensures a / 365 == q
  {
  }

  lemma {:induction false} LeapCycles(c: int, k: int, j: int, doy: int) returns (e: int)
    requires Parts(c, k, j) && PartsDay(c, k, j, doy)
    ensures (36524 * c + 1461 * k + 365 * j + doy) / 1460 == 25 * c + k + e && 0 <= e <= 1 && 0 <= doy - e <= 364
  {
    var r := 24 * c + k + 365 * j + doy;
    e := if r >= 1460 then 1 else 0;
    DivBy1460(36524 * c + 1461 * k + 365 * j + doy, 25 * c + k + e, r - 1460 * e);
  }

  lemma {:induction false} DivBy1460(a: int, q: int, r: int)
    requires a == 1460 * q + r && 0 <= r < 1460
    ensures a / 1460 == q
  {
  }

  lemma {:induction false} Centuries(c: int, k: int, j: int, doy: int)
    requires Parts(c, k, j) && PartsDay(c, k, j, doy)
    ensures var doe := 36524 * c + 1461 * k + 365 * j + doy;
            0 <= doe < 146097 && doe / 36524 - doe / 146096 == c
  {
    var r := 1461 * k + 365 * j + doy;
    assert r <= 36524 && (r == 36524 ==> c == 3);
  }

  lemma {:induction false} LeapIs(y: int, c: int, k: int, j: int)
    requires Parts(c, k, j) && y % 400 == 100 * c + 4 * k + j
    ensures Leap(y + 1) <==> j == 3 && (k < 24 || c == 3)
  {
    var era := y / 400;
    NextBy4(era, c, k, j);
    NextBy100(era, c, k, j);
    NextBy400(era, c, k, j);
  }

  lemma {:induction false} NextBy4(era: int, c: int, k: int, j: int)
    requires Parts(c, k, j)
    ensures (400 * era + (100 * c + 4 * k + j) + 1) % 4 == 0 <==> j == 3
  {
    assert 400 * era + (100 * c + 4 * k + j) + 1 == 4 * (100 * era + 25 * c + k) + j + 1;
  }

  lemma {:induction false} NextBy100(era: int, c: int, k: int, j: int)
    requires Parts(c, k, j)
    ensures (400 * era + (100 * c + 4 * k + j) + 1) % 100 == 0 <==> j == 3 && k == 24
  {
    assert 400 * era + (100 * c + 4 * k + j) + 1 == 100 * (4 * era + c) + 4 * k + j + 1;
  }

  lemma {:induction false} NextBy400(era: int, c: int, k: int, j: int)
    requires Parts(c, k, j)
    ensures (400 * era + (100 * c + 4 * k + j) + 1) % 400 == 0 <==> j == 3 && k == 24 && c == 3
  {
  }

  lemma {:induction false} MonthOfDay(doy: int)
    requires 0 <= doy < 366
    ensures var mp := (5 * doy + 2) / 153; 0 <= mp < 12 && MonthStart(mp) <= doy < MonthStart(mp + 1)
  {
  }

  lemma {:induction false} MonthLengths(y: int, m: int)
    requires 1 <= m <= 12
    ensures m != 2 ==> MonthStart(MonthIndex(m) + 1) - MonthStart(MonthIndex(m)) == MonthLength(y, m)
    ensures m == 2 ==> MonthStart(11) + MonthLength(y, 2) == if Leap(y) then 366 else 365
  {
  }

  // ---- the two conversions ----

  /** Where a day number falls: its era, year of the era, month of the year and day. */
  datatype Place = Place(era: int, yoe: int, mp: int, d: int)

  function DateAt(p: Place): Date {
    var m := if p.mp < 10 then p.mp + 3 else p.mp - 9;
    Date(p.era * 400 + p.yoe + (if m <= 2 then 1 else 0), m, p.d)
  }

  function DayAt(p: Place): int {
    p.era * 146097 + YearStart(p.yoe) + MonthStart(p.mp) + p.d - 1 - 719468
  }

  predicate IsPlace(p: Place) {
    0 <= p.yoe < 400 && 0 <= p.mp < 12 && IsDate(DateAt(p))
  }

  function PlaceOf(t: Date): Place {
    Place(MarchYear(t) / 400, MarchYear(t) % 400, MonthIndex(t.m), t.d)
  }

  lemma {:induction false} PlaceOfDate(t: Date)
    requires IsDate(t)
    ensures IsPlace(PlaceOf(t)) && DateAt(PlaceOf(t)) == t
  {
  }

  lemma {:induction false} PlaceIs(p: Place)
    requires IsPlace(p)
    ensures PlaceOf(DateAt(p)) == p
  {
  }

  lemma {:induction false} DaysIs(t: Date)
    requires IsDate(t)
    ensures DayNumber(t) == DayAt(PlaceOf(t))
  {
    YearEra(MarchYear(t));
  }

  lemma {:induction false} EraOf(era: int, yoe: int)
    requires 0 <= yoe < 400
    ensures (era * 400 + yoe) / 400 == era && (era * 400 + yoe) % 400 == yoe
  {
  }

  lemma {:induction false} YearIsFull(era: int, c: int, k: int, j: int)
    requires Parts(c, k, j)
    ensures MonthStart(11) + MonthLength(era * 400 + 100 * c + 4 * k + j + 1, 2) == if j == 3 && (k < 24 || c == 3) then 366 else 365
  {
    hide Leap;
    EraOf(era, 100 * c + 4 * k + j);
    LeapIs(era * 400 + 100 * c + 4 * k + j, c, k, j);
  }

  /** Day `doy` of the year is a date of it: its months are as long as the calendar says. */
  lemma {:induction false} MonthsFit(era: int, c: int, k: int, j: int, doy: int)
    requires Parts(c, k, j) && PartsDay(c, k, j, doy)
    ensures IsPlace(Place(era, 100 * c + 4 * k + j, MonthOfYear(doy), DayOfMonth(doy, MonthOfYear(doy))))
  {
    MonthOfDay(doy);
    MonthIs(doy);
    var mp := (5 * doy + 2) / 153;
    var p := Place(era, 100 * c + 4 * k + j, mp, doy - MonthStart(mp) + 1);
    var t := DateAt(p);
    MonthLengths(t.y, t.m);
    YearIsFull(era, c, k, j);
    hide Leap, MonthStart, MonthLength, MonthOfYear, DayOfMonth;
  }

  /** The date computed for a day number is a real one, and it is that day's. */
  lemma {:induction false} CivilIs(z: int) returns (p: Place)
    ensures IsPlace(p) && DateAt(p) == CivilFromDays(z) && DayAt(p) == z
  {
    hide *;
    var era := EraOfDay(z + 719468);
    var doe := z + 719468 - era * 146097;
    DayEra(z + 719468);
    var c, k, j, doy := SplitDay(doe);
    var mp := MonthOfYear(doy);
    p := Place(era, 100 * c + 4 * k + j, mp, DayOfMonth(doy, mp));
    MonthsFit(era, c, k, j, doy);
    YearFound(c, k, j, doy);
    PartsInRange(c, k, j, doy);
    MonthIs(doy);
    CivilUnfolds(z, p, doe, doy);
    DayUnfolds(z, p, c, k, j, doy);
  }

  lemma {:induction false} PartsInRange(c: int, k: int, j: int, doy: int)
    requires Parts(c, k, j) && PartsDay(c, k, j, doy)
    ensures 0 <= doy < 366 && 0 <= 100 * c + 4 * k + j < 400
  {
  }

  lemma {:induction false} YearFound(c: int, k: int, j: int, doy: int)
    requires Parts(c, k, j) && PartsDay(c, k, j, doy)
    ensures var doe, yoe := 36524 * c + 1461 * k + 365 * j + doy, 100 * c + 4 * k + j;
            YearOfEra(doe) == yoe && DayOfYear(doe, yoe) == doy
  {
    hide YearOfEra, DayOfYear, YearStart;
    var doe := 36524 * c + 1461 * k + 365 * j + doy;
    YearFormula(c, k, j, doy);
    YearIs(doe);
    YearStartIs(c, k, j);
    DayIs(doe, 100 * c + 4 * k + j);
  }

  lemma {:induction false} CivilUnfolds(z: int, p: Place, doe: int, doy: int)
    requires p.era == EraOfDay(z + 719468) && doe == z + 719468 - EraOfDay(z + 719468) * 146097
    requires p.yoe == YearOfEra(doe) && doy == DayOfYear(doe, p.yoe)
    requires p.mp == MonthOfYear(doy) && p.d == DayOfMonth(doy, p.mp)
    ensures CivilFromDays(z) == DateAt(p)
  {
    hide EraOfDay, YearOfEra, DayOfYear, MonthOfYear, DayOfMonth;
  }

  lemma {:induction false} DayUnfolds(z: int, p: Place, c: int, k: int, j: int, doy: int)
    requires Parts(c, k, j) && p.yoe == 100 * c + 4 * k + j && p.d == doy - MonthStart(p.mp) + 1
    requires z + 719468 == p.era * 146097 + 36524 * c + 1461 * k + 365 * j + doy
    ensures DayAt(p) == z
  {
    hide YearStart, MonthStart, Parts;
    YearStartIs(c, k, j);
  }

  lemma {:induction false} YearIs(doe: int)
    requires 0 <= doe < 146097
    ensures YearOfEra(doe) == (doe - doe / 1460 + doe / 36524 - doe / 146096) / 365
  {
  }

  lemma {:induction false} DayIs(doe: int, yoe: int)
    requires 0 <= yoe < 400
    ensures DayOfYear(doe, yoe) == doe - YearStart(yoe)
  {
  }

  lemma {:induction false} MonthIs(doy: int)
    requires 0 <= doy < 366
    ensures MonthOfYear(doy) == (5 * doy + 2) / 153
    ensures var mp := MonthOfYear(doy); DayOfMonth(doy, mp) == doy - MonthStart(mp) + 1
  {
  }

  // ---- order ----

  lemma {:induction false} YearsInOrder(a: int, b: int)
    requires 0 <= a < b <= 400
    ensures YearStart(a + 1) <= YearStart(b)
  {
  }

  lemma {:induction false} MonthsInOrder(a: int, b: int)
    requires 0 <= a < b <= 12
    ensures MonthStart(a + 1) <= MonthStart(b)
  {
  }

  lemma {:induction false} YearLength(era: int, yoe: int)
    requires 0 <= yoe < 400
    ensures YearStart(yoe + 1) - YearStart(yoe) == MonthStart(11) + MonthLength(era * 400 + yoe + 1, 2)
  {
    var c, k, j := SplitYear(yoe);
    YearStartIs(c, k, j);
    YearIsFull(era, c, k, j);
    if yoe < 399 {
      var c', k', j' := SplitYear(yoe + 1);
      YearStartIs(c', k', j');
      NextParts(c, k, j, c', k', j');
    }
    hide YearStart, MonthStart, MonthLength;
    LastYear();
  }

  lemma {:induction false} LastYear()
    ensures YearStart(400) - YearStart(399) == 366
  {
  }

  lemma {:induction false} NextParts(c: int, k: int, j: int, c': int, k': int, j': int)
    requires Parts(c, k, j) && Parts(c', k', j') && 100 * c' + 4 * k' + j' == 100 * c + 4 * k + j + 1
    ensures 36524 * c' + 1461 * k' + 365 * j' - (36524 * c + 1461 * k + 365 * j)
            == if j == 3 && (k < 24 || c == 3) then 366 else 365
  {
    if j < 3 {
      assert c' == c && k' == k && j' == j + 1;
    } else if k < 24 {
      assert c' == c && k' == k + 1 && j' == 0;
    } else {
      assert c' == c + 1 && k' == 0 && j' == 0;
    }
  }

  /** A date lies within its month and its year. */
  lemma {:induction false} PlaceInYear(p: Place)
    requires IsPlace(p)
    ensures 1 <= p.d
    ensures p.mp < 11 ==> MonthStart(p.mp) + p.d <= MonthStart(p.mp + 1)
    ensures YearStart(p.yoe) + MonthStart(p.mp) + p.d <= YearStart(p.yoe + 1)
  {
    YearLength(p.era, p.yoe);
    var t := DateAt(p);
    MonthLengths(t.y, t.m);
    hide YearStart, MonthStart, MonthLength;
    if p.mp < 11 {
      MonthsInOrder(p.mp, 11);
      MonthLengthBounds(p.era * 400 + p.yoe + 1);
    }
  }

  lemma {:induction false} MonthLengthBounds(y: int)
    ensures 28 <= MonthLength(y, 2) <= 29
  {
  }

  function Month(p: Place): int {
    (p.era * 400 + p.yoe) * 12 + p.mp
  }

  lemma {:induction false} PlacesInOrder(p: Place, q: Place)
    requires IsPlace(p) && IsPlace(q) && (Month(p) < Month(q) || (Month(p) == Month(q) && p.d < q.d))
    ensures DayAt(p) < DayAt(q)
  {
    hide YearStart, MonthStart, IsDate;
    PlaceInYear(p);
    PlaceInYear(q);
    YearsAreInEra(p.yoe);
    YearsAreInEra(q.yoe);
    MonthsAreInYear(q.mp);
    PlacesDiffer(p, q);
    if p.era == q.era && p.yoe == q.yoe {
      if p.mp < q.mp {
        MonthsInOrder(p.mp, q.mp);
      }
    } else if p.era == q.era {
      YearsInOrder(p.yoe, q.yoe);
    }
  }

  /** Which of the parts of two places decides. */
  lemma {:induction false} PlacesDiffer(p: Place, q: Place)
    requires 0 <= p.yoe < 400 && 0 <= q.yoe < 400 && 0 <= p.mp < 12 && 0 <= q.mp < 12
    requires Month(p) < Month(q) || (Month(p) == Month(q) && p.d < q.d)
    ensures p.era < q.era || (p.era == q.era && p.yoe < q.yoe)
            || (p.era == q.era && p.yoe == q.yoe && (p.mp < q.mp || (p.mp == q.mp && p.d < q.d)))
  {
  }

  lemma {:induction false} YearsAreInEra(yoe: int)
    requires 0 <= yoe < 400
    ensures 0 <= YearStart(yoe) && YearStart(yoe + 1) <= 146097
  {
  }

  lemma {:induction false} MonthsAreInYear(mp: int)
    requires 0 <= mp < 12
    ensures 0 <= MonthStart(mp)
  {
  }

  lemma {:induction false} MonthOfDate(t: Date)
    requires IsDate(t)
    ensures Month(PlaceOf(t)) == t.y * 12 + t.m - 3
  {
  }

  /** Day numbers are ordered as dates are. */
  lemma {:induction false} DaysIncrease(a: Date, b: Date)
    requires IsDate(a) && IsDate(b)
    ensures Before(a, b) <==> DayNumber(a) < DayNumber(b)
  {
    PlaceOfDate(a);
    PlaceOfDate(b);
    DaysIs(a);
    DaysIs(b);
    MonthOfDate(a);
    MonthOfDate(b);
    hide IsDate, IsPlace, DayNumber, DayAt, Month;
    if Before(a, b) {
      PlacesInOrder(PlaceOf(a), PlaceOf(b));
    } else if Before(b, a) {
      PlacesInOrder(PlaceOf(b), PlaceOf(a));
    } else {
      assert a == b;
    }
  }

  // ---- the main results ----

  /** Every day number has a valid date, whose day number it is. */
  lemma {:induction false} DaysOfCivil(z: int)
    ensures IsDate(CivilFromDays(z)) && DayNumber(CivilFromDays(z)) == z
  {
    hide IsDate, DayNumber, DayAt, CivilFromDays, DateAt, PlaceOf;
    var p := CivilIs(z);
    PlaceIs(p);
    DaysIs(DateAt(p));
  }

  /** Every valid date comes back from its day number. */
  lemma {:induction false} CivilOfDays(t: Date)
    requires IsDate(t)
    ensures CivilFromDays(DayNumber(t)) == t
  {
    var u := CivilFromDays(DayNumber(t));
    DaysOfCivil(DayNumber(t));
    hide DayNumber, CivilFromDays, IsDate;
    DaysIncrease(t, u);
    DaysIncrease(u, t);
  }

  /** Day numbers count days: the next date is the next day. */
  lemma {:induction false} DaysCount(t: Date)
    requires IsDate(t)
    ensures DayNumber(Tomorrow(t)) == DayNumber(t) + 1
  {
    var n, z := Tomorrow(t), DayNumber(t) + 1;
    var u := CivilFromDays(z);
    hide DayNumber, CivilFromDays, IsDate, Tomorrow, Before;
    DaysOfCivil(z);
    TomorrowIsLater(t);
    DaysIncrease(t, n);
    DaysIncrease(t, u);
    DaysIncrease(u, n);
    NothingBetween(t, u);
  }

  lemma {:induction false} TomorrowIsLater(t: Date)
    requires IsDate(t)
    ensures Before(t, Tomorrow(t))
  {
  }

  lemma {:induction false} NothingBetween(t: Date, u: Date)
    requires IsDate(t) && IsDate(u) && Before(t, u)
    ensures !Before(u, Tomorrow(t))
  {
  }

  /** 1 January 1970 is day 0, a Thursday. */
  lemma {:induction false} Epoch()
    ensures DayNumber(Date(1970, 1, 1)) == 0 && WeekdayFromDays(0) == 4
  {
  }

  /** The weekday is the day number modulo 7, before the epoch too. */
  lemma {:induction false} WeekdayIs(z: int)
    ensures WeekdayFromDays(z) == (z + 4) % 7
  {
    if z < -4 {
      var n := -(z + 5);
      assert WeekdayFromDays(z) == 6 - n % 7;
      Floor7(n);
    }
  }

  lemma {:induction false} Floor7(n: int)
    requires n >= 0
    ensures (-1 - n) % 7 == 6 - n % 7
  {
  }

  lemma {:induction false} WeekdaysCycle(z: int)
    ensures WeekdayFromDays(z + 1) == (WeekdayFromDays(z) + 1) % 7
  {
    WeekdayIs(z);
    WeekdayIs(z + 1);
    hide WeekdayFromDays;
  }
}
