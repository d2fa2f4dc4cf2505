/** Days since 1970 as dates: the closed formula of the source against a day count by year and month lengths. */
module Calendar {

  datatype Date = Date(year: int, month: int, day: int)

  // ----- the calendar, by month lengths and the leap rule -----

  predicate Leap(y: int) {
    y % 4 == 0 && (y % 100 != 0 || y % 400 == 0)
  }

  function YearLength(y: int): int {
    if Leap(y) then 366 else 365
  }

  function MonthLength(y: int, m: int): int {
    if m == 2 then (if Leap(y) then 29 else 28)
    else if m == 4 || m == 6 || m == 9 || m == 11 then 30
    else 31
  }

  predicate Valid(d: Date) {
    1 <= d.month <= 12 && 1 <= d.day <= MonthLength(d.year, d.month)
  }

  /** Days from the first of January 1970 to the first of January of a year. */
  function DaysBeforeYear(y: int): int
    decreases if y < 1970 then 1970 - y else y - 1970
  {
    if y == 1970 then 0
    else if y > 1970 then DaysBeforeYear(y - 1) + YearLength(y - 1)
    else DaysBeforeYear(y + 1) - YearLength(y)
  }

  function DaysBeforeMonth(y: int, m: int): int
    decreases m
  {
    if m <= 1 then 0 else DaysBeforeMonth(y, m - 1) + MonthLength(y, m - 1)
  }

  function DayNumber(d: Date): int {
    DaysBeforeYear(d.year) + DaysBeforeMonth(d.year, d.month) + d.day - 1
  }

  // ----- the conversion of the source -----

  /** Division as the source's signed integers do it, towards zero. */
  function Truncated(a: int, b: int): int
    requires b > 0
  {
    if a >= 0 then a / b else -(-a / b)
  }

  function CivilFromDays(days: int): Date {
    var z := days + 719468;
    var era := Truncated(if z >= 0 then z else z - 146096, 146097);
    CivilInEra(era, z - era * 146097)
  }

  function CivilInEra(era: int, doe: int): Date {
    var yoe := (doe - doe / 1460 + doe / 36524 - doe / 146096) / 365;
    var y := yoe + era * 400;
    var doy := doe - (365 * yoe + yoe / 4 - yoe / 100);
    var mp := (5 * doy + 2) / 153;
    var d := doy - (153 * mp + 2) / 5 + 1;
    var m := if mp < 10 then mp + 3 else mp - 9;
    Date(if m <= 2 then y + 1 else y, m, d)
  }

  // ----- eras of 400 years -----

  lemma EraIsFloor(z: int)
    ensures var era := Truncated(if z >= 0 then z else z - 146096, 146097);
            0 <= z - era * 146097 <= 146096
  {
  }

  /** Days from the first of March of the first year of an era to that of its year `y`. */
  function MarchOffset(y: int): int {
    365 * y + y / 4 - y / 100
  }

  /** The year of the era, found from its century, its four-year cycle and what is left. */
  lemma YearOfEra(doe: int, c: int, k: int, s: int)
    requires 0 <= c <= 3 && 0 <= k <= 24 && 0 <= s <= 1460
    requires doe == 36524 * c + 1461 * k + s <= 146096
    requires k == 24 && c < 3 ==> s < 1460
    ensures var yoe := (doe - doe / 1460 + doe / 36524 - doe / 146096) / 365;
            yoe == 100 * c + 4 * k + (if s == 1460 then 3 else s / 365)
  {
    var e := (24 * c + k + s) / 1460;
    assert doe == 1460 * (25 * c + k) + (24 * c + k + s);
    assert doe / 1460 == 25 * c + k + e;
    assert e == if 24 * c + k + s >= 1460 then 1 else 0;
    var last := if doe == 146096 then 1 else 0;
    assert doe / 146096 == last;
    assert doe / 36524 == c + last;
    assert doe - doe / 1460 + doe / 36524 - doe / 146096 == 365 * (100 * c + 4 * k) + s - e;
    assert (s - e) / 365 == if s == 1460 then 3 else s / 365;
  }

  lemma Cycles(doe: int) returns (c: int, k: int, s: int)
    requires 0 <= doe <= 146096
    ensures 0 <= c <= 3 && 0 <= k <= 24 && 0 <= s <= 1460
    ensures doe == 36524 * c + 1461 * k + s
    ensures k == 24 && c < 3 ==> s < 1460
  {
    c := if doe == 146096 then 3 else doe / 36524;
    var r := doe - 36524 * c;
    k := r / 1461;
    s := r % 1461;
  }

  lemma MarchOffsetOf(c: int, k: int, v: int)
    requires 0 <= c <= 3 && 0 <= k <= 24 && 0 <= v <= 3
    ensures MarchOffset(100 * c + 4 * k + v) == 36524 * c + 1461 * k + 365 * v
  {
    var y := 100 * c + 4 * k + v;
    assert y / 4 == 25 * c + k;
    assert y / 100 == c;
  }

  /** A March year ends with a leap day exactly when the January after it opens a leap year. */
  lemma LeapDay(c: int, k: int, v: int)
    requires 0 <= c <= 3 && 0 <= k <= 24 && 0 <= v <= 3
    ensures Leap(100 * c + 4 * k + v + 1) <==> v == 3 && (k < 24 || c == 3)
  {
    var y := 100 * c + 4 * k + v + 1;
    assert y % 4 == (v + 1) % 4;
    if v == 3 {
      assert y == 100 * c + 4 * (k + 1);
      assert y % 100 == (if k == 24 then 0 else 4 * (k + 1));
      assert k == 24 ==> y == 100 * (c + 1);
    }
  }

  lemma DayOfYear(doe: int) returns (yoe: int, doy: int)
    requires 0 <= doe <= 146096
    ensures yoe == (doe - doe / 1460 + doe / 36524 - doe / 146096) / 365
    ensures 0 <= yoe <= 399 && doy == doe - MarchOffset(yoe)
    ensures 0 <= doy <= (if Leap(yoe + 1) then 365 else 364)
  {
    var c, k, s := Cycles(doe);
    YearOfEra(doe, c, k, s);
    var v := if s == 1460 then 3 else s / 365;
    yoe := 100 * c + 4 * k + v;
    doy := doe - MarchOffset(yoe);
    MarchOffsetOf(c, k, v);
    LeapDay(c, k, v);
  }

  // ----- months counted from March -----

  lemma MonthOfYear(doy: int)
    requires 0 <= doy <= 365
    ensures var mp := (5 * doy + 2) / 153;
            0 <= mp <= 11 && (153 * mp + 2) / 5 <= doy < (if mp == 11 then 366 else (153 * (mp + 1) + 2) / 5)
  {
  }

  /** The months after February start at fixed distances from March. */
  function AfterMarch(m: int): int {
    match m
    case 3 => 0
    case 4 => 31
    case 5 => 61
    case 6 => 92
    case 7 => 122
    case 8 => 153
    case 9 => 184
    case 10 => 214
    case 11 => 245
    case _ => 275
  }

  lemma {:induction false} MonthTable(y: int, m: int)
    requires 3 <= m <= 12
    ensures DaysBeforeMonth(y, m) == (if Leap(y) then 60 else 59) + AfterMarch(m)
    decreases m
  {
    hide Leap;
    if m == 3 {
      assert DaysBeforeMonth(y, 2) == 31;
    } else {
      MonthTable(y, m - 1);
    }
  }

  lemma MonthsFromMarch(y: int, m: int)
    requires 1 <= m <= 12
    ensures var mp := if m > 2 then m - 3 else m + 9;
            DaysBeforeMonth(y, m) == (if m > 2 then (153 * mp + 2) / 5 + DaysBeforeMonth(y, 3) else (153 * mp + 2) / 5 - 306)
    ensures DaysBeforeMonth(y, 3) == if Leap(y) then 60 else 59
    ensures m > 2 ==> (var mp := m - 3; MonthLength(y, m) == if m == 12 then 31 else (153 * (mp + 1) + 2) / 5 - (153 * mp + 2) / 5)
    ensures MonthLength(y, 1) == 31
  {
    hide Leap;
    MonthTable(y, 3);
    if m > 2 {
      MonthTable(y, m);
    }
  }

  function LeapsUpTo(y: int): int {
    y / 4 - y / 100 + y / 400
  }

  lemma MultiplesStep(y: int, k: int)
    requires k == 4 || k == 100 || k == 400
    ensures y / k - (y - 1) / k == if y % k == 0 then 1 else 0
  {
  }

  lemma Centuries(n: int)
    ensures 100 * n % 4 == 0
  {
    assert 100 * n == 4 * (25 * n);
  }

  lemma Eras(n: int)
    ensures 400 * n % 100 == 0
  {
    assert 400 * n == 100 * (4 * n);
  }

  lemma Multiples(y: int)
    ensures y % 400 == 0 ==> y % 100 == 0
    ensures y % 100 == 0 ==> y % 4 == 0
  {
    Eras(y / 400);
    Centuries(y / 100);
  }

  lemma LeapsStep(y: int)
    ensures LeapsUpTo(y) - LeapsUpTo(y - 1) == if Leap(y) then 1 else 0
  {
    MultiplesStep(y, 4);
    MultiplesStep(y, 100);
    MultiplesStep(y, 400);
    Multiples(y);
  }

  lemma {:induction false} YearsInClosedForm(y: int)
    ensures DaysBeforeYear(y) == 365 * (y - 1970) + LeapsUpTo(y - 1) - 477
    decreases if y < 1970 then 1970 - y else y - 1970
  {
    if y > 1970 {
      YearsInClosedForm(y - 1);
      LeapsStep(y - 1);
    } else if y < 1970 {
      YearsInClosedForm(y + 1);
      LeapsStep(y);
    }
  }

  lemma ErasRepeat(yoe: int, era: int)
    ensures LeapsUpTo(yoe + 400 * era) == LeapsUpTo(yoe) + 97 * era
    ensures Leap(yoe + 400 * era) <==> Leap(yoe)
  {
    var y := yoe + 400 * era;
    assert y / 4 == yoe / 4 + 100 * era;
    assert y / 100 == yoe / 100 + 4 * era;
    assert y / 400 == yoe / 400 + era;
    assert y % 4 == yoe % 4;
    assert y % 100 == yoe % 100;
    assert y % 400 == yoe % 400;
  }

  /** The first of March of a year, as a day number. */
  lemma MarchFirst(yoe: int, era: int)
    requires 0 <= yoe <= 399
    ensures var y := yoe + 400 * era;
            DaysBeforeYear(y) + DaysBeforeMonth(y, 3) == era * 146097 + MarchOffset(yoe) - 719468
  {
    var y := yoe + 400 * era;
    YearsInClosedForm(y);
    LeapsStep(y);
    MonthsFromMarch(y, 3);
    ErasRepeat(yoe, era);
    assert yoe / 400 == 0;
  }

  lemma NextJanuary(y: int)
    ensures DaysBeforeYear(y + 1) == DaysBeforeYear(y) + YearLength(y)
  {
  }

  function FromMarchYear(y: int, doy: int): Date {
    var mp := (5 * doy + 2) / 153;
    var m := if mp < 10 then mp + 3 else mp - 9;
    Date(if m <= 2 then y + 1 else y, m, doy - (153 * mp + 2) / 5 + 1)
  }

  lemma ConversionInEra(era: int, doe: int) returns (yoe: int, doy: int)
    requires 0 <= doe <= 146096
    ensures 0 <= yoe <= 399 && 0 <= doy <= if Leap(yoe + 1) then 365 else 364
    ensures doe == MarchOffset(yoe) + doy
    ensures CivilInEra(era, doe) == FromMarchYear(yoe + era * 400, doy)
  {
    hide Leap;
    yoe, doy := DayOfYear(doe);
  }

  /** The conversion, in terms of the era, the year of the era and the day of the March year. */
  lemma ConversionSteps(days: int) returns (era: int, yoe: int, doy: int)
    ensures 0 <= yoe <= 399 && 0 <= doy <= if Leap(yoe + 1) then 365 else 364
    ensures days == era * 146097 + MarchOffset(yoe) + doy - 719468
    ensures CivilFromDays(days) == FromMarchYear(yoe + era * 400, doy)
  {
    hide Leap, MarchOffset, Truncated, CivilInEra, FromMarchYear;
    var z := days + 719468;
    EraIsFloor(z);
    era := Truncated(if z >= 0 then z else z - 146096, 146097);
    yoe, doy := ConversionInEra(era, z - era * 146097);
  }

  /** Every day has a valid date, and it is that day's. */
  lemma CivilIsThatDay(days: int)
    ensures Valid(CivilFromDays(days)) && DayNumber(CivilFromDays(days)) == days
  {
    hide CivilFromDays, MarchOffset, Leap, Valid, DayNumber, FromMarchYear;
    var era, yoe, doy := ConversionSteps(days);
    MarchFirst(yoe, era);
    ErasRepeat(yoe + 1, era);
    DateOfMarchYear(yoe + era * 400, doy);
  }

  /** The day `doy` days after the first of March of `y`, by its month counted from March. */
  lemma DateOfMarchYear(y: int, doy: int)
    requires 0 <= doy <= if Leap(y + 1) then 365 else 364
    ensures Valid(FromMarchYear(y, doy))
    ensures DayNumber(FromMarchYear(y, doy)) == DaysBeforeYear(y) + DaysBeforeMonth(y, 3) + doy
  {
    hide DaysBeforeYear, DaysBeforeMonth;
    var m := FromMarchYear(y, doy).month;
    MonthOfYear(doy);
    MonthsFromMarch(y, 3);
    if m > 2 {
      MonthsFromMarch(y, m);
    } else {
      MonthsFromMarch(y + 1, m);
      NextJanuary(y);
    }
  }

  // ----- no other date has that day number -----

  lemma {:induction false} YearsAscend(y: int, z: int)
    requires y < z
    ensures DaysBeforeYear(y) + YearLength(y) <= DaysBeforeYear(z)
    decreases z - y
  {
    NextJanuary(y);
    if y + 1 < z {
      YearsAscend(y + 1, z);
    }
  }

  lemma {:induction false} MonthsAscend(y: int, m: int, n: int)
    requires 1 <= m < n <= 13
    ensures DaysBeforeMonth(y, m) + MonthLength(y, m) <= DaysBeforeMonth(y, n)
    decreases n
  {
    if m < n - 1 {
      MonthsAscend(y, m, n - 1);
    }
  }

  lemma YearHolds(d: Date)
    requires Valid(d)
    ensures DaysBeforeYear(d.year) <= DayNumber(d) < DaysBeforeYear(d.year) + YearLength(d.year)
  {
    MonthsFromMarch(d.year, 12);
    if d.month > 1 {
      MonthsAscend(d.year, 1, d.month);
    }
    if d.month < 12 {
      MonthsAscend(d.year, d.month, 12);
    }
  }

  lemma OneDateADay(a: Date, b: Date)
    requires Valid(a) && Valid(b) && DayNumber(a) == DayNumber(b)
    ensures a == b
  {
    YearHolds(a);
    YearHolds(b);
    if a.year < b.year {
      YearsAscend(a.year, b.year);
    } else if b.year < a.year {
      YearsAscend(b.year, a.year);
    } else if a.month < b.month {
      MonthsAscend(a.year, a.month, b.month);
    } else if b.month < a.month {
      MonthsAscend(a.year, b.month, a.month);
    }
  }

  /** The two are inverse to each other: every valid date is the one its day number converts to. */
  lemma DayNumberInverts(d: Date)
    requires Valid(d)
    ensures CivilFromDays(DayNumber(d)) == d
  {
    CivilIsThatDay(DayNumber(d));
    OneDateADay(CivilFromDays(DayNumber(d)), d);
  }
}
