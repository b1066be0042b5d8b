/** The export file stamp (crates/api/src/export.rs): days since the epoch to a civil date. */
module CivilDate {
  import opened Bytes
  import opened Decimals

  datatype Date = Date(year: int, month: int, day: int)
  datatype Time = Time(hour: int, minute: int, second: int)

  // The proleptic Gregorian calendar, counted out: the reference the formula is held to.

  predicate IsLeap(y: int) {
    y % 4 == 0 && (y % 100 != 0 || y % 400 == 0)
  }

  function YearLength(y: int): (n: int)
    ensures 365 <= n <= 366
  {
    if IsLeap(y) then 366 else 365
  }

  function MonthLength(y: int, m: int): (n: int)
    requires 1 <= m <= 12
    ensures 28 <= n <= 31
  {
    if m == 2 then (if IsLeap(y) then 29 else 28)
    else if m in {4, 6, 9, 11} then 30
    else 31
  }

  predicate ValidDate(d: Date) {
    1 <= d.month <= 12 && 1 <= d.day <= MonthLength(d.year, d.month)
  }

  /** Days from 1 January 1970 to 1 January of `y`, one year at a time. */
  function DaysToYear(y: int): (n: int)
    decreases if y >= 1970 then y - 1970 else 1970 - y
  {
    if y == 1970 then 0
    else if y > 1970 then DaysToYear(y - 1) + YearLength(y - 1)
    else DaysToYear(y + 1) - YearLength(y)
  }

  /** Days from 1 January to the first of month `m`, one month at a time. */
  function DaysToMonth(y: int, m: int): (n: int)
    requires 1 <= m <= 12
    decreases m
  {
    if m == 1 then 0 else DaysToMonth(y, m - 1) + MonthLength(y, m - 1)
  }

  function DayNumber(d: Date): (n: int)
    requires ValidDate(d)
  {
    DaysToYear(d.year) + DaysToMonth(d.year, d.month) + d.day - 1
  }

  // The formula of the source.

  /** Rust's integer division, which truncates toward zero. */
  function TruncatingDiv(a: int, b: int): (q: int)
    requires b > 0
  {
    if a >= 0 then a / b else -(-a / b)
  }

  function Era(z: int): (e: int) {
    TruncatingDiv(if z >= 0 then z else z - 146_096, 146_097)
  }

  function YearOfEra(doe: int): (yoe: int) {
    (doe - doe / 1460 + doe / 36524 - doe / 146_096) / 365
  }

  /** Day `doy` of the year that begins in March of `y`. */
  function DateOfMarchYear(y: int, doy: int): (d: Date) {
    var mp := (5 * doy + 2) / 153;
    var day := doy - (153 * mp + 2) / 5 + 1;
    var month := if mp < 10 then mp + 3 else mp - 9;
    Date(if month <= 2 then y + 1 else y, month, day)
  }

  function CivilFromDays(days: int): (d: Date) {
    var z := days + 719_468;
    CivilFromEra(Era(z), z - Era(z) * 146_097)
  }

  function CivilFromEra(era: int, doe: int): (d: Date) {
    var yoe := YearOfEra(doe);
    DateOfMarchYear(yoe + era * 400, doe - MarchYearStart(yoe))
  }

  /** Days of the first `yoe` years of an era whose years begin in March. */
  function MarchYearStart(yoe: int): (n: int) {
    365 * yoe + yoe / 4 - yoe / 100
  }

  lemma EraIsFloor(z: int)
    ensures 0 <= z - Era(z) * 146_097 < 146_097
  {
  }

  /** The year that begins in March of `yoe` ends with a 29 February. */
  predicate LongMarchYear(yoe: int) {
    (yoe + 1) % 4 == 0 && ((yoe + 1) % 100 != 0 || yoe == 399)
  }

  lemma QuotientByCycle(c: int, q: int, rest: int)
    requires 0 <= c <= 3 && 0 <= q <= 24 && 0 <= rest <= 1460
    ensures (36524 * c + 1461 * q + rest) / 1460 == 25 * c + q + (if 24 * c + q + rest >= 1460 then 1 else 0)
  {
  }

  lemma QuotientByCentury(c: int, q: int, rest: int)
    requires 0 <= c <= 3 && 0 <= q <= 24 && 0 <= rest <= 1460 && (q == 24 && rest == 1460 ==> c == 3)
    ensures var doe := 36524 * c + 1461 * q + rest; doe / 36524 - doe / 146_096 == c
  {
  }

  lemma QuotientsOfYear(c: int, q: int, r: int)
    requires 0 <= c <= 3 && 0 <= q <= 24 && 0 <= r <= 3
    ensures (100 * c + 4 * q + r) / 4 == 25 * c + q && (100 * c + 4 * q + r) / 100 == c
  {
  }

  lemma QuotientByYear(c: int, q: int, r: int, rest: int)
    requires 0 <= rest < 365
    ensures (36500 * c + 1460 * q + 365 * r + rest) / 365 == 100 * c + 4 * q + r
  {
  }

  /** Day `doy` of March-year `100c + 4q + r`: the formula finds the year again. */
  lemma YearOfEraOfParts(c: int, q: int, r: int, doy: int)
    requires 0 <= c <= 3 && 0 <= q <= 24 && 0 <= r <= 3 && 0 <= doy <= 365
    requires doy == 365 ==> r == 3 && (q == 24 ==> c == 3)
    ensures YearOfEra(36524 * c + 1461 * q + 365 * r + doy) == 100 * c + 4 * q + r
    ensures MarchYearStart(100 * c + 4 * q + r) == 36524 * c + 1461 * q + 365 * r
    ensures doy == 365 ==> LongMarchYear(100 * c + 4 * q + r)
  {
    var rest := 365 * r + doy;
    QuotientByCycle(c, q, rest);
    QuotientByCentury(c, q, rest);
    QuotientsOfYear(c, q, r);
    var e := if 24 * c + q + rest >= 1460 then 1 else 0;
    QuotientByYear(c, q, r, doy - e);
  }

  lemma YearOfEraCorrect(doe: int)
    requires 0 <= doe < 146_097
    ensures 0 <= YearOfEra(doe) < 400
    ensures 0 <= doe - MarchYearStart(YearOfEra(doe)) <= 365
    ensures doe - MarchYearStart(YearOfEra(doe)) == 365 ==> LongMarchYear(YearOfEra(doe))
  {
    var c := if doe / 36524 > 3 then 3 else doe / 36524;
    var inCentury := doe - 36524 * c;
    var q := inCentury / 1461;
    var inCycle := inCentury - 1461 * q;
    var r := if inCycle / 365 > 3 then 3 else inCycle / 365;
    YearOfEraOfParts(c, q, r, inCycle - 365 * r);
  }

  lemma {:induction false} DaysToYearClosed(y: int)
    ensures DaysToYear(y) == 365 * (y - 1970) + (y - 1) / 4 - (y - 1) / 100 + (y - 1) / 400 - 477
    decreases if y >= 1970 then y - 1970 else 1970 - y
  {
    if y > 1970 {
      DaysToYearClosed(y - 1);
      LeapDaysStep(y - 1);
    } else if y < 1970 {
      DaysToYearClosed(y + 1);
      LeapDaysStep(y);
    }
  }

  /** Leap days counted through year `y` exceed those through `y - 1` exactly in leap years. */
  lemma LeapDaysStep(y: int)
    ensures y / 4 - y / 100 + y / 400
         == (y - 1) / 4 - (y - 1) / 100 + (y - 1) / 400 + (if IsLeap(y) then 1 else 0)
  {
    FloorStep(y, 4);
    FloorStep(y, 100);
    FloorStep(y, 400);
    NestedMultiples(y);
  }

  lemma NestedMultiples(y: int)
    ensures y % 400 == 0 ==> y % 100 == 0
    ensures y % 100 == 0 ==> y % 4 == 0
  {
  }

  lemma FloorStep(y: int, k: int)
    requires k == 4 || k == 100 || k == 400
    ensures y / k == (y - 1) / k + (if y % k == 0 then 1 else 0)
  {
    if k == 4 {
      assert y / 4 == (y - 1) / 4 + (if y % 4 == 0 then 1 else 0);
    } else if k == 100 {
      assert y / 100 == (y - 1) / 100 + (if y % 100 == 0 then 1 else 0);
    }
  }

  lemma DaysToMonthTable(y: int, m: int)
    requires 1 <= m <= 12
    ensures DaysToMonth(y, m)
         == if m == 1 then 0 else if m == 2 then 31
            else YearLength(y) - 306 + (153 * (m - 3) + 2) / 5
  {
    assert DaysToMonth(y, 1) == 0;
    assert m >= 2 ==> DaysToMonth(y, 2) == 31;
    assert m >= 4 ==> DaysToMonth(y, 4) == DaysToMonth(y, 2) + MonthLength(y, 2) + 31;
    assert m >= 6 ==> DaysToMonth(y, 6) == DaysToMonth(y, 4) + 61;
    assert m >= 8 ==> DaysToMonth(y, 8) == DaysToMonth(y, 6) + 61;
    assert m >= 10 ==> DaysToMonth(y, 10) == DaysToMonth(y, 8) + 61;
    assert m >= 12 ==> DaysToMonth(y, 12) == DaysToMonth(y, 10) + 61;
  }

  /** The first of March of year `400 * era + yoe`, counted from the epoch. */
  lemma FirstOfMarch(era: int, yoe: int)
    requires 0 <= yoe < 400
    ensures DaysToYear(era * 400 + yoe) + YearLength(era * 400 + yoe) - 306
         == era * 146_097 + MarchYearStart(yoe) - 719_468
  {
    var y := era * 400 + yoe;
    DaysToYearClosed(y);
    LeapDaysStep(y);
    assert y / 4 == 100 * era + yoe / 4;
    assert y / 100 == 4 * era + yoe / 100;
    assert y / 400 == era;
  }

  /** Day `doy` of a year that begins in March, as month and day. */
  lemma MonthOfMarchYear(doy: int, y: int)
    requires 0 <= doy <= 365
    requires doy == 365 ==> IsLeap(y + 1)
    ensures var mp := (5 * doy + 2) / 153;
      var day := doy - (153 * mp + 2) / 5 + 1;
      && 0 <= mp <= 11
      && (mp < 10 ==> ValidDate(Date(y, mp + 3, day)))
      && (mp >= 10 ==> ValidDate(Date(y + 1, mp - 9, day)))
  {
    var mp := (5 * doy + 2) / 153;
    var start := (153 * mp + 2) / 5;
    assert start <= doy < (153 * (mp + 1) + 2) / 5 || (mp == 11 && start == 337);
    assert mp in {0, 2, 4, 5, 7, 9, 10} ==> doy - start <= 30;
    assert mp in {1, 3, 6, 8} ==> doy - start <= 29;
  }

  lemma NextNewYear(y: int)
    ensures DaysToYear(y + 1) == DaysToYear(y) + YearLength(y)
  {
    DaysToYearClosed(y);
    DaysToYearClosed(y + 1);
    LeapDaysStep(y);
  }

  /** A valid date of a year that begins in March, by month index, counted from the first of March of `y`. */
  lemma DayWithinMarchYear(y: int, mp: int, day: int)
    requires 0 <= mp <= 11
    ensures var d := if mp < 10 then Date(y, mp + 3, day) else Date(y + 1, mp - 9, day);
      DaysToYear(d.year) + DaysToMonth(d.year, d.month) == DaysToYear(y) + YearLength(y) - 306 + (153 * mp + 2) / 5
  {
    if mp < 10 {
      DaysToMonthTable(y, mp + 3);
    } else {
      NextNewYear(y);
      DaysToMonthTable(y + 1, mp - 9);
    }
  }

  lemma DateOfMarchYearCorrect(era: int, yoe: int, doy: int)
    requires 0 <= yoe < 400 && 0 <= doy <= 365
    requires doy == 365 ==> LongMarchYear(yoe)
    ensures var d := DateOfMarchYear(era * 400 + yoe, doy);
      && ValidDate(d)
      && DayNumber(d) == era * 146_097 + MarchYearStart(yoe) + doy - 719_468
  {
    var y := era * 400 + yoe;
    if doy == 365 {
      LongMarchYearIsLeap(era, yoe);
    }
    FirstOfMarch(era, yoe);
    DateOfYearCorrect(y, doy);
  }

  lemma DateOfYearCorrect(y: int, doy: int)
    requires 0 <= doy <= 365 && (doy == 365 ==> IsLeap(y + 1))
    ensures var d := DateOfMarchYear(y, doy);
      && ValidDate(d)
      && DayNumber(d) == DaysToYear(y) + YearLength(y) - 306 + doy
  {
    MonthOfMarchYear(doy, y);
    var mp := (5 * doy + 2) / 153;
    var day := doy - (153 * mp + 2) / 5 + 1;
    DayWithinMarchYear(y, mp, day);
    var d := DateOfMarchYear(y, doy);
    if mp < 10 {
      assert d == Date(y, mp + 3, day);
    } else {
      assert d == Date(y + 1, mp - 9, day);
    }
  }

  lemma RemainderBy4(a: int, n: int)
    ensures (4 * a + n) % 4 == n % 4
  {
    assert 4 * a + n == 4 * (a + n / 4) + n % 4;
  }

  lemma RemainderBy100(a: int, n: int)
    ensures (100 * a + n) % 100 == n % 100
  {
    assert 100 * a + n == 100 * (a + n / 100) + n % 100;
  }

  lemma RemainderBy400(a: int, n: int)
    ensures (400 * a + n) % 400 == n % 400
  {
    assert 400 * a + n == 400 * (a + n / 400) + n % 400;
  }

  lemma LongMarchYearIsLeap(era: int, yoe: int)
    requires 0 <= yoe < 400 && LongMarchYear(yoe)
    ensures IsLeap(era * 400 + yoe + 1)
  {
    RemainderBy4(100 * era, yoe + 1);
    RemainderBy100(4 * era, yoe + 1);
    RemainderBy400(era, yoe + 1);
  }

  lemma CivilFromEraCorrect(era: int, doe: int, yoe: int)
    requires 0 <= doe < 146_097
    requires yoe == YearOfEra(doe)
    ensures ValidDate(CivilFromEra(era, doe))
    ensures DayNumber(CivilFromEra(era, doe)) == era * 146_097 + doe - 719_468
  {
    YearOfEraCorrect(doe);
    DateOfMarchYearCorrect(era, yoe, doe - MarchYearStart(yoe));
  }

  /** For every day number: a real calendar date, and counting that date out returns the day. */
  lemma CivilFromDaysCorrect(days: int)
    ensures ValidDate(CivilFromDays(days))
    ensures DayNumber(CivilFromDays(days)) == days
  {
    EraIsFloor(days + 719_468);
    CivilFromDaysInEra(days, Era(days + 719_468));
  }

  lemma CivilFromDaysInEra(days: int, era: int)
    requires era == Era(days + 719_468) && 0 <= days + 719_468 - era * 146_097 < 146_097
    ensures ValidDate(CivilFromDays(days))
    ensures DayNumber(CivilFromDays(days)) == days
  {
    var doe := days + 719_468 - era * 146_097;
    var d := CivilFromEra(era, doe);
    CivilFromEraCorrect(era, doe, YearOfEra(doe));
    assert CivilFromDays(days) == d;
  }

  predicate Before(a: Date, b: Date) {
    || a.year < b.year
    || (a.year == b.year && a.month < b.month)
    || (a.year == b.year && a.month == b.month && a.day < b.day)
  }

  lemma {:induction false} DayWithinYear(y: int, m: int)
    requires 1 <= m <= 12
    ensures DaysToMonth(y, m) + MonthLength(y, m) <= YearLength(y)
    ensures forall k :: 1 <= k < m ==> DaysToMonth(y, k) + MonthLength(y, k) <= DaysToMonth(y, m)
    decreases m
  {
    DaysToMonthTable(y, m);
    if m > 1 {
      DayWithinYear(y, m - 1);
    }
  }

  lemma {:induction false} YearsCountUp(y: int, later: int)
    requires y < later
    ensures DaysToYear(y) + YearLength(y) <= DaysToYear(later)
    decreases later - y
  {
    DaysToYearClosed(y);
    DaysToYearClosed(y + 1);
    LeapDaysStep(y);
    if y + 1 < later {
      YearsCountUp(y + 1, later);
    }
  }

  /** Day numbers follow the calendar. */
  lemma DayNumberOrder(a: Date, b: Date)
    requires ValidDate(a) && ValidDate(b)
    ensures Before(a, b) <==> DayNumber(a) < DayNumber(b)
    ensures a == b <==> DayNumber(a) == DayNumber(b)
  {
    if Before(a, b) {
      DayNumberAscends(a, b);
    } else if Before(b, a) {
      DayNumberAscends(b, a);
    }
  }

  lemma DayNumberAscends(a: Date, b: Date)
    requires ValidDate(a) && ValidDate(b) && Before(a, b)
    ensures DayNumber(a) < DayNumber(b)
  {
    DayWithinYear(a.year, a.month);
    DayWithinYear(b.year, b.month);
    if a.year < b.year {
      YearsCountUp(a.year, b.year);
      assert DaysToMonth(b.year, b.month) >= 0 by {
        DaysToMonthTable(b.year, b.month);
      }
    }
  }

  /** The conversion is onto the calendar: it inverts the count on every valid date. */
  lemma CivilFromDayNumber(d: Date)
    requires ValidDate(d)
    ensures CivilFromDays(DayNumber(d)) == d
  {
    CivilFromDaysCorrect(DayNumber(d));
    DayNumberOrder(d, CivilFromDays(DayNumber(d)));
  }

  /** Later days are later dates. */
  lemma CivilOrder(m: int, n: int)
    ensures m < n <==> Before(CivilFromDays(m), CivilFromDays(n))
    ensures m == n <==> CivilFromDays(m) == CivilFromDays(n)
  {
    CivilFromDaysCorrect(m);
    CivilFromDaysCorrect(n);
    DayNumberOrder(CivilFromDays(m), CivilFromDays(n));
  }

  // The stamp text: `{year:04}{month:02}{day:02}-{hour:02}{minute:02}{second:02}`.

  /** The last `width` decimal digits of `n`. */
  function Digits(n: nat, width: nat): (s: seq<Byte>)
    ensures |s| == width
    decreases width, n
  {
    if width == 0 then [] else Digits(n / 10, width - 1) + [0x30 + n % 10]
  }

  function Zeros(n: nat): (s: seq<Byte>)
    ensures |s| == n
  {
    seq(n, i => 0x30)
  }

  /** Rust's `{:0width}` for an integer: sign first, then zeros, then digits. */
  function Padded(v: int, width: nat): (s: seq<Byte>) {
    var digits := DecimalBytes(if v < 0 then -v else v);
    var sign: seq<Byte> := if v < 0 then [0x2D] else [];
    var used := |sign| + |digits|;
    sign + (if used < width then Zeros(width - used) else []) + digits
  }

  function Pow10(width: nat): (p: nat)
    ensures p >= 1
  {
    if width == 0 then 1 else 10 * Pow10(width - 1)
  }

  lemma {:induction false} PaddedIsDigits(n: nat, width: nat)
    requires width >= 1 && n < Pow10(width)
    ensures |DecimalBytes(n)| <= width
    ensures Padded(n, width) == Digits(n, width)
    decreases width
  {
    DecimalBytesStep(n);
    if n < 10 {
      DigitsOfSmall(n, width);
    } else {
      assert width >= 2;
      PaddedIsDigits(n / 10, width - 1);
    }
  }

  lemma {:induction false} DigitsOfSmall(n: nat, width: nat)
    requires n < 10 && width >= 1
    ensures Digits(n, width) == Zeros(width - 1) + [0x30 + n]
    decreases width
  {
    if width > 1 {
      DigitsOfSmall(0, width - 1);
      assert Zeros(width - 2) + [0x30] == Zeros(width - 1);
    }
  }

  lemma {:induction false} LexOfConcat(p: seq<Byte>, q: seq<Byte>, s: seq<Byte>, t: seq<Byte>)
    requires |p| == |q|
    ensures LexLess(p + s, q + t) <==> LexLess(p, q) || (p == q && LexLess(s, t))
  {
    if p == [] {
      assert p + s == s && q + t == t;
    } else {
      LexOfConcat(p[1..], q[1..], s, t);
      assert (p + s)[1..] == p[1..] + s && (q + t)[1..] == q[1..] + t;
      assert p == q <==> p[0] == q[0] && p[1..] == q[1..];
    }
  }

  lemma {:induction false} DigitsOrder(a: nat, b: nat, width: nat)
    requires a < Pow10(width) && b < Pow10(width)
    ensures LexLess(Digits(a, width), Digits(b, width)) <==> a < b
    ensures Digits(a, width) == Digits(b, width) <==> a == b
    decreases width
  {
    if width > 0 {
      DigitsOrder(a / 10, b / 10, width - 1);
      var p, q := Digits(a / 10, width - 1), Digits(b / 10, width - 1);
      var x: seq<Byte>, y: seq<Byte> := [0x30 + a % 10], [0x30 + b % 10];
      LexOfConcat(p, q, x, y);
      assert LexLess(x, y) <==> a % 10 < b % 10;
      assert Digits(a, width)[..width - 1] == p && Digits(b, width)[..width - 1] == q;
    }
  }

  function TimeOf(secs: int): (t: Time) {
    var rem := secs % 86_400;
    Time(rem / 3600, rem % 3600 / 60, rem % 60)
  }

  function StampText(d: Date, t: Time): (s: seq<Byte>) {
    Padded(d.year, 4) + Padded(d.month, 2) + Padded(d.day, 2) + [0x2D]
    + Padded(t.hour, 2) + Padded(t.minute, 2) + Padded(t.second, 2)
  }

  /** `utc_stamp`. The Euclidean `div_euclid` and `rem_euclid` of the source are Dafny's `/` and `%`. */
  function UtcStamp(ms: int): (s: seq<Byte>) {
    var secs := ms / 1000;
    StampText(CivilFromDays(secs / 86_400), TimeOf(secs))
  }

  predicate ValidTime(t: Time) {
    0 <= t.hour < 24 && 0 <= t.minute < 60 && 0 <= t.second < 60
  }

  lemma TimeOfCorrect(secs: int)
    ensures ValidTime(TimeOf(secs))
    ensures var t := TimeOf(secs); t.hour * 3600 + t.minute * 60 + t.second == secs % 86_400
  {
  }

  /** The stamp shows the instant: its date and time of day count back to the same second. */
  lemma StampShowsTheInstant(ms: int, d: Date, t: Time)
    requires d == CivilFromDays(ms / 1000 / 86_400) && t == TimeOf(ms / 1000)
    ensures UtcStamp(ms) == StampText(d, t)
    ensures ValidDate(d) && ValidTime(t)
    ensures DayNumber(d) * 86_400 + t.hour * 3600 + t.minute * 60 + t.second == ms / 1000
  {
    CivilFromDaysCorrect(ms / 1000 / 86_400);
    TimeOfCorrect(ms / 1000);
  }

  function StampDigits(d: Date, t: Time): (s: seq<Byte>)
    requires 0 <= d.year && ValidDate(d) && ValidTime(t)
  {
    Digits(d.year, 4) + (Digits(d.month, 2) + (Digits(d.day, 2) + ([0x2D]
    + (Digits(t.hour, 2) + (Digits(t.minute, 2) + Digits(t.second, 2))))))
  }

  lemma Flatten(a: seq<Byte>, b: seq<Byte>, c: seq<Byte>, d: seq<Byte>, e: seq<Byte>, f: seq<Byte>,
                g: seq<Byte>)
    ensures a + (b + (c + (d + (e + (f + g))))) == a + b + c + d + e + f + g
  {
  }

  lemma StampIsDigits(d: Date, t: Time)
    requires 0 <= d.year <= 9999 && ValidDate(d) && ValidTime(t)
    ensures StampText(d, t) == StampDigits(d, t)
  {
    Pow10Values();
    PaddedIsDigits(d.year, 4);
    PaddedIsDigits(d.month, 2);
    PaddedIsDigits(d.day, 2);
    PaddedIsDigits(t.hour, 2);
    PaddedIsDigits(t.minute, 2);
    PaddedIsDigits(t.second, 2);
    Flatten(Digits(d.year, 4), Digits(d.month, 2), Digits(d.day, 2), [0x2D],
            Digits(t.hour, 2), Digits(t.minute, 2), Digits(t.second, 2));
  }

  lemma Pow10Values()
    ensures Pow10(2) == 100 && Pow10(4) == 10_000
  {
    assert Pow10(2) == 10 * Pow10(1);
    assert Pow10(4) == 10 * (10 * Pow10(2));
  }

  predicate TimeBefore(s: Time, t: Time) {
    || s.hour < t.hour
    || (s.hour == t.hour && s.minute < t.minute)
    || (s.hour == t.hour && s.minute == t.minute && s.second < t.second)
  }

  lemma TimeDigitsOrder(s: Time, t: Time)
    requires ValidTime(s) && ValidTime(t)
    ensures LexLess(Digits(s.hour, 2) + (Digits(s.minute, 2) + Digits(s.second, 2)),
                    Digits(t.hour, 2) + (Digits(t.minute, 2) + Digits(t.second, 2)))
       <==> TimeBefore(s, t)
  {
    Pow10Values();
    DigitsOrder(s.hour, t.hour, 2);
    DigitsOrder(s.minute, t.minute, 2);
    DigitsOrder(s.second, t.second, 2);
    LexOfConcat(Digits(s.minute, 2), Digits(t.minute, 2), Digits(s.second, 2), Digits(t.second, 2));
    LexOfConcat(Digits(s.hour, 2), Digits(t.hour, 2),
                Digits(s.minute, 2) + Digits(s.second, 2), Digits(t.minute, 2) + Digits(t.second, 2));
  }

  lemma DateDigitsOrder(a: Date, b: Date, u: seq<Byte>, v: seq<Byte>)
    requires ValidDate(a) && ValidDate(b) && 0 <= a.year <= 9999 && 0 <= b.year <= 9999
    ensures LexLess(Digits(a.year, 4) + (Digits(a.month, 2) + (Digits(a.day, 2) + ([0x2D] + u))),
                    Digits(b.year, 4) + (Digits(b.month, 2) + (Digits(b.day, 2) + ([0x2D] + v))))
       <==> Before(a, b) || (a == b && LexLess(u, v))
  {
    Pow10Values();
    DigitsOrder(a.year, b.year, 4);
    DigitsOrder(a.month, b.month, 2);
    DigitsOrder(a.day, b.day, 2);
    var u1: seq<Byte>, v1: seq<Byte> := [0x2D] + u, [0x2D] + v;
    LexOfConcat([0x2D], [0x2D], u, v);
    assert !LexLess([0x2D], [0x2D]);
    var u2, v2 := Digits(a.day, 2) + u1, Digits(b.day, 2) + v1;
    LexOfConcat(Digits(a.day, 2), Digits(b.day, 2), u1, v1);
    var u3, v3 := Digits(a.month, 2) + u2, Digits(b.month, 2) + v2;
    LexOfConcat(Digits(a.month, 2), Digits(b.month, 2), u2, v2);
    LexOfConcat(Digits(a.year, 4), Digits(b.year, 4), u3, v3);
  }

  /** File names sort by time: between years 0 and 9999 text order is the order of the seconds. */
  lemma StampOrder(m: int, n: int)
    requires 0 <= CivilFromDays(m / 1000 / 86_400).year <= 9999
    requires 0 <= CivilFromDays(n / 1000 / 86_400).year <= 9999
    ensures LexLess(UtcStamp(m), UtcStamp(n)) <==> m / 1000 < n / 1000
  {
    var s, t := m / 1000, n / 1000;
    var a, b := CivilFromDays(s / 86_400), CivilFromDays(t / 86_400);
    CivilFromDaysCorrect(s / 86_400);
    CivilFromDaysCorrect(t / 86_400);
    TimeOfCorrect(s);
    TimeOfCorrect(t);
    StampIsDigits(a, TimeOf(s));
    StampIsDigits(b, TimeOf(t));
    var u := Digits(TimeOf(s).hour, 2) + (Digits(TimeOf(s).minute, 2) + Digits(TimeOf(s).second, 2));
    var v := Digits(TimeOf(t).hour, 2) + (Digits(TimeOf(t).minute, 2) + Digits(TimeOf(t).second, 2));
    TimeDigitsOrder(TimeOf(s), TimeOf(t));
    DateDigitsOrder(a, b, u, v);
    CivilOrder(s / 86_400, t / 86_400);
    TimeOrder(s, t);
  }

  lemma TimeOrder(s: int, t: int)
    ensures s / 86_400 == t / 86_400 ==> (TimeBefore(TimeOf(s), TimeOf(t)) <==> s < t)
  {
    TimeOfCorrect(s);
    TimeOfCorrect(t);
    SecondsOrder(TimeOf(s), TimeOf(t), s % 86_400, t % 86_400);
  }

  lemma SecondsOrder(a: Time, b: Time, s: int, t: int)
    requires ValidTime(a) && ValidTime(b)
    requires s == a.hour * 3600 + a.minute * 60 + a.second
    requires t == b.hour * 3600 + b.minute * 60 + b.second
    ensures TimeBefore(a, b) <==> s < t
  {
  }

  lemma YearLeadsTheStamp(d: Date, t: Time, digit: Byte)
    requires d.year >= 0
    requires Padded(d.year, 4)[0..1] == [digit]
    ensures StampText(d, t)[0] == digit
  {
    assert Padded(d.year, 4)[0] == digit;
  }

  lemma LeadingDigits()
    ensures Padded(10_000, 4)[0] == 0x31 && Padded(9999, 4)[0] == 0x39
  {
    DecimalBytesStep(1);
    DecimalBytesStep(10);
    DecimalBytesStep(100);
    DecimalBytesStep(1000);
    DecimalBytesStep(10_000);
    Pow10Values();
    PaddedIsDigits(9999, 4);
    assert Digits(9, 1) == [] + [0x39];
    assert Digits(99, 2) == Digits(9, 1) + [0x39];
    assert Digits(999, 3) == Digits(99, 2) + [0x39];
    assert Digits(9999, 4) == Digits(999, 3) + [0x39];
  }

  /** Past year 9999 the year takes five digits and text order is lost: every instant of year 10000
      sorts before every instant of year 9999. */
  lemma StampOrderEndsWithYear9999(m: int, n: int)
    requires CivilFromDays(m / 1000 / 86_400).year == 9999
    requires CivilFromDays(n / 1000 / 86_400).year == 10_000
    ensures m / 1000 < n / 1000
    ensures LexLess(UtcStamp(n), UtcStamp(m))
  {
    var a, b := CivilFromDays(m / 1000 / 86_400), CivilFromDays(n / 1000 / 86_400);
    CivilOrder(m / 1000 / 86_400, n / 1000 / 86_400);
    LeadingDigits();
    YearLeadsTheStamp(a, TimeOf(m / 1000), 0x39);
    YearLeadsTheStamp(b, TimeOf(n / 1000), 0x31);
  }
}
