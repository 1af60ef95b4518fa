/** Civil dates: printing epoch milliseconds as ISO-8601 and reading them back.
    Models `ms_to_iso` of crates/agentmeld-server/src/domain.rs and `iso_to_ms` and
    `days_from_civil` of crates/agentmeld-server/src/import.rs. Dafny's division and remainder
    are Euclidean, like `div_euclid`; operands of Rust's `/` are never negative here except in
    `days_from_civil`, where the source itself rounds towards minus infinity. */
module Dates {
  import opened Wrappers
  import opened Text

  const DAY_MS: int := 86_400_000
  const ERA_DAYS: int := 146_097
  const EPOCH_SHIFT: int := 719_468

  datatype Civil = Civil(year: int, month: int, day: int)

  /** Years of an era before year `yoe` take this many days. */
  function DaysBefore(yoe: int): int {
    365 * yoe + yoe / 4 - yoe / 100
  }

  function YearOfEra(doe: int): int {
    (doe - doe / 1460 + doe / 36_524 - doe / 146_096) / 365
  }

  /** The date of a day since the epoch. */
  function CivilFromDays(days: int): Civil {
    var z := days + EPOCH_SHIFT;
    var era, doe := z / ERA_DAYS, z % ERA_DAYS;
    var yoe := YearOfEra(doe);
    DayOfYear(yoe + era * 400, doe - DaysBefore(yoe))
  }

  /** The date of a day of a year that starts in March. */
  function DayOfYear(y: int, doy: int): Civil {
    var mp := (5 * doy + 2) / 153;
    var d := doy - (153 * mp + 2) / 5 + 1;
    var m := if mp < 10 then mp + 3 else mp - 9;
    Civil(if m <= 2 then y + 1 else y, m, d)
  }

  /** `days_from_civil`; its era division truncates, on an operand adjusted for negative years. */
  function DaysFromCivil(c: Civil): int {
    var y := if c.month <= 2 then c.year - 1 else c.year;
    var adjusted := if y >= 0 then y else y - 399;
    var era := if adjusted >= 0 then adjusted / 400 else -((-adjusted) / 400);
    var yoe := y - era * 400;
    var mp := (c.month + 9) % 12;
    var doy := (153 * mp + 2) / 5 + c.day - 1;
    var doe := yoe * 365 + yoe / 4 - yoe / 100 + doy;
    era * ERA_DAYS + doe - EPOCH_SHIFT
  }

  predicate Leap(year: int) {
    year % 4 == 0 && (year % 100 != 0 || year % 400 == 0)
  }

  function MonthLength(year: int, month: int): int {
    if month == 2 then (if Leap(year) then 29 else 28)
    else if month in {4, 6, 9, 11} then 30 else 31
  }

  predicate ValidDate(c: Civil) {
    1 <= c.month <= 12 && 1 <= c.day <= MonthLength(c.year, c.month)
  }

  // ----- the calendar arithmetic -----

  /** A day of an era as century, four-year cycle, year of the cycle and day of the year. */
  lemma YearAt(century: int, cycle: int, year: int, day: int)
    requires 0 <= century <= 3 && 0 <= cycle <= 24 && 0 <= year <= 3
    requires 0 <= day <= 364 || (day == 365 && year == 3 && cycle < 24)
    ensures var doe, yoe := 36_524 * century + 1461 * cycle + 365 * year + day, 100 * century + 4 * cycle + year;
            YearOfEra(doe) == yoe && doe - DaysBefore(yoe) == day
  {
    var doe, yoe := 36_524 * century + 1461 * cycle + 365 * year + day, 100 * century + 4 * cycle + year;
    var extra := 24 * century + cycle + 365 * year + day;
    var q := if extra >= 1460 then 1 else 0;
    assert doe == 1460 * (25 * century + cycle + q) + (extra - 1460 * q);
    assert doe / 1460 == 25 * century + cycle + q;
    assert doe / 36_524 == century;
    assert doe / 146_096 == 0;
    assert doe - doe / 1460 + doe / 36_524 - doe / 146_096 == 365 * yoe + (day - q);
    assert yoe / 4 == 25 * century + cycle && yoe / 100 == century;
  }

  /** The year of a day is one of the era's 400, the day is within that year, and a 366th day only
      occurs when the civil year it ends in is a leap year. */
  /** A day of an era but its last is a day of one of its years. */
  lemma DayOfEra(doe: int) returns (century: int, cycle: int, year: int, day: int)
    requires 0 <= doe < 146_096
    ensures 0 <= century <= 3 && 0 <= cycle <= 24 && 0 <= year <= 3
    ensures 0 <= day <= 364 || (day == 365 && year == 3 && cycle < 24)
    ensures doe == 36_524 * century + 1461 * cycle + 365 * year + day
  {
    var r, t := doe % 36_524, doe % 36_524 % 1461;
    century, cycle := doe / 36_524, r / 1461;
    year := if t / 365 > 3 then 3 else t / 365;
    day := t - 365 * year;
  }

  lemma LeapEnd(century: int, cycle: int)
    requires 0 <= century <= 3 && 0 <= cycle < 24
    ensures Leap(100 * century + 4 * cycle + 4)
  {
  }

  lemma YearBounds(doe: int)
    requires 0 <= doe < ERA_DAYS
    ensures var yoe := YearOfEra(doe); var doy := doe - DaysBefore(yoe);
            0 <= yoe <= 399 && 0 <= doy <= 365 && (doy == 365 ==> Leap(yoe + 1))
  {
    if doe < 146_096 {
      hide YearOfEra, DaysBefore, Leap;
      var century, cycle, year, day := DayOfEra(doe);
      YearAt(century, cycle, year, day);
      if day == 365 { LeapEnd(century, cycle); }
    } else {
      assert doe == 146_096 && doe / 1460 == 100 && doe / 36_524 == 4 && YearOfEra(doe) == 399;
    }
  }

  lemma DayOfYearFacts(y: int, doy: int)
    requires 0 <= doy <= 365 && (doy == 365 ==> Leap(y + 1))
    ensures var c := DayOfYear(y, doy);
            && ValidDate(c) && (if c.month <= 2 then c.year - 1 else c.year) == y
            && (153 * ((c.month + 9) % 12) + 2) / 5 + c.day - 1 == doy
  {
    hide Leap;
    var mp := (5 * doy + 2) / 153;
    assert 0 <= mp <= 11;
    var m := if mp < 10 then mp + 3 else mp - 9;
    assert (m + 9) % 12 == mp;
    assert mp == 11 ==> (doy - 337 == 28 ==> doy == 365);
  }

  lemma LeapPeriod(year: int, era: int)
    ensures Leap(year + 400 * era) <==> Leap(year)
  {
    assert (year + 400 * era) % 400 == year % 400;
    assert (year + 400 * era) % 100 == year % 100 by {
      assert year + 400 * era == year + 100 * (4 * era);
      Cycle(year, 4 * era, 100);
    }
    assert (year + 400 * era) % 4 == year % 4 by {
      assert year + 400 * era == year + 4 * (100 * era);
      Cycle(year, 100 * era, 4);
    }
  }

  lemma Cycle(x: int, k: int, n: int)
    requires n in {4, 100}
    ensures (x + n * k) % n == x % n
  {
  }

  lemma EraOf(yoe: int, era: int)
    requires 0 <= yoe <= 399
    ensures var y := yoe + era * 400; var adjusted := if y >= 0 then y else y - 399;
            (if adjusted >= 0 then adjusted / 400 else -((-adjusted) / 400)) == era
  {
  }

  lemma DaysBack(era: int, yoe: int, doy: int)
    requires 0 <= yoe <= 399 && 0 <= doy <= 365 && (doy == 365 ==> Leap(yoe + era * 400 + 1))
    ensures DaysFromCivil(DayOfYear(yoe + era * 400, doy)) == era * ERA_DAYS + DaysBefore(yoe) + doy - EPOCH_SHIFT
  {
    hide Leap, DayOfYear, ValidDate;
    DayOfYearFacts(yoe + era * 400, doy);
    EraOf(yoe, era);
  }

  /** For every day, the printed date is a date of the calendar and reading it gives the day back. */
  lemma CivilRoundTrip(days: int)
    ensures ValidDate(CivilFromDays(days)) && DaysFromCivil(CivilFromDays(days)) == days
  {
    hide Leap, DayOfYear, ValidDate, YearOfEra, DaysBefore, DaysFromCivil;
    var z := days + EPOCH_SHIFT;
    var era, doe := z / ERA_DAYS, z % ERA_DAYS;
    YearBounds(doe);
    var yoe := YearOfEra(doe);
    var doy := doe - DaysBefore(yoe);
    LeapPeriod(yoe + 1, era);
    assert yoe + 1 + 400 * era == yoe + era * 400 + 1;
    DayOfYearFacts(yoe + era * 400, doy);
    DaysBack(era, yoe, doy);
  }

  /** The year of an era that a day of the era falls in, from the year. */
  lemma YearOfEraBack(yoe: int, doy: int)
    requires 0 <= yoe <= 399 && 0 <= doy <= 365 && (doy == 365 ==> Leap(yoe + 1))
    ensures var doe := DaysBefore(yoe) + doy; 0 <= doe < ERA_DAYS && YearOfEra(doe) == yoe
  {
    if yoe == 399 && doy == 365 {
      assert DaysBefore(399) == 145_731;
      assert YearOfEra(146_096) == 399;
    } else {
      var century, cycle, year := yoe / 100, yoe % 100 / 4, yoe % 4;
      assert yoe == 100 * century + 4 * cycle + year;
      YearAt(century, cycle, year, doy);
      assert DaysBefore(yoe) == 36_524 * century + 1461 * cycle + 365 * year;
    }
  }

  /** A date of the calendar is the day of its March year that its month and day say. */
  lemma DateIsDay(c: Civil)
    requires ValidDate(c)
    ensures var y := if c.month <= 2 then c.year - 1 else c.year;
            var doy := (153 * ((c.month + 9) % 12) + 2) / 5 + c.day - 1;
            0 <= doy <= 365 && (doy == 365 ==> Leap(y + 1)) && DayOfYear(y, doy) == c
  {
    hide Leap;
    var mp := (c.month + 9) % 12;
    assert c.month == if mp < 10 then mp + 3 else mp - 9;
    var doy := (153 * mp + 2) / 5 + c.day - 1;
    assert (5 * doy + 2) / 153 == mp;
  }

  lemma EraAndYear(y: int) returns (era: int, yoe: int)
    ensures 0 <= yoe <= 399 && y == yoe + era * 400
  {
    era, yoe := y / 400, y % 400;
  }

  lemma EraAndDay(era: int, doe: int)
    requires 0 <= doe < ERA_DAYS
    ensures (era * ERA_DAYS + doe) / ERA_DAYS == era && (era * ERA_DAYS + doe) % ERA_DAYS == doe
  {
  }

  /** The other way: every date of the calendar is the date of the day it reads as. */
  lemma DateRoundTrip(c: Civil)
    requires ValidDate(c)
    ensures CivilFromDays(DaysFromCivil(c)) == c
  {
    hide Leap, DayOfYear, ValidDate, YearOfEra, DaysBefore, DaysFromCivil;
    DateIsDay(c);
    var y := if c.month <= 2 then c.year - 1 else c.year;
    var doy := (153 * ((c.month + 9) % 12) + 2) / 5 + c.day - 1;
    var era, yoe := EraAndYear(y);
    LeapPeriod(yoe + 1, era);
    assert yoe + 1 + 400 * era == y + 1;
    DaysBack(era, yoe, doy);
    YearOfEraBack(yoe, doy);
    EraAndDay(era, DaysBefore(yoe) + doy);
  }

  // ----- the calendar, day by day -----

  /** The date after a date. */
  function Tomorrow(c: Civil): Civil {
    if c.day < MonthLength(c.year, c.month) then c.(day := c.day + 1)
    else if c.month < 12 then Civil(c.year, c.month + 1, 1)
    else Civil(c.year + 1, 1, 1)
  }

  /** The first of March of a year, in days since the epoch. */
  function MarchFirst(y: int): int {
    365 * y + y / 4 - y / 100 + y / 400 - 719_468
  }

  lemma DaysFromMarch(c: Civil)
    requires ValidDate(c)
    ensures var y := if c.month <= 2 then c.year - 1 else c.year;
            DaysFromCivil(c) == MarchFirst(y) + (153 * ((c.month + 9) % 12) + 2) / 5 + c.day - 1
  {
    hide Leap;
    var y := if c.month <= 2 then c.year - 1 else c.year;
    var era, yoe := EraAndYear(y);
    EraOf(yoe, era);
    Quotients(yoe, era);
  }

  lemma Quotients(yoe: int, era: int)
    requires 0 <= yoe <= 399
    ensures var y := yoe + era * 400;
            y / 4 == yoe / 4 + 100 * era && y / 100 == yoe / 100 + 4 * era && y / 400 == era
  {
  }

  lemma Carry(y: int)
    ensures (y + 1) / 4 == y / 4 + if (y + 1) % 4 == 0 then 1 else 0
    ensures (y + 1) / 100 == y / 100 + if (y + 1) % 100 == 0 then 1 else 0
    ensures (y + 1) / 400 == y / 400 + if (y + 1) % 400 == 0 then 1 else 0
  {
  }

  lemma Multiples(n: int)
    ensures n % 100 == 0 ==> n % 4 == 0
    ensures n % 400 == 0 ==> n % 100 == 0
  {
    if n % 100 == 0 {
      assert n == 4 * (25 * (n / 100));
      Cycle(0, 25 * (n / 100), 4);
    }
    if n % 400 == 0 {
      assert n == 100 * (4 * (n / 400));
      Cycle(0, 4 * (n / 400), 100);
    }
  }

  lemma NextMarch(y: int)
    ensures MarchFirst(y + 1) == MarchFirst(y) + if Leap(y + 1) then 366 else 365
  {
    Carry(y);
    Multiples(y + 1);
    Sums(y);
  }

  lemma Sums(y: int)
    ensures MarchFirst(y + 1) - MarchFirst(y) ==
              365 + ((y + 1) / 4 - y / 4) - ((y + 1) / 100 - y / 100) + ((y + 1) / 400 - y / 400)
  {
  }

  lemma MonthsAddUp(month: int)
    requires 1 <= month <= 12 && month != 2
    ensures (153 * ((month + 10) % 12) + 2) / 5 == (153 * ((month + 9) % 12) + 2) / 5 + MonthLength(0, month)
  {
  }

  lemma NextDayNumber(c: Civil)
    requires ValidDate(c)
    ensures ValidDate(Tomorrow(c)) && DaysFromCivil(Tomorrow(c)) == DaysFromCivil(c) + 1
  {
    hide Leap, DaysFromCivil, MarchFirst;
    var n := Tomorrow(c);
    DaysFromMarch(c);
    DaysFromMarch(n);
    if c.day == MonthLength(c.year, c.month) {
      if c.month == 2 { NextMarch(c.year - 1); } else { MonthsAddUp(c.month); }
    }
  }

  /** Day 0 is 1 January 1970, and each day is printed as the date after the one before it. */
  lemma DayByDay(days: int)
    ensures CivilFromDays(0) == Civil(1970, 1, 1)
    ensures CivilFromDays(days + 1) == Tomorrow(CivilFromDays(days))
  {
    hide CivilFromDays, DaysFromCivil, Tomorrow, ValidDate;
    assert CivilFromDays(0) == Civil(1970, 1, 1) by { EpochDay(); }
    CivilRoundTrip(days);
    NextDayNumber(CivilFromDays(days));
    DateRoundTrip(Tomorrow(CivilFromDays(days)));
  }

  lemma EpochDay()
    ensures CivilFromDays(0) == Civil(1970, 1, 1)
  {
  }

  // ----- the text -----

  /** `{:04}`: the width counts the sign of a negative year. */
  function YearText(year: int): string {
    if year >= 0 then Padded(year, 4) else "-" + Padded(-year, 3)
  }

  function TimeText(t: nat): string
    requires t < 86_400_000
  {
    Padded(t / 3_600_000, 2) + ":" + Padded(t / 60_000 % 60, 2) + ":" + Padded(t / 1000 % 60, 2) + "." +
        Padded(t % 1000, 3)
  }

  function DateText(c: Civil): string
    requires ValidDate(c)
  {
    YearText(c.year) + "-" + Padded(c.month, 2) + "-" + Padded(c.day, 2)
  }

  /** `ms_to_iso`. */
  function IsoFromMs(ms: int): string {
    CivilRoundTrip(ms / DAY_MS);
    DateText(CivilFromDays(ms / DAY_MS)) + "T" + TimeText(ms % DAY_MS) + "Z"
  }

  // ----- the printed text, character by character -----

  function Ascii(n: nat): char
    requires n < 10
  {
    (48 + n) as char
  }

  /** Exactly `w` decimal digits. */
  function Fixed(n: nat, w: nat): (s: string)
    ensures |s| == w
  {
    if w == 0 then "" else Fixed(n / 10, w - 1) + [Ascii(n % 10)]
  }

  predicate Fits(n: nat, w: nat) {
    if w == 0 then n == 0 else Fits(n / 10, w - 1)
  }

  lemma {:induction false} DecimalFixed(n: nat)
    ensures Decimal(n) == Fixed(n, |Decimal(n)|) && Fits(n, |Decimal(n)|)
  {
    assert Digit(n % 10) == Ascii(n % 10);
    if n >= 10 { DecimalFixed(n / 10); } else { assert Fixed(n / 10, 0) == "" && Fits(n / 10, 0); }
  }

  lemma {:induction false} OneMoreZero(n: nat, w: nat)
    requires Fits(n, w)
    ensures Fixed(n, w + 1) == "0" + Fixed(n, w) && Fits(n, w + 1)
  {
    if w > 0 { OneMoreZero(n / 10, w - 1); }
  }

  lemma {:induction false} ZerosFixed(k: nat, n: nat, w: nat)
    requires Fits(n, w)
    ensures Zeros(k) + Fixed(n, w) == Fixed(n, k + w)
  {
    if k == 0 {
      assert Zeros(0) + Fixed(n, w) == Fixed(n, w);
    } else {
      OneMoreZero(n, w);
      ZerosFixed(k - 1, n, w + 1);
      assert Zeros(k) + Fixed(n, w) == Zeros(k - 1) + ("0" + Fixed(n, w));
    }
  }

  lemma PaddedFixed(n: nat, w: nat)
    requires 1 <= |Decimal(n)| <= w
    ensures Padded(n, w) == Fixed(n, w)
  {
    hide Decimal, Zeros, Fixed;
    DecimalFixed(n);
    ZerosFixed(w - |Decimal(n)|, n, |Decimal(n)|);
  }

  /** For the years 0 to 9999 the text is `YYYY-MM-DDThh:mm:ss.mmmZ`, 24 characters, of the date of the day
      and the time of the day in UTC. */
  lemma IsoText(ms: int)
    requires 0 <= CivilFromDays(ms / 86_400_000).year <= 9999
    ensures var c, t := CivilFromDays(ms / 86_400_000), ms % 86_400_000;
            && 1 <= c.month <= 12 && 1 <= c.day <= 31
            && IsoFromMs(ms) ==
                 Fixed(c.year, 4) + "-" + Fixed(c.month, 2) + "-" + Fixed(c.day, 2) + "T"
                 + Fixed(t / 3_600_000, 2) + ":" + Fixed(t % 3_600_000 / 60_000, 2) + ":"
                 + Fixed(t % 60_000 / 1000, 2) + "." + Fixed(t % 1000, 3) + "Z"
  {
    hide CivilFromDays, Padded, Fixed, Decimal, Leap;
    CivilRoundTrip(ms / 86_400_000);
    var c, t := CivilFromDays(ms / 86_400_000), ms % 86_400_000;
    ClockParts(t);
    FourDigits(c.year);
    TwoDigits(c.month);
    TwoDigits(c.day);
    TwoDigits(t / 3_600_000);
    TwoDigits(t / 60_000 % 60);
    TwoDigits(t / 1000 % 60);
    ThreeDigits(t % 1000);
    PaddedFixed(c.year, 4);
    PaddedFixed(c.month, 2);
    PaddedFixed(c.day, 2);
    PaddedFixed(t / 3_600_000, 2);
    PaddedFixed(t / 60_000 % 60, 2);
    PaddedFixed(t / 1000 % 60, 2);
    PaddedFixed(t % 1000, 3);
  }

  lemma ClockParts(t: nat)
    requires t < 86_400_000
    ensures t / 3_600_000 < 24 && t / 60_000 % 60 == t % 3_600_000 / 60_000 && t / 1000 % 60 == t % 60_000 / 1000
  {
    var seconds := t / 1000;
    var minutes := seconds / 60;
    assert t / 60_000 == minutes && t / 3_600_000 == minutes / 60;
    assert t % 3_600_000 == t - 3_600_000 * (minutes / 60) && t % 60_000 == t - 60_000 * minutes;
  }

  lemma FourDigits(n: nat)
    requires n < 10_000
    ensures |Decimal(n)| <= 4
  {
    if n >= 10 { ThreeDigits(n / 10); }
  }

  function SplitOnce(s: string, c: char): Option<(string, string)> {
    var i := IndexOf(s, c);
    if i < 0 then None else Some((s[..i], s[i + 1..]))
  }

  /** Three digits of a fraction, cut or filled with zeros. */
  function Millis(frac: string): Option<int> {
    var f := if |frac| > 3 then frac[..3] else frac;
    ParseI64(f + Zeros(3 - |f|))
  }

  function Parts(s: string, c: char): Option<(int, int, int)> {
    var ps := Split(s, c);
    if |ps| != 3 then None else
    var x, y, z := ParseI64(ps[0]), ParseI64(ps[1]), ParseI64(ps[2]);
    if x.Some? && y.Some? && z.Some? then Some((x.value, y.value, z.value)) else None
  }

  /** `iso_to_ms`. */
  function MsFromIso(text: string): Option<int> {
    if text == "" || text[|text| - 1] != 'Z' then None else
    var halves := SplitOnce(text[..|text| - 1], 'T');
    if halves.None? then None else
    var dated := Parts(halves.value.0, '-');
    var dot := SplitOnce(halves.value.1, '.');
    var clock := if dot.Some? then dot.value.0 else halves.value.1;
    var timed := Parts(clock, ':');
    var frac := Millis(if dot.Some? then dot.value.1 else "0");
    if dated.None? || timed.None? || frac.None? then None else
    var (y, m, d) := dated.value;
    var (hh, mm, ss) := timed.value;
    if !(1 <= m <= 12) || !(1 <= d <= 31) || hh > 23 || mm > 59 || ss > 60 then None
    else Some(DaysFromCivil(Civil(y, m, d)) * DAY_MS + hh * 3_600_000 + mm * 60_000 + ss * 1000 + frac.value)
  }

  // ----- reading back what was printed -----

  predicate Digits(s: string) {
    forall i | 0 <= i < |s| :: '0' <= s[i] <= '9'
  }

  lemma PaddedReads(n: nat, w: nat)
    requires n <= I64_MAX
    ensures Digits(Padded(n, w)) && ParseI64(Padded(n, w)) == Some(n)
  {
    hide Padded, ParseDigits, ParseI64;
    PaddedFacts(n, w);
    ParsePlain(Padded(n, w));
  }

  lemma NoSeparator(s: string, c: char)
    requires Digits(s) && !('0' <= c <= '9')
    ensures c !in s && IndexOf(s, c) < 0 && Split(s, c) == [s]
  {
  }

  lemma PartsRead(x: nat, y: nat, z: nat, w: nat, c: char)
    requires x <= I64_MAX && y <= I64_MAX && z <= I64_MAX && !('0' <= c <= '9')
    ensures Parts(Padded(x, w) + [c] + Padded(y, 2) + [c] + Padded(z, 2), c) == Some((x, y, z))
  {
    hide Padded, ParseI64, Split, IndexOf;
    PaddedReads(x, w);
    PaddedReads(y, 2);
    PaddedReads(z, 2);
    var a, b, d := Padded(x, w), Padded(y, 2), Padded(z, 2);
    NoSeparator(a, c);
    NoSeparator(b, c);
    NoSeparator(d, c);
    SplitHead(b, c, d);
    SplitHead(a, c, b + [c] + d);
    assert a + [c] + b + [c] + d == a + [c] + (b + [c] + d);
  }

  lemma MillisRead(n: nat)
    requires n < 1000
    ensures Millis(Padded(n, 3)) == Some(n)
  {
    hide Padded, ParseI64, Decimal;
    PaddedReads(n, 3);
    PaddedFacts(n, 3);
    ThreeDigits(n);
    assert Padded(n, 3) + Zeros(0) == Padded(n, 3);
  }

  lemma TwoDigits(n: nat)
    requires n < 100
    ensures |Decimal(n)| <= 2
  {
    assert n >= 10 ==> n / 10 < 10;
  }

  lemma ThreeDigits(n: nat)
    requires n < 1000
    ensures |Decimal(n)| <= 3
  {
    if n >= 10 { TwoDigits(n / 10); }
  }

  /** The clock part reads back. */
  lemma TimeReads(t: nat)
    requires t < 86_400_000
    ensures var text := TimeText(t); var dot := SplitOnce(text, '.');
            && 'T' !in text && dot.Some?
            && Parts(dot.value.0, ':') == Some((t / 3_600_000, t / 60_000 % 60, t / 1000 % 60))
            && Millis(dot.value.1) == Some(t % 1000)
  {
    hide Padded, Parts, Millis, Split, IndexOf;
    var hh, mm, ss, f := t / 3_600_000, t / 60_000 % 60, t / 1000 % 60, t % 1000;
    PartsRead(hh, mm, ss, 2, ':');
    MillisRead(f);
    var a, b, c, d := Padded(hh, 2), Padded(mm, 2), Padded(ss, 2), Padded(f, 3);
    PaddedReads(hh, 2);
    PaddedReads(mm, 2);
    PaddedReads(ss, 2);
    PaddedReads(f, 3);
    var clock := a + [':'] + b + [':'] + c;
    assert '.' !in clock;
    SplitHead(clock, '.', d);
    assert TimeText(t) == clock + ['.'] + d;
  }

  lemma ClockAddsUp(t: nat)
    requires t < 86_400_000
    ensures t / 3_600_000 <= 23
    ensures t / 3_600_000 * 3_600_000 + t / 60_000 % 60 * 60_000 + t / 1000 % 60 * 1000 + t % 1000 == t
  {
    var seconds := t / 1000;
    var minutes := seconds / 60;
    assert t / 60_000 == minutes;
    assert t / 3_600_000 == minutes / 60;
  }

  /** A date text with a year that is not negative reads back; with a negative year it has an empty
      first part and does not. */
  lemma DateReads(c: Civil)
    requires ValidDate(c) && c.year <= I64_MAX
    ensures 'T' !in DateText(c)
    ensures Parts(DateText(c), '-') == if c.year >= 0 then Some((c.year, c.month, c.day)) else None
  {
    hide Padded, ParseI64, Split, IndexOf;
    PaddedFacts(if c.year >= 0 then c.year else -c.year, if c.year >= 0 then 4 else 3);
    PaddedReads(c.month, 2);
    PaddedReads(c.day, 2);
    if c.year >= 0 {
      PartsRead(c.year, c.month, c.day, 4, '-');
      assert DateText(c) == Padded(c.year, 4) + ['-'] + Padded(c.month, 2) + ['-'] + Padded(c.day, 2);
    } else {
      var rest := Padded(-c.year, 3) + "-" + Padded(c.month, 2) + "-" + Padded(c.day, 2);
      assert DateText(c) == "" + ['-'] + rest;
      SplitHead("", '-', rest);
      EmptyIsNoNumber();
    }
  }

  lemma EmptyIsNoNumber()
    ensures ParseI64("").None?
  {
  }

  predicate IsI64(n: int) {
    -(I64_MAX as int) - 1 <= n <= I64_MAX
  }

  lemma YearFits(ms: int)
    requires IsI64(ms)
    ensures CivilFromDays(ms / DAY_MS).year <= I64_MAX
  {
    hide YearOfEra, DaysBefore, Leap;
    var z := ms / DAY_MS + EPOCH_SHIFT;
    YearBounds(z % ERA_DAYS);
    assert z <= 200_000_000_000;
    assert z / ERA_DAYS <= 2_000_000;
  }

  /** The first millisecond of year 0. */
  const YEAR_ZERO_MS: int := -62_167_219_200_000

  lemma LastYearOfEra(doe: int)
    requires 0 <= doe < ERA_DAYS
    ensures var yoe := YearOfEra(doe);
            0 <= yoe <= 399 && (yoe == 399 <==> doe >= 145_731) && (yoe == 399 ==> DaysBefore(yoe) == 145_731)
  {
    hide YearOfEra;
    YearBounds(doe);
    var yoe := YearOfEra(doe);
    if yoe == 398 { assert !Leap(399); }
  }

  /** The years from 0 on begin on the day that is the first of January of year 0. */
  lemma YearIsNotNegative(days: int)
    ensures CivilFromDays(days).year >= 0 <==> days >= -719_528
  {
    hide YearOfEra, Leap, DaysBefore;
    var z := days + EPOCH_SHIFT;
    var era, doe := z / ERA_DAYS, z % ERA_DAYS;
    LastYearOfEra(doe);
    YearBounds(doe);
    assert era >= 0 <==> z >= 0;
    assert era >= -1 <==> z >= -ERA_DAYS;
  }

  /** For every 64-bit timestamp, reading the printed text gives it back exactly when it is not before
      year 0. */
  lemma TimestampRoundTrip(ms: int)
    requires IsI64(ms)
    ensures MsFromIso(IsoFromMs(ms)) == if ms >= YEAR_ZERO_MS then Some(ms) else None
  {
    hide DateText, TimeText, Parts, Millis, IndexOf, DaysFromCivil, CivilFromDays, ValidDate;
    var days, t := ms / DAY_MS, ms % DAY_MS;
    CivilRoundTrip(days);
    YearFits(ms);
    YearIsNotNegative(days);
    assert days >= -719_528 <==> ms >= YEAR_ZERO_MS;
    var c := CivilFromDays(days);
    DateReads(c);
    TimeReads(t);
    ClockAddsUp(t);
    DateInRange(c);
    SplitHead(DateText(c), 'T', TimeText(t));
    var text := IsoFromMs(ms);
    assert text[..|text| - 1] == DateText(c) + ['T'] + TimeText(t);
  }

  /** The last timestamp whose text cannot be read: one millisecond before year 0. */
  lemma UnreadableTimestamp()
    ensures MsFromIso(IsoFromMs(-62_167_219_200_001)).None?
  {
    hide IsoFromMs, MsFromIso;
    TimestampRoundTrip(-62_167_219_200_001);
  }

  lemma DateInRange(c: Civil)
    requires ValidDate(c)
    ensures 1 <= c.month <= 12 && 1 <= c.day <= 31
  {
    hide Leap;
  }

  // ----- what is read -----

  /** The clock as written: hours, minutes and seconds, and a fraction or none. */
  function ClockText(hh: nat, mm: nat, ss: nat, fraction: Option<string>): string {
    Padded(hh, 2) + ":" + Padded(mm, 2) + ":" + Padded(ss, 2)
    + if fraction.Some? then "." + fraction.value else ""
  }

  lemma ClockReads(hh: nat, mm: nat, ss: nat, fraction: Option<string>)
    requires hh <= I64_MAX && mm <= I64_MAX && ss <= I64_MAX && (fraction.Some? ==> Digits(fraction.value))
    ensures var text := ClockText(hh, mm, ss, fraction); var dot := SplitOnce(text, '.');
            && 'T' !in text && (dot.Some? <==> fraction.Some?)
            && (dot.Some? ==> dot.value.1 == fraction.value)
            && Parts(if dot.Some? then dot.value.0 else text, ':') == Some((hh, mm, ss))
  {
    hide Padded, Parts, Split, IndexOf;
    PartsRead(hh, mm, ss, 2, ':');
    PaddedReads(hh, 2);
    PaddedReads(mm, 2);
    PaddedReads(ss, 2);
    var clock := Padded(hh, 2) + [':'] + Padded(mm, 2) + [':'] + Padded(ss, 2);
    assert '.' !in clock;
    if fraction.Some? {
      SplitHead(clock, '.', fraction.value);
      assert ClockText(hh, mm, ss, fraction) == clock + ['.'] + fraction.value;
    } else {
      assert ClockText(hh, mm, ss, fraction) == clock;
      NotFound(clock, '.');
    }
  }

  lemma NotFound(s: string, c: char)
    requires c !in s
    ensures IndexOf(s, c) < 0
  {
  }

  lemma FractionReads(n: nat, more: string)
    requires n < 1000 && Digits(more)
    ensures Millis(Padded(n, 3) + more) == Some(n) && Digits(Padded(n, 3) + more)
  {
    hide Padded, ParseI64, Decimal;
    PaddedReads(n, 3);
    PaddedFacts(n, 3);
    ThreeDigits(n);
    MillisRead(n);
    if more != "" {
      assert (Padded(n, 3) + more)[..3] == Padded(n, 3);
    } else {
      assert Padded(n, 3) + more == Padded(n, 3);
    }
    assert Padded(n, 3) + Zeros(0) == Padded(n, 3);
  }

  /** What reading gives for any date and time in digits, with no fraction or one of three or more digits
      (those after the third are dropped): the milliseconds since the epoch, if and only if month,
      day, hour, minute and second are in range. A leap second is let through; a day that its month does
      not have is taken as the days after it. */
  lemma IsoReads(year: nat, month: nat, day: nat, hh: nat, mm: nat, ss: nat, millis: Option<nat>, more: string)
    requires year <= I64_MAX && month <= I64_MAX && day <= I64_MAX && hh <= I64_MAX && mm <= I64_MAX && ss <= I64_MAX
    requires Digits(more) && (millis.Some? ==> millis.value < 1000)
    ensures var fraction := if millis.Some? then Some(Padded(millis.value, 3) + more) else None;
            var text := Padded(year, 4) + "-" + Padded(month, 2) + "-" + Padded(day, 2) + "T"
                        + ClockText(hh, mm, ss, fraction) + "Z";
            MsFromIso(text) ==
              if 1 <= month <= 12 && 1 <= day <= 31 && hh <= 23 && mm <= 59 && ss <= 60
              then Some(DaysFromCivil(Civil(year, month, day)) * 86_400_000 + hh * 3_600_000 + mm * 60_000 + ss * 1000
                        + if millis.Some? then millis.value else 0)
              else None
  {
    hide Padded, Digits, DaysFromCivil, ClockText, MsFromIso;
    var fraction := if millis.Some? then Some(Padded(millis.value, 3) + more) else None;
    if millis.Some? { FractionReads(millis.value, more); }
    PartsRead(year, month, day, 4, '-');
    NoTee(year, month, day);
    ClockReads(hh, mm, ss, fraction);
    var date, clock := Padded(year, 4) + ['-'] + Padded(month, 2) + ['-'] + Padded(day, 2),
        ClockText(hh, mm, ss, fraction);
    var text := Padded(year, 4) + "-" + Padded(month, 2) + "-" + Padded(day, 2) + "T" + clock + "Z";
    assert text == date + ['T'] + clock + ['Z'];
    HalvesRead(date, clock, (year, month, day), (hh, mm, ss), if millis.Some? then millis.value else 0);
  }

  /** From the readings of the parts. */
  lemma HalvesRead(date: string, clock: string, d: (int, int, int), t: (int, int, int), millis: int)
    requires 'T' !in date && Parts(date, '-') == Some(d)
    requires var dot := SplitOnce(clock, '.');
             && Parts(if dot.Some? then dot.value.0 else clock, ':') == Some(t)
             && (if dot.Some? then Millis(dot.value.1) == Some(millis) else millis == 0)
    ensures MsFromIso(date + ['T'] + clock + ['Z']) ==
              if 1 <= d.1 <= 12 && 1 <= d.2 <= 31 && t.0 <= 23 && t.1 <= 59 && t.2 <= 60
              then Some(DaysFromCivil(Civil(d.0, d.1, d.2)) * 86_400_000 + t.0 * 3_600_000 + t.1 * 60_000 + t.2 * 1000
                        + millis)
              else None
  {
    hide Parts, Millis, IndexOf, DaysFromCivil;
    ZeroFraction();
    SplitHead(date, 'T', clock);
    var text := date + ['T'] + clock + ['Z'];
    assert text[..|text| - 1] == date + ['T'] + clock;
  }

  lemma ZeroFraction()
    ensures Millis("0") == Some(0)
  {
    assert Zeros(1) == "0" && Zeros(2) == "00";
    assert "0" + Zeros(2) == "000" && "000"[..2] == "00" && "00"[..1] == "0";
    assert ParseDigits("0") == Some(0) && ParseDigits("00") == Some(0) && ParseDigits("000") == Some(0);
  }

  lemma NoTee(year: nat, month: nat, day: nat)
    requires year <= I64_MAX && month <= I64_MAX && day <= I64_MAX
    ensures 'T' !in Padded(year, 4) + ['-'] + Padded(month, 2) + ['-'] + Padded(day, 2)
  {
    hide Padded;
    PaddedReads(year, 4);
    PaddedReads(month, 2);
    PaddedReads(day, 2);
  }
}
