/**
 Date stamps and calendar dates: the proleptic Gregorian calendar of section 3.2.1 of
 ISO 8601:2004 counted in days, in both directions and without a loop.
 */
module Calendar {
  import opened Words
  import opened Disk

  datatype Civil = Civil(year: int, month: int, day: int)

  predicate IsLeap(y: int) {
    (y % 4 == 0 && y % 100 != 0) || y % 400 == 0
  }

  function DaysInMonth(y: int, m: int): int {
    if m == 2 then (if IsLeap(y) then 29 else 28)
    else if m == 4 || m == 6 || m == 9 || m == 11 then 30
    else if 1 <= m <= 12 then 31 else 0
  }

  predicate IsDate(c: Civil) {
    1 <= c.month <= 12 && 1 <= c.day <= DaysInMonth(c.year, c.month)
  }

  /** The calendar itself: the day after `c`. */
  function NextDay(c: Civil): Civil {
    if c.day < DaysInMonth(c.year, c.month) then c.(day := c.day + 1)
    else if c.month < 12 then Civil(c.year, c.month + 1, 1)
    else Civil(c.year + 1, 1, 1)
  }

  // ---- Eras of four centuries, years from March -------------------------------------------------

  const ERA: int := 146_097
  const SHIFT: int := 719_468

  function YearOfEra(doe: int): int {
    (doe - doe / 1460 + doe / 36524 - doe / 146096) / 365
  }

  /** The first day of year `k` of an era. */
  function YearStart(k: int): int {
    365 * k + k / 4 - k / 100 + k / 400
  }

  function MonthOfYear(doy: int): int {
    (5 * doy + 2) / 153
  }

  /** The first day of the `mp`th month from March. */
  function MonthStart(mp: int): int {
    (153 * mp + 2) / 5
  }

  /** The date of the day `n` days after the first of January 1970. */
  function CivilFromDays(n: int): Civil {
    var z := n + SHIFT;
    var era, doe := z / ERA, z % ERA;
    var yoe := YearOfEra(doe);
    var doy := doe - (365 * yoe + yoe / 4 - yoe / 100);
    var mp := MonthOfYear(doy);
    var month := if mp < 10 then mp + 3 else mp - 9;
    Civil(yoe + era * 400 + (if month <= 2 then 1 else 0), month, doy - MonthStart(mp) + 1)
  }

  function DaysFromCivil(c: Civil): Option<int> {
    if !(1 <= c.month <= 12) || c.day < 1 || c.day > DaysInMonth(c.year, c.month) then None
    else
      var y := c.year - if c.month <= 2 then 1 else 0;
      var era, yoe := y / 400, y % 400;
      var doy := MonthStart(if c.month > 2 then c.month - 3 else c.month + 9) + c.day - 1;
      Some(era * ERA + (yoe * 365 + yoe / 4 - yoe / 100 + doy) - SHIFT)
  }

  lemma Numerator(doe: int, c: int, r: int, q: int, s: int)
    requires 0 <= c <= 3 && doe == 36524 * c + r && 0 <= r && (r < 36524 || (c == 3 && r == 36524))
    requires r == 1461 * q + s && 0 <= s < 1461 && 0 <= q <= 24
    ensures doe - doe / 1460 + doe / 36524 - doe / 146096 == 36500 * c + 1460 * q + s - if 24 * c + q + s >= 1460
              then 1 else 0
  {
    var over := 24 * c + q + s;
    if over >= 1460 { DivIs(doe, 1460, 25 * c + q + 1, over - 1460); } else { DivIs(doe, 1460, 25 * c + q, over); }
    if r == 36524 {
      DivIs(doe, 36524, 4, 0);
      DivIs(doe, 146096, 1, 0);
    } else {
      DivIs(doe, 36524, c, r);
      DivIs(doe, 146096, 0, doe);
    }
  }

  lemma Starts(c: int, q: int, y: int)
    requires 0 <= c <= 3 && 0 <= q <= 24 && 0 <= y <= 3
    ensures YearStart(100 * c + 4 * q + y) == 36524 * c + 1461 * q + 365 * y
    ensures YearStart(100 * c + 4 * q + y + 1) ==
              36524 * c + 1461 * q + 365 * (y + 1) + if y < 3 then 0 else if q < 24 then 1 else if c < 3 then 0 else 1
  {
    var k := 100 * c + 4 * q + y;
    StartIs(k, c, q, y);
    if y < 3 {
      StartIs(k + 1, c, q, y + 1);
    } else if q < 24 {
      StartIs(k + 1, c, q + 1, 0);
    } else if c < 3 {
      StartIs(k + 1, c + 1, 0, 0);
    } else {
      Ends();
    }
  }

  lemma StartIs(k: int, c: int, q: int, y: int)
    requires 0 <= c <= 3 && 0 <= q <= 24 && 0 <= y <= 3 && k == 100 * c + 4 * q + y
    ensures YearStart(k) == 36524 * c + 1461 * q + 365 * y
  {
    DivIs(k, 4, 25 * c + q, y);
    DivIs(k, 100, c, 4 * q + y);
    DivIs(k, 400, 0, k);
  }

  /** A day of the era as century, cycle of four years, year of the cycle and day of the year. */
  ghost predicate Divided(doe: int, c: int, q: int, y: int, t: int) {
    && 0 <= c <= 3 && 0 <= q <= 24 && 0 <= y <= 3 && 0 <= t <= 365
    && doe == 36524 * c + 1461 * q + 365 * y + t
    && (t == 365 ==> y == 3 && (q < 24 || c == 3))
  }

  lemma DividedExists(doe: int) returns (c: int, q: int, y: int, t: int)
    requires 0 <= doe < ERA
    ensures Divided(doe, c, q, y, t)
  {
    c := if doe < 36524 then 0 else if doe < 73048 then 1 else if doe < 109572 then 2 else 3;
    var r := doe - 36524 * c;
    q := r / 1461;
    var s := r - 1461 * q;
    y := if s < 365 then 0 else if s < 730 then 1 else if s < 1095 then 2 else 3;
    t := s - 365 * y;
  }

  lemma DividedYear(doe: int, c: int, q: int, y: int, t: int)
    requires Divided(doe, c, q, y, t)
    ensures YearOfEra(doe) == 100 * c + 4 * q + y
  {
    var s := 365 * y + t;
    Numerator(doe, c, 1461 * q + s, q, s);
    var e := if 24 * c + q + s >= 1460 then 1 else 0;
    DivIs(36500 * c + 1460 * q + s - e, 365, 100 * c + 4 * q + y, t - e);
  }

  /** The closed form finds the year of the era a day is in. */
  lemma YearIsFound(doe: int)
    requires 0 <= doe < ERA
    ensures 0 <= YearOfEra(doe) <= 399
    ensures YearStart(YearOfEra(doe)) <= doe < YearStart(YearOfEra(doe) + 1)
  {
    hide YearOfEra, YearStart;
    var c, q, y, t := DividedExists(doe);
    DividedYear(doe, c, q, y, t);
    Starts(c, q, y);
  }

  lemma YearLength(k: int)
    requires 0 <= k <= 399
    ensures YearStart(k + 1) == YearStart(k) + 365 + if IsLeap(k + 1) then 1 else 0
    ensures YearStart(k) == 365 * k + k / 4 - k / 100
  {
    var c := if k < 100 then 0 else if k < 200 then 1 else if k < 300 then 2 else 3;
    var q := (k - 100 * c) / 4;
    var y := k - 100 * c - 4 * q;
    hide IsLeap, YearStart;
    Starts(c, q, y);
    LeapIs(c, q, y);
    StartOfYear(k);
  }

  lemma StartOfYear(k: int)
    requires 0 <= k <= 399
    ensures YearStart(k) == 365 * k + k / 4 - k / 100
  {
    DivIs(k, 400, 0, k);
  }

  lemma LeapIs(c: int, q: int, y: int)
    requires 0 <= c <= 3 && 0 <= q <= 24 && 0 <= y <= 3
    ensures IsLeap(100 * c + 4 * q + y + 1) <==> y == 3 && (q < 24 || c == 3)
  {
    var k, u := 100 * c + 4 * q + y + 1, 4 * q + y + 1;
    DivIs(k, 4, if y < 3 then 25 * c + q else 25 * c + q + 1, if y < 3 then y + 1 else 0);
    DivIs(k, 100, if u < 100 then c else c + 1, if u < 100 then u else 0);
    DivIs(k, 400, if k < 400 then 0 else 1, if k < 400 then k else 0);
  }

  lemma {:induction false} YearsGrow(a: int, b: int)
    requires 0 <= a < b <= 400
    ensures YearStart(a + 1) <= YearStart(b)
    decreases b - a
  {
    if a + 1 < b {
      YearLength(b - 1);
      YearsGrow(a, b - 1);
    }
  }

  lemma YearIsOnly(doe: int, k: int)
    requires 0 <= doe < ERA && 0 <= k <= 399 && YearStart(k) <= doe < YearStart(k + 1)
    ensures YearOfEra(doe) == k
  {
    YearIsFound(doe);
    hide YearOfEra, YearStart;
    var j := YearOfEra(doe);
    if j < k { YearsGrow(j, k); }
    if k < j { YearsGrow(k, j); }
  }

  // ---- Months ---------------------------------------------------------------------------------------

  lemma MonthIsFound(doy: int)
    requires 0 <= doy <= 365
    ensures 0 <= MonthOfYear(doy) <= 11
    ensures MonthStart(MonthOfYear(doy)) <= doy < MonthStart(MonthOfYear(doy) + 1)
  {}

  /** How long the months from March are; February is cut short by the year. */
  lemma MonthLengths(mp: int)
    requires 0 <= mp <= 11
    ensures MonthStart(mp + 1) - MonthStart(mp) == if mp == 1 || mp == 3 || mp == 6 || mp == 8
              || mp == 11 then 30 else 31
    ensures MonthStart(0) == 0 && MonthStart(11) == 337 && 0 <= MonthStart(mp) <= 337
  {}

  lemma MonthIsOnly(doy: int, mp: int)
    requires 0 <= doy <= 365 && 0 <= mp <= 11 && MonthStart(mp) <= doy < MonthStart(mp + 1)
    ensures MonthOfYear(doy) == mp
  {}

  // ---- There and back -------------------------------------------------------------------------------

  /** A day as era, year of the era from March, month from March and day of the month:
      what both directions agree on. */
  ghost predicate Reckoned(n: int, era: int, yoe: int, mp: int, dom: int) {
    && 0 <= yoe <= 399 && 0 <= mp <= 11 && 0 <= dom < MonthStart(mp + 1) - MonthStart(mp)
    && n + SHIFT == era * ERA + YearStart(yoe) + MonthStart(mp) + dom
    && YearStart(yoe) + MonthStart(mp) + dom < YearStart(yoe + 1)
  }

  function CivilOf(era: int, yoe: int, mp: int, dom: int): Civil {
    var month := if mp < 10 then mp + 3 else mp - 9;
    Civil(yoe + era * 400 + (if month <= 2 then 1 else 0), month, dom + 1)
  }

  lemma EraBounds(yoe: int, day: int)
    requires 0 <= yoe <= 399 && YearStart(yoe) <= day < YearStart(yoe + 1)
    ensures 0 <= day < ERA && day - YearStart(yoe) <= 365
  {
    YearLength(yoe);
    if yoe > 0 { YearsGrow(0, yoe); }
    if yoe < 399 { YearsGrow(yoe, 399); YearLength(399); }
    assert YearStart(0) == 0 && YearStart(400) == ERA;
    hide YearStart;
    if yoe < 399 { YearsGrow(yoe, 400); }
  }

  lemma ReckonedForward(n: int, era: int, yoe: int, mp: int, dom: int)
    requires Reckoned(n, era, yoe, mp, dom)
    ensures CivilFromDays(n) == CivilOf(era, yoe, mp, dom)
  {
    var doy := MonthStart(mp) + dom;
    var doe := YearStart(yoe) + doy;
    hide YearStart, MonthStart, YearOfEra, MonthOfYear;
    MonthLengths(mp);
    EraBounds(yoe, doe);
    DivIs(n + SHIFT, ERA, era, doe);
    YearIsOnly(doe, yoe);
    YearLength(yoe);
    MonthIsOnly(doy, mp);
  }

  lemma Reckon(n: int) returns (era: int, yoe: int, mp: int, dom: int)
    ensures Reckoned(n, era, yoe, mp, dom)
  {
    hide YearStart, MonthStart, YearOfEra, MonthOfYear;
    var z := n + SHIFT;
    era := z / ERA;
    var doe := z % ERA;
    YearIsFound(doe);
    yoe := YearOfEra(doe);
    EraBounds(yoe, doe);
    var doy := doe - YearStart(yoe);
    MonthIsFound(doy);
    mp := MonthOfYear(doy);
    dom := doy - MonthStart(mp);
  }

  /** The year of the era a date's March-year is. */
  lemma LeapInEra(era: int, k: int)
    ensures IsLeap(k + era * 400) <==> IsLeap(k)
  {
    var a := k / 400;
    var r := k % 400;
    DivIs(k + era * 400, 400, a + era, r);
    DivIs(k, 100, 4 * a + r / 100, r % 100);
    DivIs(k + era * 400, 100, 4 * (a + era) + r / 100, r % 100);
    DivIs(k, 4, 100 * a + r / 4, r % 4);
    DivIs(k + era * 400, 4, 100 * (a + era) + r / 4, r % 4);
  }

  /** A date is valid exactly where its day is one the reckoning has. */
  lemma ValidReckoning(era: int, yoe: int, mp: int, dom: int)
    requires 0 <= yoe <= 399 && 0 <= mp <= 11
    ensures IsDate(CivilOf(era, yoe, mp, dom)) <==>
              0 <= dom < MonthStart(mp + 1) - MonthStart(mp)
                  && YearStart(yoe) + MonthStart(mp) + dom < YearStart(yoe + 1)
  {
    YearLength(yoe);
    MonthLengths(mp);
    LeapInEra(era, yoe + 1);
    hide YearStart, IsLeap;
    if mp < 11 { MonthLengths(mp + 1); assert MonthStart(mp + 1) <= 337; }
  }

  lemma ReckonedBack(n: int, era: int, yoe: int, mp: int, dom: int)
    requires Reckoned(n, era, yoe, mp, dom)
    ensures DaysFromCivil(CivilOf(era, yoe, mp, dom)) == Some(n) && IsDate(CivilOf(era, yoe, mp, dom))
  {
    ValidReckoning(era, yoe, mp, dom);
    YearLength(yoe);
    DivIs(yoe + era * 400, 400, era, yoe);
    hide YearStart, IsLeap, MonthStart;
  }

  /** The date of a day is that day's, for every day before or after the epoch. */
  lemma DaysRoundTrip(n: int)
    ensures IsDate(CivilFromDays(n)) && DaysFromCivil(CivilFromDays(n)) == Some(n)
  {
    hide CivilFromDays, DaysFromCivil, IsDate, Reckoned;
    var era, yoe, mp, dom := Reckon(n);
    ReckonedForward(n, era, yoe, mp, dom);
    ReckonedBack(n, era, yoe, mp, dom);
  }

  /** The parts of a date. */
  lemma PartsOf(c: Civil) returns (era: int, yoe: int, mp: int, dom: int)
    requires 1 <= c.month <= 12
    ensures 0 <= yoe <= 399 && 0 <= mp <= 11 && CivilOf(era, yoe, mp, dom) == c
  {
    var y := c.year - if c.month <= 2 then 1 else 0;
    era, yoe := y / 400, y % 400;
    mp, dom := if c.month > 2 then c.month - 3 else c.month + 9, c.day - 1;
  }

  /** Every date is some day's, and nothing that is not a date is. */
  lemma CivilRoundTrip(c: Civil)
    ensures DaysFromCivil(c).Some? <==> IsDate(c)
    ensures IsDate(c) ==> CivilFromDays(DaysFromCivil(c).value) == c
  {
    if IsDate(c) {
      hide CivilFromDays, YearStart, MonthStart, IsLeap;
      var era, yoe, mp, dom := PartsOf(c);
      ValidReckoning(era, yoe, mp, dom);
      var n := era * ERA + YearStart(yoe) + MonthStart(mp) + dom - SHIFT;
      ReckonedForward(n, era, yoe, mp, dom);
      ReckonedBack(n, era, yoe, mp, dom);
    }
  }

  /** The day after is the next day of the calendar. */
  lemma NextDayFollows(n: int)
    ensures CivilFromDays(n + 1) == NextDay(CivilFromDays(n))
  {
    hide CivilFromDays, NextDay;
    var era, yoe, mp, dom := Reckon(n);
    ReckonedForward(n, era, yoe, mp, dom);
    var era2, yoe2, mp2, dom2 := Follow(n, era, yoe, mp, dom);
    ReckonedForward(n + 1, era2, yoe2, mp2, dom2);
  }

  lemma Follow(n: int, era: int, yoe: int, mp: int, dom: int) returns (era2: int, yoe2: int, mp2: int, dom2: int)
    requires Reckoned(n, era, yoe, mp, dom)
    ensures Reckoned(n + 1, era2, yoe2, mp2, dom2) && CivilOf(era2, yoe2, mp2, dom2) ==
              NextDay(CivilOf(era, yoe, mp, dom))
  {
    hide YearStart, MonthStart, IsLeap, IsDate, NextDay;
    ValidReckoning(era, yoe, mp, dom);
    ValidReckoning(era, yoe, mp, dom + 1);
    NextIs(CivilOf(era, yoe, mp, dom));
    YearLength(yoe);
    MonthLengths(mp);
    if IsDate(CivilOf(era, yoe, mp, dom + 1)) {
      era2, yoe2, mp2, dom2 := era, yoe, mp, dom + 1;
    } else if mp < 11 {
      era2, yoe2, mp2, dom2 := era, yoe, mp + 1, 0;
      MonthLengths(mp + 1);
      assert MonthStart(mp + 1) <= 337;
      assert YearStart(yoe) + MonthStart(mp + 1) < YearStart(yoe + 1);
      assert dom + 1 == MonthStart(mp + 1) - MonthStart(mp);
    } else {
      MonthLengths(0);
      Ends();
      assert YearStart(yoe) + MonthStart(mp) + dom + 1 == YearStart(yoe + 1);
      if yoe < 399 {
        era2, yoe2, mp2, dom2 := era, yoe + 1, 0, 0;
        YearLength(yoe + 1);
      } else {
        era2, yoe2, mp2, dom2 := era + 1, 0, 0, 0;
        YearLength(0);
      }
    }
  }

  lemma Ends()
    ensures YearStart(0) == 0 && YearStart(400) == ERA
  {}

  /** The day after a date is the next of its month, or the first of the month that follows. */
  lemma NextIs(c: Civil)
    requires IsDate(c)
    ensures NextDay(c) == if IsDate(c.(day := c.day + 1)) then c.(day := c.day + 1)
                          else if c.month < 12 then Civil(c.year, c.month + 1, 1) else Civil(c.year + 1, 1, 1)
  {
    hide IsLeap;
  }

  // ---- Date stamps --------------------------------------------------------------------------------

  const TICKS_PER_MINUTE: nat := 3000
  const MINUTES_PER_DAY: nat := 1440
  const EPOCH: nat := 2922
  const MAX_DAYS: nat := 0xFFFF_FFFF

  /** A date and a time of day down to a fiftieth of a second. */
  datatype Moment = Moment(date: Civil, hour: nat, minute: nat, second: nat, tick: nat)

  predicate IsMoment(c: Moment) {
    IsDate(c.date) && c.hour < 24 && c.minute < 60 && c.second < 60 && c.tick < 50
  }

  /** A stamp whose minutes and ticks stay inside their day and their minute. */
  predicate InContract(s: Date) {
    s.mins < MINUTES_PER_DAY && s.ticks < TICKS_PER_MINUTE
  }

  /** The moment a stamp means; what overflows is carried upward. */
  function ToCalendar(s: Date): Moment {
    var mins := s.mins + s.ticks / TICKS_PER_MINUTE;
    var ticks := s.ticks % TICKS_PER_MINUTE;
    var minute := mins % MINUTES_PER_DAY;
    Moment(CivilFromDays(s.days + mins / MINUTES_PER_DAY + EPOCH), minute / 60, minute % 60, ticks / 50, ticks % 50)
  }

  function FromCalendar(c: Moment): Option<Date> {
    var n := DaysFromCivil(c.date);
    if n.None? then None
    else if !(0 <= n.value - EPOCH <= MAX_DAYS) then None
    else if c.hour > 23 || c.minute > 59 || c.second > 59 || c.tick >= 50 then None
    else Some(Date(n.value - EPOCH, c.hour * 60 + c.minute, c.second * 50 + c.tick))
  }

  /** How many ticks after the epoch a stamp is. */
  function TicksOf(s: Date): nat {
    (s.days * MINUTES_PER_DAY + s.mins) * TICKS_PER_MINUTE + s.ticks
  }

  /** How many ticks after the epoch a moment is, by the calendar. */
  function TicksOn(c: Moment): int
    requires IsMoment(c)
  {
    CivilRoundTrip(c.date);
    ((DaysFromCivil(c.date).value - EPOCH) * MINUTES_PER_DAY + c.hour * 60 + c.minute) * TICKS_PER_MINUTE
    + c.second * 50 + c.tick
  }

  /** Every stamp, in contract or not, means a real moment as many ticks after the epoch. */
  lemma TicksArePreserved(s: Date)
    ensures IsMoment(ToCalendar(s)) && TicksOn(ToCalendar(s)) == TicksOf(s)
  {
    hide CivilFromDays, DaysFromCivil, IsDate;
    DaysRoundTrip(s.days + (s.mins + s.ticks / TICKS_PER_MINUTE) / MINUTES_PER_DAY + EPOCH);
  }

  /** A moment comes from a stamp exactly where the stamp has room for it, and means itself. */
  lemma StampRoundTrip(c: Moment)
    ensures FromCalendar(c).Some? <==> IsMoment(c) && 0 <= DaysFromCivil(c.date).value - EPOCH <= MAX_DAYS
    ensures FromCalendar(c).Some? ==> InContract(FromCalendar(c).value) && ToCalendar(FromCalendar(c).value) == c
  {
    hide CivilFromDays, DaysFromCivil, IsDate;
    CivilRoundTrip(c.date);
  }

  /** Back again: the stamp itself where it is in contract, the one stamp in contract as
      many ticks after the epoch where it is not, and none where that day is past the field. */
  lemma CalendarRoundTrip(s: Date)
    ensures InContract(s) ==> FromCalendar(ToCalendar(s)) == Some(s)
    ensures FromCalendar(ToCalendar(s)).None? <==>
              TicksOf(s) > (MAX_DAYS * MINUTES_PER_DAY + 1439) * TICKS_PER_MINUTE + 2999
    ensures FromCalendar(ToCalendar(s)).Some? ==>
              InContract(FromCalendar(ToCalendar(s)).value) && TicksOf(FromCalendar(ToCalendar(s)).value) == TicksOf(s)
  {
    hide CivilFromDays, DaysFromCivil, IsDate;
    var mins := s.mins + s.ticks / TICKS_PER_MINUTE;
    DaysRoundTrip(s.days + mins / MINUTES_PER_DAY + EPOCH);
  }
}
