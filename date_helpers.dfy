/** What both date-helper modules read from a JavaScript `Date`. */
module Dates {

  /** A `Date` as the helpers read it: `getTime()` in milliseconds and the local
      `getFullYear()`, `getMonth()` (0 to 11) and `getDate()` (1 to 31). */
  datatype JsDate = JsDate(time: int, year: int, month: int, day: int)

  /** `1000 * 60 * 60 * 24`. */
  const MsPerDay: nat := 86400000

  function Abs(x: int): nat {
    if x < 0 then -x else x
  }

  /** Equal year, month and day of the month. */
  predicate SameCalendarDay(a: JsDate, b: JsDate) {
    a.year == b.year && a.month == b.month && a.day == b.day
  }

  /** The branch `formatRelativeDate` takes, before the text is formatted for the
      Arabic locale: "today" or "yesterday" with the date's time of day, "N days ago",
      or the full date. */
  datatype RelativeLabel =
    | TodayAt(date: JsDate)
    | YesterdayAt(date: JsDate)
    | DaysAgo(days: int)
    | OnDate(date: JsDate)
}

/** src/shared/utils/dateHelpers.ts: age, "is today", and the relative label with a
    floor day count and a "less than 7" cut-off. */
module SharedDateHelpers {
  import opened Dates

  /** `(year, month, day)` of `a` is on or before that of `b`. */
  predicate CalendarOnOrBefore(y1: int, m1: int, d1: int, y2: int, m2: int, d2: int) {
    y1 < y2 || (y1 == y2 && (m1 < m2 || (m1 == m2 && d1 <= d2)))
  }

  /** The `k`-th birthday of `birth` has come by `today`. */
  predicate AnniversaryReached(birth: JsDate, today: JsDate, k: int) {
    CalendarOnOrBefore(birth.year + k, birth.month, birth.day, today.year, today.month, today.day)
  }

  /** `calculateAge`: the year difference, less one when this year's birthday (by month,
      then day) is still ahead. */
  function CalculateAge(birth: JsDate, today: JsDate): (age: int)
    ensures age == today.year - birth.year || age == today.year - birth.year - 1
    ensures age == today.year - birth.year <==>
      today.month > birth.month || (today.month == birth.month && today.day >= birth.day)
  {
    var age := today.year - birth.year;
    var monthDiff := today.month - birth.month;
    if monthDiff < 0 || (monthDiff == 0 && today.day < birth.day) then age - 1 else age
  }

  /** The age is the number of birthdays that have come: the `age`-th has, the next
      has not. */
  lemma AgeCountsWholeYears(birth: JsDate, today: JsDate)
    ensures AnniversaryReached(birth, today, CalculateAge(birth, today))
    ensures !AnniversaryReached(birth, today, CalculateAge(birth, today) + 1)
  {
  }

  /** A later birthday reached means every earlier one was reached too. */
  lemma AnniversariesAreOrdered(birth: JsDate, today: JsDate)
    ensures forall j, k :: j <= k && AnniversaryReached(birth, today, k) ==> AnniversaryReached(birth, today, j)
  {
  }

  /** Those two facts pin the age down: no other count of years satisfies them. */
  lemma AgeIsUnique(birth: JsDate, today: JsDate, k: int)
    requires AnniversaryReached(birth, today, k) && !AnniversaryReached(birth, today, k + 1)
    ensures k == CalculateAge(birth, today)
  {
    AgeCountsWholeYears(birth, today);
    AnniversariesAreOrdered(birth, today);
  }

  /** On the birthday itself the age is the plain year difference, and nobody born on
      or before today has a negative age. */
  lemma AgeOnBirthdayAndNonNegative(birth: JsDate, today: JsDate)
    ensures today.month == birth.month && today.day == birth.day ==>
      CalculateAge(birth, today) == today.year - birth.year
    ensures CalendarOnOrBefore(birth.year, birth.month, birth.day, today.year, today.month, today.day) ==>
      CalculateAge(birth, today) >= 0
  {
  }

  /** `isToday`. */
  predicate IsToday(date: JsDate, now: JsDate) {
    SameCalendarDay(now, date)
  }

  /** `Math.floor(Math.abs(now - date) / MsPerDay)`. */
  function DiffDays(now: JsDate, date: JsDate): (n: nat)
    ensures n * MsPerDay <= Abs(now.time - date.time) < (n + 1) * MsPerDay
  {
    Abs(now.time - date.time) / MsPerDay
  }

  /** `formatRelativeDate`: today first, then a day count of exactly 1, then fewer
      than 7 days, and the full date otherwise. */
  function FormatRelativeDate(date: JsDate, now: JsDate): (r: RelativeLabel)
    ensures r.TodayAt? <==> IsToday(date, now)
    ensures r.YesterdayAt? <==>
      !IsToday(date, now) && MsPerDay <= Abs(now.time - date.time) < 2 * MsPerDay
    ensures r.DaysAgo? <==>
      && !IsToday(date, now)
      && Abs(now.time - date.time) < 7 * MsPerDay
      && !(MsPerDay <= Abs(now.time - date.time) < 2 * MsPerDay)
    ensures !r.DaysAgo? ==> r.date == date
    ensures r.DaysAgo? ==> r.days == DiffDays(now, date)
    ensures r.DaysAgo? ==> 0 <= r.days < 7 && r.days != 1
    ensures r.OnDate? <==> !IsToday(date, now) && 7 * MsPerDay <= Abs(now.time - date.time)
  {
    var diffDays := DiffDays(now, date);
    if IsToday(date, now) then TodayAt(date)
    else if diffDays == 1 then YesterdayAt(date)
    else if diffDays < 7 then DaysAgo(diffDays)
    else OnDate(date)
  }

  /** A date on another calendar day but less than 24 hours away (late yesterday, just
      after midnight) is labelled "0 days ago". */
  lemma LessThanADayAwayIsZeroDaysAgo(date: JsDate, now: JsDate)
    requires !IsToday(date, now)
    requires Abs(now.time - date.time) < MsPerDay
    ensures FormatRelativeDate(date, now) == DaysAgo(0)
  {
  }
}

/** src/utils/dateHelpers.ts: the day difference rounded up, "is today", "is
    yesterday" by the calendar, and the relative label with an "at most 7" cut-off. */
module DateHelpers {
  import opened Dates

  /** `Math.ceil(x / d)` for a non-negative `x`. */
  function CeilDiv(x: nat, d: nat): nat
    requires d > 0
  {
    (x + d - 1) / d
  }

  /** `daysDifference`: whole days between the two instants, rounded up. */
  function DaysDifference(d1: JsDate, d2: JsDate): (n: nat)
    ensures n == 0 <==> d1.time == d2.time
    ensures n > 0 ==> (n - 1) * MsPerDay < Abs(d2.time - d1.time) <= n * MsPerDay
  {
    CeilDiv(Abs(d2.time - d1.time), MsPerDay)
  }

  /** The difference does not depend on the order of its arguments. */
  lemma DaysDifferenceSymmetric(d1: JsDate, d2: JsDate)
    ensures DaysDifference(d1, d2) == DaysDifference(d2, d1)
  {
  }

  /** Two instants exactly `k` whole days apart are `k` days apart. */
  lemma WholeDaysApart(d1: JsDate, d2: JsDate, k: nat)
    requires Abs(d2.time - d1.time) == k * MsPerDay
    ensures DaysDifference(d1, d2) == k
  {
  }

  function DaysInMonth(year: int, month: int): (n: nat)
    ensures 28 <= n <= 31
  {
    if month == 1 then
      (if (year % 4 == 0 && year % 100 != 0) || year % 400 == 0 then 29 else 28)
    else if month == 3 || month == 5 || month == 8 || month == 10 then 30
    else 31
  }

  /** A calendar triple that names a real day. */
  predicate ValidDay(year: int, month: int, day: int) {
    0 <= month < 12 && 1 <= day <= DaysInMonth(year, month)
  }

  /** `setDate(getDate() - 1)`: the calendar day before, rolling back over month and
      year ends. Only the calendar fields are read afterwards, so `time` is kept. */
  function PreviousDay(d: JsDate): JsDate {
    if d.day > 1 then d.(day := d.day - 1)
    else if d.month > 0 then d.(month := d.month - 1, day := DaysInMonth(d.year, d.month - 1))
    else d.(year := d.year - 1, month := 11, day := 31)
  }

  /** The calendar day after, used only to state what PreviousDay does. */
  function NextDay(d: JsDate): JsDate {
    if d.day < DaysInMonth(d.year, d.month) then d.(day := d.day + 1)
    else if d.month < 11 then d.(month := d.month + 1, day := 1)
    else d.(year := d.year + 1, month := 0, day := 1)
  }

  /** Stepping one calendar day back from a real day lands on a real day, and the day
      after it is where we started. */
  lemma PreviousDayIsInverseOfNextDay(d: JsDate)
    requires ValidDay(d.year, d.month, d.day)
    ensures var p := PreviousDay(d);
      ValidDay(p.year, p.month, p.day) && SameCalendarDay(NextDay(p), d)
  {
  }

  /** `isToday`. */
  predicate IsToday(date: JsDate, now: JsDate) {
    SameCalendarDay(now, date)
  }

  /** `isYesterday`: the calendar day before today. */
  predicate IsYesterday(date: JsDate, now: JsDate) {
    SameCalendarDay(PreviousDay(now), date)
  }

  /** No date is both today and yesterday. */
  lemma NotTodayAndYesterday(date: JsDate, now: JsDate)
    ensures !(IsToday(date, now) && IsYesterday(date, now))
  {
  }

  /** `formatRelativeDate`: today first, then yesterday, then at most 7 days away in
      either direction, and the full date otherwise. */
  function FormatRelativeDate(date: JsDate, now: JsDate): (r: RelativeLabel)
    ensures r.TodayAt? <==> IsToday(date, now)
    ensures r.YesterdayAt? <==> !IsToday(date, now) && IsYesterday(date, now)
    ensures r.DaysAgo? <==>
      !IsToday(date, now) && !IsYesterday(date, now) && Abs(now.time - date.time) <= 7 * MsPerDay
    ensures !r.DaysAgo? ==> r.date == date
    ensures r.DaysAgo? ==> r.days == DaysDifference(now, date) && r.days <= 7
    ensures r.OnDate? <==>
      !IsToday(date, now) && !IsYesterday(date, now) && 7 * MsPerDay < Abs(now.time - date.time)
  {
    if IsToday(date, now) then TodayAt(date)
    else if IsYesterday(date, now) then YesterdayAt(date)
    else
      var daysDiff := DaysDifference(now, date);
      if daysDiff <= 7 then DaysAgo(daysDiff) else OnDate(date)
  }

  /** The difference is absolute, so a date up to a week in the future (on another
      day than today or yesterday) is also labelled "N days ago". */
  lemma FutureWithinAWeekIsDaysAgo(date: JsDate, now: JsDate)
    requires now.time < date.time <= now.time + 7 * MsPerDay
    requires !IsToday(date, now) && !IsYesterday(date, now)
    ensures FormatRelativeDate(date, now) == DaysAgo(DaysDifference(now, date))
    ensures 1 <= DaysDifference(now, date) <= 7
  {
  }
}

/** The two `formatRelativeDate` helpers disagree: one uses `< 7` on a floor, the other
    `<= 7` on a ceiling. */
module RelativeDateComparison {
  import opened Dates
  import SharedDateHelpers
  import DateHelpers

  /** A date exactly seven days before now, on neither today nor yesterday, is shown as
      a full date by one helper and as "7 days ago" by the other. */
  lemma SevenDaysAgoDiffers()
    ensures var now := JsDate(7 * MsPerDay, 2024, 0, 8);
      var date := JsDate(0, 2024, 0, 1);
      && SharedDateHelpers.FormatRelativeDate(date, now) == OnDate(date)
      && DateHelpers.FormatRelativeDate(date, now) == DaysAgo(7)
  {
    var now := JsDate(7 * MsPerDay, 2024, 0, 8);
    var date := JsDate(0, 2024, 0, 1);
    DateHelpers.WholeDaysApart(now, date, 7);
  }

  /** Twelve hours before now but on the previous calendar day: one helper says
      "0 days ago", the other "yesterday". */
  lemma LateYesterdayDiffers()
    ensures var now := JsDate(3600000, 2024, 0, 8);
      var date := JsDate(-39600000, 2024, 0, 7);
      && SharedDateHelpers.FormatRelativeDate(date, now) == DaysAgo(0)
      && DateHelpers.FormatRelativeDate(date, now) == YesterdayAt(date)
  {
  }
}
