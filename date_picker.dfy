/**
 * The date arithmetic of `components/ui/DatePicker.tsx`: the year, month and
 * day columns offered between a minimum and a maximum date, the change of
 * the temporary date when a column reports a value, and the clamp of that
 * date into [minimumDate, maximumDate].
 *
 * Dates are Gregorian (year, month 1..12, day) triples; time of day is not
 * modelled.
 */
module DatePicker {
  import opened Wrappers

  datatype Date = Date(year: int, month: int, day: int)

  /** `DEFAULT_MIN_DATE`, `new Date(1970, 0, 1)`. */
  const DefaultMinDate: Date := Date(1970, 1, 1)
  /** `DEFAULT_MAX_DATE`, `new Date(2100, 11, 31)`. */
  const DefaultMaxDate: Date := Date(2100, 12, 31)

  predicate IsLeapYear(y: int) {
    (y % 4 == 0 && y % 100 != 0) || y % 400 == 0
  }

  /** `new Date(year, month, 0).getDate()`: the length of a month. */
  function DaysInMonth(year: int, month: int): (n: int)
    requires 1 <= month <= 12
    ensures 28 <= n <= 31
    ensures month == 2 ==> (n == 29 <==> IsLeapYear(year))
  {
    if month == 2 then (if IsLeapYear(year) then 29 else 28)
    else if month == 4 || month == 6 || month == 9 || month == 11 then 30
    else 31
  }

  predicate ValidDate(d: Date) {
    1 <= d.month <= 12 && 1 <= d.day <= DaysInMonth(d.year, d.month)
  }

  /** The chronological order of dates (`newDate < minimumDate`). */
  predicate Before(a: Date, b: Date) {
    a.year < b.year
    || (a.year == b.year && (a.month < b.month || (a.month == b.month && a.day < b.day)))
  }

  predicate InRange(d: Date, lo: Date, hi: Date) {
    !Before(d, lo) && !Before(hi, d)
  }

  function Min(a: int, b: int): int { if a <= b then a else b }

  // ---------------------------------------------------------------------------
  // Changing one column
  // ---------------------------------------------------------------------------

  datatype Column = YearColumn | MonthColumn | DayColumn

  /**
   * `setFullYear(year)`: same month and day in the new year; a day the month
   * does not have in that year (29 February) rolls over into the next month.
   */
  function SetFullYear(d: Date, year: int): (r: Date)
    requires ValidDate(d)
    ensures ValidDate(r) && r.year == year
    ensures d.day <= DaysInMonth(year, d.month) ==> r == Date(year, d.month, d.day)
    ensures d.day > DaysInMonth(year, d.month) ==> d.month == 2 && !IsLeapYear(year) && r == Date(year, 3, 1)
  {
    var n := DaysInMonth(year, d.month);
    if d.day <= n then Date(year, d.month, d.day)
    else Date(year, d.month + 1, d.day - n)
  }

  /** On 29 February, moving to a common year lands on 1 March. */
  lemma LeapDayYearChange()
    ensures SetFullYear(Date(2024, 2, 29), 2023) == Date(2023, 3, 1)
  {
  }

  /**
   * The month branch of `handleDateChange`: set day 1, set the month, then
   * put back the old day cut to the new month's length.
   */
  function SetMonthKeepingDay(d: Date, month: int): (r: Date)
    requires ValidDate(d) && 1 <= month <= 12
    ensures ValidDate(r)
    ensures r.year == d.year && r.month == month
    ensures r.day == Min(d.day, DaysInMonth(d.year, month))
  {
    Date(d.year, month, Min(d.day, DaysInMonth(d.year, month)))
  }

  /** The values a column can report: any year, a month 1..12, a day of the current month. */
  predicate IsColumnValue(d: Date, column: Column, value: int)
    requires ValidDate(d)
  {
    match column
    case YearColumn => true
    case MonthColumn => 1 <= value <= 12
    case DayColumn => 1 <= value <= DaysInMonth(d.year, d.month)
  }

  /** The date `handleDateChange` builds before the clamp. */
  function ChangedDate(d: Date, column: Column, value: int): (r: Date)
    requires ValidDate(d) && IsColumnValue(d, column, value)
    ensures ValidDate(r)
  {
    match column
    case YearColumn => SetFullYear(d, value)
    case MonthColumn => SetMonthKeepingDay(d, value)
    case DayColumn => d.(day := value)
  }

  /** Below the minimum becomes the minimum, above the maximum becomes the maximum. */
  function ClampDate(d: Date, lo: Date, hi: Date): (r: Date)
    ensures !Before(hi, lo) ==> InRange(r, lo, hi)
    ensures InRange(d, lo, hi) ==> r == d
    ensures Before(d, lo) ==> r == lo
    ensures !Before(d, lo) && Before(hi, d) ==> r == hi
  {
    if Before(d, lo) then lo else if Before(hi, d) then hi else d
  }

  // ---------------------------------------------------------------------------
  // The columns
  // ---------------------------------------------------------------------------

  /** `Array.from({ length: hi - lo + 1 }, (_, i) => lo + i)`; a negative length gives []. */
  function RangeInclusive(lo: int, hi: int): (r: seq<int>)
    ensures |r| == if hi < lo then 0 else hi - lo + 1
    ensures forall i :: 0 <= i < |r| ==> r[i] == lo + i
  {
    if hi < lo then [] else seq(hi - lo + 1, i requires 0 <= i < hi - lo + 1 => lo + i)
  }

  lemma RangeMembers(lo: int, hi: int, x: int)
    ensures x in RangeInclusive(lo, hi) <==> lo <= x <= hi
  {
    if lo <= x <= hi {
      assert RangeInclusive(lo, hi)[x - lo] == x;
    }
  }

  /** The `years` memo. */
  function Years(lo: Date, hi: Date): seq<int> {
    RangeInclusive(lo.year, hi.year)
  }

  /** The `months` memo for the temporary date's year. */
  function Months(year: int, lo: Date, hi: Date): seq<int> {
    var startMonth := if year == lo.year then lo.month else 1;
    var endMonth := if year == hi.year then hi.month else 12;
    RangeInclusive(startMonth, endMonth)
  }

  /** The `days` memo for the temporary date's year and month. */
  function Days(current: Date, lo: Date, hi: Date): seq<int>
    requires 1 <= current.month <= 12
  {
    var daysInMonth := DaysInMonth(current.year, current.month);
    var startDay := if current.year == lo.year && current.month == lo.month then lo.day else 1;
    var endDay := if current.year == hi.year && current.month == hi.month then Min(daysInMonth, hi.day) else daysInMonth;
    RangeInclusive(startDay, endDay)
  }

  /** The year column offers exactly the years from the minimum's to the maximum's, one each. */
  lemma YearsExact(lo: Date, hi: Date, y: int)
    ensures y in Years(lo, hi) <==> lo.year <= y <= hi.year
    ensures lo.year <= hi.year ==> |Years(lo, hi)| == hi.year - lo.year + 1
  {
    RangeMembers(lo.year, hi.year, y);
  }

  /** (year, month) pairs in calendar order. */
  predicate MonthBefore(y1: int, m1: int, y2: int, m2: int) {
    y1 < y2 || (y1 == y2 && m1 < m2)
  }

  /**
   * Within the permitted years, the month column offers exactly the months
   * 1..12 that are not before the minimum's month nor after the maximum's:
   * it starts at the minimum's month in the minimum's year and ends at the
   * maximum's month in the maximum's year.
   */
  lemma MonthsExact(year: int, lo: Date, hi: Date, m: int)
    requires ValidDate(lo) && ValidDate(hi)
    requires lo.year <= year <= hi.year
    ensures m in Months(year, lo, hi) <==>
      1 <= m <= 12 && !MonthBefore(year, m, lo.year, lo.month) && !MonthBefore(hi.year, hi.month, year, m)
  {
    var startMonth := if year == lo.year then lo.month else 1;
    var endMonth := if year == hi.year then hi.month else 12;
    RangeMembers(startMonth, endMonth, m);
  }

  /** Whatever the year, the month column lists only months 1..12. */
  lemma MonthsWithinYear(year: int, lo: Date, hi: Date)
    requires ValidDate(lo) && ValidDate(hi)
    ensures forall m :: m in Months(year, lo, hi) ==> 1 <= m <= 12
  {
    forall m | m in Months(year, lo, hi) ensures 1 <= m <= 12 {
      var startMonth := if year == lo.year then lo.month else 1;
      var endMonth := if year == hi.year then hi.month else 12;
      RangeMembers(startMonth, endMonth, m);
    }
  }

  /**
   * For a month between the minimum's and the maximum's, the day column
   * offers exactly the days of that month that lie in [minimum, maximum].
   */
  lemma DaysExact(current: Date, lo: Date, hi: Date, d: int)
    requires ValidDate(lo) && ValidDate(hi) && 1 <= current.month <= 12
    requires !MonthBefore(current.year, current.month, lo.year, lo.month)
    requires !MonthBefore(hi.year, hi.month, current.year, current.month)
    ensures d in Days(current, lo, hi) <==>
      ValidDate(Date(current.year, current.month, d)) && InRange(Date(current.year, current.month, d), lo, hi)
  {
    var daysInMonth := DaysInMonth(current.year, current.month);
    var startDay := if current.year == lo.year && current.month == lo.month then lo.day else 1;
    var endDay := if current.year == hi.year && current.month == hi.month then Min(daysInMonth, hi.day) else daysInMonth;
    RangeMembers(startDay, endDay, d);
  }

  /** Whatever the month, the day column lists only days that month has. */
  lemma DaysWithinMonth(current: Date, lo: Date, hi: Date)
    requires ValidDate(lo) && 1 <= current.month <= 12
    ensures forall d :: d in Days(current, lo, hi) ==> ValidDate(Date(current.year, current.month, d))
  {
    forall d | d in Days(current, lo, hi) ensures ValidDate(Date(current.year, current.month, d)) {
      var daysInMonth := DaysInMonth(current.year, current.month);
      var startDay := if current.year == lo.year && current.month == lo.month then lo.day else 1;
      var endDay := if current.year == hi.year && current.month == hi.month then Min(daysInMonth, hi.day) else daysInMonth;
      RangeMembers(startDay, endDay, d);
    }
  }

  // ---------------------------------------------------------------------------
  // One column (PickerScrollView)
  // ---------------------------------------------------------------------------

  /**
   * What a column's effect does when its current value or its items change:
   * nothing while the user is scrolling it; otherwise keep a value that is
   * listed, or select the last item and report it via `onValueChange`
   * (`items[items.length - 1]`, undefined for an empty list).
   */
  datatype ColumnSync = Scrolling | Keep(value: int) | Snap(reported: Option<int>)

  function SyncColumn(items: seq<int>, currentValue: int, isScrolling: bool): (r: ColumnSync)
    ensures r.Scrolling? <==> isScrolling
    ensures !isScrolling ==> (r.Keep? <==> currentValue in items)
    ensures r.Keep? ==> r.value == currentValue
    ensures r.Snap? && items != [] ==> r.reported == Some(items[|items| - 1])
    ensures r.Snap? && items == [] ==> r.reported.None?
  {
    if isScrolling then Scrolling
    else if currentValue in items then Keep(currentValue)
    else if items == [] then Snap(None)
    else Snap(Some(items[|items| - 1]))
  }

  /** A snapped column is stable: syncing again with the reported value keeps it. */
  lemma SyncAfterSnap(items: seq<int>, currentValue: int)
    requires SyncColumn(items, currentValue, false).Snap?
    requires items != []
    ensures SyncColumn(items, SyncColumn(items, currentValue, false).reported.value, false) == Keep(items[|items| - 1])
  {
  }

  /**
   * `handleScrollEnd`: the item at the snapped index is reported, and nothing
   * is reported when the index falls outside the list.
   */
  function ScrollEndValue(items: seq<int>, index: int): (r: Option<int>)
    ensures r.Some? <==> 0 <= index < |items|
    ensures r.Some? ==> r.value == items[index]
  {
    if 0 <= index < |items| then Some(items[index]) else None
  }

  /**
   * When the temporary date lies in [minimum, maximum], all three columns
   * list its year, month and day, so none of them snaps.
   */
  lemma InRangeDateIsListed(t: Date, lo: Date, hi: Date)
    requires ValidDate(t) && ValidDate(lo) && ValidDate(hi)
    requires InRange(t, lo, hi)
    ensures SyncColumn(Years(lo, hi), t.year, false) == Keep(t.year)
    ensures SyncColumn(Months(t.year, lo, hi), t.month, false) == Keep(t.month)
    ensures SyncColumn(Days(t, lo, hi), t.day, false) == Keep(t.day)
  {
    YearsExact(lo, hi, t.year);
    MonthsExact(t.year, lo, hi, t.month);
    DaysExact(t, lo, hi, t.day);
  }

  /**
   * With minimum ≤ maximum no column is ever empty, so a snap always reports
   * a listed value and never undefined.
   */
  lemma ColumnsNonEmpty(t: Date, lo: Date, hi: Date)
    requires ValidDate(t) && ValidDate(lo) && ValidDate(hi)
    requires !Before(hi, lo)
    ensures Years(lo, hi) != []
    ensures Months(t.year, lo, hi) != []
    ensures Days(t, lo, hi) != []
  {
  }

  // ---------------------------------------------------------------------------
  // The picker's state
  // ---------------------------------------------------------------------------

  /** The `DatePicker` component: the `tempDate` state and its date bounds. */
  class DatePickerState {
    var tempDate: Date
    const minimumDate: Date
    const maximumDate: Date

    ghost predicate Valid()
      reads this
    {
      ValidDate(tempDate) && ValidDate(minimumDate) && ValidDate(maximumDate)
    }

    /**
     * Mounting with the `value`, `minimumDate` and `maximumDate` props;
     * `today` stands for `new Date()`.
     */
    constructor (value: Option<Date>, today: Date, minimum: Option<Date>, maximum: Option<Date>)
      requires ValidDate(today)
      requires value.Some? ==> ValidDate(value.value)
      requires minimum.Some? ==> ValidDate(minimum.value)
      requires maximum.Some? ==> ValidDate(maximum.value)
      ensures Valid()
      ensures tempDate == value.GetOr(today)
      ensures minimumDate == minimum.GetOr(DefaultMinDate)
      ensures maximumDate == maximum.GetOr(DefaultMaxDate)
    {
      tempDate := value.GetOr(today);
      minimumDate := minimum.GetOr(DefaultMinDate);
      maximumDate := maximum.GetOr(DefaultMaxDate);
    }

    /** The opening effect: `tempDate` restarts from `value`, or today without one. */
    method Reopen(value: Option<Date>, today: Date)
      requires Valid() && ValidDate(today)
      requires value.Some? ==> ValidDate(value.value)
      modifies this
      ensures Valid()
      ensures tempDate == value.GetOr(today)
    {
      tempDate := value.GetOr(today);
    }

    /**
     * `handleDateChange(type, value)`: the changed copy of the temporary date,
     * clamped into [minimumDate, maximumDate], becomes the new temporary date.
     */
    method HandleDateChange(column: Column, value: int)
      requires Valid() && IsColumnValue(tempDate, column, value)
      modifies this
      ensures Valid()
      ensures tempDate == ClampDate(ChangedDate(old(tempDate), column, value), minimumDate, maximumDate)
      ensures !Before(maximumDate, minimumDate) ==> InRange(tempDate, minimumDate, maximumDate)
    {
      var newDate := tempDate;
      if column == YearColumn {
        newDate := SetFullYear(newDate, value);
      } else if column == MonthColumn {
        var currentDate := newDate.day;
        newDate := newDate.(day := 1);
        newDate := newDate.(month := value);
        var maxDays := DaysInMonth(newDate.year, newDate.month);
        newDate := newDate.(day := Min(currentDate, maxDays));
      } else {
        newDate := newDate.(day := value);
      }

      if Before(newDate, minimumDate) {
        tempDate := minimumDate;
      } else if Before(maximumDate, newDate) {
        tempDate := maximumDate;
      } else {
        tempDate := newDate;
      }
    }
  }
}
