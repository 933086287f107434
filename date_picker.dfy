/**
 * The birth-date wheel: three scrollable columns (month, day, year) whose
 * selection is clamped to a real calendar date, and which reports a date to
 * its parent only when the shown date changes.
 */
module DatePicker {
  import opened Wrappers
  import opened Strings

  /** A date as JavaScript's `Date` constructor takes it: full year, month 0..11, day of the month. */
  datatype Date = Date(year: int, month: int, day: int)

  predicate IsLeapYear(y: int) {
    y % 4 == 0 && (y % 100 != 0 || y % 400 == 0)
  }

  /** The Gregorian length of month `m` (0 is January) of year `y`. */
  function MonthLength(y: int, m: int): (n: int)
    requires 0 <= m < 12
    ensures 28 <= n <= 31
    ensures m == 1 ==> (n == 29 <==> IsLeapYear(y))
  {
    if m == 1 then (if IsLeapYear(y) then 29 else 28)
    else if m == 3 || m == 5 || m == 8 || m == 10 then 30
    else 31
  }

  /** A date that names an existing day. */
  predicate IsCalendarDate(d: Date) {
    0 <= d.month < 12 && 1 <= d.day <= MonthLength(d.year, d.month)
  }

  /**
   * `new Date(y, m, 0)`: the month is first carried into the year (months
   * past December roll over), then day 0 is the last day of the month before.
   */
  function DayBeforeFirst(y: int, m: int): (d: Date)
    ensures IsCalendarDate(d)
  {
    var year := y + m / 12;
    var month := m % 12;
    if month == 0 then Date(year - 1, 11, 31) else Date(year, month - 1, MonthLength(year, month - 1))
  }

  /** `new Date(YEARS[selectedYear], selectedMonth + 1, 0).getDate()`. */
  function DaysInMonth(y: int, m: int): (n: int)
    ensures 28 <= n <= 31
    ensures 0 <= m < 12 ==> n == MonthLength(y, m)
  {
    assert m == 11 ==> (m + 1) / 12 == 1 && (m + 1) % 12 == 0;
    assert 0 <= m < 11 ==> (m + 1) / 12 == 0 && (m + 1) % 12 == m + 1;
    DayBeforeFirst(y, m + 1).day
  }

  /** `YEARS`: one hundred years, newest first, starting ten years before the current one. */
  function Years(currentYear: int): (r: seq<int>)
    ensures |r| == 100
    ensures r[0] == currentYear - 10 && r[99] == currentYear - 109
    ensures forall i, j :: 0 <= i < j < 100 ==> r[i] > r[j]
  {
    seq(100, i => currentYear - 10 - i)
  }

  /** `DAYS`: 1 to 31. */
  const Days: seq<int> := [1, 2, 3, 4, 5, 6, 7, 8, 9, 10, 11, 12, 13, 14, 15, 16, 17, 18, 19, 20, 21, 22, 23, 24, 25, 26, 27, 28, 29, 30, 31]

  /** `Math.min(selectedDay, daysInMonth - 1)`. */
  function ClampedDay(selectedDay: int, daysInMonth: int): (r: int)
    ensures r <= selectedDay && r <= daysInMonth - 1
    ensures r == selectedDay || r == daysInMonth - 1
    ensures 0 <= selectedDay && 1 <= daysInMonth ==> 0 <= r
  {
    if selectedDay < daysInMonth - 1 then selectedDay else daysInMonth - 1
  }

  /** The day the wheel reports, `clampedDay + 1`, always names an existing day of the selected month. */
  lemma ReportedDayIsCalendarDay(y: int, m: int, selectedDay: int)
    requires 0 <= m < 12 && 0 <= selectedDay
    ensures IsCalendarDate(Date(y, m, ClampedDay(selectedDay, DaysInMonth(y, m)) + 1))
    ensures selectedDay < MonthLength(y, m) ==> ClampedDay(selectedDay, DaysInMonth(y, m)) == selectedDay
  {
  }

  /** `DAYS.slice(0, daysInMonth)`: exactly the days of the month, in order. */
  function AvailableDays(y: int, m: int): (r: seq<int>)
    ensures |r| == DaysInMonth(y, m)
    ensures forall i :: 0 <= i < |r| ==> r[i] == i + 1
  {
    Days[..DaysInMonth(y, m)]
  }

  /** `Math.max(0, Math.min(index, data.length - 1))`, where `index` is the row the scroll ended on. */
  function ScrollEndIndex(index: int, length: int): (r: int)
    ensures length >= 1 ==> 0 <= r < length
    ensures 0 <= index < length ==> r == index
    ensures index < 0 ==> r == 0
    ensures index >= length ==> r == if length >= 1 then length - 1 else 0
  {
    var upper := if index < length - 1 then index else length - 1;
    if upper < 0 then 0 else upper
  }

  /** `array.findIndex((y) => y === x)`. */
  function FindIndex(s: seq<int>, x: int): (r: int)
    ensures -1 <= r < |s|
    ensures r == -1 <==> x !in s
    ensures r >= 0 ==> s[r] == x && forall j :: 0 <= j < r ==> s[j] != x
  {
    if s == [] then -1
    else if s[0] == x then 0
    else
      var k := FindIndex(s[1..], x);
      assert x in s[1..] ==> x in s;
      if k == -1 then -1 else k + 1
  }

  /** The year column's first selection: the default year's row, or row 24 when it is not listed. */
  function InitialYearIndex(currentYear: int, defaultYear: int): (r: int)
    ensures 0 <= r < 100
  {
    var i := FindIndex(Years(currentYear), defaultYear);
    if i != -1 then i else 24
  }

  /** The listed default year is selected; an unlisted one falls back to row 24. */
  lemma InitialYearIndexOf(currentYear: int, defaultYear: int)
    ensures currentYear - 109 <= defaultYear <= currentYear - 10 ==>
              InitialYearIndex(currentYear, defaultYear) == currentYear - 10 - defaultYear
    ensures !(currentYear - 109 <= defaultYear <= currentYear - 10) ==> InitialYearIndex(currentYear, defaultYear) == 24
  {
    var years := Years(currentYear);
    if currentYear - 109 <= defaultYear <= currentYear - 10 {
      assert years[currentYear - 10 - defaultYear] == defaultYear;
    } else {
      assert forall i :: 0 <= i < 100 ==> years[i] != defaultYear by {
        forall i | 0 <= i < 100 ensures years[i] != defaultYear {
          if 0 < i {
            assert years[0] > years[i];
          }
          if i < 99 {
            assert years[i] > years[99];
          }
        }
      }
    }
  }

  /** `${year}-${month}-${day}`: the key that decides whether a date is new. */
  function DateKey(d: Date): (k: string)
    ensures k != ""
  {
    IntToString(d.year) + "-" + IntToString(d.month) + "-" + IntToString(d.day)
  }

  predicate NonNegative(d: Date) {
    d.year >= 0 && d.month >= 0 && d.day >= 0
  }

  /** Dates with non-negative fields have different keys exactly when they differ. */
  lemma DateKeyInjective(a: Date, b: Date)
    requires NonNegative(a) && NonNegative(b)
    requires DateKey(a) == DateKey(b)
    ensures a == b
  {
    var ya, ma, da := IntToString(a.year), IntToString(a.month), IntToString(a.day);
    var yb, mb, db := IntToString(b.year), IntToString(b.month), IntToString(b.day);
    assert DateKey(a) == ya + ['-'] + ma + ['-'] + da;
    assert DateKey(b) == yb + ['-'] + mb + ['-'] + db;
    SplitThree(ya, ma, da, '-');
    SplitThree(yb, mb, db, '-');
    assert [ya, ma, da] == [yb, mb, db];
    ParseIntOfIntToString(a.year);
    ParseIntOfIntToString(b.year);
    ParseIntOfIntToString(a.month);
    ParseIntOfIntToString(b.month);
    ParseIntOfIntToString(a.day);
    ParseIntOfIntToString(b.day);
  }

  /** The key of the last reported date, `''` before the first report. */
  function LastKey(reported: seq<Date>): string {
    if reported == [] then "" else DateKey(reported[|reported| - 1])
  }

  /**
   * After the first render, a shown date is reported exactly when it differs
   * from the last one reported (for dates with non-negative fields).
   */
  lemma ReportsExactlyChangedDates(reported: seq<Date>, shown: Date)
    requires NonNegative(shown)
    requires reported != [] ==> NonNegative(reported[|reported| - 1])
    ensures DateKey(shown) != LastKey(reported) <==> (reported == [] || shown != reported[|reported| - 1])
  {
    if reported != [] && DateKey(shown) == LastKey(reported) {
      DateKeyInjective(shown, reported[|reported| - 1]);
    }
  }

  /**
   * The picker's state: the selected row of each column, the first-render
   * flag, the key of the last report, and the dates reported so far through
   * `onDateChange`.
   */
  datatype WheelState = WheelState(
    month: int,
    day: int,
    yearIndex: int,
    isFirstRender: bool,
    lastDate: string,
    reported: seq<Date>)

  /**
   * Selections are rows of their columns; `lastDate` is the key of the last
   * report; every report is a calendar date and differs from the one before.
   */
  predicate ValidState(st: WheelState) {
    && 0 <= st.month < 12
    && 0 <= st.day < 31
    && 0 <= st.yearIndex < 100
    && st.lastDate == LastKey(st.reported)
    && (forall i :: 0 <= i < |st.reported| ==> IsCalendarDate(st.reported[i]))
    && (forall i :: 0 < i < |st.reported| ==> st.reported[i - 1] != st.reported[i])
  }

  /** The date the three wheels show: the selected year and month, and the clamped day plus one. */
  function ShownDate(currentYear: int, st: WheelState): (d: Date)
    requires ValidState(st)
    ensures IsCalendarDate(d)
    ensures d.year == Years(currentYear)[st.yearIndex] && d.month == st.month
  {
    var year := Years(currentYear)[st.yearIndex];
    ReportedDayIsCalendarDay(year, st.month, st.day);
    Date(year, st.month, ClampedDay(st.day, DaysInMonth(year, st.month)) + 1)
  }

  /** The initial state; `initialDate` defaults to 1 January 2000. */
  function InitialWheel(currentYear: int, initialDate: Option<Date>): (st: WheelState)
    requires initialDate.Some? ==> 0 <= initialDate.value.month < 12 && 1 <= initialDate.value.day <= 31
    ensures ValidState(st) && st.isFirstRender && st.reported == []
  {
    var d := initialDate.GetOr(Date(2000, 0, 1));
    WheelState(d.month, d.day - 1, InitialYearIndex(currentYear, d.year), true, "", [])
  }

  /**
   * The reporting effect: skipped (and disarmed) on the first render; later,
   * the shown date is reported when its key differs from the last one.
   */
  function AfterNotify(currentYear: int, st: WheelState): (r: WheelState)
    requires ValidState(st)
    ensures ValidState(r) && !r.isFirstRender
    ensures r.month == st.month && r.day == st.day && r.yearIndex == st.yearIndex
    ensures st.isFirstRender ==> r.reported == st.reported
    ensures !st.isFirstRender && DateKey(ShownDate(currentYear, st)) != st.lastDate ==>
              r.reported == st.reported + [ShownDate(currentYear, st)]
    ensures !st.isFirstRender && DateKey(ShownDate(currentYear, st)) == st.lastDate ==> r.reported == st.reported
  {
    if st.isFirstRender then st.(isFirstRender := false)
    else
      var date := ShownDate(currentYear, st);
      var key := DateKey(date);
      if key == st.lastDate then st
      else
        ReportKeepsValid(st, date);
        st.(lastDate := key, reported := st.reported + [date])
  }

  /** Reporting a calendar date whose key is new keeps the state valid. */
  lemma ReportKeepsValid(st: WheelState, date: Date)
    requires ValidState(st) && IsCalendarDate(date) && DateKey(date) != st.lastDate
    ensures ValidState(st.(lastDate := DateKey(date), reported := st.reported + [date]))
  {
    var reported := st.reported + [date];
    assert LastKey(reported) == DateKey(date);
    forall i | 0 <= i < |reported|
      ensures IsCalendarDate(reported[i])
    {
      if i < |st.reported| {
        assert reported[i] == st.reported[i];
      }
    }
    forall i | 0 < i < |reported|
      ensures reported[i - 1] != reported[i]
    {
      if i < |st.reported| {
        assert reported[i - 1] == st.reported[i - 1] && reported[i] == st.reported[i];
      } else {
        var last := st.reported[i - 1];
        assert DateKey(last) == st.lastDate;
        assert reported[i - 1] == last && reported[i] == date;
      }
    }
  }

  /**
   * After the first render, the effect reports the shown date exactly when it
   * differs from the last date reported (years from the year column are
   * non-negative once the current year is at least 109).
   */
  lemma NotifyReportsExactlyChanges(currentYear: int, st: WheelState)
    requires ValidState(st) && !st.isFirstRender && currentYear >= 109
    requires st.reported != [] ==> st.reported[|st.reported| - 1].year >= 0
    ensures var shown := ShownDate(currentYear, st);
            |AfterNotify(currentYear, st).reported| == |st.reported| + 1
            <==> (st.reported == [] || shown != st.reported[|st.reported| - 1])
  {
    var shown := ShownDate(currentYear, st);
    assert shown.year >= currentYear - 109;
    ReportsExactlyChangedDates(st.reported, shown);
  }

  /** The synchronising effect: a day row past the month's end moves to its last day; the shown date stays. */
  function AfterSyncDay(currentYear: int, st: WheelState): (r: WheelState)
    requires ValidState(st)
    ensures ValidState(r)
    ensures r.day < DaysInMonth(Years(currentYear)[st.yearIndex], st.month)
    ensures st.day < DaysInMonth(Years(currentYear)[st.yearIndex], st.month) ==> r == st
    ensures ShownDate(currentYear, r) == ShownDate(currentYear, st)
  {
    var n := DaysInMonth(Years(currentYear)[st.yearIndex], st.month);
    if st.day >= n then st.(day := n - 1) else st
  }

  /** `handleScrollEnd` of the month column: `setSelectedMonth` runs only for a different row. */
  function AfterMonthScroll(st: WheelState, index: int): (r: WheelState)
    requires ValidState(st)
    ensures ValidState(r)
    ensures r == st.(month := ScrollEndIndex(index, 12))
  {
    var clamped := ScrollEndIndex(index, 12);
    if clamped != st.month then st.(month := clamped) else st
  }

  /** The day column, whose rows are `availableDays` and whose selected row is the clamped day. */
  function AfterDayScroll(currentYear: int, st: WheelState, index: int): (r: WheelState)
    requires ValidState(st)
    ensures ValidState(r)
    ensures r.month == st.month && r.yearIndex == st.yearIndex && r.reported == st.reported
    ensures r.isFirstRender == st.isFirstRender && r.lastDate == st.lastDate
    ensures ShownDate(currentYear, r).day == ScrollEndIndex(index, DaysInMonth(Years(currentYear)[st.yearIndex], st.month)) + 1
    ensures var n := DaysInMonth(Years(currentYear)[st.yearIndex], st.month);
            if ScrollEndIndex(index, n) == ClampedDay(st.day, n) then r == st else r.day == ScrollEndIndex(index, n)
  {
    var n := |AvailableDays(Years(currentYear)[st.yearIndex], st.month)|;
    var clamped := ScrollEndIndex(index, n);
    if clamped != ClampedDay(st.day, n) then st.(day := clamped) else st
  }

  /** `handleScrollEnd` of the year column. */
  function AfterYearScroll(st: WheelState, index: int): (r: WheelState)
    requires ValidState(st)
    ensures ValidState(r)
    ensures r == st.(yearIndex := ScrollEndIndex(index, 100))
  {
    var clamped := ScrollEndIndex(index, 100);
    if clamped != st.yearIndex then st.(yearIndex := clamped) else st
  }

  /** The picker component's state and refs. */
  class DateWheel {
    const currentYear: int
    var selectedMonth: int
    var selectedDay: int
    var selectedYear: int
    var isFirstRender: bool
    var lastDate: string
    var reported: seq<Date>

    function State(): WheelState
      reads this
    {
      WheelState(selectedMonth, selectedDay, selectedYear, isFirstRender, lastDate, reported)
    }

    constructor(currentYear: int, initialDate: Option<Date>)
      requires initialDate.Some? ==> 0 <= initialDate.value.month < 12 && 1 <= initialDate.value.day <= 31
      ensures this.currentYear == currentYear && State() == InitialWheel(currentYear, initialDate)
    {
      var d := initialDate.GetOr(Date(2000, 0, 1));
      this.currentYear := currentYear;
      selectedMonth := d.month;
      selectedDay := d.day - 1;
      selectedYear := InitialYearIndex(currentYear, d.year);
      isFirstRender := true;
      lastDate := "";
      reported := [];
    }

    method NotifyDateChange()
      requires ValidState(State())
      modifies this
      ensures State() == AfterNotify(currentYear, old(State()))
    {
      if isFirstRender {
        isFirstRender := false;
        return;
      }
      var date := ShownDate(currentYear, State());
      var dateString := DateKey(date);
      if dateString != lastDate {
        lastDate := dateString;
        reported := reported + [date];
      }
    }

    method SyncDay()
      requires ValidState(State())
      modifies this
      ensures State() == AfterSyncDay(currentYear, old(State()))
    {
      var n := DaysInMonth(Years(currentYear)[selectedYear], selectedMonth);
      if selectedDay >= n {
        selectedDay := n - 1;
      }
    }

    method MonthScrollEnd(index: int)
      requires ValidState(State())
      modifies this
      ensures State() == AfterMonthScroll(old(State()), index)
    {
      var clamped := ScrollEndIndex(index, 12);
      if clamped != selectedMonth {
        selectedMonth := clamped;
      }
    }

    method DayScrollEnd(index: int)
      requires ValidState(State())
      modifies this
      ensures State() == AfterDayScroll(currentYear, old(State()), index)
    {
      var n := |AvailableDays(Years(currentYear)[selectedYear], selectedMonth)|;
      var clamped := ScrollEndIndex(index, n);
      if clamped != ClampedDay(selectedDay, n) {
        selectedDay := clamped;
      }
    }

    method YearScrollEnd(index: int)
      requires ValidState(State())
      modifies this
      ensures State() == AfterYearScroll(old(State()), index)
    {
      var clamped := ScrollEndIndex(index, 100);
      if clamped != selectedYear {
        selectedYear := clamped;
      }
    }
  }
}
