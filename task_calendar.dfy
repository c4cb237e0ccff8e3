/**
 * The month calendar: ECMAScript's day arithmetic for `new Date(year, month, date)` (the local
 * time zone cancels out, since the date is built from and read back in local components), the
 * month length and Monday-based weekday of its first day, the `YYYY-MM-DD` day keys, the grid of
 * cells, and the page's state handlers.
 */
module TaskCalendar {
  import opened Wrappers
  import opened JsText
  import opened Types
  import UseTasks
  import JsArray

  /** The Gregorian leap-year rule. */
  predicate IsLeapYear(y: int) {
    y % 4 == 0 && (y % 100 != 0 || y % 400 == 0)
  }

  /** The number of days of month `m` (0 is January) of year `y`. */
  function MonthLength(y: int, m: int): (n: int)
    requires 0 <= m < 12
    ensures 28 <= n <= 31
  {
    if m == 1 then (if IsLeapYear(y) then 29 else 28)
    else if m == 3 || m == 5 || m == 8 || m == 10 then 30
    else 31
  }

  /** The year `Date(year, …)` uses: a year from 0 to 99 means 1900 to 1999. */
  function FullYear(year: int): int {
    if 0 <= year <= 99 then 1900 + year else year
  }

  /** ECMAScript's DayFromYear: the day number of January 1 of `y`, counted from 1970-01-01. */
  function DayFromYear(y: int): int {
    365 * (y - 1970) + (y - 1969) / 4 - (y - 1901) / 100 + (y - 1601) / 400
  }

  /** The days of year `y` before month `m`: the lengths of the months before it, added up. */
  function DaysBeforeMonth(y: int, m: int): (n: int)
    requires 0 <= m <= 12
    ensures 28 * m <= n <= 31 * m
  {
    if m == 0 then 0 else DaysBeforeMonth(y, m - 1) + MonthLength(y, m - 1)
  }

  /**
   * The sums agree with ECMAScript's month table, whose entries from March on grow by one in a
   * leap year.
   */
  lemma {:induction false} MonthTable(y: int, m: int)
    requires 0 <= m <= 12
    ensures DaysBeforeMonth(y, m)
         == [0, 31, 59, 90, 120, 151, 181, 212, 243, 273, 304, 334, 365][m] + (if m >= 2 && IsLeapYear(y) then 1 else 0)
  {
    if m > 0 {
      MonthTable(y, m - 1);
    }
  }

  /** The closed form of DayFromYear agrees with the month sums: a year has 365 or 366 days. */
  lemma YearLength(y: int)
    ensures DaysBeforeMonth(y, 12) == if IsLeapYear(y) then 366 else 365
    ensures DayFromYear(y + 1) == DayFromYear(y) + DaysBeforeMonth(y, 12)
  {
    MonthTable(y, 12);
    LeapDaysBefore(y);
  }

  /** Each of DayFromYear's three leap-day counts grows by one exactly past a year its divisor divides. */
  lemma LeapDaysBefore(y: int)
    ensures DayFromYear(y + 1) == DayFromYear(y) + if IsLeapYear(y) then 366 else 365
  {
    QuadrennialStep(y);
    CenturialStep(y);
    QuadricentennialStep(y);
    DivisorChain(y);
  }

  lemma QuadrennialStep(y: int)
    ensures (y + 1 - 1969) / 4 - (y - 1969) / 4 == if y % 4 == 0 then 1 else 0
  {
  }

  lemma CenturialStep(y: int)
    ensures (y + 1 - 1901) / 100 - (y - 1901) / 100 == if y % 100 == 0 then 1 else 0
  {
  }

  lemma QuadricentennialStep(y: int)
    ensures (y + 1 - 1601) / 400 - (y - 1601) / 400 == if y % 400 == 0 then 1 else 0
  {
  }

  /** A multiple of 400 is one of 100, and a multiple of 100 is one of 4. */
  lemma DivisorChain(y: int)
    ensures y % 400 == 0 ==> y % 100 == 0
    ensures y % 100 == 0 ==> y % 4 == 0
  {
    if y % 400 == 0 {
      CenturyOfQuadricentury(y);
    }
    if y % 100 == 0 {
      QuadOfCentury(y);
    }
  }

  lemma CenturyOfQuadricentury(y: int)
    requires y % 400 == 0
    ensures y % 100 == 0
  {
  }

  lemma QuadOfCentury(y: int)
    requires y % 100 == 0
    ensures y % 4 == 0
  {
  }

  /**
   * ECMAScript's MakeDay for `new Date(year, month, date)`: months outside 0..11 carry into the
   * year, and a date outside the month runs into the neighbouring months.
   */
  function DayNumber(year: int, month: int, date: int): int {
    var y := FullYear(year) + month / 12;
    DayFromYear(y) + DaysBeforeMonth(y, month % 12) + date - 1
  }

  /** Day 0 of the next month is the last day of this one. */
  lemma MonthRollover(year: int, month: int)
    ensures DayNumber(year, month + 1, 0)
         == DayNumber(year, month, 1) + MonthLength(FullYear(year) + month / 12, month % 12) - 1
  {
    var y := FullYear(year) + month / 12;
    if month % 12 < 11 {
      assert (month + 1) / 12 == month / 12 && (month + 1) % 12 == month % 12 + 1;
    } else {
      assert (month + 1) / 12 == month / 12 + 1 && (month + 1) % 12 == 0;
      YearLength(y);
    }
  }

  /** ECMAScript's WeekDay: 0 is Sunday; 1970-01-01 was a Thursday. */
  function WeekDay(t: int): (d: int)
    ensures 0 <= d < 7
  {
    (t + 4) % 7
  }

  /**
   * `getDaysInMonth`: the date of `new Date(year, month + 1, 0)`, counted from the 1st of the
   * month; it is the length of the (normalised) month.
   */
  function GetDaysInMonth(year: int, month: int): (n: int)
    ensures n == MonthLength(FullYear(year) + month / 12, month % 12)
    ensures 28 <= n <= 31
  {
    MonthRollover(year, month);
    DayNumber(year, month + 1, 0) - DayNumber(year, month, 1) + 1
  }

  /** A Sunday-based weekday re-counted from Monday (0) to Sunday (6). */
  function MondayIndex(firstDay: int): (d: int)
    requires 0 <= firstDay < 7
    ensures 0 <= d <= 6 && d == (firstDay + 6) % 7
  {
    if firstDay == 0 then 6 else firstDay - 1
  }

  /** `getFirstDayOfMonth`: the weekday of the 1st, counted from Monday. */
  function GetFirstDayOfMonth(year: int, month: int): (d: int)
    ensures 0 <= d <= 6
  {
    MondayIndex(WeekDay(DayNumber(year, month, 1)))
  }

  /** Counted from Monday, the weekday of `t + n` is `n` days after that of `t`. */
  lemma WeekShift(t: int, n: int)
    ensures MondayIndex(WeekDay(t + n)) == (MondayIndex(WeekDay(t)) + n) % 7
  {
    assert (t + n + 4 + 6) % 7 == ((t + 4) % 7 + 6 + n) % 7;
  }

  /** Each month starts where the previous one's days leave off in the week. */
  lemma FirstDayAdvances(year: int, month: int)
    ensures GetFirstDayOfMonth(year, month + 1)
         == (GetFirstDayOfMonth(year, month) + GetDaysInMonth(year, month)) % 7
  {
    var t := DayNumber(year, month, 1);
    var n := GetDaysInMonth(year, month);
    MonthRollover(year, month);
    assert DayNumber(year, month + 1, 1) == t + n;
    WeekShift(t, n);
  }

  /** 1970-01-01, day 0 of ECMAScript's time line, was a Thursday (Monday-based 3). */
  lemma EpochWeekday()
    ensures GetFirstDayOfMonth(1970, 0) == 3
  {
    assert DayNumber(1970, 0, 1) == 0;
  }

  /** 2025-01-01 was a Wednesday (Monday-based 2). */
  lemma NewYear2025Weekday()
    ensures GetFirstDayOfMonth(2025, 0) == 2
  {
    assert DayNumber(2025, 0, 1) == 20089;
  }

  /** February of a year outside 0..99 has 29 days exactly in leap years. */
  lemma FebruaryLength(year: int)
    requires !(0 <= year <= 99)
    ensures GetDaysInMonth(year, 1) == if IsLeapYear(year) then 29 else 28
  {
  }

  /** A year from 0 to 99 is read as 1900 to 1999. */
  lemma TwoDigitYear(year: int, month: int)
    requires 0 <= year <= 99
    ensures GetDaysInMonth(year, month) == GetDaysInMonth(1900 + year, month)
    ensures GetFirstDayOfMonth(year, month) == GetFirstDayOfMonth(1900 + year, month)
  {
    assert FullYear(year) == FullYear(1900 + year);
    assert DayNumber(year, month, 1) == DayNumber(1900 + year, month, 1);
  }

  /** Month 12 of 2025 is January 2026; month -11 of 2025 is February 2024. */
  lemma MonthsCarry()
    ensures GetDaysInMonth(2025, 12) == 31 && GetDaysInMonth(2025, -11) == 29
  {
    assert GetDaysInMonth(2025, 12) == MonthLength(2026, 0);
    assert GetDaysInMonth(2025, -11) == MonthLength(2024, 1);
  }

  /** `String(n).padStart(2, '0')`. */
  function TwoDigits(n: int): string {
    PadStart(IntToDecimal(n), 2, '0')
  }

  /** The day key of `handleDateClick` and `getTasksForDate`. */
  function DateKey(year: int, month: int, day: int): string {
    IntToDecimal(year) + "-" + TwoDigits(month + 1) + "-" + TwoDigits(day)
  }

  /**
   * A full-date of section 5.6 of RFC 3339: four-digit year, two-digit month 01..12 and
   * two-digit day within the month, with the month lengths of section 5.7 of RFC 3339.
   */
  predicate IsFullDate(s: string) {
    && |s| == 10 && s[4] == '-' && s[7] == '-'
    && AllDigits(s[0..4]) && AllDigits(s[5..7]) && AllDigits(s[8..10])
    && 1 <= DecimalValue(s[5..7]) <= 12
    && 1 <= DecimalValue(s[8..10]) <= MonthLength(DecimalValue(s[0..4]), DecimalValue(s[5..7]) - 1)
  }

  /** The year, month (1..12) and day a full-date names. */
  function ParseFullDate(s: string): (int, int, int)
    requires IsFullDate(s)
  {
    (DecimalValue(s[0..4]), DecimalValue(s[5..7]), DecimalValue(s[8..10]))
  }

  /** A number below 100 padded to two places is two digits denoting it. */
  lemma TwoDigitsValue(n: int)
    requires 0 <= n < 100
    ensures |TwoDigits(n)| == 2 && AllDigits(TwoDigits(n)) && DecimalValue(TwoDigits(n)) == n
  {
    DecimalLength(n);
    if n < 10 {
      assert TwoDigits(n) == "0" + NatToDecimal(n);
      LeadingZero(NatToDecimal(n));
    }
  }

  /** Where the parts of `y-mm-dd` sit when they have four, two and two characters. */
  lemma KeyLayout(y: string, mm: string, dd: string)
    requires |y| == 4 && |mm| == 2 && |dd| == 2
    ensures var key := y + "-" + mm + "-" + dd;
      |key| == 10 && key[4] == '-' && key[7] == '-' && key[0..4] == y && key[5..7] == mm && key[8..10] == dd
  {
  }

  /**
   * For a four-digit year and a day of the month, the key is a ten-character RFC 3339 full-date
   * that reads back as the year, the month counted from 1, and the day.
   */
  lemma DateKeyIsFullDate(year: int, month: int, day: int)
    requires 1000 <= year <= 9999 && 0 <= month < 12 && 1 <= day <= GetDaysInMonth(year, month)
    ensures |DateKey(year, month, day)| == 10
    ensures IsFullDate(DateKey(year, month, day))
    ensures ParseFullDate(DateKey(year, month, day)) == (year, month + 1, day)
  {
    assert GetDaysInMonth(year, month) == MonthLength(year, month) by {
      assert FullYear(year) + month / 12 == year && month % 12 == month;
    }
    var y, mm, dd := IntToDecimal(year), TwoDigits(month + 1), TwoDigits(day);
    assert y == NatToDecimal(year);
    DecimalLength(year);
    TwoDigitsValue(month + 1);
    TwoDigitsValue(day);
    KeyLayout(y, mm, dd);
    assert DateKey(year, month, day) == y + "-" + mm + "-" + dd;
  }

  /** Different days of the months of a four-digit year get different keys. */
  lemma DateKeyInjective(year: int, m1: int, d1: int, m2: int, d2: int)
    requires 1000 <= year <= 9999 && 0 <= m1 < 12 && 1 <= d1 <= GetDaysInMonth(year, m1)
    requires 0 <= m2 < 12 && 1 <= d2 <= GetDaysInMonth(year, m2)
    ensures DateKey(year, m1, d1) == DateKey(year, m2, d2) <==> m1 == m2 && d1 == d2
  {
    DateKeyIsFullDate(year, m1, d1);
    DateKeyIsFullDate(year, m2, d2);
  }

  /**
   * The tasks `getTasksForDate` keeps for a key; `isoDay` is `new Date(s).toISOString().slice(0, 10)`,
   * which depends on the time zone.
   */
  function TasksOnKey(tasks: seq<Task>, key: string, isoDay: string -> string): (r: seq<Task>)
    ensures forall i :: 0 <= i < |r| ==> r[i] in tasks && isoDay(r[i].date) == key
    ensures forall i :: 0 <= i < |tasks| && isoDay(tasks[i].date) == key ==> tasks[i] in r
  {
    JsArray.Filter(tasks, (t: Task) => isoDay(t.date) == key)
  }

  /**
   * The tasks of a day keep their list order: the day's tasks of a concatenation are those of
   * each part, in turn, and a single task is kept exactly when its ISO day is the key.
   */
  lemma {:induction false} TasksOnKeyKeepsOrder(a: seq<Task>, b: seq<Task>, t: Task, key: string,
                                                isoDay: string -> string)
    ensures TasksOnKey(a + b, key, isoDay) == TasksOnKey(a, key, isoDay) + TasksOnKey(b, key, isoDay)
    ensures TasksOnKey([t], key, isoDay) == if isoDay(t.date) == key then [t] else []
  {
    JsArray.FilterAppend(a, b, (t: Task) => isoDay(t.date) == key);
  }

  /** What a day cell lists: the first three tasks, then "+k more tasks" when there are more. */
  datatype Preview = Preview(shown: seq<Task>, more: Option<nat>)

  function DayPreview(dayTasks: seq<Task>): (p: Preview)
    ensures |p.shown| <= 3 && p.shown <= dayTasks
    ensures |p.shown| == if |dayTasks| > 3 then 3 else |dayTasks|
    ensures p.more.Some? <==> |dayTasks| > 3
    ensures p.more.Some? ==> p.more.value == |dayTasks| - 3
    ensures |p.shown| + p.more.GetOr(0) == |dayTasks|
  {
    if |dayTasks| > 3 then Preview(dayTasks[..3], Some(|dayTasks| - 3)) else Preview(dayTasks, None)
  }

  /** A cell of the month grid. */
  datatype Cell = Blank | DayCell(day: int, preview: Preview)

  /** `n` empty cells. */
  function Blanks(n: nat): (cells: seq<Cell>)
    ensures |cells| == n && forall i :: 0 <= i < n ==> cells[i] == Blank
  {
    if n == 0 then [] else Blanks(n - 1) + [Blank]
  }

  /** The cell of day `d` of a month, previewing the tasks whose ISO day is its key. */
  function CellOfDay(tasks: seq<Task>, year: int, month: int, d: int, isoDay: string -> string): Cell {
    DayCell(d, DayPreview(TasksOnKey(tasks, DateKey(year, month, d), isoDay)))
  }

  /** The cells `cellOf(1)` to `cellOf(n)`, in order. */
  function Cells(cellOf: nat -> Cell, n: nat): (cells: seq<Cell>)
    ensures |cells| == n
  {
    if n == 0 then [] else Cells(cellOf, n - 1) + [cellOf(n)]
  }

  /** The cell at position `d - 1` is `cellOf(d)`. */
  lemma {:induction false} CellsAt(cellOf: nat -> Cell, n: nat, d: nat)
    requires 1 <= d <= n
    ensures Cells(cellOf, n)[d - 1] == cellOf(d)
  {
    if d < n {
      CellsAt(cellOf, n - 1, d);
    }
  }

  /** The cells of days 1 to `n` of a month, in order. */
  function DayCells(tasks: seq<Task>, year: int, month: int, n: nat, isoDay: string -> string): (cells: seq<Cell>)
    ensures |cells| == n
  {
    Cells((d: nat) => CellOfDay(tasks, year, month, d, isoDay), n)
  }

  /** The cell at position `d - 1` is the cell of day `d`. */
  lemma DayCellAt(tasks: seq<Task>, year: int, month: int, n: nat, d: nat, isoDay: string -> string)
    requires 1 <= d <= n
    ensures DayCells(tasks, year, month, n, isoDay)[d - 1] == CellOfDay(tasks, year, month, d, isoDay)
  {
    CellsAt((d: nat) => CellOfDay(tasks, year, month, d, isoDay), n, d);
  }

  /**
   * The grid holds `first` blank cells, then the cells of days 1 to `n`: day `d` sits at
   * position `first + d - 1`.
   */
  lemma GridLayout(first: nat, tasks: seq<Task>, year: int, month: int, n: nat, isoDay: string -> string)
    ensures var grid := Blanks(first) + DayCells(tasks, year, month, n, isoDay);
      && |grid| == first + n
      && (forall i :: 0 <= i < first ==> grid[i] == Blank)
      && (forall d :: 1 <= d <= n ==> grid[first + d - 1] == CellOfDay(tasks, year, month, d, isoDay))
  {
    var grid := Blanks(first) + DayCells(tasks, year, month, n, isoDay);
    forall d | 1 <= d <= n
      ensures grid[first + d - 1] == CellOfDay(tasks, year, month, d, isoDay)
    {
      DayCellAt(tasks, year, month, n, d, isoDay);
    }
  }

  /**
   * One step of `renderCalendarDays`: appending the cell of day `n` with its tasks to the grid
   * up to day `n - 1` gives the grid up to day `n`.
   */
  lemma GridStep(first: nat, tasks: seq<Task>, year: int, month: int, n: nat, isoDay: string -> string,
                 grid: seq<Cell>, dayTasks: seq<Task>)
    requires n >= 1 && grid == Blanks(first) + DayCells(tasks, year, month, n - 1, isoDay)
    requires dayTasks == TasksOnKey(tasks, DateKey(year, month, n), isoDay)
    ensures grid + [DayCell(n, DayPreview(dayTasks))] == Blanks(first) + DayCells(tasks, year, month, n, isoDay)
  {
  }

  /** The calendar page's state. */
  class Calendar {
    /** The year shown: set to 2025 and never changed. */
    const currentYear: int
    var tasks: seq<Task>
    var title: string
    var description: string
    var category: string
    var priority: string
    var selectedDate: Option<string>
    var showTaskModal: bool
    var currentMonth: int
    var showMonthDropdown: bool
    var refreshFlag: bool

    /** The initial state; `month` is the clock's current month. */
    constructor (month: int)
      ensures tasks == [] && title == "" && description == "" && category == "work" && priority == "medium"
      ensures selectedDate == None && !showTaskModal && currentMonth == month
      ensures !showMonthDropdown && !refreshFlag && currentYear == 2025
    {
      currentYear := 2025;
      tasks := [];
      title := "";
      description := "";
      category := "work";
      priority := "medium";
      selectedDate := None;
      showTaskModal := false;
      currentMonth := month;
      showMonthDropdown := false;
      refreshFlag := false;
    }

    /** `handleDateClick`: select the day's key and open the modal. */
    method HandleDateClick(day: int)
      modifies this
      ensures selectedDate == Some(DateKey(currentYear, currentMonth, day)) && showTaskModal
      ensures unchanged(this`tasks, this`title, this`description, this`category, this`priority)
      ensures unchanged(this`currentMonth, this`showMonthDropdown, this`refreshFlag)
    {
      var key := DateKey(currentYear, currentMonth, day);
      showTaskModal := true;
      selectedDate := Some(key);
    }

    /**
     * `handleAddTask`: only with a non-blank title and a selected date, hand the new task to
     * `onAdd` (returned here), then reset the form, close the modal and request a refetch.
     */
    method HandleAddTask() returns (sent: Option<NewTask>)
      modifies this
      ensures sent.Some? <==> Trim(old(title)) != "" && old(selectedDate).Some? && old(selectedDate).value != ""
      ensures sent.None? ==> unchanged(this)
      ensures sent.Some? ==>
        && sent.value == NewTask(Trim(old(title)), Trim(old(description)), false, old(category),
                                 old(priority), old(selectedDate).value)
        && title == "" && category == "work" && description == "" && priority == "medium"
        && !showTaskModal && selectedDate == None && refreshFlag == !old(refreshFlag)
        && unchanged(this`tasks, this`currentMonth, this`showMonthDropdown)
    {
      var trimmedTitle, trimmedDescription := Trim(title), Trim(description);
      if trimmedTitle == "" || selectedDate.None? || selectedDate.value == "" {
        return None;
      }
      sent := Some(NewTask(trimmedTitle, trimmedDescription, false, category, priority, selectedDate.value));
      title := "";
      category := "work";
      description := "";
      priority := "medium";
      showTaskModal := false;
      selectedDate := None;
      refreshFlag := !refreshFlag;
    }

    /** `getTasksForDate`: the loaded tasks whose ISO day is this day's key, in list order. */
    method GetTasksForDate(day: int, isoDay: string -> string) returns (found: seq<Task>)
      ensures found == TasksOnKey(tasks, DateKey(currentYear, currentMonth, day), isoDay)
    {
      found := TasksOnKey(tasks, DateKey(currentYear, currentMonth, day), isoDay);
    }

    /** `handleDeleteTask`: report the id to `onDelete` (returned here) and drop it locally. */
    method HandleDeleteTask(taskId: string) returns (deleted: string)
      modifies this
      ensures deleted == taskId && tasks == UseTasks.RemoveById(old(tasks), taskId)
      ensures unchanged(this`title, this`description, this`category, this`priority, this`selectedDate)
      ensures unchanged(this`showTaskModal, this`currentMonth, this`showMonthDropdown, this`refreshFlag)
    {
      deleted := taskId;
      tasks := UseTasks.RemoveById(tasks, taskId);
    }

    /** `handleMonthChange`: show another month and close the dropdown. */
    method HandleMonthChange(monthIndex: int)
      modifies this
      ensures currentMonth == monthIndex && !showMonthDropdown
      ensures unchanged(this`tasks, this`title, this`description, this`category, this`priority)
      ensures unchanged(this`selectedDate, this`showTaskModal, this`refreshFlag)
    {
      currentMonth := monthIndex;
      showMonthDropdown := false;
    }

    /** The month fetch: on OK the fetched list replaces `tasks`. */
    method FetchMonthTasks(reply: UseTasks.Response<seq<Task>>)
      modifies this
      ensures tasks == if reply.Ok? then reply.body else old(tasks)
      ensures unchanged(this`title, this`description, this`category, this`priority, this`selectedDate)
      ensures unchanged(this`showTaskModal, this`currentMonth, this`showMonthDropdown, this`refreshFlag)
    {
      if reply.Ok? {
        tasks := reply.body;
      }
    }

    /**
     * The render's `daysInMonth` and `firstDay` constants, then `renderCalendarDays` on them: the
     * grid of the month shown.
     */
    method RenderMonth(isoDay: string -> string) returns (days: seq<Cell>)
      ensures days == Blanks(GetFirstDayOfMonth(currentYear, currentMonth))
                      + DayCells(tasks, currentYear, currentMonth, GetDaysInMonth(currentYear, currentMonth), isoDay)
    {
      var daysInMonth := GetDaysInMonth(currentYear, currentMonth);
      var firstDay := GetFirstDayOfMonth(currentYear, currentMonth);
      days := RenderCalendarDays(firstDay, daysInMonth, isoDay);
    }

    /**
     * `renderCalendarDays`, reading the render's `firstDay` and `daysInMonth`: one blank cell per
     * weekday before the 1st, then one cell per day of the month, in order, each previewing that
     * day's tasks.
     */
    method RenderCalendarDays(firstDay: nat, daysInMonth: nat, isoDay: string -> string) returns (days: seq<Cell>)
      ensures days == Blanks(firstDay) + DayCells(tasks, currentYear, currentMonth, daysInMonth, isoDay)
    {
      days := [];
      var i := 0;
      while i < firstDay
        invariant 0 <= i <= firstDay && days == Blanks(i)
      {
        days := days + [Blank];
        i := i + 1;
      }
      var day := 1;
      while day <= daysInMonth
        invariant 1 <= day <= daysInMonth + 1
        invariant days == Blanks(firstDay) + DayCells(tasks, currentYear, currentMonth, day - 1, isoDay)
      {
        var dayTasks := GetTasksForDate(day, isoDay);
        var cell := DayCell(day, DayPreview(dayTasks));
        GridStep(firstDay, tasks, currentYear, currentMonth, day, isoDay, days, dayTasks);
        days := days + [cell];
        day := day + 1;
      }
    }
  }
}
