/**
 * The two attendance screens: the monthly report grid (one status cell per
 * employee and day) and the employee's own month calendar.
 */
module AttendanceViews {
  import opened Common
  import opened Calendar

  // ---------------------------------------------------------------------
  // Weekday numbering: the browser counts 0 = Sunday, the backend's
  // `off_days` count 0 = Monday .. 6 = Sunday.
  // ---------------------------------------------------------------------

  function BackendWeekday(jsDay: int): (py: int)
    requires 0 <= jsDay <= 6
    ensures 0 <= py <= 6
    ensures (py + 1) % 7 == jsDay
  {
    if jsDay == 0 then 6 else jsDay - 1
  }

  /** The mapping is a bijection on 0..6: distinct browser days give distinct backend days. */
  lemma BackendWeekdayInjective(a: int, b: int)
    requires 0 <= a <= 6 && 0 <= b <= 6
    requires BackendWeekday(a) == BackendWeekday(b)
    ensures a == b
  {
  }

  lemma BackendWeekdaySurjective(py: int)
    requires 0 <= py <= 6
    ensures BackendWeekday((py + 1) % 7) == py
  {
  }

  // ---------------------------------------------------------------------
  // Monthly report.
  // ---------------------------------------------------------------------

  /** "yyyy-MM-dd" with the month and day zero-padded to two characters. */
  function DateKey(year: nat, month: int, day: int): (key: string)
    requires IsMonth(month) && 1 <= day <= 31
  {
    NatToString(year) + "-" + Two(month) + "-" + Two(day)
  }

  lemma NatToStringOneDigit(n: nat)
    requires n < 10
    ensures NatToString(n) == [('0' as int + n) as char]
  {
  }

  lemma NatToStringTwoDigits(n: nat)
    requires 10 <= n < 100
    ensures |NatToString(n)| == 2
  {
    NatToStringOneDigit(n / 10);
  }

  lemma PaddedTwo(n: int)
    requires 1 <= n <= 31
    ensures var p := PadLeft(NatToString(n), 2, '0');
            |p| == 2 && AllDigits(p) && DigitsValue(p) == n
  {
    var s := NatToString(n);
    var p := PadLeft(s, 2, '0');
    NatToStringValue(n);
    if n < 10 {
      NatToStringOneDigit(n);
      assert p == ['0'] + s;
      assert p[..1] == ['0'] && ['0'][..0] == [];
      assert DigitsValue(['0']) == 0;
    } else {
      NatToStringTwoDigits(n);
      assert p == s;
    }
  }

  /** The two-digit text of a month or day. */
  function Two(n: int): string
    requires 1 <= n <= 31
  {
    PadLeft(NatToString(n), 2, '0')
  }

  lemma TwoLength(n: int)
    requires 1 <= n <= 31
    ensures |Two(n)| == 2
  {
    if n < 10 { NatToStringOneDigit(n); } else { NatToStringTwoDigits(n); }
  }

  /** Two months or days with the same two-digit text are the same. */
  lemma TwoInjective(a: int, b: int)
    requires 1 <= a <= 31 && 1 <= b <= 31 && Two(a) == Two(b)
    ensures a == b
  {
    PaddedTwo(a);
    PaddedTwo(b);
  }

  /** The key is the year's digits, a hyphen, the two month digits, a hyphen and the two day digits. */
  lemma DateKeyParts(year: nat, month: int, day: int)
    requires IsMonth(month) && 1 <= day <= 31
    ensures var k, n := DateKey(year, month, day), |NatToString(year)|;
            |k| == n + 6 && k[..n] == NatToString(year) && k[n] == '-' && k[n + 3] == '-'
            && k[n + 1..n + 3] == Two(month) && k[n + 4..] == Two(day)
  {
    TwoLength(month);
    TwoLength(day);
    ThreeFields(NatToString(year), Two(month), Two(day));
  }

  lemma ThreeFields(ys: string, ms: string, ds: string)
    requires |ms| == 2 && |ds| == 2
    ensures var k, n := ys + "-" + ms + "-" + ds, |ys|;
            |k| == n + 6 && k[..n] == ys && k[n] == '-' && k[n + 3] == '-' && k[n + 1..n + 3] == ms && k[n + 4..] == ds
  {
  }

  /** Different days give different keys, so a record is found for exactly its own date. */
  lemma DateKeyInjective(y1: nat, m1: int, d1: int, y2: nat, m2: int, d2: int)
    requires IsMonth(m1) && 1 <= d1 <= 31 && IsMonth(m2) && 1 <= d2 <= 31
    requires DateKey(y1, m1, d1) == DateKey(y2, m2, d2)
    ensures y1 == y2 && m1 == m2 && d1 == d2
  {
    DateKeyParts(y1, m1, d1);
    DateKeyParts(y2, m2, d2);
    var ys1, ys2 := NatToString(y1), NatToString(y2);
    assert |ys1| == |ys2|;
    assert ys1 == ys2;
    NatToStringValue(y1);
    NatToStringValue(y2);
    TwoInjective(m1, m2);
    TwoInjective(d1, d2);
  }

  datatype AttendanceRecord = AttendanceRecord(userId: int, date: string, status: string)

  /** `find`: the first record of this user on this date. */
  function FindRecord(records: seq<AttendanceRecord>, userId: int, date: string): (r: Option<AttendanceRecord>)
    ensures r.Some? ==> r.value in records && r.value.userId == userId && r.value.date == date
    ensures r.None? ==> forall a :: a in records ==> !(a.userId == userId && a.date == date)
    ensures r.Some? ==> exists i :: 0 <= i < |records| && records[i] == r.value &&
                                    forall j :: 0 <= j < i ==> !(records[j].userId == userId && records[j].date == date)
  {
    if records == [] then None
    else if records[0].userId == userId && records[0].date == date then Some(records[0])
    else FindRecord(records[1..], userId, date)
  }

  /** The grid cell: the recorded status, else "holiday", else "weekend" on a weekly off day, else "-". */
  function GetStatus(records: seq<AttendanceRecord>, holidays: seq<string>, offDays: seq<int>,
                     year: nat, month: int, userId: int, day: int): (status: string)
    requires IsMonth(month) && 1 <= day <= DaysInMonth(year, month)
  {
    var key := DateKey(year, month, day);
    var rec := FindRecord(records, userId, key);
    if rec.Some? then rec.value.status
    else if key in holidays then "holiday"
    else if BackendWeekday(JsWeekday(Date(year, month, day))) in offDays then "weekend"
    else "-"
  }

  lemma GetStatusPriority(records: seq<AttendanceRecord>, holidays: seq<string>, offDays: seq<int>,
                          year: nat, month: int, userId: int, day: int)
    requires IsMonth(month) && 1 <= day <= DaysInMonth(year, month)
    ensures var key := DateKey(year, month, day);
            var status := GetStatus(records, holidays, offDays, year, month, userId, day);
            (exists a :: a in records && a.userId == userId && a.date == key && a.status == status)
            || (status == "holiday" && key in holidays)
            || (status == "weekend" && key !in holidays)
            || (status == "-" && key !in holidays)
    ensures var key := DateKey(year, month, day);
            var rec := FindRecord(records, userId, key);
            rec.Some? ==> GetStatus(records, holidays, offDays, year, month, userId, day) == rec.value.status
    ensures var key := DateKey(year, month, day);
            (forall a :: a in records ==> !(a.userId == userId && a.date == key)) ==>
              GetStatus(records, holidays, offDays, year, month, userId, day) ==
                (if key in holidays then "holiday"
                 else if BackendWeekday(JsWeekday(Date(year, month, day))) in offDays then "weekend"
                 else "-")
  {
    var key := DateKey(year, month, day);
    var rec := FindRecord(records, userId, key);
    if rec.None? {
      assert forall a :: a in records ==> !(a.userId == userId && a.date == key);
    } else {
      assert rec.value in records;
    }
  }

  function StatusLabel(status: string): (short: string)
    ensures status == "present" ==> short == "P"
    ensures status == "absent" ==> short == "A"
    ensures status == "half_day" ==> short == "HD"
    ensures status == "leave" ==> short == "L"
    ensures status == "holiday" ==> short == "H"
    ensures status == "weekend" ==> short == "W"
    ensures status !in ["present", "absent", "half_day", "leave", "holiday", "weekend"] ==> short == "-"
  {
    match status
    case "present" => "P"
    case "absent" => "A"
    case "half_day" => "HD"
    case "leave" => "L"
    case "holiday" => "H"
    case "weekend" => "W"
    case _ => "-"
  }

  /** Distinct known statuses get distinct labels, and none of them is "-". */
  lemma StatusLabelDistinct(s1: string, s2: string)
    requires s1 in ["present", "absent", "half_day", "leave", "holiday", "weekend"]
    requires s2 in ["present", "absent", "half_day", "leave", "holiday", "weekend"]
    requires StatusLabel(s1) == StatusLabel(s2)
    ensures s1 == s2 && StatusLabel(s1) != "-"
  {
  }

  datatype Stats = Stats(present: nat, absent: nat, halfDay: nat, leave: nat)

  function CalculateStats(records: seq<AttendanceRecord>, userId: int): (st: Stats)
  {
    var mine := Filter(records, (a: AttendanceRecord) => a.userId == userId);
    Stats(
      CountBy(mine, (a: AttendanceRecord) => a.status == "present"),
      CountBy(mine, (a: AttendanceRecord) => a.status == "absent"),
      CountBy(mine, (a: AttendanceRecord) => a.status == "half_day"),
      CountBy(mine, (a: AttendanceRecord) => a.status == "leave"))
  }

  function StatusCount(s: seq<AttendanceRecord>): nat
  {
    CountBy(s, (a: AttendanceRecord) => a.status == "present")
    + CountBy(s, (a: AttendanceRecord) => a.status == "absent")
    + CountBy(s, (a: AttendanceRecord) => a.status == "half_day")
    + CountBy(s, (a: AttendanceRecord) => a.status == "leave")
  }

  lemma {:induction false} StatusCountBound(s: seq<AttendanceRecord>)
    ensures StatusCount(s) <= |s|
  {
    if s != [] { StatusCountBound(s[..|s| - 1]); }
  }

  /** Only recorded statuses are counted: the four counts add up to at most the user's records. */
  lemma StatsBounded(records: seq<AttendanceRecord>, userId: int)
    ensures var st := CalculateStats(records, userId);
            st.present + st.absent + st.halfDay + st.leave
              <= CountBy(records, (a: AttendanceRecord) => a.userId == userId)
  {
    var mine := Filter(records, (a: AttendanceRecord) => a.userId == userId);
    StatusCountBound(mine);
    FilterLength(records, (a: AttendanceRecord) => a.userId == userId);
  }

  /** The report's columns: exactly the days 1..daysInMonth. */
  function DaysArray(year: int, month: int): (days: seq<int>)
    requires IsMonth(month)
    ensures |days| == DaysInMonth(year, month)
    ensures forall i :: 0 <= i < |days| ==> days[i] == i + 1
  {
    seq(DaysInMonth(year, month), i => i + 1)
  }

  // ---------------------------------------------------------------------
  // The employee's month calendar.
  // ---------------------------------------------------------------------

  /** A record already split into its day of month (the date's third field). */
  datatype DayRecord = DayRecord(day: int, status: string, overtimeHours: real)

  datatype Holiday = Holiday(day: int, name: string)

  datatype Style = Plain | Present | HalfDay | Absent | Leave | HolidayStyle | WeeklyOff

  datatype Cell = Blank | DayCell(day: int, style: Style, title: string, overtime: Option<real>)

  /** Colour of a day: status colour, then the holiday override, then the weekly-off override. */
  function CellStyle(statusUpper: string, holidayName: string, isOffDay: bool): (st: Style)
  {
    var base :=
      if statusUpper == "PRESENT" then Present
      else if statusUpper == "HALF_DAY" || statusUpper == "HALF DAY" then HalfDay
      else if statusUpper == "ABSENT" then Absent
      else if statusUpper == "LEAVE" then Leave
      else Plain;
    var afterHoliday :=
      if holidayName != "" && statusUpper != "PRESENT" && statusUpper != "HALF_DAY" then HolidayStyle else base;
    if isOffDay && holidayName == "" && statusUpper != "PRESENT" && statusUpper != "HALF_DAY" && statusUpper != "ABSENT"
    then WeeklyOff else afterHoliday
  }

  lemma CellStyleRules(statusUpper: string, holidayName: string, isOffDay: bool)
    ensures CellStyle(statusUpper, holidayName, isOffDay) == HolidayStyle <==>
      holidayName != "" && statusUpper != "PRESENT" && statusUpper != "HALF_DAY"
    ensures CellStyle(statusUpper, holidayName, isOffDay) == WeeklyOff <==>
      isOffDay && holidayName == "" && statusUpper !in ["PRESENT", "HALF_DAY", "ABSENT"]
    ensures statusUpper == "PRESENT" ==> CellStyle(statusUpper, holidayName, isOffDay) == Present
  {
  }

  function Title(statusUpper: string, holidayName: string, isOffDay: bool): string
  {
    if isOffDay && holidayName == "" && statusUpper != "PRESENT" && statusUpper != "HALF_DAY" && statusUpper != "ABSENT"
    then "Weekly Off"
    else if holidayName != "" && statusUpper != "PRESENT" && statusUpper != "HALF_DAY" then holidayName
    else ""
  }

  /** The last record for a day wins, as repeated assignment into the day map does. */
  function LastRecordFor(records: seq<DayRecord>, day: int): Option<DayRecord>
  {
    if records == [] then None
    else if records[|records| - 1].day == day then Some(records[|records| - 1])
    else LastRecordFor(records[..|records| - 1], day)
  }

  function LastHolidayFor(holidays: seq<Holiday>, day: int): string
  {
    if holidays == [] then ""
    else if holidays[|holidays| - 1].day == day then holidays[|holidays| - 1].name
    else LastHolidayFor(holidays[..|holidays| - 1], day)
  }

  function OvertimeBadge(rec: Option<DayRecord>): (badge: Option<real>)
    ensures badge.Some? <==> rec.Some? && rec.value.overtimeHours > 0.0
    ensures badge.Some? ==> badge.value == rec.value.overtimeHours
  {
    if rec.Some? && rec.value.overtimeHours > 0.0 then Some(rec.value.overtimeHours) else None
  }

  /** The cell for one day of the month. */
  function DayCellFor(records: seq<DayRecord>, holidays: seq<Holiday>, offDays: seq<int>,
                      ym: YearMonth, day: int): Cell
    requires ym.Valid()
  {
    var rec := LastRecordFor(records, day);
    var statusUpper := if rec.Some? then Upper(rec.value.status) else "";
    var holidayName := LastHolidayFor(holidays, day);
    var isOffDay := BackendWeekday(JsWeekday(Date(ym.year, ym.month, day))) in offDays;
    DayCell(day, CellStyle(statusUpper, holidayName, isOffDay), Title(statusUpper, holidayName, isOffDay),
            OvertimeBadge(rec))
  }

  method BuildAttendanceMap(records: seq<DayRecord>) returns (m: map<int, DayRecord>)
    ensures forall d :: LastRecordFor(records, d) == (if d in m then Some(m[d]) else None)
  {
    m := map[];
    var i := 0;
    while i < |records|
      invariant 0 <= i <= |records|
      invariant forall d :: LastRecordFor(records[..i], d) == (if d in m then Some(m[d]) else None)
    {
      assert records[..i + 1][..i] == records[..i];
      m := m[records[i].day := records[i]];
      i := i + 1;
    }
    assert records[..i] == records;
  }

  method BuildHolidayMap(holidays: seq<Holiday>) returns (m: map<int, string>)
    ensures forall d :: LastHolidayFor(holidays, d) == (if d in m then m[d] else "")
  {
    m := map[];
    var i := 0;
    while i < |holidays|
      invariant 0 <= i <= |holidays|
      invariant forall d :: LastHolidayFor(holidays[..i], d) == (if d in m then m[d] else "")
    {
      assert holidays[..i + 1][..i] == holidays[..i];
      m := m[holidays[i].day := holidays[i].name];
      i := i + 1;
    }
    assert holidays[..i] == holidays;
  }

  /**
   * The calendar grid: the day maps are filled record by record, then
   * `firstDay` blanks and one cell per day are pushed.
   */
  method RenderCalendar(records: seq<DayRecord>, holidays: seq<Holiday>, offDays: seq<int>, ym: YearMonth)
    returns (cells: seq<Cell>)
    requires ym.Valid()
    ensures var firstDay := JsWeekday(Date(ym.year, ym.month, 1));
            |cells| == firstDay + DaysInMonth(ym.year, ym.month)
            && (forall i :: 0 <= i < firstDay ==> cells[i] == Blank)
            && (forall d :: 1 <= d <= DaysInMonth(ym.year, ym.month) ==>
                  cells[firstDay + d - 1] == DayCellFor(records, holidays, offDays, ym, d))
  {
    var attendanceMap := BuildAttendanceMap(records);
    var holidayMap := BuildHolidayMap(holidays);
    var firstDay := JsWeekday(Date(ym.year, ym.month, 1));
    var daysInMonth := DaysInMonth(ym.year, ym.month);
    cells := [];
    var i := 0;
    while i < firstDay
      invariant 0 <= i <= firstDay && |cells| == i
      invariant forall k :: 0 <= k < i ==> cells[k] == Blank
    {
      cells := cells + [Blank];
      i := i + 1;
    }
    var day := 1;
    while day <= daysInMonth
      invariant 1 <= day <= daysInMonth + 1
      invariant |cells| == firstDay + day - 1
      invariant forall k :: 0 <= k < firstDay ==> cells[k] == Blank
      invariant forall d :: 1 <= d < day ==> cells[firstDay + d - 1] == DayCellFor(records, holidays, offDays, ym, d)
    {
      var rec := if day in attendanceMap then Some(attendanceMap[day]) else None;
      var statusUpper := if rec.Some? then Upper(rec.value.status) else "";
      var holidayName := if day in holidayMap then holidayMap[day] else "";
      var isOffDay := BackendWeekday(JsWeekday(Date(ym.year, ym.month, day))) in offDays;
      assert rec == LastRecordFor(records, day);
      assert holidayName == LastHolidayFor(holidays, day);
      cells := cells + [DayCell(day, CellStyle(statusUpper, holidayName, isOffDay),
                                Title(statusUpper, holidayName, isOffDay), OvertimeBadge(rec))];
      day := day + 1;
    }
  }
}
