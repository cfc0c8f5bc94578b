/**
 * Employee attendance and salary: the bulk attendance upsert, the monthly
 * salary calculation, and the salary slip's earned-basic figure.
 * Money and hours are `real`; the two-decimal rounding of the slip is not modelled.
 */
module Payroll {
  import opened Common
  import opened Calendar

  datatype AttendanceStatus = Present | Absent | HalfDay | Leave

  datatype AttendanceRow = AttendanceRow(
    userId: int, date: Date, status: AttendanceStatus, notes: string,
    overtimeHours: real, bonusAmount: real)

  /** One entry of a bulk attendance request. */
  datatype AttendanceInput = AttendanceInput(
    userId: int, date: Date, status: AttendanceStatus, notes: string,
    overtimeHours: real, bonusAmount: real)

  // ---------------------------------------------------------------------
  // Attendance upsert.
  // ---------------------------------------------------------------------

  predicate SameKey(row: AttendanceRow, userId: int, date: Date)
  {
    row.userId == userId && row.date == date
  }

  /** At most one row per (user, date). */
  ghost predicate UniqueKeys(rows: seq<AttendanceRow>)
  {
    forall i, j :: 0 <= i < j < |rows| ==> !SameKey(rows[j], rows[i].userId, rows[i].date)
  }

  /** `.first()`: the position of the first row with this key. */
  function FindRow(rows: seq<AttendanceRow>, userId: int, date: Date): (r: Option<nat>)
    ensures r.Some? ==> r.value < |rows| && SameKey(rows[r.value], userId, date)
    ensures r.None? ==> forall i :: 0 <= i < |rows| ==> !SameKey(rows[i], userId, date)
  {
    if rows == [] then None
    else if SameKey(rows[0], userId, date) then Some(0)
    else
      var rest := FindRow(rows[1..], userId, date);
      if rest.Some? then Some(rest.value + 1) else None
  }

  function RowOf(rec: AttendanceInput): AttendanceRow
  {
    AttendanceRow(rec.userId, rec.date, rec.status, rec.notes, rec.overtimeHours, rec.bonusAmount)
  }

  /** Overwrite the existing row of this user and date, or add a new one. */
  function Upsert(rows: seq<AttendanceRow>, rec: AttendanceInput): seq<AttendanceRow>
  {
    var found := FindRow(rows, rec.userId, rec.date);
    if found.Some? then rows[found.value := RowOf(rec)] else rows + [RowOf(rec)]
  }

  lemma UpsertKeepsUnique(rows: seq<AttendanceRow>, rec: AttendanceInput)
    requires UniqueKeys(rows)
    ensures UniqueKeys(Upsert(rows, rec))
  {
  }

  /** After an upsert the key holds exactly the submitted values, and every other row is untouched. */
  lemma UpsertStores(rows: seq<AttendanceRow>, rec: AttendanceInput)
    ensures var after := Upsert(rows, rec);
            var f := FindRow(after, rec.userId, rec.date);
            f.Some? && after[f.value] == RowOf(rec)
    ensures var after := Upsert(rows, rec);
            |after| >= |rows|
            && forall i :: 0 <= i < |rows| && !SameKey(rows[i], rec.userId, rec.date) ==> after[i] == rows[i]
  {
    var after := Upsert(rows, rec);
    var found := FindRow(rows, rec.userId, rec.date);
    if found.Some? {
      FindRowFirst(rows, rec.userId, rec.date);
      FindRowAt(after, rec.userId, rec.date, found.value);
    } else {
      FindRowAt(after, rec.userId, rec.date, |rows|);
    }
  }

  lemma {:induction false} FindRowAt(rows: seq<AttendanceRow>, userId: int, date: Date, k: nat)
    requires k < |rows| && SameKey(rows[k], userId, date)
    requires forall i :: 0 <= i < k ==> !SameKey(rows[i], userId, date)
    ensures FindRow(rows, userId, date) == Some(k)
  {
    if k > 0 {
      FindRowAt(rows[1..], userId, date, k - 1);
    }
  }

  lemma {:induction false} FindRowFirst(rows: seq<AttendanceRow>, userId: int, date: Date)
    ensures var f := FindRow(rows, userId, date);
            f.Some? ==> forall i :: 0 <= i < f.value ==> !SameKey(rows[i], userId, date)
  {
    if rows != [] && !SameKey(rows[0], userId, date) {
      FindRowFirst(rows[1..], userId, date);
    }
  }

  /** The whole bulk request: entries for users outside the company are skipped. */
  function MarkAll(rows: seq<AttendanceRow>, inputs: seq<AttendanceInput>, companyUsers: set<int>): seq<AttendanceRow>
  {
    if inputs == [] then rows
    else
      var before := MarkAll(rows, inputs[..|inputs| - 1], companyUsers);
      var rec := inputs[|inputs| - 1];
      if rec.userId in companyUsers then Upsert(before, rec) else before
  }

  lemma {:induction false} MarkAllKeepsUnique(rows: seq<AttendanceRow>, inputs: seq<AttendanceInput>, companyUsers: set<int>)
    requires UniqueKeys(rows)
    ensures UniqueKeys(MarkAll(rows, inputs, companyUsers))
  {
    if inputs != [] {
      MarkAllKeepsUnique(rows, inputs[..|inputs| - 1], companyUsers);
      UpsertKeepsUnique(MarkAll(rows, inputs[..|inputs| - 1], companyUsers), inputs[|inputs| - 1]);
    }
  }

  class AttendanceTable {
    var rows: seq<AttendanceRow>

    ghost predicate Valid() reads this { UniqueKeys(rows) }

    constructor ()
      ensures Valid() && rows == []
    {
      rows := [];
    }

    /** Bulk mark; the result counts the entries that were applied. */
    method MarkAttendance(inputs: seq<AttendanceInput>, companyUsers: set<int>) returns (count: nat)
      requires Valid()
      modifies this
      ensures Valid()
      ensures rows == MarkAll(old(rows), inputs, companyUsers)
      ensures count == CountBy(inputs, (a: AttendanceInput) => a.userId in companyUsers)
    {
      count := 0;
      var i := 0;
      while i < |inputs|
        invariant 0 <= i <= |inputs|
        invariant rows == MarkAll(old(rows), inputs[..i], companyUsers)
        invariant UniqueKeys(rows)
        invariant count == CountBy(inputs[..i], (a: AttendanceInput) => a.userId in companyUsers)
      {
        var rec := inputs[i];
        assert inputs[..i + 1][..i] == inputs[..i];
        if rec.userId in companyUsers {
          UpsertKeepsUnique(rows, rec);
          var existing := FindRow(rows, rec.userId, rec.date);
          if existing.Some? {
            rows := rows[existing.value := RowOf(rec)];
          } else {
            rows := rows + [RowOf(rec)];
          }
          count := count + 1;
        }
        i := i + 1;
      }
      assert inputs[..i] == inputs;
    }
  }

  // ---------------------------------------------------------------------
  // Salary.
  // ---------------------------------------------------------------------

  datatype SalaryType = Monthly | Daily

  datatype Profile = Profile(baseSalary: real, salaryType: SalaryType)

  datatype Employee = Employee(userId: int, companyId: int, profile: Option<Profile>)

  datatype Advance = Advance(userId: int, date: Date, amount: real)

  datatype SalarySlip = SalarySlip(
    userId: int, baseSalary: real, totalDays: int, presentDays: real,
    totalOvertimePay: real, totalBonus: real, totalAdvances: real,
    calculatedAmount: real, finalPayable: real)

  function DayWeight(r: AttendanceRow): real
  {
    match r.status
    case Present => 1.0
    case HalfDay => 0.5
    case _ => 0.0
  }

  function PresentDays(rs: seq<AttendanceRow>): real
  {
    RealSumBy(rs, DayWeight)
  }

  /** Present days are the full days plus half of the half days; absence and leave add nothing. */
  lemma {:induction false} PresentDaysCounts(rs: seq<AttendanceRow>)
    ensures PresentDays(rs) ==
      CountBy(rs, (r: AttendanceRow) => r.status == Present) as real
      + 0.5 * CountBy(rs, (r: AttendanceRow) => r.status == HalfDay) as real
  {
    if rs != [] { PresentDaysCounts(rs[..|rs| - 1]); }
  }

  function HourlyRate(base: real): real { base / 30.0 / 8.0 }

  function OvertimeHours(rs: seq<AttendanceRow>): real
  {
    RealSumBy(rs, (r: AttendanceRow) => r.overtimeHours)
  }

  /** Overtime is paid hour by hour at the hourly rate, so the pay is the rate times all hours. */
  lemma {:induction false} OvertimePayIsRateTimesHours(rs: seq<AttendanceRow>, rate: real)
    ensures RealSumBy(rs, (r: AttendanceRow) => r.overtimeHours * rate) == OvertimeHours(rs) * rate
  {
    if rs != [] { OvertimePayIsRateTimesHours(rs[..|rs| - 1], rate); }
  }

  function InMonth(d: Date, ym: YearMonth): bool { d.year == ym.year && d.month == ym.month }

  /** The attendance query: this user's rows dated in the month. */
  function MonthRows(attendance: seq<AttendanceRow>, userId: int, ym: YearMonth): seq<AttendanceRow>
  {
    Filter(attendance, (r: AttendanceRow) => r.userId == userId && InMonth(r.date, ym))
  }

  function MonthAdvances(advances: seq<Advance>, userId: int, ym: YearMonth): real
  {
    RealSumBy(Filter(advances, (a: Advance) => a.userId == userId && InMonth(a.date, ym)), (a: Advance) => a.amount)
  }

  function CalculatedAmount(p: Profile, daysInMonth: int, presentDays: real): real
    requires daysInMonth > 0
  {
    match p.salaryType
    case Monthly => p.baseSalary / daysInMonth as real * presentDays
    case Daily => p.baseSalary * presentDays
  }

  /** The slip the calculation must produce, stated over whole sums. */
  function ExpectedSlip(userId: int, p: Profile, rs: seq<AttendanceRow>, advancesTotal: real, ym: YearMonth): SalarySlip
    requires ym.Valid()
  {
    var dim := DaysInMonth(ym.year, ym.month);
    var present := PresentDays(rs);
    var ot := OvertimeHours(rs) * HourlyRate(p.baseSalary);
    var bonus := RealSumBy(rs, (r: AttendanceRow) => r.bonusAmount);
    var amount := CalculatedAmount(p, dim, present);
    SalarySlip(userId, p.baseSalary, dim, present, ot, bonus, advancesTotal, amount,
               amount + ot + bonus - advancesTotal)
  }

  /**
   * Salary for one employee and month: 404 without the user in this company
   * or without a profile, otherwise the record-by-record accumulation.
   */
  method CalculateSalary(user: Option<Employee>, companyId: int, attendance: seq<AttendanceRow>,
                         advances: seq<Advance>, ym: YearMonth) returns (r: Result<SalarySlip>)
    requires ym.Valid()
    ensures r.Err? <==> user.None? || user.value.companyId != companyId || user.value.profile.None?
    ensures r.Err? ==> r.status == 404
    ensures r.Ok? ==> r.value == ExpectedSlip(user.value.userId, user.value.profile.value,
                                               MonthRows(attendance, user.value.userId, ym),
                                               MonthAdvances(advances, user.value.userId, ym), ym)
  {
    if user.None? || user.value.companyId != companyId || user.value.profile.None? {
      return Err(404, "Employee or profile not found");
    }
    var profile := user.value.profile.value;
    var base := profile.baseSalary;
    var records := MonthRows(attendance, user.value.userId, ym);
    var rate := HourlyRate(base);
    var presentDays, totalOvertimePay, totalBonus := AccumulateRecords(records, rate);
    OvertimePayIsRateTimesHours(records, rate);
    var dim := DaysInMonth(ym.year, ym.month);
    var calculated := CalculatedAmount(profile, dim, presentDays);
    var totalAdvances := MonthAdvances(advances, user.value.userId, ym);
    r := Ok(SalarySlip(user.value.userId, base, dim, presentDays, totalOvertimePay, totalBonus, totalAdvances,
                       calculated, calculated + totalOvertimePay + totalBonus - totalAdvances));
  }

  /** The record loop of the salary calculation. */
  method AccumulateRecords(records: seq<AttendanceRow>, hourlyRate: real)
    returns (presentDays: real, totalOvertimePay: real, totalBonus: real)
    ensures presentDays == PresentDays(records)
    ensures totalOvertimePay == RealSumBy(records, (x: AttendanceRow) => x.overtimeHours * hourlyRate)
    ensures totalBonus == RealSumBy(records, (x: AttendanceRow) => x.bonusAmount)
  {
    presentDays, totalOvertimePay, totalBonus := 0.0, 0.0, 0.0;
    var i := 0;
    while i < |records|
      invariant 0 <= i <= |records|
      invariant presentDays == PresentDays(records[..i])
      invariant totalOvertimePay == RealSumBy(records[..i], (x: AttendanceRow) => x.overtimeHours * hourlyRate)
      invariant totalBonus == RealSumBy(records[..i], (x: AttendanceRow) => x.bonusAmount)
    {
      var rec := records[i];
      assert records[..i + 1][..i] == records[..i];
      if rec.status == Present {
        presentDays := presentDays + 1.0;
      } else if rec.status == HalfDay {
        presentDays := presentDays + 0.5;
      }
      totalOvertimePay := totalOvertimePay + rec.overtimeHours * hourlyRate;
      totalBonus := totalBonus + rec.bonusAmount;
      i := i + 1;
    }
    assert records[..i] == records;
  }

  /** A monthly employee present on every day of the month earns exactly the base salary. */
  lemma FullMonthEarnsBase(p: Profile, ym: YearMonth)
    requires ym.Valid() && p.salaryType == Monthly
    ensures CalculatedAmount(p, DaysInMonth(ym.year, ym.month), DaysInMonth(ym.year, ym.month) as real) == p.baseSalary
  {
    var d := DaysInMonth(ym.year, ym.month) as real;
    assert p.baseSalary / d * d == p.baseSalary;
  }

  /** The slip PDF back-calculates the earned basic pay from the other figures. */
  function EarnedBasic(slip: SalarySlip): real
  {
    slip.finalPayable - slip.totalOvertimePay - slip.totalBonus + slip.totalAdvances
  }

  lemma EarnedBasicRecoversCalculated(userId: int, p: Profile, rs: seq<AttendanceRow>, adv: real, ym: YearMonth)
    requires ym.Valid()
    ensures EarnedBasic(ExpectedSlip(userId, p, rs, adv, ym)) == ExpectedSlip(userId, p, rs, adv, ym).calculatedAmount
  {
  }
}
