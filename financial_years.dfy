/**
 * Financial years of a company (backend/app/services/financial_year_service.py)
 * and the dialog that adds, selects and deletes them
 * (frontend/src/components/AddFinancialYearModal.jsx).
 *
 * A company works in one active year at a time; a locked year is closed for
 * good and can neither be activated nor deleted. Dates are day numbers.
 */
module FinancialYears {
  import opened Common

  datatype Year = Year(id: int, companyId: int, startDate: int, endDate: int, isActive: bool, isLocked: bool)

  /** At most one active year per company. */
  predicate AtMostOneActive(ys: seq<Year>)
  {
    forall i, j :: 0 <= i < j < |ys| && ys[i].isActive && ys[j].isActive ==> ys[i].companyId != ys[j].companyId
  }

  /** No year is both active and locked. */
  predicate NeverActiveAndLocked(ys: seq<Year>)
  {
    forall i :: 0 <= i < |ys| ==> !(ys[i].isActive && ys[i].isLocked)
  }

  predicate IdsBelow(ys: seq<Year>, next: int)
  {
    forall i :: 0 <= i < |ys| ==> ys[i].id < next
  }

  predicate IdsUnique(ys: seq<Year>)
  {
    forall i, j :: 0 <= i < j < |ys| ==> ys[i].id != ys[j].id
  }

  /** The bulk update that clears `is_active` on every year of company `c`. */
  function Deactivated(ys: seq<Year>, c: int): (r: seq<Year>)
    ensures |r| == |ys|
    ensures forall i :: 0 <= i < |ys| ==> r[i] == if ys[i].companyId == c then ys[i].(isActive := false) else ys[i]
  {
    seq(|ys|, i requires 0 <= i < |ys| => if ys[i].companyId == c then ys[i].(isActive := false) else ys[i])
  }

  /** The position of year `id` of company `c`, when there is one. */
  function FindYear(ys: seq<Year>, c: int, id: int): (r: Option<nat>)
    ensures r.None? <==> forall i :: 0 <= i < |ys| ==> !(ys[i].id == id && ys[i].companyId == c)
    ensures r.Some? ==> r.value < |ys| && ys[r.value].id == id && ys[r.value].companyId == c
  {
    if ys == [] then None
    else if ys[0].id == id && ys[0].companyId == c then Some(0)
    else match FindYear(ys[1..], c, id)
      case None => None
      case Some(k) => Some(k + 1)
  }

  /** `get_active_financial_year`: the first active year of company `c`, 404 when there is none. */
  function ActiveYear(ys: seq<Year>, c: int): (r: Result<Year>)
    ensures r.Err? <==> forall i :: 0 <= i < |ys| ==> !(ys[i].companyId == c && ys[i].isActive)
    ensures r.Err? ==> r.status == 404
    ensures r.Ok? ==> r.value in ys && r.value.companyId == c && r.value.isActive
  {
    if ys == [] then Err(404, "No active financial year found")
    else if ys[0].companyId == c && ys[0].isActive then Ok(ys[0])
    else ActiveYear(ys[1..], c)
  }

  /** With at most one active year per company, the active year found is the only one. */
  lemma ActiveYearIsTheOnlyOne(ys: seq<Year>, c: int, k: int)
    requires AtMostOneActive(ys) && 0 <= k < |ys| && ys[k].companyId == c && ys[k].isActive
    ensures ActiveYear(ys, c) == Ok(ys[k])
  {
    var r := ActiveYear(ys, c);
    var j :| 0 <= j < |ys| && ys[j] == r.value;
    assert !(j < k) && !(k < j);
  }

  class FinancialYearBook {
    var years: seq<Year>
    var nextId: int

    ghost predicate Valid()
      reads this
    {
      IdsUnique(years) && IdsBelow(years, nextId) && AtMostOneActive(years) && NeverActiveAndLocked(years)
    }

    constructor()
      ensures Valid() && years == []
    {
      years := [];
      nextId := 1;
    }

    /** `create_financial_year`: the new year becomes the company's only active year. */
    method Create(companyId: int, startDate: int, endDate: int) returns (fy: Year)
      requires Valid()
      modifies this
      ensures Valid()
      ensures fy == Year(old(nextId), companyId, startDate, endDate, true, false)
      ensures years == Deactivated(old(years), companyId) + [fy]
      ensures ActiveYear(years, companyId) == Ok(fy)
    {
      fy := Year(nextId, companyId, startDate, endDate, true, false);
      years := Deactivated(years, companyId) + [fy];
      nextId := nextId + 1;
      ActiveYearIsTheOnlyOne(years, companyId, |years| - 1);
    }

    /** `get_active_financial_year`. */
    function GetActive(companyId: int): (r: Result<Year>)
      reads this
      ensures r.Err? <==> forall i :: 0 <= i < |years| ==> !(years[i].companyId == companyId && years[i].isActive)
    {
      ActiveYear(years, companyId)
    }

    /** `get_all_financial_years`. */
    function ListAll(companyId: int): (r: seq<Year>)
      reads this
      ensures forall y :: y in r <==> y in years && y.companyId == companyId
      ensures forall i, j :: 0 <= i < j < |r| ==> r[i].startDate >= r[j].startDate
    {
      YearsByStart(years, companyId)
    }

    /** `activate_financial_year`: 404 when missing, 400 when locked, else it becomes the only active year. */
    method Activate(companyId: int, id: int) returns (r: Result<Year>)
      requires Valid()
      modifies this
      ensures Valid()
      ensures r.Err? <==> FindYear(old(years), companyId, id).None? || old(years)[FindYear(old(years), companyId, id).value].isLocked
      ensures FindYear(old(years), companyId, id).None? ==> r == Err(404, "Financial year not found") && years == old(years)
      ensures r.Err? && r.status == 400 ==> years == old(years)
      ensures r.Ok? ==> var k := FindYear(old(years), companyId, id).value;
        years == Deactivated(old(years), companyId)[k := old(years)[k].(isActive := true)]
        && r.value == years[k] && ActiveYear(years, companyId) == Ok(r.value)
      ensures nextId == old(nextId)
    {
      var found := FindYear(years, companyId, id);
      if found.None? {
        return Err(404, "Financial year not found");
      }
      var k := found.value;
      if years[k].isLocked {
        return Err(400, "Financial year is locked");
      }
      years := Deactivated(years, companyId)[k := years[k].(isActive := true)];
      ActiveYearIsTheOnlyOne(years, companyId, k);
      r := Ok(years[k]);
    }

    /** `lock_financial_year`: 404 when missing, 400 when already locked, else locked and inactive. */
    method Lock(companyId: int, id: int) returns (r: Result<Year>)
      requires Valid()
      modifies this
      ensures Valid()
      ensures r.Err? <==> FindYear(old(years), companyId, id).None? || old(years)[FindYear(old(years), companyId, id).value].isLocked
      ensures FindYear(old(years), companyId, id).None? ==> r.Err? && r.status == 404
      ensures r.Err? ==> years == old(years)
      ensures r.Ok? ==> var k := FindYear(old(years), companyId, id).value;
        years == old(years)[k := old(years)[k].(isLocked := true, isActive := false)] && r.value == years[k]
      ensures nextId == old(nextId)
    {
      var found := FindYear(years, companyId, id);
      if found.None? {
        return Err(404, "Financial year not found");
      }
      var k := found.value;
      if years[k].isLocked {
        return Err(400, "Financial year already locked");
      }
      years := years[k := years[k].(isLocked := true, isActive := false)];
      r := Ok(years[k]);
    }

    /** `delete_financial_year`: 404 when missing, 400 when active or locked, else the row goes. */
    method Delete(companyId: int, id: int) returns (r: Result<string>)
      requires Valid()
      modifies this
      ensures Valid()
      ensures FindYear(old(years), companyId, id).None? ==> r.Err? && r.status == 404
      ensures FindYear(old(years), companyId, id).Some? ==>
        var y := old(years)[FindYear(old(years), companyId, id).value];
        (r.Err? <==> y.isActive || y.isLocked) && (r.Err? ==> r.status == 400)
      ensures r.Err? ==> years == old(years)
      ensures r.Ok? ==> var k := FindYear(old(years), companyId, id).value;
        years == old(years)[..k] + old(years)[k + 1..]
      ensures nextId == old(nextId)
    {
      var found := FindYear(years, companyId, id);
      if found.None? {
        return Err(404, "Financial year not found");
      }
      var k := found.value;
      if years[k].isActive {
        return Err(400, "Cannot delete active financial year");
      }
      if years[k].isLocked {
        return Err(400, "Cannot delete locked financial year");
      }
      RemoveKeepsValid(years, nextId, k);
      years := years[..k] + years[k + 1..];
      r := Ok("Financial year deleted");
    }
  }

  function NegatedStart(y: Year): int { -y.startDate }

  /** A company's years, the latest start first. */
  function YearsByStart(ys: seq<Year>, c: int): (r: seq<Year>)
    ensures forall y :: y in r <==> y in ys && y.companyId == c
    ensures forall i, j :: 0 <= i < j < |r| ==> r[i].startDate >= r[j].startDate
  {
    var mine := Filter(ys, (y: Year) => y.companyId == c);
    FilterKeeps(ys, (y: Year) => y.companyId == c);
    var r := SortByKey(mine, NegatedStart);
    SortedKeeps(mine, NegatedStart);
    assert forall i, j :: 0 <= i < j < |r| ==> NegatedStart(r[i]) <= NegatedStart(r[j]);
    r
  }

  lemma RemoveKeepsValid(ys: seq<Year>, next: int, k: int)
    requires 0 <= k < |ys|
    requires IdsUnique(ys) && IdsBelow(ys, next) && AtMostOneActive(ys) && NeverActiveAndLocked(ys)
    ensures var r := ys[..k] + ys[k + 1..];
      IdsUnique(r) && IdsBelow(r, next) && AtMostOneActive(r) && NeverActiveAndLocked(r)
  {
    var r := ys[..k] + ys[k + 1..];
    assert forall i :: 0 <= i < |r| ==> r[i] == ys[if i < k then i else i + 1];
  }

  // ---------------------------------------------------------------------
  // AddFinancialYearModal
  // ---------------------------------------------------------------------

  datatype SaveError = DatesRequired | EndNotAfterStart | AlreadyExists

  /** Some year already has exactly these dates. */
  predicate PairTaken(allYears: seq<Year>, startDate: int, endDate: int)
  {
    exists y :: y in allYears && y.startDate == startDate && y.endDate == endDate
  }

  /** `handleSave`: the checks that run before `onSave(startDate, endDate)`. */
  function SaveCheck(startDate: Option<int>, endDate: Option<int>, allYears: seq<Year>): (r: Result<(int, int)>)
    ensures r.Ok? <==> startDate.Some? && endDate.Some? && endDate.value > startDate.value && !PairTaken(allYears, startDate.value, endDate.value)
    ensures r.Ok? ==> r.value == (startDate.value, endDate.value)
  {
    if startDate.None? || endDate.None? then Err(0, "Start date and end date are required")
    else if endDate.value <= startDate.value then Err(0, "End date must be after start date")
    else if PairTaken(allYears, startDate.value, endDate.value) then
      Err(0, "This financial year already exists")
    else Ok((startDate.value, endDate.value))
  }

  /** Whether the row of `fy` is the active year the dialog was given. */
  predicate IsShownActive(fy: Year, activeFY: Option<Year>)
  {
    activeFY.Some? && activeFY.value.id == fy.id
  }

  /** The select button: only on inactive, unlocked years. */
  predicate SelectShown(fy: Year, activeFY: Option<Year>)
  {
    !IsShownActive(fy, activeFY) && !fy.isLocked
  }

  /** The delete button: on every unlocked year. */
  predicate DeleteShown(fy: Year)
  {
    !fy.isLocked
  }

  /** Selecting a year offered by the dialog passes the backend's checks. */
  lemma SelectShownActivates(ys: seq<Year>, k: int, activeFY: Option<Year>)
    requires IdsUnique(ys) && 0 <= k < |ys| && SelectShown(ys[k], activeFY)
    ensures FindYear(ys, ys[k].companyId, ys[k].id) == Some(k)
    ensures !ys[FindYear(ys, ys[k].companyId, ys[k].id).value].isLocked
  {
    var f := FindYear(ys, ys[k].companyId, ys[k].id);
    assert f.Some?;
  }

  /**
   * The delete button is also on the active year, which the backend refuses
   * with 400: the dialog offers it, and the request fails.
   */
  lemma DeleteShownOnActiveIsRefused(ys: seq<Year>, c: int, k: int)
    requires IdsUnique(ys) && NeverActiveAndLocked(ys) && AtMostOneActive(ys)
    requires 0 <= k < |ys| && ys[k].companyId == c && ys[k].isActive
    ensures DeleteShown(ys[k]) && IsShownActive(ys[k], Some(ActiveYear(ys, c).value))
    ensures FindYear(ys, c, ys[k].id) == Some(k)
  {
    ActiveYearIsTheOnlyOne(ys, c, k);
    var f := FindYear(ys, c, ys[k].id);
    assert f.Some?;
  }
}
