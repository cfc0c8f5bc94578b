/**
 * A company's weekly off days (backend/app/routers/company_settings.py,
 * `update_off_days`): day indexes 0 (Monday) to 6 (Sunday), checked one by
 * one before the list is stored.
 */
module CompanySettings {
  import opened Common

  predicate IsDayIndex(d: int) { 0 <= d <= 6 }

  predicate AllDayIndexes(days: seq<int>)
  {
    forall i :: 0 <= i < |days| ==> IsDayIndex(days[i])
  }

  /** The stored off days of every company, by company id. */
  class CompanyOffDays {
    var offDays: map<int, seq<int>>

    /** Every stored list holds only day indexes. */
    ghost predicate Valid()
      reads this
    {
      forall c :: c in offDays ==> AllDayIndexes(offDays[c])
    }

    constructor(companies: set<int>)
      ensures offDays == map c | c in companies :: []
      ensures Valid()
    {
      offDays := map c | c in companies :: [];
    }

    /**
     * `update_off_days`: 404 for an unknown company, 400 at the first day
     * outside 0..6, otherwise the list is stored exactly as sent.
     */
    method UpdateOffDays(companyId: int, days: seq<int>) returns (r: Result<seq<int>>)
      modifies this
      ensures companyId !in old(offDays) ==> r == Err(404, "Company not found")
      ensures companyId in old(offDays) ==> (r.Ok? <==> AllDayIndexes(days))
      ensures r.Err? ==> offDays == old(offDays)
      ensures r.Err? && companyId in old(offDays) ==> r.status == 400
      ensures r.Ok? ==> r.value == days && offDays == old(offDays)[companyId := days]
      ensures old(Valid()) ==> Valid()
    {
      if companyId !in offDays {
        return Err(404, "Company not found");
      }
      for i := 0 to |days|
        invariant forall j :: 0 <= j < i ==> IsDayIndex(days[j])
      {
        if days[i] < 0 || days[i] > 6 {
          return Err(400, "Invalid day index. Must be 0 (Mon) to 6 (Sun).");
        }
      }
      offDays := offDays[companyId := days];
      r := Ok(days);
    }
  }

  /** A list with a day outside 0..6 is refused wherever it sits. */
  method OutOfRangeDayRefused(store: CompanyOffDays, companyId: int, days: seq<int>, k: int) returns (r: Result<seq<int>>)
    requires companyId in store.offDays && 0 <= k < |days| && !IsDayIndex(days[k])
    modifies store
    ensures r.Err? && r.status == 400
    ensures store.offDays == old(store.offDays)
  {
    r := store.UpdateOffDays(companyId, days);
  }
}
