/**
 * Expenses: the backend listing, statistics, field-by-field update and the
 * posting of a recurring template (backend/app/routers/expense.py), and the
 * expense dialog's payload and category suggestions
 * (frontend/src/pages/Expenses.jsx).
 *
 * Backend dates are day numbers and amounts are paise (the column is
 * `Numeric(12, 2)`).
 */
module Expenses {
  import opened Common
  import opened Calendar

  datatype Expense = Expense(
    id: int, companyId: int, fyId: int,
    date: int, category: string, description: Option<string>, amount: int,
    paymentMethod: string, partyId: Option<int>, referenceNo: Option<string>,
    chequeNo: Option<string>, chequeDate: Option<int>, bankName: Option<string>, payeeName: Option<string>,
    isRecurring: bool, recurringFrequency: Option<string>, nextDueDate: Option<int>, status: Option<string>)

  // ---------------------------------------------------------------------
  // get_expenses
  // ---------------------------------------------------------------------

  /** The query parameters; `isRecurring` defaults to false. */
  datatype ListQuery = ListQuery(startDate: Option<int>, endDate: Option<int>, category: Option<string>, isRecurring: bool)

  const DefaultQuery: ListQuery := ListQuery(None, None, None, false)

  /** The filters of `get_expenses`; an empty category string filters nothing. */
  predicate Listed(e: Expense, companyId: int, fyId: int, q: ListQuery)
  {
    e.companyId == companyId && e.fyId == fyId && e.isRecurring == q.isRecurring
    && (q.startDate.Some? ==> e.date >= q.startDate.value)
    && (q.endDate.Some? ==> e.date <= q.endDate.value)
    && (q.category.Some? && q.category.value != "" ==> e.category == q.category.value)
  }

  function NewestFirst(e: Expense): int { -e.date }

  /** `get_expenses`: the matching rows, newest date first. */
  function ListExpenses(es: seq<Expense>, companyId: int, fyId: int, q: ListQuery): (r: seq<Expense>)
    ensures forall e :: e in r <==> e in es && Listed(e, companyId, fyId, q)
    ensures forall i, j :: 0 <= i < j < |r| ==> r[i].date >= r[j].date
    ensures multiset(r) == multiset(Filter(es, e => Listed(e, companyId, fyId, q)))
  {
    var kept := Filter(es, e => Listed(e, companyId, fyId, q));
    FilterKeeps(es, e => Listed(e, companyId, fyId, q));
    var r := SortByKey(kept, NewestFirst);
    SortedKeeps(kept, NewestFirst);
    r
  }

  /** Without parameters, the listing holds no recurring template. */
  lemma DefaultListingHasNoTemplates(es: seq<Expense>, companyId: int, fyId: int, e: Expense)
    requires e in ListExpenses(es, companyId, fyId, DefaultQuery)
    ensures !e.isRecurring
  {
  }

  // ---------------------------------------------------------------------
  // get_expense_stats
  // ---------------------------------------------------------------------

  /** A row the statistics take: the company's and year's, not a template. */
  predicate Counted(e: Expense, companyId: int, fyId: int)
  {
    e.companyId == companyId && e.fyId == fyId && !e.isRecurring
  }

  datatype Stats = Stats(totalAmount: int, count: nat, thisMonthAmount: int)

  /**
   * `get_expense_stats`: the sum and count of the counted rows and the sum of
   * those dated from `startOfMonth`; SQL's NULL for no rows reads as 0.
   */
  function ExpenseStats(es: seq<Expense>, companyId: int, fyId: int, startOfMonth: int): (s: Stats)
    ensures (forall e :: e in es ==> !Counted(e, companyId, fyId)) ==> s == Stats(0, 0, 0)
    ensures s.count <= |es|
  {
    if es == [] then Stats(0, 0, 0)
    else
      var prev := ExpenseStats(es[..|es| - 1], companyId, fyId, startOfMonth);
      var e := es[|es| - 1];
      assert forall x :: x in es[..|es| - 1] ==> x in es;
      if !Counted(e, companyId, fyId) then prev
      else Stats(prev.totalAmount + e.amount, prev.count + 1,
                 prev.thisMonthAmount + (if e.date >= startOfMonth then e.amount else 0))
  }

  /**
   * The three figures are the two queries' results: the count and the sum of
   * the counted rows, and the sum of those dated from the first of the month.
   */
  lemma {:induction false} StatsAreQuerySums(es: seq<Expense>, companyId: int, fyId: int, startOfMonth: int)
    ensures var s := ExpenseStats(es, companyId, fyId, startOfMonth);
            s.count == |CountedRows(es, companyId, fyId)|
            && s.totalAmount == SumBy(CountedRows(es, companyId, fyId), Amount)
            && s.thisMonthAmount == SumBy(MonthRows(es, companyId, fyId, startOfMonth), Amount)
  {
    if es != [] {
      StatsAreQuerySums(es[..|es| - 1], companyId, fyId, startOfMonth);
      QueryRowsStep(es, companyId, fyId, startOfMonth);
    }
  }

  function Amount(e: Expense): int { e.amount }

  /** The rows the total and count query selects. */
  function CountedRows(es: seq<Expense>, companyId: int, fyId: int): seq<Expense>
  {
    Filter(es, (e: Expense) => Counted(e, companyId, fyId))
  }

  /** The rows the this-month query selects: counted, and dated on or after the first of the month. */
  function MonthRows(es: seq<Expense>, companyId: int, fyId: int, startOfMonth: int): seq<Expense>
  {
    Filter(es, (e: Expense) => Counted(e, companyId, fyId) && e.date >= startOfMonth)
  }

  lemma QueryRowsStep(es: seq<Expense>, companyId: int, fyId: int, startOfMonth: int)
    requires es != []
    ensures var init, e := es[..|es| - 1], es[|es| - 1];
            var counted := Counted(e, companyId, fyId);
            var month := counted && e.date >= startOfMonth;
            |CountedRows(es, companyId, fyId)| == |CountedRows(init, companyId, fyId)| + (if counted then 1 else 0)
            && SumBy(CountedRows(es, companyId, fyId), Amount)
               == SumBy(CountedRows(init, companyId, fyId), Amount) + (if counted then e.amount else 0)
            && SumBy(MonthRows(es, companyId, fyId, startOfMonth), Amount)
               == SumBy(MonthRows(init, companyId, fyId, startOfMonth), Amount) + (if month then e.amount else 0)
  {
    var init, e := es[..|es| - 1], es[|es| - 1];
    var counted := Counted(e, companyId, fyId);
    var month := counted && e.date >= startOfMonth;
    assert CountedRows(es, companyId, fyId) == CountedRows(init, companyId, fyId) + (if counted then [e] else []);
    assert MonthRows(es, companyId, fyId, startOfMonth)
           == MonthRows(init, companyId, fyId, startOfMonth) + (if month then [e] else []);
    SumByAppend(CountedRows(init, companyId, fyId), if counted then [e] else [], Amount);
    SumByAppend(MonthRows(init, companyId, fyId, startOfMonth), if month then [e] else [], Amount);
    assert [e][..0] == [];
  }

  /** Templates never enter the statistics. */
  lemma StatsIgnoreTemplates(es: seq<Expense>, t: Expense, companyId: int, fyId: int, startOfMonth: int)
    requires t.isRecurring
    ensures ExpenseStats(es + [t], companyId, fyId, startOfMonth) == ExpenseStats(es, companyId, fyId, startOfMonth)
  {
    assert (es + [t])[..|es + [t]| - 1] == es;
  }

  /** With non-negative amounts, this month's sum lies between 0 and the total. */
  lemma {:induction false} MonthWithinTotal(es: seq<Expense>, companyId: int, fyId: int, startOfMonth: int)
    requires forall e :: e in es ==> e.amount >= 0
    ensures 0 <= ExpenseStats(es, companyId, fyId, startOfMonth).thisMonthAmount <= ExpenseStats(es, companyId, fyId, startOfMonth).totalAmount
  {
    if es != [] {
      assert forall x :: x in es[..|es| - 1] ==> x in es;
      MonthWithinTotal(es[..|es| - 1], companyId, fyId, startOfMonth);
    }
  }

  // ---------------------------------------------------------------------
  // update_expense
  // ---------------------------------------------------------------------

  /**
   * One field the request set (`exclude_unset=True`), with its value. The date
   * is the only NOT NULL column the update schema lets a request send as null.
   */
  datatype Assignment =
    | SetDate(date: Option<int>) | SetCategory(category: string) | SetDescription(description: Option<string>)
    | SetAmount(amount: int) | SetPaymentMethod(paymentMethod: string) | SetPartyId(partyId: Option<int>)
    | SetReferenceNo(referenceNo: Option<string>) | SetChequeNo(chequeNo: Option<string>)
    | SetChequeDate(chequeDate: Option<int>) | SetBankName(bankName: Option<string>)
    | SetPayeeName(payeeName: Option<string>) | SetIsRecurring(isRecurring: bool)
    | SetRecurringFrequency(recurringFrequency: Option<string>) | SetNextDueDate(nextDueDate: Option<int>)
    | SetStatus(status: Option<string>)

  datatype Field =
    | DateField | CategoryField | DescriptionField | AmountField | PaymentMethodField | PartyIdField
    | ReferenceNoField | ChequeNoField | ChequeDateField | BankNameField | PayeeNameField
    | IsRecurringField | RecurringFrequencyField | NextDueDateField | StatusField

  function FieldOf(a: Assignment): Field
  {
    match a
    case SetDate(_) => DateField
    case SetCategory(_) => CategoryField
    case SetDescription(_) => DescriptionField
    case SetAmount(_) => AmountField
    case SetPaymentMethod(_) => PaymentMethodField
    case SetPartyId(_) => PartyIdField
    case SetReferenceNo(_) => ReferenceNoField
    case SetChequeNo(_) => ChequeNoField
    case SetChequeDate(_) => ChequeDateField
    case SetBankName(_) => BankNameField
    case SetPayeeName(_) => PayeeNameField
    case SetIsRecurring(_) => IsRecurringField
    case SetRecurringFrequency(_) => RecurringFrequencyField
    case SetNextDueDate(_) => NextDueDateField
    case SetStatus(_) => StatusField
  }

  /** The current value of a field, as the assignment that would set it. */
  function Current(e: Expense, f: Field): (a: Assignment)
    ensures FieldOf(a) == f
  {
    match f
    case DateField => SetDate(Some(e.date))
    case CategoryField => SetCategory(e.category)
    case DescriptionField => SetDescription(e.description)
    case AmountField => SetAmount(e.amount)
    case PaymentMethodField => SetPaymentMethod(e.paymentMethod)
    case PartyIdField => SetPartyId(e.partyId)
    case ReferenceNoField => SetReferenceNo(e.referenceNo)
    case ChequeNoField => SetChequeNo(e.chequeNo)
    case ChequeDateField => SetChequeDate(e.chequeDate)
    case BankNameField => SetBankName(e.bankName)
    case PayeeNameField => SetPayeeName(e.payeeName)
    case IsRecurringField => SetIsRecurring(e.isRecurring)
    case RecurringFrequencyField => SetRecurringFrequency(e.recurringFrequency)
    case NextDueDateField => SetNextDueDate(e.nextDueDate)
    case StatusField => SetStatus(e.status)
  }

  /** An assignment the table can store: not a null date. */
  predicate Storable(a: Assignment)
  {
    a != SetDate(None)
  }

  /** `setattr(expense, key, value)`: that field takes the value, every other field and the ids stay. */
  function Apply(e: Expense, a: Assignment): (r: Expense)
    requires Storable(a)
    ensures Current(r, FieldOf(a)) == a
    ensures forall f :: f != FieldOf(a) ==> Current(r, f) == Current(e, f)
    ensures r.id == e.id && r.companyId == e.companyId && r.fyId == e.fyId
  {
    match a
    case SetDate(v) => e.(date := v.value)
    case SetCategory(v) => e.(category := v)
    case SetDescription(v) => e.(description := v)
    case SetAmount(v) => e.(amount := v)
    case SetPaymentMethod(v) => e.(paymentMethod := v)
    case SetPartyId(v) => e.(partyId := v)
    case SetReferenceNo(v) => e.(referenceNo := v)
    case SetChequeNo(v) => e.(chequeNo := v)
    case SetChequeDate(v) => e.(chequeDate := v)
    case SetBankName(v) => e.(bankName := v)
    case SetPayeeName(v) => e.(payeeName := v)
    case SetIsRecurring(v) => e.(isRecurring := v)
    case SetRecurringFrequency(v) => e.(recurringFrequency := v)
    case SetNextDueDate(v) => e.(nextDueDate := v)
    case SetStatus(v) => e.(status := v)
  }

  /** The request's fields, each named once, as a dictionary has them. */
  predicate DistinctFields(sets: seq<Assignment>)
  {
    forall i, j :: 0 <= i < j < |sets| ==> FieldOf(sets[i]) != FieldOf(sets[j])
  }

  /** Whether the request set field `f`. */
  predicate Mentions(sets: seq<Assignment>, f: Field)
  {
    exists i :: 0 <= i < |sets| && FieldOf(sets[i]) == f
  }

  /**
   * After the fields set one by one: a field the request names has the value
   * it names; every other field, and the ids, are as before.
   */
  predicate UpdatedBy(e: Expense, sets: seq<Assignment>, r: Expense)
  {
    r.id == e.id && r.companyId == e.companyId && r.fyId == e.fyId
    && (forall i :: 0 <= i < |sets| ==> Current(r, FieldOf(sets[i])) == sets[i])
    && (forall f :: !Mentions(sets, f) ==> Current(r, f) == Current(e, f))
  }

  /** Two expenses with every field equal are the same row. */
  lemma SameFieldsSameExpense(a: Expense, b: Expense)
    requires a.id == b.id && a.companyId == b.companyId && a.fyId == b.fyId
    requires forall f :: Current(a, f) == Current(b, f)
    ensures a == b
  {
    assert Current(a, DateField) == Current(b, DateField);
    assert Current(a, CategoryField) == Current(b, CategoryField);
    assert Current(a, DescriptionField) == Current(b, DescriptionField);
    assert Current(a, AmountField) == Current(b, AmountField);
    assert Current(a, PaymentMethodField) == Current(b, PaymentMethodField);
    assert Current(a, PartyIdField) == Current(b, PartyIdField);
    assert Current(a, ReferenceNoField) == Current(b, ReferenceNoField);
    assert Current(a, ChequeNoField) == Current(b, ChequeNoField);
    assert Current(a, ChequeDateField) == Current(b, ChequeDateField);
    assert Current(a, BankNameField) == Current(b, BankNameField);
    assert Current(a, PayeeNameField) == Current(b, PayeeNameField);
    assert Current(a, IsRecurringField) == Current(b, IsRecurringField);
    assert Current(a, RecurringFrequencyField) == Current(b, RecurringFrequencyField);
    assert Current(a, NextDueDateField) == Current(b, NextDueDateField);
    assert Current(a, StatusField) == Current(b, StatusField);
  }

  /** An update that sends every field with the value it already has leaves the row as it was. */
  lemma ResendingValuesChangesNothing(e: Expense, sets: seq<Assignment>, r: Expense)
    requires UpdatedBy(e, sets, r)
    requires forall i :: 0 <= i < |sets| ==> sets[i] == Current(e, FieldOf(sets[i]))
    ensures r == e
  {
    forall f
      ensures Current(r, f) == Current(e, f)
    {
      if Mentions(sets, f) {
        var i :| 0 <= i < |sets| && FieldOf(sets[i]) == f;
        assert Current(r, f) == sets[i];
      }
    }
    SameFieldsSameExpense(r, e);
  }

  /** Sending the same update twice gives the row the first one gave. */
  lemma UpdateIdempotent(e: Expense, sets: seq<Assignment>, r: Expense, r2: Expense)
    requires UpdatedBy(e, sets, r) && UpdatedBy(r, sets, r2)
    ensures r2 == r
  {
    forall f
      ensures Current(r2, f) == Current(r, f)
    {
      if Mentions(sets, f) {
        var i :| 0 <= i < |sets| && FieldOf(sets[i]) == f;
        assert Current(r2, f) == sets[i] == Current(r, f);
      }
    }
    SameFieldsSameExpense(r2, r);
  }

  /** `ExpenseUpdate` inherits the required `category` and `amount`: a body without either is refused. */
  predicate CompleteBody(sets: seq<Assignment>)
  {
    Mentions(sets, CategoryField) && Mentions(sets, AmountField)
  }

  /** The request sends `"date": null`, which the NOT NULL date column refuses at commit. */
  predicate ClearsDate(sets: seq<Assignment>)
  {
    exists i :: 0 <= i < |sets| && !Storable(sets[i])
  }

  /** The `setattr` loop over the request's fields. */
  method SetFields(e: Expense, sets: seq<Assignment>) returns (r: Expense)
    requires DistinctFields(sets) && !ClearsDate(sets)
    ensures UpdatedBy(e, sets, r)
  {
    r := e;
    for k := 0 to |sets|
      invariant r.id == e.id && r.companyId == e.companyId && r.fyId == e.fyId
      invariant forall i :: 0 <= i < k ==> Current(r, FieldOf(sets[i])) == sets[i]
      invariant forall f :: (forall i :: 0 <= i < k ==> FieldOf(sets[i]) != f) ==> Current(r, f) == Current(e, f)
    {
      r := Apply(r, sets[k]);
    }
  }

  // ---------------------------------------------------------------------
  // The expense table
  // ---------------------------------------------------------------------

  predicate IdsUnique(es: seq<Expense>)
  {
    forall i, j :: 0 <= i < j < |es| ==> es[i].id != es[j].id
  }

  predicate IdsBelow(es: seq<Expense>, next: int)
  {
    forall i :: 0 <= i < |es| ==> es[i].id < next
  }

  /** The position of expense `id` of company `c` with the wanted recurring flag, when any. */
  function Find(es: seq<Expense>, id: int, c: int, recurringOnly: bool): (r: Option<nat>)
    ensures r.None? <==> forall i :: 0 <= i < |es| ==> !(es[i].id == id && es[i].companyId == c && (recurringOnly ==> es[i].isRecurring))
    ensures r.Some? ==> r.value < |es| && es[r.value].id == id && es[r.value].companyId == c
    ensures r.Some? && recurringOnly ==> es[r.value].isRecurring
  {
    if es == [] then None
    else if es[0].id == id && es[0].companyId == c && (recurringOnly ==> es[0].isRecurring) then Some(0)
    else match Find(es[1..], id, c, recurringOnly)
      case None => None
      case Some(k) => Some(k + 1)
  }

  const MonthlyStep: int := 30

  /** The real expense a template posts on day `today`. */
  function Posted(t: Expense, id: int, today: int): (e: Expense)
    ensures e.id == id && e.companyId == t.companyId && e.fyId == t.fyId
    ensures e.partyId == t.partyId && e.category == t.category && e.amount == t.amount && e.paymentMethod == t.paymentMethod
    ensures !e.isRecurring && e.status == Some("PAID") && e.date == today
  {
    var what := if t.description.Some? && t.description.value != "" then t.description.value else t.category;
    Expense(id, t.companyId, t.fyId, today, t.category, Some("Recurring: " + what), t.amount,
            t.paymentMethod, t.partyId, None, None, None, None, None, false, None, None, Some("PAID"))
  }

  /** The template after posting: a Monthly one with a due date moves 30 days on. */
  function Advanced(t: Expense): (r: Expense)
    ensures t.recurringFrequency == Some("Monthly") && t.nextDueDate.Some? ==> r.nextDueDate == Some(t.nextDueDate.value + MonthlyStep)
    ensures !(t.recurringFrequency == Some("Monthly") && t.nextDueDate.Some?) ==> r == t
    ensures forall f :: f != NextDueDateField ==> Current(r, f) == Current(t, f)
    ensures r.id == t.id && r.companyId == t.companyId && r.fyId == t.fyId
  {
    if t.recurringFrequency == Some("Monthly") && t.nextDueDate.Some? then
      Apply(t, SetNextDueDate(Some(t.nextDueDate.value + MonthlyStep)))
    else t
  }

  class ExpenseBook {
    var expenses: seq<Expense>
    var nextId: int

    ghost predicate Valid()
      reads this
    {
      IdsUnique(expenses) && IdsBelow(expenses, nextId)
    }

    constructor()
      ensures Valid() && expenses == []
    {
      expenses := [];
      nextId := 1;
    }

    /**
     * `create_expense`: an amount that is not positive is refused with 422 and
     * nothing is stored; otherwise the request's fields under the caller's
     * company and active year, with a fresh id.
     */
    method Create(companyId: int, fyId: int, data: Expense) returns (r: Result<Expense>)
      requires Valid()
      modifies this
      ensures Valid()
      ensures r.Err? <==> data.amount <= 0
      ensures r.Err? ==> r.status == 422 && expenses == old(expenses) && nextId == old(nextId)
      ensures r.Ok? ==>
        && r.value == data.(id := old(nextId), companyId := companyId, fyId := fyId)
        && expenses == old(expenses) + [r.value] && nextId == old(nextId) + 1
    {
      if data.amount <= 0 {
        return Err(422, "Amount must be positive");
      }
      var e := data.(id := nextId, companyId := companyId, fyId := fyId);
      expenses := expenses + [e];
      nextId := nextId + 1;
      r := Ok(e);
    }

    /** `delete_expense`: 404 unless the company owns the row, else only that row goes. */
    method Delete(id: int, companyId: int) returns (r: Result<string>)
      requires Valid()
      modifies this
      ensures Valid() && nextId == old(nextId)
      ensures Find(old(expenses), id, companyId, false).None? <==> r.Err?
      ensures r.Err? ==> r == Err(404, "Expense not found") && expenses == old(expenses)
      ensures r.Ok? ==> var k := Find(old(expenses), id, companyId, false).value;
        expenses == old(expenses)[..k] + old(expenses)[k + 1..]
    {
      var found := Find(expenses, id, companyId, false);
      if found.None? {
        return Err(404, "Expense not found");
      }
      var k := found.value;
      RemoveKeepsIds(expenses, nextId, k);
      expenses := expenses[..k] + expenses[k + 1..];
      r := Ok("Expense deleted successfully");
    }

    /**
     * `update_expense`: 422 for a body without category or amount (checked
     * before the handler runs), then 404 unless the company owns the row, then
     * 500 for a null date; else the fields the request set.
     */
    method Update(id: int, companyId: int, sets: seq<Assignment>) returns (r: Result<Expense>)
      requires Valid() && DistinctFields(sets)
      modifies this
      ensures Valid() && nextId == old(nextId)
      ensures r.Err? ==> expenses == old(expenses)
      ensures !CompleteBody(sets) ==> r.Err? && r.status == 422
      ensures CompleteBody(sets) && Find(old(expenses), id, companyId, false).None? ==> r == Err(404, "Expense not found")
      ensures CompleteBody(sets) && Find(old(expenses), id, companyId, false).Some? && ClearsDate(sets) ==>
        r.Err? && r.status == 500
      ensures r.Ok? <==> CompleteBody(sets) && Find(old(expenses), id, companyId, false).Some? && !ClearsDate(sets)
      ensures r.Ok? ==> var k := Find(old(expenses), id, companyId, false).value;
        UpdatedBy(old(expenses)[k], sets, r.value) && expenses == old(expenses)[k := r.value]
    {
      if !CompleteBody(sets) {
        return Err(422, "field required");
      }
      var found := Find(expenses, id, companyId, false);
      if found.None? {
        return Err(404, "Expense not found");
      }
      if ClearsDate(sets) {
        return Err(500, "Internal Server Error");
      }
      var k := found.value;
      var e := SetFields(expenses[k], sets);
      expenses := expenses[k := e];
      r := Ok(e);
    }

    /**
     * `post_recurring_expense`: 404 unless the company owns a recurring
     * template with that id; else a real expense is added for today and a
     * Monthly template's due date moves on.
     */
    method PostRecurring(templateId: int, companyId: int, today: int) returns (r: Result<int>)
      requires Valid()
      modifies this
      ensures Valid()
      ensures Find(old(expenses), templateId, companyId, true).None? <==> r.Err?
      ensures r.Err? ==> r == Err(404, "Recurring template not found") && expenses == old(expenses) && nextId == old(nextId)
      ensures r.Ok? ==> var k := Find(old(expenses), templateId, companyId, true).value;
        r.value == old(nextId) && nextId == old(nextId) + 1
        && expenses == old(expenses)[k := Advanced(old(expenses)[k])] + [Posted(old(expenses)[k], r.value, today)]
    {
      var found := Find(expenses, templateId, companyId, true);
      if found.None? {
        return Err(404, "Recurring template not found");
      }
      var k := found.value;
      var t := expenses[k];
      var posted := Posted(t, nextId, today);
      expenses := expenses[k := Advanced(t)] + [posted];
      r := Ok(nextId);
      nextId := nextId + 1;
    }
  }

  lemma RemoveKeepsIds(es: seq<Expense>, next: int, k: int)
    requires 0 <= k < |es| && IdsUnique(es) && IdsBelow(es, next)
    ensures IdsUnique(es[..k] + es[k + 1..]) && IdsBelow(es[..k] + es[k + 1..], next)
  {
    var r := es[..k] + es[k + 1..];
    assert forall i :: 0 <= i < |r| ==> r[i] == es[if i < k then i else i + 1];
  }

  /** A created expense of the active year that is not a template counts once more in the statistics. */
  lemma CreateAddsToStats(es: seq<Expense>, e: Expense, startOfMonth: int)
    requires !e.isRecurring
    ensures var before := ExpenseStats(es, e.companyId, e.fyId, startOfMonth);
      var after := ExpenseStats(es + [e], e.companyId, e.fyId, startOfMonth);
      after.count == before.count + 1 && after.totalAmount == before.totalAmount + e.amount
      && after.thisMonthAmount == before.thisMonthAmount + (if e.date >= startOfMonth then e.amount else 0)
  {
    assert (es + [e])[..|es|] == es;
  }

  /** Advancing a template leaves the statistics as they were. */
  lemma {:induction false} StatsIgnoreAdvance(es: seq<Expense>, k: int, companyId: int, fyId: int, startOfMonth: int)
    requires 0 <= k < |es| && es[k].isRecurring
    ensures ExpenseStats(es[k := Advanced(es[k])], companyId, fyId, startOfMonth) == ExpenseStats(es, companyId, fyId, startOfMonth)
  {
    var es' := es[k := Advanced(es[k])];
    assert Current(Advanced(es[k]), IsRecurringField) == Current(es[k], IsRecurringField);
    if k < |es| - 1 {
      assert es'[..|es'| - 1] == es[..|es| - 1][k := Advanced(es[k])];
      StatsIgnoreAdvance(es[..|es| - 1], k, companyId, fyId, startOfMonth);
    } else {
      assert es'[..|es'| - 1] == es[..|es| - 1];
    }
  }

  /**
   * Posting a template of the year counts one more expense and adds its
   * amount to the total, and to this month's sum when today is in the month.
   */
  lemma PostAddsOneToStats(es: seq<Expense>, k: int, id: int, today: int, startOfMonth: int)
    requires 0 <= k < |es| && es[k].isRecurring
    ensures var before := ExpenseStats(es, es[k].companyId, es[k].fyId, startOfMonth);
      var after := ExpenseStats(es[k := Advanced(es[k])] + [Posted(es[k], id, today)], es[k].companyId, es[k].fyId, startOfMonth);
      after.count == before.count + 1 && after.totalAmount == before.totalAmount + es[k].amount
      && after.thisMonthAmount == before.thisMonthAmount + (if today >= startOfMonth then es[k].amount else 0)
  {
    var es' := es[k := Advanced(es[k])];
    var all := es' + [Posted(es[k], id, today)];
    assert all[..|all| - 1] == es';
    StatsIgnoreAdvance(es, k, es[k].companyId, es[k].fyId, startOfMonth);
  }

  // ---------------------------------------------------------------------
  // AddExpenseModal.handleSubmit
  // ---------------------------------------------------------------------

  /**
   * The dialog's fields. `amount` is the number `Number(...)` reads from the
   * amount box; `partyId` is None for the empty choice; `nextDueDate` is only
   * there when an existing template is edited.
   */
  datatype ExpenseForm = ExpenseForm(
    date: Date, category: string, description: string, amount: real,
    paymentMethod: string, partyId: Option<int>, isRecurring: bool, recurringFrequency: string,
    chequeNo: string, chequeDate: string, payeeName: string, bankName: string, nextDueDate: Option<Date>)

  /** What is sent; None is `undefined`. */
  datatype Payload = Payload(
    date: Date, category: string, description: string, amount: real,
    paymentMethod: string, partyId: Option<int>, isRecurring: bool, recurringFrequency: Option<string>,
    chequeNo: Option<string>, chequeDate: Option<string>, payeeName: Option<string>, bankName: Option<string>,
    nextDueDate: Option<Date>)

  /** A cheque detail kept only for a cheque payment and only when filled. */
  predicate ChequeDetail(payment: string, value: string, sent: Option<string>)
  {
    (sent.Some? <==> payment == "Cheque" && value != "") && (sent.Some? ==> sent.value == value)
  }

  /**
   * `d.setMonth(d.getMonth() + 1)`: the same day of the next month, running
   * over into the month after when the next month is shorter.
   */
  function AddOneMonth(d: Date): (r: Date)
    requires d.Valid()
    ensures r.Valid()
    ensures var n := NextMonth(YearMonth(d.year, d.month));
      (YearMonth(r.year, r.month) == n && r.day == d.day)
      || (YearMonth(r.year, r.month) == NextMonth(n) && 1 <= r.day <= 3 && d.day > DaysInMonth(n.year, n.month))
    ensures d.day <= 28 ==> r.day == d.day
  {
    var n := NextMonth(YearMonth(d.year, d.month));
    if d.day <= DaysInMonth(n.year, n.month) then Date(n.year, n.month, d.day)
    else
      var m := NextMonth(n);
      Date(m.year, m.month, d.day - DaysInMonth(n.year, n.month))
  }

  /** The 31st of January runs over into March. */
  lemma EndOfJanuaryDueInMarch()
    ensures AddOneMonth(Date(2025, 1, 31)) == Date(2025, 3, 3)
  {
    assert !IsLeapYear(2025);
  }

  /** The payload sanitising of `handleSubmit`: spread, override, then patch. */
  method BuildPayload(form: ExpenseForm) returns (p: Payload)
    requires form.date.Valid()
    ensures p.amount == form.amount && p.partyId == form.partyId
    ensures p.date == form.date && p.category == form.category && p.isRecurring == form.isRecurring
    ensures p.description == form.description && p.paymentMethod == form.paymentMethod
    ensures ChequeDetail(form.paymentMethod, form.chequeNo, p.chequeNo)
    ensures ChequeDetail(form.paymentMethod, form.chequeDate, p.chequeDate)
    ensures ChequeDetail(form.paymentMethod, form.bankName, p.bankName)
    ensures ChequeDetail(form.paymentMethod, form.payeeName, p.payeeName)
    ensures p.recurringFrequency == if form.isRecurring then Some(form.recurringFrequency) else None
    ensures form.isRecurring && form.nextDueDate.None? ==> p.nextDueDate == Some(AddOneMonth(form.date))
    ensures !(form.isRecurring && form.nextDueDate.None?) ==> p.nextDueDate == form.nextDueDate
  {
    var cheque := form.paymentMethod == "Cheque";
    p := Payload(form.date, form.category, form.description, form.amount, form.paymentMethod, form.partyId,
                 form.isRecurring,
                 if form.isRecurring then Some(form.recurringFrequency) else None,
                 if cheque then Some(form.chequeNo) else None,
                 if cheque && form.chequeDate != "" then Some(form.chequeDate) else None,
                 if cheque then Some(form.payeeName) else None,
                 if cheque then Some(form.bankName) else None,
                 form.nextDueDate);
    if p.chequeNo.None? || p.chequeNo.value == "" {
      p := p.(chequeNo := None);
    }
    if p.bankName.None? || p.bankName.value == "" {
      p := p.(bankName := None);
    }
    if p.payeeName.None? || p.payeeName.value == "" {
      p := p.(payeeName := None);
    }
    if p.isRecurring && p.nextDueDate.None? {
      p := p.(nextDueDate := Some(AddOneMonth(p.date)));
    }
  }

  // ---------------------------------------------------------------------
  // Category suggestions
  // ---------------------------------------------------------------------

  const DefaultCategories: seq<string> := ["Rent", "Salary", "Electricity", "Travel", "Office Supplies"]

  /**
   * `Array.prototype.sort` on strings, compared character by character by
   * code point; JavaScript compares UTF-16 code units, which orders the same
   * except an astral character against one from U+E000 to U+FFFF.
   */
  function LexLe(a: string, b: string): bool
  {
    if a == [] then true
    else if b == [] then false
    else if a[0] != b[0] then a[0] < b[0]
    else LexLe(a[1..], b[1..])
  }

  lemma {:induction false} LexTotal(a: string, b: string)
    ensures LexLe(a, b) || LexLe(b, a)
  {
    if a != [] && b != [] && a[0] == b[0] {
      LexTotal(a[1..], b[1..]);
    }
  }

  lemma {:induction false} LexTransitive(a: string, b: string, c: string)
    requires LexLe(a, b) && LexLe(b, c)
    ensures LexLe(a, c)
  {
    if a != [] && b != [] && c != [] && a[0] == b[0] && b[0] == c[0] {
      LexTransitive(a[1..], b[1..], c[1..]);
    }
  }

  predicate SortedStrings(s: seq<string>)
  {
    forall i, j :: 0 <= i < j < |s| ==> LexLe(s[i], s[j])
  }

  function InsertString(x: string, s: seq<string>): (r: seq<string>)
    requires SortedStrings(s)
    ensures SortedStrings(r)
    ensures multiset(r) == multiset(s) + multiset{x}
    ensures forall y :: y in r <==> y in s || y == x
  {
    if s == [] then [x]
    else if LexLe(x, s[0]) then
      assert forall j :: 0 <= j < |s| ==> LexLe(x, s[j]) by {
        forall j | 0 <= j < |s| ensures LexLe(x, s[j]) {
          if j > 0 { LexTransitive(x, s[0], s[j]); }
        }
      }
      [x] + s
    else
      var rest := InsertString(x, s[1..]);
      LexTotal(x, s[0]);
      assert forall y :: y in rest ==> LexLe(s[0], y) by {
        forall y | y in rest ensures LexLe(s[0], y) {
          if y != x {
            var j :| 0 <= j < |s[1..]| && s[1..][j] == y;
            assert s[j + 1] == y;
          }
        }
      }
      assert s == [s[0]] + s[1..];
      [s[0]] + rest
  }

  lemma {:induction false} InsertKeepsDistinct(x: string, s: seq<string>)
    requires SortedStrings(s) && NoDuplicates(s) && x !in s
    ensures NoDuplicates(InsertString(x, s))
  {
    if s != [] && !LexLe(x, s[0]) {
      assert s == [s[0]] + s[1..];
      InsertKeepsDistinct(x, s[1..]);
      var rest := InsertString(x, s[1..]);
      assert InsertString(x, s) == [s[0]] + rest;
      assert s[0] !in rest;
    }
  }

  function SortStrings(s: seq<string>): (r: seq<string>)
    ensures SortedStrings(r)
    ensures multiset(r) == multiset(s)
    ensures forall y :: y in r <==> y in s
    ensures NoDuplicates(s) ==> NoDuplicates(r)
  {
    if s == [] then []
    else
      assert s == [s[0]] + s[1..];
      assert NoDuplicates(s) ==> NoDuplicates(InsertString(s[0], SortStrings(s[1..]))) by {
        if NoDuplicates(s) {
          assert s[0] !in s[1..] && NoDuplicates(s[1..]);
          InsertKeepsDistinct(s[0], SortStrings(s[1..]));
        }
      }
      InsertString(s[0], SortStrings(s[1..]))
  }

  /** The categories whose lower case contains the typed text's lower case. */
  function Matching(cats: seq<string>, typed: string): (r: seq<string>)
    ensures forall c :: c in r <==> c in cats && ContainsIgnoringCase(c, typed)
    ensures NoDuplicates(cats) ==> NoDuplicates(r)
  {
    if cats == [] then []
    else
      var rest := Matching(cats[1..], typed);
      assert forall c :: c in cats <==> c == cats[0] || c in cats[1..];
      assert NoDuplicates(cats) ==> NoDuplicates(cats[1..]) && cats[0] !in cats[1..];
      if ContainsIgnoringCase(cats[0], typed) then [cats[0]] + rest else rest
  }

  /** The suggestion list: defaults and existing categories, once each, matching, in order. */
  function Suggestions(existing: seq<string>, typed: string): (r: seq<string>)
    ensures forall c :: c in r <==> (c in DefaultCategories || c in existing) && ContainsIgnoringCase(c, typed)
    ensures NoDuplicates(r) && SortedStrings(r)
  {
    var all := Distinct(DefaultCategories + existing);
    SortStrings(Matching(all, typed))
  }

  /** The "Create new" hint: typed text that no known category equals, ignoring case. */
  predicate CreateHint(existing: seq<string>, typed: string)
  {
    typed != "" && !exists c :: c in Distinct(DefaultCategories + existing) && Lower(c) == Lower(typed)
  }

  lemma ContainsItself(s: string)
    ensures Contains(s, s)
  {
  }

  /** The hint shows exactly when the text is non-empty and no suggestion equals it ignoring case. */
  lemma CreateHintIff(existing: seq<string>, typed: string)
    ensures CreateHint(existing, typed) <==>
      typed != "" && forall c :: c in Suggestions(existing, typed) ==> Lower(c) != Lower(typed)
  {
    forall c | c in Distinct(DefaultCategories + existing) && Lower(c) == Lower(typed)
      ensures c in Suggestions(existing, typed)
    {
      ContainsItself(Lower(c));
    }
  }
}
