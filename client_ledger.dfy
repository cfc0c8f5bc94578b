/**
 * The client portal's account statement: the ledger endpoint (opening
 * balance, invoices and received payments merged by date, running balance),
 * the dashboard outstanding figure and financial-year names, and the
 * statement screen's period figures, CSV export and date presets.
 * Amounts are integer paise.
 */
module ClientLedger {
  import opened Common
  import opened Calendar

  datatype Invoice = Invoice(
    partyId: int, status: string, financialYearId: int, invoiceDate: Date,
    grandTotal: int, invoiceNumber: string)

  datatype Payment = Payment(
    partyId: int, paymentType: string, financialYearId: int, paymentDate: Date,
    amount: int, referenceNumber: Option<string>, paymentMode: string)

  /** The ledger request: the logged-in client's party and the optional filters. */
  datatype Query = Query(partyId: int, start: Option<Date>, end: Option<Date>, financialYearId: Option<int>)

  datatype EntryKind = InvoiceEntry | PaymentEntry

  datatype Entry = Entry(date: Date, kind: EntryKind, refNumber: string, description: string, debit: int, credit: int)

  datatype Line = Line(entry: Entry, balance: int)

  datatype Ledger = Ledger(openingBalance: int, closingBalance: int, items: seq<Line>)

  // ---------------------------------------------------------------------
  // Which rows the statement shows.
  // ---------------------------------------------------------------------

  /** `if financial_year_id:` filters only on a year id that is present and not 0. */
  predicate InYear(fy: int, q: Query) { q.financialYearId.None? || q.financialYearId.value == 0 || fy == q.financialYearId.value }

  /** A year id of 0 selects the same rows as no year id at all. */
  lemma YearZeroIsNoFilter(fy: int, q: Query)
    requires q.financialYearId == Some(0)
    ensures InYear(fy, q) == InYear(fy, q.(financialYearId := None))
  {
  }

  predicate InPeriod(d: Date, q: Query)
  {
    (q.start.None? || NotAfter(q.start.value, d)) && (q.end.None? || NotAfter(d, q.end.value))
  }

  predicate Before(d: Date, start: Date) { !NotAfter(start, d) }

  predicate ListedInvoice(inv: Invoice, q: Query)
  {
    inv.partyId == q.partyId && inv.status != "CANCELLED" && InYear(inv.financialYearId, q) && InPeriod(inv.invoiceDate, q)
  }

  predicate ListedPayment(p: Payment, q: Query)
  {
    p.partyId == q.partyId && p.paymentType == "RECEIVED" && InYear(p.financialYearId, q) && InPeriod(p.paymentDate, q)
  }

  /** Rows dated before the start date, still restricted to the party, status and year. */
  predicate PriorInvoice(inv: Invoice, q: Query)
  {
    q.start.Some? && inv.partyId == q.partyId && inv.status != "CANCELLED"
    && Before(inv.invoiceDate, q.start.value) && InYear(inv.financialYearId, q)
  }

  predicate PriorPayment(p: Payment, q: Query)
  {
    q.start.Some? && p.partyId == q.partyId && p.paymentType == "RECEIVED"
    && Before(p.paymentDate, q.start.value) && InYear(p.financialYearId, q)
  }

  function GrandTotal(inv: Invoice): int { inv.grandTotal }

  function Amount(p: Payment): int { p.amount }

  /** The party's opening balance, moved forward over everything before the start date. */
  function OpeningBalance(partyOpening: int, invoices: seq<Invoice>, payments: seq<Payment>, q: Query): (b: int)
    ensures q.start.None? ==> b == partyOpening
  {
    if q.start.None? then partyOpening
    else
      partyOpening + SumBy(PriorInvoices(invoices, q), GrandTotal) - SumBy(PriorPayments(payments, q), Amount)
  }

  function PriorInvoices(invoices: seq<Invoice>, q: Query): seq<Invoice>
  {
    Filter(invoices, (inv: Invoice) => PriorInvoice(inv, q))
  }

  function PriorPayments(payments: seq<Payment>, q: Query): seq<Payment>
  {
    Filter(payments, (p: Payment) => PriorPayment(p, q))
  }

  function InvoiceItem(inv: Invoice): Entry
  {
    Entry(inv.invoiceDate, InvoiceEntry, inv.invoiceNumber, "Invoice Generated", inv.grandTotal, 0)
  }

  /** A payment without a reference (or with an empty one) shows "-". */
  function PaymentItem(p: Payment): Entry
  {
    var reference := if p.referenceNumber.None? || p.referenceNumber.value == "" then "-" else p.referenceNumber.value;
    Entry(p.paymentDate, PaymentEntry, reference, "Payment via " + p.paymentMode, 0, p.amount)
  }

  function InvoiceItems(xs: seq<Invoice>): (r: seq<Entry>)
    ensures |r| == |xs| && forall i :: 0 <= i < |xs| ==> r[i] == InvoiceItem(xs[i])
  {
    if xs == [] then [] else InvoiceItems(xs[..|xs| - 1]) + [InvoiceItem(xs[|xs| - 1])]
  }

  function PaymentItems(xs: seq<Payment>): (r: seq<Entry>)
    ensures |r| == |xs| && forall i :: 0 <= i < |xs| ==> r[i] == PaymentItem(xs[i])
  {
    if xs == [] then [] else PaymentItems(xs[..|xs| - 1]) + [PaymentItem(xs[|xs| - 1])]
  }

  function ListedInvoices(invoices: seq<Invoice>, q: Query): seq<Invoice>
  {
    Filter(invoices, (inv: Invoice) => ListedInvoice(inv, q))
  }

  function ListedPayments(payments: seq<Payment>, q: Query): seq<Payment>
  {
    Filter(payments, (p: Payment) => ListedPayment(p, q))
  }

  /** Invoices first, then payments, before the sort. */
  function Merged(invoices: seq<Invoice>, payments: seq<Payment>, q: Query): seq<Entry>
  {
    InvoiceItems(ListedInvoices(invoices, q)) + PaymentItems(ListedPayments(payments, q))
  }

  /** Sort key of a calendar date; its order is calendar order on valid dates. */
  function DateOrdinal(d: Date): int { d.year * 10000 + d.month * 100 + d.day }

  function EntryDay(e: Entry): int { DateOrdinal(e.date) }

  lemma DateOrdinalOrder(a: Date, b: Date)
    requires a.Valid() && b.Valid()
    ensures DateOrdinal(a) <= DateOrdinal(b) <==> NotAfter(a, b)
  {
  }

  function Debit(e: Entry): int { e.debit }

  function Credit(e: Entry): int { e.credit }

  // ---------------------------------------------------------------------
  // The endpoint.
  // ---------------------------------------------------------------------

  /** Each line's balance is the opening balance plus debits minus credits up to and including it. */
  method RunningBalances(opening: int, entries: seq<Entry>) returns (lines: seq<Line>, closing: int)
    ensures |lines| == |entries|
    ensures forall k :: 0 <= k < |lines| ==>
      lines[k].entry == entries[k]
      && lines[k].balance == opening + SumBy(entries[..k + 1], Debit) - SumBy(entries[..k + 1], Credit)
    ensures forall k :: 0 < k < |lines| ==>
      lines[k].balance == lines[k - 1].balance + entries[k].debit - entries[k].credit
    ensures |lines| > 0 ==> lines[0].balance == opening + entries[0].debit - entries[0].credit
    ensures closing == opening + SumBy(entries, Debit) - SumBy(entries, Credit)
    ensures |lines| > 0 ==> closing == lines[|lines| - 1].balance
  {
    lines := [];
    closing := opening;
    var i := 0;
    while i < |entries|
      invariant 0 <= i <= |entries| && |lines| == i
      invariant closing == opening + SumBy(entries[..i], Debit) - SumBy(entries[..i], Credit)
      invariant Balanced(lines, entries, opening)
      invariant i > 0 ==> closing == lines[i - 1].balance
    {
      PrefixStep(entries, i);
      closing := closing + entries[i].debit - entries[i].credit;
      BalancedSnoc(lines, entries, opening, closing);
      lines := lines + [Line(entries[i], closing)];
      i := i + 1;
    }
    assert entries[..i] == entries;
    BalancedSteps(lines, entries, opening);
  }

  /** Each line carries its entry and the opening moved over the entries up to and including it. */
  ghost predicate Balanced(lines: seq<Line>, entries: seq<Entry>, opening: int)
  {
    |lines| <= |entries|
    && forall k :: 0 <= k < |lines| ==>
      lines[k].entry == entries[k]
      && lines[k].balance == opening + SumBy(entries[..k + 1], Debit) - SumBy(entries[..k + 1], Credit)
  }

  lemma BalancedSnoc(lines: seq<Line>, entries: seq<Entry>, opening: int, closing: int)
    requires Balanced(lines, entries, opening) && |lines| < |entries|
    requires closing == opening + SumBy(entries[..|lines| + 1], Debit) - SumBy(entries[..|lines| + 1], Credit)
    ensures Balanced(lines + [Line(entries[|lines|], closing)], entries, opening)
  {
    SnocIndex(lines, Line(entries[|lines|], closing));
  }

  /** Consecutive balances differ by the later entry's debit less its credit. */
  lemma BalancedSteps(lines: seq<Line>, entries: seq<Entry>, opening: int)
    requires Balanced(lines, entries, opening)
    ensures |lines| > 0 ==> lines[0].balance == opening + entries[0].debit - entries[0].credit
    ensures forall k :: 0 < k < |lines| ==>
      lines[k].balance == lines[k - 1].balance + entries[k].debit - entries[k].credit
  {
    if |lines| > 0 {
      PrefixStep(entries, 0);
    }
    forall k | 0 < k < |lines|
      ensures lines[k].balance == lines[k - 1].balance + entries[k].debit - entries[k].credit
    {
      PrefixStep(entries, k);
    }
  }

  lemma PrefixStep(entries: seq<Entry>, i: int)
    requires 0 <= i < |entries|
    ensures SumBy(entries[..i + 1], Debit) == SumBy(entries[..i], Debit) + entries[i].debit
    ensures SumBy(entries[..i + 1], Credit) == SumBy(entries[..i], Credit) + entries[i].credit
  {
    assert entries[..i + 1][..i] == entries[..i];
  }

  method GetClientLedger(partyOpening: int, invoices: seq<Invoice>, payments: seq<Payment>, q: Query)
    returns (ledger: Ledger)
    ensures ledger.openingBalance == OpeningBalance(partyOpening, invoices, payments, q)
    ensures var sorted := SortByKey(Merged(invoices, payments, q), EntryDay);
            |ledger.items| == |sorted|
            && (forall k :: 0 <= k < |sorted| ==> ledger.items[k].entry == sorted[k])
            && ledger.closingBalance == ledger.openingBalance + SumBy(sorted, Debit) - SumBy(sorted, Credit)
    ensures var sorted := SortByKey(Merged(invoices, payments, q), EntryDay);
            |ledger.items| == |sorted|
            && forall k :: 0 <= k < |sorted| ==>
                 ledger.items[k].balance
                 == ledger.openingBalance + SumBy(sorted[..k + 1], Debit) - SumBy(sorted[..k + 1], Credit)
    ensures |ledger.items| > 0 ==>
      ledger.items[0].balance == ledger.openingBalance + ledger.items[0].entry.debit - ledger.items[0].entry.credit
    ensures forall k :: 0 < k < |ledger.items| ==>
      ledger.items[k].balance == ledger.items[k - 1].balance + ledger.items[k].entry.debit - ledger.items[k].entry.credit
  {
    var opening := OpeningBalance(partyOpening, invoices, payments, q);
    var sorted := SortByKey(Merged(invoices, payments, q), EntryDay);
    var lines, closing := RunningBalances(opening, sorted);
    ledger := Ledger(opening, closing, lines);
  }

  // ---------------------------------------------------------------------
  // What the statement adds up to.
  // ---------------------------------------------------------------------

  lemma {:induction false} InvoiceItemsSums(xs: seq<Invoice>)
    ensures SumBy(InvoiceItems(xs), Debit) == SumBy(xs, GrandTotal)
    ensures SumBy(InvoiceItems(xs), Credit) == 0
  {
    if xs != [] {
      InvoiceItemsSums(xs[..|xs| - 1]);
      assert InvoiceItems(xs)[..|xs| - 1] == InvoiceItems(xs[..|xs| - 1]);
    }
  }

  lemma {:induction false} PaymentItemsSums(xs: seq<Payment>)
    ensures SumBy(PaymentItems(xs), Debit) == 0
    ensures SumBy(PaymentItems(xs), Credit) == SumBy(xs, Amount)
  {
    if xs != [] {
      PaymentItemsSums(xs[..|xs| - 1]);
      assert PaymentItems(xs)[..|xs| - 1] == PaymentItems(xs[..|xs| - 1]);
    }
  }

  /** The statement's debits are exactly the listed invoices and its credits exactly the listed receipts. */
  lemma StatementTotals(invoices: seq<Invoice>, payments: seq<Payment>, q: Query)
    ensures var sorted := SortByKey(Merged(invoices, payments, q), EntryDay);
            SumBy(sorted, Debit) == SumBy(ListedInvoices(invoices, q), GrandTotal)
            && SumBy(sorted, Credit) == SumBy(ListedPayments(payments, q), Amount)
  {
    var a, b := InvoiceItems(ListedInvoices(invoices, q)), PaymentItems(ListedPayments(payments, q));
    var merged := Merged(invoices, payments, q);
    SumByPermutation(SortByKey(merged, EntryDay), merged, Debit);
    SumByPermutation(SortByKey(merged, EntryDay), merged, Credit);
    SumByAppend(a, b, Debit);
    SumByAppend(a, b, Credit);
    InvoiceItemsSums(ListedInvoices(invoices, q));
    PaymentItemsSums(ListedPayments(payments, q));
  }

  /** Only non-cancelled invoices and received payments of the party, within the filters, appear. */
  lemma StatementSources(invoices: seq<Invoice>, payments: seq<Payment>, q: Query, e: Entry)
    requires e in SortByKey(Merged(invoices, payments, q), EntryDay)
    ensures e.kind == InvoiceEntry ==> exists inv :: inv in invoices && ListedInvoice(inv, q) && e == InvoiceItem(inv)
    ensures e.kind == PaymentEntry ==> exists p :: p in payments && ListedPayment(p, q) && e == PaymentItem(p)
  {
    var xs, ys := ListedInvoices(invoices, q), ListedPayments(payments, q);
    SortedKeeps(Merged(invoices, payments, q), EntryDay);
    if e in InvoiceItems(xs) {
      InvoiceItemSource(invoices, q, e);
    } else {
      PaymentItemSource(payments, q, e);
    }
  }

  lemma InvoiceItemSource(invoices: seq<Invoice>, q: Query, e: Entry)
    requires e in InvoiceItems(ListedInvoices(invoices, q))
    ensures e.kind == InvoiceEntry && exists inv :: inv in invoices && ListedInvoice(inv, q) && e == InvoiceItem(inv)
  {
    var xs := ListedInvoices(invoices, q);
    var i :| 0 <= i < |xs| && InvoiceItems(xs)[i] == e;
    assert xs[i] in xs;
  }

  lemma PaymentItemSource(payments: seq<Payment>, q: Query, e: Entry)
    requires e in PaymentItems(ListedPayments(payments, q))
    ensures e.kind == PaymentEntry && exists p :: p in payments && ListedPayment(p, q) && e == PaymentItem(p)
  {
    var ys := ListedPayments(payments, q);
    var i :| 0 <= i < |ys| && PaymentItems(ys)[i] == e;
    assert ys[i] in ys;
  }

  /** Statement lines are in calendar order. */
  lemma StatementOrdered(invoices: seq<Invoice>, payments: seq<Payment>, q: Query, i: int, j: int)
    requires var sorted := SortByKey(Merged(invoices, payments, q), EntryDay);
             0 <= i < j < |sorted| && sorted[i].date.Valid() && sorted[j].date.Valid()
    ensures var sorted := SortByKey(Merged(invoices, payments, q), EntryDay);
            NotAfter(sorted[i].date, sorted[j].date)
  {
    var sorted := SortByKey(Merged(invoices, payments, q), EntryDay);
    DateOrdinalOrder(sorted[i].date, sorted[j].date);
  }

  // ---------------------------------------------------------------------
  // A statement that starts later opens where the earlier one stood.
  // ---------------------------------------------------------------------

  lemma {:induction false} SumByPointwise<T>(s: seq<T>, f: T -> int, g: T -> int)
    requires forall x :: x in s ==> f(x) == g(x)
    ensures SumBy(s, f) == SumBy(s, g)
  {
    if s != [] {
      assert forall x :: x in s[..|s| - 1] ==> x in s;
      SumByPointwise(s[..|s| - 1], f, g);
    }
  }

  function DebitBefore(start: Date): Entry -> int
  {
    (e: Entry) => if Before(e.date, start) then e.debit else 0
  }

  function CreditBefore(start: Date): Entry -> int
  {
    (e: Entry) => if Before(e.date, start) then e.credit else 0
  }

  lemma {:induction false} InvoiceItemsBefore(xs: seq<Invoice>, start: Date)
    ensures SumBy(InvoiceItems(xs), DebitBefore(start)) == SumBy(xs, (inv: Invoice) => if Before(inv.invoiceDate, start) then inv.grandTotal else 0)
    ensures SumBy(InvoiceItems(xs), CreditBefore(start)) == 0
  {
    if xs != [] {
      InvoiceItemsBefore(xs[..|xs| - 1], start);
      assert InvoiceItems(xs)[..|xs| - 1] == InvoiceItems(xs[..|xs| - 1]);
    }
  }

  lemma {:induction false} PaymentItemsBefore(xs: seq<Payment>, start: Date)
    ensures SumBy(PaymentItems(xs), DebitBefore(start)) == 0
    ensures SumBy(PaymentItems(xs), CreditBefore(start)) == SumBy(xs, (p: Payment) => if Before(p.paymentDate, start) then p.amount else 0)
  {
    if xs != [] {
      PaymentItemsBefore(xs[..|xs| - 1], start);
      assert PaymentItems(xs)[..|xs| - 1] == PaymentItems(xs[..|xs| - 1]);
    }
  }

  lemma InvoiceItemsSnoc(ys: seq<Invoice>, x: Invoice)
    ensures InvoiceItems(ys + [x]) == InvoiceItems(ys) + [InvoiceItem(x)]
  {
  }

  lemma PaymentItemsSnoc(ys: seq<Payment>, x: Payment)
    ensures PaymentItems(ys + [x]) == PaymentItems(ys) + [PaymentItem(x)]
  {
  }

  lemma {:induction false} PriorInvoicesAsDebits(invoices: seq<Invoice>, q0: Query, qs: Query, start: Date)
    requires q0 == Query(qs.partyId, None, None, qs.financialYearId) && qs.start == Some(start)
    ensures SumBy(InvoiceItems(ListedInvoices(invoices, q0)), DebitBefore(start)) == SumBy(PriorInvoices(invoices, qs), GrandTotal)
  {
    if invoices != [] {
      var init, x := invoices[..|invoices| - 1], invoices[|invoices| - 1];
      PriorInvoicesAsDebits(init, q0, qs, start);
      ListedDebitSnoc(invoices, q0, start);
      PriorTotalSnoc(invoices, qs);
    }
  }

  /** The debit before `start` of the listed invoices, one invoice at a time. */
  lemma ListedDebitSnoc(invoices: seq<Invoice>, q0: Query, start: Date)
    requires invoices != []
    ensures var init, x := invoices[..|invoices| - 1], invoices[|invoices| - 1];
      SumBy(InvoiceItems(ListedInvoices(invoices, q0)), DebitBefore(start))
      == SumBy(InvoiceItems(ListedInvoices(init, q0)), DebitBefore(start))
         + (if ListedInvoice(x, q0) && Before(x.invoiceDate, start) then x.grandTotal else 0)
  {
    var init, x := invoices[..|invoices| - 1], invoices[|invoices| - 1];
    var ys := ListedInvoices(init, q0);
    if ListedInvoice(x, q0) {
      assert ListedInvoices(invoices, q0) == ys + [x];
      InvoiceItemsSnoc(ys, x);
      SumBySnoc(InvoiceItems(ys), InvoiceItem(x), DebitBefore(start));
    } else {
      assert ListedInvoices(invoices, q0) == ys;
    }
  }

  /** The total of the invoices before the period, one invoice at a time. */
  lemma PriorTotalSnoc(invoices: seq<Invoice>, qs: Query)
    requires invoices != []
    ensures var init, x := invoices[..|invoices| - 1], invoices[|invoices| - 1];
      SumBy(PriorInvoices(invoices, qs), GrandTotal)
      == SumBy(PriorInvoices(init, qs), GrandTotal) + (if PriorInvoice(x, qs) then x.grandTotal else 0)
  {
    var init, x := invoices[..|invoices| - 1], invoices[|invoices| - 1];
    var ps := PriorInvoices(init, qs);
    if PriorInvoice(x, qs) {
      assert PriorInvoices(invoices, qs) == ps + [x];
      SumBySnoc(ps, x, GrandTotal);
    } else {
      assert PriorInvoices(invoices, qs) == ps;
    }
  }

  lemma {:induction false} PriorPaymentsAsCredits(payments: seq<Payment>, q0: Query, qs: Query, start: Date)
    requires q0 == Query(qs.partyId, None, None, qs.financialYearId) && qs.start == Some(start)
    ensures SumBy(PaymentItems(ListedPayments(payments, q0)), CreditBefore(start)) == SumBy(PriorPayments(payments, qs), Amount)
  {
    if payments != [] {
      var init := payments[..|payments| - 1];
      PriorPaymentsAsCredits(init, q0, qs, start);
      ListedCreditSnoc(payments, q0, start);
      PriorPaidSnoc(payments, qs);
    }
  }

  /** The credit before `start` of the listed payments, one payment at a time. */
  lemma ListedCreditSnoc(payments: seq<Payment>, q0: Query, start: Date)
    requires payments != []
    ensures var init, x := payments[..|payments| - 1], payments[|payments| - 1];
      SumBy(PaymentItems(ListedPayments(payments, q0)), CreditBefore(start))
      == SumBy(PaymentItems(ListedPayments(init, q0)), CreditBefore(start))
         + (if ListedPayment(x, q0) && Before(x.paymentDate, start) then x.amount else 0)
  {
    var init, x := payments[..|payments| - 1], payments[|payments| - 1];
    var ys := ListedPayments(init, q0);
    if ListedPayment(x, q0) {
      assert ListedPayments(payments, q0) == ys + [x];
      PaymentItemsSnoc(ys, x);
      SumBySnoc(PaymentItems(ys), PaymentItem(x), CreditBefore(start));
    } else {
      assert ListedPayments(payments, q0) == ys;
    }
  }

  /** The total of the receipts before the period, one payment at a time. */
  lemma PriorPaidSnoc(payments: seq<Payment>, qs: Query)
    requires payments != []
    ensures var init, x := payments[..|payments| - 1], payments[|payments| - 1];
      SumBy(PriorPayments(payments, qs), Amount)
      == SumBy(PriorPayments(init, qs), Amount) + (if PriorPayment(x, qs) then x.amount else 0)
  {
    var init, x := payments[..|payments| - 1], payments[|payments| - 1];
    var ps := PriorPayments(init, qs);
    if PriorPayment(x, qs) {
      assert PriorPayments(payments, qs) == ps + [x];
      SumBySnoc(ps, x, Amount);
    } else {
      assert PriorPayments(payments, qs) == ps;
    }
  }

  /**
   * The opening balance of a statement starting on `start` equals the
   * party's opening balance plus the debits minus the credits of the
   * open-ended statement's lines dated before `start` (same year filter).
   */
  lemma OpeningContinuity(partyOpening: int, invoices: seq<Invoice>, payments: seq<Payment>, party: int, fy: Option<int>, start: Date)
    ensures var whole := SortByKey(Merged(invoices, payments, Query(party, None, None, fy)), EntryDay);
            OpeningBalance(partyOpening, invoices, payments, Query(party, Some(start), None, fy))
            == partyOpening + SumBy(whole, DebitBefore(start)) - SumBy(whole, CreditBefore(start))
  {
    var q0 := Query(party, None, None, fy);
    var merged := Merged(invoices, payments, q0);
    var xs, ys := ListedInvoices(invoices, q0), ListedPayments(payments, q0);
    SumByPermutation(SortByKey(merged, EntryDay), merged, DebitBefore(start));
    SumByPermutation(SortByKey(merged, EntryDay), merged, CreditBefore(start));
    SumByAppend(InvoiceItems(xs), PaymentItems(ys), DebitBefore(start));
    SumByAppend(InvoiceItems(xs), PaymentItems(ys), CreditBefore(start));
    InvoiceItemsBefore(xs, start);
    PaymentItemsBefore(ys, start);
    PriorInvoicesAsDebits(invoices, q0, Query(party, Some(start), None, fy), start);
    PriorPaymentsAsCredits(payments, q0, Query(party, Some(start), None, fy), start);
  }

  // ---------------------------------------------------------------------
  // Dashboard and year names.
  // ---------------------------------------------------------------------

  /** Opening balance plus invoices, minus receipts, plus refunds paid out; no date filter. */
  function DashboardOutstanding(partyOpening: int, invoices: seq<Invoice>, payments: seq<Payment>, party: int, fy: Option<int>): int
  {
    var q := Query(party, None, None, fy);
    partyOpening
    + SumBy(Filter(invoices, (inv: Invoice) => ListedInvoice(inv, q)), GrandTotal)
    - SumBy(Filter(payments, (p: Payment) => ListedPayment(p, q)), Amount)
    + SumBy(Filter(payments, (p: Payment) => p.partyId == party && p.paymentType == "PAID" && InYear(p.financialYearId, q)), Amount)
  }

  /** The dashboard figure is the unfiltered statement's closing balance plus payments made to the party. */
  lemma DashboardMatchesStatement(partyOpening: int, invoices: seq<Invoice>, payments: seq<Payment>, party: int, fy: Option<int>)
    ensures var q := Query(party, None, None, fy);
            var sorted := SortByKey(Merged(invoices, payments, q), EntryDay);
            DashboardOutstanding(partyOpening, invoices, payments, party, fy)
            == partyOpening + SumBy(sorted, Debit) - SumBy(sorted, Credit)
               + SumBy(Filter(payments, (p: Payment) => p.partyId == party && p.paymentType == "PAID" && InYear(p.financialYearId, q)), Amount)
  {
    StatementTotals(invoices, payments, Query(party, None, None, fy));
  }

  function LastTwo(s: string): (r: string)
    ensures |s| >= 2 ==> |r| == 2 && r == s[|s| - 2..]
    ensures |s| < 2 ==> r == s
  {
    if |s| >= 2 then s[|s| - 2..] else s
  }

  /** "2024-25": the start year, a hyphen and the last two characters of the end year. */
  function YearName(startYear: nat, endYear: nat): string
  {
    NatToString(startYear) + "-" + LastTwo(NatToString(endYear))
  }

  function Digit(n: nat): char
    requires n < 10
  {
    ('0' as int + n) as char
  }

  lemma LastDigit(n: nat)
    ensures var s := NatToString(n); s[|s| - 1] == Digit(n % 10)
  {
  }

  lemma LastTwoDigits(n: nat)
    requires n >= 10
    ensures LastTwo(NatToString(n)) == [Digit((n / 10) % 10), Digit(n % 10)]
  {
    var f := NatToString(n / 10);
    assert NatToString(n) == f + [Digit(n % 10)];
    LastDigit(n / 10);
    assert (f + [Digit(n % 10)])[|f| - 1..] == [f[|f| - 1], Digit(n % 10)];
  }

  lemma TwoDigitsValue(a: nat, b: nat)
    requires a < 10 && b < 10
    ensures AllDigits([Digit(a), Digit(b)]) && DigitsValue([Digit(a), Digit(b)]) == 10 * a + b
  {
    var s := [Digit(a), Digit(b)];
    assert s[..1] == [Digit(a)];
    assert [Digit(a)][..0] == [];
    assert DigitsValue([Digit(a)]) == a;
  }

  lemma ModHundred(n: nat)
    ensures n % 100 == 10 * ((n / 10) % 10) + n % 10
  {
    var q, r := n / 10, n % 10;
    var a, b := q / 10, q % 10;
    assert n == 10 * q + r;
    assert q == 10 * a + b;
    assert 0 <= 10 * b + r < 100;
    HundredRemainder(n, a, 10 * b + r);
  }

  lemma HundredRemainder(n: int, a: int, b: int)
    requires n == 100 * a + b && 0 <= b < 100
    ensures n % 100 == b
  {
  }

  /** The part after the hyphen is the end year's last two digits. */
  lemma YearNameShape(startYear: nat, endYear: nat)
    requires endYear >= 10
    ensures var name, s := YearName(startYear, endYear), NatToString(startYear);
            |name| == |s| + 3 && name[..|s|] == s && name[|s|] == '-'
            && name[|s| + 1..] == [Digit((endYear / 10) % 10), Digit(endYear % 10)]
  {
    var s := NatToString(startYear);
    var two := LastTwo(NatToString(endYear));
    LastTwoDigits(endYear);
    var name := YearName(startYear, endYear);
    assert name == s + "-" + two;
    assert name[|s| + 1..] == two;
  }

  /** ... and their value is the end year modulo 100. */
  lemma YearNameSuffixValue(startYear: nat, endYear: nat)
    requires endYear >= 10
    ensures var name, s := YearName(startYear, endYear), NatToString(startYear);
            AllDigits(name[|s| + 1..]) && DigitsValue(name[|s| + 1..]) == endYear % 100
  {
    YearNameShape(startYear, endYear);
    TwoDigitsValue((endYear / 10) % 10, endYear % 10);
    ModHundred(endYear);
  }

  // ---------------------------------------------------------------------
  // The statement screen.
  // ---------------------------------------------------------------------

  datatype PeriodStats = PeriodStats(totalInvoiced: int, totalPaid: int, transactionCount: int, netChange: int)

  function LineDebitIfInvoice(l: Line): int { if l.entry.kind == InvoiceEntry then l.entry.debit else 0 }

  function LineCreditIfPayment(l: Line): int { if l.entry.kind == PaymentEntry then l.entry.credit else 0 }

  function LineDebit(l: Line): int { l.entry.debit }

  function LineCredit(l: Line): int { l.entry.credit }

  function Stats(l: Ledger): (s: PeriodStats)
    ensures s.transactionCount == |l.items|
    ensures s.netChange == l.closingBalance - l.openingBalance
  {
    PeriodStats(SumBy(l.items, LineDebitIfInvoice), SumBy(l.items, LineCreditIfPayment), |l.items|,
                l.closingBalance - l.openingBalance)
  }

  /** Lines built from invoices carry no credit and lines built from payments no debit. */
  predicate OneSided(l: Line)
  {
    (l.entry.kind == InvoiceEntry ==> l.entry.credit == 0) && (l.entry.kind == PaymentEntry ==> l.entry.debit == 0)
  }

  /** When the closing balance is the opening plus debits minus credits, the net change is invoiced minus paid. */
  lemma NetChangeIsInvoicedMinusPaid(l: Ledger)
    requires l.closingBalance == l.openingBalance + SumBy(l.items, LineDebit) - SumBy(l.items, LineCredit)
    requires forall x :: x in l.items ==> OneSided(x)
    ensures Stats(l).netChange == Stats(l).totalInvoiced - Stats(l).totalPaid
  {
    SumByPointwise(l.items, LineDebit, LineDebitIfInvoice);
    SumByPointwise(l.items, LineCredit, LineCreditIfPayment);
  }

  /** Every line of the endpoint's statement is one-sided. */
  lemma StatementOneSided(invoices: seq<Invoice>, payments: seq<Payment>, q: Query, e: Entry)
    requires e in SortByKey(Merged(invoices, payments, q), EntryDay)
    ensures OneSided(Line(e, 0))
  {
    StatementSources(invoices, payments, q, e);
  }

  // CSV export.

  const CsvColumns: seq<string> := ["Date", "Type", "Reference", "Description", "Debit", "Credit", "Balance"]

  /** "Date,Type,Reference,Description,Debit,Credit,Balance". */
  const CsvHeader: string := Join(CsvColumns, ",")

  function KindName(k: EntryKind): string
  {
    if k == InvoiceEntry then "INVOICE" else "PAYMENT"
  }

  /** "dd/MM/yyyy". */
  function DayMonthYear(d: Date): string
  {
    PadLeft(IntToString(d.day), 2, '0') + "/" + PadLeft(IntToString(d.month), 2, '0') + "/" + IntToString(d.year)
  }

  function CsvFields(l: Line): seq<string>
  {
    [DayMonthYear(l.entry.date), KindName(l.entry.kind), l.entry.refNumber, l.entry.description,
     IntToString(l.entry.debit), IntToString(l.entry.credit), IntToString(l.balance)]
  }

  function CsvRow(l: Line): string { Join(CsvFields(l), ",") }

  function CsvRows(items: seq<Line>): (r: seq<string>)
  {
    seq(|items|, k requires 0 <= k < |items| => CsvRow(items[k]))
  }

  function CsvContent(l: Ledger): string
  {
    Join([CsvHeader] + CsvRows(l.items), "\n")
  }

  lemma NoSeparatorInNumber(n: int, c: char)
    requires c == ',' || c == '\n'
    ensures c !in IntToString(n)
  {
    var s := IntToString(n);
    forall i | 0 <= i < |s| ensures s[i] != c { }
  }

  lemma NoSeparatorInPadded(n: int, c: char)
    requires c == ',' || c == '\n'
    ensures c !in PadLeft(IntToString(n), 2, '0')
  {
    var s := IntToString(n);
    var p := PadLeft(s, 2, '0');
    NoSeparatorInNumber(n, c);
    var off := |p| - |s|;
    forall i | 0 <= i < |p| ensures p[i] != c {
      if i >= off { assert p[i] == p[off..][i - off] == s[i - off]; }
    }
  }

  lemma NoSeparatorInDate(d: Date, c: char)
    requires c == ',' || c == '\n'
    ensures c !in DayMonthYear(d)
  {
    NoSeparatorInPadded(d.day, c);
    NoSeparatorInPadded(d.month, c);
    NoSeparatorInNumber(d.year, c);
  }

  /** No field of a line holds the separator unless its reference or description does. */
  lemma FieldsNoChar(l: Line, c: char)
    requires c == ',' || c == '\n'
    requires c !in l.entry.refNumber && c !in l.entry.description
    ensures forall i :: 0 <= i < |CsvFields(l)| ==> c !in CsvFields(l)[i]
  {
    DateFieldNoChar(l, c);
    KindFieldNoChar(l, c);
    AmountFieldsNoChar(l, c);
    EachFieldNoChar(CsvFields(l), c);
  }

  lemma EachFieldNoChar(fs: seq<string>, c: char)
    requires |fs| == 7
    requires c !in fs[0] && c !in fs[1] && c !in fs[2] && c !in fs[3]
    requires c !in fs[4] && c !in fs[5] && c !in fs[6]
    ensures forall i :: 0 <= i < |fs| ==> c !in fs[i]
  {
  }

  lemma DateFieldNoChar(l: Line, c: char)
    requires c == ',' || c == '\n'
    ensures c !in CsvFields(l)[0]
  {
    NoSeparatorInDate(l.entry.date, c);
  }

  lemma KindFieldNoChar(l: Line, c: char)
    requires c == ',' || c == '\n'
    ensures c !in CsvFields(l)[1]
  {
    KindNameNoChar(l.entry.kind, c);
  }

  lemma AmountFieldsNoChar(l: Line, c: char)
    requires c == ',' || c == '\n'
    ensures c !in CsvFields(l)[4] && c !in CsvFields(l)[5] && c !in CsvFields(l)[6]
  {
    NoSeparatorInNumber(l.entry.debit, c);
    NoSeparatorInNumber(l.entry.credit, c);
    NoSeparatorInNumber(l.balance, c);
  }

  lemma KindNameNoChar(k: EntryKind, c: char)
    requires c == ',' || c == '\n'
    ensures c !in KindName(k)
  {
  }

  /** A line whose reference and description hold no comma splits back into exactly its seven fields. */
  lemma CsvRowFields(l: Line)
    requires ',' !in l.entry.refNumber && ',' !in l.entry.description
    ensures Split(CsvRow(l), ',') == CsvFields(l)
    ensures |Split(CsvRow(l), ',')| == 7
  {
    var parts := CsvFields(l);
    FieldsNoChar(l, ',');
    SplitJoin(parts, ',');
  }

  lemma CsvHeaderFields()
    ensures Split(CsvHeader, ',') == CsvColumns
    ensures '\n' !in CsvHeader
  {
    ColumnsPlain();
    SplitJoin(CsvColumns, ',');
    JoinNoChar(CsvColumns, ",", '\n');
  }

  lemma ColumnsPlain()
    ensures forall i :: 0 <= i < |CsvColumns| ==> ',' !in CsvColumns[i] && '\n' !in CsvColumns[i]
  {
  }

  lemma {:induction false} CsvRowsNoNewline(items: seq<Line>)
    requires forall x :: x in items ==> '\n' !in x.entry.refNumber && '\n' !in x.entry.description
    ensures forall k :: 0 <= k < |items| ==> '\n' !in CsvRow(items[k])
  {
    forall k | 0 <= k < |items| ensures '\n' !in CsvRow(items[k]) {
      var x := items[k];
      assert x in items;
      FieldsNoChar(x, '\n');
      JoinNoChar(CsvFields(x), ",", '\n');
    }
  }

  lemma {:induction false} JoinNoChar(parts: seq<string>, sep: string, c: char)
    requires c !in sep && forall i :: 0 <= i < |parts| ==> c !in parts[i]
    ensures c !in Join(parts, sep)
  {
    if |parts| > 1 {
      JoinNoChar(parts[1..], sep, c);
    }
  }

  /** The file is the header line and then exactly one line per statement line, in order. */
  lemma CsvLines(l: Ledger)
    requires forall x :: x in l.items ==> '\n' !in x.entry.refNumber && '\n' !in x.entry.description
    ensures var lines := Split(CsvContent(l), '\n');
            |lines| == 1 + |l.items| && lines[0] == CsvHeader
            && forall k :: 0 <= k < |l.items| ==> lines[k + 1] == CsvRow(l.items[k])
  {
    CsvRowsNoNewline(l.items);
    CsvHeaderFields();
    LinesOfJoin(CsvHeader, CsvRows(l.items));
  }

  /** Lines without a line break, joined by line breaks, split back into themselves. */
  lemma LinesOfJoin(header: string, rows: seq<string>)
    requires '\n' !in header && forall k :: 0 <= k < |rows| ==> '\n' !in rows[k]
    ensures Split(Join([header] + rows, "\n"), '\n') == [header] + rows
  {
    var parts := [header] + rows;
    forall i | 0 <= i < |parts| ensures '\n' !in parts[i] {
      if i > 0 { assert parts[i] == rows[i - 1]; }
    }
    SplitJoin(parts, '\n');
  }

  // Date presets.

  datatype Preset = ThisMonth | LastMonth | Last3Months | ThisYear | All | Unknown

  /** The chosen range; `None` is an empty date field. */
  datatype DateRange = DateRange(start: Option<Date>, end: Option<Date>)

  function ApplyPreset(preset: Preset, today: Date): (r: Option<DateRange>)
    requires today.Valid()
    ensures preset == Unknown <==> r.None?
    ensures preset == All ==> r == Some(DateRange(None, None))
    ensures preset == ThisYear ==> r == Some(DateRange(Some(Date(today.year, 1, 1)), Some(Date(today.year, 12, 31))))
  {
    var ym := YearMonth(today.year, today.month);
    match preset
    case ThisMonth => Some(DateRange(Some(StartOfMonth(ym)), Some(EndOfMonth(ym))))
    case LastMonth => Some(DateRange(Some(StartOfMonth(MonthsBack(ym, 1))), Some(EndOfMonth(MonthsBack(ym, 1)))))
    case Last3Months => Some(DateRange(Some(StartOfMonth(MonthsBack(ym, 2))), Some(EndOfMonth(ym))))
    case ThisYear => Some(DateRange(Some(Date(today.year, 1, 1)), Some(Date(today.year, 12, 31))))
    case All => Some(DateRange(None, None))
    case Unknown => None
  }

  /**
   * Every dated preset runs from the first day of a month to the last day of
   * a month, start before end; the ranges for this month, the last three
   * months and this year contain today.
   */
  lemma PresetRanges(preset: Preset, today: Date)
    requires today.Valid() && preset != All && preset != Unknown
    ensures var r := ApplyPreset(preset, today).value;
            r.start.Some? && r.end.Some? && r.start.value.Valid() && r.end.value.Valid()
            && r.start.value.day == 1 && r.end.value.day == DaysInMonth(r.end.value.year, r.end.value.month)
            && NotAfter(r.start.value, r.end.value)
            && (preset != LastMonth ==> NotAfter(r.start.value, today) && NotAfter(today, r.end.value))
  {
    var ym := YearMonth(today.year, today.month);
    if preset == LastMonth || preset == Last3Months {
      var back := MonthsBack(ym, if preset == LastMonth then 1 else 2);
      if preset == LastMonth {
        assert MonthIndex(back) == MonthIndex(back);
      } else {
        NotAfterByMonthIndex(StartOfMonth(back), EndOfMonth(ym));
        NotAfterByMonthIndex(StartOfMonth(back), today);
      }
    }
  }

  /** "Last three months" begins on the first day of the month two months back. */
  lemma LastThreeMonthsStart(today: Date)
    requires today.Valid()
    ensures var s := ApplyPreset(Last3Months, today).value.start.value;
            MonthIndex(YearMonth(s.year, s.month)) == MonthIndex(YearMonth(today.year, today.month)) - 2 && s.day == 1
  {
  }
}
