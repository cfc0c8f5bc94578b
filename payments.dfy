/**
 * Payments against invoices: creating a payment applies its allocations to
 * the invoices' paid amounts and statuses, deleting it reverses them, and
 * updating it touches only the payment's own fields.
 * Amounts are integer paise.
 */
module Payments {
  import opened Common

  datatype Invoice = Invoice(grandTotal: int, paidAmount: int, status: string, paymentStatus: Option<string>)

  datatype Allocation = Allocation(invoiceId: int, amount: int)

  /**
   * Payment fields. An update request may send null for any of them, though the
   * table declares all but the reference number and the notes NOT NULL.
   */
  datatype PaymentFields = PaymentFields(
    partyId: Option<int>, paymentDate: Option<int>, amount: Option<int>,
    paymentType: Option<string>, paymentMode: Option<string>,
    referenceNumber: Option<string>, notes: Option<string>)

  datatype Payment = Payment(companyId: int, fields: PaymentFields, allocations: seq<Allocation>)

  /** One field of an update request: left out of the request, or sent (possibly as null). */
  datatype Patch<T> = Unset | Sent(value: T)

  datatype PaymentUpdate = PaymentUpdate(
    partyId: Patch<Option<int>>, paymentDate: Patch<Option<int>>, amount: Patch<Option<int>>,
    paymentType: Patch<Option<string>>, paymentMode: Patch<Option<string>>,
    referenceNumber: Patch<Option<string>>, notes: Patch<Option<string>>)

  // ---------------------------------------------------------------------
  // One allocation, applied and reversed.
  // ---------------------------------------------------------------------

  /** Statuses after an allocation is added to the paid amount. */
  function Pay(inv: Invoice, amount: int): (r: Invoice)
    ensures r.grandTotal == inv.grandTotal && r.paidAmount == inv.paidAmount + amount
  {
    var paid := inv.paidAmount + amount;
    if paid >= inv.grandTotal then inv.(paidAmount := paid, paymentStatus := Some("PAID"), status := "PAID")
    else if paid > 0 then inv.(paidAmount := paid, paymentStatus := Some("PARTIAL"), status := "PARTIAL")
    else inv.(paidAmount := paid, paymentStatus := Some("PENDING"),
              status := if inv.status in ["PAID", "PARTIAL"] then "BILLED" else inv.status)
  }

  /** Paying settles the statuses: PAID exactly when fully paid, PARTIAL exactly when partly paid. */
  lemma PayStatus(inv: Invoice, amount: int)
    ensures var r := Pay(inv, amount);
            (r.paymentStatus == Some("PAID") <==> r.paidAmount >= r.grandTotal)
            && (r.status == "PAID" <==> r.paidAmount >= r.grandTotal)
            && (r.paymentStatus == Some("PARTIAL") <==> 0 < r.paidAmount < r.grandTotal)
            && (r.status == "PARTIAL" <==> 0 < r.paidAmount < r.grandTotal)
            && (r.paidAmount <= 0 && r.paidAmount < r.grandTotal ==>
                  r.paymentStatus == Some("PENDING") && r.status == (if inv.status in ["PAID", "PARTIAL"] then "BILLED" else inv.status))
  {
  }

  /** Statuses after an allocation is taken back; the paid amount never goes below zero. */
  function Unpay(inv: Invoice, amount: int): (r: Invoice)
    ensures r.grandTotal == inv.grandTotal
    ensures r.paidAmount == if inv.paidAmount - amount > 0 then inv.paidAmount - amount else 0
  {
    var paid := if inv.paidAmount - amount > 0 then inv.paidAmount - amount else 0;
    if paid >= inv.grandTotal then inv.(paidAmount := paid, paymentStatus := Some("PAID"), status := "PAID")
    else if paid > 0 then inv.(paidAmount := paid, paymentStatus := Some("PARTIAL"), status := "PARTIAL")
    else inv.(paidAmount := paid, paymentStatus := None, status := "BILLED")
  }

  lemma UnpayStatus(inv: Invoice, amount: int)
    ensures var r := Unpay(inv, amount);
            r.paidAmount >= 0
            && (r.status == "PAID" <==> r.paidAmount >= r.grandTotal)
            && (r.status == "PARTIAL" <==> 0 < r.paidAmount < r.grandTotal)
            && (r.paidAmount == 0 && r.grandTotal > 0 ==> r.paymentStatus == None && r.status == "BILLED")
  {
  }

  // ---------------------------------------------------------------------
  // A whole payment.
  // ---------------------------------------------------------------------

  /** The allocation records that are stored: those naming an existing invoice. */
  function Stored(invoices: map<int, Invoice>, allocs: seq<Allocation>): (r: seq<Allocation>)
    ensures forall a :: a in r <==> a in allocs && a.invoiceId in invoices
  {
    var known := (a: Allocation) => a.invoiceId in invoices;
    FilterKeeps(allocs, known);
    Filter(allocs, known)
  }

  /** Allocations are stored in request order: a later allocation lands after the earlier ones, or not at all. */
  lemma StoredInOrder(invoices: map<int, Invoice>, allocs: seq<Allocation>, a: Allocation)
    ensures Stored(invoices, []) == []
    ensures Stored(invoices, allocs + [a])
            == Stored(invoices, allocs) + (if a.invoiceId in invoices then [a] else [])
  {
    assert (allocs + [a])[..|allocs + [a]| - 1] == allocs;
  }

  function ApplyAllocations(invoices: map<int, Invoice>, allocs: seq<Allocation>): (r: map<int, Invoice>)
    ensures r.Keys == invoices.Keys
  {
    if allocs == [] then invoices
    else
      var before := ApplyAllocations(invoices, allocs[..|allocs| - 1]);
      var a := allocs[|allocs| - 1];
      if a.invoiceId in before then before[a.invoiceId := Pay(before[a.invoiceId], a.amount)] else before
  }

  function ReverseAllocations(invoices: map<int, Invoice>, allocs: seq<Allocation>): (r: map<int, Invoice>)
    ensures r.Keys == invoices.Keys
  {
    if allocs == [] then invoices
    else
      var before := ReverseAllocations(invoices, allocs[..|allocs| - 1]);
      var a := allocs[|allocs| - 1];
      if a.invoiceId in before then before[a.invoiceId := Unpay(before[a.invoiceId], a.amount)] else before
  }

  /** The total allocated to one invoice. */
  function AllocatedTo(allocs: seq<Allocation>, id: int): int
  {
    SumBy(allocs, (a: Allocation) => if a.invoiceId == id then a.amount else 0)
  }

  /** Creating a payment adds to each existing invoice exactly what was allocated to it, and nothing else. */
  lemma {:induction false} ApplyAddsAllocated(invoices: map<int, Invoice>, allocs: seq<Allocation>, id: int)
    requires id in invoices
    ensures ApplyAllocations(invoices, allocs)[id].paidAmount == invoices[id].paidAmount + AllocatedTo(allocs, id)
    ensures ApplyAllocations(invoices, allocs)[id].grandTotal == invoices[id].grandTotal
  {
    if allocs != [] {
      ApplyAddsAllocated(invoices, allocs[..|allocs| - 1], id);
    }
  }

  /** Allocations naming a missing invoice change nothing, so applying all of them equals applying the stored ones. */
  lemma {:induction false} ApplyIgnoresMissing(invoices: map<int, Invoice>, allocs: seq<Allocation>)
    ensures ApplyAllocations(invoices, allocs) == ApplyAllocations(invoices, Stored(invoices, allocs))
  {
    if allocs != [] {
      var init, last := allocs[..|allocs| - 1], allocs[|allocs| - 1];
      ApplyIgnoresMissing(invoices, init);
      var tail := if last.invoiceId in invoices then [last] else [];
      assert Stored(invoices, allocs) == Stored(invoices, init) + tail;
      if tail != [] {
        assert (Stored(invoices, init) + tail)[..|Stored(invoices, init) + tail| - 1] == Stored(invoices, init);
      } else {
        assert Stored(invoices, init) + tail == Stored(invoices, init);
      }
    }
  }

  /** Reversal subtracts each allocation; as long as enough was paid, the clamp at zero never bites. */
  lemma {:induction false} ReverseSubtracts(invoices: map<int, Invoice>, allocs: seq<Allocation>, id: int)
    requires id in invoices
    requires forall a :: a in allocs ==> a.amount >= 0
    requires invoices[id].paidAmount >= AllocatedTo(allocs, id)
    ensures ReverseAllocations(invoices, allocs)[id].paidAmount == invoices[id].paidAmount - AllocatedTo(allocs, id)
  {
    if allocs != [] {
      var init, last := allocs[..|allocs| - 1], allocs[|allocs| - 1];
      assert forall a :: a in init ==> a in allocs;
      ReverseSubtracts(invoices, init, id);
    }
  }

  lemma {:induction false} AllocatedNonNegative(allocs: seq<Allocation>, id: int)
    requires forall a :: a in allocs ==> a.amount >= 0
    ensures AllocatedTo(allocs, id) >= 0
  {
    SumByNonNegative(allocs, (a: Allocation) => if a.invoiceId == id then a.amount else 0);
  }

  /**
   * Creating a payment and then deleting it gives every invoice back its
   * previous paid amount, when paid amounts and allocations are non-negative.
   */
  lemma CreateThenDeleteRestoresPaid(invoices: map<int, Invoice>, allocs: seq<Allocation>, id: int)
    requires id in invoices && invoices[id].paidAmount >= 0
    requires forall a :: a in allocs ==> a.amount >= 0
    ensures ReverseAllocations(ApplyAllocations(invoices, allocs), Stored(invoices, allocs))[id].paidAmount
            == invoices[id].paidAmount
  {
    var stored := Stored(invoices, allocs);
    ApplyIgnoresMissing(invoices, allocs);
    ApplyAddsAllocated(invoices, stored, id);
    AllocatedNonNegative(stored, id);
    ReverseSubtracts(ApplyAllocations(invoices, stored), stored, id);
  }

  function ApplyPatch<T>(current: T, p: Patch<T>): T
  {
    if p.Sent? then p.value else current
  }

  /** Every field the request leaves out keeps its value; every field it sends takes the sent value. */
  function UpdatedFields(f: PaymentFields, u: PaymentUpdate): (r: PaymentFields)
    ensures u.partyId == Unset ==> r.partyId == f.partyId
    ensures u.partyId.Sent? ==> r.partyId == u.partyId.value
    ensures u.paymentDate == Unset ==> r.paymentDate == f.paymentDate
    ensures u.paymentDate.Sent? ==> r.paymentDate == u.paymentDate.value
    ensures u.amount == Unset ==> r.amount == f.amount
    ensures u.amount.Sent? ==> r.amount == u.amount.value
    ensures u.paymentType == Unset ==> r.paymentType == f.paymentType
    ensures u.paymentType.Sent? ==> r.paymentType == u.paymentType.value
    ensures u.paymentMode == Unset ==> r.paymentMode == f.paymentMode
    ensures u.paymentMode.Sent? ==> r.paymentMode == u.paymentMode.value
    ensures u.referenceNumber == Unset ==> r.referenceNumber == f.referenceNumber
    ensures u.referenceNumber.Sent? ==> r.referenceNumber == u.referenceNumber.value
    ensures u.notes == Unset ==> r.notes == f.notes
    ensures u.notes.Sent? ==> r.notes == u.notes.value
  {
    PaymentFields(
      ApplyPatch(f.partyId, u.partyId), ApplyPatch(f.paymentDate, u.paymentDate),
      ApplyPatch(f.amount, u.amount), ApplyPatch(f.paymentType, u.paymentType),
      ApplyPatch(f.paymentMode, u.paymentMode), ApplyPatch(f.referenceNumber, u.referenceNumber),
      ApplyPatch(f.notes, u.notes))
  }

  /**
   * The request sends null for a column the table declares NOT NULL (party, date,
   * amount, type, mode); the commit then fails and the row is left as it was.
   */
  predicate SendsNullForRequired(u: PaymentUpdate)
  {
    u.partyId == Sent(None) || u.paymentDate == Sent(None) || u.amount == Sent(None)
    || u.paymentType == Sent(None) || u.paymentMode == Sent(None)
  }

  /** The NOT NULL columns hold a value. */
  predicate RequiredPresent(f: PaymentFields)
  {
    f.partyId.Some? && f.paymentDate.Some? && f.amount.Some? && f.paymentType.Some? && f.paymentMode.Some?
  }

  /** An update the table accepts keeps every NOT NULL column filled. */
  lemma UpdateKeepsRequired(f: PaymentFields, u: PaymentUpdate)
    requires RequiredPresent(f) && !SendsNullForRequired(u)
    ensures RequiredPresent(UpdatedFields(f, u))
  {
  }

  /** An update that sends nothing leaves the payment as it was. */
  lemma EmptyUpdateChangesNothing(f: PaymentFields)
    ensures UpdatedFields(f, PaymentUpdate(Unset, Unset, Unset, Unset, Unset, Unset, Unset)) == f
  {
  }

  class PaymentBook {
    var invoices: map<int, Invoice>
    var payments: map<int, Payment>
    var nextId: int

    ghost predicate Valid() reads this
    {
      forall id :: id in payments ==> id < nextId && RequiredPresent(payments[id].fields)
    }

    constructor (invoices0: map<int, Invoice>)
      ensures Valid() && invoices == invoices0 && payments == map[]
    {
      invoices := invoices0;
      payments := map[];
      nextId := 1;
    }

    /** Record the payment, then apply each allocation whose invoice exists, in request order. */
    method CreatePayment(companyId: int, fields: PaymentFields, allocs: seq<Allocation>) returns (id: int)
      requires Valid() && RequiredPresent(fields)
      modifies this
      ensures Valid()
      ensures id !in old(payments)
      ensures payments == old(payments)[id := Payment(companyId, fields, Stored(old(invoices), allocs))]
      ensures invoices == ApplyAllocations(old(invoices), allocs)
    {
      id := nextId;
      nextId := nextId + 1;
      var stored: seq<Allocation> := [];
      var i := 0;
      while i < |allocs|
        invariant 0 <= i <= |allocs|
        invariant invoices == ApplyAllocations(old(invoices), allocs[..i])
        invariant invoices.Keys == old(invoices).Keys
        invariant stored == Stored(old(invoices), allocs[..i])
        invariant payments == old(payments) && nextId == id + 1 && id == old(nextId)
      {
        var a := allocs[i];
        assert allocs[..i + 1][..i] == allocs[..i];
        if a.invoiceId in invoices {
          stored := stored + [a];
          invoices := invoices[a.invoiceId := Pay(invoices[a.invoiceId], a.amount)];
        }
        i := i + 1;
      }
      assert allocs[..i] == allocs;
      payments := payments[id := Payment(companyId, fields, stored)];
    }

    /** 404 unless the payment exists in this company; otherwise reverse its allocations and remove it. */
    method DeletePayment(companyId: int, id: int) returns (r: Result<()>)
      requires Valid()
      modifies this
      ensures Valid()
      ensures r.Err? <==> id !in old(payments) || old(payments)[id].companyId != companyId
      ensures r.Err? ==> r.status == 404 && invoices == old(invoices) && payments == old(payments)
      ensures r.Ok? ==> invoices == ReverseAllocations(old(invoices), old(payments)[id].allocations)
      ensures r.Ok? ==> payments == old(payments) - {id}
    {
      if id !in payments || payments[id].companyId != companyId {
        return Err(404, "Payment not found");
      }
      var allocs := payments[id].allocations;
      var i := 0;
      while i < |allocs|
        invariant 0 <= i <= |allocs|
        invariant invoices == ReverseAllocations(old(invoices), allocs[..i])
        invariant payments == old(payments) && nextId == old(nextId)
      {
        var a := allocs[i];
        assert allocs[..i + 1][..i] == allocs[..i];
        if a.invoiceId in invoices {
          invoices := invoices[a.invoiceId := Unpay(invoices[a.invoiceId], a.amount)];
        }
        i := i + 1;
      }
      assert allocs[..i] == allocs;
      payments := payments - {id};
      r := Ok(());
    }

    /**
     * 404 unless the payment exists in this company; 500 with nothing stored when the
     * request nulls a NOT NULL column; otherwise set only the fields the request carries.
     */
    method UpdatePayment(companyId: int, id: int, u: PaymentUpdate) returns (r: Result<()>)
      requires Valid()
      modifies this`payments
      ensures Valid()
      ensures r.Err? <==> id !in old(payments) || old(payments)[id].companyId != companyId || SendsNullForRequired(u)
      ensures (id !in old(payments) || old(payments)[id].companyId != companyId) ==> r.Err? && r.status == 404
      ensures r.Err? ==> (r.status == 404 || r.status == 500) && payments == old(payments)
      ensures r.Ok? ==> payments == old(payments)[id := old(payments)[id].(fields := UpdatedFields(old(payments)[id].fields, u))]
    {
      if id !in payments || payments[id].companyId != companyId {
        return Err(404, "Payment not found");
      }
      if SendsNullForRequired(u) {
        return Err(500, "Internal Server Error");
      }
      var p := payments[id];
      UpdateKeepsRequired(p.fields, u);
      payments := payments[id := p.(fields := UpdatedFields(p.fields, u))];
      r := Ok(());
    }
  }
}
