/**
 * The invoice form (frontend/src/pages/InvoiceForm.jsx): picking pending
 * delivery-challan items of a party, billing OK + CR of each at its rate,
 * collecting the invoice lines and computing subtotal and GST.
 *
 * An empty input ("") is `None`; an id of 0 stands for "not chosen".
 * Money and quantities are `real` (the form divides by 100 and by 2).
 */
module InvoiceForm {
  import opened Common

  /** `Number(x) || 0` of a quantity that may be missing. */
  function Num(x: Option<real>): real { if x.Some? then x.value else 0.0 }

  /** One delivery-challan item not billed yet, as `getPendingChallanItems` lists it. */
  datatype PendingItem = PendingItem(
    itemId: int, itemName: string, challanId: int, challanNumber: string, dcItemId: int,
    quantity: real, rate: real, ok: Option<real>, cr: Option<real>, mr: Option<real>)

  /** `currentItem`: the line being put together. */
  datatype Current = Current(
    itemId: int, itemName: string, challanId: int, challanNumber: string, dcItemId: int,
    grnNo: string, quantity: Option<real>, billingQty: Option<real>,
    ok: Option<real>, cr: Option<real>, mr: Option<real>, rate: Option<real>, amount: Option<real>)

  const EmptyCurrent := Current(0, "", 0, "", 0, "", None, None, None, None, None, None, None)

  /** A line of `formData.items`. */
  datatype Line = Line(
    itemId: int, name: string, challanId: int, dcItemId: int, challanNumber: string, grnNo: string,
    ok: Option<real>, cr: Option<real>, mr: Option<real>, quantity: real, rate: real, amount: real)

  /** A line's amount: quantity × rate. */
  function Price(quantity: real, rate: real): real { quantity * rate }

  /** The current item is priced: once a challan item is chosen, amount = billing quantity × rate. */
  predicate Priced(c: Current)
  {
    c.dcItemId != 0 ==> c.billingQty.Some? && c.rate.Some? && c.amount == Some(Price(c.billingQty.value, c.rate.value))
  }

  // ---------------------------------------------------------------------
  // Picking an item and a challan.
  // ---------------------------------------------------------------------

  /** `pendingItems.find(...)` by item id: the first pending row of the item. */
  function FindByItem(pending: seq<PendingItem>, itemId: int): (r: Option<PendingItem>)
    ensures r.Some? ==> r.value in pending && r.value.itemId == itemId
    ensures r.None? ==> forall p :: p in pending ==> p.itemId != itemId
  {
    if pending == [] then None
    else if pending[0].itemId == itemId then Some(pending[0])
    else FindByItem(pending[1..], itemId)
  }

  /** `pendingItems.find(...)` by delivery-challan item id. */
  function FindByDcItem(pending: seq<PendingItem>, dcItemId: int): (r: Option<PendingItem>)
    ensures r.Some? ==> r.value in pending && r.value.dcItemId == dcItemId
    ensures r.None? ==> forall p :: p in pending ==> p.dcItemId != dcItemId
  {
    if pending == [] then None
    else if pending[0].dcItemId == dcItemId then Some(pending[0])
    else FindByDcItem(pending[1..], dcItemId)
  }

  /**
   * `handleItemSelect`: the item changes and the challan, quantities, rate
   * and amount are cleared; the GRN number and billing quantity are kept.
   */
  function ItemSelect(c: Current, pending: seq<PendingItem>, itemId: int): (r: Current)
    ensures r.itemId == itemId && r.dcItemId == 0 && r.challanId == 0
    ensures r.quantity.None? && r.rate.None? && r.amount.None?
    ensures r.grnNo == c.grnNo && r.billingQty == c.billingQty
    ensures Priced(r)
    ensures FindByItem(pending, itemId).None? ==> r.itemName == ""
  {
    var found := FindByItem(pending, itemId);
    c.(itemId := itemId, itemName := if found.Some? then found.value.itemName else "",
       challanId := 0, challanNumber := "", dcItemId := 0, quantity := None,
       ok := None, cr := None, mr := None, rate := None, amount := None)
  }

  /**
   * `handleChallanSelect`: a found pending row fills in the challan, bills
   * OK + CR (MR is shown but not billed) and prices the line at its rate; an
   * id that is not pending changes nothing.
   */
  function ChallanSelect(c: Current, pending: seq<PendingItem>, dcItemId: int): (r: Current)
    ensures FindByDcItem(pending, dcItemId).None? ==> r == c
    ensures FindByDcItem(pending, dcItemId).Some? ==>
      var p := FindByDcItem(pending, dcItemId).value;
      r.dcItemId == dcItemId && r.challanId == p.challanId && r.grnNo == ""
      && r.billingQty == Some(Num(p.ok) + Num(p.cr))
      && r.amount == Some(Price(Num(p.ok) + Num(p.cr), p.rate))
      && r.quantity == Some(p.quantity) && r.mr == p.mr
      && r.itemId == c.itemId && r.itemName == c.itemName
    ensures Priced(c) ==> Priced(r)
  {
    var found := FindByDcItem(pending, dcItemId);
    if found.None? then c
    else
      var p := found.value;
      var billQty := Num(p.ok) + Num(p.cr);
      c.(challanId := p.challanId, challanNumber := p.challanNumber, dcItemId := p.dcItemId,
         grnNo := "", quantity := Some(p.quantity), billingQty := Some(billQty),
         ok := p.ok, cr := p.cr, mr := p.mr, rate := Some(p.rate), amount := Some(Price(billQty, p.rate)))
  }

  /** The MR quantity of a pending row never changes what is billed for it. */
  lemma MrNotBilled(c: Current, p: PendingItem, mr: Option<real>)
    ensures ChallanSelect(c, [p], p.dcItemId).billingQty == ChallanSelect(c, [p.(mr := mr)], p.dcItemId).billingQty
    ensures ChallanSelect(c, [p], p.dcItemId).amount == ChallanSelect(c, [p.(mr := mr)], p.dcItemId).amount
  {
    assert FindByDcItem([p], p.dcItemId) == Some(p);
    assert FindByDcItem([p.(mr := mr)], p.dcItemId) == Some(p.(mr := mr));
  }

  // ---------------------------------------------------------------------
  // Adding a line.
  // ---------------------------------------------------------------------

  /** Why an add was refused. */
  datatype AddError = MissingFields | AlreadyAdded

  /** `formData.items.some(...)`: this delivery-challan item is already a line. */
  predicate AlreadyLine(items: seq<Line>, dcItemId: int)
  {
    exists i :: 0 <= i < |items| && items[i].dcItemId == dcItemId
  }

  /**
   * The guards of `handleAddItem`: item, challan item and a non-zero quantity
   * must be there and the rate must not be blank; then the challan item must
   * not already be on the invoice.
   */
  function AddCheck(items: seq<Line>, c: Current): (r: Option<AddError>)
    ensures r == Some(MissingFields) <==>
      c.itemId == 0 || c.dcItemId == 0 || Num(c.quantity) == 0.0 || c.rate.None?
    ensures r.None? <==>
      c.itemId != 0 && c.dcItemId != 0 && Num(c.quantity) != 0.0 && c.rate.Some?
      && !AlreadyLine(items, c.dcItemId)
  {
    if c.itemId == 0 || c.dcItemId == 0 || c.quantity.None? || c.quantity == Some(0.0) || c.rate.None? then
      Some(MissingFields)
    else if AlreadyLine(items, c.dcItemId) then Some(AlreadyAdded)
    else None
  }

  /** `newItem`: the invoice quantity is the billing quantity, not the challan total. */
  function NewLine(c: Current): (l: Line)
    ensures l.dcItemId == c.dcItemId && l.itemId == c.itemId
    ensures l.quantity == Num(c.billingQty)
    ensures Priced(c) && c.dcItemId != 0 ==> l.amount == Price(l.quantity, l.rate)
  {
    Line(c.itemId, c.itemName, c.challanId, c.dcItemId, c.challanNumber, c.grnNo,
         c.ok, c.cr, c.mr, Num(c.billingQty), Num(c.rate), Num(c.amount))
  }

  /** A pending row picked and then added becomes a line billing OK + CR at its rate. */
  lemma PickThenAdd(items: seq<Line>, c: Current, pending: seq<PendingItem>, dcItemId: int)
    requires FindByDcItem(pending, dcItemId).Some?
    requires AddCheck(items, ChallanSelect(c, pending, dcItemId)).None?
    ensures var p := FindByDcItem(pending, dcItemId).value;
      var l := NewLine(ChallanSelect(c, pending, dcItemId));
      l.quantity == Num(p.ok) + Num(p.cr) && l.rate == p.rate && l.amount == Price(l.quantity, p.rate)
      && l.dcItemId == dcItemId
  {
    var p := FindByDcItem(pending, dcItemId).value;
    var r := ChallanSelect(c, pending, dcItemId);
    assert r.rate == Some(p.rate);
  }

  /**
   * What adding and removing keep: every line is a distinct, chosen
   * delivery-challan item, priced at quantity × rate.
   */
  predicate LinesValid(items: seq<Line>)
  {
    (forall i, j :: 0 <= i < j < |items| ==> items[i].dcItemId != items[j].dcItemId)
    && (forall i :: 0 <= i < |items| ==> items[i].dcItemId != 0 && items[i].amount == Price(items[i].quantity, items[i].rate))
  }

  lemma AppendKeepsValid(items: seq<Line>, c: Current)
    requires LinesValid(items) && Priced(c)
    requires AddCheck(items, c).None?
    ensures LinesValid(items + [NewLine(c)])
  {
    var l := NewLine(c);
    var s := items + [l];
    forall i, j | 0 <= i < j < |s|
      ensures s[i].dcItemId != s[j].dcItemId
    {
      if j == |items| {
        assert s[i] == items[i];
      }
    }
  }

  lemma RemoveKeepsValid(items: seq<Line>, index: int)
    requires LinesValid(items) && 0 <= index < |items|
    ensures LinesValid(items[..index] + items[index + 1..])
  {
    var s := items[..index] + items[index + 1..];
    assert forall i :: 0 <= i < |s| ==> s[i] == (if i < index then items[i] else items[i + 1]);
  }

  // ---------------------------------------------------------------------
  // What the pickers offer.
  // ---------------------------------------------------------------------

  /** `added.delivery_challan_item_id && ... === ...`: a chosen challan item already on the invoice. */
  predicate Billed(items: seq<Line>, dcItemId: int)
  {
    exists i :: 0 <= i < |items| && items[i].dcItemId != 0 && items[i].dcItemId == dcItemId
  }

  /** `filteredPendingItems`: the pending rows not already on the invoice, in their order. */
  function FilteredPending(pending: seq<PendingItem>, items: seq<Line>): (r: seq<PendingItem>)
    ensures forall p :: p in r <==> p in pending && !Billed(items, p.dcItemId)
    ensures |r| <= |pending|
  {
    if pending == [] then []
    else
      var rest := FilteredPending(pending[1..], items);
      assert forall p :: p in pending <==> p == pending[0] || p in pending[1..];
      if Billed(items, pending[0].dcItemId) then rest else [pending[0]] + rest
  }

  function ItemIds(s: seq<PendingItem>): (r: seq<int>)
    ensures |r| == |s| && forall i :: 0 <= i < |s| ==> r[i] == s[i].itemId
  {
    if s == [] then [] else [s[0].itemId] + ItemIds(s[1..])
  }

  /** `uniqueItems`: for each item id, in the order first seen, its first pending row. */
  function UniqueItems(filtered: seq<PendingItem>): (r: seq<PendingItem>)
    ensures forall i, j :: 0 <= i < j < |r| ==> r[i].itemId != r[j].itemId
    ensures forall q :: q in r ==> q in filtered && FindByItem(filtered, q.itemId) == Some(q)
    ensures forall p :: p in filtered ==> exists q :: q in r && q.itemId == p.itemId
  {
    var ids := Distinct(ItemIds(filtered));
    var r := seq(|ids|, i requires 0 <= i < |ids| => FirstOf(filtered, ids[i]));
    forall p | p in filtered
      ensures exists q :: q in r && q.itemId == p.itemId
    {
      var k :| 0 <= k < |filtered| && filtered[k] == p;
      assert ItemIds(filtered)[k] == p.itemId;
      assert p.itemId in ids;
      var m :| 0 <= m < |ids| && ids[m] == p.itemId;
      assert r[m] in r;
    }
    r
  }

  /** The first pending row of an item known to be there. */
  function FirstOf(filtered: seq<PendingItem>, itemId: int): (q: PendingItem)
    requires itemId in ItemIds(filtered)
    ensures q in filtered && q.itemId == itemId && FindByItem(filtered, itemId) == Some(q)
  {
    if filtered[0].itemId == itemId then filtered[0]
    else
      assert itemId in ItemIds(filtered[1..]) by {
        var k :| 0 <= k < |filtered| && ItemIds(filtered)[k] == itemId;
        assert ItemIds(filtered[1..])[k - 1] == itemId;
      }
      FirstOf(filtered[1..], itemId)
  }

  /** `availableChallans`: the offered rows of the chosen item. */
  function AvailableChallans(filtered: seq<PendingItem>, itemId: int): (r: seq<PendingItem>)
    ensures forall p :: p in r <==> p in filtered && p.itemId == itemId
  {
    if filtered == [] then []
    else
      var rest := AvailableChallans(filtered[1..], itemId);
      assert forall p :: p in filtered <==> p == filtered[0] || p in filtered[1..];
      if filtered[0].itemId == itemId then [filtered[0]] + rest else rest
  }

  // ---------------------------------------------------------------------
  // Totals.
  // ---------------------------------------------------------------------

  function Amount(l: Line): real { l.amount }

  function QuantityTimesRate(l: Line): real { Price(l.quantity, l.rate) }

  datatype Totals = Totals(subtotal: real, gst: real, cgst: real, sgst: real, grandTotal: real)

  /** Subtotal = Σ amount; GST at `gstRate` percent, split evenly into CGST and SGST. */
  function TotalsOf(items: seq<Line>, gstRate: real): (t: Totals)
    ensures t.subtotal == RealSumBy(items, Amount)
    ensures t.cgst == t.sgst && t.cgst + t.sgst == t.gst
    ensures t.grandTotal == t.subtotal + t.cgst + t.sgst
    ensures t.subtotal >= 0.0 && gstRate >= 0.0 ==> t.gst >= 0.0
    ensures t.gst * 100.0 == t.subtotal * gstRate
  {
    var subtotal := RealSumBy(items, Amount);
    var gst := subtotal * (gstRate / 100.0);
    Totals(subtotal, gst, gst / 2.0, gst / 2.0, subtotal + gst)
  }

  /** On a valid form the subtotal is Σ billing quantity × rate. */
  lemma {:induction false} SubtotalIsBilledValue(items: seq<Line>)
    requires LinesValid(items)
    ensures RealSumBy(items, Amount) == RealSumBy(items, QuantityTimesRate)
  {
    if items != [] {
      var init := items[..|items| - 1];
      assert LinesValid(init) by {
        assert forall i :: 0 <= i < |init| ==> init[i] == items[i];
      }
      SubtotalIsBilledValue(init);
    }
  }

  /** Adding a line raises the subtotal by exactly its amount. */
  lemma SubtotalAppend(items: seq<Line>, l: Line)
    ensures RealSumBy(items + [l], Amount) == RealSumBy(items, Amount) + l.amount
  {
    assert (items + [l])[..|items|] == items;
  }

  // ---------------------------------------------------------------------
  // The default date.
  // ---------------------------------------------------------------------

  datatype FinancialYear = FinancialYear(startDate: int, endDate: int)

  /** In create mode, today's date moved into the active financial year. */
  function DefaultInvoiceDate(today: int, fy: Option<FinancialYear>): (r: int)
    ensures fy.None? ==> r == today
    ensures fy.Some? && fy.value.startDate <= fy.value.endDate ==> fy.value.startDate <= r <= fy.value.endDate
    ensures fy.Some? && fy.value.startDate <= today <= fy.value.endDate ==> r == today
    ensures r == today || (fy.Some? && (r == fy.value.startDate || r == fy.value.endDate))
  {
    if fy.None? then today
    else if today < fy.value.startDate then fy.value.startDate
    else if today > fy.value.endDate then fy.value.endDate
    else today
  }

  /** The saved GST rate, or 18 when none is saved. */
  function InitialGstRate(saved: Option<real>): (r: real)
    ensures saved.None? ==> r == 18.0
    ensures saved.Some? ==> r == saved.value
  {
    if saved.Some? then saved.value else 18.0
  }

  // ---------------------------------------------------------------------
  // Submission.
  // ---------------------------------------------------------------------

  datatype PayloadLine = PayloadLine(itemId: int, grnNo: string, dcItemId: int, quantity: real, rate: real)

  datatype Payload = Payload(partyId: int, invoiceDate: int, dueDate: Option<int>, notes: string, items: seq<PayloadLine>)

  function PayloadOf(l: Line): PayloadLine
  {
    PayloadLine(l.itemId, l.grnNo, l.dcItemId, l.quantity, l.rate)
  }

  // ---------------------------------------------------------------------
  // The form state.
  // ---------------------------------------------------------------------

  class InvoiceFormState {
    var partyId: int
    var invoiceDate: int
    var dueDate: Option<int>
    var notes: string
    var items: seq<Line>
    var current: Current
    /** `pendingItems` of the chosen party. */
    var pending: seq<PendingItem>
    var gstRate: real

    /** The lines are distinct priced challan items, and a chosen current item is priced. */
    ghost predicate Valid()
      reads this
    {
      LinesValid(items) && Priced(current)
    }

    /** A new invoice: today's date clamped into the active year, no party, no lines. */
    constructor (today: int, fy: Option<FinancialYear>, savedRate: Option<real>)
      ensures Valid()
      ensures invoiceDate == DefaultInvoiceDate(today, fy)
      ensures partyId == 0 && items == [] && pending == [] && current == EmptyCurrent
      ensures gstRate == InitialGstRate(savedRate)
    {
      partyId := 0;
      invoiceDate := DefaultInvoiceDate(today, fy);
      dueDate := None;
      notes := "";
      items := [];
      current := EmptyCurrent;
      pending := [];
      gstRate := InitialGstRate(savedRate);
    }

    /**
     * The party select: the lines are emptied and the pending list becomes
     * the new party's (`fetched`), or nothing when no party is chosen.
     */
    method SelectParty(party: int, fetched: seq<PendingItem>)
      requires Valid()
      modifies this
      ensures Valid()
      ensures partyId == party && items == []
      ensures pending == if party != 0 then fetched else []
      ensures current == old(current) && invoiceDate == old(invoiceDate) && gstRate == old(gstRate)
    {
      partyId := party;
      items := [];
      pending := if party != 0 then fetched else [];
    }

    method SelectItem(itemId: int)
      requires Valid()
      modifies this
      ensures Valid()
      ensures current == ItemSelect(old(current), pending, itemId)
      ensures items == old(items) && pending == old(pending) && partyId == old(partyId)
    {
      current := ItemSelect(current, pending, itemId);
    }

    method SelectChallan(dcItemId: int)
      requires Valid()
      modifies this
      ensures Valid()
      ensures current == ChallanSelect(old(current), pending, dcItemId)
      ensures items == old(items) && pending == old(pending) && partyId == old(partyId)
    {
      assert Priced(current);
      current := ChallanSelect(current, pending, dcItemId);
    }

    /** `handleAddItem`: on success one line is appended and the current item is cleared. */
    method AddItem() returns (r: Option<AddError>)
      requires Valid()
      modifies this
      ensures Valid()
      ensures r == AddCheck(old(items), old(current))
      ensures r.Some? ==> items == old(items) && current == old(current)
      ensures r.None? ==> items == old(items) + [NewLine(old(current))] && current == EmptyCurrent
      ensures r.None? ==> RealSumBy(items, Amount) == RealSumBy(old(items), Amount) + NewLine(old(current)).amount
      ensures pending == old(pending) && partyId == old(partyId)
    {
      r := AddCheck(items, current);
      if r.Some? {
        return;
      }
      assert Priced(current);
      AppendKeepsValid(items, current);
      SubtotalAppend(items, NewLine(current));
      items := items + [NewLine(current)];
      current := EmptyCurrent;
    }

    /** `handleRemoveItem`: only the line at the index goes; an index out of range changes nothing. */
    method RemoveItem(index: int)
      requires Valid()
      modifies this
      ensures Valid()
      ensures 0 <= index < |old(items)| ==> items == old(items)[..index] + old(items)[index + 1..]
      ensures !(0 <= index < |old(items)|) ==> items == old(items)
      ensures current == old(current) && pending == old(pending) && partyId == old(partyId)
    {
      if 0 <= index < |items| {
        RemoveKeepsValid(items, index);
        items := items[..index] + items[index + 1..];
      }
    }

    /** `handleSubmit`: a party and at least one line are required. */
    method Submit() returns (r: Result<Payload>)
      requires Valid()
      ensures partyId == 0 || items == [] <==> r.Err?
      ensures r.Ok? ==>
        r.value.partyId == partyId && r.value.invoiceDate == invoiceDate && r.value.dueDate == dueDate
        && r.value.notes == notes && |r.value.items| == |items|
        && forall i :: 0 <= i < |items| ==>
             r.value.items[i] == PayloadOf(items[i]) && r.value.items[i].dcItemId != 0
      ensures r.Ok? ==> forall i, j :: 0 <= i < j < |items| ==> r.value.items[i].dcItemId != r.value.items[j].dcItemId
    {
      if partyId == 0 {
        return Err(0, "Please select a party");
      }
      if items == [] {
        return Err(0, "Please add at least one item");
      }
      var lines := items;
      r := Ok(Payload(partyId, invoiceDate, dueDate, notes, seq(|lines|, i requires 0 <= i < |lines| => PayloadOf(lines[i]))));
    }
  }
}
