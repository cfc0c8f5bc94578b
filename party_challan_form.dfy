/**
 * The party-challan form (frontend/src/components/AddPartyChallanModal.jsx):
 * collecting (item, process, quantity, rate) rows for a party challan,
 * validating the form and building the request.
 *
 * React state holds ids in two shapes: the numbers of a challan loaded for
 * editing, and the text a <select> produces. `Field` keeps them apart,
 * because the form compares them with `===`.
 */
module PartyChallanForm {
  import opened Common

  /** A select value: blank (""), a number from the server, or the text of an id typed in a <select>. */
  datatype Field = Blank | NumId(n: int) | TextId(n: int)

  /** JavaScript truthiness: "" and 0 are false; any non-empty text is true. */
  predicate Truthy(f: Field) { f.TextId? || (f.NumId? && f.n != 0) }

  /** `Number(f)`: the id, and 0 for "". */
  function NumberOf(f: Field): int { if f.Blank? then 0 else f.n }

  /** `Number(q)` of a quantity input: 0 for "". */
  function Qty(q: Option<real>): real { if q.Some? then q.value else 0.0 }

  /** A row of `form.items`, and the shape of `currentItem`. */
  datatype Row = Row(itemId: Field, processId: Field, quantity: Option<real>, rate: Option<real>)

  const EmptyRow := Row(Blank, Blank, None, None)

  // ---------------------------------------------------------------------
  // Adding a row.
  // ---------------------------------------------------------------------

  /** The same item with the same process, compared as ids. */
  predicate SamePair(a: Row, b: Row)
  {
    NumberOf(a.itemId) == NumberOf(b.itemId) && NumberOf(a.processId) == NumberOf(b.processId)
  }

  predicate HasPair(rows: seq<Row>, c: Row)
  {
    exists i :: 0 <= i < |rows| && SamePair(rows[i], c)
  }

  /** No (item, process) pair is on the form twice. */
  predicate PairsUnique(rows: seq<Row>)
  {
    forall i, j :: 0 <= i < j < |rows| ==> !SamePair(rows[i], rows[j])
  }

  datatype AddError = NoItem | BadQuantity | Duplicate

  /**
   * The guards of `handleAddItem`: an item, a positive quantity, and a pair
   * not already on the form.
   */
  function AddCheck(rows: seq<Row>, c: Row): (r: Option<AddError>)
    ensures r == Some(NoItem) <==> !Truthy(c.itemId)
    ensures r == Some(BadQuantity) <==> Truthy(c.itemId) && !(c.quantity.Some? && c.quantity.value > 0.0)
    ensures r.None? <==> Truthy(c.itemId) && c.quantity.Some? && c.quantity.value > 0.0 && !HasPair(rows, c)
  {
    if !Truthy(c.itemId) then Some(NoItem)
    else if c.quantity.None? || c.quantity.value <= 0.0 then Some(BadQuantity)
    else if HasPair(rows, c) then Some(Duplicate)
    else None
  }

  /** An accepted row never repeats a pair, so the pairs stay unique. */
  lemma AddKeepsPairsUnique(rows: seq<Row>, c: Row)
    requires PairsUnique(rows) && AddCheck(rows, c).None?
    ensures PairsUnique(rows + [c])
  {
    var s := rows + [c];
    forall i, j | 0 <= i < j < |s|
      ensures !SamePair(s[i], s[j])
    {
      if j == |rows| {
        assert s[i] == rows[i];
      }
    }
  }

  lemma RemoveKeepsPairsUnique(rows: seq<Row>, index: int)
    requires PairsUnique(rows) && 0 <= index < |rows|
    ensures PairsUnique(rows[..index] + rows[index + 1..])
  {
    var s := rows[..index] + rows[index + 1..];
    assert forall i :: 0 <= i < |s| ==> s[i] == (if i < index then rows[i] else rows[i + 1]);
  }

  /** The duplicate test as written: `item.item_id === currentItem.item_id && item.process_id === ...`. */
  predicate StrictPair(a: Row, b: Row)
  {
    a.itemId == b.itemId && a.processId == b.processId
  }

  function AddCheckAsWritten(rows: seq<Row>, c: Row): (r: Option<AddError>)
    ensures r.None? <==>
      Truthy(c.itemId) && c.quantity.Some? && c.quantity.value > 0.0
      && !(exists i :: 0 <= i < |rows| && StrictPair(rows[i], c))
  {
    if !Truthy(c.itemId) then Some(NoItem)
    else if c.quantity.None? || c.quantity.value <= 0.0 then Some(BadQuantity)
    else if exists i :: 0 <= i < |rows| && StrictPair(rows[i], c) then Some(Duplicate)
    else None
  }

  /** A value a <select> of this form produces: "" or the text of a database id (ids start at 1). */
  predicate Typed(f: Field) { f.Blank? || (f.TextId? && f.n > 0) }

  /** On rows typed into this form the strict test and the id test agree. */
  lemma AsWrittenAgreesOnTypedRows(rows: seq<Row>, c: Row)
    requires forall i :: 0 <= i < |rows| ==> Typed(rows[i].itemId) && Typed(rows[i].processId)
    requires Typed(c.itemId) && Typed(c.processId)
    ensures AddCheckAsWritten(rows, c) == AddCheck(rows, c)
  {
    forall i | 0 <= i < |rows|
      ensures StrictPair(rows[i], c) <==> SamePair(rows[i], c)
    {
      assert Typed(rows[i].itemId) && Typed(rows[i].processId);
    }
  }

  /**
   * Editing a challan loads item 5 (no process) as the number 5; choosing
   * item 5 in the select gives the text "5", so the strict test lets the
   * same pair in a second time.
   */
  lemma AsWrittenAddsLoadedPairAgain()
    ensures var loaded := Row(NumId(5), Blank, Some(10.0), None);
      var typed := Row(TextId(5), Blank, Some(3.0), None);
      AddCheckAsWritten([loaded], typed).None?
      && SamePair(loaded, typed) && !PairsUnique([loaded, typed])
      && AddCheck([loaded], typed) == Some(Duplicate)
  {
    var loaded := Row(NumId(5), Blank, Some(10.0), None);
    var typed := Row(TextId(5), Blank, Some(3.0), None);
    assert [loaded][0] == loaded;
    assert [loaded, typed][0] == loaded && [loaded, typed][1] == typed;
  }

  // ---------------------------------------------------------------------
  // Submitting.
  // ---------------------------------------------------------------------

  /** `!i.item_id || i.quantity_ordered <= 0` fails for the row ("" counts as 0). */
  predicate RowComplete(r: Row) { Truthy(r.itemId) && Qty(r.quantity) > 0.0 }

  predicate AllComplete(rows: seq<Row>)
  {
    forall i :: 0 <= i < |rows| ==> RowComplete(rows[i])
  }

  datatype PayloadLine = PayloadLine(itemId: int, processId: Option<int>, quantityOrdered: real, rate: Option<real>)

  datatype Payload = Payload(
    challanNumber: string, partyId: int, challanDate: int, workingDays: Option<int>,
    notes: string, items: seq<PayloadLine>)

  /** One request line: a blank process and a blank rate go as null. */
  function PayloadLineOf(r: Row): (p: PayloadLine)
    ensures p.itemId == NumberOf(r.itemId) && p.quantityOrdered == Qty(r.quantity)
    ensures p.processId.None? <==> !Truthy(r.processId)
    ensures p.processId.Some? ==> p.processId.value == NumberOf(r.processId)
    ensures p.rate == r.rate
  {
    PayloadLine(NumberOf(r.itemId), if Truthy(r.processId) then Some(NumberOf(r.processId)) else None,
      Qty(r.quantity), r.rate)
  }

  function PayloadLines(rows: seq<Row>): (r: seq<PayloadLine>)
    ensures |r| == |rows| && forall i :: 0 <= i < |rows| ==> r[i] == PayloadLineOf(rows[i])
  {
    if rows == [] then [] else [PayloadLineOf(rows[0])] + PayloadLines(rows[1..])
  }

  /**
   * `handleSubmit`: the number must not be blank after trimming, a party
   * must be chosen, there must be rows and each must be complete; the
   * request carries the trimmed number and `null` for blank working days.
   */
  function SubmitPayload(number: string, party: Field, date: int, workingDays: Option<int>, notes: string, rows: seq<Row>)
    : (r: Result<Payload>)
    ensures r.Ok? <==> Trim(number) != [] && Truthy(party) && rows != [] && AllComplete(rows)
    ensures r.Ok? ==>
      r.value.challanNumber == Trim(number) && IsTrimmed(r.value.challanNumber)
      && r.value.partyId == NumberOf(party) && r.value.workingDays == workingDays
      && r.value.challanDate == date && r.value.notes == notes
      && |r.value.items| == |rows|
      && forall i :: 0 <= i < |rows| ==> r.value.items[i] == PayloadLineOf(rows[i]) && r.value.items[i].quantityOrdered > 0.0
  {
    if Trim(number) == [] then Err(0, "Please enter challan number")
    else if !Truthy(party) then Err(0, "Please select a party")
    else if rows == [] then Err(0, "Please add at least one item")
    else if !AllComplete(rows) then Err(0, "Please fill all item details correctly")
    else Ok(Payload(Trim(number), NumberOf(party), date, workingDays, notes, PayloadLines(rows)))
  }

  // ---------------------------------------------------------------------
  // Stock and item choices.
  // ---------------------------------------------------------------------

  /** A row of the stock listing. */
  datatype StockEntry = StockEntry(itemId: int, currentStock: Option<real>)

  /** `stockMap[stock.item_id] = stock.current_stock || 0`, a later row overwriting an earlier one. */
  function StockMap(s: seq<StockEntry>): (r: map<int, real>)
    ensures StockKeys(s, r) && LastRowWins(s, r)
  {
    if s == [] then map[]
    else
      var init := StockMap(s[..|s| - 1]);
      StockMapStep(s, init);
      init[s[|s| - 1].itemId := Qty(s[|s| - 1].currentStock)]
  }

  /** The items in the map are exactly the items of the listing. */
  ghost predicate StockKeys(s: seq<StockEntry>, r: map<int, real>)
  {
    forall k :: k in r <==> exists i :: 0 <= i < |s| && s[i].itemId == k
  }

  /** An item's last row in the listing gives its stock. */
  ghost predicate LastRowWins(s: seq<StockEntry>, r: map<int, real>)
  {
    forall i :: 0 <= i < |s| && (forall j :: i < j < |s| ==> s[j].itemId != s[i].itemId) ==>
      s[i].itemId in r && r[s[i].itemId] == Qty(s[i].currentStock)
  }

  /** Writing the last row over the map of the earlier rows. */
  lemma StockMapStep(s: seq<StockEntry>, init: map<int, real>)
    requires s != [] && StockKeys(s[..|s| - 1], init) && LastRowWins(s[..|s| - 1], init)
    ensures var r := init[s[|s| - 1].itemId := Qty(s[|s| - 1].currentStock)];
      StockKeys(s, r) && LastRowWins(s, r)
  {
    StockKeysStep(s, init);
    LastRowWinsStep(s, init);
  }

  lemma StockKeysStep(s: seq<StockEntry>, init: map<int, real>)
    requires s != [] && StockKeys(s[..|s| - 1], init)
    ensures StockKeys(s, init[s[|s| - 1].itemId := Qty(s[|s| - 1].currentStock)])
  {
    assert forall i :: 0 <= i < |s| - 1 ==> s[..|s| - 1][i] == s[i];
  }

  lemma LastRowWinsStep(s: seq<StockEntry>, init: map<int, real>)
    requires s != [] && LastRowWins(s[..|s| - 1], init)
    ensures LastRowWins(s, init[s[|s| - 1].itemId := Qty(s[|s| - 1].currentStock)])
  {
    var front, last := s[..|s| - 1], s[|s| - 1];
    var r := init[last.itemId := Qty(last.currentStock)];
    forall i | 0 <= i < |s| && (forall j :: i < j < |s| ==> s[j].itemId != s[i].itemId)
      ensures s[i].itemId in r && r[s[i].itemId] == Qty(s[i].currentStock)
    {
      if i < |s| - 1 {
        assert last.itemId != s[i].itemId;
        assert front[i] == s[i];
        assert forall j :: i < j < |front| ==> front[j] == s[j];
      }
    }
  }

  /** `getAvailableQty`: an item without a stock row shows 0. */
  function AvailableQty(stock: map<int, real>, itemId: int): (r: real)
    ensures itemId !in stock ==> r == 0.0
    ensures itemId in stock ==> r == stock[itemId]
  {
    if itemId in stock then stock[itemId] else 0.0
  }

  /** An item of the catalogue with the party it belongs to. */
  datatype CatalogueItem = CatalogueItem(id: int, partyId: int, name: string)

  /** `getPartyItems`: the chosen party's items, and none before a party is chosen. */
  function PartyItems(items: seq<CatalogueItem>, party: Field): (r: seq<CatalogueItem>)
    ensures !Truthy(party) ==> r == []
    ensures Truthy(party) ==> forall x :: x in r <==> x in items && x.partyId == NumberOf(party)
  {
    if !Truthy(party) then [] else ItemsOfParty(items, NumberOf(party))
  }

  function ItemsOfParty(items: seq<CatalogueItem>, partyId: int): (r: seq<CatalogueItem>)
    ensures forall x :: x in r <==> x in items && x.partyId == partyId
  {
    if items == [] then []
    else
      var rest := ItemsOfParty(items[1..], partyId);
      assert forall x :: x in items <==> x == items[0] || x in items[1..];
      if items[0].partyId == partyId then [items[0]] + rest else rest
  }

  // ---------------------------------------------------------------------
  // The form state.
  // ---------------------------------------------------------------------

  class PartyChallanFormState {
    var challanNumber: string
    var partyId: Field
    var challanDate: int
    var workingDays: Option<int>
    var notes: string
    var items: seq<Row>
    var current: Row

    /** A new challan: no party, no rows. */
    constructor (today: int)
      ensures partyId == Blank && items == [] && current == EmptyRow && challanDate == today
    {
      challanNumber := "";
      partyId := Blank;
      challanDate := today;
      workingDays := None;
      notes := "";
      items := [];
      current := EmptyRow;
    }

    /** Editing: the stored rows come back with numeric ids, a missing process and rate as "". */
    constructor Edit(number: string, party: int, date: int, days: Option<int>, note: string, rows: seq<Row>)
      ensures challanNumber == number && partyId == NumId(party) && items == rows && current == EmptyRow
    {
      challanNumber := number;
      partyId := NumId(party);
      challanDate := date;
      workingDays := days;
      notes := note;
      items := rows;
      current := EmptyRow;
    }

    /** `handleAddItem`: an accepted row is appended and the inputs are cleared. */
    method AddItem() returns (r: Option<AddError>)
      modifies this
      ensures r == AddCheck(old(items), old(current))
      ensures r.Some? ==> items == old(items) && current == old(current)
      ensures r.None? ==> items == old(items) + [old(current)] && current == EmptyRow
      ensures PairsUnique(old(items)) ==> PairsUnique(items)
      ensures partyId == old(partyId) && challanNumber == old(challanNumber)
    {
      r := AddCheck(items, current);
      if r.Some? {
        return;
      }
      if PairsUnique(items) {
        AddKeepsPairsUnique(items, current);
      }
      items := items + [current];
      current := EmptyRow;
    }

    /** `removeItemRow`: only the row at the index goes. */
    method RemoveItemRow(index: int)
      modifies this
      ensures 0 <= index < |old(items)| ==> items == old(items)[..index] + old(items)[index + 1..]
      ensures !(0 <= index < |old(items)|) ==> items == old(items)
      ensures PairsUnique(old(items)) ==> PairsUnique(items)
      ensures current == old(current) && partyId == old(partyId) && challanNumber == old(challanNumber)
    {
      if 0 <= index < |items| {
        if PairsUnique(items) {
          RemoveKeepsPairsUnique(items, index);
        }
        items := items[..index] + items[index + 1..];
      }
    }

    method Submit() returns (r: Result<Payload>)
      ensures r == SubmitPayload(challanNumber, partyId, challanDate, workingDays, notes, items)
    {
      r := SubmitPayload(challanNumber, partyId, challanDate, workingDays, notes, items);
    }
  }
}
