/**
 * The delivery-challan form (frontend/src/components/AddDeliveryChallanModal.jsx):
 * picking a party-challan item, entering OK/CR/MR quantities against its
 * pending quantity, and collecting the lines of the outgoing challan.
 *
 * The React state is a class whose fields the handlers reassign. An empty
 * input ("") is `None`; ids are integers with 0 standing for "not chosen".
 */
module DeliveryChallanForm {
  import opened Common

  /** `Number(x || 0)` of a quantity input. */
  function Q(x: Option<int>): int { if x.Some? then x.value else 0 }

  /** An item of a party challan as the picker lists it. */
  datatype PcOption = PcOption(id: int, processId: Option<int>, processName: Option<string>, pendingQty: int)

  datatype ChallanOption = ChallanOption(id: int, number: string, items: seq<PcOption>)

  /** `currentItem`. */
  datatype Current = Current(
    itemId: int, challanId: int, challanItemId: Option<int>, processId: Option<int>,
    challanQty: int, pendingQty: int, ok: Option<int>, cr: Option<int>, mr: Option<int>, total: int)

  /** A line of `form.items`: the current item plus its challan number and process name. */
  datatype Row = Row(line: Current, challanNumber: string, processName: string)

  const EmptyCurrent := Current(0, 0, None, None, 0, 0, None, None, None, 0)

  /** What the edits keep true of the current item: the total is OK + CR + MR. */
  predicate TotalConsistent(c: Current) { c.total == Q(c.ok) + Q(c.cr) + Q(c.mr) }

  /** Σ total of the form rows already drawing on a party-challan item. */
  function UsedQty(rows: seq<Row>, pcItemId: int): int
  {
    if rows == [] then 0
    else
      var last := rows[|rows| - 1];
      UsedQty(rows[..|rows| - 1], pcItemId) + (if last.line.challanItemId == Some(pcItemId) then last.line.total else 0)
  }

  /** `getEffectivePending`: the server's pending minus what the form already uses, never below 0. */
  function EffectivePending(rows: seq<Row>, item: PcOption): (r: int)
    ensures r >= 0
    ensures r >= item.pendingQty - UsedQty(rows, item.id)
    ensures item.pendingQty - UsedQty(rows, item.id) >= 0 ==> r == item.pendingQty - UsedQty(rows, item.id)
  {
    var p := item.pendingQty - UsedQty(rows, item.id);
    if p > 0 then p else 0
  }

  /** A form without rows for the item leaves its server pending as it is (clamped at 0). */
  lemma {:induction false} EffectivePendingUnused(rows: seq<Row>, item: PcOption)
    requires forall i :: 0 <= i < |rows| ==> rows[i].line.challanItemId != Some(item.id)
    ensures EffectivePending(rows, item) == if item.pendingQty > 0 then item.pendingQty else 0
  {
    UnusedIsZero(rows, item.id);
  }

  lemma {:induction false} UnusedIsZero(rows: seq<Row>, pcItemId: int)
    requires forall i :: 0 <= i < |rows| ==> rows[i].line.challanItemId != Some(pcItemId)
    ensures UsedQty(rows, pcItemId) == 0
  {
    if rows != [] {
      UnusedIsZero(rows[..|rows| - 1], pcItemId);
    }
  }

  /**
   * Each row added for the item lowers its effective pending by the row's
   * total, down to 0; once the form already uses more than the server's
   * pending, a row with a non-negative total leaves it at 0.
   */
  lemma AddingUsesPending(rows: seq<Row>, row: Row, item: PcOption)
    requires row.line.challanItemId == Some(item.id)
    ensures UsedQty(rows + [row], item.id) == UsedQty(rows, item.id) + row.line.total
    ensures EffectivePending(rows + [row], item) == Max0(item.pendingQty - UsedQty(rows, item.id) - row.line.total)
    ensures item.pendingQty >= UsedQty(rows, item.id) ==>
              EffectivePending(rows + [row], item) == Max0(EffectivePending(rows, item) - row.line.total)
    ensures item.pendingQty < UsedQty(rows, item.id) && row.line.total >= 0 ==>
              EffectivePending(rows, item) == 0 && EffectivePending(rows + [row], item) == 0
  {
    assert (rows + [row])[..|rows|] == rows;
  }

  function Max0(x: int): int { if x > 0 then x else 0 }

  /** The first challan item with this id, with the challan it belongs to. */
  function FindPcItem(challans: seq<ChallanOption>, pcItemId: int): (r: Option<(ChallanOption, PcOption)>)
    ensures r.Some? ==> r.value.0 in challans && r.value.1 in r.value.0.items && r.value.1.id == pcItemId
    ensures r.None? ==> forall c, x :: c in challans && x in c.items ==> x.id != pcItemId
  {
    if challans == [] then None
    else
      var found := FindIn(challans[0].items, pcItemId);
      if found.Some? then Some((challans[0], found.value))
      else
        var rest := FindPcItem(challans[1..], pcItemId);
        assert forall c :: c in challans ==> c == challans[0] || c in challans[1..];
        rest
  }

  function FindIn(items: seq<PcOption>, pcItemId: int): (r: Option<PcOption>)
    ensures r.Some? ==> r.value in items && r.value.id == pcItemId
    ensures r.None? ==> forall x :: x in items ==> x.id != pcItemId
  {
    if items == [] then None
    else if items[0].id == pcItemId then Some(items[0])
    else FindIn(items[1..], pcItemId)
  }

  /** Which quantity input changed. */
  datatype QtyField = OkField | CrField | MrField

  /** `handleQtyChange`: store the input (an empty one as 0), then recompute the total. */
  function QtyChange(c: Current, field: QtyField, value: Option<int>): (r: Current)
    ensures TotalConsistent(r)
    ensures field == OkField ==> r.ok == Some(Q(value)) && r.cr == c.cr && r.mr == c.mr
    ensures field == CrField ==> r.cr == Some(Q(value)) && r.ok == c.ok && r.mr == c.mr
    ensures field == MrField ==> r.mr == Some(Q(value)) && r.ok == c.ok && r.cr == c.cr
    ensures r.(ok := c.ok, cr := c.cr, mr := c.mr, total := c.total) == c
  {
    var v := Some(Q(value));
    var n := match field
      case OkField => c.(ok := v)
      case CrField => c.(cr := v)
      case MrField => c.(mr := v);
    n.(total := Q(n.ok) + Q(n.cr) + Q(n.mr))
  }

  /** Why an add was refused. */
  datatype AddError = NothingSelected | NonPositiveTotal | ExceedsPending | AlreadyAdded

  /** `form.items.some(...)`: the party-challan item is already on the form. */
  predicate AlreadyOnForm(rows: seq<Row>, pcItemId: Option<int>)
  {
    exists i :: 0 <= i < |rows| && rows[i].line.challanItemId == pcItemId
  }

  /** The guards of `handleAddItem`, in their order. */
  function AddCheck(rows: seq<Row>, c: Current): (r: Option<AddError>)
    ensures r.None? <==>
      c.itemId != 0 && c.challanItemId.Some? && c.total > 0 && c.total <= c.pendingQty
      && !AlreadyOnForm(rows, c.challanItemId)
  {
    if c.itemId == 0 || c.challanItemId.None? then Some(NothingSelected)
    else if c.total <= 0 then Some(NonPositiveTotal)
    else if c.total > c.pendingQty then Some(ExceedsPending)
    else if AlreadyOnForm(rows, c.challanItemId) then Some(AlreadyAdded)
    else None
  }

  /** One request line: missing OK/CR/MR go as 0, the quantity is the total. */
  datatype PayloadLine = PayloadLine(challanItemId: int, ok: int, cr: int, mr: int, quantity: int)

  function PayloadOf(r: Row): (p: PayloadLine)
    requires r.line.challanItemId.Some?
    ensures p.ok == Q(r.line.ok) && p.cr == Q(r.line.cr) && p.mr == Q(r.line.mr)
    ensures TotalConsistent(r.line) ==> p.quantity == p.ok + p.cr + p.mr
  {
    PayloadLine(r.line.challanItemId.value, Q(r.line.ok), Q(r.line.cr), Q(r.line.mr), r.line.total)
  }

  datatype Payload = Payload(partyId: int, date: int, vehicleNumber: string, notes: string, items: seq<PayloadLine>)

  /**
   * Each party-challan item is on at most one row; every row has a
   * positive total, equal to OK + CR + MR and within the pending quantity
   * recorded when it was picked.
   */
  predicate RowsValid(rows: seq<Row>)
  {
    (forall i, j :: 0 <= i < j < |rows| ==> rows[i].line.challanItemId != rows[j].line.challanItemId)
    && (forall i :: 0 <= i < |rows| ==>
          rows[i].line.challanItemId.Some? && TotalConsistent(rows[i].line)
          && 0 < rows[i].line.total <= rows[i].line.pendingQty)
  }

  class DeliveryChallanForm {
    var partyId: int
    var date: int
    var vehicleNumber: string
    var notes: string
    var items: seq<Row>
    var current: Current
    /** `partyChallansByItem`: the open party challans offering the chosen item. */
    var challansByItem: seq<ChallanOption>

    /**
     * Each party-challan item is on at most one row; every row has a
     * positive total, equal to OK + CR + MR and within the pending
     * quantity recorded when it was picked.
     */
    ghost predicate Valid()
      reads this
    {
      RowsValid(items) && current.total == Q(current.ok) + Q(current.cr) + Q(current.mr)
    }

    constructor (today: int)
      ensures Valid()
      ensures items == [] && current == EmptyCurrent && partyId == 0 && date == today
    {
      partyId := 0;
      date := today;
      vehicleNumber := "";
      notes := "";
      items := [];
      current := EmptyCurrent;
      challansByItem := [];
    }

    /** `handlePartyChange`: the next challan number it fetches is display only. */
    method PartyChange(party: int)
      requires Valid()
      modifies this
      ensures Valid()
      ensures partyId == party
      ensures items == old(items) && current == old(current) && challansByItem == old(challansByItem)
    {
      partyId := party;
    }

    /**
     * `handleItemChange`: a new item clears the chosen party-challan item and
     * its limits; `fetched` is what `getPartyChallansByItem` returns, asked
     * only when a party and an item are chosen.
     */
    method ItemChange(itemId: int, fetched: seq<ChallanOption>)
      requires Valid()
      modifies this
      ensures Valid()
      ensures current == old(current).(itemId := itemId, challanItemId := None, challanQty := 0, pendingQty := 0)
      ensures challansByItem == (if partyId != 0 && itemId != 0 then fetched else [])
      ensures items == old(items) && partyId == old(partyId)
      ensures AddCheck(items, current) == Some(NothingSelected)
    {
      current := current.(itemId := itemId, challanItemId := None, challanQty := 0, pendingQty := 0);
      challansByItem := [];
      if partyId != 0 && itemId != 0 {
        challansByItem := fetched;
      }
    }

    /** `handleChallanItemChange`: the picked item's effective pending becomes the limit. */
    method ChallanItemChange(pcItemId: int)
      requires Valid()
      modifies this
      ensures Valid()
      ensures items == old(items) && challansByItem == old(challansByItem)
      ensures FindPcItem(challansByItem, pcItemId).None? ==> current == old(current)
      ensures FindPcItem(challansByItem, pcItemId).Some? ==>
        var (ch, x) := FindPcItem(challansByItem, pcItemId).value;
        current == old(current).(challanItemId := Some(pcItemId), challanId := ch.id, processId := x.processId,
          challanQty := EffectivePending(items, x), pendingQty := EffectivePending(items, x))
    {
      var found := FindPcItem(challansByItem, pcItemId);
      if found.Some? {
        var (ch, x) := found.value;
        var pending := EffectivePending(items, x);
        current := current.(challanItemId := Some(pcItemId), challanId := ch.id, processId := x.processId,
          challanQty := pending, pendingQty := pending);
      }
    }

    /** `handleQtyChange`. */
    method QtyInput(field: QtyField, value: Option<int>)
      requires Valid()
      modifies this
      ensures Valid()
      ensures current == QtyChange(old(current), field, value)
      ensures items == old(items) && challansByItem == old(challansByItem)
    {
      current := QtyChange(current, field, value);
    }

    /** `handleAddItem`. */
    method AddItem() returns (r: Option<AddError>)
      requires Valid()
      modifies this
      ensures Valid()
      ensures r == AddCheck(old(items), old(current))
      ensures r.Some? ==> items == old(items) && current == old(current) && challansByItem == old(challansByItem)
      ensures r.None? ==>
        |items| == |old(items)| + 1 && items[..|old(items)|] == old(items)
        && items[|old(items)|].line == old(current)
        && current == EmptyCurrent && challansByItem == []
    {
      r := AddCheck(items, current);
      if r.Some? {
        return;
      }
      var number := "";
      var process := "-";
      var found := FindPcItem(challansByItem, current.challanItemId.value);
      if found.Some? {
        number := found.value.0.number;
        process := if found.value.1.processName.Some? && found.value.1.processName.value != ""
          then found.value.1.processName.value else "-";
      }
      ghost var before := items;
      items := items + [Row(current, number, process)];
      assert forall i :: 0 <= i < |before| ==> before[i].line.challanItemId != current.challanItemId;
      current := EmptyCurrent;
      challansByItem := [];
    }

    /** `removeItemRow`: only the row at the index goes; an index out of range changes nothing. */
    method RemoveItemRow(index: int)
      requires Valid()
      modifies this
      ensures Valid()
      ensures 0 <= index < |old(items)| ==> items == old(items)[..index] + old(items)[index + 1..]
      ensures !(0 <= index < |old(items)|) ==> items == old(items)
      ensures current == old(current) && challansByItem == old(challansByItem)
    {
      if 0 <= index < |items| {
        ghost var before := items;
        items := items[..index] + items[index + 1..];
        assert forall i :: 0 <= i < |items| ==> items[i] == (if i < index then before[i] else before[i + 1]);
      }
    }

    /** `handleSubmit`: a party and at least one line are required. */
    method Submit() returns (r: Result<Payload>)
      requires Valid()
      ensures partyId == 0 ==> r.Err?
      ensures partyId != 0 && items == [] ==> r.Err?
      ensures r.Ok? ==>
        r.value.partyId == partyId && r.value.date == date
        && r.value.vehicleNumber == vehicleNumber && r.value.notes == notes
        && |r.value.items| == |items|
        && forall i :: 0 <= i < |items| ==>
             r.value.items[i] == PayloadOf(items[i])
             && r.value.items[i].quantity == r.value.items[i].ok + r.value.items[i].cr + r.value.items[i].mr
             && r.value.items[i].quantity > 0
      ensures partyId != 0 && items != [] ==> r.Ok?
    {
      if partyId == 0 {
        return Err(0, "Please select a party");
      }
      if items == [] {
        return Err(0, "Please add at least one item");
      }
      var rows := items;
      var lines := seq(|rows|, i requires 0 <= i < |rows| && rows[i].line.challanItemId.Some? => PayloadOf(rows[i]));
      r := Ok(Payload(partyId, date, vehicleNumber, notes, lines));
    }
  }
}
