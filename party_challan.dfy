/**
 * Party challans: the inward orders a party sends for job work, numbered
 * "PC-NNN" per company and financial year, with their item lines and the
 * delivery progress against them (backend/app/routers/party_challan.py).
 *
 * Quantities and rates are `real` because the router converts them with
 * `float`; dates are day numbers.
 */
module PartyChallans {
  import opened Common

  // ---------------------------------------------------------------------
  // Numbering
  // ---------------------------------------------------------------------

  const Prefix := "PC-"

  /** `f"PC-{n:03d}"`. */
  function FormatNumber(n: nat): string
  {
    Prefix + PadLeft(NatToString(n), 3, '0')
  }

  /**
   * Python `int(piece)` on a piece that cannot contain '-' (it came out of
   * `split("-")`): surrounding whitespace and one leading '+' are allowed,
   * then at least one decimal digit and nothing else.
   */
  function ParseInt(piece: string): (r: Option<nat>)
    ensures r.Some? <==>
      var t := Trim(piece);
      var body := if |t| > 0 && t[0] == '+' then t[1..] else t;
      body != [] && AllDigits(body)
  {
    var t := Trim(piece);
    var body := if |t| > 0 && t[0] == '+' then t[1..] else t;
    if body != [] && AllDigits(body) then Some(DigitsValue(body)) else None
  }

  /** The `try` block: the integer after the first '-', if there is one. */
  function NumberSuffix(number: string): Option<nat>
  {
    var parts := Split(number, '-');
    if |parts| < 2 then None else ParseInt(parts[1])
  }

  /** The integer the next number carries: one past the latest, or 1. */
  function NextSerial(latest: Option<string>): (n: nat)
    ensures n >= 1
  {
    if latest.Some? && latest.value != "" then
      match NumberSuffix(latest.value)
      case Some(last) => last + 1
      case None => 1
    else 1
  }

  /** `generate_party_challan_number` given the latest challan of the company and year. */
  function NextNumber(latest: Option<string>): (r: string)
    ensures exists n: nat :: n >= 1 && r == FormatNumber(n)
  {
    FormatNumber(NextSerial(latest))
  }

  lemma {:induction false} AllZerosValue(z: string)
    requires forall i :: 0 <= i < |z| ==> z[i] == '0'
    ensures AllDigits(z) && DigitsValue(z) == 0
  {
    if z != [] {
      AllZerosValue(z[..|z| - 1]);
    }
  }

  lemma {:induction false} LeadingZerosValue(z: string, s: string)
    requires forall i :: 0 <= i < |z| ==> z[i] == '0'
    requires AllDigits(s)
    ensures AllDigits(z + s) && DigitsValue(z + s) == DigitsValue(s)
  {
    if s == [] {
      assert z + s == z;
      AllZerosValue(z);
    } else {
      LeadingZerosValue(z, s[..|s| - 1]);
      assert (z + s)[..|z + s| - 1] == z + s[..|s| - 1];
    }
  }

  /** The digits of a generated number read back as the number itself. */
  lemma DigitsOfFormatted(n: nat)
    ensures var d := FormatNumber(n)[|Prefix|..];
      |d| >= 3 && d != [] && AllDigits(d) && DigitsValue(d) == n
  {
    var s := NatToString(n);
    var p := PadLeft(s, 3, '0');
    assert FormatNumber(n)[|Prefix|..] == p;
    NatToStringValue(n);
    PaddedValue(s);
  }

  /** Zero-padding keeps a digit string's value. */
  lemma PaddedValue(s: string)
    requires AllDigits(s)
    ensures var p := PadLeft(s, 3, '0'); |p| >= 3 && AllDigits(p) && DigitsValue(p) == DigitsValue(s)
  {
    var p := PadLeft(s, 3, '0');
    var z := p[..|p| - |s|];
    assert p == z + s;
    LeadingZerosValue(z, s);
  }

  /** A generated number is "PC-" then at least three digits whose value is n. */
  lemma FormatNumberShape(n: nat)
    ensures var r := FormatNumber(n);
      |r| >= 6 && r[..3] == "PC-" && AllDigits(r[3..]) && DigitsValue(r[3..]) == n
  {
    DigitsOfFormatted(n);
  }

  /** A digit string, with no sign and no padding, parses as its value. */
  lemma ParseDigits(d: string)
    requires d != [] && AllDigits(d)
    ensures ParseInt(d) == Some(DigitsValue(d))
  {
    assert IsTrimmed(d) by { assert IsDigit(d[0]) && IsDigit(d[|d| - 1]); }
    TrimOfTrimmed(d);
    assert d[0] != '+' by { assert IsDigit(d[0]); }
  }

  lemma SplitFormatted(n: nat)
    ensures Split(FormatNumber(n), '-') == ["PC", FormatNumber(n)[|Prefix|..]]
  {
    var d := FormatNumber(n)[|Prefix|..];
    DigitsOfFormatted(n);
    assert FormatNumber(n) == "PC" + ['-'] + d;
    assert '-' !in d by {
      forall i | 0 <= i < |d| ensures d[i] != '-' { assert IsDigit(d[i]); }
    }
    SplitNoSep(d, '-');
    SplitPrefix("PC", d, '-');
  }

  /** Reading back a generated number gives the integer it was generated from. */
  lemma NumberSuffixOfFormatted(n: nat)
    ensures NumberSuffix(FormatNumber(n)) == Some(n)
  {
    var d := FormatNumber(n)[|Prefix|..];
    DigitsOfFormatted(n);
    SplitFormatted(n);
    ParseDigits(d);
  }

  /** Numbering continues from the latest generated number: PC-007 is followed by PC-008. */
  lemma NextAfterGenerated(n: nat)
    ensures NextNumber(Some(FormatNumber(n))) == FormatNumber(n + 1)
  {
    NumberSuffixOfFormatted(n);
    NextNumberContinues(FormatNumber(n), n);
  }

  /** With no challan, an empty number, or no integer after the first '-', numbering restarts at PC-001. */
  lemma NextNumberRestarts(latest: Option<string>)
    requires latest.None? || latest.value == "" || NumberSuffix(latest.value).None?
    ensures NextNumber(latest) == "PC-001"
  {
    FirstNumber(NextSerial(latest));
  }

  lemma FirstNumber(n: nat)
    requires n == 1
    ensures FormatNumber(n) == "PC-001"
  {
    assert NatToString(n) == "1";
    assert PadLeft("1", 3, '0') == "001";
  }

  /** Otherwise the next number is the parsed integer plus one. */
  lemma NextNumberContinues(latest: string, last: nat)
    requires latest != "" && NumberSuffix(latest) == Some(last)
    ensures NextNumber(Some(latest)) == FormatNumber(last + 1)
  {
    assert NextSerial(Some(latest)) == last + 1;
  }

  // ---------------------------------------------------------------------
  // Stored rows and requests
  // ---------------------------------------------------------------------

  datatype PartyChallan = PartyChallan(
    id: int, companyId: int, fyId: int, partyId: int, number: string, date: int,
    workingDays: Option<int>, notes: Option<string>, status: string, isActive: bool)

  datatype PcItemRow = PcItemRow(
    id: int, challanId: int, itemId: int, processId: Option<int>,
    ordered: real, delivered: real, rate: Option<real>)

  /** One requested item line (`PartyChallanItemCreate`). */
  datatype ItemLine = ItemLine(itemId: int, processId: Option<int>, ordered: real, rate: Option<real>)

  datatype CreateRequest = CreateRequest(
    partyId: int, number: Option<string>, date: int, workingDays: Option<int>,
    notes: Option<string>, items: seq<ItemLine>)

  /** `PartyChallanUpdate`: every field optional, `None` meaning "leave as is". */
  datatype UpdateRequest = UpdateRequest(
    partyId: Option<int>, date: Option<int>, workingDays: Option<int>, notes: Option<string>,
    status: Option<string>, isActive: Option<bool>, items: Option<seq<ItemLine>>)

  predicate InScope(c: PartyChallan, companyId: int, fyId: int)
  {
    c.companyId == companyId && c.fyId == fyId
  }

  /** Ids strictly increase along the stored sequence (rows are appended with fresh ids). */
  predicate IdsIncreasing(cs: seq<PartyChallan>)
  {
    forall i, j :: 0 <= i < j < |cs| ==> cs[i].id < cs[j].id
  }

  /** The query `order_by(id desc).first()` for a company and year: the last match. */
  function Latest(cs: seq<PartyChallan>, companyId: int, fyId: int): (r: Option<PartyChallan>)
    ensures r.Some? ==> r.value in cs && InScope(r.value, companyId, fyId)
    ensures r.None? <==> forall c :: c in cs ==> !InScope(c, companyId, fyId)
  {
    if cs == [] then None
    else if InScope(cs[|cs| - 1], companyId, fyId) then Some(cs[|cs| - 1])
    else
      var r := Latest(cs[..|cs| - 1], companyId, fyId);
      assert forall c :: c in cs ==> c in cs[..|cs| - 1] || c == cs[|cs| - 1];
      r
  }

  /** With ids increasing, the latest challan has the largest id of its company and year. */
  lemma {:induction false} LatestHasLargestId(cs: seq<PartyChallan>, companyId: int, fyId: int)
    requires IdsIncreasing(cs)
    ensures var r := Latest(cs, companyId, fyId);
      r.Some? ==> forall c :: c in cs && InScope(c, companyId, fyId) ==> c.id <= r.value.id
  {
    if cs != [] && !InScope(cs[|cs| - 1], companyId, fyId) {
      LatestHasLargestId(cs[..|cs| - 1], companyId, fyId);
      assert forall c :: c in cs ==> c in cs[..|cs| - 1] || c == cs[|cs| - 1];
    }
  }

  /** The duplicate check of create: same number, party, company and year. */
  predicate NumberTaken(cs: seq<PartyChallan>, number: string, partyId: int, companyId: int, fyId: int)
  {
    exists i :: 0 <= i < |cs| && cs[i].number == number && cs[i].partyId == partyId && InScope(cs[i], companyId, fyId)
  }

  /** The number a create stores: the manual one when given (truthy), else the generated one. */
  function ChosenNumber(cs: seq<PartyChallan>, req: CreateRequest, companyId: int, fyId: int): (r: string)
    ensures req.number.Some? && req.number.value != "" ==> r == req.number.value
    ensures req.number.None? || req.number.value == "" ==>
      r == NextNumber(match Latest(cs, companyId, fyId) case Some(c) => Some(c.number) case None => None)
  {
    if req.number.Some? && req.number.value != "" then req.number.value
    else NextNumber(match Latest(cs, companyId, fyId) case Some(c) => Some(c.number) case None => None)
  }

  /** Applying an update's header fields: a supplied field replaces, a `None` field keeps. */
  function Patch(c: PartyChallan, u: UpdateRequest): (r: PartyChallan)
    ensures r.id == c.id && r.companyId == c.companyId && r.fyId == c.fyId && r.number == c.number
    ensures r.partyId == (if u.partyId.Some? then u.partyId.value else c.partyId)
    ensures r.date == (if u.date.Some? then u.date.value else c.date)
    ensures r.workingDays == (if u.workingDays.Some? then u.workingDays else c.workingDays)
    ensures r.notes == (if u.notes.Some? then u.notes else c.notes)
    ensures r.status == (if u.status.Some? then u.status.value else c.status)
    ensures r.isActive == (if u.isActive.Some? then u.isActive.value else c.isActive)
  {
    var c1 := if u.partyId.Some? then c.(partyId := u.partyId.value) else c;
    var c2 := if u.date.Some? then c1.(date := u.date.value) else c1;
    var c3 := if u.workingDays.Some? then c2.(workingDays := u.workingDays) else c2;
    var c4 := if u.notes.Some? then c3.(notes := u.notes) else c3;
    var c5 := if u.status.Some? then c4.(status := u.status.value) else c4;
    if u.isActive.Some? then c5.(isActive := u.isActive.value) else c5
  }

  /** An update that supplies nothing leaves the header as it was. */
  lemma PatchNothing(c: PartyChallan)
    ensures Patch(c, UpdateRequest(None, None, None, None, None, None, None)) == c
  {
  }

  /** Item rows of one challan, in stored order. */
  function ItemsOf(items: seq<PcItemRow>, challanId: int): (r: seq<PcItemRow>)
    ensures forall x :: x in r <==> x in items && x.challanId == challanId
  {
    if items == [] then []
    else
      var r := ItemsOf(items[..|items| - 1], challanId) + (if items[|items| - 1].challanId == challanId then [items[|items| - 1]] else []);
      assert forall x :: x in items <==> x in items[..|items| - 1] || x == items[|items| - 1];
      r
  }

  /** The item rows that do not belong to the challan (what the bulk delete keeps). */
  function WithoutChallan(items: seq<PcItemRow>, challanId: int): (r: seq<PcItemRow>)
    ensures forall x :: x in r <==> x in items && x.challanId != challanId
  {
    if items == [] then []
    else
      var r := WithoutChallan(items[..|items| - 1], challanId) + (if items[|items| - 1].challanId != challanId then [items[|items| - 1]] else []);
      assert forall x :: x in items <==> x in items[..|items| - 1] || x == items[|items| - 1];
      r
  }

  /** Index of the challan with this id belonging to this company (the 404 lookup). */
  function FindIndex(cs: seq<PartyChallan>, id: int, companyId: int): (r: Option<nat>)
    ensures r.Some? ==> r.value < |cs| && cs[r.value].id == id && cs[r.value].companyId == companyId
    ensures r.None? ==> forall i :: 0 <= i < |cs| ==> !(cs[i].id == id && cs[i].companyId == companyId)
  {
    if cs == [] then None
    else if cs[|cs| - 1].id == id && cs[|cs| - 1].companyId == companyId then Some(|cs| - 1)
    else FindIndex(cs[..|cs| - 1], id, companyId)
  }

  /** New item rows for a challan: one per requested line, in order, nothing delivered yet. */
  method NewItemRows(challanId: int, lines: seq<ItemLine>, firstId: int) returns (rows: seq<PcItemRow>)
    ensures |rows| == |lines| && RowsOfLines(rows, challanId, lines)
    ensures forall k :: 0 <= k < |lines| ==>
      rows[k] == PcItemRow(firstId + k, challanId, lines[k].itemId, lines[k].processId, lines[k].ordered, 0.0, lines[k].rate)
  {
    rows := [];
    var i := 0;
    while i < |lines|
      invariant 0 <= i <= |lines| && |rows| == i
      invariant forall k :: 0 <= k < i ==>
        rows[k] == PcItemRow(firstId + k, challanId, lines[k].itemId, lines[k].processId, lines[k].ordered, 0.0, lines[k].rate)
    {
      rows := rows + [PcItemRow(firstId + i, challanId, lines[i].itemId, lines[i].processId, lines[i].ordered, 0.0, lines[i].rate)];
      i := i + 1;
    }
  }

  // ---------------------------------------------------------------------
  // Delivery progress
  // ---------------------------------------------------------------------

  function TotalOrdered(s: seq<PcItemRow>): real
  {
    if s == [] then 0.0 else TotalOrdered(s[..|s| - 1]) + s[|s| - 1].ordered
  }

  function TotalDelivered(s: seq<PcItemRow>): real
  {
    if s == [] then 0.0 else TotalDelivered(s[..|s| - 1]) + s[|s| - 1].delivered
  }

  /** `(delivered / ordered * 100) if ordered > 0 else 0`. */
  function Percentage(delivered: real, ordered: real): real
  {
    if ordered > 0.0 then delivered / ordered * 100.0 else 0.0
  }

  datatype ItemProgress = ItemProgress(
    itemId: int, itemName: string, ordered: real, delivered: real, remaining: real, percentage: real)

  datatype Progress = Progress(
    challanId: int, number: string, totalItems: nat, items: seq<ItemProgress>, overall: real)

  /** When no line is over-delivered, every percentage lies in 0..100. */
  lemma PercentageBounds(delivered: real, ordered: real)
    requires 0.0 <= delivered <= ordered
    ensures 0.0 <= Percentage(delivered, ordered) <= 100.0
  {
    if ordered > 0.0 {
      assert delivered / ordered <= 1.0 by {
        assert delivered / ordered * ordered == delivered;
      }
    }
  }

  lemma {:induction false} TotalsBounds(s: seq<PcItemRow>)
    requires forall k :: 0 <= k < |s| ==> 0.0 <= s[k].delivered <= s[k].ordered
    ensures 0.0 <= TotalDelivered(s) <= TotalOrdered(s)
  {
    if s != [] {
      TotalsBounds(s[..|s| - 1]);
    }
  }

  /** The overall percentage of a challan without over-delivery lies in 0..100. */
  lemma OverallBounds(s: seq<PcItemRow>)
    requires forall k :: 0 <= k < |s| ==> 0.0 <= s[k].delivered <= s[k].ordered
    ensures 0.0 <= Percentage(TotalDelivered(s), TotalOrdered(s)) <= 100.0
  {
    TotalsBounds(s);
    PercentageBounds(TotalDelivered(s), TotalOrdered(s));
  }

  lemma {:induction false} TotalsEqual(s: seq<PcItemRow>)
    requires forall k :: 0 <= k < |s| ==> s[k].delivered == s[k].ordered
    ensures TotalDelivered(s) == TotalOrdered(s)
  {
    if s != [] {
      TotalsEqual(s[..|s| - 1]);
    }
  }

  /** A challan whose every line is fully delivered, with something ordered, shows 100%. */
  lemma FullyDeliveredIsHundred(s: seq<PcItemRow>)
    requires forall k :: 0 <= k < |s| ==> s[k].delivered == s[k].ordered
    requires TotalOrdered(s) > 0.0
    ensures Percentage(TotalDelivered(s), TotalOrdered(s)) == 100.0
  {
    TotalsEqual(s);
    var t := TotalOrdered(s);
    assert t / t == 1.0;
  }

  lemma {:induction false} NothingDelivered(s: seq<PcItemRow>)
    requires forall k :: 0 <= k < |s| ==> s[k].delivered == 0.0
    ensures TotalDelivered(s) == 0.0
  {
    if s != [] {
      NothingDelivered(s[..|s| - 1]);
    }
  }

  /** Freshly created or replaced lines have delivered nothing, so a challan starts at 0%. */
  lemma NothingDeliveredIsZero(s: seq<PcItemRow>)
    requires forall k :: 0 <= k < |s| ==> s[k].delivered == 0.0
    ensures Percentage(TotalDelivered(s), TotalOrdered(s)) == 0.0
  {
    NothingDelivered(s);
  }

  /** The progress loop over one challan's lines. */
  lemma TotalsSnoc(lines: seq<PcItemRow>, i: int)
    requires 0 <= i < |lines|
    ensures TotalOrdered(lines[..i + 1]) == TotalOrdered(lines[..i]) + lines[i].ordered
    ensures TotalDelivered(lines[..i + 1]) == TotalDelivered(lines[..i]) + lines[i].delivered
  {
    TakeSnoc(lines, i);
  }

  /** One row of the progress table: the line's figures under its item's name, "Unknown" when unnamed. */
  function ProgressOf(line: PcItemRow, itemNames: map<int, string>): ItemProgress
  {
    ItemProgress(line.itemId, if line.itemId in itemNames then itemNames[line.itemId] else "Unknown",
                 line.ordered, line.delivered, line.ordered - line.delivered, Percentage(line.delivered, line.ordered))
  }

  method ItemsProgress(lines: seq<PcItemRow>, itemNames: map<int, string>) returns (rows: seq<ItemProgress>, overall: real)
    ensures |rows| == |lines|
    ensures forall k :: 0 <= k < |lines| ==> rows[k] == ProgressOf(lines[k], itemNames)
    ensures overall == Percentage(TotalDelivered(lines), TotalOrdered(lines))
  {
    rows := [];
    var totalOrdered := 0.0;
    var totalDelivered := 0.0;
    var i := 0;
    while i < |lines|
      invariant 0 <= i <= |lines| && |rows| == i
      invariant totalOrdered == TotalOrdered(lines[..i]) && totalDelivered == TotalDelivered(lines[..i])
      invariant forall k :: 0 <= k < i ==> rows[k] == ProgressOf(lines[k], itemNames)
    {
      var ordered := lines[i].ordered;
      var delivered := lines[i].delivered;
      var remaining := ordered - delivered;
      TotalsSnoc(lines, i);
      totalOrdered := totalOrdered + ordered;
      totalDelivered := totalDelivered + delivered;
      var name := if lines[i].itemId in itemNames then itemNames[lines[i].itemId] else "Unknown";
      var row := ItemProgress(lines[i].itemId, name, ordered, delivered, remaining, Percentage(delivered, ordered));
      assert row == ProgressOf(lines[i], itemNames);
      SnocIndex(rows, row);
      rows := rows + [row];
      i := i + 1;
    }
    assert lines[..|lines|] == lines;
    overall := Percentage(totalDelivered, totalOrdered);
  }

  // ---------------------------------------------------------------------
  // The stored challans and the router operations on them
  // ---------------------------------------------------------------------

  /** One row per line of challan `id`, in the lines' order, with nothing delivered yet. */
  ghost predicate RowsOfLines(rows: seq<PcItemRow>, id: int, lines: seq<ItemLine>)
  {
    |rows| == |lines|
    && forall k :: 0 <= k < |lines| ==>
         rows[k].challanId == id && rows[k].itemId == lines[k].itemId && rows[k].processId == lines[k].processId
         && rows[k].ordered == lines[k].ordered && rows[k].delivered == 0.0 && rows[k].rate == lines[k].rate
  }

  /** The rows `before` kept in order, then fresh rows of challan `id` for `lines`. */
  ghost predicate ItemsAppended(before: seq<PcItemRow>, after: seq<PcItemRow>, id: int, lines: seq<ItemLine>)
  {
    |before| <= |after| && after[..|before|] == before && RowsOfLines(after[|before|..], id, lines)
  }

  /**
   * The rows of challan `id` in `before` replaced: the other rows kept in
   * order, then fresh rows for `lines`, which are all the challan's rows.
   */
  ghost predicate ItemsReplaced(before: seq<PcItemRow>, after: seq<PcItemRow>, id: int, lines: seq<ItemLine>)
  {
    var kept := WithoutChallan(before, id);
    ItemsAppended(kept, after, id, lines) && ItemsOf(after, id) == after[|kept|..]
  }

  class PartyChallanStore {
    var challans: seq<PartyChallan>
    var items: seq<PcItemRow>
    /** `party_challan_id` of every stored delivery challan. */
    var deliveryLinks: seq<int>
    /** `party_challan_item_id` of every stored delivery-challan line (a foreign key without `ondelete`). */
    var deliveryItemRefs: seq<int>
    var nextId: int
    var nextItemId: int

    ghost predicate Valid()
      reads this
    {
      IdsIncreasing(challans)
      && (forall i :: 0 <= i < |challans| ==> challans[i].id < nextId)
      && ItemsReferToChallans(items, challans)
    }

    constructor ()
      ensures Valid() && challans == [] && items == [] && deliveryLinks == [] && deliveryItemRefs == []
    {
      challans := [];
      items := [];
      deliveryLinks := [];
      deliveryItemRefs := [];
      nextId := 1;
      nextItemId := 1;
    }

    /** `create_party_challan` for the caller's company and active year. */
    method Create(companyId: int, fyId: int, req: CreateRequest) returns (r: Result<int>)
      requires Valid()
      modifies this
      ensures Valid()
      ensures unchanged(this`deliveryLinks) && unchanged(this`deliveryItemRefs)
      ensures (req.number.Some? && req.number.value != ""
        && NumberTaken(old(challans), req.number.value, req.partyId, companyId, fyId)) ==>
        r.Err? && r.status == 400 && challans == old(challans) && items == old(items)
      ensures r.Ok? ==>
        !(req.number.Some? && req.number.value != ""
          && NumberTaken(old(challans), req.number.value, req.partyId, companyId, fyId))
        && challans == old(challans) + [PartyChallan(r.value, companyId, fyId, req.partyId,
             ChosenNumber(old(challans), req, companyId, fyId), req.date, req.workingDays, req.notes, "open", true)]
        && ItemsAppended(old(items), items, r.value, req.items)
      ensures (req.number.None? || req.number.value == ""
               || !NumberTaken(old(challans), req.number.value, req.partyId, companyId, fyId)) ==> r.Ok?
    {
      if req.number.Some? && req.number.value != "" {
        if NumberTaken(challans, req.number.value, req.partyId, companyId, fyId) {
          r := Err(400, "Challan number '" + req.number.value + "' already exists for this party in this financial year");
          return;
        }
      }
      var number := ChosenNumber(challans, req, companyId, fyId);
      var id := nextId;
      var c := PartyChallan(id, companyId, fyId, req.partyId, number, req.date, req.workingDays, req.notes, "open", true);
      var rows := NewItemRows(id, req.items, nextItemId);
      AppendKeepsIds(challans, c, nextId);
      AppendedShape(items, rows, id, req.items);
      challans := challans + [c];
      items := items + rows;
      nextId := nextId + 1;
      nextItemId := nextItemId + |rows|;
      r := Ok(id);
      RefsAppend(old(items), rows, old(challans), c);
    }

    /** `update_party_challan`. */
    method Update(id: int, companyId: int, u: UpdateRequest) returns (r: Result<PartyChallan>)
      requires Valid()
      modifies this
      ensures Valid()
      ensures unchanged(this`deliveryLinks) && unchanged(this`deliveryItemRefs)
      ensures FindIndex(old(challans), id, companyId).None? ==>
        r.Err? && r.status == 404 && challans == old(challans) && items == old(items)
      ensures FindIndex(old(challans), id, companyId).Some? && u.items.Some?
              && ItemsReferenced(old(items), id, deliveryItemRefs) ==>
        r.Err? && r.status == 500 && challans == old(challans) && items == old(items)
      ensures FindIndex(old(challans), id, companyId).Some?
              && !(u.items.Some? && ItemsReferenced(old(items), id, deliveryItemRefs)) ==>
        var i := FindIndex(old(challans), id, companyId).value;
        r.Ok? && r.value == Patch(old(challans)[i], u)
        && challans == old(challans)[i := r.value]
        && (u.items.None? ==> items == old(items))
        && (u.items.Some? ==> ItemsReplaced(old(items), items, id, u.items.value))
    {
      var found := FindIndex(challans, id, companyId);
      if found.None? {
        r := Err(404, "Party Challan not found");
        return;
      }
      if u.items.Some? && ItemsReferenced(items, id, deliveryItemRefs) {
        // The bulk delete of the old lines violates the delivery lines' foreign key; the transaction rolls back.
        r := Err(500, "Internal Server Error");
        return;
      }
      var i := found.value;
      var patched := Patch(challans[i], u);
      challans := challans[i := patched];
      RefsSameIds(items, old(challans), challans);
      if u.items.Some? {
        ReplaceItems(id, u.items.value, i);
      }
      r := Ok(patched);
    }

    /** The item lines of challan `id` replaced by new rows for `lines`, as `update_party_challan` does. */
    method ReplaceItems(id: int, lines: seq<ItemLine>, ghost i: nat)
      requires Valid() && i < |challans| && challans[i].id == id
      modifies this`items, this`nextItemId
      ensures Valid()
      ensures ItemsReplaced(old(items), items, id, lines)
    {
      var kept := WithoutChallan(items, id);
      var rows := NewItemRows(id, lines, nextItemId);
      ReplacedRows(items, rows, challans, id);
      ReplacedShape(items, rows, id, lines);
      items := kept + rows;
      nextItemId := nextItemId + |rows|;
    }

    /** `delete_party_challan`. */
    method Delete(id: int, companyId: int) returns (r: Result<()>)
      requires Valid()
      modifies this
      ensures Valid()
      ensures unchanged(this`deliveryLinks) && unchanged(this`deliveryItemRefs)
      ensures FindIndex(old(challans), id, companyId).None? ==>
        r.Err? && r.status == 404 && challans == old(challans) && items == old(items)
      ensures FindIndex(old(challans), id, companyId).Some? && id in deliveryLinks ==>
        r.Err? && r.status == 400 && challans == old(challans) && items == old(items)
      ensures FindIndex(old(challans), id, companyId).Some? && id !in deliveryLinks
              && ItemsReferenced(old(items), id, deliveryItemRefs) ==>
        r.Err? && r.status == 500 && challans == old(challans) && items == old(items)
      ensures FindIndex(old(challans), id, companyId).Some? && id !in deliveryLinks
              && !ItemsReferenced(old(items), id, deliveryItemRefs) ==>
        var i := FindIndex(old(challans), id, companyId).value;
        r.Ok? && challans == old(challans)[..i] + old(challans)[i + 1..]
        && items == WithoutChallan(old(items), id)
    {
      var found := FindIndex(challans, id, companyId);
      if found.None? {
        r := Err(404, "Party Challan not found");
        return;
      }
      var linked := CountLinks(deliveryLinks, id);
      if linked > 0 {
        r := Err(400, "Cannot delete. " + NatToString(linked) + " delivery challan(s) are linked to this party challan.");
        return;
      }
      if ItemsReferenced(items, id, deliveryItemRefs) {
        // Delivery lines of another (or no) header still point at these lines: the foreign key refuses the delete.
        r := Err(500, "Internal Server Error");
        return;
      }
      var i := found.value;
      ghost var before := challans;
      items := WithoutChallan(items, id);
      challans := challans[..i] + challans[i + 1..];
      r := Ok(());
      RefsSubset(old(items), items, before);
      RefsRemove(items, before, i);
    }

    /** `get_delivery_progress`. */
    method DeliveryProgress(id: int, companyId: int, itemNames: map<int, string>) returns (r: Result<Progress>)
      ensures FindIndex(challans, id, companyId).None? ==> r.Err? && r.status == 404
      ensures FindIndex(challans, id, companyId).Some? ==>
        var c := challans[FindIndex(challans, id, companyId).value];
        var lines := ItemsOf(items, id);
        r.Ok? && r.value.challanId == id && r.value.number == c.number
        && r.value.totalItems == |lines| && |r.value.items| == |lines|
        && (forall k :: 0 <= k < |lines| ==>
              var row := r.value.items[k];
              row.itemId == lines[k].itemId
              && row.itemName == (if lines[k].itemId in itemNames then itemNames[lines[k].itemId] else "Unknown")
              && row.ordered == lines[k].ordered && row.delivered == lines[k].delivered
              && row.remaining == lines[k].ordered - lines[k].delivered
              && row.percentage == Percentage(lines[k].delivered, lines[k].ordered))
        && r.value.overall == Percentage(TotalDelivered(lines), TotalOrdered(lines))
    {
      var found := FindIndex(challans, id, companyId);
      if found.None? {
        r := Err(404, "Party Challan not found");
        return;
      }
      var c := challans[found.value];
      var lines := ItemsOf(items, id);
      var rows, overall := ItemsProgress(lines, itemNames);
      r := Ok(Progress(c.id, c.number, |lines|, rows, overall));
    }
  }

  /** Some line of challan `id` is still the party-challan item of a stored delivery-challan line. */
  predicate ItemsReferenced(items: seq<PcItemRow>, id: int, refs: seq<int>)
  {
    exists x :: x in items && x.challanId == id && x.id in refs
  }

  predicate HasChallan(cs: seq<PartyChallan>, id: int)
  {
    exists i :: 0 <= i < |cs| && cs[i].id == id
  }

  /** Every item row belongs to a stored challan. */
  predicate ItemsReferToChallans(items: seq<PcItemRow>, cs: seq<PartyChallan>)
  {
    forall x :: x in items ==> HasChallan(cs, x.challanId)
  }

  /** A challan numbered with the next id keeps the ids increasing and below the next one. */
  lemma AppendKeepsIds(cs: seq<PartyChallan>, c: PartyChallan, nextId: int)
    requires IdsIncreasing(cs) && (forall i :: 0 <= i < |cs| ==> cs[i].id < nextId) && c.id == nextId
    ensures IdsIncreasing(cs + [c]) && forall i :: 0 <= i < |cs| + 1 ==> (cs + [c])[i].id < nextId + 1
  {
    assert forall i :: 0 <= i < |cs| ==> (cs + [c])[i] == cs[i];
  }

  lemma RefsAppend(items: seq<PcItemRow>, rows: seq<PcItemRow>, cs: seq<PartyChallan>, c: PartyChallan)
    requires ItemsReferToChallans(items, cs)
    requires forall k :: 0 <= k < |rows| ==> rows[k].challanId == c.id
    ensures ItemsReferToChallans(items + rows, cs + [c])
  {
    forall x | x in items + rows
      ensures HasChallan(cs + [c], x.challanId)
    {
      if x in items {
        var i :| 0 <= i < |cs| && cs[i].id == x.challanId;
        assert (cs + [c])[i] == cs[i];
      } else {
        assert (cs + [c])[|cs|] == c;
      }
    }
  }

  /** New rows of a stored challan in place of its old ones keep every row pointing at a stored challan. */
  lemma ReplacedRows(items: seq<PcItemRow>, rows: seq<PcItemRow>, cs: seq<PartyChallan>, id: int)
    requires ItemsReferToChallans(items, cs) && HasChallan(cs, id)
    requires forall k :: 0 <= k < |rows| ==> rows[k].challanId == id
    ensures ItemsReferToChallans(WithoutChallan(items, id) + rows, cs)
  {
    var kept := WithoutChallan(items, id);
    forall x | x in kept + rows
      ensures HasChallan(cs, x.challanId)
    {
      if x in kept {
        assert x in items;
      } else {
        var k :| 0 <= k < |rows| && rows[k] == x;
      }
    }
  }

  lemma RefsSameIds(items: seq<PcItemRow>, cs: seq<PartyChallan>, cs2: seq<PartyChallan>)
    requires ItemsReferToChallans(items, cs)
    requires |cs| == |cs2| && forall i :: 0 <= i < |cs| ==> cs[i].id == cs2[i].id
    ensures ItemsReferToChallans(items, cs2)
  {
    forall x | x in items
      ensures HasChallan(cs2, x.challanId)
    {
      var i :| 0 <= i < |cs| && cs[i].id == x.challanId;
      assert cs2[i].id == x.challanId;
    }
  }

  lemma RefsSubset(items: seq<PcItemRow>, sub: seq<PcItemRow>, cs: seq<PartyChallan>)
    requires ItemsReferToChallans(items, cs)
    requires forall x :: x in sub ==> x in items
    ensures ItemsReferToChallans(sub, cs)
  {
  }

  lemma RefsRemove(items: seq<PcItemRow>, cs: seq<PartyChallan>, i: nat)
    requires ItemsReferToChallans(items, cs)
    requires i < |cs|
    requires forall x :: x in items ==> x.challanId != cs[i].id
    ensures ItemsReferToChallans(items, cs[..i] + cs[i + 1..])
  {
    var rest := cs[..i] + cs[i + 1..];
    forall x | x in items
      ensures HasChallan(rest, x.challanId)
    {
      var j :| 0 <= j < |cs| && cs[j].id == x.challanId;
      if j < i {
        assert rest[j] == cs[j];
      } else {
        assert rest[j - 1] == cs[j];
      }
    }
  }

  /** The `count()` of delivery challans linked to a party challan. */
  method CountLinks(links: seq<int>, id: int) returns (n: nat)
    ensures n > 0 <==> id in links
  {
    n := 0;
    var i := 0;
    while i < |links|
      invariant 0 <= i <= |links|
      invariant n > 0 <==> id in links[..i]
    {
      assert links[..i + 1] == links[..i] + [links[i]];
      if links[i] == id {
        n := n + 1;
      }
      i := i + 1;
    }
    assert links[..|links|] == links;
  }

  /** After replacing a challan's lines, its lines are exactly the new rows. */
  /** The kept rows followed by the new rows of `lines` are the rows of challan `id` replaced. */
  lemma ReplacedShape(before: seq<PcItemRow>, rows: seq<PcItemRow>, id: int, lines: seq<ItemLine>)
    requires RowsOfLines(rows, id, lines)
    ensures ItemsReplaced(before, WithoutChallan(before, id) + rows, id, lines)
  {
    var kept := WithoutChallan(before, id);
    ItemsOfReplaced(kept, rows, id);
    AppendedShape(kept, rows, id, lines);
  }

  lemma AppendedShape(before: seq<PcItemRow>, rows: seq<PcItemRow>, id: int, lines: seq<ItemLine>)
    requires RowsOfLines(rows, id, lines)
    ensures ItemsAppended(before, before + rows, id, lines) && (before + rows)[|before|..] == rows
  {
    assert (before + rows)[..|before|] == before;
    assert (before + rows)[|before|..] == rows;
  }

  lemma ItemsOfReplaced(kept: seq<PcItemRow>, rows: seq<PcItemRow>, id: int)
    requires forall x :: x in kept ==> x.challanId != id
    requires forall k :: 0 <= k < |rows| ==> rows[k].challanId == id
    ensures ItemsOf(kept + rows, id) == rows
  {
    ItemsOfAppend(kept, rows, id);
    ItemsOfNone(kept, id);
    ItemsOfAll(rows, id);
  }

  lemma {:induction false} ItemsOfAppend(a: seq<PcItemRow>, b: seq<PcItemRow>, id: int)
    ensures ItemsOf(a + b, id) == ItemsOf(a, id) + ItemsOf(b, id)
  {
    if b == [] {
      assert a + b == a;
    } else {
      assert (a + b)[..|a + b| - 1] == a + b[..|b| - 1];
      ItemsOfAppend(a, b[..|b| - 1], id);
    }
  }

  lemma {:induction false} ItemsOfNone(s: seq<PcItemRow>, id: int)
    requires forall x :: x in s ==> x.challanId != id
    ensures ItemsOf(s, id) == []
  {
    if s != [] {
      ItemsOfNone(s[..|s| - 1], id);
    }
  }

  lemma {:induction false} ItemsOfAll(s: seq<PcItemRow>, id: int)
    requires forall k :: 0 <= k < |s| ==> s[k].challanId == id
    ensures ItemsOf(s, id) == s
  {
    if s != [] {
      var init := s[..|s| - 1];
      assert forall k :: 0 <= k < |init| ==> init[k] == s[k];
      ItemsOfAll(init, id);
      assert ItemsOf(s, id) == init + [s[|s| - 1]];
      InitLast(s);
    }
  }
}
