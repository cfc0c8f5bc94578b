/**
 * The public (QR-code) delivery-challan endpoints: the URL-signature gate,
 * the download's per-item grouping with opening and balance figures, the
 * summary's effective rates, totals and distinct item names, and the
 * Indian-grouping currency formatter. Quantities are integers; rates and
 * amounts are integer paise.
 */
module PublicChallan {
  import opened Common

  datatype ItemMaster = ItemMaster(name: string, rate: Option<int>)

  datatype PcItem = PcItem(
    id: int, itemId: int, partyChallanId: int, rate: Option<int>, item: Option<ItemMaster>,
    quantityOrdered: int, quantityDelivered: int)

  /** A delivery-challan line; its party-challan item is optional (nullable column). */
  datatype DcLine = DcLine(
    id: int, pcItem: Option<PcItem>, quantity: int, ok: int, cr: int, mr: int,
    rate: Option<int>, partyRate: Option<int>)

  datatype Challan = Challan(id: int, lines: seq<DcLine>)

  // ---------------------------------------------------------------------
  // The signature gate shared by both endpoints.
  // ---------------------------------------------------------------------

  function FindChallan(challans: seq<Challan>, id: int): (r: Option<Challan>)
    ensures r.Some? ==> r.value in challans && r.value.id == id
    ensures r.None? ==> forall c :: c in challans ==> c.id != id
  {
    if challans == [] then None
    else if challans[0].id == id then Some(challans[0])
    else FindChallan(challans[1..], id)
  }

  /**
   * The signature (verified by code outside this model) is checked before
   * the challan is looked up: a bad link is 403 whatever is stored.
   */
  function OpenChallan(signatureValid: bool, challans: seq<Challan>, id: int, deniedDetail: string): (r: Result<Challan>)
    ensures !signatureValid ==> r == Err(403, deniedDetail)
    ensures signatureValid && r.Err? ==> r.status == 404 && forall c :: c in challans ==> c.id != id
    ensures r.Ok? ==> signatureValid && r.value in challans && r.value.id == id
  {
    if !signatureValid then Err(403, deniedDetail)
    else
      match FindChallan(challans, id)
      case None => Err(404, "Delivery Challan not found")
      case Some(c) => Ok(c)
  }

  // ---------------------------------------------------------------------
  // Rates and the summary page.
  // ---------------------------------------------------------------------

  predicate PositiveLineRate(l: DcLine) { l.rate.Some? && l.rate.value > 0 }

  predicate PositivePcRate(l: DcLine)
  {
    l.pcItem.Some? && l.pcItem.value.rate.Some? && l.pcItem.value.rate.value > 0
  }

  /** The item master's rate is used when it is set and non-zero. */
  predicate MasterRateSet(l: DcLine)
  {
    l.pcItem.Some? && l.pcItem.value.item.Some? && l.pcItem.value.item.value.rate.Some?
    && l.pcItem.value.item.value.rate.value != 0
  }

  /** The line's own rate, else the party-challan item's, else the item master's, else 0. */
  function EffectiveRate(l: DcLine): (r: int)
    ensures PositiveLineRate(l) ==> r == l.rate.value
    ensures !PositiveLineRate(l) && PositivePcRate(l) ==> r == l.pcItem.value.rate.value
    ensures !PositiveLineRate(l) && !PositivePcRate(l) && MasterRateSet(l) ==> r == l.pcItem.value.item.value.rate.value
    ensures r == 0 <==> !PositiveLineRate(l) && !PositivePcRate(l) && !MasterRateSet(l)
  {
    if PositiveLineRate(l) then l.rate.value
    else if PositivePcRate(l) then l.pcItem.value.rate.value
    else if MasterRateSet(l) then l.pcItem.value.item.value.rate.value
    else 0
  }

  /** `party_rate or 0`. */
  function PartyRate(l: DcLine): int { if l.partyRate.Some? then l.partyRate.value else 0 }

  function Quantity(l: DcLine): int { l.quantity }

  function LineAmount(l: DcLine): int { l.quantity * (EffectiveRate(l) + PartyRate(l)) }

  function ItemName(l: DcLine): string
  {
    if l.pcItem.Some? && l.pcItem.value.item.Some? then l.pcItem.value.item.value.name else "Unknown"
  }

  function Names(lines: seq<DcLine>): (r: seq<string>)
    ensures |r| == |lines| && forall k :: 0 <= k < |lines| ==> r[k] == ItemName(lines[k])
  {
    seq(|lines|, k requires 0 <= k < |lines| => ItemName(lines[k]))
  }

  datatype SummaryRow = SummaryRow(
    name: string, ok: int, cr: int, mr: int, totalQty: int, rate: int, amount: int, amountFormatted: string)

  datatype Summary = Summary(
    items: seq<SummaryRow>, uniqueItemNames: seq<string>, totalQty: int, totalAmount: int,
    totalAmountFormatted: string)

  function SummaryRowOf(l: DcLine): SummaryRow
  {
    var amount := LineAmount(l);
    SummaryRow(ItemName(l), l.ok, l.cr, l.mr, l.quantity, EffectiveRate(l) + PartyRate(l), amount, IndianCurrency(amount))
  }

  /** The summary loop: one row per line, with the quantity and amount totals. */
  method SummaryRows(lines: seq<DcLine>) returns (items: seq<SummaryRow>, totalQty: int, totalAmount: int)
    ensures |items| == |lines| && forall k :: 0 <= k < |lines| ==> items[k] == SummaryRowOf(lines[k])
    ensures totalQty == SumBy(lines, Quantity)
    ensures totalAmount == SumBy(lines, LineAmount)
  {
    items := [];
    totalQty, totalAmount := 0, 0;
    var i := 0;
    while i < |lines|
      invariant 0 <= i <= |lines| && |items| == i
      invariant forall k :: 0 <= k < i ==> items[k] == SummaryRowOf(lines[k])
      invariant totalQty == SumBy(lines[..i], Quantity)
      invariant totalAmount == SumBy(lines[..i], LineAmount)
    {
      var l := lines[i];
      TakeSnoc(lines, i);
      SumBySnoc(lines[..i], l, Quantity);
      SumBySnoc(lines[..i], l, LineAmount);
      var amount := LineAmount(l);
      totalQty := totalQty + l.quantity;
      totalAmount := totalAmount + amount;
      var formatted := FormatIndianCurrency(amount);
      var row := SummaryRow(ItemName(l), l.ok, l.cr, l.mr, l.quantity, EffectiveRate(l) + PartyRate(l), amount, formatted);
      assert row == SummaryRowOf(l);
      items := items + [row];
      i := i + 1;
    }
    assert lines[..i] == lines;
  }

  /** `unique_item_names`: a `seen` set and an append, in row order. */
  method UniqueNames(names: seq<string>) returns (unique: seq<string>)
    ensures unique == Distinct(names)
  {
    unique := [];
    var seen: set<string> := {};
    var j := 0;
    while j < |names|
      invariant 0 <= j <= |names|
      invariant unique == Distinct(names[..j])
      invariant seen == set x | x in unique
    {
      assert names[..j + 1][..j] == names[..j];
      if names[j] !in seen {
        unique := unique + [names[j]];
        seen := seen + {names[j]};
      }
      j := j + 1;
    }
    assert names[..j] == names;
  }

  /**
   * The summary of `lines`: one row per line, the quantity and amount totals,
   * the formatted amount total and the item names in first-occurrence order.
   */
  predicate IsSummaryOf(s: Summary, lines: seq<DcLine>)
  {
    && |s.items| == |lines| && (forall k :: 0 <= k < |lines| ==> s.items[k] == SummaryRowOf(lines[k]))
    && s.totalQty == SumBy(lines, Quantity)
    && s.totalAmount == SumBy(lines, LineAmount)
    && s.totalAmountFormatted == IndianCurrency(s.totalAmount)
    && s.uniqueItemNames == Distinct(Names(lines))
  }

  /** The summary page's rows, totals and first-occurrence list of item names. */
  method Summarize(lines: seq<DcLine>) returns (s: Summary)
    ensures |s.items| == |lines| && forall k :: 0 <= k < |lines| ==> s.items[k] == SummaryRowOf(lines[k])
    ensures s.totalQty == SumBy(lines, Quantity)
    ensures s.totalAmount == SumBy(lines, LineAmount)
    ensures s.totalAmountFormatted == IndianCurrency(s.totalAmount)
    ensures s.uniqueItemNames == Distinct(Names(lines))
  {
    var items, totalQty, totalAmount := SummaryRows(lines);
    var names := seq(|items|, k requires 0 <= k < |items| => items[k].name);
    assert names == Names(lines);
    var unique := UniqueNames(names);
    var totalFormatted := FormatIndianCurrency(totalAmount);
    s := Summary(items, unique, totalQty, totalAmount, totalFormatted);
  }

  /** The summary endpoint: the same gate, then the summary of the challan's lines. */
  method SummaryPage(signatureValid: bool, challans: seq<Challan>, id: int) returns (r: Result<Summary>)
    ensures !signatureValid ==> r == Err(403, "Invalid or expired link")
    ensures r.Err? && signatureValid ==> r.status == 404
    ensures r.Ok? <==> signatureValid && FindChallan(challans, id).Some?
    ensures r.Ok? ==> IsSummaryOf(r.value, FindChallan(challans, id).value.lines)
  {
    var found := OpenChallan(signatureValid, challans, id, "Invalid or expired link");
    if found.Err? {
      return Err(found.status, found.detail);
    }
    var s := Summarize(found.value.lines);
    r := Ok(s);
  }

  // ---------------------------------------------------------------------
  // The download page: lines grouped by item.
  // ---------------------------------------------------------------------

  /** The group key: the party-challan item's item id, or the line's own id without one. */
  function KeyOf(l: DcLine): int { if l.pcItem.Some? then l.pcItem.value.itemId else l.id }

  function KeysOf(s: seq<DcLine>): set<int>
  {
    if s == [] then {} else KeysOf(s[..|s| - 1]) + {KeyOf(s[|s| - 1])}
  }

  function KeySeq(s: seq<DcLine>): (r: seq<int>)
    ensures |r| == |s| && forall k :: 0 <= k < |s| ==> r[k] == KeyOf(s[k])
  {
    seq(|s|, k requires 0 <= k < |s| => KeyOf(s[k]))
  }

  /** A group: the first line (whose rate and process describe the row), its distinct party-challan items and the summed quantities. */
  datatype Group = Group(first: DcLine, pcItems: seq<PcItem>, dispatch: int, ok: int, cr: int, mr: int)

  function Add(g: Group, l: DcLine): Group
  {
    Group(g.first,
          if l.pcItem.Some? && l.pcItem.value !in g.pcItems then g.pcItems + [l.pcItem.value] else g.pcItems,
          g.dispatch + l.quantity, g.ok + l.ok, g.cr + l.cr, g.mr + l.mr)
  }

  function Start(l: DcLine): Group { Group(l, [], 0, 0, 0, 0) }

  /** The group a key has after reading all of `s`. */
  function GroupOf(s: seq<DcLine>, k: int): Group
    requires k in KeysOf(s)
  {
    var init, l := s[..|s| - 1], s[|s| - 1];
    if KeyOf(l) != k then GroupOf(init, k)
    else if k in KeysOf(init) then Add(GroupOf(init, k), l)
    else Add(Start(l), l)
  }

  /** Sum of `f` over the lines with key `k`. */
  function KeySum(s: seq<DcLine>, k: int, f: DcLine -> int): int
  {
    if s == [] then 0 else KeySum(s[..|s| - 1], k, f) + (if KeyOf(s[|s| - 1]) == k then f(s[|s| - 1]) else 0)
  }

  /** The party-challan items of the lines with key `k`, in line order. */
  function PcItemsWithKey(s: seq<DcLine>, k: int): seq<PcItem>
  {
    if s == [] then []
    else
      var l := s[|s| - 1];
      PcItemsWithKey(s[..|s| - 1], k) + (if KeyOf(l) == k && l.pcItem.Some? then [l.pcItem.value] else [])
  }

  /** The index of the first line with key `k`. */
  function FirstWithKey(s: seq<DcLine>, k: int): (i: nat)
    requires k in KeysOf(s)
    ensures i < |s| && KeyOf(s[i]) == k && forall j :: 0 <= j < i ==> KeyOf(s[j]) != k
  {
    var init := s[..|s| - 1];
    if k in KeysOf(init) then FirstWithKey(init, k) else NotInKeys(init, k); |s| - 1
  }

  lemma {:induction false} NotInKeys(s: seq<DcLine>, k: int)
    requires k !in KeysOf(s)
    ensures forall j :: 0 <= j < |s| ==> KeyOf(s[j]) != k
    ensures PcItemsWithKey(s, k) == []
    ensures forall f: DcLine -> int :: KeySum(s, k, f) == 0
  {
    if s != [] {
      NotInKeys(s[..|s| - 1], k);
    }
  }

  lemma {:induction false} KeysOfKeySeq(s: seq<DcLine>)
    ensures forall k :: k in KeysOf(s) <==> k in KeySeq(s)
  {
    if s != [] {
      KeysOfKeySeq(s[..|s| - 1]);
      assert KeySeq(s) == KeySeq(s[..|s| - 1]) + [KeyOf(s[|s| - 1])];
    }
  }

  function OkQty(l: DcLine): int { l.ok }

  function CrQty(l: DcLine): int { l.cr }

  function MrQty(l: DcLine): int { l.mr }

  /** A group's quantities are the sums over the lines sharing its key. */
  lemma {:induction false} GroupOfSums(s: seq<DcLine>, k: int)
    requires k in KeysOf(s)
    ensures var g := GroupOf(s, k);
            g.dispatch == KeySum(s, k, Quantity) && g.ok == KeySum(s, k, OkQty)
            && g.cr == KeySum(s, k, CrQty) && g.mr == KeySum(s, k, MrQty)
  {
    var init, l := s[..|s| - 1], s[|s| - 1];
    if KeyOf(l) != k || k in KeysOf(init) {
      GroupOfSums(init, k);
    } else {
      NotInKeys(init, k);
    }
  }

  /** A group describes itself by the first line carrying its key. */
  lemma {:induction false} GroupOfFirst(s: seq<DcLine>, k: int)
    requires k in KeysOf(s)
    ensures GroupOf(s, k).first == s[FirstWithKey(s, k)]
  {
    var init, l := s[..|s| - 1], s[|s| - 1];
    if k in KeysOf(init) {
      GroupOfFirst(init, k);
    }
  }

  /** A group's party-challan items are those of its lines, each once, in line order. */
  lemma {:induction false} GroupOfPcItems(s: seq<DcLine>, k: int)
    requires k in KeysOf(s)
    ensures GroupOf(s, k).pcItems == Distinct(PcItemsWithKey(s, k))
  {
    var init, l := s[..|s| - 1], s[|s| - 1];
    var pcs := PcItemsWithKey(init, k);
    if KeyOf(l) != k {
      GroupOfPcItems(init, k);
      assert PcItemsWithKey(s, k) == pcs;
    } else if k in KeysOf(init) {
      GroupOfPcItems(init, k);
      if l.pcItem.Some? {
        assert PcItemsWithKey(s, k) == pcs + [l.pcItem.value];
        assert (pcs + [l.pcItem.value])[..|pcs|] == pcs;
      } else {
        assert PcItemsWithKey(s, k) == pcs;
      }
    } else {
      NotInKeys(init, k);
      if l.pcItem.Some? {
        assert PcItemsWithKey(s, k) == [l.pcItem.value];
        assert [l.pcItem.value][..0] == [];
      } else {
        assert PcItemsWithKey(s, k) == [];
      }
    }
  }

  /** Reading one more line changes only its own key's group. */
  lemma GroupStep(lines: seq<DcLine>, i: int)
    requires 0 <= i < |lines|
    ensures var s, l := lines[..i + 1], lines[i];
            KeysOf(s) == KeysOf(lines[..i]) + {KeyOf(l)}
            && KeySeq(s) == KeySeq(lines[..i]) + [KeyOf(l)]
            && forall k :: k in KeysOf(s) ==>
                 GroupOf(s, k) == if KeyOf(l) != k then GroupOf(lines[..i], k)
                                  else if k in KeysOf(lines[..i]) then Add(GroupOf(lines[..i], k), l)
                                  else Add(Start(l), l)
  {
    var s := lines[..i + 1];
    assert s[..|s| - 1] == lines[..i];
    assert s[|s| - 1] == lines[i];
  }

  /** One turn of the grouping loop keeps its invariant. */
  lemma GroupsStep(lines: seq<DcLine>, i: int, groups: map<int, Group>, order: seq<int>)
    requires 0 <= i < |lines|
    requires groups.Keys == KeysOf(lines[..i])
    requires forall k :: k in groups ==> groups[k] == GroupOf(lines[..i], k)
    requires order == Distinct(KeySeq(lines[..i]))
    ensures var l, k := lines[i], KeyOf(lines[i]);
            var g0 := if k in groups then groups else groups[k := Start(l)];
            var o := if k in groups then order else order + [k];
            var g1 := g0[k := Add(g0[k], l)];
            g1.Keys == KeysOf(lines[..i + 1])
            && (forall k' :: k' in g1 ==> g1[k'] == GroupOf(lines[..i + 1], k'))
            && o == Distinct(KeySeq(lines[..i + 1]))
  {
    GroupStep(lines, i);
    KeysOfKeySeq(lines[..i]);
    var ks := KeySeq(lines[..i]) + [KeyOf(lines[i])];
    assert ks[..|ks| - 1] == KeySeq(lines[..i]);
  }

  /** `grouped_data`, filled in line order; `order` is the dict's insertion order. */
  method GroupLines(lines: seq<DcLine>) returns (groups: map<int, Group>, order: seq<int>)
    ensures groups.Keys == KeysOf(lines)
    ensures forall k :: k in groups ==> groups[k] == GroupOf(lines, k)
    ensures order == Distinct(KeySeq(lines))
  {
    groups := map[];
    order := [];
    var i := 0;
    while i < |lines|
      invariant 0 <= i <= |lines|
      invariant groups.Keys == KeysOf(lines[..i])
      invariant forall k :: k in groups ==> groups[k] == GroupOf(lines[..i], k)
      invariant order == Distinct(KeySeq(lines[..i]))
    {
      var l := lines[i];
      var k := KeyOf(l);
      GroupsStep(lines, i, groups, order);
      if k !in groups {
        groups := groups[k := Start(l)];
        order := order + [k];
      }
      groups := groups[k := Add(groups[k], l)];
      i := i + 1;
    }
    assert lines[..i] == lines;
  }

  function Ordered(pc: PcItem): int { pc.quantityOrdered }

  function Delivered(pc: PcItem): int { pc.quantityDelivered }

  datatype Figures = Figures(opening: int, balance: int)

  /**
   * Balance is what is still to deliver after this dispatch (delivered
   * totals already include it) and opening adds the dispatch back; both are
   * clamped at zero, so opening is never below balance for a real dispatch.
   */
  function FiguresOf(g: Group): (f: Figures)
    ensures f.opening >= 0 && f.balance >= 0
    ensures g.dispatch >= 0 ==> f.opening >= f.balance
    ensures f.balance > 0 ==> f.balance == SumBy(g.pcItems, Ordered) - SumBy(g.pcItems, Delivered)
    ensures f.opening > 0 ==> f.opening == SumBy(g.pcItems, Ordered) - SumBy(g.pcItems, Delivered) + g.dispatch
  {
    var closing := SumBy(g.pcItems, Ordered) - SumBy(g.pcItems, Delivered);
    Figures(if closing + g.dispatch > 0 then closing + g.dispatch else 0, if closing > 0 then closing else 0)
  }

  datatype DownloadRow = DownloadRow(
    first: DcLine, opening: int, dispatch: int, balance: int, ok: int, cr: int, mr: int,
    rate: int, partyRate: int, amount: int)

  /** The row the template receives; rate and party rate come from the group's first line. */
  function RowOf(g: Group, f: Figures): (r: DownloadRow)
    ensures r.amount == (r.rate + r.partyRate) * (g.ok + g.cr + g.mr)
  {
    var rate, partyRate := EffectiveRate(g.first), PartyRate(g.first);
    DownloadRow(g.first, f.opening, g.dispatch, f.balance, g.ok, g.cr, g.mr, rate, partyRate,
                (rate + partyRate) * (g.ok + g.cr + g.mr))
  }

  /**
   * As written, a group with no party-challan item never assigns the
   * opening and balance variables: it reuses the previous group's figures,
   * and fails when no earlier group assigned them.
   */
  function RowsAsWritten(gs: seq<Group>, carried: Option<Figures>): Result<seq<DownloadRow>>
  {
    if gs == [] then Ok([])
    else
      var f := if gs[0].pcItems != [] then Some(FiguresOf(gs[0])) else carried;
      if f.None? then Err(500, "opening_qty referenced before assignment")
      else
        match RowsAsWritten(gs[1..], f)
        case Err(status, detail) => Err(status, detail)
        case Ok(rest) => Ok([RowOf(gs[0], f.value)] + rest)
  }

  lemma FirstGroupWithoutPcItemFails(g: Group, rest: seq<Group>)
    requires g.pcItems == []
    ensures RowsAsWritten([g] + rest, None).Err?
  {
  }

  /** The second group shows the first group's opening and balance. */
  lemma LaterGroupWithoutPcItemShowsStaleFigures(g1: Group, g2: Group)
    requires g1.pcItems != [] && g2.pcItems == []
    ensures var r := RowsAsWritten([g1, g2], None);
            r.Ok? && |r.value| == 2 && r.value[1].opening == FiguresOf(g1).opening
            && r.value[1].balance == FiguresOf(g1).balance
  {
    var f1 := FiguresOf(g1);
    assert [g1, g2][1..] == [g2];
    assert [g2][1..] == [];
    assert RowsAsWritten([], Some(f1)) == Ok([]);
    assert [RowOf(g2, f1)] + [] == [RowOf(g2, f1)];
    assert RowsAsWritten([g2], Some(f1)) == Ok([RowOf(g2, f1)]);
    assert RowsAsWritten([g1, g2], None) == Ok([RowOf(g1, f1)] + [RowOf(g2, f1)]);
  }

  /** Corrected: a group without party-challan items shows zero opening and balance. */
  function GroupFigures(g: Group): (f: Figures)
    ensures f.opening >= 0 && f.balance >= 0
    ensures g.dispatch >= 0 ==> f.opening >= f.balance
    ensures g.pcItems == [] ==> f == Figures(0, 0)
  {
    if g.pcItems != [] then FiguresOf(g) else Figures(0, 0)
  }

  /** The download rows, one per group in the given order. */
  method DownloadRows(gs: seq<Group>) returns (rows: seq<DownloadRow>)
    ensures |rows| == |gs|
    ensures forall k :: 0 <= k < |gs| ==> rows[k] == RowOf(gs[k], GroupFigures(gs[k]))
    ensures forall k :: 0 <= k < |gs| ==> rows[k].opening >= 0 && rows[k].balance >= 0
    ensures forall k :: 0 <= k < |gs| && gs[k].dispatch >= 0 ==> rows[k].opening >= rows[k].balance
  {
    rows := [];
    var i := 0;
    while i < |gs|
      invariant 0 <= i <= |gs| && |rows| == i
      invariant forall k :: 0 <= k < i ==> rows[k] == RowOf(gs[k], GroupFigures(gs[k]))
    {
      var g := gs[i];
      var figures := Figures(0, 0);
      if g.pcItems != [] {
        var ordered, delivered := SumBy(g.pcItems, Ordered), SumBy(g.pcItems, Delivered);
        var rawClosing := ordered - delivered;
        var rawOpening := rawClosing + g.dispatch;
        figures := Figures(if rawOpening > 0 then rawOpening else 0, if rawClosing > 0 then rawClosing else 0);
      }
      rows := rows + [RowOf(g, figures)];
      i := i + 1;
    }
  }

  /** Python's `<=` on strings: code point by code point, a proper prefix first. */
  predicate NameLe(a: string, b: string)
  {
    a == [] || (b != [] && (a[0] < b[0] || (a[0] == b[0] && NameLe(a[1..], b[1..]))))
  }

  lemma {:induction false} NameLeTotal(a: string, b: string)
    ensures NameLe(a, b) || NameLe(b, a)
  {
    if a != [] && b != [] && a[0] == b[0] {
      NameLeTotal(a[1..], b[1..]);
    }
  }

  lemma {:induction false} NameLeTrans(a: string, b: string, c: string)
    requires NameLe(a, b) && NameLe(b, c)
    ensures NameLe(a, c)
  {
    if a != [] && a[0] == b[0] && b[0] == c[0] {
      NameLeTrans(a[1..], b[1..], c[1..]);
    }
  }

  /** The download's sort key: the first line's item name, "" when it has no party-challan item. */
  function SortName(l: DcLine): string
  {
    if l.pcItem.Some? && l.pcItem.value.item.Some? then l.pcItem.value.item.value.name else ""
  }

  predicate SortedByName(gs: seq<Group>)
  {
    forall i, j :: 0 <= i < j < |gs| ==> NameLe(SortName(gs[i].first), SortName(gs[j].first))
  }

  lemma AppendByName(t: seq<Group>, g: Group)
    requires t != [] && SortedByName(t) && NameLe(SortName(t[|t| - 1].first), SortName(g.first))
    ensures SortedByName(t + [g])
  {
    forall k | 0 <= k < |t| - 1 ensures NameLe(SortName(t[k].first), SortName(g.first)) {
      NameLeTrans(SortName(t[k].first), SortName(t[|t| - 1].first), SortName(g.first));
    }
  }

  lemma AppendLargest(p: seq<Group>, t: seq<Group>, g: Group)
    requires t != [] && SortedByName(t) && SortedByName(p)
    requires !NameLe(SortName(t[|t| - 1].first), SortName(g.first))
    requires multiset(p) == multiset(t[..|t| - 1]) + multiset{g}
    ensures SortedByName(p + [t[|t| - 1]])
  {
    var last := t[|t| - 1];
    NameLeTotal(SortName(last.first), SortName(g.first));
    forall k | 0 <= k < |p| ensures NameLe(SortName(p[k].first), SortName(last.first)) {
      assert p[k] in multiset(p);
      if p[k] != g {
        assert p[k] in multiset(t[..|t| - 1]);
        var i :| 0 <= i < |t| - 1 && t[i] == p[k];
      }
    }
  }

  /** Insert after every group whose name is not larger, so equal names keep their order. */
  function InsertByName(t: seq<Group>, g: Group): (r: seq<Group>)
    ensures multiset(r) == multiset(t) + multiset{g}
    ensures SortedByName(t) ==> SortedByName(r)
  {
    if t == [] then [g]
    else if NameLe(SortName(t[|t| - 1].first), SortName(g.first)) then
      assert SortedByName(t) ==> SortedByName(t + [g]) by {
        if SortedByName(t) { AppendByName(t, g); }
      }
      t + [g]
    else
      var p := InsertByName(t[..|t| - 1], g);
      InitLast(t);
      assert SortedByName(t) ==> SortedByName(p + [t[|t| - 1]]) by {
        if SortedByName(t) { AppendLargest(p, t, g); }
      }
      p + [t[|t| - 1]]
  }

  /** `sorted(grouped_data.keys(), key=...)`: the groups in item-name order. */
  function SortByName(gs: seq<Group>): (r: seq<Group>)
    ensures multiset(r) == multiset(gs) && |r| == |gs| && SortedByName(r)
  {
    if gs == [] then []
    else
      InitLast(gs);
      var r := InsertByName(SortByName(gs[..|gs| - 1]), gs[|gs| - 1]);
      assert |r| == |multiset(r)|;
      r
  }

  /** The download row of the group of `key`. */
  function GroupRow(lines: seq<DcLine>, key: int): DownloadRow
    requires key in KeysOf(lines)
  {
    RowOf(GroupOf(lines, key), GroupFigures(GroupOf(lines, key)))
  }

  /** The row is the row of one of the groups of `lines`. */
  predicate RowOfSomeGroup(lines: seq<DcLine>, row: DownloadRow)
  {
    exists key :: key in KeysOf(lines) && row == GroupRow(lines, key)
  }

  /** Every group of `lines` has its row, and no two rows share a key. */
  predicate EachGroupOnce(lines: seq<DcLine>, rows: seq<DownloadRow>)
  {
    && (forall key :: key in KeysOf(lines) ==>
          exists k :: 0 <= k < |rows| && KeyOf(rows[k].first) == key && rows[k] == GroupRow(lines, key))
    && (forall i, j :: 0 <= i < j < |rows| ==> KeyOf(rows[i].first) != KeyOf(rows[j].first))
  }

  /** A group is described by a line carrying its own key. */
  lemma GroupKey(lines: seq<DcLine>, key: int)
    requires key in KeysOf(lines)
    ensures KeyOf(GroupOf(lines, key).first) == key
  {
    GroupOfFirst(lines, key);
  }

  predicate RowsByName(rows: seq<DownloadRow>)
  {
    forall i, j :: 0 <= i < j < |rows| ==> NameLe(SortName(rows[i].first), SortName(rows[j].first))
  }

  /**
   * The download endpoint: gate, grouping, then one row per group in
   * item-name order: every group of the challan's lines exactly once.
   */
  method Download(signatureValid: bool, challans: seq<Challan>, id: int) returns (r: Result<seq<DownloadRow>>)
    ensures !signatureValid ==> r == Err(403, "Invalid or expired download link")
    ensures r.Err? && signatureValid ==> r.status == 404
    ensures r.Ok? <==> signatureValid && FindChallan(challans, id).Some?
    ensures r.Ok? ==>
      exists c :: c in challans && c.id == id && |r.value| == |KeysOf(c.lines)|
                  && (forall k :: 0 <= k < |r.value| ==> RowOfSomeGroup(c.lines, r.value[k])) && RowsByName(r.value)
                  && EachGroupOnce(c.lines, r.value)
  {
    var found := OpenChallan(signatureValid, challans, id, "Invalid or expired download link");
    if found.Err? {
      return Err(found.status, found.detail);
    }
    var c := found.value;
    var groups, order := GroupLines(c.lines);
    OrderCoversKeys(c.lines);
    var gs := SortByName(InOrder(groups, order));
    var rows := DownloadRows(gs);
    SortedRows(c.lines, groups, order, gs, rows);
    RowsEachGroupOnce(c.lines, groups, order, gs, rows);
    r := Ok(rows);
  }

  lemma SortedRows(lines: seq<DcLine>, groups: map<int, Group>, order: seq<int>, gs: seq<Group>, rows: seq<DownloadRow>)
    requires forall k :: k in groups ==> k in KeysOf(lines) && groups[k] == GroupOf(lines, k)
    requires forall j :: 0 <= j < |order| ==> order[j] in groups
    requires gs == SortByName(InOrder(groups, order))
    requires |rows| == |gs| && forall k :: 0 <= k < |gs| ==> rows[k] == RowOf(gs[k], GroupFigures(gs[k]))
    ensures forall k :: 0 <= k < |rows| ==> RowOfSomeGroup(lines, rows[k])
    ensures RowsByName(rows)
  {
    forall k | 0 <= k < |rows| ensures RowOfSomeGroup(lines, rows[k]) {
      assert gs[k] in multiset(InOrder(groups, order));
      var j :| 0 <= j < |order| && InOrder(groups, order)[j] == gs[k];
      assert rows[k] == RowOf(GroupOf(lines, order[j]), GroupFigures(GroupOf(lines, order[j])));
    }
  }

  lemma RowsEachGroupOnce(lines: seq<DcLine>, groups: map<int, Group>, order: seq<int>, gs: seq<Group>, rows: seq<DownloadRow>)
    requires groups.Keys == KeysOf(lines) && forall k :: k in groups ==> groups[k] == GroupOf(lines, k)
    requires order == Distinct(KeySeq(lines)) && forall j :: 0 <= j < |order| ==> order[j] in groups
    requires gs == SortByName(InOrder(groups, order))
    requires |rows| == |gs| && forall k :: 0 <= k < |gs| ==> rows[k] == RowOf(gs[k], GroupFigures(gs[k]))
    ensures EachGroupOnce(lines, rows)
  {
    KeysOfKeySeq(lines);
    EveryGroupHasRow(lines, groups, order, gs, rows);
    InOrderNoDuplicates(lines, groups, order);
    RowKeysDistinct(lines, groups, order, gs, rows);
  }

  lemma EveryGroupHasRow(lines: seq<DcLine>, groups: map<int, Group>, order: seq<int>, gs: seq<Group>, rows: seq<DownloadRow>)
    requires groups.Keys == KeysOf(lines) && forall k :: k in groups ==> groups[k] == GroupOf(lines, k)
    requires forall j :: 0 <= j < |order| ==> order[j] in groups
    requires forall key :: key in KeysOf(lines) ==> key in order
    requires multiset(gs) == multiset(InOrder(groups, order))
    requires |rows| == |gs| && forall k :: 0 <= k < |gs| ==> rows[k] == RowOf(gs[k], GroupFigures(gs[k]))
    ensures forall key :: key in KeysOf(lines) ==>
              exists k :: 0 <= k < |rows| && KeyOf(rows[k].first) == key && rows[k] == GroupRow(lines, key)
  {
    forall key | key in KeysOf(lines)
      ensures exists k :: 0 <= k < |rows| && KeyOf(rows[k].first) == key && rows[k] == GroupRow(lines, key)
    {
      var k := GroupSorted(lines, groups, order, gs, key);
      assert rows[k] == GroupRow(lines, key);
    }
  }

  lemma RowKeysDistinct(lines: seq<DcLine>, groups: map<int, Group>, order: seq<int>, gs: seq<Group>, rows: seq<DownloadRow>)
    requires groups.Keys == KeysOf(lines) && forall k :: k in groups ==> groups[k] == GroupOf(lines, k)
    requires forall j :: 0 <= j < |order| ==> order[j] in groups
    requires multiset(gs) == multiset(InOrder(groups, order)) && NoDuplicates(InOrder(groups, order))
    requires |rows| == |gs| && forall k :: 0 <= k < |gs| ==> rows[k].first == gs[k].first
    ensures forall i, j :: 0 <= i < j < |rows| ==> KeyOf(rows[i].first) != KeyOf(rows[j].first)
  {
    forall i, j | 0 <= i < j < |rows|
      ensures KeyOf(rows[i].first) != KeyOf(rows[j].first)
    {
      SortedKeysDistinct(lines, groups, order, gs, i, j);
    }
  }

  /** The group of every key has a place among the sorted groups. */
  lemma GroupSorted(lines: seq<DcLine>, groups: map<int, Group>, order: seq<int>, gs: seq<Group>, key: int) returns (k: int)
    requires groups.Keys == KeysOf(lines) && forall k :: k in groups ==> groups[k] == GroupOf(lines, k)
    requires forall j :: 0 <= j < |order| ==> order[j] in groups
    requires key in order && multiset(gs) == multiset(InOrder(groups, order))
    ensures 0 <= k < |gs| && gs[k] == GroupOf(lines, key) && KeyOf(gs[k].first) == key
  {
    var io := InOrder(groups, order);
    var a :| 0 <= a < |order| && order[a] == key;
    assert io[a] in multiset(gs);
    k :| 0 <= k < |gs| && gs[k] == io[a];
    GroupKey(lines, key);
  }

  /** Two places of the sorted groups hold groups of different keys. */
  lemma SortedKeysDistinct(lines: seq<DcLine>, groups: map<int, Group>, order: seq<int>, gs: seq<Group>, i: int, j: int)
    requires groups.Keys == KeysOf(lines) && forall k :: k in groups ==> groups[k] == GroupOf(lines, k)
    requires forall j :: 0 <= j < |order| ==> order[j] in groups
    requires multiset(gs) == multiset(InOrder(groups, order)) && NoDuplicates(InOrder(groups, order))
    requires 0 <= i < j < |gs|
    ensures KeyOf(gs[i].first) != KeyOf(gs[j].first)
  {
    var ki := InOrderKey(lines, groups, order, gs, i);
    var kj := InOrderKey(lines, groups, order, gs, j);
    if ki == kj {
      TwiceCount(gs, i, j);
      NoDuplicatesCount(InOrder(groups, order), gs[i]);
      assert false;
    }
  }

  /** A sorted group is the group of the key its first line carries. */
  lemma InOrderKey(lines: seq<DcLine>, groups: map<int, Group>, order: seq<int>, gs: seq<Group>, i: int) returns (key: int)
    requires groups.Keys == KeysOf(lines) && forall k :: k in groups ==> groups[k] == GroupOf(lines, k)
    requires forall j :: 0 <= j < |order| ==> order[j] in groups
    requires multiset(gs) == multiset(InOrder(groups, order)) && 0 <= i < |gs|
    ensures key in KeysOf(lines) && gs[i] == GroupOf(lines, key) && KeyOf(gs[i].first) == key
  {
    assert gs[i] in multiset(InOrder(groups, order));
    var a :| 0 <= a < |order| && InOrder(groups, order)[a] == gs[i];
    key := order[a];
    GroupKey(lines, key);
  }

  /** Distinct keys give distinct groups. */
  lemma InOrderNoDuplicates(lines: seq<DcLine>, groups: map<int, Group>, order: seq<int>)
    requires groups.Keys == KeysOf(lines) && forall k :: k in groups ==> groups[k] == GroupOf(lines, k)
    requires forall j :: 0 <= j < |order| ==> order[j] in groups
    requires NoDuplicates(order)
    ensures NoDuplicates(InOrder(groups, order))
  {
    var io := InOrder(groups, order);
    forall a, b | 0 <= a < b < |io| ensures io[a] != io[b] {
      GroupKey(lines, order[a]);
      GroupKey(lines, order[b]);
    }
  }

  /** The insertion order lists every key once. */
  lemma OrderCoversKeys(lines: seq<DcLine>)
    ensures |Distinct(KeySeq(lines))| == |KeysOf(lines)|
    ensures forall j :: 0 <= j < |Distinct(KeySeq(lines))| ==> Distinct(KeySeq(lines))[j] in KeysOf(lines)
  {
    var ks := KeySeq(lines);
    KeysOfKeySeq(lines);
    DistinctCount(ks);
    var d := Distinct(ks);
    forall j | 0 <= j < |d| ensures d[j] in KeysOf(lines) {
      assert d[j] in ks;
    }
    KeySetIsKeysOf(lines);
  }

  lemma KeySetIsKeysOf(lines: seq<DcLine>)
    ensures (set x | x in KeySeq(lines)) == KeysOf(lines)
  {
    KeysOfKeySeq(lines);
  }

  function InOrder(groups: map<int, Group>, order: seq<int>): (gs: seq<Group>)
    requires forall j :: 0 <= j < |order| ==> order[j] in groups
    ensures |gs| == |order| && forall j :: 0 <= j < |order| ==> gs[j] == groups[order[j]]
  {
    seq(|order|, j requires 0 <= j < |order| => groups[order[j]])
  }

  /** A duplicate-free list of the keys has as many entries as the key set. */
  lemma {:induction false} DistinctCount(s: seq<int>)
    ensures |Distinct(s)| == |set x | x in s|
  {
    if s != [] {
      var init, last := s[..|s| - 1], s[|s| - 1];
      DistinctCount(init);
      var d, before := Distinct(init), set x | x in init;
      assert (set x | x in s) == before + {last} by {
        assert forall x :: x in s <==> x in init || x == last;
      }
      if last in init {
        assert last in d && last in before;
        assert Distinct(s) == d;
        assert before + {last} == before;
      } else {
        assert last !in d && last !in before;
        assert Distinct(s) == d + [last];
        assert |before + {last}| == |before| + 1;
      }
    }
  }

  // ---------------------------------------------------------------------
  // Indian-grouping currency.
  // ---------------------------------------------------------------------

  function Abs(n: int): nat { if n < 0 then -n else n }

  /** The sign and the rupees of "{:.2f}". */
  function IntPart(p: int): string { (if p < 0 then "-" else "") + NatToString(Abs(p) / 100) }

  /** The two paise digits of "{:.2f}". */
  function DecPart(p: int): string { PadLeft(NatToString(Abs(p) % 100), 2, '0') }

  /** "{:.2f}" of an amount held in paise. */
  function Fixed2(p: int): string { IntPart(p) + "." + DecPart(p) }

  lemma SmallNatToString(n: nat)
    requires n < 100
    ensures |NatToString(n)| <= 2
  {
    if n >= 10 {
      assert NatToString(n) == NatToString(n / 10) + [('0' as int + n % 10) as char];
    }
  }

  lemma DecPartDigits(p: int)
    ensures |DecPart(p)| == 2 && AllDigits(DecPart(p))
  {
    SmallNatToString(Abs(p) % 100);
    var s := NatToString(Abs(p) % 100);
    var d := DecPart(p);
    var off := |d| - |s|;
    forall i | 0 <= i < |d| ensures IsDigit(d[i]) {
      if i >= off { assert d[i] == d[off..][i - off] == s[i - off]; }
    }
  }

  lemma IntPartChars(p: int)
    ensures forall i :: 0 <= i < |IntPart(p)| ==> IntPart(p)[i] == '-' || IsDigit(IntPart(p)[i])
  {
    var sign, d := if p < 0 then "-" else "", NatToString(Abs(p) / 100);
    assert IntPart(p) == sign + d;
    forall i | 0 <= i < |IntPart(p)| ensures IntPart(p)[i] == '-' || IsDigit(IntPart(p)[i]) {
      if i >= |sign| { assert IntPart(p)[i] == d[i - |sign|]; }
    }
  }

  /** The string splits on '.' into exactly the two parts the formatter reads. */
  lemma FixedSplits(p: int)
    ensures Split(Fixed2(p), '.') == [IntPart(p), DecPart(p)]
  {
    DecPartDigits(p);
    IntPartChars(p);
    var parts := [IntPart(p), DecPart(p)];
    assert parts[1..] == [DecPart(p)];
    assert Join(parts, ".") == Fixed2(p);
    SplitJoin(parts, '.');
  }

  /** Groups of two from the right; the leading group has one or two characters. */
  function Pairs(s: string): (g: seq<string>)
    ensures |g| >= 1
    decreases |s|
  {
    if |s| <= 2 then [s] else Pairs(s[..|s| - 2]) + [s[|s| - 2..]]
  }

  lemma PairsShape(s: string)
    requires |s| >= 1
    ensures var g := Pairs(s);
            g[0] == s[..if |s| % 2 == 1 then 1 else 2]
            && forall i :: 1 <= i < |g| ==> |g[i]| == 2
  {
    PairsFirst(s);
    PairsRest(s);
  }

  lemma PairsFirst(s: string)
    requires |s| >= 1
    ensures Pairs(s)[0] == s[..if |s| % 2 == 1 then 1 else 2]
  {
    var m := if |s| % 2 == 1 then 1 else 2;
    PairsFirstWidth(s, m, (|s| - m) / 2);
  }

  /** The first group has the `m` leading characters when `s` is `m` characters and `k` pairs. */
  lemma {:induction false} PairsFirstWidth(s: string, m: nat, k: nat)
    requires 1 <= m <= 2 && |s| == m + 2 * k
    ensures Pairs(s)[0] == s[..m]
    decreases k
  {
    if k > 0 {
      var init := s[..|s| - 2];
      PairsFirstWidth(init, m, k - 1);
      assert Pairs(s) == Pairs(init) + [s[|s| - 2..]];
      assert init[..m] == s[..m];
    }
  }

  lemma {:induction false} PairsRest(s: string)
    ensures forall i :: 1 <= i < |Pairs(s)| ==> |Pairs(s)[i]| == 2
    decreases |s|
  {
    if |s| > 2 {
      var init := s[..|s| - 2];
      PairsRest(init);
      var g0 := Pairs(init);
      assert Pairs(s) == g0 + [s[|s| - 2..]];
    }
  }

  lemma {:induction false} PairsChars(s: string)
    ensures forall i, j :: 0 <= i < |Pairs(s)| && 0 <= j < |Pairs(s)[i]| ==> Pairs(s)[i][j] in s
    decreases |s|
  {
    if |s| > 2 {
      var init := s[..|s| - 2];
      PairsChars(init);
      forall i, j | 0 <= i < |Pairs(s)| && 0 <= j < |Pairs(s)[i]| ensures Pairs(s)[i][j] in s {
        if i < |Pairs(init)| {
          assert Pairs(s)[i][j] in init;
        } else {
          assert Pairs(s)[i][j] == s[|s| - 2 + j];
        }
      }
    }
  }

  lemma {:induction false} PairsConcat(s: string)
    ensures Join(Pairs(s), "") == s
    decreases |s|
  {
    if |s| > 2 {
      var init := s[..|s| - 2];
      PairsConcat(init);
      JoinSnoc(Pairs(init), s[|s| - 2..], "");
      assert init + "" + s[|s| - 2..] == s;
    }
  }

  /** Commas inserted before the last three digits and then every two digits. */
  function GroupDigits(d: string): string
  {
    if |d| <= 3 then d else Join(Pairs(d[..|d| - 3]) + [d[|d| - 3..]], ",")
  }

  /** `format_indian_currency` as written: the sign is grouped as if it were a digit. */
  function IndianAsWritten(p: int): string
  {
    var ip := IntPart(p);
    if |ip| <= 3 then Fixed2(p) else Join(Pairs(ip[..|ip| - 3]) + [ip[|ip| - 3..]], ",") + "." + DecPart(p)
  }

  /** Corrected: the digits are grouped and the sign stays in front. */
  function IndianCurrency(p: int): string
  {
    (if p < 0 then "-" else "") + GroupDigits(NatToString(Abs(p) / 100)) + "." + DecPart(p)
  }

  function RemoveCommas(s: string): (r: string)
    ensures ',' !in r
  {
    if s == [] then [] else RemoveCommas(s[..|s| - 1]) + (if s[|s| - 1] == ',' then [] else [s[|s| - 1]])
  }

  lemma {:induction false} RemoveCommasAppend(a: string, b: string)
    ensures RemoveCommas(a + b) == RemoveCommas(a) + RemoveCommas(b)
    decreases |b|
  {
    if b != [] {
      var init := b[..|b| - 1];
      RemoveCommasAppend(a, init);
      assert (a + b)[..|a + b| - 1] == a + init;
      assert (a + b)[|a + b| - 1] == b[|b| - 1];
    } else {
      assert a + b == a;
    }
  }

  lemma {:induction false} RemoveCommasNone(s: string)
    requires ',' !in s
    ensures RemoveCommas(s) == s
  {
    if s != [] {
      RemoveCommasNone(s[..|s| - 1]);
    }
  }

  lemma {:induction false} RemoveCommasJoin(parts: seq<string>)
    requires forall i :: 0 <= i < |parts| ==> ',' !in parts[i]
    ensures RemoveCommas(Join(parts, ",")) == Join(parts, "")
  {
    if |parts| == 1 {
      RemoveCommasNone(parts[0]);
    } else if |parts| > 1 {
      RemoveCommasJoin(parts[1..]);
      RemoveCommasAppend(parts[0] + ",", Join(parts[1..], ","));
      RemoveCommasAppend(parts[0], ",");
      RemoveCommasNone(parts[0]);
      assert RemoveCommas(",") == "";
    }
  }

  /** Deleting the inserted commas gives the digits back. */
  lemma GroupDigitsRemoveCommas(d: string)
    requires ',' !in d
    ensures RemoveCommas(GroupDigits(d)) == d
  {
    if |d| > 3 {
      var rem, last := d[..|d| - 3], d[|d| - 3..];
      var parts := Pairs(rem) + [last];
      PairsChars(rem);
      forall i | 0 <= i < |parts| ensures ',' !in parts[i] {
        if i < |Pairs(rem)| {
          forall j | 0 <= j < |parts[i]| ensures parts[i][j] != ',' { assert parts[i][j] in rem; }
        }
      }
      RemoveCommasJoin(parts);
      JoinSnoc(Pairs(rem), last, "");
      PairsConcat(rem);
      assert rem + "" + last == d;
    } else {
      RemoveCommasNone(d);
    }
  }

  /**
   * The groups of a number of more than three digits: three digits last,
   * two in every middle group, one or two in front, all digits.
   */
  lemma GroupDigitsShape(d: string)
    requires |d| > 3 && AllDigits(d)
    ensures var g := Split(GroupDigits(d), ',');
            |g| >= 2 && |g[|g| - 1]| == 3 && 1 <= |g[0]| <= 2
            && (forall i :: 1 <= i < |g| - 1 ==> |g[i]| == 2)
            && forall i :: 0 <= i < |g| ==> AllDigits(g[i])
  {
    var rem, last := d[..|d| - 3], d[|d| - 3..];
    var parts := Pairs(rem) + [last];
    PairsChars(rem);
    PairsShape(rem);
    forall i | 0 <= i < |parts| ensures ',' !in parts[i] && AllDigits(parts[i]) {
      if i < |Pairs(rem)| {
        forall j | 0 <= j < |parts[i]| ensures IsDigit(parts[i][j]) { assert parts[i][j] in rem; }
      } else {
        assert parts[i] == last;
      }
    }
    SplitJoin(parts, ',');
  }

  lemma DigitsHaveNoComma(d: string)
    requires AllDigits(d)
    ensures ',' !in d
  {
    forall i | 0 <= i < |d| ensures d[i] != ',' { assert IsDigit(d[i]); }
  }

  /** The corrected formatter only inserts commas into "{:.2f}". */
  lemma IndianCurrencyRemoveCommas(p: int)
    ensures RemoveCommas(IndianCurrency(p)) == Fixed2(p)
  {
    var d := NatToString(Abs(p) / 100);
    DecPartDigits(p);
    DigitsHaveNoComma(DecPart(p));
    GroupDigitsRemoveCommas(d);
    RemoveCommasAround(if p < 0 then "-" else "", GroupDigits(d), d, ".", DecPart(p));
  }

  /** Commas only inside the middle part `x` leave the sign in front and the tail behind. */
  lemma RemoveCommasAround(sign: string, x: string, d: string, dot: string, tail: string)
    requires ',' !in sign && ',' !in dot && ',' !in tail && RemoveCommas(x) == d
    ensures RemoveCommas(sign + x + dot + tail) == sign + d + dot + tail
  {
    RemoveCommasAppend(sign + x + dot, tail);
    RemoveCommasAppend(sign + x, dot);
    RemoveCommasAppend(sign, x);
    RemoveCommasNone(sign);
    RemoveCommasNone(dot);
    RemoveCommasNone(tail);
  }

  /** Up to three rupee digits the "{:.2f}" string is returned unchanged. */
  lemma IndianCurrencyShort(p: int)
    requires |NatToString(Abs(p) / 100)| <= 3
    ensures IndianCurrency(p) == Fixed2(p)
  {
  }

  /** On non-negative amounts the formatter as written is already right. */
  lemma AsWrittenAgreesWhenNonNegative(p: int)
    requires p >= 0
    ensures IndianAsWritten(p) == IndianCurrency(p)
  {
    var d := NatToString(Abs(p) / 100);
    assert IntPart(p) == d;
    assert IndianCurrency(p) == GroupDigits(d) + "." + DecPart(p);
  }

  /**
   * As written, a negative amount whose rupees have an odd number (three or
   * more) of digits gets a comma straight after the minus sign, as in
   * "-,100.00" for -100.
   */
  lemma AsWrittenCommaAfterSign(p: int)
    requires p < 0
    requires var n := |NatToString(Abs(p) / 100)|; n >= 3 && n % 2 == 1
    ensures IndianAsWritten(p)[..2] == "-,"
  {
    var ip := IntPart(p);
    var rem := ip[..|ip| - 3];
    PairsShape(rem);
    assert Pairs(rem)[0] == "-";
    var parts := Pairs(rem) + [ip[|ip| - 3..]];
    assert parts[0] == "-" && |parts| >= 2;
    assert Join(parts, ",") == "-" + "," + Join(parts[1..], ",");
  }

  /** The counterexample: -100.00 is shown as "-,100.00". */
  lemma AsWrittenMinusHundred()
    ensures IndianAsWritten(-10000)[..2] == "-,"
  {
    assert NatToString(100) == "100";
    AsWrittenCommaAfterSign(-10000);
  }

  /** The while loop: pairs of digits taken from the right, each preceded by a comma. */
  method JoinPairs(digits: string) returns (formatted: string)
    requires |digits| >= 1
    ensures formatted == Join(Pairs(digits), ",")
  {
    var remaining := digits;
    formatted := "";
    while |remaining| > 2
      invariant 1 <= |remaining|
      invariant Join(Pairs(digits), ",") == Join(Pairs(remaining), ",") + formatted
    {
      var init, pair := remaining[..|remaining| - 2], remaining[|remaining| - 2..];
      assert Pairs(remaining) == Pairs(init) + [pair];
      JoinSnoc(Pairs(init), pair, ",");
      formatted := "," + pair + formatted;
      remaining := init;
    }
    assert Pairs(remaining) == [remaining];
    formatted := remaining + formatted;
  }

  /** The formatter, grouping the rupee digits after the sign. */
  method FormatIndianCurrency(p: int) returns (r: string)
    ensures r == IndianCurrency(p)
  {
    var sign := if p < 0 then "-" else "";
    var digits := NatToString(Abs(p) / 100);
    var decimalPart := DecPart(p);
    if |digits| <= 3 {
      r := sign + digits + "." + decimalPart;
      return;
    }
    var lastThree := digits[|digits| - 3..];
    var formatted := JoinPairs(digits[..|digits| - 3]);
    JoinSnoc(Pairs(digits[..|digits| - 3]), lastThree, ",");
    r := sign + (formatted + "," + lastThree) + "." + decimalPart;
  }
}
