/**
 * The list screens of items (frontend/src/pages/Items.jsx) and delivery
 * challans (frontend/src/pages/Challans.jsx): search and filters, newest
 * first, pages of a chosen size, the row of page buttons with its ellipses,
 * the figures above each list, the challan screen's filter state, and the
 * number of barcode copies to print.
 */
module Listing {
  import opened Common

  function Min(a: int, b: int): int { if a <= b then a else b }
  function Max(a: int, b: int): int { if a >= b then a else b }

  // ---------------------------------------------------------------------
  // Pages
  // ---------------------------------------------------------------------

  /** The sizes the "per page" select offers; 10 when the screen opens. */
  const PageSizes: seq<nat> := [10, 25, 50, 100]

  /** `Math.ceil(n / perPage)`: the fewest pages of `perPage` rows that hold `n` rows. */
  function TotalPages(n: nat, perPage: nat): (t: nat)
    requires perPage > 0
    ensures n <= t * perPage
    ensures t > 0 ==> (t - 1) * perPage < n
    ensures t == 0 <==> n == 0
  {
    var q := (n + perPage - 1) / perPage;
    assert n + perPage - 1 == q * perPage + (n + perPage - 1) % perPage;
    assert (q - 1) * perPage == q * perPage - perPage;
    q
  }

  lemma MulMonotone(a: int, b: int, c: nat)
    requires a <= b
    ensures a * c <= b * c
  {
  }

  /** A page exists exactly when its first row does. */
  lemma PageStartBounds(n: nat, page: nat, perPage: nat)
    requires page >= 1 && perPage > 0
    ensures page <= TotalPages(n, perPage) <==> (page - 1) * perPage < n
  {
    var t := TotalPages(n, perPage);
    if page <= t {
      MulMonotone(page - 1, t - 1, perPage);
    } else {
      MulMonotone(t, page - 1, perPage);
    }
  }

  /** `filtered.slice((page - 1) * perPage, page * perPage)`. */
  function Page<T>(s: seq<T>, page: nat, perPage: nat): (r: seq<T>)
    requires page >= 1 && perPage > 0
    ensures |r| <= perPage
    ensures r != [] ==> (page - 1) * perPage + |r| <= |s|
    ensures forall k :: 0 <= k < |r| ==> r[k] == s[(page - 1) * perPage + k]
    ensures page <= TotalPages(|s|, perPage) ==> |r| > 0
    ensures page > TotalPages(|s|, perPage) ==> r == []
  {
    PageStartBounds(|s|, page, perPage);
    Slice(s, (page - 1) * perPage, perPage)
  }

  /** `s.slice(start, start + size)`: at most `size` consecutive elements from `start`. */
  function Slice<T>(s: seq<T>, start: nat, size: nat): (r: seq<T>)
    ensures |r| <= size
    ensures r != [] ==> start + |r| <= |s|
    ensures forall k :: 0 <= k < |r| ==> r[k] == s[start + k]
    ensures start < |s| && size > 0 ==> |r| > 0
    ensures start >= |s| ==> r == []
  {
    s[Min(start, |s|)..Min(start + size, |s|)]
  }

  /** Pages 1 to k, one after another. */
  function PagesThrough<T>(s: seq<T>, perPage: nat, k: nat): seq<T>
    requires perPage > 0
  {
    if k == 0 then [] else PagesThrough(s, perPage, k - 1) + Page(s, k, perPage)
  }

  lemma {:induction false} PagesThroughPrefix<T>(s: seq<T>, perPage: nat, k: nat)
    requires perPage > 0
    ensures PagesThrough(s, perPage, k) == s[..Min(k * perPage, |s|)]
  {
    if k > 0 {
      PagesThroughPrefix(s, perPage, k - 1);
      var start := (k - 1) * perPage;
      assert k * perPage == start + perPage;
      var a, b := Min(start, |s|), Min(start + perPage, |s|);
      assert Page(s, k, perPage) == s[a..b];
      assert s[..b] == s[..a] + s[a..b];
    }
  }

  /** Stepping through every page shows the whole filtered list once, in order. */
  lemma PagesCoverList<T>(s: seq<T>, perPage: nat)
    requires perPage > 0
    ensures PagesThrough(s, perPage, TotalPages(|s|, perPage)) == s
  {
    PagesThroughPrefix(s, perPage, TotalPages(|s|, perPage));
  }

  /** "Showing `startIndex + 1` to `Math.min(endIndex, n)` of n". */
  function ShownRange(n: nat, page: nat, perPage: nat): (int, int)
    requires page >= 1 && perPage > 0
  {
    ((page - 1) * perPage + 1, Min(page * perPage, n))
  }

  /** On an existing page the caption numbers exactly the rows shown, within 1..n. */
  lemma ShownRangeCountsRows<T>(s: seq<T>, page: nat, perPage: nat)
    requires perPage > 0 && 1 <= page <= TotalPages(|s|, perPage)
    ensures 1 <= ShownRange(|s|, page, perPage).0 <= ShownRange(|s|, page, perPage).1 <= |s|
    ensures ShownRange(|s|, page, perPage).1 - ShownRange(|s|, page, perPage).0 + 1 == |Page(s, page, perPage)|
  {
    var t := TotalPages(|s|, perPage);
    MulMonotone(page - 1, t - 1, perPage);
    assert page * perPage == (page - 1) * perPage + perPage;
  }

  // ---------------------------------------------------------------------
  // Page buttons
  // ---------------------------------------------------------------------

  /** Whether the button of `page` is drawn: all of them up to seven pages, else the ends and the neighbours of the current page. */
  predicate ButtonShown(page: int, total: nat, current: int)
  {
    total <= 7 || page == 1 || page == total || (current - 1 <= page && page <= current + 1)
  }

  /** The drawn buttons among pages 1 to k, in increasing order. */
  function ButtonsThrough(k: nat, total: nat, current: int): (r: seq<int>)
    ensures |r| <= k
    ensures forall i :: 0 <= i < |r| ==> 1 <= r[i] <= k
    ensures forall i, j :: 0 <= i < j < |r| ==> r[i] < r[j]
    ensures forall p :: p in r <==> 1 <= p <= k && ButtonShown(p, total, current)
  {
    if k == 0 then []
    else ButtonsThrough(k - 1, total, current) + (if ButtonShown(k, total, current) then [k] else [])
  }

  /** The pages `1..totalPages` kept by the button filter. */
  function PageButtons(total: nat, current: int): seq<int>
  {
    ButtonsThrough(total, total, current)
  }

  lemma {:induction false} AllButtonsThrough(k: nat, total: nat, current: int)
    requires total <= 7
    ensures |ButtonsThrough(k, total, current)| == k
    ensures forall i :: 0 <= i < k ==> ButtonsThrough(k, total, current)[i] == i + 1
  {
    if k > 0 {
      AllButtonsThrough(k - 1, total, current);
      var prev := ButtonsThrough(k - 1, total, current);
      assert ButtonShown(k, total, current);
      assert ButtonsThrough(k, total, current) == prev + [k];
    }
  }

  /** Up to seven pages every page has its button and no ellipsis is drawn. */
  lemma FewPagesAllShown(total: nat, current: int)
    requires total <= 7
    ensures |PageButtons(total, current)| == total
    ensures forall i :: 0 <= i < total ==> PageButtons(total, current)[i] == i + 1
    ensures forall i :: 0 <= i < total ==> !EllipsisBefore(PageButtons(total, current), i)
  {
    AllButtonsThrough(total, total, current);
  }

  lemma {:induction false} ButtonsGrowAtMost(a: nat, b: nat, total: nat, current: int)
    requires a <= b
    ensures |ButtonsThrough(b, total, current)| <= |ButtonsThrough(a, total, current)| + (b - a)
  {
    if a < b {
      ButtonsGrowAtMost(a, b - 1, total, current);
    }
  }

  lemma {:induction false} ButtonsFlat(a: nat, b: nat, total: nat, current: int)
    requires a <= b
    requires forall p :: a < p <= b ==> !ButtonShown(p, total, current)
    ensures |ButtonsThrough(b, total, current)| == |ButtonsThrough(a, total, current)|
  {
    if a < b {
      ButtonsFlat(a, b - 1, total, current);
    }
  }

  /** Beyond seven pages at most five buttons are drawn: both ends and three around the current page. */
  lemma AtMostFiveButtons(total: nat, current: int)
    requires total > 7
    ensures |PageButtons(total, current)| <= 5
  {
    var m1: nat := Max(1, Min(current - 2, total - 1));
    var m2: nat := Max(m1, Min(current + 1, total - 1));
    ButtonsGrowAtMost(0, 1, total, current);
    ButtonsFlat(1, m1, total, current);
    ButtonsGrowAtMost(m1, m2, total, current);
    ButtonsFlat(m2, total - 1, total, current);
    ButtonsGrowAtMost(total - 1, total, total, current);
  }

  /** An ellipsis goes before the button at `index` when the button before it is not the previous page. */
  predicate EllipsisBefore(buttons: seq<int>, index: int)
    requires 0 <= index < |buttons|
  {
    index > 0 && buttons[index - 1] != buttons[index] - 1
  }

  /** An ellipsis is drawn exactly where pages are skipped, and every skipped page is one without a button. */
  lemma EllipsisMarksHiddenPages(total: nat, current: int, index: nat)
    requires index < |PageButtons(total, current)|
    ensures EllipsisBefore(PageButtons(total, current), index) <==>
      index > 0 && PageButtons(total, current)[index - 1] + 1 < PageButtons(total, current)[index]
    ensures index > 0 ==> forall p :: PageButtons(total, current)[index - 1] < p < PageButtons(total, current)[index] ==>
      1 <= p <= total && !ButtonShown(p, total, current)
  {
  }

  // ---------------------------------------------------------------------
  // Items
  // ---------------------------------------------------------------------

  /** An item row; `rate` and `castingWeight` are the numbers `Number()` reads from the row. */
  datatype Item = Item(id: int, name: string, barcode: Option<string>, partyId: Option<int>,
                       isActive: bool, rate: real, castingWeight: real)

  /** The name, or a non-empty barcode, holds the search text, ignoring case. */
  predicate ItemMatchesSearch(i: Item, search: string)
  {
    ContainsIgnoringCase(i.name, search)
    || (i.barcode.Some? && i.barcode.value != "" && ContainsIgnoringCase(i.barcode.value, search))
  }

  /** No party chosen keeps every item; otherwise only that party's. */
  predicate ItemMatchesParty(i: Item, party: Option<int>)
  {
    party.None? || i.partyId == party
  }

  predicate ItemKept(i: Item, search: string, party: Option<int>)
  {
    ItemMatchesSearch(i, search) && ItemMatchesParty(i, party)
  }

  /** Larger ids first. */
  function ItemNewestFirst(i: Item): int { -i.id }

  /** `filteredItems`: the matching items, newest first. */
  function FilterItems(items: seq<Item>, search: string, party: Option<int>): (r: seq<Item>)
    ensures forall x :: x in r <==> x in items && ItemKept(x, search, party)
    ensures forall i, j :: 0 <= i < j < |r| ==> r[i].id >= r[j].id
    ensures multiset(r) == multiset(Filter(items, (x: Item) => ItemKept(x, search, party)))
  {
    var kept := Filter(items, (x: Item) => ItemKept(x, search, party));
    FilterKeeps(items, (x: Item) => ItemKept(x, search, party));
    var r := SortByKey(kept, ItemNewestFirst);
    SortedKeeps(kept, ItemNewestFirst);
    assert forall i, j :: 0 <= i < j < |r| ==> ItemNewestFirst(r[i]) <= ItemNewestFirst(r[j]);
    r
  }

  /** Choosing a party only ever narrows the list. */
  lemma PartyNarrowsItems(items: seq<Item>, search: string, party: int)
    ensures forall x :: x in FilterItems(items, search, Some(party)) ==>
      x in FilterItems(items, search, None) && x.partyId == Some(party)
  {
  }

  /** The empty search keeps every item of the chosen party. */
  lemma EmptySearchKeepsParty(items: seq<Item>, party: Option<int>, x: Item)
    requires x in items && ItemMatchesParty(x, party)
    ensures x in FilterItems(items, "", party)
  {
    assert StartsWith(Lower(x.name), Lower(""));
  }

  datatype ItemStats = ItemStats(total: nat, active: nat, value: real)

  predicate ItemIsActive(i: Item) { i.isActive }

  function ItemValue(i: Item): real { i.rate * i.castingWeight }

  /** The three figures above the table, over the filtered items. */
  function ItemsStats(filtered: seq<Item>): (r: ItemStats)
    ensures r.total == |filtered| && r.active <= r.total
    ensures r.active == CountBy(filtered, ItemIsActive)
    ensures r.value == RealSumBy(filtered, ItemValue)
    ensures (forall x :: x in filtered ==> x.rate >= 0.0 && x.castingWeight >= 0.0) ==> r.value >= 0.0
  {
    CountByBound(filtered, ItemIsActive);
    RealSumNonNegative(filtered);
    ItemStats(|filtered|, CountBy(filtered, ItemIsActive), RealSumBy(filtered, ItemValue))
  }

  /**
   * The figures of a list are those of its parts added up, and one item
   * counts once, is active when it is, and is worth its rate times its
   * casting weight.
   */
  lemma ItemsStatsAppend(a: seq<Item>, b: seq<Item>, x: Item)
    ensures var s, t, u := ItemsStats(a + b), ItemsStats(a), ItemsStats(b);
            s.total == t.total + u.total && s.active == t.active + u.active && s.value == t.value + u.value
    ensures ItemsStats([x]) == ItemStats(1, if x.isActive then 1 else 0, x.rate * x.castingWeight)
  {
    CountByAppend(a, b, ItemIsActive);
    RealSumByAppend(a, b, ItemValue);
    assert [x][..|[x]| - 1] == [];
    assert CountBy([x], ItemIsActive) == CountBy([], ItemIsActive) + (if ItemIsActive(x) then 1 else 0);
    assert RealSumBy([x], ItemValue) == RealSumBy([], ItemValue) + ItemValue(x);
  }

  lemma {:induction false} RealSumNonNegative(s: seq<Item>)
    ensures (forall x :: x in s ==> x.rate >= 0.0 && x.castingWeight >= 0.0) ==> RealSumBy(s, ItemValue) >= 0.0
  {
    if s != [] && forall x :: x in s ==> x.rate >= 0.0 && x.castingWeight >= 0.0 {
      var init, last := s[..|s| - 1], s[|s| - 1];
      assert forall x :: x in init ==> x in s;
      RealSumNonNegative(init);
      assert last in s;
      ProductNonNegative(last.rate, last.castingWeight);
    }
  }

  lemma ProductNonNegative(a: real, b: real)
    requires a >= 0.0 && b >= 0.0
    ensures a * b >= 0.0
  {
  }

  // ---------------------------------------------------------------------
  // Barcode copies
  // ---------------------------------------------------------------------

  /** The highest copy count the number input declares (`max="100"`). */
  const MaxCopies: int := 100

  /** The three ways the count changes: the two arrow buttons and typing, with `parseInt` of the text (None for NaN). */
  datatype CopiesAction = Fewer | More | Typed(parsed: Option<int>)

  /** The count after one action, as the handlers compute it. */
  function CopiesAfter(count: int, a: CopiesAction): (r: int)
    ensures a.Fewer? ==> r == Max(1, count - 1)
    ensures a.More? ==> r == count + 1
    ensures a.Typed? && a.parsed.Some? && a.parsed.value >= 1 ==> r == a.parsed.value
    ensures a.Typed? && !(a.parsed.Some? && a.parsed.value >= 1) ==> r == 1
  {
    match a
    case Fewer => Max(1, count - 1)
    case More => count + 1
    case Typed(parsed) => Max(1, if parsed.None? || parsed.value == 0 then 1 else parsed.value)
  }

  function CopiesAfterAll(count: int, actions: seq<CopiesAction>): int
    decreases actions
  {
    if actions == [] then count else CopiesAfterAll(CopiesAfter(count, actions[0]), actions[1..])
  }

  /** From the initial count of 1, no sequence of actions brings the count below 1. */
  lemma {:induction false} CopiesNeverBelowOne(count: int, actions: seq<CopiesAction>)
    requires count >= 1
    ensures CopiesAfterAll(count, actions) >= 1
    decreases actions
  {
    if actions != [] {
      CopiesNeverBelowOne(CopiesAfter(count, actions[0]), actions[1..]);
    }
  }

  /** The arrow buttons as written take the count past the input's declared maximum. */
  lemma CopiesPassMaximum()
    ensures CopiesAfter(MaxCopies, More) == 101 > MaxCopies
  {
  }

  /** The count after one action, kept within the input's declared 1..100. */
  function BoundedCopiesAfter(count: int, a: CopiesAction): (r: int)
    ensures 1 <= r <= MaxCopies
    ensures 1 <= CopiesAfter(count, a) <= MaxCopies ==> r == CopiesAfter(count, a)
  {
    Max(1, Min(MaxCopies, CopiesAfter(count, a)))
  }

  function BoundedCopiesAfterAll(count: int, actions: seq<CopiesAction>): int
    decreases actions
  {
    if actions == [] then count else BoundedCopiesAfterAll(BoundedCopiesAfter(count, actions[0]), actions[1..])
  }

  /** From the initial count of 1, the bounded count always stays within 1..100. */
  lemma {:induction false} BoundedCopiesStayInRange(count: int, actions: seq<CopiesAction>)
    requires 1 <= count <= MaxCopies
    ensures 1 <= BoundedCopiesAfterAll(count, actions) <= MaxCopies
    decreases actions
  {
    if actions != [] {
      BoundedCopiesStayInRange(BoundedCopiesAfter(count, actions[0]), actions[1..]);
    }
  }

  // ---------------------------------------------------------------------
  // Challans
  // ---------------------------------------------------------------------

  /** A challan line; a missing quantity counts as 0 (`Number(x || 0)`). */
  datatype ChallanLine = ChallanLine(itemId: Option<int>, nestedItemId: Option<int>, ok: int, cr: int, mr: int)

  datatype Challan = Challan(id: int, number: string, partyName: Option<string>, status: string,
                             partyId: Option<int>, items: seq<ChallanLine>)

  /** The filter controls; "" is "all" for the status, None for party and item. */
  datatype ChallanFilters = ChallanFilters(search: string, status: string, party: Option<int>, item: Option<int>)

  predicate ChallanMatchesSearch(c: Challan, search: string)
  {
    ContainsIgnoringCase(c.number, search) || (c.partyName.Some? && ContainsIgnoringCase(c.partyName.value, search))
  }

  /** A line names the item either by `item_id` or through its nested `item`. */
  predicate LineNamesItem(l: ChallanLine, item: int)
  {
    l.itemId == Some(item) || l.nestedItemId == Some(item)
  }

  predicate ChallanHasItem(c: Challan, item: int)
  {
    exists k :: 0 <= k < |c.items| && LineNamesItem(c.items[k], item)
  }

  predicate ChallanKept(c: Challan, f: ChallanFilters)
  {
    ChallanMatchesSearch(c, f.search)
    && (f.status == "" || c.status == f.status)
    && (f.party.None? || c.partyId == f.party)
    && (f.item.None? || ChallanHasItem(c, f.item.value))
  }

  function ChallanNewestFirst(c: Challan): int { -c.id }

  /** `filteredChallans`: the challans every filter keeps, newest first. */
  function FilterChallans(cs: seq<Challan>, f: ChallanFilters): (r: seq<Challan>)
    ensures forall x :: x in r <==> x in cs && ChallanKept(x, f)
    ensures forall i, j :: 0 <= i < j < |r| ==> r[i].id >= r[j].id
    ensures multiset(r) == multiset(Filter(cs, (x: Challan) => ChallanKept(x, f)))
  {
    var kept := Filter(cs, (x: Challan) => ChallanKept(x, f));
    FilterKeeps(cs, (x: Challan) => ChallanKept(x, f));
    var r := SortByKey(kept, ChallanNewestFirst);
    SortedKeeps(kept, ChallanNewestFirst);
    assert forall i, j :: 0 <= i < j < |r| ==> ChallanNewestFirst(r[i]) <= ChallanNewestFirst(r[j]);
    r
  }

  predicate IsSent(c: Challan) { c.status == "sent" }
  predicate IsDelivered(c: Challan) { c.status == "delivered" }

  function LineQuantity(l: ChallanLine): int { l.ok + l.cr + l.mr }

  function ChallanQuantity(c: Challan): int { SumBy(c.items, LineQuantity) }

  datatype ChallanStats = ChallanStats(total: nat, sent: nat, delivered: nat, quantitySent: int, quantityDelivered: int)

  /** A challan's share of the sent total: all its lines when it is sent, else nothing. */
  function SentShare(c: Challan): int { if IsSent(c) then ChallanQuantity(c) else 0 }

  function DeliveredShare(c: Challan): int { if IsDelivered(c) then ChallanQuantity(c) else 0 }

  /** Summing over the passing elements is summing a share that is zero for the others. */
  lemma {:induction false} SumOverFilter<T>(s: seq<T>, p: T -> bool, f: T -> int, share: T -> int)
    requires forall x :: share(x) == if p(x) then f(x) else 0
    ensures SumBy(Filter(s, p), f) == SumBy(s, share)
  {
    if s != [] {
      var init, last := s[..|s| - 1], s[|s| - 1];
      SumOverFilter(init, p, f, share);
      SumByAppend(Filter(init, p), if p(last) then [last] else [], f);
    }
  }

  /** The figures above the table, over the filtered challans. */
  function ChallansStats(filtered: seq<Challan>): (r: ChallanStats)
    ensures r.total == |filtered|
    ensures r.sent == CountBy(filtered, IsSent) && r.delivered == CountBy(filtered, IsDelivered)
    ensures r.sent + r.delivered <= r.total
    ensures r.quantitySent == SumBy(filtered, SentShare)
    ensures r.quantityDelivered == SumBy(filtered, DeliveredShare)
    ensures NonNegativeQuantities(filtered) ==>
      0 <= r.quantitySent && 0 <= r.quantityDelivered && r.quantitySent + r.quantityDelivered <= SumBy(filtered, ChallanQuantity)
  {
    var sent := Filter(filtered, IsSent);
    var delivered := Filter(filtered, IsDelivered);
    CountByDisjoint(filtered, IsSent, IsDelivered);
    FilterLength(filtered, IsSent);
    FilterLength(filtered, IsDelivered);
    DisjointQuantities(filtered);
    SumOverFilter(filtered, IsSent, ChallanQuantity, SentShare);
    SumOverFilter(filtered, IsDelivered, ChallanQuantity, DeliveredShare);
    ChallanStats(|filtered|, |sent|, |delivered|, SumBy(sent, ChallanQuantity), SumBy(delivered, ChallanQuantity))
  }

  predicate NonNegativeQuantities(cs: seq<Challan>)
  {
    forall c :: c in cs ==> ChallanQuantity(c) >= 0
  }

  lemma {:induction false} DisjointQuantities(s: seq<Challan>)
    ensures NonNegativeQuantities(s) ==>
      0 <= SumBy(s, SentShare) && 0 <= SumBy(s, DeliveredShare)
      && SumBy(s, SentShare) + SumBy(s, DeliveredShare) <= SumBy(s, ChallanQuantity)
  {
    if s != [] && NonNegativeQuantities(s) {
      var init, last := s[..|s| - 1], s[|s| - 1];
      assert forall c :: c in init ==> c in s;
      assert last in s;
      DisjointQuantities(init);
    }
  }

  // ---------------------------------------------------------------------
  // Challan filter state
  // ---------------------------------------------------------------------

  /** The challan screen's filters and the page it shows. */
  datatype ChallanView = ChallanView(filters: ChallanFilters, page: nat)

  const InitialChallanView: ChallanView := ChallanView(ChallanFilters("", "", None, None), 1)

  datatype FilterEvent = SetSearch(search: string) | SetStatus(status: string) | SetParty(party: Option<int>)
                       | SetItem(item: Option<int>) | GoToPage(page: nat)

  /**
   * One event followed by the screen's effects: a changed party clears the
   * item filter, and any changed filter returns to page 1.
   */
  function Step(v: ChallanView, e: FilterEvent): (r: ChallanView)
    ensures e.SetParty? && e.party != v.filters.party ==> r.filters.item.None? && r.page == 1
    ensures e.SetParty? ==> r.filters.party == e.party
    ensures !e.SetParty? ==> r.filters.party == v.filters.party
    ensures !e.GoToPage? && r.filters != v.filters ==> r.page == 1
    ensures e.GoToPage? ==> r == v.(page := e.page)
  {
    match e
    case SetSearch(s) => if s == v.filters.search then v else ChallanView(v.filters.(search := s), 1)
    case SetStatus(s) => if s == v.filters.status then v else ChallanView(v.filters.(status := s), 1)
    case SetParty(p) => if p == v.filters.party then v else ChallanView(v.filters.(party := p, item := None), 1)
    case SetItem(i) => if i == v.filters.item then v else ChallanView(v.filters.(item := i), 1)
    case GoToPage(n) => v.(page := n)
  }

  /** `filteredItems.filter(is_active)`: the item select's options for the chosen party. */
  function ItemOptions(items: seq<Item>, party: Option<int>): (r: seq<Item>)
    ensures forall x :: x in r <==> x in items && x.isActive && ItemMatchesParty(x, party)
  {
    FilterKeeps(items, (x: Item) => x.isActive && ItemMatchesParty(x, party));
    Filter(items, (x: Item) => x.isActive && ItemMatchesParty(x, party))
  }

  /** The item filter is unset, or names an offered item of the chosen party. */
  predicate ItemFilterFits(v: ChallanView, items: seq<Item>)
  {
    v.filters.item.None?
    || (v.filters.party.Some? && exists x :: x in ItemOptions(items, v.filters.party) && x.id == v.filters.item.value)
  }

  /** What the controls allow: the item select is disabled without a party and offers only its options. */
  predicate Offered(v: ChallanView, items: seq<Item>, e: FilterEvent)
  {
    e.SetItem? ==> e.item.None? || (v.filters.party.Some? && exists x :: x in ItemOptions(items, v.filters.party) && x.id == e.item.value)
  }

  /** Through any event the controls allow, the item filter never names another party's item. */
  lemma StepKeepsItemFilterFitting(v: ChallanView, items: seq<Item>, e: FilterEvent)
    requires ItemFilterFits(v, items) && Offered(v, items, e)
    ensures ItemFilterFits(Step(v, e), items)
  {
  }

  /** A filtered challan with an item filter set belongs to the filter's party and carries the item. */
  lemma ItemFilterImpliesParty(cs: seq<Challan>, v: ChallanView, items: seq<Item>, c: Challan)
    requires ItemFilterFits(v, items) && v.filters.item.Some?
    requires c in FilterChallans(cs, v.filters)
    ensures c.partyId == v.filters.party && ChallanHasItem(c, v.filters.item.value)
  {
  }
}
