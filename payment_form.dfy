/**
 * The payment form of the payments screen: the list of a party's pending
 * invoices, the per-invoice allocation map (invoice id to amount), the
 * oldest-first auto-allocation, the allocation toggle that recomputes the
 * amount, and the request the form submits.
 * Amounts are integer paise; dates are day numbers.
 */
module PaymentForm {
  import opened Common
  import Payments

  datatype PendingInvoice = PendingInvoice(id: int, invoiceDate: int, grandTotal: int, paidAmount: int)

  /** What is still owed on an invoice. */
  function Due(inv: PendingInvoice): int { inv.grandTotal - inv.paidAmount }

  function PositiveDue(inv: PendingInvoice): int { if Due(inv) > 0 then Due(inv) else 0 }

  function Ids(s: seq<PendingInvoice>): set<int> { set inv | inv in s :: inv.id }

  predicate UniqueIds(s: seq<PendingInvoice>)
  {
    forall i, j :: 0 <= i < j < |s| ==> s[i].id != s[j].id
  }

  // ---------------------------------------------------------------------
  // Sum of the values of an allocation map.
  // ---------------------------------------------------------------------

  /** Some key of a non-empty map; which one is left open. */
  ghost function AnyKey(m: map<int, int>): (k: int)
    requires m.Keys != {}
    ensures k in m
  {
    NonEmptyHasElement(m.Keys);
    var k :| k in m.Keys; k
  }

  ghost function MapSum(m: map<int, int>): int
    decreases |m|
  {
    if m.Keys == {} then 0
    else
      var k := AnyKey(m);
      assert |m - {k}| < |m| by { assert m.Keys - {k} < m.Keys; }
      m[k] + MapSum(m - {k})
  }

  /** The sum does not depend on which key is taken out first. */
  lemma {:induction false} MapSumRemove(m: map<int, int>, k: int)
    requires k in m
    ensures MapSum(m) == m[k] + MapSum(m - {k})
    decreases |m|
  {
    var j := AnyKey(m);
    assert |m - {j}| < |m| by { assert m.Keys - {j} < m.Keys; }
    if j != k {
      assert |m - {k}| < |m| by { assert m.Keys - {k} < m.Keys; }
      MapSumRemove(m - {j}, k);
      MapSumRemove(m - {k}, j);
      assert m - {j} - {k} == m - {k} - {j};
    }
  }

  lemma MapSumAdd(m: map<int, int>, k: int, v: int)
    requires k !in m
    ensures MapSum(m[k := v]) == v + MapSum(m)
  {
    MapSumRemove(m[k := v], k);
    assert m[k := v] - {k} == m;
  }

  lemma {:induction false} MapSumNonNegative(m: map<int, int>)
    requires forall k :: k in m ==> m[k] >= 0
    ensures MapSum(m) >= 0
    decreases |m|
  {
    if m.Keys != {} {
      NonEmptyHasElement(m.Keys);
      var k :| k in m;
      assert |m - {k}| < |m| by { assert m.Keys - {k} < m.Keys; }
      MapSumRemove(m, k);
      MapSumNonNegative(m - {k});
    }
  }

  // ---------------------------------------------------------------------
  // Oldest-first auto-allocation.
  // ---------------------------------------------------------------------

  /**
   * Walk the invoices in list order while money remains; each takes the
   * smaller of what remains and its due, and only a positive share is recorded.
   */
  function Greedy(invs: seq<PendingInvoice>, remaining: int): map<int, int>
    decreases |invs|
  {
    if invs == [] || remaining <= 0 then map[]
    else
      var share := if remaining < Due(invs[0]) then remaining else Due(invs[0]);
      if share > 0 then map[invs[0].id := share] + Greedy(invs[1..], remaining - share)
      else Greedy(invs[1..], remaining)
  }

  lemma {:induction false} GreedyKeys(invs: seq<PendingInvoice>, remaining: int)
    ensures Greedy(invs, remaining).Keys <= Ids(invs)
    decreases |invs|
  {
    if invs != [] && remaining > 0 {
      var share := if remaining < Due(invs[0]) then remaining else Due(invs[0]);
      GreedyKeys(invs[1..], if share > 0 then remaining - share else remaining);
      assert Ids(invs[1..]) <= Ids(invs) by {
        forall x | x in Ids(invs[1..]) ensures x in Ids(invs) {
          var inv :| inv in invs[1..] && inv.id == x;
          assert inv in invs;
        }
      }
    }
  }

  lemma IdsOfTail(invs: seq<PendingInvoice>)
    requires invs != [] && UniqueIds(invs)
    ensures invs[0].id !in Ids(invs[1..]) && UniqueIds(invs[1..])
  {
    forall inv | inv in invs[1..] ensures inv.id != invs[0].id {
      var j :| 0 <= j < |invs[1..]| && invs[1..][j] == inv;
      assert invs[j + 1] == inv;
    }
  }

  /** Every allocation is positive and at most that invoice's due; invoices owing nothing get none. */
  lemma {:induction false} GreedyBounds(invs: seq<PendingInvoice>, remaining: int, i: int)
    requires UniqueIds(invs) && 0 <= i < |invs|
    ensures var r := Greedy(invs, remaining);
            invs[i].id in r ==> 0 < r[invs[i].id] <= Due(invs[i])
    ensures Due(invs[i]) <= 0 ==> invs[i].id !in Greedy(invs, remaining)
    decreases |invs|
  {
    if remaining > 0 {
      var share := if remaining < Due(invs[0]) then remaining else Due(invs[0]);
      var next := if share > 0 then remaining - share else remaining;
      IdsOfTail(invs);
      GreedyKeys(invs[1..], next);
      if i > 0 {
        GreedyBounds(invs[1..], next, i - 1);
      }
    }
  }

  /** The allocations never add up to more than the amount entered (nor to less than zero). */
  lemma {:induction false} GreedySum(invs: seq<PendingInvoice>, remaining: int)
    requires UniqueIds(invs)
    ensures 0 <= MapSum(Greedy(invs, remaining)) <= (if remaining > 0 then remaining else 0)
    decreases |invs|
  {
    if invs != [] && remaining > 0 {
      var share := if remaining < Due(invs[0]) then remaining else Due(invs[0]);
      var next := if share > 0 then remaining - share else remaining;
      IdsOfTail(invs);
      GreedySum(invs[1..], next);
      if share > 0 {
        var rest := Greedy(invs[1..], next);
        GreedyKeys(invs[1..], next);
        assert map[invs[0].id := share] + rest == rest[invs[0].id := share];
        MapSumAdd(rest, invs[0].id, share);
      }
    }
  }

  /** Oldest first: an invoice that receives anything comes after invoices that were paid in full. */
  lemma {:induction false} GreedyOldestFirst(invs: seq<PendingInvoice>, remaining: int, i: int, j: int)
    requires UniqueIds(invs) && 0 <= i < j < |invs|
    requires invs[j].id in Greedy(invs, remaining) && Due(invs[i]) > 0
    ensures invs[i].id in Greedy(invs, remaining)
    ensures Greedy(invs, remaining)[invs[i].id] == Due(invs[i])
    decreases |invs|
  {
    var share := if remaining < Due(invs[0]) then remaining else Due(invs[0]);
    var next := if share > 0 then remaining - share else remaining;
    IdsOfTail(invs);
    if i == 0 {
      GreedyHeadPaid(invs, remaining, j);
    } else {
      GreedyTailAgrees(invs, remaining, j);
      GreedyTailAgrees(invs, remaining, i);
      GreedyOldestFirst(invs[1..], next, i - 1, j - 1);
    }
  }

  /** Past the first invoice, the allocation is the one made to the rest of the list. */
  lemma GreedyTailAgrees(invs: seq<PendingInvoice>, remaining: int, k: int)
    requires UniqueIds(invs) && 0 < k < |invs|
    ensures var share := if remaining < Due(invs[0]) then remaining else Due(invs[0]);
            var rest := Greedy(invs[1..], if share > 0 then remaining - share else remaining);
            invs[k] == invs[1..][k - 1]
            && (invs[k].id in Greedy(invs, remaining) <==> invs[k].id in rest)
            && (invs[k].id in rest ==> Greedy(invs, remaining)[invs[k].id] == rest[invs[k].id])
  {
    IdsOfTail(invs);
    assert invs[k] in invs[1..];
  }

  /** One step of the walk: the first invoice's share joins what was allocated before it. */
  lemma GreedyStep(s: seq<PendingInvoice>, remaining: int, alloc: map<int, int>)
    requires s != []
    ensures var share := if remaining < Due(s[0]) then remaining else Due(s[0]);
            alloc + Greedy(s, remaining) ==
              if remaining <= 0 then alloc + Greedy(s[1..], remaining)
              else if share > 0 then alloc[s[0].id := share] + Greedy(s[1..], remaining - share)
              else alloc + Greedy(s[1..], remaining)
  {
    var share := if remaining < Due(s[0]) then remaining else Due(s[0]);
    if remaining <= 0 {
      assert Greedy(s[1..], remaining) == map[];
    } else if share > 0 {
      var rest := Greedy(s[1..], remaining - share);
      assert alloc + (map[s[0].id := share] + rest) == alloc[s[0].id := share] + rest;
    }
  }

  /** When a later invoice receives anything, the first one was paid its whole due. */
  lemma GreedyHeadPaid(invs: seq<PendingInvoice>, remaining: int, j: int)
    requires UniqueIds(invs) && 0 < j < |invs|
    requires invs[j].id in Greedy(invs, remaining) && Due(invs[0]) > 0
    ensures invs[0].id in Greedy(invs, remaining)
    ensures Greedy(invs, remaining)[invs[0].id] == Due(invs[0])
  {
    assert remaining > 0;
    IdsOfTail(invs);
    assert invs[j].id != invs[0].id;
    if remaining < Due(invs[0]) {
      assert false;
    }
    var rest := Greedy(invs[1..], remaining - Due(invs[0]));
    GreedyKeys(invs[1..], remaining - Due(invs[0]));
    assert invs[0].id !in rest;
    assert Greedy(invs, remaining) == map[invs[0].id := Due(invs[0])] + rest;
  }

  lemma TotalDueHead(invs: seq<PendingInvoice>)
    requires invs != []
    ensures SumBy(invs, PositiveDue) == PositiveDue(invs[0]) + SumBy(invs[1..], PositiveDue)
    ensures SumBy(invs[1..], PositiveDue) >= 0
  {
    assert invs == [invs[0]] + invs[1..];
    SumByAppend([invs[0]], invs[1..], PositiveDue);
    assert [invs[0]][..0] == [];
    SumByNonNegative(invs[1..], PositiveDue);
  }

  /** An amount covering the total due pays every owing invoice exactly its due. */
  lemma {:induction false} GreedyCoversAll(invs: seq<PendingInvoice>, remaining: int)
    requires UniqueIds(invs)
    requires remaining >= SumBy(invs, PositiveDue)
    ensures forall i :: 0 <= i < |invs| && Due(invs[i]) > 0 ==>
              invs[i].id in Greedy(invs, remaining) && Greedy(invs, remaining)[invs[i].id] == Due(invs[i])
    decreases |invs|
  {
    if remaining <= 0 {
      forall i | 0 <= i < |invs| ensures Due(invs[i]) <= 0 {
        SumByAtLeastOne(invs, PositiveDue, i);
      }
    } else if invs != [] {
      TotalDueHead(invs);
      IdsOfTail(invs);
      var share := if remaining < Due(invs[0]) then remaining else Due(invs[0]);
      var next := if share > 0 then remaining - share else remaining;
      assert next >= SumBy(invs[1..], PositiveDue);
      GreedyKeys(invs[1..], next);
      GreedyCoversAll(invs[1..], next);
      forall i | 0 < i < |invs| && Due(invs[i]) > 0
        ensures invs[i].id in Greedy(invs, remaining) && Greedy(invs, remaining)[invs[i].id] == Due(invs[i])
      {
        GreedyTailAgrees(invs, remaining, i);
      }
    }
  }

  // ---------------------------------------------------------------------
  // Merging the pending list.
  // ---------------------------------------------------------------------

  /** Keep the first invoice of each id, in list order. */
  function Dedupe(s: seq<PendingInvoice>): (r: seq<PendingInvoice>)
    ensures UniqueIds(r) && Ids(r) == Ids(s)
    ensures forall x :: x in r ==> x in s
  {
    if s == [] then []
    else
      var d := Dedupe(s[..|s| - 1]);
      var last := s[|s| - 1];
      assert forall x :: x in s[..|s| - 1] ==> x in s;
      assert Ids(s) == Ids(s[..|s| - 1]) + {last.id} by {
        assert s == s[..|s| - 1] + [last];
      }
      if last.id in Ids(d) then d
      else
        assert forall i :: 0 <= i < |d| ==> d[i].id != last.id by {
          forall i | 0 <= i < |d| ensures d[i].id != last.id { assert d[i] in d; }
        }
        d + [last]
  }

  lemma DedupeSnoc(s: seq<PendingInvoice>, i: int)
    requires 0 <= i < |s|
    ensures var d := Dedupe(s[..i]);
            Dedupe(s[..i + 1]) == if s[i].id in Ids(d) then d else d + [s[i]]
  {
    assert s[..i + 1][..i] == s[..i];
  }

  /** An invoice that is the first of its id survives the merge. */
  lemma {:induction false} DedupeKeepsFirst(s: seq<PendingInvoice>, j: int)
    requires 0 <= j < |s|
    requires forall i :: 0 <= i < j ==> s[i].id != s[j].id
    ensures s[j] in Dedupe(s)
  {
    var init := s[..|s| - 1];
    if j < |s| - 1 {
      DedupeKeepsFirst(init, j);
    } else {
      forall x | x in init ensures x.id != s[j].id {
        var i :| 0 <= i < |init| && init[i] == x;
        assert s[i] == x;
      }
    }
  }

  /** The sort key of the pending list. */
  function InvoiceDay(inv: PendingInvoice): int { inv.invoiceDate }

  lemma IdsOfMultiset(a: seq<PendingInvoice>, b: seq<PendingInvoice>)
    requires multiset(a) == multiset(b)
    ensures Ids(a) == Ids(b)
  {
    forall x | x in Ids(a) ensures x in Ids(b) {
      var inv :| inv in a && inv.id == x;
      assert inv in multiset(b);
    }
    forall x | x in Ids(b) ensures x in Ids(a) {
      var inv :| inv in b && inv.id == x;
      assert inv in multiset(a);
    }
  }

  /** Inserting an invoice whose id is new keeps the ids distinct. */
  lemma {:induction false} InsertKeepsUnique(t: seq<PendingInvoice>, x: PendingInvoice)
    requires UniqueIds(t) && x.id !in Ids(t)
    ensures UniqueIds(InsertByKey(t, x, InvoiceDay))
  {
    if t != [] && t[|t| - 1].invoiceDate > x.invoiceDate {
      var init, last := t[..|t| - 1], t[|t| - 1];
      UniqueFront(t);
      InsertKeepsUnique(init, x);
      var p := InsertByKey(init, x, InvoiceDay);
      IdsOfMultiset(p, init + [x]);
      IdsSnoc(init, x);
      assert last.id != x.id by { assert last in t; }
      UniqueSnoc(p, last);
    } else if t != [] {
      forall k | 0 <= k < |t| ensures t[k].id != x.id { assert t[k] in t; }
    }
  }

  lemma UniqueFront(t: seq<PendingInvoice>)
    requires UniqueIds(t) && t != []
    ensures UniqueIds(t[..|t| - 1]) && t[|t| - 1].id !in Ids(t[..|t| - 1])
    ensures Ids(t[..|t| - 1]) <= Ids(t)
  {
    var init := t[..|t| - 1];
    forall y | y in init ensures y.id != t[|t| - 1].id && y in t {
      var i :| 0 <= i < |init| && init[i] == y;
      assert t[i] == y;
    }
  }

  lemma IdsSnoc(s: seq<PendingInvoice>, x: PendingInvoice)
    ensures Ids(s + [x]) == Ids(s) + {x.id}
  {
    assert forall y :: y in s + [x] <==> y in s || y == x;
  }

  lemma UniqueSnoc(p: seq<PendingInvoice>, last: PendingInvoice)
    requires UniqueIds(p) && last.id !in Ids(p)
    ensures UniqueIds(p + [last])
  {
    forall k | 0 <= k < |p| ensures p[k].id != last.id {
      assert p[k] in p;
    }
  }

  lemma {:induction false} SortKeepsUnique(s: seq<PendingInvoice>)
    requires UniqueIds(s)
    ensures UniqueIds(SortByKey(s, InvoiceDay))
  {
    if s != [] {
      var init, last := s[..|s| - 1], s[|s| - 1];
      SortKeepsUnique(init);
      IdsOfMultiset(SortByKey(init, InvoiceDay), init);
      forall y | y in init ensures y.id != last.id {
        var i :| 0 <= i < |init| && init[i] == y;
        assert s[i] == y;
      }
      InsertKeepsUnique(SortByKey(init, InvoiceDay), last);
    }
  }

  /** The pending list: no id twice, every id offered, ordered by invoice date. */
  lemma PendingListShape(extra: seq<PendingInvoice>, fetched: seq<PendingInvoice>)
    ensures var r := SortByKey(Dedupe(extra + fetched), InvoiceDay);
            UniqueIds(r) && SortedByKey(r, InvoiceDay) && Ids(r) == Ids(extra + fetched)
            && forall x :: x in r ==> x in extra + fetched
  {
    var d := Dedupe(extra + fetched);
    SortKeepsUnique(d);
    IdsOfMultiset(SortByKey(d, InvoiceDay), d);
    forall x | x in SortByKey(d, InvoiceDay) ensures x in extra + fetched {
      assert x in multiset(d);
    }
  }

  /** An invoice of the payment being edited wins over the fetched copy with the same id. */
  lemma ExtraWins(extra: seq<PendingInvoice>, fetched: seq<PendingInvoice>, j: int)
    requires 0 <= j < |extra|
    requires forall i :: 0 <= i < j ==> extra[i].id != extra[j].id
    ensures extra[j] in SortByKey(Dedupe(extra + fetched), InvoiceDay)
  {
    var all := extra + fetched;
    assert all[j] == extra[j];
    DedupeKeepsFirst(all, j);
    assert extra[j] in multiset(Dedupe(all));
  }

  // ---------------------------------------------------------------------
  // The toggle.
  // ---------------------------------------------------------------------

  /** A present, non-zero allocation is removed; otherwise the invoice gets its whole due. */
  function Toggled(m: map<int, int>, invId: int, due: int): (r: map<int, int>)
    ensures invId in m && m[invId] != 0 ==> r == m - {invId}
    ensures !(invId in m && m[invId] != 0) ==> r == m[invId := due]
  {
    if invId in m && m[invId] != 0 then m - {invId} else m[invId := due]
  }

  /** Toggling twice restores the map when the due is non-zero and the invoice was untouched or held its due. */
  lemma ToggleTwice(m: map<int, int>, invId: int, due: int)
    requires due != 0
    requires invId !in m || m[invId] == due
    ensures Toggled(Toggled(m, invId, due), invId, due) == m
  {
    if invId !in m {
      assert m[invId := due] - {invId} == m;
    } else {
      assert (m - {invId})[invId := due] == m;
    }
  }

  /** The toggle moves the total by exactly the amount added or removed. */
  lemma ToggleSum(m: map<int, int>, invId: int, due: int)
    ensures invId in m && m[invId] != 0 ==> MapSum(Toggled(m, invId, due)) == MapSum(m) - m[invId]
    ensures invId !in m ==> MapSum(Toggled(m, invId, due)) == MapSum(m) + due
  {
    if invId in m {
      MapSumRemove(m, invId);
    } else {
      MapSumAdd(m, invId, due);
    }
  }

  // ---------------------------------------------------------------------
  // The form.
  // ---------------------------------------------------------------------

  datatype FormData = FormData(
    partyId: int, paymentDate: int, amount: int, paymentType: string,
    paymentMode: string, referenceNumber: string, notes: string)

  datatype PaymentRequest =
    | UpdateRequest(paymentId: int, fields: FormData)
    | CreateRequest(fields: FormData, allocations: seq<Payments.Allocation>)

  predicate StrictlyIncreasingIds(s: seq<Payments.Allocation>)
  {
    forall i, j :: 0 <= i < j < |s| ==> s[i].invoiceId < s[j].invoiceId
  }

  lemma {:induction false} MinExists(s: set<int>)
    requires s != {}
    ensures exists k :: k in s && forall j :: j in s ==> k <= j
    decreases |s|
  {
    NonEmptyHasElement(s);
    var x :| x in s;
    var rest := s - {x};
    if rest == {} {
      forall j | j in s ensures x <= j {
        assert j !in rest;
      }
    } else {
      assert |rest| < |s| by { assert rest < s; }
      MinExists(rest);
      var k :| k in rest && forall j :: j in rest ==> k <= j;
      var least := if x < k then x else k;
      forall j | j in s ensures least <= j {
        if j != x { assert j in rest; }
      }
      assert least in s;
    }
  }

  /** `Object.values(m).reduce(+)`: the sum of the values, in any key order. */
  method SumValues(m: map<int, int>) returns (total: int)
    ensures total == MapSum(m)
  {
    total := 0;
    var rest := m;
    while rest.Keys != {}
      invariant total + MapSum(rest) == MapSum(m)
      decreases |rest|
    {
      NonEmptyHasElement(rest.Keys);
      var k :| k in rest;
      MapSumRemove(rest, k);
      assert rest.Keys - {k} < rest.Keys;
      total := total + rest[k];
      rest := rest - {k};
    }
  }

  /** `Object.entries(m)` for integer keys: one entry per key, in ascending key order. */
  method Entries(m: map<int, int>) returns (out: seq<Payments.Allocation>)
    ensures StrictlyIncreasingIds(out)
    ensures forall a :: a in out ==> a.invoiceId in m && m[a.invoiceId] == a.amount
    ensures forall id :: id in m ==> Payments.Allocation(id, m[id]) in out
  {
    out := [];
    var rest := m.Keys;
    while rest != {}
      invariant rest <= m.Keys
      invariant StrictlyIncreasingIds(out)
      invariant forall a :: a in out ==> a.invoiceId in m && m[a.invoiceId] == a.amount
      invariant forall i, id :: 0 <= i < |out| && id in rest ==> out[i].invoiceId < id
      invariant forall id :: id in m ==> id in rest || Payments.Allocation(id, m[id]) in out
      decreases |rest|
    {
      MinExists(rest);
      var k :| k in rest && forall j :: j in rest ==> k <= j;
      out := out + [Payments.Allocation(k, m[k])];
      rest := rest - {k};
    }
  }

  class Form {
    var form: FormData
    var allocations: map<int, int>
    var pending: seq<PendingInvoice>
    var editId: Option<int>

    /** A fresh "record payment" form. */
    constructor (today: int)
      ensures editId == None && allocations == map[] && pending == []
      ensures form == FormData(0, today, 0, "RECEIVED", "CASH", "", "")
    {
      form := FormData(0, today, 0, "RECEIVED", "CASH", "", "");
      allocations := map[];
      pending := [];
      editId := None;
    }

    /** The edit-payment invoices first, then the fetched ones; first of each id kept; sorted by date. */
    method LoadPending(extra: seq<PendingInvoice>, fetched: seq<PendingInvoice>)
      modifies this`pending
      ensures pending == SortByKey(Dedupe(extra + fetched), InvoiceDay)
    {
      var all := extra + fetched;
      var unique: seq<PendingInvoice> := [];
      var seen: set<int> := {};
      var i := 0;
      while i < |all|
        invariant 0 <= i <= |all|
        invariant unique == Dedupe(all[..i]) && seen == Ids(unique)
      {
        var inv := all[i];
        DedupeSnoc(all, i);
        if inv.id !in seen {
          IdsSnoc(unique, inv);
          seen := seen + {inv.id};
          unique := unique + [inv];
        }
        i := i + 1;
      }
      assert all[..i] == all;
      pending := SortByKey(unique, InvoiceDay);
    }

    /** Allocate the entered amount to the pending invoices, oldest first. */
    method AutoAllocate()
      modifies this`allocations
      ensures allocations == Greedy(pending, form.amount)
    {
      var remaining := form.amount;
      var alloc: map<int, int> := map[];
      var i := 0;
      assert pending[0..] == pending;
      while i < |pending|
        invariant 0 <= i <= |pending|
        invariant alloc + Greedy(pending[i..], remaining) == Greedy(pending, form.amount)
      {
        var inv := pending[i];
        assert pending[i..][1..] == pending[i + 1..];
        GreedyStep(pending[i..], remaining, alloc);
        if remaining > 0 {
          var due := Due(inv);
          var share := if remaining < due then remaining else due;
          if share > 0 {
            alloc := alloc[inv.id := share];
            remaining := remaining - share;
          }
        }
        i := i + 1;
      }
      allocations := alloc;
    }

    /** Toggle one invoice and set the amount to the sum of all allocations. */
    method ToggleAllocation(invId: int, due: int)
      modifies this`allocations, this`form
      ensures allocations == Toggled(old(allocations), invId, due)
      ensures form == old(form).(amount := MapSum(allocations))
    {
      allocations := Toggled(allocations, invId, due);
      var total := SumValues(allocations);
      form := form.(amount := total);
    }

    /**
     * Editing sends the form fields only; creating also sends one allocation
     * per map entry, in ascending invoice id (the order of integer keys).
     */
    method Submit() returns (req: PaymentRequest)
      ensures editId.Some? ==> req == UpdateRequest(editId.value, form)
      ensures editId.None? ==> req.CreateRequest? && req.fields == form
      ensures editId.None? ==>
        StrictlyIncreasingIds(req.allocations)
        && (forall a :: a in req.allocations ==> a.invoiceId in allocations && allocations[a.invoiceId] == a.amount)
        && forall id :: id in allocations ==> Payments.Allocation(id, allocations[id]) in req.allocations
    {
      if editId.Some? {
        return UpdateRequest(editId.value, form);
      }
      var out := Entries(allocations);
      req := CreateRequest(form, out);
    }
  }

  /** Auto-allocating and then submitting a new payment sends exactly the greedy shares, none over its due. */
  lemma AutoAllocatedRequest(pending: seq<PendingInvoice>, amount: int, a: Payments.Allocation, i: int)
    requires UniqueIds(pending) && 0 <= i < |pending| && pending[i].id == a.invoiceId
    requires a.invoiceId in Greedy(pending, amount) && Greedy(pending, amount)[a.invoiceId] == a.amount
    ensures 0 < a.amount <= Due(pending[i])
  {
    GreedyBounds(pending, amount, i);
  }
}
