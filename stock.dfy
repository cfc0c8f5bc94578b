/**
 * Stock on hand (backend/app/utils/stock.py) and the creation of a
 * delivery challan that draws on it (backend/app/routers/challan.py).
 *
 * Quantities are NUMERIC(10, 2) columns, kept here as integer hundredths.
 * The stock table is a sequence of transactions in insertion order.
 */
module Stock {
  import opened Common

  const In := "IN"
  const Out := "OUT"

  datatype StockTransaction = StockTransaction(
    companyId: int, fyId: int, itemId: int, quantity: int,
    txType: string, referenceType: string, referenceId: int)

  /** The transaction belongs to this company, financial year and item. */
  predicate Scoped(t: StockTransaction, companyId: int, fyId: int, itemId: int)
  {
    t.companyId == companyId && t.fyId == fyId && t.itemId == itemId
  }

  /** `coalesce(sum(quantity), 0)` over the scoped transactions of one type. */
  function TypeSum(txs: seq<StockTransaction>, companyId: int, fyId: int, itemId: int, txType: string): int
  {
    if txs == [] then 0
    else
      var last := txs[|txs| - 1];
      var q := if Scoped(last, companyId, fyId, itemId) && last.txType == txType then last.quantity else 0;
      TypeSum(txs[..|txs| - 1], companyId, fyId, itemId, txType) + q
  }

  /** `get_current_stock`: Σ IN − Σ OUT. */
  function CurrentStock(txs: seq<StockTransaction>, companyId: int, fyId: int, itemId: int): int
  {
    TypeSum(txs, companyId, fyId, itemId, In) - TypeSum(txs, companyId, fyId, itemId, Out)
  }

  /** What one transaction does to the stock of an item: + for IN, − for OUT, nothing otherwise. */
  function Effect(t: StockTransaction, companyId: int, fyId: int, itemId: int): (r: int)
    ensures !Scoped(t, companyId, fyId, itemId) ==> r == 0
    ensures t.txType != In && t.txType != Out ==> r == 0
  {
    if !Scoped(t, companyId, fyId, itemId) then 0
    else if t.txType == In then t.quantity
    else if t.txType == Out then -t.quantity
    else 0
  }

  /** One more transaction changes the stock by its effect alone. */
  lemma CurrentStockSnoc(txs: seq<StockTransaction>, t: StockTransaction, companyId: int, fyId: int, itemId: int)
    ensures CurrentStock(txs + [t], companyId, fyId, itemId) == CurrentStock(txs, companyId, fyId, itemId) + Effect(t, companyId, fyId, itemId)
  {
    assert (txs + [t])[..|txs|] == txs;
  }

  /** Stock is additive over the transaction log. */
  lemma {:induction false} CurrentStockAppend(a: seq<StockTransaction>, b: seq<StockTransaction>, companyId: int, fyId: int, itemId: int)
    ensures CurrentStock(a + b, companyId, fyId, itemId) == CurrentStock(a, companyId, fyId, itemId) + CurrentStock(b, companyId, fyId, itemId)
  {
    if b == [] {
      assert a + b == a;
    } else {
      var init, last := b[..|b| - 1], b[|b| - 1];
      assert a + b == (a + init) + [last];
      CurrentStockAppend(a, init, companyId, fyId, itemId);
      CurrentStockSnoc(a + init, last, companyId, fyId, itemId);
      CurrentStockSnoc(init, last, companyId, fyId, itemId);
      assert init + [last] == b;
    }
  }

  /** With no IN or OUT transaction of the item in scope, the stock is 0. */
  lemma {:induction false} NothingScopedIsZero(txs: seq<StockTransaction>, companyId: int, fyId: int, itemId: int)
    requires forall k :: 0 <= k < |txs| ==> Effect(txs[k], companyId, fyId, itemId) == 0
    ensures CurrentStock(txs, companyId, fyId, itemId) == 0
  {
    if txs != [] {
      var init := txs[..|txs| - 1];
      NothingScopedIsZero(init, companyId, fyId, itemId);
      CurrentStockSnoc(init, txs[|txs| - 1], companyId, fyId, itemId);
      assert init + [txs[|txs| - 1]] == txs;
    }
  }

  // ---------------------------------------------------------------------
  // Creating a delivery challan.
  // ---------------------------------------------------------------------

  datatype ChallanLine = ChallanLine(itemId: int, quantity: int)

  datatype DeliveryChallan = DeliveryChallan(id: int, companyId: int, fyId: int, partyId: int)

  datatype ChallanItem = ChallanItem(challanId: int, itemId: int, quantity: int)

  /** The OUT transaction a line books against the challan. */
  function OutTx(companyId: int, fyId: int, challanId: int, line: ChallanLine): StockTransaction
  {
    StockTransaction(companyId, fyId, line.itemId, line.quantity, Out, "CHALLAN", challanId)
  }

  function Outs(companyId: int, fyId: int, challanId: int, lines: seq<ChallanLine>): (r: seq<StockTransaction>)
    ensures |r| == |lines|
    ensures forall k :: 0 <= k < |lines| ==> r[k] == OutTx(companyId, fyId, challanId, lines[k])
  {
    seq(|lines|, k requires 0 <= k < |lines| => OutTx(companyId, fyId, challanId, lines[k]))
  }

  function ItemsOf(challanId: int, lines: seq<ChallanLine>): (r: seq<ChallanItem>)
    ensures |r| == |lines|
    ensures forall k :: 0 <= k < |lines| ==> r[k] == ChallanItem(challanId, lines[k].itemId, lines[k].quantity)
  {
    seq(|lines|, k requires 0 <= k < |lines| => ChallanItem(challanId, lines[k].itemId, lines[k].quantity))
  }

  /**
   * What the stock query for line `k` sees. When the session flushes
   * before each query, the OUT rows added for earlier lines count; when it
   * does not, only the committed log does.
   */
  function Visible(txs: seq<StockTransaction>, companyId: int, fyId: int, challanId: int,
                   lines: seq<ChallanLine>, k: int, autoflush: bool): seq<StockTransaction>
    requires 0 <= k <= |lines|
  {
    if autoflush then txs + Outs(companyId, fyId, challanId, lines[..k]) else txs
  }

  /** Line `k` passes the stock check. */
  predicate Covered(txs: seq<StockTransaction>, companyId: int, fyId: int, challanId: int,
                    lines: seq<ChallanLine>, k: int, autoflush: bool)
    requires 0 <= k < |lines|
  {
    CurrentStock(Visible(txs, companyId, fyId, challanId, lines, k, autoflush), companyId, fyId, lines[k].itemId)
      >= lines[k].quantity
  }

  predicate AllCovered(txs: seq<StockTransaction>, companyId: int, fyId: int, challanId: int,
                       lines: seq<ChallanLine>, autoflush: bool)
  {
    CoveredUpTo(txs, companyId, fyId, challanId, lines, |lines|, autoflush)
  }

  /** The first `n` lines pass the stock check. */
  predicate CoveredUpTo(txs: seq<StockTransaction>, companyId: int, fyId: int, challanId: int,
                        lines: seq<ChallanLine>, n: int, autoflush: bool)
    requires 0 <= n <= |lines|
  {
    forall k :: 0 <= k < n ==> Covered(txs, companyId, fyId, challanId, lines, k, autoflush)
  }

  /**
   * The loop of `create_challan`: each line is checked against the stock and
   * then yields one challan item and one OUT transaction; the first short
   * line raises 400 and nothing is kept.
   */
  method PlanLines(txs: seq<StockTransaction>, companyId: int, fyId: int, challanId: int,
                   lines: seq<ChallanLine>, autoflush: bool)
    returns (r: Result<(seq<ChallanItem>, seq<StockTransaction>)>)
    ensures r.Ok? <==> AllCovered(txs, companyId, fyId, challanId, lines, autoflush)
    ensures r.Err? ==> r.status == 400
    ensures r.Ok? ==> r.value.0 == ItemsOf(challanId, lines) && r.value.1 == Outs(companyId, fyId, challanId, lines)
  {
    var items: seq<ChallanItem> := [];
    var added: seq<StockTransaction> := [];
    for k := 0 to |lines|
      invariant items == ItemsOf(challanId, lines[..k])
      invariant added == Outs(companyId, fyId, challanId, lines[..k])
      invariant CoveredUpTo(txs, companyId, fyId, challanId, lines, k, autoflush)
    {
      var seen := if autoflush then txs + added else txs;
      assert seen == Visible(txs, companyId, fyId, challanId, lines, k, autoflush);
      var stock := CurrentStock(seen, companyId, fyId, lines[k].itemId);
      if stock < lines[k].quantity {
        assert !Covered(txs, companyId, fyId, challanId, lines, k, autoflush);
        return Err(400, "Insufficient stock");
      }
      assert lines[..k + 1] == lines[..k] + [lines[k]];
      PlanSnoc(companyId, fyId, challanId, lines[..k], lines[k]);
      items := items + [ChallanItem(challanId, lines[k].itemId, lines[k].quantity)];
      added := added + [OutTx(companyId, fyId, challanId, lines[k])];
    }
    assert lines[..|lines|] == lines;
    r := Ok((items, added));
  }

  lemma PlanSnoc(companyId: int, fyId: int, challanId: int, s: seq<ChallanLine>, x: ChallanLine)
    ensures ItemsOf(challanId, s + [x]) == ItemsOf(challanId, s) + [ChallanItem(challanId, x.itemId, x.quantity)]
    ensures Outs(companyId, fyId, challanId, s + [x]) == Outs(companyId, fyId, challanId, s) + [OutTx(companyId, fyId, challanId, x)]
  {
  }

  lemma OutsAppend(companyId: int, fyId: int, challanId: int, a: seq<ChallanLine>, b: seq<ChallanLine>)
    ensures Outs(companyId, fyId, challanId, a + b) == Outs(companyId, fyId, challanId, a) + Outs(companyId, fyId, challanId, b)
  {
  }

  /**
   * With a flushing session an accepted challan never takes an item below
   * zero: the last line of each item was checked against everything booked
   * before it.
   */
  lemma FlushedChallanKeepsStock(txs: seq<StockTransaction>, companyId: int, fyId: int, challanId: int,
                                 lines: seq<ChallanLine>, k: int)
    requires AllCovered(txs, companyId, fyId, challanId, lines, true)
    requires 0 <= k < |lines|
    ensures CurrentStock(txs + Outs(companyId, fyId, challanId, lines), companyId, fyId, lines[k].itemId) >= 0
  {
    var x := lines[k].itemId;
    var last := LastOf(lines, x, k);
    var before, after := lines[..last], lines[last + 1..];
    assert lines == before + [lines[last]] + after;
    OutsAppend(companyId, fyId, challanId, before + [lines[last]], after);
    OutsAppend(companyId, fyId, challanId, before, [lines[last]]);
    var ob := Outs(companyId, fyId, challanId, before);
    var ol := Outs(companyId, fyId, challanId, [lines[last]]);
    var oa := Outs(companyId, fyId, challanId, after);
    assert txs + Outs(companyId, fyId, challanId, lines) == (txs + ob) + ol + oa;
    assert Covered(txs, companyId, fyId, challanId, lines, last, true);
    CurrentStockAppend((txs + ob) + ol, oa, companyId, fyId, x);
    CurrentStockAppend(txs + ob, ol, companyId, fyId, x);
    assert ol == [OutTx(companyId, fyId, challanId, lines[last])];
    CurrentStockSnoc([], OutTx(companyId, fyId, challanId, lines[last]), companyId, fyId, x);
    assert [] + ol == ol;
    NothingScopedIsZero(oa, companyId, fyId, x);
  }

  /** The last line of the item `x` at or after `k`. */
  function LastOf(lines: seq<ChallanLine>, x: int, k: int): (last: int)
    requires 0 <= k < |lines| && lines[k].itemId == x
    ensures k <= last < |lines| && lines[last].itemId == x
    ensures forall j :: last < j < |lines| ==> lines[j].itemId != x
    decreases |lines| - k
  {
    if exists j :: k < j < |lines| && lines[j].itemId == x then
      var j :| k < j < |lines| && lines[j].itemId == x;
      LastOf(lines, x, j)
    else k
  }

  /**
   * Without a flush every line is checked against the committed stock
   * alone: two lines of 3.00 against a stock of 5.00 both pass and the item
   * ends at −1.00.
   */
  lemma UnflushedLinesCanOversell()
    ensures var txs := [StockTransaction(1, 1, 7, 500, In, "", 0)];
      var lines := [ChallanLine(7, 300), ChallanLine(7, 300)];
      AllCovered(txs, 1, 1, 9, lines, false)
      && CurrentStock(txs + Outs(1, 1, 9, lines), 1, 1, 7) == -100
  {
    var txs := [StockTransaction(1, 1, 7, 500, In, "", 0)];
    var lines := [ChallanLine(7, 300), ChallanLine(7, 300)];
    CurrentStockSnoc([], txs[0], 1, 1, 7);
    assert [] + txs == txs;
    var o := Outs(1, 1, 9, lines);
    CurrentStockAppend(txs, o, 1, 1, 7);
    CurrentStockSnoc([o[0]], o[1], 1, 1, 7);
    CurrentStockSnoc([], o[0], 1, 1, 7);
    assert [] + [o[0]] == [o[0]];
    assert [o[0]] + [o[1]] == o;
  }

  // ---------------------------------------------------------------------
  // The tables.
  // ---------------------------------------------------------------------

  function ChallanIds(challans: seq<DeliveryChallan>): set<int>
  {
    set c | c in challans :: c.id
  }

  /** Every challan item and every challan OUT transaction points at a stored challan. */
  predicate Linked(challans: seq<DeliveryChallan>, items: seq<ChallanItem>, txs: seq<StockTransaction>)
  {
    (forall ci :: ci in items ==> ci.challanId in ChallanIds(challans))
    && (forall t :: t in txs && t.referenceType == "CHALLAN" ==> t.referenceId in ChallanIds(challans))
  }

  class Books {
    var challans: seq<DeliveryChallan>
    var challanItems: seq<ChallanItem>
    var transactions: seq<StockTransaction>
    var nextChallanId: int

    ghost predicate Valid()
      reads this
    {
      Linked(challans, challanItems, transactions)
      && forall c :: c in challans ==> c.id < nextChallanId
    }

    constructor (txs: seq<StockTransaction>)
      requires forall t :: t in txs ==> t.referenceType != "CHALLAN"
      ensures Valid()
      ensures challans == [] && challanItems == [] && transactions == txs
    {
      challans := [];
      challanItems := [];
      transactions := txs;
      nextChallanId := 1;
    }

    /**
     * `create_challan`: under the caller's company and active year, either
     * every line passed the stock check and the challan, its items and its
     * OUT transactions are all stored, or 400 and nothing is.
     */
    method CreateChallan(companyId: int, fyId: int, partyId: int, lines: seq<ChallanLine>, autoflush: bool)
      returns (r: Result<int>)
      requires Valid()
      modifies this
      ensures Valid()
      ensures r.Ok? <==> AllCovered(old(transactions), companyId, fyId, old(nextChallanId), lines, autoflush)
      ensures r.Err? ==> r.status == 400
      ensures r.Err? ==> challans == old(challans) && challanItems == old(challanItems) && transactions == old(transactions)
      ensures r.Ok? ==>
        r.value == old(nextChallanId) && r.value !in ChallanIds(old(challans))
        && challans == old(challans) + [DeliveryChallan(r.value, companyId, fyId, partyId)]
        && challanItems == old(challanItems) + ItemsOf(r.value, lines)
        && transactions == old(transactions) + Outs(companyId, fyId, r.value, lines)
    {
      var id := nextChallanId;
      var plan := PlanLines(transactions, companyId, fyId, id, lines, autoflush);
      if plan.Err? {
        return Err(plan.status, plan.detail);
      }
      var challan := DeliveryChallan(id, companyId, fyId, partyId);
      ghost var oldIds := ChallanIds(challans);
      assert id !in oldIds;
      assert ChallanIds(challans + [challan]) == oldIds + {id};
      challans := challans + [challan];
      challanItems := challanItems + plan.value.0;
      transactions := transactions + plan.value.1;
      nextChallanId := nextChallanId + 1;
      r := Ok(id);
    }
  }
}
