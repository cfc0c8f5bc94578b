/**
 * Job-work reports: the per-line job-work register, the opening/in/out/
 * balance stock ledger per (party, item) and its signed public download
 * link (backend/app/routers/reports.py, backend/app/routers/public_reports.py),
 * and the same ledger recomputed by date window on the Reports page
 * (frontend/src/pages/Reports.jsx).
 *
 * Quantities are integers in hundredths of a unit, so that the "{:.2f}"
 * rendering is exact; dates are day numbers.
 */
module JobWorkReports {
  import opened Common
  import Calendar
  import PublicChallan

  /** A party-challan item line joined with its challan, party, item and process. */
  datatype ChallanLine = ChallanLine(
    id: int, companyId: int, fyId: int, challanStatus: string, date: int,
    partyId: int, partyName: string, challanNumber: string, itemName: string,
    processName: Option<string>, ordered: int, delivered: int)

  /** One row of the job-work register. */
  datatype ReportRow = ReportRow(
    id: int, date: int, partyId: int, partyName: string, challanNumber: string,
    itemName: string, processName: string, inQty: int, outQty: int, pendingQty: int,
    status: string, isOpeningBalance: bool)

  function Max0(x: int): int { if x > 0 then x else 0 }

  // ---------------------------------------------------------------------
  // The job-work register
  // ---------------------------------------------------------------------

  /**
   * The query filter: the company's lines of the active year, plus lines of
   * other years whose challan is neither completed nor cancelled.
   */
  predicate Selected(l: ChallanLine, companyId: int, activeFy: int)
  {
    l.companyId == companyId
    && (l.fyId == activeFy
        || (l.fyId != activeFy && l.challanStatus != "completed" && l.challanStatus != "cancelled"))
  }

  function SelectedLines(lines: seq<ChallanLine>, companyId: int, activeFy: int): (r: seq<ChallanLine>)
    ensures forall l :: l in r <==> l in lines && Selected(l, companyId, activeFy)
  {
    if lines == [] then []
    else
      var init, last := lines[..|lines| - 1], lines[|lines| - 1];
      assert forall l :: l in lines <==> l in init || l == last;
      SelectedLines(init, companyId, activeFy) + (if Selected(last, companyId, activeFy) then [last] else [])
  }

  /** One register row: pending is ordered minus delivered, reported clamped at zero. */
  function RowOf(l: ChallanLine, activeFy: int): (r: ReportRow)
    ensures r.inQty == l.ordered && r.outQty == l.delivered
    ensures r.pendingQty >= 0 && r.pendingQty >= r.inQty - r.outQty
    ensures r.inQty - r.outQty > 0 ==> r.pendingQty == r.inQty - r.outQty
    ensures r.status == "Completed" <==> l.ordered - l.delivered <= 0
    ensures r.status == "Completed" <==> r.pendingQty == 0
    ensures r.status == "Completed" || r.status == "Pending"
    ensures r.isOpeningBalance <==> l.fyId != activeFy
  {
    var pending := l.ordered - l.delivered;
    ReportRow(
      l.id, l.date, l.partyId, l.partyName, l.challanNumber, l.itemName,
      if l.processName.Some? then l.processName.value else "-",
      l.ordered, l.delivered, if pending > 0 then pending else 0,
      if pending <= 0 then "Completed" else "Pending",
      l.fyId != activeFy)
  }

  function LineDate(l: ChallanLine): int { l.date }

  function NegatedDate(l: ChallanLine): int { -l.date }

  /** `order_by(challan_date.desc())`: the selected lines, newest challan first. */
  function RegisterLines(lines: seq<ChallanLine>, companyId: int, activeFy: int): (r: seq<ChallanLine>)
    ensures forall l :: l in r <==> l in lines && Selected(l, companyId, activeFy)
    ensures forall i, j :: 0 <= i < j < |r| ==> r[i].date >= r[j].date
  {
    var sel := SelectedLines(lines, companyId, activeFy);
    var r := SortByKey(sel, NegatedDate);
    SortedKeeps(sel, NegatedDate);
    r
  }

  /** `get_job_work_report`: one row per selected line, newest challan first. */
  function JobWorkReport(lines: seq<ChallanLine>, companyId: int, activeFy: int): (r: seq<ReportRow>)
    ensures var sel := RegisterLines(lines, companyId, activeFy);
      |r| == |sel| && forall i :: 0 <= i < |r| ==> r[i] == RowOf(sel[i], activeFy)
    ensures forall i, j :: 0 <= i < j < |r| ==> r[i].date >= r[j].date
  {
    var sel := RegisterLines(lines, companyId, activeFy);
    seq(|sel|, i requires 0 <= i < |sel| => RowOf(sel[i], activeFy))
  }

  // ---------------------------------------------------------------------
  // The stock ledger: one accumulation shared by the three copies
  // ---------------------------------------------------------------------

  /** A ledger key: the (party name, item name) pair. */
  datatype LedgerKey = LedgerKey(party: string, item: string)

  /** Where a row falls: before the period (opening), inside it, or after it (ignored). */
  datatype Bucket = Before | InPeriod | After

  /** What one row brings to its key's entry. */
  datatype Contribution = Contribution(key: LedgerKey, bucket: Bucket, inQty: int, outQty: int, pending: int)

  datatype Entry = Entry(party: string, item: string, opening: int, inQty: int, outQty: int, balance: int)

  function KeysOf(cs: seq<Contribution>): (r: seq<LedgerKey>)
    ensures |r| == |cs| && forall i :: 0 <= i < |cs| ==> r[i] == cs[i].key
  {
    seq(|cs|, i requires 0 <= i < |cs| => cs[i].key)
  }

  /** Σ pending of the key's rows before the period. */
  function Opening(cs: seq<Contribution>, k: LedgerKey): int
  {
    if cs == [] then 0
    else
      var last := cs[|cs| - 1];
      Opening(cs[..|cs| - 1], k) + (if last.key == k && last.bucket == Before then last.pending else 0)
  }

  /** Σ in-quantity of the key's rows inside the period. */
  function InSum(cs: seq<Contribution>, k: LedgerKey): int
  {
    if cs == [] then 0
    else
      var last := cs[|cs| - 1];
      InSum(cs[..|cs| - 1], k) + (if last.key == k && last.bucket == InPeriod then last.inQty else 0)
  }

  /** Σ out-quantity of the key's rows inside the period. */
  function OutSum(cs: seq<Contribution>, k: LedgerKey): int
  {
    if cs == [] then 0
    else
      var last := cs[|cs| - 1];
      OutSum(cs[..|cs| - 1], k) + (if last.key == k && last.bucket == InPeriod then last.outQty else 0)
  }

  /** Σ pending of the key's rows inside the period. */
  function PeriodPending(cs: seq<Contribution>, k: LedgerKey): int
  {
    if cs == [] then 0
    else
      var last := cs[|cs| - 1];
      PeriodPending(cs[..|cs| - 1], k) + (if last.key == k && last.bucket == InPeriod then last.pending else 0)
  }

  /** Σ pending of the key's rows that are not after the period. */
  function Balance(cs: seq<Contribution>, k: LedgerKey): int
  {
    if cs == [] then 0
    else
      var last := cs[|cs| - 1];
      Balance(cs[..|cs| - 1], k) + (if last.key == k && last.bucket != After then last.pending else 0)
  }

  /** The entry a key should end with. */
  function EntryFor(cs: seq<Contribution>, k: LedgerKey): Entry
  {
    Entry(k.party, k.item, Opening(cs, k), InSum(cs, k), OutSum(cs, k), Balance(cs, k))
  }

  /** The whole ledger: one entry per distinct key, in order of first appearance. */
  function LedgerSpec(cs: seq<Contribution>): (r: seq<Entry>)
    ensures var keys := Distinct(KeysOf(cs));
      |r| == |keys| && forall i :: 0 <= i < |r| ==> r[i] == EntryFor(cs, keys[i])
  {
    var keys := Distinct(KeysOf(cs));
    seq(|keys|, i requires 0 <= i < |keys| => EntryFor(cs, keys[i]))
  }

  /** The in-place update one row applies to its key's entry. */
  function Step(e: Entry, c: Contribution): Entry
  {
    match c.bucket
    case Before => e.(opening := e.opening + c.pending, balance := e.balance + c.pending)
    case InPeriod => e.(inQty := e.inQty + c.inQty, outQty := e.outQty + c.outQty, balance := e.balance + c.pending)
    case After => e
  }

  /** A row changes only its own key's entry, and that one by `Step`. */
  lemma EntryForSnoc(cs: seq<Contribution>, c: Contribution, k: LedgerKey)
    ensures EntryFor(cs + [c], k) == if c.key == k then Step(EntryFor(cs, k), c) else EntryFor(cs, k)
  {
    assert (cs + [c])[..|cs|] == cs;
  }

  /** A key with no rows yet has the all-zero entry the code creates. */
  lemma {:induction false} EntryForAbsent(cs: seq<Contribution>, k: LedgerKey)
    requires k !in KeysOf(cs)
    ensures EntryFor(cs, k) == Zero(k)
  {
    if cs != [] {
      assert KeysOf(cs[..|cs| - 1]) == KeysOf(cs)[..|cs| - 1];
      EntryForAbsent(cs[..|cs| - 1], k);
    }
  }

  /** balance = opening + Σ pending of the period's rows. */
  lemma {:induction false} BalanceSplit(cs: seq<Contribution>, k: LedgerKey)
    ensures Balance(cs, k) == Opening(cs, k) + PeriodPending(cs, k)
  {
    if cs != [] {
      BalanceSplit(cs[..|cs| - 1], k);
    }
  }

  /** With pending never negative, opening is never negative and balance is at least opening. */
  lemma {:induction false} LedgerNonNegative(cs: seq<Contribution>, k: LedgerKey)
    requires forall i :: 0 <= i < |cs| ==> cs[i].pending >= 0
    ensures 0 <= Opening(cs, k) <= Balance(cs, k)
  {
    if cs != [] {
      LedgerNonNegative(cs[..|cs| - 1], k);
    }
  }

  /** A row after the period changes no entry (the date-window copy's third branch). */
  lemma AfterIgnored(cs: seq<Contribution>, c: Contribution)
    requires c.bucket == After
    ensures forall k :: EntryFor(cs + [c], k) == EntryFor(cs, k)
  {
    forall k
      ensures EntryFor(cs + [c], k) == EntryFor(cs, k)
    {
      EntryForSnoc(cs, c, k);
    }
  }

  function Zero(k: LedgerKey): Entry { Entry(k.party, k.item, 0, 0, 0, 0) }

  /** The loop's state after a prefix: key order of first appearance and each key's entry. */
  ghost predicate Accumulated(prefix: seq<Contribution>, acc: map<LedgerKey, Entry>, order: seq<LedgerKey>)
  {
    order == Distinct(KeysOf(prefix))
    && (forall k :: k in acc <==> k in order)
    && (forall k :: k in acc ==> acc[k] == EntryFor(prefix, k))
  }

  /** The loop body on the map: create the key's zero entry if needed, then apply the row. */
  function Absorb(acc: map<LedgerKey, Entry>, c: Contribution): map<LedgerKey, Entry>
  {
    var acc1 := if c.key in acc then acc else acc[c.key := Zero(c.key)];
    acc1[c.key := Step(acc1[c.key], c)]
  }

  /** The loop body on the insertion order of the keys. */
  function AbsorbOrder(acc: map<LedgerKey, Entry>, order: seq<LedgerKey>, c: Contribution): seq<LedgerKey>
  {
    if c.key in acc then order else order + [c.key]
  }

  /** One pass of the loop body keeps the state in step with the prefix. */
  lemma AbsorbKeeps(prefix: seq<Contribution>, c: Contribution, acc: map<LedgerKey, Entry>, order: seq<LedgerKey>)
    requires Accumulated(prefix, acc, order)
    ensures Accumulated(prefix + [c], Absorb(acc, c), AbsorbOrder(acc, order, c))
  {
    var acc1 := if c.key in acc then acc else acc[c.key := Zero(c.key)];
    var order1 := if c.key in acc then order else order + [c.key];
    var acc2 := acc1[c.key := Step(acc1[c.key], c)];
    var next := prefix + [c];
    assert KeysOf(next)[..|prefix|] == KeysOf(prefix);
    assert KeysOf(next)[|prefix|] == c.key;
    if c.key !in acc {
      EntryForAbsent(prefix, c.key);
    }
    forall k | k in acc2
      ensures acc2[k] == EntryFor(next, k)
    {
      EntryForSnoc(prefix, c, k);
    }
  }

  /** The `ledger_map` loop. */
  method Accumulate(cs: seq<Contribution>) returns (acc: map<LedgerKey, Entry>, order: seq<LedgerKey>)
    ensures Accumulated(cs, acc, order)
  {
    acc := map[];
    order := [];
    var i := 0;
    while i < |cs|
      invariant 0 <= i <= |cs|
      invariant Accumulated(cs[..i], acc, order)
    {
      var c := cs[i];
      AbsorbKeeps(cs[..i], c, acc, order);
      assert cs[..i + 1] == cs[..i] + [c];
      order := AbsorbOrder(acc, order, c);
      acc := Absorb(acc, c);
      i := i + 1;
    }
    assert cs[..|cs|] == cs;
  }

  /** The `ledger_map` loop followed by the `values()` loop. */
  method Aggregate(cs: seq<Contribution>) returns (entries: seq<Entry>)
    ensures entries == LedgerSpec(cs)
  {
    var acc, order := Accumulate(cs);
    entries := [];
    var j := 0;
    while j < |order|
      invariant 0 <= j <= |order| && |entries| == j
      invariant forall t :: 0 <= t < j ==> entries[t] == EntryFor(cs, order[t])
    {
      entries := entries + [acc[order[j]]];
      j := j + 1;
    }
  }

  // ---------------------------------------------------------------------
  // The backend ledger (PDF and public download)
  // ---------------------------------------------------------------------

  /** A line of another financial year counts as opening stock, with its pending clamped at zero. */
  function BackendContribution(l: ChallanLine, activeFy: int): (c: Contribution)
    ensures c.key == LedgerKey(l.partyName, l.itemName)
    ensures c.bucket == (if l.fyId != activeFy then Before else InPeriod)
    ensures c.bucket != After && c.pending >= 0 && c.pending >= l.ordered - l.delivered
    ensures c.inQty == l.ordered && c.outQty == l.delivered
  {
    Contribution(LedgerKey(l.partyName, l.itemName), if l.fyId != activeFy then Before else InPeriod,
      l.ordered, l.delivered, Max0(l.ordered - l.delivered))
  }

  function BackendContributions(lines: seq<ChallanLine>, activeFy: int): (cs: seq<Contribution>)
    ensures |cs| == |lines| && forall i :: 0 <= i < |lines| ==> cs[i] == BackendContribution(lines[i], activeFy)
  {
    seq(|lines|, i requires 0 <= i < |lines| => BackendContribution(lines[i], activeFy))
  }

  /** `if party_id:` — a missing or zero party id means all parties. */
  predicate PartyGiven(party: Option<int>) { party.Some? && party.value != 0 }

  /**
   * The ledger query: the register's selection, narrowed to the party when
   * one is given, oldest challan first.
   */
  function LedgerLines(lines: seq<ChallanLine>, companyId: int, fyId: int, party: Option<int>): (r: seq<ChallanLine>)
    ensures forall l :: l in r <==>
      l in lines && Selected(l, companyId, fyId) && (PartyGiven(party) ==> l.partyId == party.value)
    ensures forall i, j :: 0 <= i < j < |r| ==> r[i].date <= r[j].date
  {
    var sel := SelectedLines(lines, companyId, fyId);
    var narrowed := if !PartyGiven(party) then sel else ForParty(sel, party.value);
    var r := SortByKey(narrowed, LineDate);
    SortedKeeps(narrowed, LineDate);
    r
  }

  function ForParty(lines: seq<ChallanLine>, partyId: int): (r: seq<ChallanLine>)
    ensures forall l :: l in r <==> l in lines && l.partyId == partyId
  {
    if lines == [] then []
    else
      var init, last := lines[..|lines| - 1], lines[|lines| - 1];
      assert forall l :: l in lines <==> l in init || l == last;
      ForParty(init, partyId) + (if last.partyId == partyId then [last] else [])
  }

  /** In the backend ledger opening is never negative and balance is never below opening. */
  lemma BackendLedgerNonNegative(lines: seq<ChallanLine>, activeFy: int, k: LedgerKey)
    ensures var cs := BackendContributions(lines, activeFy);
      0 <= Opening(cs, k) <= Balance(cs, k)
      && Balance(cs, k) == Opening(cs, k) + PeriodPending(cs, k)
  {
    var cs := BackendContributions(lines, activeFy);
    LedgerNonNegative(cs, k);
    BalanceSplit(cs, k);
  }

  /** "company:fy:party", with "all" for no party (the string the link signature covers). */
  function PartyValue(party: Option<int>): string
  {
    if PartyGiven(party) then IntToString(party.value) else "all"
  }

  function SignedData(companyId: int, fyId: int, party: Option<int>): string
  {
    IntToString(companyId) + ":" + IntToString(fyId) + ":" + PartyValue(party)
  }

  lemma NoColonInInt(n: int)
    ensures ':' !in IntToString(n)
  {
    var s := IntToString(n);
    forall i | 0 <= i < |s| ensures s[i] != ':' { assert s[i] == '-' || IsDigit(s[i]); }
  }

  /** The signed string splits back into its three parts. */
  lemma SignedDataParts(companyId: int, fyId: int, party: Option<int>)
    ensures Split(SignedData(companyId, fyId, party), ':') == [IntToString(companyId), IntToString(fyId), PartyValue(party)]
  {
    NoColonInInt(companyId);
    NoColonInInt(fyId);
    if PartyGiven(party) { NoColonInInt(party.value); }
    var parts := [IntToString(companyId), IntToString(fyId), PartyValue(party)];
    SplitJoin(parts, ':');
    JoinThree(IntToString(companyId), IntToString(fyId), PartyValue(party), ":");
  }

  /** Three pieces joined by a separator. */
  lemma JoinThree(a: string, b: string, c: string, sep: string)
    ensures Join([a, b, c], sep) == a + sep + b + sep + c
  {
    assert [a, b, c][1..] == [b, c];
    assert [b, c][1..] == [c];
    assert Join([b, c], sep) == b + sep + c;
    assert a + sep + (b + sep + c) == a + sep + b + sep + c;
  }

  lemma IntToStringSign(n: int)
    ensures IntToString(n)[0] == '-' <==> n < 0
  {
    if n >= 0 {
      assert IsDigit(NatToString(n)[0]);
    }
  }

  lemma IntToStringInjective(a: int, b: int)
    requires IntToString(a) == IntToString(b)
    ensures a == b
  {
    IntToStringSign(a);
    IntToStringSign(b);
    if a < 0 && b < 0 {
      NegativeDigits(a);
      NegativeDigits(b);
      NatToStringInjective(-a, -b);
    } else {
      NatToStringInjective(a, b);
    }
  }

  /** The digits of a negative number follow its minus sign. */
  lemma NegativeDigits(n: int)
    requires n < 0
    ensures IntToString(n)[1..] == NatToString(-n)
  {
  }

  lemma NatToStringInjective(a: nat, b: nat)
    requires NatToString(a) == NatToString(b)
    ensures a == b
  {
    NatToStringValue(a);
    NatToStringValue(b);
  }

  /**
   * A link signed for one company, year and party verifies for no other:
   * equal signed strings mean equal parameters.
   */
  lemma SignedDataInjective(c1: int, f1: int, p1: Option<int>, c2: int, f2: int, p2: Option<int>)
    requires SignedData(c1, f1, p1) == SignedData(c2, f2, p2)
    ensures c1 == c2 && f1 == f2 && PartyValue(p1) == PartyValue(p2)
  {
    SignedDataParts(c1, f1, p1);
    SignedDataParts(c2, f2, p2);
    IntToStringInjective(c1, c2);
    IntToStringInjective(f1, f2);
  }

  /** The link token: HMAC is not modelled, a token verifies exactly the string it was made for. */
  datatype Token = Token(signedData: string)

  /** `get_party_ledger_pdf`: the ledger of the active year and the token of its download link. */
  method PartyLedgerPdf(companyId: int, activeFy: int, party: Option<int>, lines: seq<ChallanLine>)
    returns (entries: seq<Entry>, token: Token)
    ensures token == Token(SignedData(companyId, activeFy, party))
    ensures entries == LedgerSpec(BackendContributions(LedgerLines(lines, companyId, activeFy, party), activeFy))
  {
    entries := Aggregate(BackendContributions(LedgerLines(lines, companyId, activeFy, party), activeFy));
    token := Token(SignedData(companyId, activeFy, party));
  }

  /**
   * `public_ledger_download`: 403 for a token not made for these parameters,
   * before any lookup; then 404 for an unknown company or year; then the
   * same ledger as the authenticated report.
   */
  method PublicLedgerDownload(
    companyId: int, fyId: int, party: Option<int>, token: Token,
    companies: set<int>, years: set<int>, lines: seq<ChallanLine>)
    returns (r: Result<seq<Entry>>)
    ensures token.signedData != SignedData(companyId, fyId, party) ==> r == Err(403, "Invalid or expired link")
    ensures token.signedData == SignedData(companyId, fyId, party) && companyId !in companies ==>
      r == Err(404, "Company not found")
    ensures token.signedData == SignedData(companyId, fyId, party) && companyId in companies && fyId !in years ==>
      r == Err(404, "Financial Year not found")
    ensures r.Ok? <==> token.signedData == SignedData(companyId, fyId, party) && companyId in companies && fyId in years
    ensures r.Ok? ==> r.value == LedgerSpec(BackendContributions(LedgerLines(lines, companyId, fyId, party), fyId))
  {
    if token.signedData != SignedData(companyId, fyId, party) {
      return Err(403, "Invalid or expired link");
    }
    if companyId !in companies {
      return Err(404, "Company not found");
    }
    if fyId !in years {
      return Err(404, "Financial Year not found");
    }
    var entries := Aggregate(BackendContributions(LedgerLines(lines, companyId, fyId, party), fyId));
    r := Ok(entries);
  }

  /** A ledger entry as the template receives it, each number "{:.2f}". */
  datatype RenderedEntry = RenderedEntry(party: string, item: string, opening: string, inQty: string, outQty: string, balance: string)

  function Render(e: Entry): RenderedEntry
  {
    RenderedEntry(e.party, e.item, PublicChallan.Fixed2(e.opening), PublicChallan.Fixed2(e.inQty),
      PublicChallan.Fixed2(e.outQty), PublicChallan.Fixed2(e.balance))
  }

  predicate TwoDecimals(s: string)
  {
    var parts := Split(s, '.');
    |parts| == 2 && parts[0] != [] && |parts[1]| == 2 && AllDigits(parts[1])
  }

  lemma Fixed2TwoDecimals(q: int)
    ensures TwoDecimals(PublicChallan.Fixed2(q))
  {
    PublicChallan.FixedSplits(q);
    PublicChallan.DecPartDigits(q);
  }

  /** Every rendered number has exactly two digits after its one decimal point. */
  lemma RenderTwoDecimals(e: Entry)
    ensures var r := Render(e);
      TwoDecimals(r.opening) && TwoDecimals(r.inQty) && TwoDecimals(r.outQty) && TwoDecimals(r.balance)
  {
    Fixed2TwoDecimals(e.opening);
    Fixed2TwoDecimals(e.inQty);
    Fixed2TwoDecimals(e.outQty);
    Fixed2TwoDecimals(e.balance);
  }

  // ---------------------------------------------------------------------
  // The key as written: "{party}-{item}"
  // ---------------------------------------------------------------------

  /** The dictionary key the three copies build. */
  function KeyAsWritten(party: string, item: string): string
  {
    party + "-" + item
  }

  /** Two different (party, item) pairs share one key as soon as a name holds a hyphen. */
  lemma HyphenKeysCollide()
    ensures LedgerKey("A-B", "C") != LedgerKey("A", "B-C")
    ensures KeyAsWritten("A-B", "C") == KeyAsWritten("A", "B-C")
  {
  }

  /**
   * Two lines of different pairs: keyed as written they fall into one
   * ledger entry, keyed by the pair they stay two.
   */
  lemma AsWrittenMergesPairs(l1: ChallanLine, l2: ChallanLine, activeFy: int)
    requires l1.partyName == "A-B" && l1.itemName == "C"
    requires l2.partyName == "A" && l2.itemName == "B-C"
    ensures KeyAsWritten(l1.partyName, l1.itemName) == KeyAsWritten(l2.partyName, l2.itemName)
    ensures |LedgerSpec(BackendContributions([l1, l2], activeFy))| == 2
  {
    var cs := BackendContributions([l1, l2], activeFy);
    assert KeysOf(cs) == [LedgerKey("A-B", "C"), LedgerKey("A", "B-C")];
    assert KeysOf(cs)[..1] == [LedgerKey("A-B", "C")];
    assert Distinct(KeysOf(cs)[..1]) == [LedgerKey("A-B", "C")];
  }

  // ---------------------------------------------------------------------
  // The Reports page
  // ---------------------------------------------------------------------

  /**
   * The page's date window: rows before the start are opening stock, rows
   * up to the end are in the period, later rows are ignored.
   */
  function FrontContribution(r: ReportRow, start: int, end: int): (c: Contribution)
    ensures c.key == LedgerKey(r.partyName, r.itemName)
    ensures c.bucket == Before <==> r.date < start
    ensures c.bucket == InPeriod <==> start <= r.date <= end
    ensures c.bucket == After <==> r.date >= start && r.date > end
    ensures c.inQty == r.inQty && c.outQty == r.outQty && c.pending == r.pendingQty
  {
    Contribution(LedgerKey(r.partyName, r.itemName),
      if r.date < start then Before else if r.date <= end then InPeriod else After,
      r.inQty, r.outQty, r.pendingQty)
  }

  function FrontContributions(rows: seq<ReportRow>, start: int, end: int): (cs: seq<Contribution>)
    ensures |cs| == |rows| && forall i :: 0 <= i < |rows| ==> cs[i] == FrontContribution(rows[i], start, end)
  {
    seq(|rows|, i requires 0 <= i < |rows| => FrontContribution(rows[i], start, end))
  }

  /** `!selectedJobWorkParty || i.party_name === selectedJobWorkParty`. */
  function PartyRows(rows: seq<ReportRow>, selected: string): (r: seq<ReportRow>)
    ensures forall x :: x in r <==> x in rows && (selected == "" || x.partyName == selected)
  {
    if rows == [] then []
    else
      var init, last := rows[..|rows| - 1], rows[|rows| - 1];
      assert forall x :: x in rows <==> x in init || x == last;
      PartyRows(init, selected) + (if selected == "" || last.partyName == selected then [last] else [])
  }

  predicate Active(e: Entry) { e.opening != 0 || e.inQty != 0 || e.outQty != 0 }

  /** The final `filter`: groups whose opening, in and out are all zero are dropped. */
  function ActiveEntries(es: seq<Entry>): (r: seq<Entry>)
    ensures forall e :: e in r <==> e in es && Active(e)
  {
    if es == [] then []
    else
      var init, last := es[..|es| - 1], es[|es| - 1];
      assert forall e :: e in es <==> e in init || e == last;
      ActiveEntries(init) + (if Active(last) then [last] else [])
  }

  /** `ledgerData`. */
  method FrontLedger(rows: seq<ReportRow>, selected: string, start: int, end: int) returns (entries: seq<Entry>)
    ensures entries == ActiveEntries(LedgerSpec(FrontContributions(PartyRows(rows, selected), start, end)))
  {
    var all := Aggregate(FrontContributions(PartyRows(rows, selected), start, end));
    entries := ActiveEntries(all);
  }

  /** The register rows the page shows after its search box and status filter. */
  predicate MatchesFilters(r: ReportRow, search: string, status: string)
  {
    (ContainsIgnoringCase(r.partyName, search) || ContainsIgnoringCase(r.itemName, search)
      || ContainsIgnoringCase(r.challanNumber, search))
    && (status == "all" || Lower(r.status) == status)
  }

  function FilteredData(rows: seq<ReportRow>, search: string, status: string): (r: seq<ReportRow>)
    ensures forall x :: x in r <==> x in rows && MatchesFilters(x, search, status)
    ensures |r| <= |rows|
  {
    if rows == [] then []
    else
      var init, last := rows[..|rows| - 1], rows[|rows| - 1];
      assert forall x :: x in rows <==> x in init || x == last;
      FilteredData(init, search, status) + (if MatchesFilters(last, search, status) then [last] else [])
  }

  /** An empty search with the "all" status keeps every row. */
  lemma {:induction false} EmptyFilterKeepsAll(rows: seq<ReportRow>)
    ensures FilteredData(rows, "", "all") == rows
  {
    if rows != [] {
      EmptyFilterKeepsAll(rows[..|rows| - 1]);
      var last := rows[|rows| - 1];
      assert StartsWith(Lower(last.partyName), Lower(""));
      InitLast(rows);
    }
  }

  predicate IsPending(r: ReportRow) { r.status == "Pending" }

  predicate IsCompleted(r: ReportRow) { r.status == "Completed" }

  function PendingQtyTotal(rows: seq<ReportRow>): int
  {
    if rows == [] then 0 else PendingQtyTotal(rows[..|rows| - 1]) + rows[|rows| - 1].pendingQty
  }

  datatype Stats = Stats(totalJobs: nat, pendingJobs: nat, completedJobs: nat, totalPendingQty: int)

  /** `stats`: the row count, the Pending and Completed counts, which never exceed it, and the pending total. */
  function StatsOf(rows: seq<ReportRow>): (s: Stats)
    ensures s.totalJobs == |rows|
    ensures s.pendingJobs == CountBy(rows, IsPending) && s.completedJobs == CountBy(rows, IsCompleted)
    ensures s.pendingJobs + s.completedJobs <= s.totalJobs
    ensures s.totalPendingQty == PendingQtyTotal(rows)
  {
    CountByDisjoint(rows, IsPending, IsCompleted);
    Stats(|rows|, CountBy(rows, IsPending), CountBy(rows, IsCompleted), PendingQtyTotal(rows))
  }

  /** One more row adds one job, counts once under its own status, and adds its pending quantity. */
  lemma StatsOfSnoc(rows: seq<ReportRow>, r: ReportRow)
    ensures var s, t := StatsOf(rows + [r]), StatsOf(rows);
            s.totalJobs == t.totalJobs + 1
            && s.pendingJobs == t.pendingJobs + (if r.status == "Pending" then 1 else 0)
            && s.completedJobs == t.completedJobs + (if r.status == "Completed" then 1 else 0)
            && s.totalPendingQty == t.totalPendingQty + r.pendingQty
  {
    assert (rows + [r])[..|rows + [r]| - 1] == rows;
  }

  /** Register rows carry clamped pending quantities, so the page's pending total is never negative. */
  lemma {:induction false} PendingTotalOfReport(lines: seq<ChallanLine>, activeFy: int)
    ensures PendingQtyTotal(seq(|lines|, i requires 0 <= i < |lines| => RowOf(lines[i], activeFy))) >= 0
  {
    var rows := seq(|lines|, i requires 0 <= i < |lines| => RowOf(lines[i], activeFy));
    if lines != [] {
      var init := lines[..|lines| - 1];
      PendingTotalOfReport(init, activeFy);
      assert rows[..|rows| - 1] == seq(|init|, i requires 0 <= i < |init| => RowOf(init[i], activeFy));
    }
  }

  function PartyNames(rows: seq<ReportRow>): (r: seq<string>)
    ensures |r| == |rows| && forall i :: 0 <= i < |rows| ==> r[i] == rows[i].partyName
  {
    seq(|rows|, i requires 0 <= i < |rows| => rows[i].partyName)
  }

  /** `availableParties`: each party name once, in order of first appearance. */
  function AvailableParties(rows: seq<ReportRow>): (r: seq<string>)
    ensures NoDuplicates(r)
    ensures forall name :: name in r <==> exists i :: 0 <= i < |rows| && rows[i].partyName == name
  {
    var names := PartyNames(rows);
    assert forall name :: name in names <==> exists i :: 0 <= i < |rows| && rows[i].partyName == name by {
      forall name | name in names ensures exists i :: 0 <= i < |rows| && rows[i].partyName == name {
        var i :| 0 <= i < |names| && names[i] == name;
      }
    }
    Distinct(names)
  }

  /**
   * The default end of the date range: 31 March of this year in January to
   * March, otherwise of next year; it never precedes today.
   */
  function DefaultEndDate(today: Calendar.Date): (r: Calendar.Date)
    requires today.Valid()
    ensures r.Valid() && r.month == 3 && r.day == 31
    ensures r.year == (if today.month <= 3 then today.year else today.year + 1)
    ensures Calendar.NotAfter(today, r)
  {
    Calendar.Date(if today.month <= 3 then today.year else today.year + 1, 3, 31)
  }
}
