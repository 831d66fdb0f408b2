/** The sales ledger: the global `salesRecords`, `recordSale`, the clear-all
    handler, the startup load, and the figures `renderSales` computes from
    the records (total revenue, units sold per product, revenue per month). */
module Ledger {
  import opened Common
  import Order

  /** A calendar month, `month` in 1..12, as `renderSales` derives it from a
      record's date. */
  datatype YearMonth = YearMonth(year: nat, month: nat)

  /** One sold line `{item, price, qty}`. A `qty` of 0 stands for a missing
      or falsy quantity, which the views read as 1 (`it.qty || 1`). */
  datatype SaleItem = SaleItem(item: string, price: nat, qty: nat)

  datatype Customer = Customer(name: string, phone: string, address: string)

  /** A committed sale. `month` is the month of the record's date, `None` when
      that date does not parse; the amounts are whole paise. */
  datatype SaleRecord = SaleRecord(
    month: Option<YearMonth>,
    items: seq<SaleItem>,
    subtotal: nat,
    gst: nat,
    totalWithGst: nat,
    paymentMethod: Order.PaymentMethod,
    customer: Customer)

  /** `it.qty || 1`: a missing or zero quantity counts as one unit. */
  function EffectiveQty(qty: nat): (q: nat)
    ensures q >= 1
    ensures qty != 0 ==> q == qty
  {
    if qty == 0 then 1 else qty
  }

  /** The sum of the prices of the sold lines. */
  function ItemsSubtotal(items: seq<SaleItem>): nat
  {
    if items == [] then 0 else ItemsSubtotal(items[..|items| - 1]) + items[|items| - 1].price
  }

  // ---- Total revenue -------------------------------------------------------

  /** `salesRecords.reduce((s, r) => s + Number(r.totalWithGst || 0), 0)`. */
  /** No single sale exceeds the revenue of the ledger that holds it. */
  function TotalRevenue(records: seq<SaleRecord>): (r: nat)
    ensures forall i :: 0 <= i < |records| ==> records[i].totalWithGst <= r
  {
    if records == [] then 0
    else TotalRevenue(records[..|records| - 1]) + records[|records| - 1].totalWithGst
  }

  /** Revenue adds up over consecutive stretches of the ledger. */
  lemma {:induction false} TotalRevenueAppend(a: seq<SaleRecord>, b: seq<SaleRecord>)
    ensures TotalRevenue(a + b) == TotalRevenue(a) + TotalRevenue(b)
  {
    if b == [] {
      assert a + b == a;
    } else {
      assert (a + b)[..|a + b| - 1] == a + b[..|b| - 1];
      TotalRevenueAppend(a, b[..|b| - 1]);
    }
  }

  // ---- Units sold per product ----------------------------------------------

  /** Units of product `name` among `items`, each line counting `qty || 1`. */
  function ItemUnits(items: seq<SaleItem>, name: string): nat
  {
    if items == [] then 0
    else
      var last := items[|items| - 1];
      ItemUnits(items[..|items| - 1], name) + (if last.item == name then EffectiveQty(last.qty) else 0)
  }

  /** Units of product `name` over all records, in ledger order. */
  function UnitsSold(records: seq<SaleRecord>, name: string): nat
  {
    if records == [] then 0
    else UnitsSold(records[..|records| - 1], name) + ItemUnits(records[|records| - 1].items, name)
  }

  /** Some line of some record names product `name`. */
  ghost predicate Sold(records: seq<SaleRecord>, name: string) {
    exists i, j :: 0 <= i < |records| && 0 <= j < |records[i].items| && records[i].items[j].item == name
  }

  lemma {:induction false} ItemUnitsPositiveIff(items: seq<SaleItem>, name: string)
    ensures ItemUnits(items, name) > 0 <==> exists j :: 0 <= j < |items| && items[j].item == name
  {
    if items != [] {
      var init := items[..|items| - 1];
      ItemUnitsPositiveIff(init, name);
      assert forall j :: 0 <= j < |init| ==> init[j] == items[j];
    }
  }

  /** A product has a positive count exactly when it appears in some record:
      a product never sold has no entry, and every sold one counts at least 1. */
  lemma {:induction false} UnitsSoldPositiveIff(records: seq<SaleRecord>, name: string)
    ensures UnitsSold(records, name) > 0 <==> Sold(records, name)
  {
    if records != [] {
      var init := records[..|records| - 1];
      var last := records[|records| - 1];
      UnitsSoldPositiveIff(init, name);
      ItemUnitsPositiveIff(last.items, name);
      if Sold(init, name) {
        var i, j :| 0 <= i < |init| && 0 <= j < |init[i].items| && init[i].items[j].item == name;
        assert records[i] == init[i];
      }
    }
  }

  /** The product-count loop of `renderSales`: for every product named in the
      ledger, the sum of its quantities (`qty || 1`) over all records; no
      entry for any other name. */
  method ProductCounts(records: seq<SaleRecord>) returns (counts: map<string, nat>)
    ensures forall name :: name in counts <==> UnitsSold(records, name) > 0
    ensures forall name :: name in counts ==> counts[name] == UnitsSold(records, name)
  {
    counts := map[];
    var i := 0;
    while i < |records|
      invariant 0 <= i <= |records|
      invariant forall name :: name in counts <==> UnitsSold(records[..i], name) > 0
      invariant forall name :: name in counts ==> counts[name] == UnitsSold(records[..i], name)
    {
      var items := records[i].items;
      var j := 0;
      while j < |items|
        invariant 0 <= j <= |items|
        invariant forall name :: name in counts <==> UnitsSold(records[..i], name) + ItemUnits(items[..j], name) > 0
        invariant forall name :: name in counts ==>
                    counts[name] == UnitsSold(records[..i], name) + ItemUnits(items[..j], name)
      {
        var it := items[j];
        assert items[..j + 1][..j] == items[..j];
        var before := if it.item in counts then counts[it.item] else 0;
        counts := counts[it.item := before + EffectiveQty(it.qty)];
        j := j + 1;
      }
      assert items[..j] == items;
      assert records[..i + 1][..i] == records[..i];
      i := i + 1;
    }
    assert records[..i] == records;
  }

  // ---- Revenue per month ---------------------------------------------------

  /** The revenue booked in month `ym`: totals of the records dated in it. */
  function MonthRevenue(records: seq<SaleRecord>, ym: YearMonth): nat
  {
    if records == [] then 0
    else
      var last := records[|records| - 1];
      MonthRevenue(records[..|records| - 1], ym) + (if last.month == Some(ym) then last.totalWithGst else 0)
  }

  /** The months in which some record is dated. */
  function DatedMonths(records: seq<SaleRecord>): set<YearMonth>
  {
    if records == [] then {}
    else
      var last := records[|records| - 1];
      DatedMonths(records[..|records| - 1]) + (if last.month.Some? then {last.month.value} else {})
  }

  lemma {:induction false} DatedMonthsIff(records: seq<SaleRecord>, ym: YearMonth)
    ensures ym in DatedMonths(records) <==> exists i :: 0 <= i < |records| && records[i].month == Some(ym)
  {
    if records != [] {
      var init := records[..|records| - 1];
      DatedMonthsIff(init, ym);
      assert forall i :: 0 <= i < |init| ==> init[i] == records[i];
    }
  }

  /** A month's revenue never exceeds the revenue of the whole ledger
      (records without a valid date count toward the latter only). */
  lemma {:induction false} MonthRevenueBounded(records: seq<SaleRecord>, ym: YearMonth)
    ensures MonthRevenue(records, ym) <= TotalRevenue(records)
  {
    if records != [] {
      MonthRevenueBounded(records[..|records| - 1], ym);
    }
  }

  /** Two sales in the same month make one entry worth both totals. */
  lemma {:induction false} SameMonthSalesAdd(before: seq<SaleRecord>, r1: SaleRecord, r2: SaleRecord, ym: YearMonth)
    requires r1.month == Some(ym) && r2.month == Some(ym)
    ensures MonthRevenue(before + [r1, r2], ym) == MonthRevenue(before, ym) + r1.totalWithGst + r2.totalWithGst
  {
    assert (before + [r1, r2])[..|before| + 1] == before + [r1];
    assert (before + [r1])[..|before|] == before;
  }

  /** The monthly loop of `renderSales`: one entry per month in which some
      record is dated, holding that month's revenue; records without a valid
      date are skipped. */
  method MonthlyRevenue(records: seq<SaleRecord>) returns (monthly: map<YearMonth, nat>)
    ensures monthly.Keys == DatedMonths(records)
    ensures forall ym :: ym in monthly ==> monthly[ym] == MonthRevenue(records, ym)
  {
    monthly := map[];
    var i := 0;
    while i < |records|
      invariant 0 <= i <= |records|
      invariant monthly.Keys == DatedMonths(records[..i])
      invariant forall ym :: ym in monthly ==> monthly[ym] == MonthRevenue(records[..i], ym)
      invariant forall ym :: ym !in monthly ==> MonthRevenue(records[..i], ym) == 0
    {
      var r := records[i];
      assert records[..i + 1][..i] == records[..i];
      if r.month.Some? {
        var key := r.month.value;
        var before := if key in monthly then monthly[key] else 0;
        monthly := monthly[key := before + r.totalWithGst];
      }
      i := i + 1;
    }
    assert records[..i] == records;
  }

  /** `a` is a later month than `b`. */
  predicate Later(a: YearMonth, b: YearMonth) {
    a.year > b.year || (a.year == b.year && a.month > b.month)
  }

  /** Each month is strictly later than every month after it. */
  ghost predicate StrictlyDescending(s: seq<YearMonth>) {
    forall i, j :: 0 <= i < j < |s| ==> Later(s[i], s[j])
  }

  /** Puts `k` into a descending list of months at its place. */
  function InsertDescending(s: seq<YearMonth>, k: YearMonth): (r: seq<YearMonth>)
    requires StrictlyDescending(s) && k !in s
    ensures StrictlyDescending(r)
    ensures |r| == |s| + 1
    ensures forall x :: x in r <==> x in s || x == k
  {
    if s == [] || Later(k, s[0]) then [k] + s
    else
      var rest := InsertDescending(s[1..], k);
      assert forall x :: x in s[1..] ==> Later(s[0], x);
      [s[0]] + rest
  }

  /** `Object.keys(monthly).sort().reverse()`: every month of the map once,
      latest first. */
  method MonthKeysDescending(monthly: map<YearMonth, nat>) returns (keys: seq<YearMonth>)
    ensures StrictlyDescending(keys)
    ensures forall ym :: ym in keys <==> ym in monthly
  {
    keys := [];
    var pending := monthly.Keys;
    while pending != {}
      invariant StrictlyDescending(keys)
      invariant pending <= monthly.Keys
      invariant forall ym :: ym in keys <==> ym in monthly && ym !in pending
      decreases pending
    {
      var k :| k in pending;
      keys := InsertDescending(keys, k);
      pending := pending - {k};
    }
  }

  class SalesLedger {
    var salesRecords: seq<SaleRecord>

    /** `loadSales` at page load: the stored records when present and
        readable (`stored` is `None` when nothing is stored or it does not
        parse), otherwise an empty ledger. */
    constructor Load(stored: Option<seq<SaleRecord>>)
      ensures salesRecords == (if stored.Some? then stored.value else [])
    {
      salesRecords := if stored.Some? then stored.value else [];
    }

    /** `recordSale(record)`: the record goes at the end; earlier records are
        unchanged, so the ledger is in commit order. */
    method RecordSale(record: SaleRecord)
      modifies this
      ensures salesRecords == old(salesRecords) + [record]
      ensures TotalRevenue(salesRecords) == TotalRevenue(old(salesRecords)) + record.totalWithGst
    {
      TotalRevenueAppend(salesRecords, [record]);
      salesRecords := salesRecords + [record];
    }

    /** The confirmed "clear all" action: no records remain. */
    method ClearSales()
      modifies this
      ensures salesRecords == []
      ensures TotalRevenue(salesRecords) == 0
    {
      salesRecords := [];
    }
  }
}
