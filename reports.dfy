/** The read-only reports of crud.py: the low-stock list, the dashboard and
    finance indicators, the realized profit over a date range and the
    monthly sales chart.  Each `SUM(...)` is a `MapSum` of a per-row amount;
    a SUM over no row, which the source turns from NULL into 0, is 0.
    "Today" is passed in: a timestamp is on or after the start of `today`
    exactly when its date is not before `today`. */
module Reports {
  import opened Models
  import opened Schemas
  import opened Tables
  import opened Ledger

  // ---------------------------------------------------------------------
  // get_low_stock_products

  /** The threshold get_low_stock_products uses when none is passed. */
  const DefaultLowStockThreshold: int := 10

  /** Strictly between zero and the threshold. */
  predicate IsLow(p: Product, threshold: int)
  {
    0.0 < p.stockQuantity < threshold as real
  }

  /** The rows under the keys `ks`, in that order, whose stock is low. */
  function LowAmong(ks: seq<int>, products: map<int, Product>, threshold: int): seq<Row<Product>>
    requires forall i :: 0 <= i < |ks| ==> ks[i] in products
  {
    if |ks| == 0 then []
    else
      var rest := LowAmong(ks[1..], products, threshold);
      if IsLow(products[ks[0]], threshold) then [Row(ks[0], products[ks[0]])] + rest else rest
  }

  /** Every row listed is a low-stock product under one of the keys. */
  lemma {:induction false} LowAmongRows(ks: seq<int>, products: map<int, Product>, threshold: int)
    requires forall i :: 0 <= i < |ks| ==> ks[i] in products
    ensures forall i :: 0 <= i < |LowAmong(ks, products, threshold)| ==>
      var row := LowAmong(ks, products, threshold)[i];
      row.id in ks && row.id in products && row.record == products[row.id] && IsLow(row.record, threshold)
  {
    if |ks| > 0 {
      var tail := ks[1..];
      var rest := LowAmong(tail, products, threshold);
      LowAmongRows(tail, products, threshold);
      var r := LowAmong(ks, products, threshold);
      var off := if IsLow(products[ks[0]], threshold) then 1 else 0;
      assert r == if off == 1 then [Row(ks[0], products[ks[0]])] + rest else rest;
      forall i | 0 <= i < |r|
        ensures r[i].id in ks && r[i].id in products && r[i].record == products[r[i].id] && IsLow(r[i].record, threshold)
      {
        if i >= off {
          assert r[i] == rest[i - off];
          assert rest[i - off].id in tail;
          var j :| 0 <= j < |tail| && tail[j] == rest[i - off].id;
          assert ks[j + 1] == r[i].id;
        }
      }
    }
  }

  /** Every low-stock product under one of the keys is listed. */
  lemma {:induction false} LowAmongComplete(ks: seq<int>, products: map<int, Product>, threshold: int)
    requires forall i :: 0 <= i < |ks| ==> ks[i] in products
    ensures forall j :: 0 <= j < |ks| && IsLow(products[ks[j]], threshold) ==>
      Row(ks[j], products[ks[j]]) in LowAmong(ks, products, threshold)
  {
    if |ks| > 0 {
      var tail := ks[1..];
      LowAmongComplete(tail, products, threshold);
      forall j | 0 <= j < |ks| && IsLow(products[ks[j]], threshold)
        ensures Row(ks[j], products[ks[j]]) in LowAmong(ks, products, threshold)
      {
        if j > 0 {
          assert ks[j] == tail[j - 1];
        }
      }
    }
  }

  /** Listed in the order of the keys. */
  lemma {:induction false} LowAmongAscending(ks: seq<int>, products: map<int, Product>, threshold: int)
    requires forall i :: 0 <= i < |ks| ==> ks[i] in products
    requires StrictlyIncreasing(ks)
    ensures forall i, j :: 0 <= i < j < |LowAmong(ks, products, threshold)| ==>
      LowAmong(ks, products, threshold)[i].id < LowAmong(ks, products, threshold)[j].id
  {
    if |ks| > 0 {
      var tail := ks[1..];
      var rest := LowAmong(tail, products, threshold);
      assert StrictlyIncreasing(tail);
      LowAmongAscending(tail, products, threshold);
      LowAmongRows(tail, products, threshold);
      var r := LowAmong(ks, products, threshold);
      var off := if IsLow(products[ks[0]], threshold) then 1 else 0;
      assert r == if off == 1 then [Row(ks[0], products[ks[0]])] + rest else rest;
      forall i, j | 0 <= i < j < |r| ensures r[i].id < r[j].id {
        assert r[j] == rest[j - off];
        if i < off {
          assert rest[j - off].id in tail;
          var k :| 0 <= k < |tail| && tail[k] == rest[j - off].id;
          assert ks[0] < ks[k + 1];
        } else {
          assert r[i] == rest[i - off];
        }
      }
    }
  }

  /** get_low_stock_products: exactly the products whose stock is strictly
      between zero and the threshold, each once, in ascending id order. */
  function LowStock(products: map<int, Product>, threshold: int): (r: seq<Row<Product>>)
    ensures forall i :: 0 <= i < |r| ==>
      r[i].id in products && r[i].record == products[r[i].id] && IsLow(r[i].record, threshold)
    ensures forall k :: k in products && IsLow(products[k], threshold) ==> Row(k, products[k]) in r
    ensures forall i, j :: 0 <= i < j < |r| ==> r[i].id < r[j].id
  {
    var ks := SortedKeys(products.Keys);
    SortedKeysSpec(products.Keys);
    LowAmongRows(ks, products, threshold);
    LowAmongComplete(ks, products, threshold);
    LowAmongAscending(ks, products, threshold);
    assert forall k :: k in products ==> exists j :: 0 <= j < |ks| && ks[j] == k;
    LowAmong(ks, products, threshold)
  }

  /** Called without a threshold, the query lists exactly the products with
      a stock above 0 and below 10. */
  lemma DefaultLowStock(products: map<int, Product>)
    ensures var r := LowStock(products, DefaultLowStockThreshold);
      && (forall i :: 0 <= i < |r| ==> r[i].id in products && 0.0 < r[i].record.stockQuantity < 10.0)
      && (forall k :: k in products && 0.0 < products[k].stockQuantity < 10.0 ==> Row(k, products[k]) in r)
  {
  }

  // ---------------------------------------------------------------------
  // get_dashboard_kpis

  predicate OnOrAfter(t: DateTime, today: Date)
  {
    DateLe(today, t.date)
  }

  /** A sale's amount, if it was made today or later. */
  function RevenueSince(today: Date): Sale -> real
  {
    (s: Sale) => if OnOrAfter(s.saleDate, today) then s.totalAmount else 0.0
  }

  /** Value of a product's stock at purchase price. */
  function StockValue(p: Product): real
  {
    p.purchasePrice * p.stockQuantity
  }

  /** An order's cost, if it has been received. */
  function ReceivedCost(o: PurchaseOrder): real
  {
    if o.status == Recue then o.totalCost else 0.0
  }

  function SalesSince(sales: map<int, Sale>, today: Date): set<int>
  {
    set k | k in sales && OnOrAfter(sales[k].saleDate, today)
  }

  datatype DashboardKpis = DashboardKpis(revenueToday: real, salesToday: nat, stockValue: real, totalPurchases: real)

  function Dashboard(db: Db, today: Date): DashboardKpis
  {
    DashboardKpis(MapSum(db.sales, RevenueSince(today)), |SalesSince(db.sales, today)|,
                  MapSum(db.products, StockValue), MapSum(db.orders, ReceivedCost))
  }

  // ---------------------------------------------------------------------
  // get_finance_kpis, get_realized_profit_in_date_range

  /** Stock value at selling price minus stock value at purchase price. */
  function Margin(p: Product): real
  {
    (p.sellingPrice - p.purchasePrice) * p.stockQuantity
  }

  /** Today's profit rule: a line whose product no longer exists is skipped. */
  function LineProfitSkipping(products: map<int, Product>): SaleItem -> real
  {
    (line: SaleItem) => if line.productId in products
            then (line.pricePerUnit - products[line.productId].purchasePrice) * line.quantity
            else 0.0
  }

  /** The date-range rule: a line whose product no longer exists counts at a
      purchase price of zero. */
  function LineProfitZeroCost(products: map<int, Product>): SaleItem -> real
  {
    (line: SaleItem) => (line.pricePerUnit - (if line.productId in products then products[line.productId].purchasePrice else 0.0))
            * line.quantity
  }

  /** The revenue of a line whose product no longer exists. */
  function LineOrphanRevenue(products: map<int, Product>): SaleItem -> real
  {
    (line: SaleItem) => if line.productId in products then 0.0 else line.pricePerUnit * line.quantity
  }

  function ProfitSince(products: map<int, Product>, today: Date): Sale -> real
  {
    (s: Sale) => if OnOrAfter(s.saleDate, today) then Sum(s.items, LineProfitSkipping(products)) else 0.0
  }

  /** Within the range, both ends included. */
  predicate InRange(t: DateTime, start: Date, end: Date)
  {
    DateLe(start, t.date) && DateLe(t.date, end)
  }

  function ProfitInRange(products: map<int, Product>, start: Date, end: Date): Sale -> real
  {
    (s: Sale) => if InRange(s.saleDate, start, end) then Sum(s.items, LineProfitZeroCost(products)) else 0.0
  }

  function OrphanRevenueInRange(products: map<int, Product>, start: Date, end: Date): Sale -> real
  {
    (s: Sale) => if InRange(s.saleDate, start, end) then Sum(s.items, LineOrphanRevenue(products)) else 0.0
  }

  /** An amount still owed: the total of a sale on credit. */
  function CreditAmount(s: Sale): real
  {
    if s.status == Credit then s.totalAmount else 0.0
  }

  datatype FinanceKpis = FinanceKpis(projectedProfit: real, realProfitToday: real, totalCredits: real)

  function Finance(db: Db, today: Date): FinanceKpis
  {
    FinanceKpis(MapSum(db.products, Margin), MapSum(db.sales, ProfitSince(db.products, today)),
                MapSum(db.sales, CreditAmount))
  }

  /** get_realized_profit_in_date_range. */
  function RealizedProfit(db: Db, start: Date, end: Date): real
  {
    MapSum(db.sales, ProfitInRange(db.products, start, end))
  }

  /** The two profit rules differ by the revenue of lines whose product no
      longer exists: when no sale is dated after today, the realized profit
      of the range [today, today] is today's profit plus that revenue. */
  lemma ProfitRulesDiffer(db: Db, today: Date)
    requires forall k :: k in db.sales ==> DateLe(db.sales[k].saleDate.date, today)
    ensures RealizedProfit(db, today, today)
      == Finance(db, today).realProfitToday + MapSum(db.sales, OrphanRevenueInRange(db.products, today, today))
  {
    var range := ProfitInRange(db.products, today, today);
    var since := ProfitSince(db.products, today);
    var orphan := OrphanRevenueInRange(db.products, today, today);
    forall k | k in db.sales ensures range(db.sales[k]) == since(db.sales[k]) + orphan(db.sales[k]) {
      var s := db.sales[k];
      var items := s.items;
      forall i | 0 <= i < |items|
        ensures LineProfitZeroCost(db.products)(items[i])
             == LineProfitSkipping(db.products)(items[i]) + LineOrphanRevenue(db.products)(items[i])
      {
      }
      SumAdd(items, LineProfitSkipping(db.products), LineOrphanRevenue(db.products), LineProfitZeroCost(db.products));
    }
    MapSumAdd(db.sales, since, orphan, range);
  }

  /** When every line names an existing product, nothing is orphaned and the
      two rules agree. */
  lemma NoOrphanRevenue(db: Db, start: Date, end: Date)
    requires forall k, i :: k in db.sales && 0 <= i < |db.sales[k].items| ==> db.sales[k].items[i].productId in db.products
    ensures MapSum(db.sales, OrphanRevenueInRange(db.products, start, end)) == 0.0
  {
    var orphan := OrphanRevenueInRange(db.products, start, end);
    forall k | k in db.sales ensures orphan(db.sales[k]) == 0.0 {
      var items := db.sales[k].items;
      SumAdd(items, LineOrphanRevenue(db.products), LineOrphanRevenue(db.products), LineOrphanRevenue(db.products));
    }
    MapSumZero(db.sales, orphan);
  }

  // ---------------------------------------------------------------------
  // How the operations move the indicators

  /** Value, at purchase price, of the stock the moves add to existing
      products (negative when they take stock away). */
  function MovesValue(products: map<int, Product>, moves: seq<StockMove>): real
  {
    if |moves| == 0 then 0.0
    else
      var mv := moves[|moves| - 1];
      MovesValue(products, moves[..|moves| - 1])
        + (if mv.productId in products then products[mv.productId].purchasePrice * mv.delta else 0.0)
  }

  lemma {:induction false} StockValueAfterMoves(products: map<int, Product>, moves: seq<StockMove>)
    ensures MapSum(ApplyMoves(products, moves), StockValue) == MapSum(products, StockValue) + MovesValue(products, moves)
  {
    var n := |moves|;
    if n > 0 {
      var init := moves[..n - 1];
      var mv := moves[n - 1];
      var q := ApplyMoves(products, init);
      StockValueAfterMoves(products, init);
      ApplyMovesEffect(products, init);
      if mv.productId in products {
        var p := q[mv.productId];
        var p' := p.(stockQuantity := p.stockQuantity + mv.delta);
        MapSumUpdate(q, mv.productId, p', StockValue);
        assert StockValue(p') - StockValue(p) == p.purchasePrice * mv.delta by {
          assert p.purchasePrice * (p.stockQuantity + mv.delta) == p.purchasePrice * p.stockQuantity + p.purchasePrice * mv.delta;
        }
      }
    }
  }

  /** Purchase value of the quantities the lines ask for. */
  function SaleCost(products: map<int, Product>, items: seq<SaleItemCreate>): real
  {
    if |items| == 0 then 0.0
    else
      var it := items[|items| - 1];
      SaleCost(products, items[..|items| - 1])
        + (if it.productId in products then products[it.productId].purchasePrice * it.quantity else 0.0)
  }

  lemma {:induction false} SaleMovesValue(products: map<int, Product>, items: seq<SaleItemCreate>)
    ensures MovesValue(products, SaleMoves(items)) == -SaleCost(products, items)
  {
    var n := |items|;
    if n > 0 {
      assert SaleMoves(items)[..n - 1] == SaleMoves(items[..n - 1]);
      SaleMovesValue(products, items[..n - 1]);
    }
  }

  /** Purchase value of the quantities of the order lines whose product
      exists. */
  function ReceivedValue(products: map<int, Product>, lines: seq<PurchaseOrderItem>): real
  {
    if |lines| == 0 then 0.0
    else
      var l := lines[|lines| - 1];
      ReceivedValue(products, lines[..|lines| - 1])
        + (if l.productId in products then products[l.productId].purchasePrice * l.quantity else 0.0)
  }

  lemma {:induction false} ReceiveMovesValue(products: map<int, Product>, lines: seq<PurchaseOrderItem>)
    ensures MovesValue(products, ReceiveMoves(lines)) == ReceivedValue(products, lines)
  {
    var n := |lines|;
    if n > 0 {
      assert ReceiveMoves(lines)[..n - 1] == ReceiveMoves(lines[..n - 1]);
      ReceiveMovesValue(products, lines[..n - 1]);
    }
  }

  /** A recorded sale made today adds its total to today's revenue and one
      to today's count, and leaves the purchases total alone. */
  lemma CreateSaleDashboard(db: Db, req: SaleCreate, userId: int, now: DateTime, today: Date)
    requires OnOrAfter(now, today)
    ensures var (db', r) := CreateSale(db, req, userId, now);
      var (k, k') := (Dashboard(db, today), Dashboard(db', today));
      r.Returned? ==>
        && k'.revenueToday == k.revenueToday + r.value.record.totalAmount
        && k'.salesToday == k.salesToday + 1
        && k'.totalPurchases == k.totalPurchases
  {
    if FirstShortage(db.products, req.items).None? {
      var (db', r) := CreateSale(db, req, userId, now);
      TodaySaleAdded(db.sales, r.value.id, r.value.record, today);
    }
  }

  /** Adding a sale of today under a fresh, largest id adds its total to
      today's revenue and one to today's count. */
  lemma TodaySaleAdded(sales: map<int, Sale>, id: int, s: Sale, today: Date)
    requires forall j :: j in sales ==> j < id
    requires OnOrAfter(s.saleDate, today)
    ensures MapSum(sales[id := s], RevenueSince(today)) == MapSum(sales, RevenueSince(today)) + s.totalAmount
    ensures |SalesSince(sales[id := s], today)| == |SalesSince(sales, today)| + 1
  {
    MapSumInsertMax(sales, id, s, RevenueSince(today));
    assert SalesSince(sales[id := s], today) == SalesSince(sales, today) + {id};
  }

  /** A recorded sale takes the purchase value of what it sold off the
      stock value. */
  lemma CreateSaleStockValue(db: Db, req: SaleCreate, userId: int, now: DateTime)
    ensures var (db', r) := CreateSale(db, req, userId, now);
      r.Returned? ==> MapSum(db'.products, StockValue) == MapSum(db.products, StockValue) - SaleCost(db.products, req.items)
  {
    var (db', r) := CreateSale(db, req, userId, now);
    if r.Returned? {
      StockValueAfterMoves(db.products, SaleMoves(req.items));
      SaleMovesValue(db.products, req.items);
    }
  }

  /** Receiving a pending order adds its total cost to the purchases total
      and the purchase value of its lines for existing products to the
      stock value; sales figures do not move. */
  lemma ReceiveDashboard(db: Db, id: int, now: DateTime, today: Date)
    ensures var (db', r) := ReceivePurchaseOrder(db, id, now);
      var (k, k') := (Dashboard(db, today), Dashboard(db', today));
      r.Returned? ==>
        && k'.totalPurchases == k.totalPurchases + db.orders[id].totalCost
        && k'.stockValue == k.stockValue + ReceivedValue(db.products, db.orders[id].items)
        && k'.revenueToday == k.revenueToday && k'.salesToday == k.salesToday
  {
    var (db', r) := ReceivePurchaseOrder(db, id, now);
    if r.Returned? {
      var o := db.orders[id];
      MapSumUpdate(db.orders, id, r.value.record, ReceivedCost);
      StockValueAfterMoves(db.products, ReceiveMoves(o.items));
      ReceiveMovesValue(db.products, o.items);
    }
  }

  /** A new order is pending: no indicator moves until it is received. */
  lemma CreatePurchaseOrderDashboard(db: Db, req: PurchaseOrderCreate, now: DateTime, today: Date)
    ensures Dashboard(CreatePurchaseOrder(db, req, now).0, today) == Dashboard(db, today)
  {
    var (db', row) := CreatePurchaseOrder(db, req, now);
    MapSumInsertMax(db.orders, row.id, row.record, ReceivedCost);
  }

  /** Settling a sale that was on credit takes its total off the credits;
      settling one already paid leaves them as they were. */
  lemma SettleFinance(db: Db, id: int, paymentMethod: string, today: Date)
    requires id in db.sales
    ensures var db' := SettleCreditSale(db, id, paymentMethod).0;
      Finance(db', today).totalCredits == Finance(db, today).totalCredits - CreditAmount(db.sales[id])
  {
    var db' := SettleCreditSale(db, id, paymentMethod).0;
    MapSumUpdate(db.sales, id, db'.sales[id], CreditAmount);
  }

  /** A sale recorded on credit adds its total to the credits; a paid one
      does not. */
  lemma CreateSaleFinance(db: Db, req: SaleCreate, userId: int, now: DateTime, today: Date)
    ensures var (db', r) := CreateSale(db, req, userId, now);
      r.Returned? ==>
        Finance(db', today).totalCredits
          == Finance(db, today).totalCredits + (if req.status == Credit then r.value.record.totalAmount else 0.0)
  {
    var (db', r) := CreateSale(db, req, userId, now);
    if r.Returned? {
      MapSumInsertMax(db.sales, r.value.id, r.value.record, CreditAmount);
    }
  }

  // ---------------------------------------------------------------------
  // get_monthly_sales_chart_data

  /** A sale's amount, if it was made in that month of that year. */
  function MonthAmount(year: int, month: Month): Sale -> real
  {
    (s: Sale) => if s.saleDate.date.year == year && s.saleDate.date.month == month then s.totalAmount else 0.0
  }

  function MonthTotal(sales: map<int, Sale>, year: int, month: Month): real
  {
    MapSum(sales, MonthAmount(year, month))
  }

  predicate HasSalesIn(sales: map<int, Sale>, year: int, month: Month)
  {
    exists k :: k in sales && sales[k].saleDate.date.year == year && sales[k].saleDate.date.month == month
  }

  /** A month without sales totals zero. */
  lemma MonthTotalEmpty(sales: map<int, Sale>, year: int, month: Month)
    requires !HasSalesIn(sales, year, month)
    ensures MonthTotal(sales, year, month) == 0.0
  {
    MapSumZero(sales, MonthAmount(year, month));
  }

  /** What the grouped query returns, in whatever order: exactly one row
      per month of the year that has sales, holding that month's total. */
  predicate IsMonthlyGrouping(sales: map<int, Sale>, year: int, rows: seq<(Month, real)>)
  {
    && (forall i :: 0 <= i < |rows| ==> HasSalesIn(sales, year, rows[i].0) && rows[i].1 == MonthTotal(sales, year, rows[i].0))
    && (forall m: Month :: HasSalesIn(sales, year, m) ==> (m, MonthTotal(sales, year, m)) in rows)
    && (forall i, j :: 0 <= i < j < |rows| ==> rows[i].0 != rows[j].0)
  }

  function GroupFrom(sales: map<int, Sale>, year: int, from: int): seq<(Month, real)>
    requires 1 <= from <= 13
    decreases 13 - from
  {
    if from == 13 then []
    else
      var rest := GroupFrom(sales, year, from + 1);
      if HasSalesIn(sales, year, from) then [(from as Month, MonthTotal(sales, year, from))] + rest else rest
  }

  lemma {:induction false} GroupFromSpec(sales: map<int, Sale>, year: int, from: int)
    requires 1 <= from <= 13
    ensures forall i :: 0 <= i < |GroupFrom(sales, year, from)| ==>
      var row := GroupFrom(sales, year, from)[i];
      HasSalesIn(sales, year, row.0) && row.1 == MonthTotal(sales, year, row.0)
    ensures forall m: Month :: from <= m && HasSalesIn(sales, year, m) ==>
      (m, MonthTotal(sales, year, m)) in GroupFrom(sales, year, from)
    decreases 13 - from
  {
    if from < 13 {
      var rest := GroupFrom(sales, year, from + 1);
      GroupFromSpec(sales, year, from + 1);
      var r := GroupFrom(sales, year, from);
      var off := if HasSalesIn(sales, year, from) then 1 else 0;
      assert r == if off == 1 then [(from as Month, MonthTotal(sales, year, from))] + rest else rest;
      forall i | 0 <= i < |r| ensures HasSalesIn(sales, year, r[i].0) && r[i].1 == MonthTotal(sales, year, r[i].0) {
        if i >= off {
          assert r[i] == rest[i - off];
        }
      }
    }
  }

  /** All rows are for month `from` or later, in strictly ascending month
      order. */
  predicate AscendingFrom(rows: seq<(Month, real)>, from: int)
  {
    && (forall i :: 0 <= i < |rows| ==> from <= rows[i].0)
    && (forall i, j :: 0 <= i < j < |rows| ==> rows[i].0 < rows[j].0)
  }

  /** A row for month `from` in front of rows from a later month on keeps
      the rows ascending. */
  lemma PrependAscending(row: (Month, real), rest: seq<(Month, real)>, from: int)
    requires row.0 == from && AscendingFrom(rest, from + 1)
    ensures AscendingFrom([row] + rest, from)
  {
    var r := [row] + rest;
    forall i, j | 0 <= i < j < |r| ensures r[i].0 < r[j].0 {
      assert r[j] == rest[j - 1];
      if i > 0 {
        assert r[i] == rest[i - 1];
      }
    }
  }

  /** The grouped rows from a month on are for that month or later, in
      strictly ascending month order, so no month appears twice. */
  lemma {:induction false} GroupFromOrdered(sales: map<int, Sale>, year: int, from: int)
    requires 1 <= from <= 13
    ensures AscendingFrom(GroupFrom(sales, year, from), from)
    decreases 13 - from
  {
    if from < 13 {
      var rest := GroupFrom(sales, year, from + 1);
      GroupFromOrdered(sales, year, from + 1);
      if HasSalesIn(sales, year, from) {
        PrependAscending((from as Month, MonthTotal(sales, year, from)), rest, from);
      }
    }
  }

  /** The grouped query, months ascending. */
  function MonthlyRows(sales: map<int, Sale>, year: int): (r: seq<(Month, real)>)
    ensures IsMonthlyGrouping(sales, year, r)
    ensures forall i, j :: 0 <= i < j < |r| ==> r[i].0 < r[j].0
  {
    GroupFromSpec(sales, year, 1);
    GroupFromOrdered(sales, year, 1);
    GroupFrom(sales, year, 1)
  }

  /** The value a slot holds after the rows are written in order: that of
      the last row for its month, or the initial zero. */
  function SlotValue(rows: seq<(Month, real)>, m: Month): real
  {
    if |rows| == 0 then 0.0
    else if rows[|rows| - 1].0 == m then rows[|rows| - 1].1
    else SlotValue(rows[..|rows| - 1], m)
  }

  /** Writing one more row changes only the slot of its month. */
  lemma SlotValueStep(rows: seq<(Month, real)>, i: nat)
    requires i < |rows|
    ensures forall m: Month :: SlotValue(rows[..i + 1], m) == if rows[i].0 == m then rows[i].1 else SlotValue(rows[..i], m)
  {
    PrefixStep(rows, i);
    var pre := rows[..i + 1];
    assert |pre| == i + 1 && pre[..i] == rows[..i] && pre[i] == rows[i];
    forall m: Month ensures SlotValue(pre, m) == if rows[i].0 == m then rows[i].1 else SlotValue(rows[..i], m) {
      if pre[i].0 == m {
        assert SlotValue(pre, m) == pre[i].1;
      } else {
        assert SlotValue(pre, m) == SlotValue(pre[..i], m);
      }
    }
  }

  /** When every row holds its month's total, a slot ends up with its
      month's total if some row is for that month, and zero otherwise. */
  lemma {:induction false} SlotValueIsTotal(sales: map<int, Sale>, year: int, rows: seq<(Month, real)>, m: Month)
    requires forall i :: 0 <= i < |rows| ==> rows[i].1 == MonthTotal(sales, year, rows[i].0)
    ensures (m, MonthTotal(sales, year, m)) in rows ==> SlotValue(rows, m) == MonthTotal(sales, year, m)
    ensures (forall i :: 0 <= i < |rows| ==> rows[i].0 != m) ==> SlotValue(rows, m) == 0.0
  {
    var n := |rows|;
    if n > 0 && rows[n - 1].0 != m {
      var init := rows[..n - 1];
      SlotValueIsTotal(sales, year, init, m);
      assert rows == init + [rows[n - 1]];
    }
  }

  /** Writing the grouped rows into zeroed slots leaves every month's
      slot holding that month's total, zero for a month without sales. */
  lemma RowsFillSlots(sales: map<int, Sale>, year: int, m: Month)
    ensures SlotValue(MonthlyRows(sales, year), m) == MonthTotal(sales, year, m)
  {
    var rows := MonthlyRows(sales, year);
    SlotValueIsTotal(sales, year, rows, m);
    if !HasSalesIn(sales, year, m) {
      MonthTotalEmpty(sales, year, m);
      assert forall i :: 0 <= i < |rows| ==> rows[i].0 != m;
    }
  }

  /** The loop of get_monthly_sales_chart_data: twelve slots starting at
      zero, each row writing its total into the slot of its month. */
  method FillSlots(rows: seq<(Month, real)>) returns (slots: seq<real>)
    ensures |slots| == 12
    ensures forall m: Month :: slots[m - 1] == SlotValue(rows, m)
  {
    slots := seq(12, _ => 0.0);
    var i := 0;
    while i < |rows|
      invariant 0 <= i <= |rows|
      invariant |slots| == 12
      invariant forall k :: 0 <= k < 12 ==> slots[k] == SlotValue(rows[..i], k + 1)
    {
      var (month, total) := rows[i];
      slots := slots[month - 1 := total];
      SlotValueStep(rows, i);
      i := i + 1;
    }
    assert rows[..i] == rows;
  }

  /** get_monthly_sales_chart_data: month m's total of the year in slot
      m - 1, zero for the months without sales. */
  method MonthlySalesChart(sales: map<int, Sale>, year: int) returns (totals: seq<real>)
    ensures |totals| == 12
    ensures forall m: Month :: totals[m - 1] == MonthTotal(sales, year, m)
  {
    var rows := MonthlyRows(sales, year);
    totals := FillSlots(rows);
    forall m: Month ensures totals[m - 1] == MonthTotal(sales, year, m) {
      RowsFillSlots(sales, year, m);
    }
  }
}
