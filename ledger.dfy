/** The inventory ledger (crud.py): every operation that changes the store,
    as a function from the store before the call to the store after it and
    the value the call returns.  Each call is one atomic step: an operation
    that raises leaves the store exactly as it was. */
module Ledger {
  import opened Models
  import opened Schemas
  import opened Tables

  /** The tables the core reads and writes. */
  datatype Db = Db(
    products: map<int, Product>,
    suppliers: map<int, Supplier>,
    clients: map<int, Client>,
    sales: map<int, Sale>,
    orders: map<int, PurchaseOrder>,
    settings: seq<Setting>)

  /** What an operation can raise. */
  datatype LedgerError =
    /** ValueError of create_sale, naming the product ("ID inconnu" if it
        does not exist): a missing product and a short stock raise the same. */
    | InsufficientStock(product: string)
    /** ValueError of delete_supplier. */
    | SupplierHasProducts
    /** ValueError of delete_client. */
    | ClientHasSales
    /** The store's refusal, at commit, of a null in a NOT NULL column. */
    | NotNullViolation(column: string)

  /** What a crud call gives back: `None`, an exception, or a record. */
  datatype Reply<T> = NoRecord | Raised(error: LedgerError) | Returned(value: T)

  /** A record together with its primary key. */
  datatype Row<T> = Row(id: int, record: T)

  /** Every sale line and order line names the record that holds it. */
  ghost predicate LinesReferenceParents(db: Db)
  {
    && (forall k, j :: k in db.sales && 0 <= j < |db.sales[k].items| ==> db.sales[k].items[j].saleId == k)
    && (forall k, j :: k in db.orders && 0 <= j < |db.orders[k].items| ==> db.orders[k].items[j].orderId == k)
  }

  // ---------------------------------------------------------------------
  // Stock movements

  /** A change of one product's stock by `delta`. */
  datatype StockMove = StockMove(productId: int, delta: real)

  /** Applies a move to the product it names; a move naming a product that
      does not exist changes nothing. */
  function ApplyMove(products: map<int, Product>, mv: StockMove): map<int, Product>
  {
    if mv.productId in products then
      var p := products[mv.productId];
      products[mv.productId := p.(stockQuantity := p.stockQuantity + mv.delta)]
    else
      products
  }

  /** Applies moves one after the other, in order. */
  function ApplyMoves(products: map<int, Product>, moves: seq<StockMove>): map<int, Product>
  {
    if |moves| == 0 then products
    else ApplyMove(ApplyMoves(products, moves[..|moves| - 1]), moves[|moves| - 1])
  }

  /** Total change the moves make to product `id`. */
  function NetDelta(moves: seq<StockMove>, id: int): real
  {
    if |moves| == 0 then 0.0
    else
      var mv := moves[|moves| - 1];
      NetDelta(moves[..|moves| - 1], id) + (if mv.productId == id then mv.delta else 0.0)
  }

  /** Moves create and drop no product, touch nothing but stock, and change
      each product's stock by the sum of the moves naming it. */
  lemma {:induction false} ApplyMovesEffect(products: map<int, Product>, moves: seq<StockMove>)
    ensures ApplyMoves(products, moves).Keys == products.Keys
    ensures forall id :: id in products ==>
      ApplyMoves(products, moves)[id] == products[id].(stockQuantity := products[id].stockQuantity + NetDelta(moves, id))
  {
    if |moves| > 0 {
      ApplyMovesEffect(products, moves[..|moves| - 1]);
    }
  }

  // ---------------------------------------------------------------------
  // create_sale

  /** The price a sale charges for one unit of `p`: the promo price when
      there is one and it is positive, the selling price otherwise. */
  function UnitPrice(p: Product): (r: real)
    ensures r == p.sellingPrice || p.promoPrice == Some(r)
    ensures p.promoPrice.Some? && p.promoPrice.value > 0.0 ==> r == p.promoPrice.value
    ensures !(p.promoPrice.Some? && p.promoPrice.value > 0.0) ==> r == p.sellingPrice
    ensures ValidProduct(p) ==> r > 0.0
  {
    if p.promoPrice.Some? && p.promoPrice.value > 0.0 then p.promoPrice.value else p.sellingPrice
  }

  /** A requested line passes the stock check: its product exists and its
      stock is not below the quantity asked for. */
  predicate Available(products: map<int, Product>, item: SaleItemCreate)
  {
    item.productId in products && !(products[item.productId].stockQuantity < item.quantity)
  }

  /** How the stock error names a product. */
  function ShortageLabel(products: map<int, Product>, id: int): string
  {
    if id in products then products[id].name else "ID inconnu"
  }

  /** The label of the first requested line that fails the stock check. */
  function FirstShortage(products: map<int, Product>, items: seq<SaleItemCreate>): (r: Option<string>)
    ensures r.None? <==> forall i :: 0 <= i < |items| ==> Available(products, items[i])
    ensures r.Some? ==> exists i :: (0 <= i < |items| && !Available(products, items[i])
      && (forall j :: 0 <= j < i ==> Available(products, items[j]))
      && r.value == ShortageLabel(products, items[i].productId))
  {
    if |items| == 0 then None
    else if !Available(products, items[0]) then Some(ShortageLabel(products, items[0].productId))
    else
      var r := FirstShortage(products, items[1..]);
      assert r.Some? ==> exists i :: (1 <= i < |items| && !Available(products, items[i])
        && (forall j :: 0 <= j < i ==> Available(products, items[j]))
        && r.value == ShortageLabel(products, items[i].productId)) by {
        if r.Some? {
          var i :| 0 <= i < |items[1..]| && !Available(products, items[1..][i])
            && (forall j :: 0 <= j < i ==> Available(products, items[1..][j]))
            && r.value == ShortageLabel(products, items[1..][i].productId);
          assert forall j :: 0 <= j < i + 1 ==> Available(products, items[j]) by {
            forall j | 0 <= j < i + 1 ensures Available(products, items[j]) {
              if j > 0 { assert items[j] == items[1..][j - 1]; }
            }
          }
        }
      }
      assert r.None? ==> forall i :: 0 <= i < |items| ==> Available(products, items[i]) by {
        if r.None? {
          forall i | 0 <= i < |items| ensures Available(products, items[i]) {
            if i > 0 { assert items[i] == items[1..][i - 1]; }
          }
        }
      }
      r
  }

  predicate AllProductsExist(products: map<int, Product>, items: seq<SaleItemCreate>)
  {
    forall i :: 0 <= i < |items| ==> items[i].productId in products
  }

  /** The total the first pass of create_sale accumulates:
      unit price times quantity, line after line. */
  function ChargedTotal(products: map<int, Product>, items: seq<SaleItemCreate>): real
    requires AllProductsExist(products, items)
  {
    if |items| == 0 then 0.0
    else
      var it := items[|items| - 1];
      ChargedTotal(products, items[..|items| - 1]) + UnitPrice(products[it.productId]) * it.quantity
  }

  /** The stored line for a requested one: the caller's price is replaced by
      the product's current unit price. */
  function PricedLine(products: map<int, Product>, item: SaleItemCreate, saleId: int): SaleItem
    requires item.productId in products
  {
    SaleItem(item.quantity, UnitPrice(products[item.productId]), saleId, item.productId)
  }

  function PricedLines(products: map<int, Product>, items: seq<SaleItemCreate>, saleId: int): (r: seq<SaleItem>)
    requires AllProductsExist(products, items)
    ensures |r| == |items|
    ensures forall i :: 0 <= i < |items| ==> r[i] == PricedLine(products, items[i], saleId)
  {
    seq(|items|, i requires 0 <= i < |items| => PricedLine(products, items[i], saleId))
  }

  /** Amount of one stored sale line. */
  function LineAmount(line: SaleItem): real
  {
    line.pricePerUnit * line.quantity
  }

  /** The stock movement a sale line causes. */
  function SaleMove(item: SaleItemCreate): StockMove
  {
    StockMove(item.productId, -item.quantity)
  }

  function SaleMoves(items: seq<SaleItemCreate>): (r: seq<StockMove>)
    ensures |r| == |items|
    ensures forall i :: 0 <= i < |items| ==> r[i] == SaleMove(items[i])
  {
    seq(|items|, i requires 0 <= i < |items| => SaleMove(items[i]))
  }

  /** Sum of the quantities of the requested lines naming product `id`. */
  function SoldQuantity(items: seq<SaleItemCreate>, id: int): real
  {
    if |items| == 0 then 0.0
    else
      var it := items[|items| - 1];
      SoldQuantity(items[..|items| - 1], id) + (if it.productId == id then it.quantity else 0.0)
  }

  /** Every line names a different product. */
  predicate DistinctProducts(items: seq<SaleItemCreate>)
  {
    forall i, j :: 0 <= i < j < |items| ==> items[i].productId != items[j].productId
  }

  /** create_sale: check every line against the current stock (the first
      failing line raises, before anything is written); otherwise record the
      sale with lines priced at the products' current unit prices, its total,
      and take every line's quantity off its product's stock. */
  function CreateSale(db: Db, req: SaleCreate, userId: int, now: DateTime): (Db, Reply<Row<Sale>>)
  {
    match FirstShortage(db.products, req.items)
    case Some(name) => (db, Raised(InsufficientStock(name)))
    case None =>
      var id := NextId(db.sales);
      var sale := Sale(now, ChargedTotal(db.products, req.items), req.paymentMethod, req.status,
                       req.clientId, userId, PricedLines(db.products, req.items, id));
      (db.(sales := db.sales[id := sale], products := ApplyMoves(db.products, SaleMoves(req.items))),
       Returned(Row(id, sale)))
  }

  /** The total charged is the sum of the stored lines' amounts. */
  lemma {:induction false} ChargedTotalReconciles(products: map<int, Product>, items: seq<SaleItemCreate>, saleId: int)
    requires AllProductsExist(products, items)
    ensures ChargedTotal(products, items) == Sum(PricedLines(products, items, saleId), LineAmount)
  {
    var n := |items|;
    if n > 0 {
      var lines := PricedLines(products, items, saleId);
      assert lines[..n - 1] == PricedLines(products, items[..n - 1], saleId);
      ChargedTotalReconciles(products, items[..n - 1], saleId);
    }
  }

  /** The sale's moves take off each product exactly the quantity sold of it. */
  lemma {:induction false} SaleMovesNetDelta(items: seq<SaleItemCreate>, id: int)
    ensures NetDelta(SaleMoves(items), id) == -SoldQuantity(items, id)
  {
    var n := |items|;
    if n > 0 {
      assert SaleMoves(items)[..n - 1] == SaleMoves(items[..n - 1]);
      SaleMovesNetDelta(items[..n - 1], id);
    }
  }

  /** With distinct products, the quantity sold of a product is that of the
      one line naming it, or nothing. */
  lemma {:induction false} SoldQuantityDistinct(items: seq<SaleItemCreate>, id: int)
    requires DistinctProducts(items)
    ensures (forall i :: 0 <= i < |items| ==> items[i].productId != id) ==> SoldQuantity(items, id) == 0.0
    ensures forall i :: 0 <= i < |items| && items[i].productId == id ==> SoldQuantity(items, id) == items[i].quantity
  {
    var n := |items|;
    if n > 0 {
      var init := items[..n - 1];
      assert DistinctProducts(init);
      SoldQuantityDistinct(init, id);
      if items[n - 1].productId == id {
        assert forall i :: 0 <= i < |init| ==> init[i].productId != id;
      }
    }
  }

  /** A sale fails exactly when some line names a missing product or asks for
      more than its stock; the error names the first such line's product, and
      the store is left as it was. */
  lemma CreateSaleFailure(db: Db, req: SaleCreate, userId: int, now: DateTime)
    ensures var (db', r) := CreateSale(db, req, userId, now);
      && (r.Raised? <==> exists i :: 0 <= i < |req.items| && !Available(db.products, req.items[i]))
      && !r.NoRecord?
      && (r.Raised? ==> db' == db && exists i :: (0 <= i < |req.items| && !Available(db.products, req.items[i])
            && (forall j :: 0 <= j < i ==> Available(db.products, req.items[j]))
            && r.error == InsufficientStock(ShortageLabel(db.products, req.items[i].productId))))
  {
  }

  /** A recorded sale has a fresh id, one line per requested line, each priced
      at its product's unit price whatever price the caller sent, and a total
      equal to the sum of its lines' amounts; status, payment method, client
      and user are those of the request. */
  lemma CreateSaleRecord(db: Db, req: SaleCreate, userId: int, now: DateTime)
    ensures var (db', r) := CreateSale(db, req, userId, now);
      r.Returned? ==>
        var Row(id, s) := r.value;
        && id !in db.sales
        && db'.sales == db.sales[id := s]
        && |s.items| == |req.items|
        && (forall i :: 0 <= i < |req.items| ==>
              && req.items[i].productId in db.products
              && s.items[i] == SaleItem(req.items[i].quantity, UnitPrice(db.products[req.items[i].productId]),
                                        id, req.items[i].productId))
        && s.totalAmount == Sum(s.items, LineAmount)
        && s.status == req.status && s.paymentMethod == req.paymentMethod
        && s.clientId == req.clientId && s.userId == userId && s.saleDate == now
  {
    if FirstShortage(db.products, req.items).None? {
      ChargedTotalReconciles(db.products, req.items, NextId(db.sales));
    }
  }

  /** A recorded sale takes off each product's stock the sum of the
      quantities of the lines naming it, touches no other field and no other
      product, and leaves suppliers, clients, orders and settings alone. */
  lemma CreateSaleStock(db: Db, req: SaleCreate, userId: int, now: DateTime)
    ensures var (db', r) := CreateSale(db, req, userId, now);
      r.Returned? ==>
        && db'.products.Keys == db.products.Keys
        && (forall id :: id in db.products ==>
              db'.products[id] == db.products[id].(stockQuantity := db.products[id].stockQuantity - SoldQuantity(req.items, id)))
        && db'.suppliers == db.suppliers && db'.clients == db.clients
        && db'.orders == db.orders && db'.settings == db.settings
  {
    if FirstShortage(db.products, req.items).None? {
      ApplyMovesEffect(db.products, SaleMoves(req.items));
      forall id | id in db.products ensures NetDelta(SaleMoves(req.items), id) == -SoldQuantity(req.items, id) {
        SaleMovesNetDelta(req.items, id);
      }
    }
  }

  /** When every line names a different product, no stock that was not
      negative becomes negative. */
  lemma CreateSaleKeepsStockNonNegative(db: Db, req: SaleCreate, userId: int, now: DateTime)
    requires DistinctProducts(req.items)
    requires forall id :: id in db.products ==> db.products[id].stockQuantity >= 0.0
    ensures var (db', r) := CreateSale(db, req, userId, now);
      forall id :: id in db'.products ==> db'.products[id].stockQuantity >= 0.0
  {
    var (db', r) := CreateSale(db, req, userId, now);
    CreateSaleStock(db, req, userId, now);
    if r.Returned? {
      forall id | id in db'.products ensures db'.products[id].stockQuantity >= 0.0 {
        SoldQuantityDistinct(req.items, id);
        if i :| 0 <= i < |req.items| && req.items[i].productId == id {
          assert Available(db.products, req.items[i]);
        }
      }
    }
  }

  /** The check compares each line with the stock before the sale, so two
      lines for the same product can together take more than there is: with
      5 in stock, two lines of 3 both pass and the stock ends at -1. */
  lemma DuplicateLinesOversell()
    ensures var p := Product("SKU-1", "Marteau", None, 5.0, 10.0, None, 5.0, None, None, None);
      var db := Db(map[1 := p], map[], map[], map[], map[], []);
      var line := SaleItemCreate(1, 3.0, 10.0);
      var req := SaleCreate("Espèce", Payee, None, [line, line]);
      var (db', r) := CreateSale(db, req, 1, DateTime(Date(2024, 1, 1), 0));
      r.Returned? && 1 in db'.products && db'.products[1].stockQuantity == -1.0
  {
    var p := Product("SKU-1", "Marteau", None, 5.0, 10.0, None, 5.0, None, None, None);
    var db := Db(map[1 := p], map[], map[], map[], map[], []);
    var line := SaleItemCreate(1, 3.0, 10.0);
    var req := SaleCreate("Espèce", Payee, None, [line, line]);
    var now := DateTime(Date(2024, 1, 1), 0);
    assert Available(db.products, line);
    assert FirstShortage(db.products, req.items) == None;
    CreateSaleStock(db, req, 1, now);
    assert SoldQuantity(req.items, 1) == 6.0 by {
      assert req.items[..1] == [line];
      assert [line][..0] == [];
      assert SoldQuantity([line], 1) == 3.0;
    }
  }

  /** Whatever unit prices the caller puts in the request, the outcome is the
      same: only products and quantities matter. */
  lemma CreateSaleIgnoresCallerPrices(db: Db, req: SaleCreate, req': SaleCreate, userId: int, now: DateTime)
    requires req'.paymentMethod == req.paymentMethod && req'.status == req.status && req'.clientId == req.clientId
    requires |req'.items| == |req.items|
    requires forall i :: 0 <= i < |req.items| ==>
      req'.items[i].productId == req.items[i].productId && req'.items[i].quantity == req.items[i].quantity
    ensures CreateSale(db, req', userId, now) == CreateSale(db, req, userId, now)
  {
    SameLinesSameShortage(db.products, req.items, req'.items);
    var id := NextId(db.sales);
    if FirstShortage(db.products, req.items).None? {
      SameLinesSameTotal(db.products, req.items, req'.items);
      assert PricedLines(db.products, req'.items, id) == PricedLines(db.products, req.items, id);
      assert SaleMoves(req'.items) == SaleMoves(req.items);
    }
  }

  lemma {:induction false} SameLinesSameShortage(products: map<int, Product>, items: seq<SaleItemCreate>, items': seq<SaleItemCreate>)
    requires |items'| == |items|
    requires forall i :: 0 <= i < |items| ==>
      items'[i].productId == items[i].productId && items'[i].quantity == items[i].quantity
    ensures FirstShortage(products, items') == FirstShortage(products, items)
  {
    if |items| > 0 {
      SameLinesSameShortage(products, items[1..], items'[1..]);
    }
  }

  lemma {:induction false} SameLinesSameTotal(products: map<int, Product>, items: seq<SaleItemCreate>, items': seq<SaleItemCreate>)
    requires |items'| == |items|
    requires forall i :: 0 <= i < |items| ==>
      items'[i].productId == items[i].productId && items'[i].quantity == items[i].quantity
    requires AllProductsExist(products, items)
    ensures AllProductsExist(products, items')
    ensures ChargedTotal(products, items') == ChargedTotal(products, items)
  {
    var n := |items|;
    if n > 0 {
      SameLinesSameTotal(products, items[..n - 1], items'[..n - 1]);
    }
  }

  // ---------------------------------------------------------------------
  // create_purchase_order

  /** Cost of a requested order line. */
  function OrderLineCost(item: PurchaseOrderItemCreate): real
  {
    item.purchasePricePerUnit * item.quantity
  }

  /** Cost of a stored order line. */
  function OrderItemCost(line: PurchaseOrderItem): real
  {
    line.purchasePricePerUnit * line.quantity
  }

  /** The stored line for a requested one: same quantity, price and product. */
  function OrderLine(item: PurchaseOrderItemCreate, orderId: int): PurchaseOrderItem
  {
    PurchaseOrderItem(item.quantity, item.purchasePricePerUnit, orderId, item.productId)
  }

  function OrderLines(items: seq<PurchaseOrderItemCreate>, orderId: int): (r: seq<PurchaseOrderItem>)
    ensures |r| == |items|
    ensures forall i :: 0 <= i < |items| ==> r[i] == OrderLine(items[i], orderId)
  {
    seq(|items|, i requires 0 <= i < |items| => OrderLine(items[i], orderId))
  }

  /** create_purchase_order: record a pending order whose total is the sum of
      its lines' costs, dated `now`, not yet received; stock is not touched. */
  function CreatePurchaseOrder(db: Db, req: PurchaseOrderCreate, now: DateTime): (Db, Row<PurchaseOrder>)
  {
    var id := NextId(db.orders);
    var order := PurchaseOrder(now, None, Sum(req.items, OrderLineCost), EnCours, req.supplierId, OrderLines(req.items, id));
    (db.(orders := db.orders[id := order]), Row(id, order))
  }

  lemma {:induction false} OrderCostReconciles(items: seq<PurchaseOrderItemCreate>, orderId: int)
    ensures Sum(items, OrderLineCost) == Sum(OrderLines(items, orderId), OrderItemCost)
  {
    var n := |items|;
    if n > 0 {
      assert OrderLines(items, orderId)[..n - 1] == OrderLines(items[..n - 1], orderId);
      OrderCostReconciles(items[..n - 1], orderId);
    }
  }

  /** A new order has a fresh id, is pending with no reception date, stores
      one line per requested line with the requested quantity, price and
      product, and its total cost is the sum of its lines' costs; no other
      table changes, in particular no stock. */
  lemma CreatePurchaseOrderEffect(db: Db, req: PurchaseOrderCreate, now: DateTime)
    ensures var (db', row) := CreatePurchaseOrder(db, req, now);
      var o := row.record;
      && row.id !in db.orders
      && db' == db.(orders := db.orders[row.id := o])
      && o.status == EnCours && o.receptionDate == None && o.orderDate == now
      && o.supplierId == req.supplierId
      && |o.items| == |req.items|
      && (forall i :: 0 <= i < |req.items| ==>
            o.items[i] == PurchaseOrderItem(req.items[i].quantity, req.items[i].purchasePricePerUnit, row.id, req.items[i].productId))
      && o.totalCost == Sum(o.items, OrderItemCost)
  {
    OrderCostReconciles(req.items, NextId(db.orders));
  }

  // ---------------------------------------------------------------------
  // receive_purchase_order

  /** The stock movement a received order line causes. */
  function ReceiveMove(line: PurchaseOrderItem): StockMove
  {
    StockMove(line.productId, line.quantity)
  }

  function ReceiveMoves(lines: seq<PurchaseOrderItem>): (r: seq<StockMove>)
    ensures |r| == |lines|
    ensures forall i :: 0 <= i < |lines| ==> r[i] == ReceiveMove(lines[i])
  {
    seq(|lines|, i requires 0 <= i < |lines| => ReceiveMove(lines[i]))
  }

  /** Sum of the quantities of the order lines naming product `id`. */
  function ReceivedQuantity(lines: seq<PurchaseOrderItem>, id: int): real
  {
    if |lines| == 0 then 0.0
    else
      var l := lines[|lines| - 1];
      ReceivedQuantity(lines[..|lines| - 1], id) + (if l.productId == id then l.quantity else 0.0)
  }

  /** receive_purchase_order: nothing for a missing or already received
      order; otherwise add every line's quantity to its product's stock
      (lines whose product no longer exists are skipped), mark the order
      received and date the reception `now`. */
  function ReceivePurchaseOrder(db: Db, id: int, now: DateTime): (Db, Reply<Row<PurchaseOrder>>)
  {
    if id !in db.orders || db.orders[id].status == Recue then (db, NoRecord)
    else
      var o := db.orders[id];
      var received := o.(status := Recue, receptionDate := Some(now));
      (db.(products := ApplyMoves(db.products, ReceiveMoves(o.items)), orders := db.orders[id := received]),
       Returned(Row(id, received)))
  }

  lemma {:induction false} ReceiveMovesNetDelta(lines: seq<PurchaseOrderItem>, id: int)
    ensures NetDelta(ReceiveMoves(lines), id) == ReceivedQuantity(lines, id)
  {
    var n := |lines|;
    if n > 0 {
      assert ReceiveMoves(lines)[..n - 1] == ReceiveMoves(lines[..n - 1]);
      ReceiveMovesNetDelta(lines[..n - 1], id);
    }
  }

  /** A missing or already received order gives `NoRecord` and changes
      nothing; a pending one gives the order marked received on `now`, with
      its lines, total and supplier unchanged, and each existing product's
      stock grows by the quantities its lines name; nothing else changes. */
  lemma ReceivePurchaseOrderEffect(db: Db, id: int, now: DateTime)
    ensures var (db', r) := ReceivePurchaseOrder(db, id, now);
      && (r.NoRecord? <==> id !in db.orders || db.orders[id].status == Recue)
      && !r.Raised?
      && (r.NoRecord? ==> db' == db)
      && (r.Returned? ==>
            var o := db.orders[id];
            && r.value == Row(id, o.(status := Recue, receptionDate := Some(now)))
            && db'.orders == db.orders[id := r.value.record]
            && db'.products.Keys == db.products.Keys
            && (forall k :: k in db.products ==>
                  db'.products[k] == db.products[k].(stockQuantity := db.products[k].stockQuantity + ReceivedQuantity(o.items, k)))
            && db'.sales == db.sales && db'.suppliers == db.suppliers
            && db'.clients == db.clients && db'.settings == db.settings)
  {
    if id in db.orders && db.orders[id].status != Recue {
      var o := db.orders[id];
      ApplyMovesEffect(db.products, ReceiveMoves(o.items));
      forall k | k in db.products ensures NetDelta(ReceiveMoves(o.items), k) == ReceivedQuantity(o.items, k) {
        ReceiveMovesNetDelta(o.items, k);
      }
    }
  }

  /** Receiving twice is receiving once: the second call finds the order
      received, returns `NoRecord` and changes nothing. */
  lemma ReceiveIdempotent(db: Db, id: int, now: DateTime, later: DateTime)
    ensures var (db1, r1) := ReceivePurchaseOrder(db, id, now);
      ReceivePurchaseOrder(db1, id, later) == (db1, NoRecord)
  {
  }

  // ---------------------------------------------------------------------
  // settle_credit_sale

  /** settle_credit_sale: nothing for a missing sale; otherwise mark it paid
      with the given payment method, whatever its status was. */
  function SettleCreditSale(db: Db, id: int, paymentMethod: string): (Db, Reply<Row<Sale>>)
  {
    if id !in db.sales then (db, NoRecord)
    else
      var settled := db.sales[id].(status := Payee, paymentMethod := paymentMethod);
      (db.(sales := db.sales[id := settled]), Returned(Row(id, settled)))
  }

  /** Settling changes only the sale's status, to paid, and its payment
      method; its date, total, client, user and lines stay, and so does
      every other table. */
  lemma SettleCreditSaleEffect(db: Db, id: int, paymentMethod: string)
    ensures var (db', r) := SettleCreditSale(db, id, paymentMethod);
      && (r.NoRecord? <==> id !in db.sales)
      && !r.Raised?
      && (r.NoRecord? ==> db' == db)
      && (r.Returned? ==>
            var s := db.sales[id];
            var s' := r.value.record;
            && r.value.id == id && db' == db.(sales := db.sales[id := s'])
            && s'.status == Payee && s'.paymentMethod == paymentMethod
            && s'.saleDate == s.saleDate && s'.totalAmount == s.totalAmount
            && s'.clientId == s.clientId && s'.userId == s.userId && s'.items == s.items)
  {
  }

  /** Settling twice is settling once with the second payment method. */
  lemma SettleTwice(db: Db, id: int, first: string, second: string)
    ensures SettleCreditSale(SettleCreditSale(db, id, first).0, id, second) == SettleCreditSale(db, id, second)
  {
    if id in db.sales {
      var s := db.sales[id];
      assert s.(status := Payee, paymentMethod := first).(status := Payee, paymentMethod := second)
        == s.(status := Payee, paymentMethod := second);
      assert db.sales[id := s.(status := Payee, paymentMethod := first)][id := s.(status := Payee, paymentMethod := second)]
        == db.sales[id := s.(status := Payee, paymentMethod := second)];
    }
  }

  // ---------------------------------------------------------------------
  // update_product, update_supplier, update_client

  /** update_product on a non-null column: only a given, non-null value is
      written. */
  function Overwrite<T>(current: T, patch: Patch<T>): (r: T)
    ensures GivesValue(patch) ==> r == patch.value.value
    ensures !GivesValue(patch) ==> r == current
  {
    if GivesValue(patch) then patch.value.value else current
  }

  /** update_product on a nullable column: same rule, so a null is never
      written. */
  function OverwriteNullable<T>(current: Option<T>, patch: Patch<T>): (r: Option<T>)
    ensures GivesValue(patch) ==> r == patch.value
    ensures !GivesValue(patch) ==> r == current
    ensures current.Some? ==> r.Some?
  {
    if GivesValue(patch) then patch.value else current
  }

  /** update_supplier and update_client: every given value is written,
      explicit nulls included. */
  function Assign<T>(current: Option<T>, patch: Patch<T>): (r: Option<T>)
    ensures patch.Given? ==> r == patch.value
    ensures patch.Unset? ==> r == current
  {
    if patch.Given? then patch.value else current
  }

  /** The product rule skips an explicit null, lets a given value win
      whatever the column held, and applying it again changes nothing. */
  lemma OverwriteLaws<T>(current: T, other: T, patch: Patch<T>)
    ensures Overwrite(current, Given(None)) == current
    ensures GivesValue(patch) ==> Overwrite(current, patch) == Overwrite(other, patch)
    ensures Overwrite(Overwrite(current, patch), patch) == Overwrite(current, patch)
  {
  }

  /** The supplier and client rule clears a column on an explicit null, lets
      any given value win whatever the column held, and applying it again
      changes nothing. */
  lemma AssignLaws<T>(current: Option<T>, other: Option<T>, patch: Patch<T>)
    ensures Assign(current, Given(None)) == None
    ensures patch.Given? ==> Assign(current, patch) == Assign(other, patch)
    ensures Assign(Assign(current, patch), patch) == Assign(current, patch)
  {
  }

  function PatchProduct(p: Product, u: ProductUpdate): Product
  {
    p.(name := Overwrite(p.name, u.name),
       category := OverwriteNullable(p.category, u.category),
       purchasePrice := Overwrite(p.purchasePrice, u.purchasePrice),
       sellingPrice := Overwrite(p.sellingPrice, u.sellingPrice),
       promoPrice := OverwriteNullable(p.promoPrice, u.promoPrice),
       stockQuantity := Overwrite(p.stockQuantity, u.stockQuantity),
       unit := OverwriteNullable(p.unit, u.unit),
       imageUrl := OverwriteNullable(p.imageUrl, u.imageUrl),
       supplierId := OverwriteNullable(p.supplierId, u.supplierId))
  }

  /** update_product: nothing for a missing product; otherwise write the
      given, non-null fields. */
  function UpdateProduct(db: Db, id: int, u: ProductUpdate): (Db, Reply<Row<Product>>)
  {
    if id !in db.products then (db, NoRecord)
    else
      var p := PatchProduct(db.products[id], u);
      (db.(products := db.products[id := p]), Returned(Row(id, p)))
  }

  /** A product update touches only the product it names and only the
      fields given a non-null value, which take that value; a missing id
      gives `NoRecord` and changes nothing. */
  lemma UpdateProductEffect(db: Db, id: int, u: ProductUpdate)
    ensures var (db', r) := UpdateProduct(db, id, u);
      && (r.NoRecord? <==> id !in db.products)
      && !r.Raised?
      && (r.NoRecord? ==> db' == db)
      && (r.Returned? ==>
            var p := db.products[id];
            var p' := r.value.record;
            && r.value.id == id && db' == db.(products := db.products[id := p'])
            && p'.sku == p.sku
            && (if GivesValue(u.name) then p'.name == u.name.value.value else p'.name == p.name)
            && (if GivesValue(u.category) then p'.category == u.category.value else p'.category == p.category)
            && (if GivesValue(u.purchasePrice) then p'.purchasePrice == u.purchasePrice.value.value else p'.purchasePrice == p.purchasePrice)
            && (if GivesValue(u.sellingPrice) then p'.sellingPrice == u.sellingPrice.value.value else p'.sellingPrice == p.sellingPrice)
            && (if GivesValue(u.promoPrice) then p'.promoPrice == u.promoPrice.value else p'.promoPrice == p.promoPrice)
            && (if GivesValue(u.stockQuantity) then p'.stockQuantity == u.stockQuantity.value.value else p'.stockQuantity == p.stockQuantity)
            && (if GivesValue(u.unit) then p'.unit == u.unit.value else p'.unit == p.unit)
            && (if GivesValue(u.imageUrl) then p'.imageUrl == u.imageUrl.value else p'.imageUrl == p.imageUrl)
            && (if GivesValue(u.supplierId) then p'.supplierId == u.supplierId.value else p'.supplierId == p.supplierId))
  {
  }

  /** Because nulls are skipped, an update can never clear a product's promo
      price (nor its category, unit, image or supplier). */
  lemma UpdateProductCannotClearPromo(db: Db, id: int, u: ProductUpdate)
    requires id in db.products && db.products[id].promoPrice.Some?
    ensures UpdateProduct(db, id, u).0.products[id].promoPrice.Some?
  {
  }

  /** An update whose given prices and stock respect the creation bounds
      keeps a valid product valid. */
  lemma UpdateProductKeepsValid(db: Db, id: int, u: ProductUpdate)
    requires id in db.products && ValidProduct(db.products[id])
    requires ValidProductUpdate(u)
    ensures ValidProduct(UpdateProduct(db, id, u).0.products[id])
  {
  }

  /** Applying the same product update twice is applying it once. */
  lemma UpdateProductIdempotent(db: Db, id: int, u: ProductUpdate)
    ensures var db1 := UpdateProduct(db, id, u).0;
      UpdateProduct(db1, id, u) == (db1, UpdateProduct(db, id, u).1)
  {
    if id in db.products {
      var p := db.products[id];
      assert PatchProduct(PatchProduct(p, u), u) == PatchProduct(p, u);
      assert db.products[id := PatchProduct(p, u)][id := PatchProduct(p, u)] == db.products[id := PatchProduct(p, u)];
    }
  }

  /** The supplier's name column is NOT NULL: a null given for it is refused
      when the change is committed. */
  function PatchSupplier(s: Supplier, u: SupplierUpdate): Supplier
    requires u.name != Given(None)
  {
    Supplier(if u.name.Given? then u.name.value.value else s.name,
             Assign(s.contactPerson, u.contactPerson),
             Assign(s.phone, u.phone),
             Assign(s.email, u.email),
             Assign(s.address, u.address))
  }

  /** update_supplier: nothing for a missing supplier; a null name is
      refused and nothing is written; otherwise write every given field. */
  function UpdateSupplier(db: Db, id: int, u: SupplierUpdate): (Db, Reply<Row<Supplier>>)
  {
    if id !in db.suppliers then (db, NoRecord)
    else if u.name == Given(None) then (db, Raised(NotNullViolation("name")))
    else
      var s := PatchSupplier(db.suppliers[id], u);
      (db.(suppliers := db.suppliers[id := s]), Returned(Row(id, s)))
  }

  /** A supplier update writes every given field, explicit nulls included,
      and only those; a missing id gives `NoRecord`, a null name is refused,
      and both leave the store unchanged. */
  lemma UpdateSupplierEffect(db: Db, id: int, u: SupplierUpdate)
    ensures var (db', r) := UpdateSupplier(db, id, u);
      && (r.NoRecord? <==> id !in db.suppliers)
      && (r.Raised? <==> id in db.suppliers && u.name == Given(None))
      && (r.Raised? ==> r.error == NotNullViolation("name"))
      && (!r.Returned? ==> db' == db)
      && (r.Returned? ==>
            var s := db.suppliers[id];
            var s' := r.value.record;
            && r.value.id == id && db' == db.(suppliers := db.suppliers[id := s'])
            && (if u.name.Given? then Some(s'.name) == u.name.value else s'.name == s.name)
            && (if u.contactPerson.Given? then s'.contactPerson == u.contactPerson.value else s'.contactPerson == s.contactPerson)
            && (if u.phone.Given? then s'.phone == u.phone.value else s'.phone == s.phone)
            && (if u.email.Given? then s'.email == u.email.value else s'.email == s.email)
            && (if u.address.Given? then s'.address == u.address.value else s'.address == s.address))
  {
  }

  /** Unlike a product update, a supplier update can clear a nullable field. */
  lemma UpdateSupplierClears(db: Db, id: int, u: SupplierUpdate)
    requires id in db.suppliers && u.name != Given(None) && u.phone == Given(None)
    ensures var (db', r) := UpdateSupplier(db, id, u);
      r.Returned? && db'.suppliers[id].phone == None
  {
  }

  /** The client's name and type columns are NOT NULL. */
  function PatchClient(c: Client, u: ClientUpdate): Client
    requires u.name != Given(None) && u.clientType != Given(None)
  {
    Client(if u.name.Given? then u.name.value.value else c.name,
           if u.clientType.Given? then u.clientType.value.value else c.clientType,
           Assign(c.phone, u.phone),
           Assign(c.email, u.email),
           Assign(c.address, u.address),
           Assign(c.nif, u.nif),
           Assign(c.stat, u.stat))
  }

  /** update_client: nothing for a missing client; a null name, then a null
      type, is refused and nothing is written; otherwise write every given
      field. */
  function UpdateClient(db: Db, id: int, u: ClientUpdate): (Db, Reply<Row<Client>>)
  {
    if id !in db.clients then (db, NoRecord)
    else if u.name == Given(None) then (db, Raised(NotNullViolation("name")))
    else if u.clientType == Given(None) then (db, Raised(NotNullViolation("type")))
    else
      var c := PatchClient(db.clients[id], u);
      (db.(clients := db.clients[id := c]), Returned(Row(id, c)))
  }

  /** A client update writes every given field, explicit nulls included, and
      only those; a missing id or a null in a NOT NULL column leaves the
      store unchanged. */
  lemma UpdateClientEffect(db: Db, id: int, u: ClientUpdate)
    ensures var (db', r) := UpdateClient(db, id, u);
      && (r.NoRecord? <==> id !in db.clients)
      && (r.Raised? <==> id in db.clients && (u.name == Given(None) || u.clientType == Given(None)))
      && (r.Raised? ==> r.error == NotNullViolation(if u.name == Given(None) then "name" else "type"))
      && (!r.Returned? ==> db' == db)
      && (r.Returned? ==>
            var c := db.clients[id];
            var c' := r.value.record;
            && r.value.id == id && db' == db.(clients := db.clients[id := c'])
            && (if u.name.Given? then Some(c'.name) == u.name.value else c'.name == c.name)
            && (if u.clientType.Given? then Some(c'.clientType) == u.clientType.value else c'.clientType == c.clientType)
            && (if u.phone.Given? then c'.phone == u.phone.value else c'.phone == c.phone)
            && (if u.email.Given? then c'.email == u.email.value else c'.email == c.email)
            && (if u.address.Given? then c'.address == u.address.value else c'.address == c.address)
            && (if u.nif.Given? then c'.nif == u.nif.value else c'.nif == c.nif)
            && (if u.stat.Given? then c'.stat == u.stat.value else c'.stat == c.stat))
  {
  }

  // ---------------------------------------------------------------------
  // delete_supplier, delete_client

  /** Some product names the supplier. */
  predicate SupplierInUse(db: Db, id: int)
  {
    exists k :: k in db.products && db.products[k].supplierId == Some(id)
  }

  /** Some sale names the client. */
  predicate ClientInUse(db: Db, id: int)
  {
    exists k :: k in db.sales && db.sales[k].clientId == Some(id)
  }

  /** Some purchase order names the supplier. */
  predicate SupplierHasOrders(db: Db, id: int)
  {
    exists k :: k in db.orders && db.orders[k].supplierId == id
  }

  /** delete_supplier: nothing for a missing supplier; refused while a
      product names it; otherwise the supplier is removed.  Deleting a
      supplier detaches its purchase orders, whose supplier column is NOT
      NULL, so while an order names it the commit fails and nothing is
      deleted. */
  function DeleteSupplier(db: Db, id: int): (Db, Reply<Row<Supplier>>)
  {
    if id !in db.suppliers then (db, NoRecord)
    else if SupplierInUse(db, id) then (db, Raised(SupplierHasProducts))
    else if SupplierHasOrders(db, id) then (db, Raised(NotNullViolation("supplier_id")))
    else (db.(suppliers := db.suppliers - {id}), Returned(Row(id, db.suppliers[id])))
  }

  /** delete_client: nothing for a missing client; refused while a sale
      names it; otherwise the client is removed. */
  function DeleteClient(db: Db, id: int): (Db, Reply<Row<Client>>)
  {
    if id !in db.clients then (db, NoRecord)
    else if ClientInUse(db, id) then (db, Raised(ClientHasSales))
    else (db.(clients := db.clients - {id}), Returned(Row(id, db.clients[id])))
  }

  /** Product references to suppliers and sale references to clients. */
  ghost predicate ProductsReferenceSuppliers(db: Db)
  {
    forall k :: k in db.products && db.products[k].supplierId.Some? ==> db.products[k].supplierId.value in db.suppliers
  }

  ghost predicate SalesReferenceClients(db: Db)
  {
    forall k :: k in db.sales && db.sales[k].clientId.Some? ==> db.sales[k].clientId.value in db.clients
  }

  /** Deleting a supplier succeeds exactly when it exists and neither a
      product nor a purchase order names it; it then removes only that
      supplier and returns it, and a refused or missing delete changes
      nothing.  Products are looked at first. */
  lemma DeleteSupplierEffect(db: Db, id: int)
    ensures var (db', r) := DeleteSupplier(db, id);
      && (r.NoRecord? <==> id !in db.suppliers)
      && (r.Raised? <==> (id in db.suppliers
                          && ((exists k :: k in db.products && db.products[k].supplierId == Some(id))
                              || (exists k :: k in db.orders && db.orders[k].supplierId == id))))
      && (r.Raised? ==> r.error == if SupplierInUse(db, id) then SupplierHasProducts else NotNullViolation("supplier_id"))
      && (!r.Returned? ==> db' == db)
      && (r.Returned? ==> r.value == Row(id, db.suppliers[id]) && db' == db.(suppliers := db.suppliers - {id}))
  {
  }

  /** The guard keeps every product's supplier reference resolvable. */
  lemma DeleteSupplierKeepsReferences(db: Db, id: int)
    requires ProductsReferenceSuppliers(db)
    ensures ProductsReferenceSuppliers(DeleteSupplier(db, id).0)
  {
  }

  /** A supplier named by no product but by a purchase order is not deleted:
      the commit refuses the order's null supplier and the store is left as
      it was. */
  lemma DeleteSupplierWithOrdersFails()
    ensures var o := PurchaseOrder(DateTime(Date(2024, 1, 1), 0), None, 0.0, EnCours, 7, []);
      var db := Db(map[], map[7 := Supplier("Quincaillerie", None, None, None, None)], map[], map[], map[1 := o], []);
      var (db', r) := DeleteSupplier(db, 7);
      r == Raised(NotNullViolation("supplier_id")) && db' == db
  {
    var o := PurchaseOrder(DateTime(Date(2024, 1, 1), 0), None, 0.0, EnCours, 7, []);
    var db := Db(map[], map[7 := Supplier("Quincaillerie", None, None, None, None)], map[], map[], map[1 := o], []);
    assert db.orders[1].supplierId == 7;
  }

  /** After a delete, every purchase order still names an existing supplier. */
  lemma DeleteSupplierKeepsOrderReferences(db: Db, id: int)
    requires forall k :: k in db.orders ==> db.orders[k].supplierId in db.suppliers
    ensures var db' := DeleteSupplier(db, id).0;
      forall k :: k in db'.orders ==> db'.orders[k].supplierId in db'.suppliers
  {
  }

  lemma DeleteClientEffect(db: Db, id: int)
    ensures var (db', r) := DeleteClient(db, id);
      && (r.NoRecord? <==> id !in db.clients)
      && (r.Raised? <==> id in db.clients && exists k :: k in db.sales && db.sales[k].clientId == Some(id))
      && (r.Raised? ==> r.error == ClientHasSales)
      && (!r.Returned? ==> db' == db)
      && (r.Returned? ==> r.value == Row(id, db.clients[id]) && db' == db.(clients := db.clients - {id}))
  {
  }

  lemma DeleteClientKeepsReferences(db: Db, id: int)
    requires SalesReferenceClients(db)
    ensures SalesReferenceClients(DeleteClient(db, id).0)
  {
  }

  // ---------------------------------------------------------------------
  // get_settings, update_settings

  /** The settings table as a dictionary from key to value. */
  function AsDict(rows: seq<Setting>): map<string, Option<string>>
  {
    if |rows| == 0 then map[]
    else AsDict(rows[..|rows| - 1])[rows[|rows| - 1].key := rows[|rows| - 1].value]
  }

  /** get_settings. */
  function GetSettings(db: Db): map<string, Option<string>>
  {
    AsDict(db.settings)
  }

  /** The key is the table's primary key. */
  predicate UniqueKeys(rows: seq<Setting>)
  {
    forall i, j :: 0 <= i < j < |rows| ==> rows[i].key != rows[j].key
  }

  /** Position of the row with the given key, if any. */
  function IndexOfKey(rows: seq<Setting>, key: string): (r: Option<nat>)
    ensures r.Some? ==> r.value < |rows| && rows[r.value].key == key
    ensures r.None? ==> forall i :: 0 <= i < |rows| ==> rows[i].key != key
  {
    if |rows| == 0 then None
    else if rows[|rows| - 1].key == key then Some(|rows| - 1)
    else IndexOfKey(rows[..|rows| - 1], key)
  }

  /** One step of update_settings: overwrite the value of the row with this
      key, or add a row. */
  function Upsert(rows: seq<Setting>, key: string, value: string): seq<Setting>
  {
    match IndexOfKey(rows, key)
    case Some(i) => rows[i := Setting(key, Some(value))]
    case None => rows + [Setting(key, Some(value))]
  }

  /** update_settings' loop over the given entries, in their order. */
  function UpsertAll(rows: seq<Setting>, data: seq<(string, string)>): seq<Setting>
  {
    if |data| == 0 then rows
    else
      var (k, v) := data[|data| - 1];
      Upsert(UpsertAll(rows, data[..|data| - 1]), k, v)
  }

  /** The entries as a dictionary, a later entry for a key replacing an
      earlier one; every value is stored, so none is null. */
  function EntriesDict(data: seq<(string, string)>): map<string, Option<string>>
  {
    if |data| == 0 then map[]
    else EntriesDict(data[..|data| - 1])[data[|data| - 1].0 := Some(data[|data| - 1].1)]
  }

  /** update_settings: write every entry, then read the whole table back. */
  function UpdateSettings(db: Db, data: seq<(string, string)>): (Db, map<string, Option<string>>)
  {
    var rows := UpsertAll(db.settings, data);
    (db.(settings := rows), AsDict(rows))
  }

  /** With unique keys, the dictionary of an updated row is the old
      dictionary with that key's value replaced. */
  lemma {:induction false} AsDictUpdate(rows: seq<Setting>, i: nat, s: Setting)
    requires i < |rows| && UniqueKeys(rows) && s.key == rows[i].key
    ensures AsDict(rows[i := s]) == AsDict(rows)[s.key := s.value]
  {
    var n := |rows|;
    if i == n - 1 {
      assert rows[i := s][..n - 1] == rows[..n - 1];
    } else {
      assert rows[i := s][..n - 1] == rows[..n - 1][i := s];
      assert UniqueKeys(rows[..n - 1]);
      AsDictUpdate(rows[..n - 1], i, s);
      assert rows[n - 1].key != s.key;
    }
  }

  /** Upserting keeps keys unique and sets exactly that key's value. */
  lemma UpsertEffect(rows: seq<Setting>, key: string, value: string)
    requires UniqueKeys(rows)
    ensures UniqueKeys(Upsert(rows, key, value))
    ensures AsDict(Upsert(rows, key, value)) == AsDict(rows)[key := Some(value)]
  {
    match IndexOfKey(rows, key)
    case Some(i) =>
      AsDictUpdate(rows, i, Setting(key, Some(value)));
    case None =>
      var rows' := rows + [Setting(key, Some(value))];
      assert rows'[..|rows'| - 1] == rows;
  }

  /** Overriding and then updating a key is overriding with the update. */
  lemma OverrideUpdate<K, V>(a: map<K, V>, b: map<K, V>, k: K, v: V)
    ensures (a + b)[k := v] == a + b[k := v]
  {
  }

  lemma {:induction false} UpsertAllEffect(rows: seq<Setting>, data: seq<(string, string)>)
    requires UniqueKeys(rows)
    ensures UniqueKeys(UpsertAll(rows, data))
    ensures AsDict(UpsertAll(rows, data)) == AsDict(rows) + EntriesDict(data)
  {
    var n := |data|;
    if n > 0 {
      var before := UpsertAll(rows, data[..n - 1]);
      var (k, v) := data[n - 1];
      UpsertAllEffect(rows, data[..n - 1]);
      UpsertEffect(before, k, v);
      OverrideUpdate(AsDict(rows), EntriesDict(data[..n - 1]), k, Some(v));
    }
  }

  /** update_settings keeps keys unique; afterwards every given key has the
      last value given for it, every other key keeps its value, and the
      returned dictionary is the table read back. */
  lemma UpdateSettingsEffect(db: Db, data: seq<(string, string)>)
    requires UniqueKeys(db.settings)
    ensures UniqueKeys(UpdateSettings(db, data).0.settings)
    ensures GetSettings(UpdateSettings(db, data).0) == GetSettings(db) + EntriesDict(data)
    ensures UpdateSettings(db, data).1 == GetSettings(UpdateSettings(db, data).0)
    ensures UpdateSettings(db, data).0 == db.(settings := UpsertAll(db.settings, data))
  {
    UpsertAllEffect(db.settings, data);
  }

  // ---------------------------------------------------------------------
  // Invariants every operation keeps

  /** What the store's schema guarantees and the operations rely on: lines
      name their parent record and setting keys are unique. */
  ghost predicate Consistent(db: Db)
  {
    LinesReferenceParents(db) && UniqueKeys(db.settings)
  }

  lemma CreateSaleConsistent(db: Db, req: SaleCreate, userId: int, now: DateTime)
    requires Consistent(db)
    ensures Consistent(CreateSale(db, req, userId, now).0)
  {
  }

  lemma CreatePurchaseOrderConsistent(db: Db, req: PurchaseOrderCreate, now: DateTime)
    requires Consistent(db)
    ensures Consistent(CreatePurchaseOrder(db, req, now).0)
  {
  }

  lemma ReceivePurchaseOrderConsistent(db: Db, id: int, now: DateTime)
    requires Consistent(db)
    ensures Consistent(ReceivePurchaseOrder(db, id, now).0)
  {
  }

  lemma SettleCreditSaleConsistent(db: Db, id: int, paymentMethod: string)
    requires Consistent(db)
    ensures Consistent(SettleCreditSale(db, id, paymentMethod).0)
  {
  }

  lemma UpdateProductConsistent(db: Db, id: int, u: ProductUpdate)
    requires Consistent(db)
    ensures Consistent(UpdateProduct(db, id, u).0)
  {
  }

  lemma UpdateSupplierConsistent(db: Db, id: int, u: SupplierUpdate)
    requires Consistent(db)
    ensures Consistent(UpdateSupplier(db, id, u).0)
  {
  }

  lemma UpdateClientConsistent(db: Db, id: int, u: ClientUpdate)
    requires Consistent(db)
    ensures Consistent(UpdateClient(db, id, u).0)
  {
  }

  lemma DeletesConsistent(db: Db, id: int)
    requires Consistent(db)
    ensures Consistent(DeleteSupplier(db, id).0)
    ensures Consistent(DeleteClient(db, id).0)
  {
  }

  lemma UpdateSettingsConsistent(db: Db, data: seq<(string, string)>)
    requires Consistent(db)
    ensures Consistent(UpdateSettings(db, data).0)
  {
    UpdateSettingsEffect(db, data);
  }
}
