/** The store as the crud functions see it: one object whose tables the
    operations update in place.  Each method does what its crud function
    does, loop for loop, and is proved to leave the store in the state, and
    to return the value, that the matching `Ledger` function gives. */
module Crud {
  import opened Models
  import opened Schemas
  import opened Tables
  import opened Ledger

  /** If every line before `i` passes the stock check and line `i` fails it,
      line `i` is the one the sale's error names. */
  lemma FirstShortageAt(products: map<int, Product>, items: seq<SaleItemCreate>, i: nat)
    requires i < |items|
    requires forall j :: 0 <= j < i ==> Available(products, items[j])
    requires !Available(products, items[i])
    ensures FirstShortage(products, items) == Some(ShortageLabel(products, items[i].productId))
  {
    var r := FirstShortage(products, items);
    var k :| 0 <= k < |items| && !Available(products, items[k])
      && (forall j :: 0 <= j < k ==> Available(products, items[j]))
      && r.value == ShortageLabel(products, items[k].productId);
    assert k == i;
  }

  /** The first loop of create_sale: stop at the first line whose product
      is missing or short, naming it; otherwise accumulate the total and
      record each line's unit price. */
  method CheckAndPrice(products: map<int, Product>, items: seq<SaleItemCreate>)
    returns (shortage: Option<string>, total: real, prices: seq<real>)
    ensures shortage == FirstShortage(products, items)
    ensures shortage.None? ==>
      && AllProductsExist(products, items)
      && total == ChargedTotal(products, items)
      && |prices| == |items|
      && forall j :: 0 <= j < |items| ==> prices[j] == UnitPrice(products[items[j].productId])
  {
    total := 0.0;
    prices := [];
    var i := 0;
    while i < |items|
      invariant 0 <= i <= |items|
      invariant forall j :: 0 <= j < i ==> Available(products, items[j])
      invariant |prices| == i
      invariant forall j :: 0 <= j < i ==> prices[j] == UnitPrice(products[items[j].productId])
      invariant total == ChargedTotal(products, items[..i])
    {
      var item := items[i];
      if item.productId !in products || products[item.productId].stockQuantity < item.quantity {
        FirstShortageAt(products, items, i);
        var name := if item.productId in products then products[item.productId].name else "ID inconnu";
        return Some(name), total, prices;
      }
      var p := products[item.productId];
      var price := if p.promoPrice.Some? && p.promoPrice.value > 0.0 then p.promoPrice.value else p.sellingPrice;
      assert items[..i + 1][..i] == items[..i];
      total := total + price * item.quantity;
      prices := prices + [price];
      i := i + 1;
    }
    assert items[..i] == items;
    shortage := None;
  }

  /** The second loop of create_sale: one stored line per requested line at
      the price the first loop found, and the line's quantity taken off its
      product's stock. */
  method WriteSaleLines(products: map<int, Product>, items: seq<SaleItemCreate>, prices: seq<real>, saleId: int)
    returns (lines: seq<SaleItem>, stock: map<int, Product>)
    requires AllProductsExist(products, items)
    requires |prices| == |items|
    requires forall j :: 0 <= j < |items| ==> prices[j] == UnitPrice(products[items[j].productId])
    ensures lines == PricedLines(products, items, saleId)
    ensures stock == ApplyMoves(products, SaleMoves(items))
  {
    stock := products;
    lines := [];
    var i := 0;
    while i < |items|
      invariant 0 <= i <= |items|
      invariant |lines| == i
      invariant forall j :: 0 <= j < i ==> lines[j] == PricedLine(products, items[j], saleId)
      invariant stock == ApplyMoves(products, SaleMoves(items)[..i])
    {
      var item := items[i];
      lines := lines + [SaleItem(item.quantity, prices[i], saleId, item.productId)];
      ApplyMovesEffect(products, SaleMoves(items)[..i]);
      assert SaleMoves(items)[..i + 1][..i] == SaleMoves(items)[..i];
      var p := stock[item.productId];
      stock := stock[item.productId := p.(stockQuantity := p.stockQuantity - item.quantity)];
      i := i + 1;
    }
    assert SaleMoves(items)[..i] == SaleMoves(items);
  }

  /** update_product's loop over the fields the request sets: a null value
      is skipped, any other value is written. */
  method WriteProductFields(p0: Product, u: ProductUpdate) returns (p: Product)
    ensures p == PatchProduct(p0, u)
  {
    p := p0;
    if GivesValue(u.name) { p := p.(name := u.name.value.value); }
    if GivesValue(u.category) { p := p.(category := u.category.value); }
    if GivesValue(u.purchasePrice) { p := p.(purchasePrice := u.purchasePrice.value.value); }
    assert p == p0.(name := Overwrite(p0.name, u.name), category := OverwriteNullable(p0.category, u.category),
                    purchasePrice := Overwrite(p0.purchasePrice, u.purchasePrice));
    if GivesValue(u.sellingPrice) { p := p.(sellingPrice := u.sellingPrice.value.value); }
    if GivesValue(u.promoPrice) { p := p.(promoPrice := u.promoPrice.value); }
    if GivesValue(u.stockQuantity) { p := p.(stockQuantity := u.stockQuantity.value.value); }
    assert p == p0.(name := Overwrite(p0.name, u.name), category := OverwriteNullable(p0.category, u.category),
                    purchasePrice := Overwrite(p0.purchasePrice, u.purchasePrice),
                    sellingPrice := Overwrite(p0.sellingPrice, u.sellingPrice),
                    promoPrice := OverwriteNullable(p0.promoPrice, u.promoPrice),
                    stockQuantity := Overwrite(p0.stockQuantity, u.stockQuantity));
    if GivesValue(u.unit) { p := p.(unit := u.unit.value); }
    if GivesValue(u.imageUrl) { p := p.(imageUrl := u.imageUrl.value); }
    if GivesValue(u.supplierId) { p := p.(supplierId := u.supplierId.value); }
  }

  class Store {
    var products: map<int, Product>
    var suppliers: map<int, Supplier>
    var clients: map<int, Client>
    var sales: map<int, Sale>
    var orders: map<int, PurchaseOrder>
    var settings: seq<Setting>

    /** The tables as a value. */
    function State(): Db
      reads this
    {
      Db(products, suppliers, clients, sales, orders, settings)
    }

    ghost predicate Valid()
      reads this
    {
      Consistent(State())
    }

    /** An empty store. */
    constructor ()
      ensures State() == Db(map[], map[], map[], map[], map[], [])
      ensures Valid()
    {
      products, suppliers, clients := map[], map[], map[];
      sales, orders, settings := map[], map[], [];
    }

    /** create_sale: a first pass checks every line and prices it, a second
        pass writes the lines and takes the quantities off the stock. */
    method CreateSale(req: SaleCreate, userId: int, now: DateTime) returns (r: Reply<Row<Sale>>)
      requires Valid()
      modifies this
      ensures Valid()
      ensures (State(), r) == Ledger.CreateSale(old(State()), req, userId, now)
    {
      ghost var db0 := State();
      var shortage, total, prices := CheckAndPrice(products, req.items);
      if shortage.Some? {
        return Raised(InsufficientStock(shortage.value));
      }
      var id := NextId(sales);
      var lines, stock := WriteSaleLines(products, req.items, prices, id);
      var sale := Sale(now, total, req.paymentMethod, req.status, req.clientId, userId, lines);
      sales := sales[id := sale];
      products := stock;
      r := Returned(Row(id, sale));
      CreateSaleConsistent(db0, req, userId, now);
    }

    /** create_purchase_order: the total is the sum of the line costs; the
        loop writes one stored line per requested line. */
    method CreatePurchaseOrder(req: PurchaseOrderCreate, now: DateTime) returns (r: Row<PurchaseOrder>)
      requires Valid()
      modifies this
      ensures Valid()
      ensures (State(), r) == Ledger.CreatePurchaseOrder(old(State()), req, now)
    {
      ghost var db0 := State();
      var totalCost := Sum(req.items, OrderLineCost);
      var id := NextId(orders);
      var lines: seq<PurchaseOrderItem> := [];
      var i := 0;
      while i < |req.items|
        invariant 0 <= i <= |req.items|
        invariant |lines| == i
        invariant forall j :: 0 <= j < i ==> lines[j] == OrderLine(req.items[j], id)
      {
        var item := req.items[i];
        lines := lines + [PurchaseOrderItem(item.quantity, item.purchasePricePerUnit, id, item.productId)];
        i := i + 1;
      }
      assert lines == OrderLines(req.items, id);
      var order := PurchaseOrder(now, None, totalCost, EnCours, req.supplierId, lines);
      orders := orders[id := order];
      r := Row(id, order);
      CreatePurchaseOrderConsistent(db0, req, now);
    }

    /** receive_purchase_order: the loop adds each line's quantity to its
        product, if the product still exists. */
    method ReceivePurchaseOrder(id: int, now: DateTime) returns (r: Reply<Row<PurchaseOrder>>)
      requires Valid()
      modifies this
      ensures Valid()
      ensures (State(), r) == Ledger.ReceivePurchaseOrder(old(State()), id, now)
    {
      if id !in orders || orders[id].status == Recue {
        return NoRecord;
      }
      ghost var db0 := State();
      var o := orders[id];
      var stock := products;
      var i := 0;
      while i < |o.items|
        invariant 0 <= i <= |o.items|
        invariant stock == ApplyMoves(products, ReceiveMoves(o.items)[..i])
      {
        var line := o.items[i];
        assert ReceiveMoves(o.items)[..i + 1][..i] == ReceiveMoves(o.items)[..i];
        if line.productId in stock {
          var p := stock[line.productId];
          stock := stock[line.productId := p.(stockQuantity := p.stockQuantity + line.quantity)];
        }
        i := i + 1;
      }
      assert ReceiveMoves(o.items)[..i] == ReceiveMoves(o.items);
      var received := o.(status := Recue, receptionDate := Some(now));
      products := stock;
      orders := orders[id := received];
      r := Returned(Row(id, received));
      ReceivePurchaseOrderConsistent(db0, id, now);
    }

    /** settle_credit_sale. */
    method SettleCreditSale(id: int, paymentMethod: string) returns (r: Reply<Row<Sale>>)
      requires Valid()
      modifies this
      ensures Valid()
      ensures (State(), r) == Ledger.SettleCreditSale(old(State()), id, paymentMethod)
    {
      if id !in sales {
        return NoRecord;
      }
      ghost var db0 := State();
      var s := sales[id];
      s := s.(status := Payee);
      s := s.(paymentMethod := paymentMethod);
      sales := sales[id := s];
      r := Returned(Row(id, s));
      SettleCreditSaleConsistent(db0, id, paymentMethod);
    }

    /** update_product: each field the request sets to a non-null value is
        written; the others are skipped. */
    method UpdateProduct(id: int, u: ProductUpdate) returns (r: Reply<Row<Product>>)
      requires Valid()
      modifies this
      ensures Valid()
      ensures (State(), r) == Ledger.UpdateProduct(old(State()), id, u)
    {
      if id !in products {
        return NoRecord;
      }
      ghost var db0 := State();
      var p := WriteProductFields(products[id], u);
      products := products[id := p];
      r := Returned(Row(id, p));
      UpdateProductConsistent(db0, id, u);
    }

    /** update_supplier: each field the request sets is written, nulls
        included; a null name is refused at commit and nothing is kept. */
    method UpdateSupplier(id: int, u: SupplierUpdate) returns (r: Reply<Row<Supplier>>)
      requires Valid()
      modifies this
      ensures Valid()
      ensures (State(), r) == Ledger.UpdateSupplier(old(State()), id, u)
    {
      if id !in suppliers {
        return NoRecord;
      }
      if u.name == Given(None) {
        return Raised(NotNullViolation("name"));
      }
      ghost var db0 := State();
      var s := suppliers[id];
      if u.name.Given? { s := s.(name := u.name.value.value); }
      if u.contactPerson.Given? { s := s.(contactPerson := u.contactPerson.value); }
      if u.phone.Given? { s := s.(phone := u.phone.value); }
      if u.email.Given? { s := s.(email := u.email.value); }
      if u.address.Given? { s := s.(address := u.address.value); }
      suppliers := suppliers[id := s];
      r := Returned(Row(id, s));
      UpdateSupplierConsistent(db0, id, u);
    }

    /** update_client: as update_supplier, with name and type NOT NULL. */
    method UpdateClient(id: int, u: ClientUpdate) returns (r: Reply<Row<Client>>)
      requires Valid()
      modifies this
      ensures Valid()
      ensures (State(), r) == Ledger.UpdateClient(old(State()), id, u)
    {
      if id !in clients {
        return NoRecord;
      }
      if u.name == Given(None) {
        return Raised(NotNullViolation("name"));
      }
      if u.clientType == Given(None) {
        return Raised(NotNullViolation("type"));
      }
      ghost var db0 := State();
      var c := clients[id];
      if u.name.Given? { c := c.(name := u.name.value.value); }
      if u.clientType.Given? { c := c.(clientType := u.clientType.value.value); }
      if u.phone.Given? { c := c.(phone := u.phone.value); }
      if u.email.Given? { c := c.(email := u.email.value); }
      if u.address.Given? { c := c.(address := u.address.value); }
      if u.nif.Given? { c := c.(nif := u.nif.value); }
      if u.stat.Given? { c := c.(stat := u.stat.value); }
      clients := clients[id := c];
      r := Returned(Row(id, c));
      UpdateClientConsistent(db0, id, u);
    }

    /** delete_supplier. */
    method DeleteSupplier(id: int) returns (r: Reply<Row<Supplier>>)
      requires Valid()
      modifies this
      ensures Valid()
      ensures (State(), r) == Ledger.DeleteSupplier(old(State()), id)
    {
      if id !in suppliers {
        return NoRecord;
      }
      if SupplierInUse(State(), id) {
        return Raised(SupplierHasProducts);
      }
      if SupplierHasOrders(State(), id) {
        return Raised(NotNullViolation("supplier_id"));
      }
      ghost var db0 := State();
      var s := suppliers[id];
      suppliers := suppliers - {id};
      r := Returned(Row(id, s));
      DeletesConsistent(db0, id);
    }

    /** delete_client. */
    method DeleteClient(id: int) returns (r: Reply<Row<Client>>)
      requires Valid()
      modifies this
      ensures Valid()
      ensures (State(), r) == Ledger.DeleteClient(old(State()), id)
    {
      if id !in clients {
        return NoRecord;
      }
      if ClientInUse(State(), id) {
        return Raised(ClientHasSales);
      }
      ghost var db0 := State();
      var c := clients[id];
      clients := clients - {id};
      r := Returned(Row(id, c));
      DeletesConsistent(db0, id);
    }

    /** update_settings: the loop overwrites the row with each key or adds
        one, then the whole table is read back. */
    method UpdateSettings(data: seq<(string, string)>) returns (d: map<string, Option<string>>)
      requires Valid()
      modifies this
      ensures Valid()
      ensures (State(), d) == Ledger.UpdateSettings(old(State()), data)
    {
      ghost var db0 := State();
      var rows := settings;
      var i := 0;
      while i < |data|
        invariant 0 <= i <= |data|
        invariant rows == UpsertAll(settings, data[..i])
      {
        var (key, value) := data[i];
        assert data[..i + 1][..i] == data[..i];
        match IndexOfKey(rows, key) {
          case Some(j) =>
            rows := rows[j := Setting(key, Some(value))];
          case None =>
            rows := rows + [Setting(key, Some(value))];
        }
        i := i + 1;
      }
      assert data[..i] == data;
      settings := rows;
      d := AsDict(settings);
      UpdateSettingsConsistent(db0, data);
    }
  }
}
