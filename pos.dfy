/** The two lists the web front end keeps between requests
    (streamlit_app.py): the point-of-sale cart of page_ventes and the
    purchase-order draft of page_commandes, without their widgets.  Each
    click is one step on a `Session`; checking out and submitting hand the
    built request to the store. */
module Pos {
  import opened Models
  import opened Schemas
  import opened Tables
  import opened Ledger
  import opened Crud

  // ---------------------------------------------------------------------
  // The cart

  /** A cart entry: the unit price and the stock are snapshots taken when
      the product was first added. */
  datatype CartLine = CartLine(productId: int, name: string, quantity: int, pricePerUnit: real, maxStock: real)

  /** The entry a first click on a product creates. */
  function NewCartLine(id: int, p: Product): CartLine
  {
    CartLine(id, p.name, 1, UnitPrice(p), p.stockQuantity)
  }

  /** The first entry for product `id`, if there is one. */
  function FirstLineOf(cart: seq<CartLine>, id: int): (r: Option<nat>)
    ensures r.Some? ==> r.value < |cart| && cart[r.value].productId == id
    ensures r.Some? ==> forall j :: 0 <= j < r.value ==> cart[j].productId != id
    ensures r.None? ==> forall j :: 0 <= j < |cart| ==> cart[j].productId != id
  {
    if |cart| == 0 then None
    else if cart[0].productId == id then Some(0)
    else
      match FirstLineOf(cart[1..], id)
      case None => None
      case Some(k) => Some(k + 1)
  }

  /** Clicking "Ajouter" on a product: an entry already in the cart grows by
      one while it is below its stock snapshot and is left as it is at the
      cap; otherwise a new entry of quantity 1 is appended. */
  function AddToCart(cart: seq<CartLine>, id: int, p: Product): seq<CartLine>
  {
    match FirstLineOf(cart, id)
    case Some(i) =>
      if (cart[i].quantity as real) < cart[i].maxStock then cart[i := cart[i].(quantity := cart[i].quantity + 1)]
      else cart
    case None => cart + [NewCartLine(id, p)]
  }

  /** The quantity widget: an integer between 1 and the whole part of the
      stock snapshot. */
  function SetCartQuantity(cart: seq<CartLine>, i: nat, q: int): (r: seq<CartLine>)
    requires i < |cart|
    requires 1 <= q && q as real <= cart[i].maxStock
    ensures |r| == |cart| && r[i].quantity == q
    ensures r[i] == cart[i].(quantity := q)
    ensures forall j :: 0 <= j < |cart| && j != i ==> r[j] == cart[j]
  {
    cart[i := cart[i].(quantity := q)]
  }

  /** The delete button of entry `i` (`pop(i)`). */
  function RemoveFromCart(cart: seq<CartLine>, i: nat): (r: seq<CartLine>)
    requires i < |cart|
    ensures |r| == |cart| - 1
    ensures forall j :: 0 <= j < i ==> r[j] == cart[j]
    ensures forall j :: i <= j < |r| ==> r[j] == cart[j + 1]
  {
    cart[..i] + cart[i + 1..]
  }

  function CartSubtotal(line: CartLine): real
  {
    line.pricePerUnit * line.quantity as real
  }

  /** "Total à payer": the sum of the entries' subtotals. */
  function CartTotal(cart: seq<CartLine>): real
  {
    Sum(cart, CartSubtotal)
  }

  /** Every entry holds at least one unit and was last increased while
      below its stock snapshot; no product has two entries. */
  predicate CartWellFormed(cart: seq<CartLine>)
  {
    && (forall i :: 0 <= i < |cart| ==> 1 <= cart[i].quantity && ((cart[i].quantity - 1) as real) < cart[i].maxStock)
    && (forall i, j :: 0 <= i < j < |cart| ==> cart[i].productId != cart[j].productId)
  }

  /** What a click does to the cart: at most the clicked product's entry
      changes, by at most one unit, and everything else stays in place. */
  lemma AddToCartEffect(cart: seq<CartLine>, id: int, p: Product)
    ensures var r := AddToCart(cart, id, p);
      match FirstLineOf(cart, id)
      case Some(i) =>
        && |r| == |cart|
        && (forall j :: 0 <= j < |cart| && j != i ==> r[j] == cart[j])
        && r[i].productId == id
        && r[i] == cart[i].(quantity := if (cart[i].quantity as real) < cart[i].maxStock then cart[i].quantity + 1 else cart[i].quantity)
      case None =>
        && |r| == |cart| + 1 && r[..|cart|] == cart
        && r[|cart|] == CartLine(id, p.name, 1, UnitPrice(p), p.stockQuantity)
  {
    var r := AddToCart(cart, id, p);
    if FirstLineOf(cart, id).None? {
      assert r[..|cart|] == cart;
    }
  }

  /** The total grows by the product's price with every click that is not
      capped. */
  lemma AddToCartTotal(cart: seq<CartLine>, id: int, p: Product)
    ensures var r := AddToCart(cart, id, p);
      match FirstLineOf(cart, id)
      case Some(i) =>
        CartTotal(r) == CartTotal(cart) + (if (cart[i].quantity as real) < cart[i].maxStock then cart[i].pricePerUnit else 0.0)
      case None => CartTotal(r) == CartTotal(cart) + UnitPrice(p)
  {
    var found := FirstLineOf(cart, id);
    if found.Some? {
      var i := found.value;
      if (cart[i].quantity as real) < cart[i].maxStock {
        var line := cart[i].(quantity := cart[i].quantity + 1);
        assert AddToCart(cart, id, p) == cart[i := line];
        SumUpdate(cart, i, line, CartSubtotal);
        assert CartSubtotal(line) == CartSubtotal(cart[i]) + cart[i].pricePerUnit;
      }
    } else {
      var line := NewCartLine(id, p);
      assert AddToCart(cart, id, p) == cart + [line];
      SumAppend(cart, [line], CartSubtotal);
      SumSingleton(line, CartSubtotal);
    }
  }

  /** Only products in stock are offered, so every click keeps the cart
      well formed. */
  lemma AddToCartKeepsWellFormed(cart: seq<CartLine>, id: int, p: Product)
    requires CartWellFormed(cart)
    requires p.stockQuantity > 0.0
    ensures CartWellFormed(AddToCart(cart, id, p))
  {
    AddToCartEffect(cart, id, p);
  }

  lemma SetCartQuantityKeepsWellFormed(cart: seq<CartLine>, i: nat, q: int)
    requires CartWellFormed(cart)
    requires i < |cart|
    requires 1 <= q && q as real <= cart[i].maxStock
    ensures CartWellFormed(SetCartQuantity(cart, i, q))
  {
  }

  lemma RemoveFromCartKeepsWellFormed(cart: seq<CartLine>, i: nat)
    requires CartWellFormed(cart)
    requires i < |cart|
    ensures CartWellFormed(RemoveFromCart(cart, i))
  {
    var r := RemoveFromCart(cart, i);
    forall a, b | 0 <= a < b < |r| ensures r[a].productId != r[b].productId {
      var a' := if a < i then a else a + 1;
      var b' := if b < i then b else b + 1;
      assert r[a] == cart[a'] && r[b] == cart[b'];
    }
  }

  /** With a whole-number stock snapshot the cap is the stock itself. */
  lemma WholeStockCaps(cart: seq<CartLine>, i: nat, n: int)
    requires CartWellFormed(cart)
    requires i < |cart| && cart[i].maxStock == n as real
    ensures cart[i].quantity <= n
  {
    assert ((cart[i].quantity - 1) as real) < n as real;
  }

  /** With a fractional stock snapshot the cap lets the cart ask for more
      than the stock: three clicks on a product with 2.5 units in stock
      give an entry of 3 units.  The sale that follows is refused by the
      ledger's stock check. */
  lemma FractionalStockOverfills()
    ensures var p := Product("SKU1", "Fil", None, 1.0, 2.0, None, 2.5, None, None, None);
      var cart := AddToCart(AddToCart(AddToCart([], 7, p), 7, p), 7, p);
      |cart| == 1 && cart[0].quantity == 3 && cart[0].quantity as real > p.stockQuantity
  {
    var p := Product("SKU1", "Fil", None, 1.0, 2.0, None, 2.5, None, None, None);
    var c1 := AddToCart([], 7, p);
    assert c1 == [CartLine(7, "Fil", 1, 2.0, 2.5)];
    var c2 := AddToCart(c1, 7, p);
    assert FirstLineOf(c1, 7) == Some(0);
    assert c2 == [CartLine(7, "Fil", 2, 2.0, 2.5)];
    assert FirstLineOf(c2, 7) == Some(0);
  }

  /** The sale line a cart entry becomes: only the product, the quantity
      and the price are kept. */
  function SaleItemOf(line: CartLine): SaleItemCreate
  {
    SaleItemCreate(line.productId, line.quantity as real, line.pricePerUnit)
  }

  function SaleItemsOf(cart: seq<CartLine>): (r: seq<SaleItemCreate>)
    ensures |r| == |cart|
    ensures forall i :: 0 <= i < |cart| ==> r[i] == SaleItemOf(cart[i])
  {
    seq(|cart|, i requires 0 <= i < |cart| => SaleItemOf(cart[i]))
  }

  /** The total shown is the total charged as long as no price changed since
      the products were put in the cart (the ledger charges current prices). */
  lemma {:induction false} CartTotalIsCharged(products: map<int, Product>, cart: seq<CartLine>)
    requires forall i :: 0 <= i < |cart| ==> cart[i].productId in products
    requires forall i :: 0 <= i < |cart| ==> UnitPrice(products[cart[i].productId]) == cart[i].pricePerUnit
    ensures AllProductsExist(products, SaleItemsOf(cart))
    ensures ChargedTotal(products, SaleItemsOf(cart)) == CartTotal(cart)
  {
    var n := |cart|;
    if n > 0 {
      CartTotalIsCharged(products, cart[..n - 1]);
      assert SaleItemsOf(cart)[..n - 1] == SaleItemsOf(cart[..n - 1]);
    }
  }

  /** The payment method that makes a credit sale. */
  const CreditMethod := "Crédit"

  datatype CheckoutError = EmptyCart | CreditWithoutClient

  datatype CheckoutResult = Refused(error: CheckoutError) | Send(request: SaleCreate)

  /** No client selected; an id of 0 counts as none, as it is falsy. */
  predicate NoClient(clientId: Option<int>)
  {
    clientId.None? || clientId == Some(0)
  }

  /** "Valider la Vente": an empty cart is refused first, then a credit sale
      without a client; otherwise the request carries the cart's lines, the
      client and the method, as a credit sale exactly when the method is
      the credit one. */
  function Checkout(cart: seq<CartLine>, clientId: Option<int>, paymentMethod: string): (r: CheckoutResult)
    ensures r == Refused(EmptyCart) <==> cart == []
    ensures r == Refused(CreditWithoutClient) <==> cart != [] && paymentMethod == CreditMethod && NoClient(clientId)
    ensures r.Send? <==> cart != [] && !(paymentMethod == CreditMethod && NoClient(clientId))
    ensures r.Send? ==>
      && (r.request.status == Credit <==> paymentMethod == CreditMethod)
      && r.request.clientId == clientId && r.request.paymentMethod == paymentMethod
      && r.request.items == SaleItemsOf(cart)
  {
    if cart == [] then Refused(EmptyCart)
    else if paymentMethod == CreditMethod && NoClient(clientId) then Refused(CreditWithoutClient)
    else Send(SaleCreate(paymentMethod, if paymentMethod == CreditMethod then Credit else Payee, clientId, SaleItemsOf(cart)))
  }

  /** A request built from a well-formed cart passes the request bounds and
      names every product once. */
  lemma CheckoutRequestValid(cart: seq<CartLine>, clientId: Option<int>, paymentMethod: string)
    requires CartWellFormed(cart)
    ensures var c := Checkout(cart, clientId, paymentMethod);
      c.Send? ==> ValidSaleCreate(c.request) && DistinctProducts(c.request.items)
  {
    var items := SaleItemsOf(cart);
    assert forall i, j :: 0 <= i < j < |items| ==> items[i].productId == cart[i].productId && items[j].productId == cart[j].productId;
  }

  /** Hence a sale checked out from the cart never drives a stock below
      zero, which the ledger alone does not guarantee. */
  lemma CheckoutKeepsStockNonNegative(db: Db, cart: seq<CartLine>, clientId: Option<int>, paymentMethod: string,
                                      userId: int, now: DateTime)
    requires CartWellFormed(cart)
    requires forall id :: id in db.products ==> db.products[id].stockQuantity >= 0.0
    ensures var c := Checkout(cart, clientId, paymentMethod);
      c.Send? ==>
        var (db', _) := CreateSale(db, c.request, userId, now);
        forall id :: id in db'.products ==> db'.products[id].stockQuantity >= 0.0
  {
    var c := Checkout(cart, clientId, paymentMethod);
    if c.Send? {
      CheckoutRequestValid(cart, clientId, paymentMethod);
      CreateSaleKeepsStockNonNegative(db, c.request, userId, now);
    }
  }

  /** The loop that accumulates the total while the cart is drawn. */
  method SumCart(cart: seq<CartLine>) returns (total: real)
    ensures total == CartTotal(cart)
  {
    total := 0.0;
    var i := 0;
    while i < |cart|
      invariant 0 <= i <= |cart|
      invariant total == Sum(cart[..i], CartSubtotal)
    {
      PrefixStep(cart, i);
      total := total + cart[i].pricePerUnit * cart[i].quantity as real;
      i := i + 1;
    }
    assert cart[..i] == cart;
  }

  /** The `next(...)` search for the clicked product's entry. */
  method FindCartLine(cart: seq<CartLine>, id: int) returns (r: Option<nat>)
    ensures r == FirstLineOf(cart, id)
  {
    var i := 0;
    while i < |cart| && cart[i].productId != id
      invariant 0 <= i <= |cart|
      invariant forall j :: 0 <= j < i ==> cart[j].productId != id
    {
      i := i + 1;
    }
    r := if i < |cart| then Some(i) else None;
    var f := FirstLineOf(cart, id);
    assert f.Some? ==> f.value == i;
  }

  // ---------------------------------------------------------------------
  // The purchase-order draft

  /** A draft entry, priced at the product's purchase price when added. */
  datatype DraftLine = DraftLine(productId: int, name: string, quantity: int, purchasePricePerUnit: real)

  predicate InDraft(draft: seq<DraftLine>, id: int)
  {
    exists i :: 0 <= i < |draft| && draft[i].productId == id
  }

  /** "Ajouter à la commande": refused when the product already has an
      entry, otherwise one entry of quantity 1 is appended. */
  function AddToDraft(draft: seq<DraftLine>, id: int, p: Product): (r: seq<DraftLine>)
    ensures r == draft <==> InDraft(draft, id)
    ensures !InDraft(draft, id) ==> r == draft + [DraftLine(id, p.name, 1, p.purchasePrice)]
  {
    if InDraft(draft, id) then draft else draft + [DraftLine(id, p.name, 1, p.purchasePrice)]
  }

  /** The quantity widget, bounded below by 1. */
  function SetDraftQuantity(draft: seq<DraftLine>, i: nat, q: int): (r: seq<DraftLine>)
    requires i < |draft| && 1 <= q
    ensures |r| == |draft| && r[i] == draft[i].(quantity := q)
    ensures forall j :: 0 <= j < |draft| && j != i ==> r[j] == draft[j]
  {
    draft[i := draft[i].(quantity := q)]
  }

  /** The delete button of entry `i`: every other entry is kept, in order. */
  function RemoveFromDraft(draft: seq<DraftLine>, i: nat): (r: seq<DraftLine>)
    requires i < |draft|
    ensures |r| == |draft| - 1
    ensures forall j :: 0 <= j < i ==> r[j] == draft[j]
    ensures forall j :: i <= j < |r| ==> r[j] == draft[j + 1]
  {
    draft[..i] + draft[i + 1..]
  }

  function DraftSubtotal(line: DraftLine): real
  {
    line.purchasePricePerUnit * line.quantity as real
  }

  /** "Total": the sum of the entries' subtotals. */
  function DraftTotal(draft: seq<DraftLine>): real
  {
    Sum(draft, DraftSubtotal)
  }

  /** Every entry holds at least one unit; no product has two entries. */
  predicate DraftWellFormed(draft: seq<DraftLine>)
  {
    && (forall i :: 0 <= i < |draft| ==> 1 <= draft[i].quantity)
    && (forall i, j :: 0 <= i < j < |draft| ==> draft[i].productId != draft[j].productId)
  }

  function OrderItemOf(line: DraftLine): PurchaseOrderItemCreate
  {
    PurchaseOrderItemCreate(line.productId, line.quantity as real, line.purchasePricePerUnit)
  }

  /** The lines sent on submit: the entries with a positive quantity, in
      order. */
  function SubmittedItems(draft: seq<DraftLine>): seq<PurchaseOrderItemCreate>
  {
    if |draft| == 0 then []
    else
      var last := draft[|draft| - 1];
      SubmittedItems(draft[..|draft| - 1]) + SubmittedTail(last)
  }

  /** The request "Enregistrer la commande" sends. */
  function DraftOrder(draft: seq<DraftLine>, supplierId: int): PurchaseOrderCreate
  {
    PurchaseOrderCreate(supplierId, SubmittedItems(draft))
  }

  /** Exactly the entries with a positive quantity are sent: every one of
      them is, and nothing else is. */
  lemma {:induction false} SubmittedItemsSpec(draft: seq<DraftLine>)
    ensures |SubmittedItems(draft)| <= |draft|
    ensures forall j :: 0 <= j < |draft| && draft[j].quantity > 0 ==> OrderItemOf(draft[j]) in SubmittedItems(draft)
    ensures forall it :: it in SubmittedItems(draft) ==> it.quantity > 0.0
    ensures forall it :: it in SubmittedItems(draft) ==> exists j :: 0 <= j < |draft| && it == OrderItemOf(draft[j])
  {
    var n := |draft|;
    if n > 0 {
      var init := draft[..n - 1];
      SubmittedItemsSpec(init);
      var r := SubmittedItems(draft);
      forall j | 0 <= j < n && draft[j].quantity > 0 ensures OrderItemOf(draft[j]) in r {
        if j < n - 1 {
          assert draft[j] == init[j];
        }
      }
      forall it | it in r ensures exists j :: 0 <= j < n && it == OrderItemOf(draft[j]) {
        if it in SubmittedItems(init) {
          var j :| 0 <= j < |init| && it == OrderItemOf(init[j]);
          assert init[j] == draft[j];
        } else {
          assert it == OrderItemOf(draft[n - 1]);
        }
      }
    }
  }

  /** How many entries have a positive quantity. */
  function PositiveCount(draft: seq<DraftLine>): nat
  {
    if |draft| == 0 then 0
    else PositiveCount(draft[..|draft| - 1]) + (if draft[|draft| - 1].quantity > 0 then 1 else 0)
  }

  /** Order and multiplicity of what is sent: one line per entry with a
      positive quantity, and the entry at position j, when positive, is sent
      at the position given by the number of positive entries before it. */
  lemma {:induction false} SubmittedItemsOrder(draft: seq<DraftLine>)
    ensures |SubmittedItems(draft)| == PositiveCount(draft)
    ensures forall j :: 0 <= j < |draft| && draft[j].quantity > 0 ==>
      PositiveCount(draft[..j]) < |SubmittedItems(draft)| && SubmittedItems(draft)[PositiveCount(draft[..j])] == OrderItemOf(draft[j])
  {
    var n := |draft|;
    if n > 0 {
      var init := draft[..n - 1];
      SubmittedItemsOrder(init);
      var r := SubmittedItems(draft);
      assert r == SubmittedItems(init) + SubmittedTail(draft[n - 1]);
      forall j | 0 <= j < n && draft[j].quantity > 0
        ensures PositiveCount(draft[..j]) < |r| && r[PositiveCount(draft[..j])] == OrderItemOf(draft[j])
      {
        if j < n - 1 {
          assert draft[..j] == init[..j] && draft[j] == init[j];
        } else {
          assert draft[..j] == init;
        }
      }
    }
  }

  /** A submitted order always passes the request bounds. */
  lemma DraftOrderValid(draft: seq<DraftLine>, supplierId: int)
    ensures ValidPurchaseOrderCreate(DraftOrder(draft, supplierId))
  {
    SubmittedItemsSpec(draft);
    var items := SubmittedItems(draft);
    assert forall i :: 0 <= i < |items| ==> items[i] in items;
  }

  /** From a well-formed draft every entry is sent, in order: the filter
      removes nothing. */
  lemma {:induction false} SubmittedItemsKeepsAll(draft: seq<DraftLine>)
    requires forall i :: 0 <= i < |draft| ==> 1 <= draft[i].quantity
    ensures |SubmittedItems(draft)| == |draft|
    ensures forall i :: 0 <= i < |draft| ==> SubmittedItems(draft)[i] == OrderItemOf(draft[i])
  {
    var n := |draft|;
    if n > 0 {
      SubmittedItemsKeepsAll(draft[..n - 1]);
    }
  }

  /** What the last entry contributes, to the order and to the total. */
  function SubmittedTail(line: DraftLine): seq<PurchaseOrderItemCreate>
  {
    if line.quantity > 0 then [OrderItemOf(line)] else []
  }

  lemma SubmittedTailCost(line: DraftLine)
    requires 0 <= line.quantity
    ensures Sum(SubmittedTail(line), OrderLineCost) == DraftSubtotal(line)
  {
    if line.quantity > 0 {
      SumSingleton(OrderItemOf(line), OrderLineCost);
    } else {
      assert line.quantity as real == 0.0;
      assert DraftSubtotal(line) == line.purchasePricePerUnit * 0.0;
    }
  }

  /** The draft's total is the total cost of the order it submits (entries
      of quantity 0 add nothing to either). */
  lemma {:induction false} DraftTotalIsOrderCost(draft: seq<DraftLine>)
    requires forall i :: 0 <= i < |draft| ==> 0 <= draft[i].quantity
    ensures Sum(SubmittedItems(draft), OrderLineCost) == DraftTotal(draft)
  {
    var n := |draft|;
    if n > 0 {
      var init := draft[..n - 1];
      var last := draft[n - 1];
      DraftTotalIsOrderCost(init);
      assert SubmittedItems(draft) == SubmittedItems(init) + SubmittedTail(last);
      SumAppend(SubmittedItems(init), SubmittedTail(last), OrderLineCost);
      SubmittedTailCost(last);
    }
  }

  lemma AddToDraftKeepsWellFormed(draft: seq<DraftLine>, id: int, p: Product)
    requires DraftWellFormed(draft)
    ensures DraftWellFormed(AddToDraft(draft, id, p))
  {
  }

  lemma SetDraftQuantityKeepsWellFormed(draft: seq<DraftLine>, i: nat, q: int)
    requires DraftWellFormed(draft)
    requires i < |draft| && 1 <= q
    ensures DraftWellFormed(SetDraftQuantity(draft, i, q))
  {
  }

  lemma RemoveFromDraftKeepsWellFormed(draft: seq<DraftLine>, i: nat)
    requires DraftWellFormed(draft)
    requires i < |draft|
    ensures DraftWellFormed(RemoveFromDraft(draft, i))
  {
    var r := RemoveFromDraft(draft, i);
    forall a, b | 0 <= a < b < |r| ensures r[a].productId != r[b].productId {
      var a' := if a < i then a else a + 1;
      var b' := if b < i then b else b + 1;
      assert r[a] == draft[a'] && r[b] == draft[b'];
    }
  }

  /** The `any(...)` test for the clicked product. */
  method DraftHas(draft: seq<DraftLine>, id: int) returns (found: bool)
    ensures found == InDraft(draft, id)
  {
    var i := 0;
    while i < |draft|
      invariant 0 <= i <= |draft|
      invariant forall j :: 0 <= j < i ==> draft[j].productId != id
    {
      if draft[i].productId == id {
        return true;
      }
      i := i + 1;
    }
    return false;
  }

  /** The loop that accumulates the draft's total while it is drawn. */
  method SumDraft(draft: seq<DraftLine>) returns (total: real)
    ensures total == DraftTotal(draft)
  {
    total := 0.0;
    var i := 0;
    while i < |draft|
      invariant 0 <= i <= |draft|
      invariant total == Sum(draft[..i], DraftSubtotal)
    {
      PrefixStep(draft, i);
      total := total + draft[i].purchasePricePerUnit * draft[i].quantity as real;
      i := i + 1;
    }
    assert draft[..i] == draft;
  }

  /** The rebuilt list of entries to keep after a delete click. */
  method KeepAllBut(draft: seq<DraftLine>, i: nat) returns (kept: seq<DraftLine>)
    requires i < |draft|
    ensures kept == RemoveFromDraft(draft, i)
  {
    kept := [];
    var j := 0;
    while j < |draft|
      invariant 0 <= j <= |draft|
      invariant kept == (if j <= i then draft[..j] else draft[..i] + draft[i + 1..j])
    {
      if j != i {
        kept := kept + [draft[j]];
      }
      j := j + 1;
    }
  }

  // ---------------------------------------------------------------------
  // The session

  datatype Finalized = NotSent(error: CheckoutError) | Sent(reply: Reply<Row<Sale>>)

  /** The per-user state: the cart, the draft and the id of the last sale
      recorded (shown for its invoice). */
  class Session {
    var cart: seq<CartLine>
    var draft: seq<DraftLine>
    var lastSaleId: Option<int>

    ghost predicate Valid()
      reads this
    {
      CartWellFormed(cart) && DraftWellFormed(draft)
    }

    constructor ()
      ensures cart == [] && draft == [] && lastSaleId == None
      ensures Valid()
    {
      cart, draft, lastSaleId := [], [], None;
    }

    /** A click on an offered product: only products in stock are offered.
        The last sale's notice is dismissed. */
    method AddProduct(id: int, p: Product)
      requires Valid()
      requires p.stockQuantity > 0.0
      modifies this
      ensures Valid()
      ensures cart == AddToCart(old(cart), id, p)
      ensures draft == old(draft) && lastSaleId == None
    {
      AddToCartKeepsWellFormed(cart, id, p);
      lastSaleId := None;
      var found := FindCartLine(cart, id);
      if found.Some? {
        var i := found.value;
        if (cart[i].quantity as real) < cart[i].maxStock {
          cart := cart[i := cart[i].(quantity := cart[i].quantity + 1)];
        }
      } else {
        cart := cart + [CartLine(id, p.name, 1, UnitPrice(p), p.stockQuantity)];
      }
    }

    method SetLineQuantity(i: nat, q: int)
      requires Valid()
      requires i < |cart|
      requires 1 <= q && q as real <= cart[i].maxStock
      modifies this
      ensures Valid()
      ensures cart == SetCartQuantity(old(cart), i, q)
      ensures draft == old(draft) && lastSaleId == old(lastSaleId)
    {
      SetCartQuantityKeepsWellFormed(cart, i, q);
      cart := cart[i := cart[i].(quantity := q)];
    }

    method RemoveLine(i: nat)
      requires Valid()
      requires i < |cart|
      modifies this
      ensures Valid()
      ensures cart == RemoveFromCart(old(cart), i)
      ensures draft == old(draft) && lastSaleId == old(lastSaleId)
    {
      RemoveFromCartKeepsWellFormed(cart, i);
      cart := cart[..i] + cart[i + 1..];
    }

    /** "Valider la Vente": a refused checkout changes nothing; otherwise the
        sale is handed to the store, and the cart is emptied and the sale
        remembered only when the store records it. */
    method Finalize(store: Store, clientId: Option<int>, paymentMethod: string, userId: int, now: DateTime)
      returns (outcome: Finalized)
      requires Valid() && store.Valid()
      modifies this, store
      ensures Valid() && store.Valid()
      ensures draft == old(draft)
      ensures Checkout(old(cart), clientId, paymentMethod).Refused? ==>
        && outcome == NotSent(Checkout(old(cart), clientId, paymentMethod).error)
        && store.State() == old(store.State()) && cart == old(cart) && lastSaleId == old(lastSaleId)
      ensures Checkout(old(cart), clientId, paymentMethod).Send? ==>
        && outcome.Sent?
        && (store.State(), outcome.reply) == Ledger.CreateSale(old(store.State()), Checkout(old(cart), clientId, paymentMethod).request, userId, now)
        && (outcome.reply.Returned? ==> cart == [] && lastSaleId == Some(outcome.reply.value.id))
        && (!outcome.reply.Returned? ==> cart == old(cart) && lastSaleId == old(lastSaleId))
    {
      if cart == [] {
        return NotSent(EmptyCart);
      }
      if paymentMethod == CreditMethod && NoClient(clientId) {
        return NotSent(CreditWithoutClient);
      }
      var status := if paymentMethod == CreditMethod then Credit else Payee;
      var request := SaleCreate(paymentMethod, status, clientId, SaleItemsOf(cart));
      var reply := store.CreateSale(request, userId, now);
      if reply.Returned? {
        cart := [];
        lastSaleId := Some(reply.value.id);
      }
      outcome := Sent(reply);
    }

    method AddToOrder(id: int, p: Product)
      requires Valid()
      modifies this
      ensures Valid()
      ensures draft == AddToDraft(old(draft), id, p)
      ensures cart == old(cart) && lastSaleId == old(lastSaleId)
    {
      AddToDraftKeepsWellFormed(draft, id, p);
      var present := DraftHas(draft, id);
      if !present {
        draft := draft + [DraftLine(id, p.name, 1, p.purchasePrice)];
      }
    }

    method SetOrderQuantity(i: nat, q: int)
      requires Valid()
      requires i < |draft| && 1 <= q
      modifies this
      ensures Valid()
      ensures draft == SetDraftQuantity(old(draft), i, q)
      ensures cart == old(cart) && lastSaleId == old(lastSaleId)
    {
      SetDraftQuantityKeepsWellFormed(draft, i, q);
      draft := draft[i := draft[i].(quantity := q)];
    }

    method RemoveOrderLine(i: nat)
      requires Valid()
      requires i < |draft|
      modifies this
      ensures Valid()
      ensures draft == RemoveFromDraft(old(draft), i)
      ensures cart == old(cart) && lastSaleId == old(lastSaleId)
    {
      RemoveFromDraftKeepsWellFormed(draft, i);
      draft := KeepAllBut(draft, i);
    }

    /** "Enregistrer la commande" (offered only while the draft has entries):
        the order of the entries with a positive quantity goes to the store
        and the draft is emptied. */
    method SubmitDraft(store: Store, supplierId: int, now: DateTime) returns (r: Row<PurchaseOrder>)
      requires Valid() && store.Valid()
      requires draft != []
      modifies this, store
      ensures Valid() && store.Valid()
      ensures (store.State(), r) == Ledger.CreatePurchaseOrder(old(store.State()), DraftOrder(old(draft), supplierId), now)
      ensures draft == [] && cart == old(cart) && lastSaleId == old(lastSaleId)
    {
      r := store.CreatePurchaseOrder(DraftOrder(draft, supplierId), now);
      draft := [];
    }
  }
}
