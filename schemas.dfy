/** The request shapes the ledger accepts (schemas.py) and the field bounds
    their validation enforces before a request reaches the ledger. */
module Schemas {
  import opened Models

  /** One field of a partial update: left out of the request (`Unset`), or
      given, possibly as an explicit null (`Given(None)`). */
  datatype Patch<T> = Unset | Given(value: Option<T>)

  /** A given, non-null value of a patched field. */
  predicate GivesValue<T>(patch: Patch<T>)
  {
    patch.Given? && patch.value.Some?
  }

  /** The bounds ProductBase puts on a product: both prices strictly positive,
      a promo price, when there is one, strictly positive, and a stock that is
      not negative. */
  predicate ValidProduct(p: Product)
  {
    && p.purchasePrice > 0.0
    && p.sellingPrice > 0.0
    && (p.promoPrice.Some? ==> p.promoPrice.value > 0.0)
    && p.stockQuantity >= 0.0
  }

  /** ProductUpdate: every field optional; `sku` cannot be updated. */
  datatype ProductUpdate = ProductUpdate(
    name: Patch<string>,
    category: Patch<string>,
    purchasePrice: Patch<real>,
    sellingPrice: Patch<real>,
    promoPrice: Patch<real>,
    stockQuantity: Patch<real>,
    unit: Patch<string>,
    imageUrl: Patch<string>,
    supplierId: Patch<int>)

  predicate PositiveIfNamed(patch: Patch<real>)
  {
    GivesValue(patch) ==> patch.value.value > 0.0
  }

  /** A given price must be strictly positive and a given stock not negative,
      the same bounds as at creation. */
  predicate ValidProductUpdate(u: ProductUpdate)
  {
    && PositiveIfNamed(u.purchasePrice)
    && PositiveIfNamed(u.sellingPrice)
    && PositiveIfNamed(u.promoPrice)
    && (GivesValue(u.stockQuantity) ==> u.stockQuantity.value.value >= 0.0)
  }

  datatype SupplierUpdate = SupplierUpdate(
    name: Patch<string>,
    contactPerson: Patch<string>,
    phone: Patch<string>,
    email: Patch<string>,
    address: Patch<string>)

  datatype ClientUpdate = ClientUpdate(
    name: Patch<string>,
    clientType: Patch<ClientType>,
    phone: Patch<string>,
    email: Patch<string>,
    address: Patch<string>,
    nif: Patch<string>,
    stat: Patch<string>)

  /** A requested sale line.  The caller's `pricePerUnit` is carried but the
      ledger replaces it by the product's current price. */
  datatype SaleItemCreate = SaleItemCreate(productId: int, quantity: real, pricePerUnit: real)

  /** SaleCreate: no total and no user; the ledger derives the first and is
      given the second. */
  datatype SaleCreate = SaleCreate(
    paymentMethod: string,
    status: SaleStatus,
    clientId: Option<int>,
    items: seq<SaleItemCreate>)

  /** Every sale line asks for a strictly positive quantity. */
  predicate ValidSaleCreate(s: SaleCreate)
  {
    forall i :: 0 <= i < |s.items| ==> s.items[i].quantity > 0.0
  }

  datatype PurchaseOrderItemCreate = PurchaseOrderItemCreate(
    productId: int,
    quantity: real,
    purchasePricePerUnit: real)

  /** PurchaseOrderCreate: only a supplier and lines, no total and no status. */
  datatype PurchaseOrderCreate = PurchaseOrderCreate(supplierId: int, items: seq<PurchaseOrderItemCreate>)

  /** Every order line asks for a strictly positive quantity. */
  predicate ValidPurchaseOrderCreate(o: PurchaseOrderCreate)
  {
    forall i :: 0 <= i < |o.items| ==> o.items[i].quantity > 0.0
  }
}
