/** The stored entities of the hardware store (models.py).

    Columns declared nullable are `Option`s; the others are plain values, so
    "non-null" needs no further statement.  Money and quantities (Float
    columns) are exact `real`s.  The primary key of a row is the key under
    which its table stores it, so records do not repeat it; foreign keys are
    plain `int`s (non-null) or `Option<int>` (nullable). */
module Models {

  datatype Option<+T> = None | Some(value: T)

  /** SaleStatus: "payee" or "credit" (models.py:18-20). */
  datatype SaleStatus = Payee | Credit

  /** OrderStatus: "en-cours" or "recue" (models.py:22-24). */
  datatype OrderStatus = EnCours | Recue

  /** ClientType: "Particulier" or "Professionnel" (models.py:14-16). */
  datatype ClientType = Particulier | Professionnel

  type Month = m: int | 1 <= m <= 12 witness 1
  type Day = d: int | 1 <= d <= 31 witness 1

  /** A calendar date. */
  datatype Date = Date(year: int, month: Month, day: Day)

  /** A timestamp: its date and an opaque, ordered time of day. */
  datatype DateTime = DateTime(date: Date, timeOfDay: nat)

  /** Calendar order on dates. */
  predicate DateLe(a: Date, b: Date)
  {
    a.year < b.year
    || (a.year == b.year && a.month < b.month)
    || (a.year == b.year && a.month == b.month && a.day <= b.day)
  }

  datatype Supplier = Supplier(
    name: string,
    contactPerson: Option<string>,
    phone: Option<string>,
    email: Option<string>,
    address: Option<string>)

  datatype Client = Client(
    name: string,
    clientType: ClientType,
    phone: Option<string>,
    email: Option<string>,
    address: Option<string>,
    nif: Option<string>,
    stat: Option<string>)

  /** A catalogue entry; `stockQuantity` is non-null, `promoPrice` nullable. */
  datatype Product = Product(
    sku: string,
    name: string,
    category: Option<string>,
    purchasePrice: real,
    sellingPrice: real,
    promoPrice: Option<real>,
    stockQuantity: real,
    unit: Option<string>,
    imageUrl: Option<string>,
    supplierId: Option<int>)

  /** One line of a sale: the unit price is the snapshot taken at sale time. */
  datatype SaleItem = SaleItem(quantity: real, pricePerUnit: real, saleId: int, productId: int)

  /** A sale: the client is optional, the user who recorded it is not. */
  datatype Sale = Sale(
    saleDate: DateTime,
    totalAmount: real,
    paymentMethod: string,
    status: SaleStatus,
    clientId: Option<int>,
    userId: int,
    items: seq<SaleItem>)

  datatype PurchaseOrderItem = PurchaseOrderItem(
    quantity: real,
    purchasePricePerUnit: real,
    orderId: int,
    productId: int)

  /** A purchase order: `orderDate` is set at creation, `receptionDate` only
      once the order is received. */
  datatype PurchaseOrder = PurchaseOrder(
    orderDate: DateTime,
    receptionDate: Option<DateTime>,
    totalCost: real,
    status: OrderStatus,
    supplierId: int,
    items: seq<PurchaseOrderItem>)

  /** A row of the key/value settings table (the key is its primary key). */
  datatype Setting = Setting(key: string, value: Option<string>)
}
