/** The domain records of the inventory dashboard: locations, products,
    operations with their lines, and the application state that holds the three
    registries. Every record is an immutable value; mutators build new ones. */
module Types {

  /** What an operation does; ADJUSTMENT is declared but produced by nothing. */
  datatype OperationType = Receipt | Delivery | Internal | Adjustment

  /** An operation status is exactly one of these four. */
  datatype OperationStatus = Draft | Ready | Done | Cancelled

  /** A location kind is exactly one of these four; only `Internal` is
      controlled warehouse storage. */
  datatype LocationKind = Vendor | Customer | Internal | InventoryLoss

  datatype Location = Location(id: string, name: string, kind: LocationKind)

  /** A product sits at exactly one location (`locationId`): stock split over
      several locations cannot be represented. Stock is an unbounded integer
      with no floor; the price is carried along and never computed on. */
  datatype Product = Product(
    id: string,
    name: string,
    sku: string,
    category: string,
    uom: string,
    stock: int,
    locationId: string,
    price: real)

  /** One line of an operation. `productName` is a snapshot taken when the
      operation was created; nothing keeps it in step with the product. */
  datatype OperationLine = OperationLine(productId: string, productName: string, quantity: int)

  /** An operation has one source and one destination, shared by all of its
      lines. */
  datatype Operation = Operation(
    id: string,
    opType: OperationType,
    reference: string,
    sourceLocationId: string,
    destLocationId: string,
    status: OperationStatus,
    date: string,
    lines: seq<OperationLine>)

  /** The whole application state: three ordered registries. */
  datatype AppState = AppState(
    products: seq<Product>,
    operations: seq<Operation>,
    locations: seq<Location>)

  /** An operation that still awaits validation: neither DONE nor CANCELLED
      (so DRAFT and READY both count). */
  predicate IsOpen(status: OperationStatus)
  {
    status != Done && status != Cancelled
  }

  /** True when two product records differ at most in stock and location:
      the only two fields any mutator of the core ever rewrites. */
  predicate SameRecord(p: Product, q: Product)
  {
    && p.id == q.id
    && p.name == q.name
    && p.sku == q.sku
    && p.category == q.category
    && p.uom == q.uom
    && p.price == q.price
  }
}
