/** Record shapes of the application tables (convex/schema.ts) and the error values the
    mutations raise. Document ids are natural numbers; timestamps are milliseconds. */
module Schema {

  type ProductId = nat
  type LocationId = nat
  type UserId = nat
  type SessionId = nat
  type CategoryId = nat
  type SupplierId = nat
  type Timestamp = nat

  /** A (product, location) pair: the key of a stock level. */
  type Pair = (ProductId, LocationId)

  datatype Option<T> = None | Some(value: T)

  /** The errors the mutations throw, one per distinct message. */
  datatype Error =
    | SkuExists                 // "A product with this SKU already exists"
    | BarcodeExists             // "... product with this barcode already exists"
    | ProductNotFound
    | LocationNotFound
    | QuantityOutOfRange        // "Quantity must be between 1 and 1000"
    | ActiveSessionExists       // "You already have an active scan session"
    | SessionAccessDenied       // "Session not found or access denied"
    | SessionNotActive
    | SessionNotFound

  datatype Result<T> = Ok(value: T) | Err(error: Error)

  /** The five movement types of the stockMovements table. */
  datatype MovementType = Inbound | Outbound | Adjustment | TransferOut | TransferIn

  datatype Product = Product(
    name: string,
    sku: string,
    barcode: Option<string>,
    description: Option<string>,
    categoryId: Option<CategoryId>,
    supplierId: Option<SupplierId>,
    unitPrice: real,
    reorderLevel: int,
    isActive: bool,
    createdBy: UserId,
    createdAt: Timestamp,
    updatedAt: Timestamp)

  /** A row of stockLevels: the current quantity of one product at one location. */
  datatype StockLevel = StockLevel(
    productId: ProductId,
    locationId: LocationId,
    quantity: int,
    reservedQuantity: int,
    updatedAt: Timestamp)

  /** A row of stockMovements: one append-only ledger entry. */
  datatype StockMovement = StockMovement(
    productId: ProductId,
    locationId: LocationId,
    movementType: MovementType,
    quantity: int,
    previousQuantity: int,
    newQuantity: int,
    reference: Option<string>,
    notes: Option<string>,
    transferToLocationId: Option<LocationId>,
    createdBy: UserId,
    createdAt: Timestamp)

  datatype SessionStatus = Active | Completed | Cancelled

  datatype ScanSession = ScanSession(
    productId: ProductId,
    locationId: LocationId,
    status: SessionStatus,
    totalScanned: int,
    createdBy: UserId,
    createdAt: Timestamp,
    completedAt: Option<Timestamp>)

  datatype BarcodeScan = BarcodeScan(
    sessionId: SessionId,
    barcode: string,
    scannedAt: Timestamp)
}
