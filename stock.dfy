/** convex/stock.ts: the public stock update and the low-stock part of the dashboard. */
module Stock {
  import opened Schema
  import opened Ledger
  import opened Database

  /** `updateStock`: one movement of any type on a (product, location) pair. Neither the sign of
      `quantity` nor the existence of the product or location is checked. A `transfer_out`
      only records its destination; the destination's stock is not touched. */
  method UpdateStock(db: Db, user: UserId, productId: ProductId, locationId: LocationId,
                     movementType: MovementType, quantity: int, reference: Option<string>,
                     notes: Option<string>, transferToLocationId: Option<LocationId>,
                     now: Timestamp)
    returns (newQuantity: int)
    requires db.Valid()
    modifies db
    ensures db.Valid()
    ensures var prev := Quantity(old(db.stockLevels), (productId, locationId));
      && newQuantity == Apply(movementType, prev, quantity)
      && db.stockMovements == old(db.stockMovements) +
           [Entry((productId, locationId), movementType, quantity, prev, reference, notes,
                  transferToLocationId, user, now)]
    ensures db.stockLevels == Upsert(old(db.stockLevels), (productId, locationId), newQuantity, now)
    ensures Quantity(db.stockLevels, (productId, locationId)) == newQuantity
    ensures forall k :: k != (productId, locationId) ==>
      Quantity(db.stockLevels, k) == Quantity(old(db.stockLevels), k)
    ensures transferToLocationId.Some? && transferToLocationId.value != locationId ==>
      Quantity(db.stockLevels, (productId, transferToLocationId.value))
        == Quantity(old(db.stockLevels), (productId, transferToLocationId.value))
    ensures db.products == old(db.products) && db.locations == old(db.locations)
    ensures db.scanSessions == old(db.scanSessions) && db.barcodeScans == old(db.barcodeScans)
  {
    var _, next := db.RecordMovement((productId, locationId), movementType, quantity, reference,
                                     notes, transferToLocationId, user, now);
    newQuantity := next;
  }

  /** The product is active and its stock summed over all locations is at or below its
      reorder level. */
  predicate IsLowStock(ps: seq<Product>, rows: seq<StockLevel>, p: ProductId)
    requires p < |ps|
  {
    ps[p].isActive && TotalStock(rows, p) <= ps[p].reorderLevel
  }

  /** The number of active products among the first `n`. */
  function CountActive(ps: seq<Product>, n: nat): nat
    requires n <= |ps|
  {
    if n == 0 then 0 else CountActive(ps, n - 1) + (if ps[n - 1].isActive then 1 else 0)
  }

  /** The number of low-stock products among the first `n`; never more than the active ones. */
  function CountLowStock(ps: seq<Product>, rows: seq<StockLevel>, n: nat): (c: nat)
    requires n <= |ps|
    ensures c <= CountActive(ps, n)
  {
    if n == 0 then 0
    else CountLowStock(ps, rows, n - 1) + (if IsLowStock(ps, rows, n - 1) then 1 else 0)
  }

  /** `getDashboardStats`, without the floating-point stock value and the time-window count:
      the number of active products and how many of them are low on stock. */
  method GetDashboardStats(db: Db) returns (totalProducts: nat, lowStockCount: nat)
    ensures totalProducts == CountActive(db.products, |db.products|)
    ensures lowStockCount == CountLowStock(db.products, db.stockLevels, |db.products|)
    ensures lowStockCount <= totalProducts
  {
    var products, stockLevels := db.products, db.stockLevels;
    totalProducts, lowStockCount := 0, 0;
    for i := 0 to |products|
      invariant totalProducts == CountActive(products, i)
      invariant lowStockCount == CountLowStock(products, stockLevels, i)
    {
      if products[i].isActive {
        totalProducts := totalProducts + 1;
        var totalStock := TotalStock(stockLevels, i);
        if totalStock <= products[i].reorderLevel {
          lowStockCount := lowStockCount + 1;
        }
      }
    }
  }
}
