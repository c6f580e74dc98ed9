/** convex/internal.ts: the internal stock update with a caller-supplied user, SKU generation
    and the internal product creation. */
module Internal {
  import opened Schema
  import opened Ledger
  import opened Database

  /** Internal `updateStock`: the same rule and upsert as the public one, attributed to
      `userId`, and never carrying a transfer destination. */
  method UpdateStock(db: Db, productId: ProductId, locationId: LocationId,
                     movementType: MovementType, quantity: int, reference: Option<string>,
                     notes: Option<string>, userId: UserId, now: Timestamp)
    returns (newQuantity: int)
    requires db.Valid()
    modifies db
    ensures db.Valid()
    ensures var prev := Quantity(old(db.stockLevels), (productId, locationId));
      && newQuantity == Apply(movementType, prev, quantity)
      && db.stockMovements == old(db.stockMovements) +
           [Entry((productId, locationId), movementType, quantity, prev, reference, notes, None, userId, now)]
    ensures db.stockLevels == Upsert(old(db.stockLevels), (productId, locationId), newQuantity, now)
    ensures forall k :: k != (productId, locationId) ==>
      Quantity(db.stockLevels, k) == Quantity(old(db.stockLevels), k)
    ensures db.products == old(db.products) && db.locations == old(db.locations)
    ensures db.scanSessions == old(db.scanSessions) && db.barcodeScans == old(db.barcodeScans)
  {
    var _, next := db.RecordMovement((productId, locationId), movementType, quantity, reference,
                                     notes, None, userId, now);
    newQuantity := next;
  }

  /** The SKU built from the last six digits of the clock and three random characters. */
  function SkuFrom(stamp: string, random: string): string {
    "SKU" + stamp + random
  }

  /** Some draw yields a SKU that no product holds. */
  predicate HasFreshDraw(ps: seq<Product>, draws: seq<(string, string)>) {
    exists i :: 0 <= i < |draws| && !SkuHeld(ps, SkuFrom(draws[i].0, draws[i].1), None)
  }

  /** `generateSKU`: try the (clock, random) draws in turn and return the first SKU that no
      product, active or inactive, holds. */
  function GenerateSku(ps: seq<Product>, draws: seq<(string, string)>): (sku: string)
    requires HasFreshDraw(ps, draws)
    ensures !SkuHeld(ps, sku, None)
    ensures exists i :: 0 <= i < |draws| && sku == SkuFrom(draws[i].0, draws[i].1) &&
                        forall j :: 0 <= j < i ==> SkuHeld(ps, SkuFrom(draws[j].0, draws[j].1), None)
  {
    var sku := SkuFrom(draws[0].0, draws[0].1);
    if SkuHeld(ps, sku, None) then
      var rest := GenerateSku(ps, draws[1..]);
      ghost var i :| 0 <= i < |draws| - 1 && rest == SkuFrom(draws[1..][i].0, draws[1..][i].1)
        && forall j :: 0 <= j < i ==> SkuHeld(ps, SkuFrom(draws[1..][j].0, draws[1..][j].1), None);
      assert rest == SkuFrom(draws[i + 1].0, draws[i + 1].1);
      rest
    else
      sku
  }

  /** Internal `createProduct`: refuse a given barcode that any product, active or inactive,
      already holds; otherwise add one active product with a fresh SKU. */
  method CreateProduct(db: Db, name: string, barcode: Option<string>, description: Option<string>,
                       categoryId: Option<CategoryId>, supplierId: Option<SupplierId>,
                       unitPrice: real, reorderLevel: int, userId: UserId,
                       draws: seq<(string, string)>, now: Timestamp)
    returns (r: Result<ProductId>)
    requires db.Valid()
    requires HasFreshDraw(db.products, draws)
    modifies db
    ensures db.Valid()
    ensures r.Err? <==> Given(barcode) && BarcodeHeld(old(db.products), barcode.value, None)
    ensures r.Err? ==> r.error == BarcodeExists && db.products == old(db.products)
    ensures r.Ok? ==>
              && r.value == |old(db.products)|
              && db.products == old(db.products) +
                   [Product(name, GenerateSku(old(db.products), draws), barcode, description,
                            categoryId, supplierId, unitPrice, reorderLevel, true, userId, now, now)]
    ensures SkusUnique(old(db.products)) ==> SkusUnique(db.products)
    ensures BarcodesUnique(old(db.products)) ==> BarcodesUnique(db.products)
    ensures db.stockLevels == old(db.stockLevels) && db.stockMovements == old(db.stockMovements)
    ensures db.scanSessions == old(db.scanSessions) && db.barcodeScans == old(db.barcodeScans)
    ensures db.locations == old(db.locations)
  {
    if Given(barcode) && BarcodeHeld(db.products, barcode.value, None) {
      return Err(BarcodeExists);
    }
    var sku := GenerateSku(db.products, draws);
    var p := Product(name, sku, barcode, description, categoryId, supplierId, unitPrice,
                     reorderLevel, true, userId, now, now);
    AddKeepsUnique(db.products, p);
    r := Ok(|db.products|);
    db.products := db.products + [p];
  }
}
