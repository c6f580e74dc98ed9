/** The application's tables as one mutable store (the `ctx.db` every mutation works on),
    the invariant every mutation keeps, the shared stock read-modify-write, and the product
    index lookups (by_sku, by_barcode). Document ids of products and sessions are their
    positions in insertion order; nothing in this core deletes a product or a session. */
module Database {
  import opened Schema
  import opened Ledger
  import opened Sessions

  class Db {
    var products: seq<Product>
    var locations: set<LocationId>
    var stockLevels: seq<StockLevel>
    var stockMovements: seq<StockMovement>
    var scanSessions: seq<ScanSession>
    var barcodeScans: seq<BarcodeScan>

    ghost predicate Valid()
      reads this
    {
      LedgerOk(stockLevels, stockMovements) && SessionsOk(scanSessions, barcodeScans)
    }

    /** An empty store over the given (externally managed) locations. */
    constructor (locations: set<LocationId>)
      ensures Valid()
      ensures this.locations == locations
      ensures products == [] && stockLevels == [] && stockMovements == []
      ensures scanSessions == [] && barcodeScans == []
    {
      this.locations := locations;
      products, stockLevels, stockMovements := [], [], [];
      scanSessions, barcodeScans := [], [];
    }

    /** The stock read-modify-write every stock-changing path performs: read the pair's row
        (absent reads as 0), compute the new quantity, patch or insert the row, append one
        movement holding both quantities, and report them. */
    method RecordMovement(k: Pair, t: MovementType, q: int, reference: Option<string>,
                          notes: Option<string>, transferTo: Option<LocationId>,
                          user: UserId, now: Timestamp)
      returns (prev: int, next: int)
      requires Valid()
      modifies this
      ensures Valid()
      ensures prev == old(Quantity(stockLevels, k)) && next == Apply(t, prev, q)
      ensures stockLevels == Upsert(old(stockLevels), k, next, now)
      ensures stockMovements == old(stockMovements) + [Entry(k, t, q, prev, reference, notes, transferTo, user, now)]
      ensures Quantity(stockLevels, k) == next
      ensures forall k' :: k' != k ==> Quantity(stockLevels, k') == Quantity(old(stockLevels), k')
      ensures products == old(products) && locations == old(locations)
      ensures scanSessions == old(scanSessions) && barcodeScans == old(barcodeScans)
    {
      var row := FindRow(stockLevels, k);
      prev := if row.Some? then stockLevels[row.value].quantity else 0;
      next := Apply(t, prev, q);
      RecordPreservesLedger(stockLevels, stockMovements, k, t, q, reference, notes, transferTo, user, now);
      UpsertEffect(stockLevels, k, next, now);
      var rows: seq<StockLevel>;
      if row.Some? {
        rows := stockLevels[row.value := stockLevels[row.value].(quantity := next, updatedAt := now)];
      } else {
        rows := stockLevels + [StockLevel(k.0, k.1, next, 0, now)];
      }
      stockLevels, stockMovements := rows,
        stockMovements + [Entry(k, t, q, prev, reference, notes, transferTo, user, now)];
    }
  }

  // ---------------------------------------------------------------------------
  // Product lookups.

  /** Some product, active or not, other than `except` holds `sku` (the by_sku index). */
  predicate SkuHeld(ps: seq<Product>, sku: string, except: Option<ProductId>) {
    exists i :: 0 <= i < |ps| && Some(i) != except && ps[i].sku == sku
  }

  /** Some product, active or not, other than `except` holds `barcode` (the by_barcode index). */
  predicate BarcodeHeld(ps: seq<Product>, barcode: string, except: Option<ProductId>) {
    exists i :: 0 <= i < |ps| && Some(i) != except && ps[i].barcode == Some(barcode)
  }

  /** JavaScript truthiness of an optional string: present and not empty. */
  predicate Given(s: Option<string>) {
    s.Some? && s.value != ""
  }

  /** The first active product carrying `barcode`. */
  function FindActiveByBarcode(ps: seq<Product>, barcode: string): (r: Option<ProductId>)
    ensures r.Some? ==> r.value < |ps| && ps[r.value].isActive && ps[r.value].barcode == Some(barcode)
    ensures r.Some? ==> forall j :: 0 <= j < r.value ==> !(ps[j].isActive && ps[j].barcode == Some(barcode))
    ensures r.None? <==> forall j :: 0 <= j < |ps| ==> !(ps[j].isActive && ps[j].barcode == Some(barcode))
  {
    if |ps| == 0 then None
    else
      match FindActiveByBarcode(ps[..|ps| - 1], barcode)
      case Some(j) => Some(j)
      case None =>
        var last := ps[|ps| - 1];
        if last.isActive && last.barcode == Some(barcode) then Some(|ps| - 1) else None
  }

  /** No two products share a SKU. */
  ghost predicate SkusUnique(ps: seq<Product>) {
    forall i, j :: 0 <= i < j < |ps| ==> ps[i].sku != ps[j].sku
  }

  /** No two products share a non-empty barcode. */
  ghost predicate BarcodesUnique(ps: seq<Product>) {
    forall i, j :: 0 <= i < j < |ps| && Given(ps[i].barcode) ==> ps[i].barcode != ps[j].barcode
  }

  /** Adding a product whose SKU nobody holds, and whose barcode (when given) nobody holds,
      keeps both uniqueness properties. */
  lemma AddKeepsUnique(ps: seq<Product>, p: Product)
    ensures SkusUnique(ps) && !SkuHeld(ps, p.sku, None) ==> SkusUnique(ps + [p])
    ensures BarcodesUnique(ps) && (Given(p.barcode) ==> !BarcodeHeld(ps, p.barcode.value, None))
            ==> BarcodesUnique(ps + [p])
  {
    var ps' := ps + [p];
    if SkusUnique(ps) && !SkuHeld(ps, p.sku, None) {
      forall i, j | 0 <= i < j < |ps'| ensures ps'[i].sku != ps'[j].sku {
        if j == |ps| {
          assert ps'[i] == ps[i];
          assert Some(i) != None;
        }
      }
    }
    if BarcodesUnique(ps) && (Given(p.barcode) ==> !BarcodeHeld(ps, p.barcode.value, None)) {
      forall i, j | 0 <= i < j < |ps'| && Given(ps'[i].barcode)
        ensures ps'[i].barcode != ps'[j].barcode
      {
        if j == |ps| {
          assert ps'[i] == ps[i];
          assert Some(i) != None;
        }
      }
    }
  }

  /** Overwriting product `id` with a record whose SKU and barcode no other product holds keeps
      both uniqueness properties. */
  lemma ReplaceKeepsUnique(ps: seq<Product>, id: ProductId, p: Product)
    requires id < |ps|
    ensures SkusUnique(ps) && !SkuHeld(ps, p.sku, Some(id)) ==> SkusUnique(ps[id := p])
    ensures BarcodesUnique(ps) && (Given(p.barcode) ==> !BarcodeHeld(ps, p.barcode.value, Some(id)))
            ==> BarcodesUnique(ps[id := p])
  {
    var ps' := ps[id := p];
    if SkusUnique(ps) && !SkuHeld(ps, p.sku, Some(id)) {
      forall i, j | 0 <= i < j < |ps'| ensures ps'[i].sku != ps'[j].sku {
        if i == id {
          assert Some(j) != Some(id);
        } else if j == id {
          assert Some(i) != Some(id);
        }
      }
    }
    if BarcodesUnique(ps) && (Given(p.barcode) ==> !BarcodeHeld(ps, p.barcode.value, Some(id))) {
      forall i, j | 0 <= i < j < |ps'| && Given(ps'[i].barcode)
        ensures ps'[i].barcode != ps'[j].barcode
      {
        if i == id {
          assert Some(j) != Some(id);
        } else if j == id {
          assert Some(i) != Some(id);
        }
      }
    }
  }
}
