/** convex/products.ts: product creation and update under SKU and barcode uniqueness, the
    low-stock report, and the barcode search. */
module Products {
  import opened Schema
  import opened Ledger
  import opened Database
  import Stock

  /** `create`: refuse a SKU that any product holds, then a given barcode that any product
      holds (an absent or empty barcode skips that check); otherwise insert the product. */
  method Create(db: Db, user: UserId, name: string, sku: string, barcode: Option<string>,
                description: Option<string>, categoryId: Option<CategoryId>, unitPrice: real,
                reorderLevel: int, isActive: bool, now: Timestamp)
    returns (r: Result<ProductId>)
    requires db.Valid()
    modifies db
    ensures db.Valid()
    ensures r.Err? <==> old(SkuHeld(db.products, sku, None))
                        || (Given(barcode) && old(BarcodeHeld(db.products, barcode.value, None)))
    ensures old(SkuHeld(db.products, sku, None)) ==> r == Err(SkuExists)
    ensures !old(SkuHeld(db.products, sku, None)) && Given(barcode)
              && old(BarcodeHeld(db.products, barcode.value, None)) ==>
              r == Err(BarcodeExists)
    ensures r.Err? ==> db.products == old(db.products)
    ensures r.Ok? ==>
              && !old(SkuHeld(db.products, sku, None))
              && (Given(barcode) ==> !old(BarcodeHeld(db.products, barcode.value, None)))
              && r.value == |old(db.products)|
              && db.products == old(db.products) +
                   [Product(name, sku, barcode, description, categoryId, None, unitPrice,
                            reorderLevel, isActive, user, now, now)]
    ensures SkusUnique(old(db.products)) ==> SkusUnique(db.products)
    ensures BarcodesUnique(old(db.products)) ==> BarcodesUnique(db.products)
    ensures db.stockLevels == old(db.stockLevels) && db.stockMovements == old(db.stockMovements)
    ensures db.scanSessions == old(db.scanSessions) && db.barcodeScans == old(db.barcodeScans)
    ensures db.locations == old(db.locations)
  {
    if SkuHeld(db.products, sku, None) {
      return Err(SkuExists);
    }
    if Given(barcode) && BarcodeHeld(db.products, barcode.value, None) {
      return Err(BarcodeExists);
    }
    var p := Product(name, sku, barcode, description, categoryId, None, unitPrice,
                     reorderLevel, isActive, user, now, now);
    AddKeepsUnique(db.products, p);
    r := Ok(|db.products|);
    db.products := db.products + [p];
  }

  /** The patch `update` writes: the listed fields and updatedAt; the supplier, the creator and
      the creation time stay. */
  function Patched(p: Product, name: string, sku: string, barcode: Option<string>,
                   description: Option<string>, categoryId: Option<CategoryId>, unitPrice: real,
                   reorderLevel: int, isActive: bool, now: Timestamp): Product
  {
    p.(name := name, sku := sku, barcode := barcode, description := description,
       categoryId := categoryId, unitPrice := unitPrice, reorderLevel := reorderLevel,
       isActive := isActive, updatedAt := now)
  }

  /** `update`: the product must exist; refuse a SKU or a given barcode that a DIFFERENT product
      holds; otherwise patch the product in place. */
  method Update(db: Db, id: ProductId, name: string, sku: string, barcode: Option<string>,
                description: Option<string>, categoryId: Option<CategoryId>, unitPrice: real,
                reorderLevel: int, isActive: bool, now: Timestamp)
    returns (r: Result<()>)
    requires db.Valid()
    modifies db
    ensures db.Valid()
    ensures r.Err? <==> id >= |old(db.products)| || old(SkuHeld(db.products, sku, Some(id)))
                        || (Given(barcode) && old(BarcodeHeld(db.products, barcode.value, Some(id))))
    ensures id >= |old(db.products)| ==> r == Err(ProductNotFound)
    ensures id < |old(db.products)| && old(SkuHeld(db.products, sku, Some(id))) ==> r == Err(SkuExists)
    ensures id < |old(db.products)| && !old(SkuHeld(db.products, sku, Some(id))) && Given(barcode)
              && old(BarcodeHeld(db.products, barcode.value, Some(id))) ==>
              r == Err(BarcodeExists)
    ensures r.Err? ==> db.products == old(db.products)
    ensures r.Ok? ==> id < |old(db.products)| && |db.products| == |old(db.products)|
    ensures r.Ok? ==>
              var before := old(db.products[id]);
              var after := db.products[id];
              && db.products == old(db.products)[id := Patched(before, name, sku, barcode, description,
                                                               categoryId, unitPrice, reorderLevel,
                                                               isActive, now)]
              && after.createdBy == before.createdBy && after.createdAt == before.createdAt
              && after.supplierId == before.supplierId
              && after.sku == sku && after.barcode == barcode && after.updatedAt == now
    ensures SkusUnique(old(db.products)) ==> SkusUnique(db.products)
    ensures BarcodesUnique(old(db.products)) ==> BarcodesUnique(db.products)
    ensures db.stockLevels == old(db.stockLevels) && db.stockMovements == old(db.stockMovements)
    ensures db.scanSessions == old(db.scanSessions) && db.barcodeScans == old(db.barcodeScans)
    ensures db.locations == old(db.locations)
  {
    if id >= |db.products| {
      return Err(ProductNotFound);
    }
    if SkuHeld(db.products, sku, Some(id)) {
      return Err(SkuExists);
    }
    if Given(barcode) && BarcodeHeld(db.products, barcode.value, Some(id)) {
      return Err(BarcodeExists);
    }
    var p := Patched(db.products[id], name, sku, barcode, description, categoryId, unitPrice,
                     reorderLevel, isActive, now);
    ReplaceKeepsUnique(db.products, id, p);
    db.products := db.products[id := p];
    r := Ok(());
  }

  /** Under the uniqueness invariants, an update that keeps a product's own SKU and barcode is
      never refused for them. */
  lemma KeepOwnIdentifiers(ps: seq<Product>, id: ProductId)
    requires id < |ps|
    ensures SkusUnique(ps) ==> !SkuHeld(ps, ps[id].sku, Some(id))
    ensures BarcodesUnique(ps) && Given(ps[id].barcode) ==> !BarcodeHeld(ps, ps[id].barcode.value, Some(id))
  {
    if SkusUnique(ps) {
      forall i | 0 <= i < |ps| && i != id ensures ps[i].sku != ps[id].sku {
        if i < id {
          assert ps[i].sku != ps[id].sku;
        }
      }
    }
    if BarcodesUnique(ps) && Given(ps[id].barcode) {
      forall i | 0 <= i < |ps| && i != id ensures ps[i].barcode != ps[id].barcode {
        if i < id {
          assert Given(ps[i].barcode) ==> ps[i].barcode != ps[id].barcode;
        }
      }
    }
  }

  // ---------------------------------------------------------------------------
  // getLowStockProducts

  /** A product record tagged with its stock summed over all locations. */
  datatype LowStockEntry = LowStockEntry(productId: ProductId, product: Product, totalStock: int)

  /** The low-stock products among the first `n`, in table order, each with its total. */
  function LowStockList(ps: seq<Product>, rows: seq<StockLevel>, n: nat): seq<LowStockEntry>
    requires n <= |ps|
  {
    if n == 0 then []
    else
      LowStockList(ps, rows, n - 1)
      + (if Stock.IsLowStock(ps, rows, n - 1) then [LowStockEntry(n - 1, ps[n - 1], TotalStock(rows, n - 1))] else [])
  }

  /** The list holds exactly the active products at or below their reorder level, each with
      its own record and its summed stock. */
  lemma {:induction false} LowStockListMembers(ps: seq<Product>, rows: seq<StockLevel>, n: nat)
    requires n <= |ps|
    ensures forall e :: e in LowStockList(ps, rows, n) <==>
              e.productId < n && Stock.IsLowStock(ps, rows, e.productId)
              && e.product == ps[e.productId] && e.totalStock == TotalStock(rows, e.productId)
  {
    if n > 0 {
      LowStockListMembers(ps, rows, n - 1);
      var before := LowStockList(ps, rows, n - 1);
      var tail := if Stock.IsLowStock(ps, rows, n - 1) then [LowStockEntry(n - 1, ps[n - 1], TotalStock(rows, n - 1))] else [];
      forall e ensures e in before + tail <==> e in before || e in tail {
      }
    }
  }

  /** The list is in table order, so each product appears once, and it is as long as the
      dashboard's low-stock count. */
  lemma {:induction false} LowStockListShape(ps: seq<Product>, rows: seq<StockLevel>, n: nat)
    requires n <= |ps|
    ensures var l := LowStockList(ps, rows, n);
      && |l| == Stock.CountLowStock(ps, rows, n)
      && (forall i :: 0 <= i < |l| ==> l[i].productId < n)
      && (forall i, j :: 0 <= i < j < |l| ==> l[i].productId < l[j].productId)
  {
    if n > 0 {
      LowStockListShape(ps, rows, n - 1);
    }
  }

  predicate Sorted(s: seq<LowStockEntry>) {
    forall i, j :: 0 <= i < j < |s| ==> s[i].totalStock <= s[j].totalStock
  }

  /** Place `e` before the first entry whose total is not smaller. */
  function Insert(e: LowStockEntry, s: seq<LowStockEntry>): (r: seq<LowStockEntry>)
    ensures |r| == |s| + 1
    ensures r[0] == if |s| == 0 || e.totalStock <= s[0].totalStock then e else s[0]
    ensures multiset(r) == multiset(s) + multiset{e}
  {
    if |s| == 0 || e.totalStock <= s[0].totalStock then [e] + s
    else
      assert s == [s[0]] + s[1..];
      [s[0]] + Insert(e, s[1..])
  }

  /** Inserting into a sorted list keeps it sorted. */
  lemma {:induction false} InsertSorted(e: LowStockEntry, s: seq<LowStockEntry>)
    requires Sorted(s)
    ensures Sorted(Insert(e, s))
  {
    if |s| > 0 && e.totalStock > s[0].totalStock {
      var rest := Insert(e, s[1..]);
      InsertSorted(e, s[1..]);
      var r := [s[0]] + rest;
      forall i, j | 0 <= i < j < |r| ensures r[i].totalStock <= r[j].totalStock {
        if i == 0 && j > 1 {
          assert r[1] == rest[0] && r[j] == rest[j - 1];
        }
      }
    }
  }

  /** `sort((a, b) => a.totalStock - b.totalStock)`: ascending by total, stable. */
  function SortByTotal(s: seq<LowStockEntry>): (r: seq<LowStockEntry>)
    ensures multiset(r) == multiset(s)
    ensures Sorted(r)
  {
    if |s| == 0 then []
    else
      assert s == [s[0]] + s[1..];
      var sorted := SortByTotal(s[1..]);
      InsertSorted(s[0], sorted);
      Insert(s[0], sorted)
  }

  /** The entries with total `v`, in order. */
  function WithTotal(s: seq<LowStockEntry>, v: int): seq<LowStockEntry>
  {
    if |s| == 0 then []
    else (if s[0].totalStock == v then [s[0]] else []) + WithTotal(s[1..], v)
  }

  lemma {:induction false} InsertWithTotal(e: LowStockEntry, s: seq<LowStockEntry>, v: int)
    ensures WithTotal(Insert(e, s), v) == (if e.totalStock == v then [e] else []) + WithTotal(s, v)
  {
    if |s| == 0 || e.totalStock <= s[0].totalStock {
      assert ([e] + s)[1..] == s;
    } else {
      var rest := Insert(e, s[1..]);
      var head := if s[0].totalStock == v then [s[0]] else [];
      var mine := if e.totalStock == v then [e] else [];
      assert ([s[0]] + rest)[1..] == rest;
      assert WithTotal(Insert(e, s), v) == head + WithTotal(rest, v);
      InsertWithTotal(e, s[1..], v);
      assert WithTotal(rest, v) == mine + WithTotal(s[1..], v);
      assert e.totalStock == v ==> head == [];
      assert WithTotal(s, v) == head + WithTotal(s[1..], v);
    }
  }

  /** Stability: entries with equal totals keep their relative order. */
  lemma {:induction false} SortKeepsTies(s: seq<LowStockEntry>, v: int)
    ensures WithTotal(SortByTotal(s), v) == WithTotal(s, v)
  {
    if |s| > 0 {
      SortKeepsTies(s[1..], v);
      InsertWithTotal(s[0], SortByTotal(s[1..]), v);
    }
  }

  /** `getLowStockProducts`: collect the active products at or below their reorder level with
      their summed stock, then sort ascending by that total. */
  method GetLowStockProducts(db: Db) returns (r: seq<LowStockEntry>)
    ensures Sorted(r)
    ensures multiset(r) == multiset(LowStockList(db.products, db.stockLevels, |db.products|))
    ensures forall v :: WithTotal(r, v) == WithTotal(LowStockList(db.products, db.stockLevels, |db.products|), v)
    ensures forall e :: e in r <==>
              e.productId < |db.products| && Stock.IsLowStock(db.products, db.stockLevels, e.productId)
              && e.product == db.products[e.productId] && e.totalStock == TotalStock(db.stockLevels, e.productId)
  {
    var products, stockLevels := db.products, db.stockLevels;
    var lowStockProducts := [];
    for i := 0 to |products|
      invariant lowStockProducts == LowStockList(products, stockLevels, i)
    {
      var product := products[i];
      if product.isActive {
        var totalStock := TotalStock(stockLevels, i);
        if totalStock <= product.reorderLevel {
          lowStockProducts := lowStockProducts + [LowStockEntry(i, product, totalStock)];
        }
      }
    }
    r := SortByTotal(lowStockProducts);
    LowStockListMembers(products, stockLevels, |products|);
    forall v ensures WithTotal(r, v) == WithTotal(lowStockProducts, v) {
      SortKeepsTies(lowStockProducts, v);
    }
    forall e ensures e in r <==> e in lowStockProducts {
      assert e in r <==> e in multiset(r);
      assert e in lowStockProducts <==> e in multiset(lowStockProducts);
    }
  }

  /** `searchByBarcode`: the first ACTIVE product carrying the barcode, or none. */
  function SearchByBarcode(ps: seq<Product>, barcode: string): (r: Option<Product>)
    ensures r.Some? ==> r.value.isActive && r.value.barcode == Some(barcode) && r.value in ps
    ensures r.None? <==> forall j :: 0 <= j < |ps| ==> !(ps[j].isActive && ps[j].barcode == Some(barcode))
  {
    match FindActiveByBarcode(ps, barcode)
    case Some(j) => Some(ps[j])
    case None => None
  }
}
