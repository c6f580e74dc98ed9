/** convex/scanner.ts: single-scan intake and the bulk scan-session state machine
    (active, then completed or cancelled). */
module Scanner {
  import opened Schema
  import opened Ledger
  import opened Sessions
  import opened Database
  import Decimal
  import Internal

  datatype ScanOutcome = Existing(productId: ProductId) | Created(productId: ProductId)

  /** The placeholder product `singleScan` registers for an unknown barcode. */
  function Placeholder(barcode: string, sku: string, user: UserId, now: Timestamp): Product {
    Product("Product " + barcode, sku, Some(barcode), None, None, None, 0.0, 10, true, user, now, now)
  }

  /** `singleScan`: a barcode of an active product receives one unit at the location; an
      unknown barcode registers a placeholder product and moves no stock. Neither path checks
      the location, and the new-product path checks neither the SKU nor inactive products
      holding the barcode. */
  method SingleScan(db: Db, user: UserId, barcode: string, locationId: LocationId,
                    skuStamp: string, skuRandom: string, now: Timestamp)
    returns (r: ScanOutcome)
    requires db.Valid()
    modifies db
    ensures db.Valid()
    ensures r.Existing? <==> old(FindActiveByBarcode(db.products, barcode)).Some?
    ensures r.Existing? ==>
              var k := (r.productId, locationId);
              var prev := Quantity(old(db.stockLevels), k);
              && r.productId == old(FindActiveByBarcode(db.products, barcode)).value
              && db.stockLevels == Upsert(old(db.stockLevels), k, prev + 1, now)
              && Quantity(db.stockLevels, k) == prev + 1
              && (forall k' :: k' != k ==> Quantity(db.stockLevels, k') == Quantity(old(db.stockLevels), k'))
              && db.stockMovements == old(db.stockMovements) +
                   [Entry(k, Inbound, 1, prev, Some("Barcode Scan"), Some("Single scan increment"), None, user, now)]
              && db.products == old(db.products)
    ensures r.Created? ==>
              && r.productId == |old(db.products)|
              && db.products == old(db.products) +
                   [Placeholder(barcode, Internal.SkuFrom(skuStamp, skuRandom), user, now)]
              && db.stockLevels == old(db.stockLevels)
              && db.stockMovements == old(db.stockMovements)
    ensures db.scanSessions == old(db.scanSessions) && db.barcodeScans == old(db.barcodeScans)
    ensures db.locations == old(db.locations)
  {
    var found := FindActiveByBarcode(db.products, barcode);
    if found.Some? {
      var _, _ := db.RecordMovement((found.value, locationId), Inbound, 1, Some("Barcode Scan"),
                                    Some("Single scan increment"), None, user, now);
      r := Existing(found.value);
    } else {
      var sku := Internal.SkuFrom(skuStamp, skuRandom);
      r := Created(|db.products|);
      db.products := db.products + [Placeholder(barcode, sku, user, now)];
    }
  }

  /** The new-product path looks only at ACTIVE products: a barcode still held by an inactive
      product is registered a second time, so barcode uniqueness is not an invariant of the
      product table. */
  lemma PlaceholderCanRepeatBarcode()
    ensures var retired := Product("Crate", "SKU1", Some("X1"), None, None, None, 0.0, 5, false, 0, 0, 0);
      && BarcodesUnique([retired])
      && FindActiveByBarcode([retired], "X1").None?
      && !BarcodesUnique([retired] + [Placeholder("X1", "SKU2", 0, 1)])
  {
    var retired := Product("Crate", "SKU1", Some("X1"), None, None, None, 0.0, 5, false, 0, 0, 0);
    var ps := [retired] + [Placeholder("X1", "SKU2", 0, 1)];
    assert ps[0].barcode == ps[1].barcode && Given(ps[0].barcode);
  }

  /** `startBulkScanSession`: refuse when the user already has an active session; otherwise
      open one with nothing scanned. */
  method StartBulkScanSession(db: Db, user: UserId, productId: ProductId, locationId: LocationId,
                              now: Timestamp)
    returns (r: Result<SessionId>)
    requires db.Valid()
    modifies db
    ensures db.Valid()
    ensures r.Err? <==> old(ActiveSessionOf(db.scanSessions, user)).Some?
    ensures r.Err? ==> r.error == ActiveSessionExists && db.scanSessions == old(db.scanSessions)
    ensures r.Ok? ==>
              && r.value == |old(db.scanSessions)|
              && db.scanSessions == old(db.scanSessions) +
                   [ScanSession(productId, locationId, Active, 0, user, now, None)]
              && ActiveSessionOf(db.scanSessions, user) == Some(r.value)
    ensures db.barcodeScans == old(db.barcodeScans) && db.products == old(db.products)
    ensures db.stockLevels == old(db.stockLevels) && db.stockMovements == old(db.stockMovements)
    ensures db.locations == old(db.locations)
  {
    if ActiveSessionOf(db.scanSessions, user).Some? {
      return Err(ActiveSessionExists);
    }
    var s := ScanSession(productId, locationId, Active, 0, user, now, None);
    OpenPreserves(db.scanSessions, db.barcodeScans, s);
    r := Ok(|db.scanSessions|);
    db.scanSessions := db.scanSessions + [s];
    ActiveSessionIsUnique(db.scanSessions, user, r.value);
  }

  /** The session exists and belongs to `user` (otherwise "Session not found or access denied"). */
  predicate Owns(sessions: seq<ScanSession>, user: UserId, s: SessionId) {
    s < |sessions| && sessions[s].createdBy == user
  }

  /** `addBarcodeToSession`: on an owned, active session, record the scan (duplicates
      included) and bump the counter by one; report the new total. */
  method AddBarcodeToSession(db: Db, user: UserId, sessionId: SessionId, barcode: string,
                             now: Timestamp)
    returns (r: Result<int>)
    requires db.Valid()
    modifies db
    ensures db.Valid()
    ensures r.Ok? <==> old(Owns(db.scanSessions, user, sessionId) && db.scanSessions[sessionId].status == Active)
    ensures !old(Owns(db.scanSessions, user, sessionId)) ==> r == Err(SessionAccessDenied)
    ensures old(Owns(db.scanSessions, user, sessionId) && db.scanSessions[sessionId].status != Active) ==>
              r == Err(SessionNotActive)
    ensures r.Err? ==> db.scanSessions == old(db.scanSessions) && db.barcodeScans == old(db.barcodeScans)
    ensures r.Ok? ==>
              && old(Owns(db.scanSessions, user, sessionId))
              && old(db.scanSessions[sessionId].status) == Active
              && r.value == old(db.scanSessions[sessionId].totalScanned) + 1
              && db.barcodeScans == old(db.barcodeScans) + [BarcodeScan(sessionId, barcode, now)]
              && db.scanSessions == old(db.scanSessions)[sessionId := old(db.scanSessions[sessionId]).(totalScanned := r.value)]
              && r.value == CountScans(db.barcodeScans, sessionId)
    ensures db.products == old(db.products) && db.locations == old(db.locations)
    ensures db.stockLevels == old(db.stockLevels) && db.stockMovements == old(db.stockMovements)
  {
    if !Owns(db.scanSessions, user, sessionId) {
      return Err(SessionAccessDenied);
    }
    var session := db.scanSessions[sessionId];
    if session.status != Active {
      return Err(SessionNotActive);
    }
    ScanPreserves(db.scanSessions, db.barcodeScans, sessionId, barcode, now);
    db.barcodeScans := db.barcodeScans + [BarcodeScan(sessionId, barcode, now)];
    db.scanSessions := db.scanSessions[sessionId := session.(totalScanned := session.totalScanned + 1)];
    r := Ok(session.totalScanned + 1);
  }

  /** `getActiveScanSession`: the user's active session, or none. */
  method GetActiveScanSession(db: Db, user: UserId) returns (r: Option<SessionId>)
    requires db.Valid()
    ensures forall s: SessionId :: r == Some(s) <==> s < |db.scanSessions| && IsActiveOf(db.scanSessions[s], user)
  {
    r := ActiveSessionOf(db.scanSessions, user);
    forall s: SessionId ensures r == Some(s) <==> s < |db.scanSessions| && IsActiveOf(db.scanSessions[s], user) {
      ActiveSessionIsUnique(db.scanSessions, user, s);
    }
  }

  /** `completeBulkScanSession`: on an owned, active session, receive everything scanned as
      one inbound movement (none when nothing was scanned) and mark the session completed.
      Reports the product and the total. */
  method CompleteBulkScanSession(db: Db, user: UserId, sessionId: SessionId, now: Timestamp)
    returns (r: Result<(ProductId, int)>)
    requires db.Valid()
    modifies db
    ensures db.Valid()
    ensures r.Ok? <==> old(Owns(db.scanSessions, user, sessionId) && db.scanSessions[sessionId].status == Active)
    ensures !old(Owns(db.scanSessions, user, sessionId)) ==> r == Err(SessionAccessDenied)
    ensures old(Owns(db.scanSessions, user, sessionId) && db.scanSessions[sessionId].status != Active) ==>
              r == Err(SessionNotActive)
    ensures r.Err? ==>
              && db.scanSessions == old(db.scanSessions)
              && db.stockLevels == old(db.stockLevels)
              && db.stockMovements == old(db.stockMovements)
    ensures r.Ok? ==>
              var session := old(db.scanSessions[sessionId]);
              var k := (session.productId, session.locationId);
              var prev := Quantity(old(db.stockLevels), k);
              && old(Owns(db.scanSessions, user, sessionId))
              && session.status == Active
              && r.value == (session.productId, session.totalScanned)
              && db.scanSessions == old(db.scanSessions)[sessionId := session.(status := Completed, completedAt := Some(now))]
              && (session.totalScanned > 0 ==>
                    && db.stockLevels == Upsert(old(db.stockLevels), k, prev + session.totalScanned, now)
                    && Quantity(db.stockLevels, k) == prev + session.totalScanned
                    && db.stockMovements == old(db.stockMovements) +
                         [Entry(k, Inbound, session.totalScanned, prev, Some("Bulk Barcode Scan"),
                                Some("Bulk scan session with " + Decimal.NatToString(session.totalScanned)
                                     + " items"),
                                None, user, now)])
              && (session.totalScanned == 0 ==>
                    db.stockLevels == old(db.stockLevels) && db.stockMovements == old(db.stockMovements))
              && (forall k' :: k' != k ==> Quantity(db.stockLevels, k') == Quantity(old(db.stockLevels), k'))
    ensures db.barcodeScans == old(db.barcodeScans)
    ensures db.products == old(db.products) && db.locations == old(db.locations)
  {
    if !Owns(db.scanSessions, user, sessionId) {
      return Err(SessionAccessDenied);
    }
    var session := db.scanSessions[sessionId];
    if session.status != Active {
      return Err(SessionNotActive);
    }
    var total: nat := session.totalScanned;
    if total > 0 {
      var _, _ := db.RecordMovement((session.productId, session.locationId), Inbound, total,
                                    Some("Bulk Barcode Scan"),
                                    Some("Bulk scan session with " + Decimal.NatToString(total) + " items"),
                                    None, user, now);
    }
    ClosePreserves(db.scanSessions, db.barcodeScans, sessionId, Completed, now);
    db.scanSessions := db.scanSessions[sessionId := session.(status := Completed, completedAt := Some(now))];
    r := Ok((session.productId, total));
  }

  /** `cancelBulkScanSession`: on an owned session in ANY status, mark it cancelled. Stock and
      the ledger are never touched, so scanned units are discarded, and a completed session's
      receipt stays recorded. */
  method CancelBulkScanSession(db: Db, user: UserId, sessionId: SessionId, now: Timestamp)
    returns (r: Result<()>)
    requires db.Valid()
    modifies db
    ensures db.Valid()
    ensures r.Err? <==> !old(Owns(db.scanSessions, user, sessionId))
    ensures r.Err? ==> r.error == SessionAccessDenied && db.scanSessions == old(db.scanSessions)
    ensures r.Ok? ==>
              db.scanSessions == old(db.scanSessions)[sessionId :=
                old(db.scanSessions[sessionId]).(status := Cancelled, completedAt := Some(now))]
    ensures db.stockLevels == old(db.stockLevels) && db.stockMovements == old(db.stockMovements)
    ensures db.barcodeScans == old(db.barcodeScans)
    ensures db.products == old(db.products) && db.locations == old(db.locations)
  {
    if !Owns(db.scanSessions, user, sessionId) {
      return Err(SessionAccessDenied);
    }
    var session := db.scanSessions[sessionId];
    ClosePreserves(db.scanSessions, db.barcodeScans, sessionId, Cancelled, now);
    db.scanSessions := db.scanSessions[sessionId := session.(status := Cancelled, completedAt := Some(now))];
    r := Ok(());
  }
}
