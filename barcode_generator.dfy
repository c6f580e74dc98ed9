/** convex/barcodeGenerator.ts: batch generation of printable barcodes for a product, recorded
    as an already-completed scan session whose units are received into stock at once. */
module BarcodeGenerator {
  import opened Schema
  import opened Ledger
  import opened Sessions
  import opened Database
  import opened Decimal

  /** The largest batch `generateBarcodes` accepts. */
  const MaxBatch := 1000

  /** `String(i + 1).padStart(4, '0')`: the 1-based sequence number of barcode `i`. */
  function SequenceField(i: nat): string {
    PadStart(NatToString(i + 1), 4, '0')
  }

  /** Barcode `i` of a batch: the SKU followed by the last eight characters of the clock
      reading and the sequence field written one after the other. */
  function BarcodeAt(sku: string, timestamp: nat, i: nat): string {
    sku + TakeLast(NatToString(timestamp) + SequenceField(i), 8)
  }

  /** The batch of `q` barcodes, in sequence order. */
  function Batch(sku: string, timestamp: nat, q: nat): (bs: seq<string>)
    ensures |bs| == q
  {
    seq(q, i requires 0 <= i < q => BarcodeAt(sku, timestamp, i))
  }

  /** Below 9999 the sequence field is exactly four digits and reads back as `i + 1`. */
  lemma SequenceFieldShape(i: nat)
    requires i < 9999
    ensures var f := SequenceField(i);
      && |f| == 4
      && (forall j :: 0 <= j < 4 ==> IsDigit(f[j]))
      && ParseDigits(f) == i + 1
  {
    var s := NatToString(i + 1);
    NatToStringFits(i + 1, 4);
    ParseNatToString(i + 1);
    if |s| < 4 {
      ParseIgnoresLeadingZeros(Repeat('0', 4 - |s|), s);
    }
  }

  /** Every barcode starts with the SKU and ends with its own four-character sequence field. */
  lemma BarcodeShape(sku: string, timestamp: nat, i: nat)
    requires i < 9999
    ensures var b := BarcodeAt(sku, timestamp, i);
      && |sku| + 4 <= |b| <= |sku| + 8
      && b[..|sku|] == sku
      && b[|b| - 4..] == SequenceField(i)
  {
    SequenceFieldShape(i);
    var u := NatToString(timestamp) + SequenceField(i);
    var t := TakeLast(u, 8);
    assert t[|t| - 4..] == u[|u| - 4..];
    assert u[|u| - 4..] == SequenceField(i);
    var b := BarcodeAt(sku, timestamp, i);
    assert b == sku + t;
    assert b[|b| - 4..] == t[|t| - 4..];
  }

  /** Two positions of one batch never produce the same barcode. */
  lemma BarcodesDistinct(sku: string, timestamp: nat, i: nat, j: nat)
    requires i < 9999 && j < 9999 && i != j
    ensures BarcodeAt(sku, timestamp, i) != BarcodeAt(sku, timestamp, j)
  {
    SequenceFieldShape(i);
    SequenceFieldShape(j);
    assert SequenceField(i) != SequenceField(j);
    BarcodeShape(sku, timestamp, i);
    BarcodeShape(sku, timestamp, j);
    var a, b := BarcodeAt(sku, timestamp, i), BarcodeAt(sku, timestamp, j);
    assert a[|a| - 4..] != b[|b| - 4..];
  }

  /** In a batch of at most 1000 no barcode repeats. */
  lemma BatchDistinct(sku: string, timestamp: nat, q: nat)
    requires q <= MaxBatch
    ensures var bs := Batch(sku, timestamp, q);
      forall i, j :: 0 <= i < j < q ==> bs[i] != bs[j]
  {
    var bs := Batch(sku, timestamp, q);
    forall i, j | 0 <= i < j < q ensures bs[i] != bs[j] {
      BarcodesDistinct(sku, timestamp, i, j);
    }
  }

  /** In a batch of at most 1000 every barcode starts with the SKU and its last four
      characters read back as its 1-based sequence number. */
  lemma BatchPositions(sku: string, timestamp: nat, q: nat)
    requires q <= MaxBatch
    ensures var bs := Batch(sku, timestamp, q);
      forall i :: 0 <= i < q ==>
        |bs[i]| >= |sku| + 4 && bs[i][..|sku|] == sku && ParseDigits(bs[i][|bs[i]| - 4..]) == i + 1
  {
    var bs := Batch(sku, timestamp, q);
    forall i | 0 <= i < q
      ensures |bs[i]| >= |sku| + 4 && bs[i][..|sku|] == sku && ParseDigits(bs[i][|bs[i]| - 4..]) == i + 1
    {
      BarcodeShape(sku, timestamp, i);
      SequenceFieldShape(i);
    }
  }

  /** The generation loop: push barcode 0, 1, ..., q - 1. */
  method BuildBarcodes(sku: string, timestamp: nat, q: nat) returns (barcodes: seq<string>)
    ensures barcodes == Batch(sku, timestamp, q)
  {
    barcodes := [];
    for i := 0 to q
      invariant barcodes == Batch(sku, timestamp, i)
    {
      var sequence := SequenceField(i);
      var uniqueId := NatToString(timestamp) + sequence;
      barcodes := barcodes + [sku + TakeLast(uniqueId, 8)];
    }
  }

  /** The scan rows recorded for a batch, all linked to session `sid`. */
  function ScanRows(sid: SessionId, barcodes: seq<string>, now: Timestamp): (rows: seq<BarcodeScan>)
    ensures |rows| == |barcodes|
    ensures forall j :: 0 <= j < |rows| ==> rows[j].sessionId == sid && rows[j].barcode == barcodes[j]
  {
    seq(|barcodes|, j requires 0 <= j < |barcodes| => BarcodeScan(sid, barcodes[j], now))
  }

  /** Appending a batch for a session no earlier row refers to lists exactly that batch. */
  lemma BatchListing(scans: seq<BarcodeScan>, sid: SessionId, barcodes: seq<string>, now: Timestamp)
    requires forall j :: 0 <= j < |scans| ==> scans[j].sessionId < sid
    ensures SessionBarcodes(scans + ScanRows(sid, barcodes, now), sid) == barcodes
  {
    var rows := ScanRows(sid, barcodes, now);
    NoScansOfUnusedSession(scans, sid);
    ScansAppend(scans, rows, sid);
    BatchScans(rows, sid, sid + 1);
    assert SessionBarcodes(rows, sid) == barcodes;
  }

  /** `getGeneratedBarcodes`: the barcodes of a session in insertion order. */
  function GetGeneratedBarcodes(sessions: seq<ScanSession>, scans: seq<BarcodeScan>, sid: SessionId)
    : (r: Result<seq<string>>)
    ensures r.Err? <==> sid >= |sessions|
    ensures r.Err? ==> r.error == SessionNotFound
    ensures r.Ok? && SessionsOk(sessions, scans) ==> |r.value| == sessions[sid].totalScanned
  {
    if sid < |sessions| then
      BarcodesMatchCount(scans, sid);
      Ok(SessionBarcodes(scans, sid))
    else
      Err(SessionNotFound)
  }

  /** The session half of `generateBarcodes`: insert one already-completed session whose
      counter is the batch size, then one scan row per barcode linked to it. */
  method RecordBatchSession(db: Db, user: UserId, productId: ProductId, locationId: LocationId,
                            barcodes: seq<string>, now: Timestamp)
    returns (sid: SessionId)
    requires db.Valid()
    modifies db
    ensures db.Valid()
    ensures sid == |old(db.scanSessions)|
    ensures db.scanSessions == old(db.scanSessions) +
              [ScanSession(productId, locationId, Completed, |barcodes|, user, now, Some(now))]
    ensures db.barcodeScans == old(db.barcodeScans) + ScanRows(sid, barcodes, now)
    ensures GetGeneratedBarcodes(db.scanSessions, db.barcodeScans, sid) == Ok(barcodes)
    ensures db.products == old(db.products) && db.locations == old(db.locations)
    ensures db.stockLevels == old(db.stockLevels) && db.stockMovements == old(db.stockMovements)
  {
    sid := |db.scanSessions|;
    var session := ScanSession(productId, locationId, Completed, |barcodes|, user, now, Some(now));
    var rows := ScanRows(sid, barcodes, now);
    BatchPreserves(db.scanSessions, db.barcodeScans, session, rows);
    BatchListing(db.barcodeScans, sid, barcodes, now);
    db.scanSessions := db.scanSessions + [session];
    db.barcodeScans := db.barcodeScans + rows;
  }

  /** `generateBarcodes`: check the batch size, the product and the location, in that order,
      before any write; then record a completed session holding one scan row per barcode and
      receive the whole batch into stock with one inbound movement. */
  method GenerateBarcodes(db: Db, user: UserId, productId: ProductId, locationId: LocationId,
                          quantity: int, now: Timestamp)
    returns (r: Result<(SessionId, seq<string>)>)
    requires db.Valid()
    modifies db
    ensures db.Valid()
    ensures r.Ok? <==> 0 < quantity <= MaxBatch && productId < |old(db.products)| && locationId in old(db.locations)
    ensures quantity <= 0 || quantity > MaxBatch ==> r == Err(QuantityOutOfRange)
    ensures 0 < quantity <= MaxBatch && productId >= |old(db.products)| ==> r == Err(ProductNotFound)
    ensures 0 < quantity <= MaxBatch && productId < |old(db.products)| && locationId !in old(db.locations) ==>
              r == Err(LocationNotFound)
    ensures r.Err? ==>
              && db.scanSessions == old(db.scanSessions) && db.barcodeScans == old(db.barcodeScans)
              && db.stockLevels == old(db.stockLevels) && db.stockMovements == old(db.stockMovements)
    ensures r.Ok? ==>
              && 0 < quantity <= MaxBatch && productId < |db.products| && locationId in db.locations
              && r.value.0 == |old(db.scanSessions)|
              && r.value.1 == Batch(db.products[productId].sku, now, quantity)
    ensures r.Ok? ==>
              && db.scanSessions == old(db.scanSessions) +
                   [ScanSession(productId, locationId, Completed, quantity, user, now, Some(now))]
              && db.barcodeScans == old(db.barcodeScans) + ScanRows(r.value.0, r.value.1, now)
              && GetGeneratedBarcodes(db.scanSessions, db.barcodeScans, r.value.0) == Ok(r.value.1)
    ensures r.Ok? ==>
              var k := (productId, locationId);
              var prev := Quantity(old(db.stockLevels), k);
              && db.stockLevels == Upsert(old(db.stockLevels), k, prev + quantity, now)
              && Quantity(db.stockLevels, k) == prev + quantity
              && (forall k' :: k' != k ==> Quantity(db.stockLevels, k') == Quantity(old(db.stockLevels), k'))
              && db.stockMovements == old(db.stockMovements) +
                   [Entry(k, Inbound, quantity, prev, Some("Barcode Generation"),
                          Some("Generated " + NatToString(quantity) + " unique barcodes"), None, user, now)]
    ensures db.products == old(db.products) && db.locations == old(db.locations)
  {
    if quantity <= 0 || quantity > MaxBatch {
      return Err(QuantityOutOfRange);
    }
    if productId >= |db.products| {
      return Err(ProductNotFound);
    }
    if locationId !in db.locations {
      return Err(LocationNotFound);
    }
    var barcodes := BuildBarcodes(db.products[productId].sku, now, quantity);
    var sid := RecordBatchSession(db, user, productId, locationId, barcodes, now);
    var _, _ := db.RecordMovement((productId, locationId), Inbound, quantity, Some("Barcode Generation"),
                                  Some("Generated " + NatToString(quantity) + " unique barcodes"),
                                  None, user, now);
    r := Ok((sid, barcodes));
  }
}
