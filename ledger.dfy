/** The stock-ledger rule: how a movement changes a quantity, the fold of the ledger that
    every stock level must equal, and the keyed stock-level table that caches it. */
module Ledger {
  import opened Schema

  /** The new quantity after a movement of type `t` and amount `q` on quantity `prev`
      (convex/stock.ts:71-83): receipts add, withdrawals subtract and floor at zero,
      an adjustment sets the quantity outright. */
  function Apply(t: MovementType, prev: int, q: int): (r: int)
    ensures (t == Outbound || t == TransferOut) ==> r >= 0 && (q >= prev ==> r == 0)
    ensures prev >= 0 && q >= 0 ==> r >= 0
    ensures (t == Inbound || t == TransferIn) && q >= 0 ==> r >= prev
    ensures (t == Outbound || t == TransferOut) && q >= 0 && prev >= 0 ==> r <= prev
  {
    match t
    case Inbound | TransferIn => prev + q
    case Outbound | TransferOut => if prev - q > 0 then prev - q else 0
    case Adjustment => q
  }

  /** A receipt followed by a withdrawal of the same amount restores the quantity. */
  lemma ReceiveThenShip(t: MovementType, u: MovementType, prev: int, q: int)
    requires t == Inbound || t == TransferIn
    requires u == Outbound || u == TransferOut
    requires prev >= 0 && q >= 0
    ensures Apply(u, Apply(t, prev, q), q) == prev
  {
  }

  /** A withdrawal that the stock covers is undone by a receipt of the same amount. */
  lemma ShipThenReceive(t: MovementType, u: MovementType, prev: int, q: int)
    requires t == Outbound || t == TransferOut
    requires u == Inbound || u == TransferIn
    requires 0 <= q <= prev
    ensures Apply(u, Apply(t, prev, q), q) == prev
  {
  }

  /** An adjustment does not depend on the quantity it overrides, and repeating it changes nothing. */
  lemma AdjustmentOverrides(p1: int, p2: int, q: int)
    ensures Apply(Adjustment, p1, q) == Apply(Adjustment, p2, q) == q
    ensures Apply(Adjustment, Apply(Adjustment, p1, q), q) == Apply(Adjustment, p1, q)
  {
  }

  function Key(m: StockMovement): Pair {
    (m.productId, m.locationId)
  }

  /** The quantity of pair `k` obtained by replaying the ledger `ms` in creation order
      from 0, applying only the entries of that pair. */
  function Replay(ms: seq<StockMovement>, k: Pair): int
  {
    if |ms| == 0 then 0
    else
      var last := ms[|ms| - 1];
      var before := Replay(ms[..|ms| - 1], k);
      if Key(last) == k then Apply(last.movementType, before, last.quantity) else before
  }

  /** Every entry recorded, at the instant of writing, the replayed quantity of its pair as
      previousQuantity, and the rule applied to it as newQuantity. */
  ghost predicate WellFormedLedger(ms: seq<StockMovement>) {
    forall i :: 0 <= i < |ms| ==>
      && ms[i].previousQuantity == Replay(ms[..i], Key(ms[i]))
      && ms[i].newQuantity == Apply(ms[i].movementType, ms[i].previousQuantity, ms[i].quantity)
  }

  /** Entries of other pairs do not affect the replay of `k`. */
  lemma {:induction false} ReplaySkips(ms: seq<StockMovement>, k: Pair, a: nat, b: nat)
    requires a <= b <= |ms|
    requires forall t :: a <= t < b ==> Key(ms[t]) != k
    ensures Replay(ms[..b], k) == Replay(ms[..a], k)
  {
    if a < b {
      assert ms[..b][..b - 1] == ms[..b - 1];
      ReplaySkips(ms, k, a, b - 1);
    }
  }

  /** Replaying up to and including entry `j` yields that entry's newQuantity. */
  lemma ReplayThrough(ms: seq<StockMovement>, j: nat)
    requires WellFormedLedger(ms)
    requires j < |ms|
    ensures Replay(ms[..j + 1], Key(ms[j])) == ms[j].newQuantity
  {
    assert ms[..j + 1][..j] == ms[..j];
  }

  /** The chain: an entry's previousQuantity is the newQuantity of the previous entry of the
      same pair. */
  lemma ChainLinksToPrevious(ms: seq<StockMovement>, j: nat, i: nat)
    requires WellFormedLedger(ms)
    requires j < i < |ms| && Key(ms[j]) == Key(ms[i])
    requires forall t :: j < t < i ==> Key(ms[t]) != Key(ms[i])
    ensures ms[i].previousQuantity == ms[j].newQuantity
  {
    ReplaySkips(ms, Key(ms[i]), j + 1, i);
    ReplayThrough(ms, j);
  }

  /** The chain starts at zero: the first entry of a pair has previousQuantity 0. */
  lemma FirstEntryStartsAtZero(ms: seq<StockMovement>, i: nat)
    requires WellFormedLedger(ms)
    requires i < |ms|
    requires forall t :: 0 <= t < i ==> Key(ms[t]) != Key(ms[i])
    ensures ms[i].previousQuantity == 0
  {
    ReplaySkips(ms, Key(ms[i]), 0, i);
  }

  /** The replay of a pair is the newQuantity of the pair's last entry. */
  lemma ReplayIsLastNewQuantity(ms: seq<StockMovement>, k: Pair, i: nat)
    requires WellFormedLedger(ms)
    requires i < |ms| && Key(ms[i]) == k
    requires forall t :: i < t < |ms| ==> Key(ms[t]) != k
    ensures Replay(ms, k) == ms[i].newQuantity
  {
    ReplaySkips(ms, k, i + 1, |ms|);
    assert ms[..|ms|] == ms;
    ReplayThrough(ms, i);
  }

  /** A pair with no entries replays to 0. */
  lemma ReplayOfUntouchedPair(ms: seq<StockMovement>, k: Pair)
    requires forall t :: 0 <= t < |ms| ==> Key(ms[t]) != k
    ensures Replay(ms, k) == 0
  {
    ReplaySkips(ms, k, 0, |ms|);
    assert ms[..|ms|] == ms;
  }

  /** Floor invariant: when no entry carries a negative amount, no pair ever replays to a
      negative quantity. */
  lemma {:induction false} ReplayNonNegative(ms: seq<StockMovement>, k: Pair)
    requires forall t :: 0 <= t < |ms| ==> ms[t].quantity >= 0
    ensures Replay(ms, k) >= 0
  {
    if |ms| > 0 {
      ReplayNonNegative(ms[..|ms| - 1], k);
    }
  }

  /** Appending one entry changes only the replay of that entry's pair. */
  lemma ReplayAppend(ms: seq<StockMovement>, m: StockMovement, k: Pair)
    ensures Replay(ms + [m], k) ==
      if Key(m) == k then Apply(m.movementType, Replay(ms, k), m.quantity) else Replay(ms, k)
  {
    assert (ms + [m])[..|ms|] == ms;
  }

  // ---------------------------------------------------------------------------
  // The stockLevels table, looked up through its by_product_location index.

  function PairOf(row: StockLevel): Pair {
    (row.productId, row.locationId)
  }

  /** The index of the first row for pair `k`, if any. */
  function FindRow(rows: seq<StockLevel>, k: Pair): (r: Option<nat>)
    ensures r.Some? ==> r.value < |rows| && PairOf(rows[r.value]) == k
    ensures r.Some? ==> forall j :: 0 <= j < r.value ==> PairOf(rows[j]) != k
    ensures r.None? <==> forall j :: 0 <= j < |rows| ==> PairOf(rows[j]) != k
  {
    if |rows| == 0 then None
    else if PairOf(rows[0]) == k then Some(0)
    else
      match FindRow(rows[1..], k)
      case None => None
      case Some(j) => Some(j + 1)
  }

  ghost predicate PairsUnique(rows: seq<StockLevel>) {
    forall i, j :: 0 <= i < j < |rows| ==> PairOf(rows[i]) != PairOf(rows[j])
  }

  /** The quantity read for pair `k`: the row's quantity, or 0 when the pair has no row
      (convex/stock.ts:60-67). */
  function Quantity(rows: seq<StockLevel>, k: Pair): (q: int)
    ensures (forall j :: 0 <= j < |rows| ==> PairOf(rows[j]) != k) ==> q == 0
    ensures PairsUnique(rows) ==>
      forall j :: 0 <= j < |rows| && PairOf(rows[j]) == k ==> q == rows[j].quantity
  {
    match FindRow(rows, k)
    case Some(j) => rows[j].quantity
    case None => 0
  }

  /** The write half of the read-modify-write: patch quantity and updatedAt of the pair's row,
      or insert a row with reservedQuantity 0 (convex/stock.ts:86-99). */
  function Upsert(rows: seq<StockLevel>, k: Pair, q: int, now: Timestamp): seq<StockLevel>
  {
    match FindRow(rows, k)
    case Some(j) => rows[j := rows[j].(quantity := q, updatedAt := now)]
    case None => rows + [StockLevel(k.0, k.1, q, 0, now)]
  }

  /** Two tables whose rows have the same pairs in the same order answer every lookup alike. */
  lemma FindRowSamePairs(a: seq<StockLevel>, b: seq<StockLevel>, k: Pair)
    requires |a| == |b|
    requires forall j :: 0 <= j < |a| ==> PairOf(a[j]) == PairOf(b[j])
    ensures FindRow(a, k) == FindRow(b, k)
  {
  }

  /** Appending a row leaves every earlier lookup as it was and makes its own pair findable. */
  lemma FindRowAppend(rows: seq<StockLevel>, row: StockLevel, k: Pair)
    ensures FindRow(rows + [row], k) ==
      if FindRow(rows, k).Some? then FindRow(rows, k)
      else if PairOf(row) == k then Some(|rows|)
      else None
  {
    var a := rows + [row];
    assert forall j :: 0 <= j < |rows| ==> a[j] == rows[j];
    assert a[|rows|] == row;
  }

  /** After an upsert the pair reads the written quantity, every other pair reads as before,
      the pair has a row, rows keep their pair and reservedQuantity, and pairs stay unique. */
  lemma UpsertEffect(rows: seq<StockLevel>, k: Pair, q: int, now: Timestamp)
    ensures var r := Upsert(rows, k, q, now);
      && FindRow(r, k).Some?
      && Quantity(r, k) == q
      && (forall k' :: k' != k ==> FindRow(r, k') == FindRow(rows, k') && Quantity(r, k') == Quantity(rows, k'))
      && |rows| <= |r| <= |rows| + 1
      && (forall j :: 0 <= j < |rows| ==>
            PairOf(r[j]) == PairOf(rows[j]) && r[j].reservedQuantity == rows[j].reservedQuantity)
      && (forall j :: |rows| <= j < |r| ==> r[j] == StockLevel(k.0, k.1, q, 0, now))
      && (FindRow(rows, k).Some? ==> |r| == |rows|)
      && (PairsUnique(rows) ==> PairsUnique(r))
  {
    var r := Upsert(rows, k, q, now);
    match FindRow(rows, k)
    case Some(j) =>
      forall k' ensures FindRow(r, k') == FindRow(rows, k') {
        FindRowSamePairs(r, rows, k');
      }
    case None =>
      forall k' ensures FindRow(r, k') == if k' == k then Some(|rows|) else FindRow(rows, k') {
        FindRowAppend(rows, StockLevel(k.0, k.1, q, 0, now), k');
      }
  }

  /** The total quantity of product `p` summed over all its stock levels. */
  function TotalStock(rows: seq<StockLevel>, p: ProductId): int
  {
    if |rows| == 0 then 0 else TotalStock(rows[..|rows| - 1], p) + Share(rows[|rows| - 1], p)
  }

  /** What one row adds to product `p`'s total. */
  function Share(row: StockLevel, p: ProductId): int {
    if row.productId == p then row.quantity else 0
  }

  /** Overwriting one row changes a product's total by the difference of the row's shares. */
  lemma {:induction false} TotalStockPatch(rows: seq<StockLevel>, i: nat, row: StockLevel, p: ProductId)
    requires i < |rows|
    ensures TotalStock(rows[i := row], p) == TotalStock(rows, p) - Share(rows[i], p) + Share(row, p)
  {
    var n := |rows|;
    if i == n - 1 {
      assert rows[i := row][..n - 1] == rows[..n - 1];
    } else {
      assert rows[i := row][..n - 1] == rows[..n - 1][i := row];
      TotalStockPatch(rows[..n - 1], i, row, p);
    }
  }

  /** An upsert of pair `k` moves product k.0's total by the change of that pair's quantity and
      leaves every other product's total alone. */
  lemma UpsertTotal(rows: seq<StockLevel>, k: Pair, q: int, now: Timestamp, p: ProductId)
    requires PairsUnique(rows)
    ensures TotalStock(Upsert(rows, k, q, now), p)
            == TotalStock(rows, p) + (if p == k.0 then q - Quantity(rows, k) else 0)
  {
    match FindRow(rows, k)
    case Some(j) =>
      TotalStockPatch(rows, j, rows[j].(quantity := q, updatedAt := now), p);
    case None =>
      var row := StockLevel(k.0, k.1, q, 0, now);
      assert (rows + [row])[..|rows|] == rows;
  }

  // ---------------------------------------------------------------------------
  // The ledger invariant tying the two tables together.

  /** Stock levels are a cache of the ledger: pairs are unique, every row's quantity is the
      replay of its pair, reservedQuantity is never set by a movement, and every pair that has
      an entry has a row. */
  ghost predicate LedgerOk(rows: seq<StockLevel>, ms: seq<StockMovement>) {
    && PairsUnique(rows)
    && WellFormedLedger(ms)
    && (forall j :: 0 <= j < |rows| ==>
          rows[j].quantity == Replay(ms, PairOf(rows[j])) && rows[j].reservedQuantity == 0)
    && (forall i :: 0 <= i < |ms| ==> FindRow(rows, Key(ms[i])).Some?)
  }

  /** The headline invariant: the snapshot of every pair equals the fold of its ledger entries. */
  lemma SnapshotIsReplay(rows: seq<StockLevel>, ms: seq<StockMovement>, k: Pair)
    requires LedgerOk(rows, ms)
    ensures Quantity(rows, k) == Replay(ms, k)
  {
    if FindRow(rows, k).None? {
      forall t | 0 <= t < |ms| ensures Key(ms[t]) != k {
        assert FindRow(rows, Key(ms[t])).Some?;
      }
      ReplayOfUntouchedPair(ms, k);
    }
  }

  /** The stock level of a pair equals the newQuantity of the pair's last ledger entry. */
  lemma SnapshotIsLastEntry(rows: seq<StockLevel>, ms: seq<StockMovement>, i: nat)
    requires LedgerOk(rows, ms)
    requires i < |ms|
    requires forall t :: i < t < |ms| ==> Key(ms[t]) != Key(ms[i])
    ensures Quantity(rows, Key(ms[i])) == ms[i].newQuantity
  {
    SnapshotIsReplay(rows, ms, Key(ms[i]));
    ReplayIsLastNewQuantity(ms, Key(ms[i]), i);
  }

  /** The entry a writer appends for pair `k`. */
  function Entry(k: Pair, t: MovementType, q: int, prev: int, reference: Option<string>,
                 notes: Option<string>, transferTo: Option<LocationId>, user: UserId,
                 now: Timestamp): StockMovement
  {
    StockMovement(k.0, k.1, t, q, prev, Apply(t, prev, q), reference, notes, transferTo, user, now)
  }

  /** An entry that records its pair's current replay as previousQuantity, and the rule's result
      as newQuantity, extends a well-formed ledger. */
  lemma AppendKeepsWellFormed(ms: seq<StockMovement>, m: StockMovement)
    requires WellFormedLedger(ms)
    requires m.previousQuantity == Replay(ms, Key(m))
    requires m.newQuantity == Apply(m.movementType, m.previousQuantity, m.quantity)
    ensures WellFormedLedger(ms + [m])
  {
    var ms' := ms + [m];
    forall i | 0 <= i < |ms'|
      ensures ms'[i].previousQuantity == Replay(ms'[..i], Key(ms'[i]))
      ensures ms'[i].newQuantity == Apply(ms'[i].movementType, ms'[i].previousQuantity, ms'[i].quantity)
    {
      if i < |ms| {
        assert ms'[..i] == ms[..i];
      } else {
        assert ms'[..i] == ms;
      }
    }
  }

  /** One read-modify-write (read the pair, apply the rule, upsert the row, append the entry)
      preserves the ledger invariant, whatever the metadata. */
  lemma RecordPreservesLedger(rows: seq<StockLevel>, ms: seq<StockMovement>, k: Pair,
                              t: MovementType, q: int, reference: Option<string>,
                              notes: Option<string>, transferTo: Option<LocationId>,
                              user: UserId, now: Timestamp)
    requires LedgerOk(rows, ms)
    ensures var prev := Quantity(rows, k);
      LedgerOk(Upsert(rows, k, Apply(t, prev, q), now),
               ms + [Entry(k, t, q, prev, reference, notes, transferTo, user, now)])
  {
    var prev := Quantity(rows, k);
    var next := Apply(t, prev, q);
    var m := Entry(k, t, q, prev, reference, notes, transferTo, user, now);
    var rows', ms' := Upsert(rows, k, next, now), ms + [m];
    UpsertEffect(rows, k, next, now);
    SnapshotIsReplay(rows, ms, k);
    forall k' ensures Replay(ms', k') == if k' == k then next else Replay(ms, k') {
      ReplayAppend(ms, m, k');
    }
    AppendKeepsWellFormed(ms, m);
    forall j | 0 <= j < |rows'|
      ensures rows'[j].quantity == Replay(ms', PairOf(rows'[j])) && rows'[j].reservedQuantity == 0
    {
      if j < |rows| && PairOf(rows[j]) != k {
        assert rows'[j] == rows[j];
      } else if j < |rows| {
        assert FindRow(rows, k) == Some(j);
      }
    }
    forall i | 0 <= i < |ms'| ensures FindRow(rows', Key(ms'[i])).Some? {
      if i < |ms| && Key(ms[i]) != k {
        assert FindRow(rows, Key(ms[i])).Some?;
      }
    }
  }
}
