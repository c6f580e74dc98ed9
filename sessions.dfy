/** The scan-session state machine's invariants over the scanSessions and barcodeScans
    tables: the running counter matches the scan rows, and each user holds at most one
    active session. */
module Sessions {
  import opened Schema

  /** The number of scan rows that belong to session `s`. */
  function CountScans(scans: seq<BarcodeScan>, s: SessionId): nat
  {
    if |scans| == 0 then 0
    else CountScans(scans[..|scans| - 1], s) + (if scans[|scans| - 1].sessionId == s then 1 else 0)
  }

  /** The barcodes of session `s`, in insertion order (the by_session index in ascending order). */
  function SessionBarcodes(scans: seq<BarcodeScan>, s: SessionId): seq<string>
  {
    if |scans| == 0 then []
    else
      SessionBarcodes(scans[..|scans| - 1], s)
      + (if scans[|scans| - 1].sessionId == s then [scans[|scans| - 1].barcode] else [])
  }

  /** A session lists exactly as many barcodes as it has scan rows. */
  lemma {:induction false} BarcodesMatchCount(scans: seq<BarcodeScan>, s: SessionId)
    ensures |SessionBarcodes(scans, s)| == CountScans(scans, s)
  {
    if |scans| > 0 {
      BarcodesMatchCount(scans[..|scans| - 1], s);
    }
  }

  /** Counting and listing distribute over appending rows. */
  lemma {:induction false} ScansAppend(a: seq<BarcodeScan>, b: seq<BarcodeScan>, s: SessionId)
    ensures CountScans(a + b, s) == CountScans(a, s) + CountScans(b, s)
    ensures SessionBarcodes(a + b, s) == SessionBarcodes(a, s) + SessionBarcodes(b, s)
  {
    if |b| > 0 {
      assert (a + b)[..|a + b| - 1] == a + b[..|b| - 1];
      ScansAppend(a, b[..|b| - 1], s);
    } else {
      assert a + b == a;
    }
  }

  /** A batch of rows all belonging to `s` counts and lists every row for `s`, none for others. */
  lemma {:induction false} BatchScans(batch: seq<BarcodeScan>, s: SessionId, other: SessionId)
    requires forall j :: 0 <= j < |batch| ==> batch[j].sessionId == s
    requires other != s
    ensures CountScans(batch, s) == |batch|
    ensures SessionBarcodes(batch, s) == seq(|batch|, j requires 0 <= j < |batch| => batch[j].barcode)
    ensures CountScans(batch, other) == 0
  {
    if |batch| > 0 {
      BatchScans(batch[..|batch| - 1], s, other);
    }
  }

  /** A session that no row refers to has no scans. */
  lemma {:induction false} NoScansOfUnusedSession(scans: seq<BarcodeScan>, s: SessionId)
    requires forall j :: 0 <= j < |scans| ==> scans[j].sessionId != s
    ensures CountScans(scans, s) == 0 && SessionBarcodes(scans, s) == []
  {
    if |scans| > 0 {
      NoScansOfUnusedSession(scans[..|scans| - 1], s);
    }
  }

  predicate IsActiveOf(session: ScanSession, user: UserId) {
    session.status == Active && session.createdBy == user
  }

  /** The first active session created by `user` (the by_status index filtered by owner). */
  function ActiveSessionOf(sessions: seq<ScanSession>, user: UserId): (r: Option<SessionId>)
    ensures r.Some? ==> r.value < |sessions| && IsActiveOf(sessions[r.value], user)
    ensures r.None? <==> forall s :: 0 <= s < |sessions| ==> !IsActiveOf(sessions[s], user)
  {
    if |sessions| == 0 then None
    else
      match ActiveSessionOf(sessions[..|sessions| - 1], user)
      case Some(s) => Some(s)
      case None =>
        if IsActiveOf(sessions[|sessions| - 1], user) then Some(|sessions| - 1) else None
  }

  ghost predicate AtMostOneActive(sessions: seq<ScanSession>) {
    forall s, t :: 0 <= s < t < |sessions| && sessions[s].status == Active && sessions[t].status == Active
      ==> sessions[s].createdBy != sessions[t].createdBy
  }

  /** Every scan row refers to an existing session, every session's counter equals its number
      of scan rows, and no user holds two active sessions. */
  ghost predicate SessionsOk(sessions: seq<ScanSession>, scans: seq<BarcodeScan>) {
    && (forall j :: 0 <= j < |scans| ==> scans[j].sessionId < |sessions|)
    && (forall s :: 0 <= s < |sessions| ==> sessions[s].totalScanned == CountScans(scans, s))
    && AtMostOneActive(sessions)
  }

  /** With at most one active session per user, the lookup finds exactly that session. */
  lemma ActiveSessionIsUnique(sessions: seq<ScanSession>, user: UserId, s: SessionId)
    requires AtMostOneActive(sessions)
    ensures ActiveSessionOf(sessions, user) == Some(s) <==> s < |sessions| && IsActiveOf(sessions[s], user)
  {
    var r := ActiveSessionOf(sessions, user);
    if s < |sessions| && IsActiveOf(sessions[s], user) {
      assert r.Some?;
    }
  }

  /** Opening an active session for a user who has none keeps the invariant. */
  lemma OpenPreserves(sessions: seq<ScanSession>, scans: seq<BarcodeScan>, added: ScanSession)
    requires SessionsOk(sessions, scans)
    requires added.totalScanned == 0
    requires added.status == Active ==> ActiveSessionOf(sessions, added.createdBy).None?
    ensures SessionsOk(sessions + [added], scans)
  {
    NoScansOfUnusedSession(scans, |sessions|);
  }

  /** Recording one scan for a session and bumping its counter keeps the invariant. */
  lemma ScanPreserves(sessions: seq<ScanSession>, scans: seq<BarcodeScan>, s: SessionId,
                      barcode: string, now: Timestamp)
    requires SessionsOk(sessions, scans)
    requires s < |sessions|
    ensures SessionsOk(sessions[s := sessions[s].(totalScanned := sessions[s].totalScanned + 1)],
                       scans + [BarcodeScan(s, barcode, now)])
  {
    forall t | 0 <= t < |sessions| {
      ScansAppend(scans, [BarcodeScan(s, barcode, now)], t);
    }
  }

  /** Moving a session to a terminal status keeps the invariant. */
  lemma ClosePreserves(sessions: seq<ScanSession>, scans: seq<BarcodeScan>, s: SessionId,
                       status: SessionStatus, now: Timestamp)
    requires SessionsOk(sessions, scans)
    requires s < |sessions| && status != Active
    ensures SessionsOk(sessions[s := sessions[s].(status := status, completedAt := Some(now))], scans)
  {
  }

  /** Adding a session together with a batch of scan rows that all belong to it, with the
      counter set to the batch size, keeps the invariant. */
  lemma BatchPreserves(sessions: seq<ScanSession>, scans: seq<BarcodeScan>, added: ScanSession,
                       batch: seq<BarcodeScan>)
    requires SessionsOk(sessions, scans)
    requires added.status != Active && added.totalScanned == |batch|
    requires forall j :: 0 <= j < |batch| ==> batch[j].sessionId == |sessions|
    ensures SessionsOk(sessions + [added], scans + batch)
  {
    NoScansOfUnusedSession(scans, |sessions|);
    forall t | 0 <= t <= |sessions|
      ensures CountScans(scans + batch, t) == (sessions + [added])[t].totalScanned
    {
      ScansAppend(scans, batch, t);
      BatchScans(batch, |sessions|, if t == |sessions| then t + 1 else t);
    }
  }
}
