/** What every step of the placement protocol keeps. */
module PlacementInvariant {
  import opened Basics
  import opened PlacementRows
  import opened Placement

  /** The copy behind h exists, or was taken away by something other than the replication protocol. */
  predicate Kept(s: State, h: Handle) {
    h in s.copies || h in s.lost || h in s.doomed || h in s.revived
  }

  predicate HandlesKnown(s: State) {
    && (forall h <- s.puts :: h < s.nextHandle)
    && s.copies <= s.puts.Keys && s.lost <= s.puts.Keys
    && s.published <= s.puts.Keys
    && s.doomed <= s.published && s.revived <= s.published
    && forall h <- s.revived :: s.puts[h].role == Primary
  }

  predicate HistoryHonest(s: State) {
    forall b <- s.transports ::
      && s.transports[b].hash.preimage in Accepted(s, b)
      && (s.transports[b].columns.Some? ==>
        var h := s.transports[b].columns.value; h in s.published && h in s.puts && s.puts[h].blob == b)
  }

  /** A row's handle was stored for that row's slot, and holds an accepted upload of its blob. */
  predicate OwnsHandle(s: State, row: Row) {
    row.handle.Some? ==>
      var h := row.handle.value;
      && h in s.published && h in s.puts
      && s.puts[h].blob == row.blob && s.puts[h].role == row.role
      && s.puts[h].bytes in Accepted(s, row.blob)
      && (s.puts[h].origin.ByWorker? ==> s.puts[h].origin.row == row.id)
  }

  predicate RowsOwn(s: State) {
    forall r <- s.rows ::
      && s.rows[r].id == r < s.nextRow
      && s.rows[r].blob in s.transports
      && (s.rows[r].role == Primary ==> s.rows[r].handle.Some?)
      && (s.rows[r].Readable() ==> s.rows[r].handle.Some?)
      && OwnsHandle(s, s.rows[r])
      && (s.rows[r].handle.Some? && s.rows[r].role == Replica ==> s.puts[s.rows[r].handle.value].origin.ByWorker?)
  }

  /** The unique key, and at most one primary row for a blob. */
  predicate SameSlot(a: Row, b: Row) {
    a.blob == b.blob && a.role == b.role && (a.role == Primary || a.provider == b.provider)
  }

  predicate SlotsUnique(s: State) {
    forall a <- s.rows, b <- s.rows :: SameSlot(s.rows[a], s.rows[b]) ==> a == b
  }

  predicate ReadableKept(s: State) {
    forall r <- s.rows :: s.rows[r].Readable() && s.rows[r].handle.Some? ==> Kept(s, s.rows[r].handle.value)
  }

  predicate BeforeDrop(p: Phase) { p.Waiting? || p.Listing? || p.Reading? || p.Dropping? }

  predicate HasBytes(p: Phase) { p.Dropping? || p.Putting? || p.Activating? }

  /** No row that serves reads holds h, unless a health report revived it. */
  predicate SafeToDrop(s: State, h: Handle) {
    forall r <- s.rows :: s.rows[r].Readable() && s.rows[r].handle == Some(h) ==> h in s.revived
  }

  predicate WorkerOk(s: State, w: WorkerId, wk: Worker) {
    && wk.snap.id < s.nextRow
    && (wk.snap.id in s.rows ==>
      SameSlot(s.rows[wk.snap.id], wk.snap) && s.rows[wk.snap.id].provider == wk.snap.provider)
    && wk.hash.preimage in Accepted(s, wk.snap.blob)
    && (wk.snap.handle.Some? ==> wk.snap.handle.value in s.published)
    && (BeforeDrop(wk.phase) && wk.snap.handle.Some? ==> SafeToDrop(s, wk.snap.handle.value))
    && (HasBytes(wk.phase) ==> wk.phase.bytes == wk.hash.preimage)
    && (wk.phase.Activating? || wk.phase.Cleaning? ==> Holds(s, w, wk, wk.phase.written))
    && (wk.phase.Activating? ==> wk.phase.written in s.copies || wk.phase.written in s.lost)
    && (wk.phase.Mirroring? ==>
      var h := wk.phase.written; h in s.published && h in s.puts && s.puts[h].blob == wk.snap.blob)
  }

  /** The worker's own fresh copy, not yet written to any row. */
  predicate Holds(s: State, w: WorkerId, wk: Worker, h: Handle) {
    h in s.puts && h !in s.published
    && s.puts[h] == Put(wk.snap.blob, wk.hash.preimage, wk.snap.role, ByWorker(w, wk.snap.id))
  }

  predicate WorkersOk(s: State) {
    forall w <- s.workers :: WorkerOk(s, w, s.workers[w])
  }

  predicate UploadOk(s: State, u: UploadId, up: Upload) {
    && up.handle in s.puts && up.handle !in s.published
    && s.puts[up.handle] == Put(up.blob, up.bytes, Primary, ByUpload(u))
    && (up.handle in s.copies || up.handle in s.lost)
  }

  predicate UploadsOk(s: State) {
    forall u <- s.uploads :: UploadOk(s, u, s.uploads[u])
  }

  predicate PurgesOk(s: State) {
    forall p <- s.purges :: s.purges[p].targets <= s.doomed
  }

  predicate Inv(s: State) {
    && HandlesKnown(s) && HistoryHonest(s) && RowsOwn(s) && SlotsUnique(s) && ReadableKept(s)
    && WorkersOk(s) && UploadsOk(s) && PurgesOk(s)
  }

  /** t differs from s in ways no worker's knowledge can be hurt by. */
  predicate Evolves(s: State, t: State) {
    && s.nextRow <= t.nextRow && s.puts == t.puts && s.copies == t.copies && s.lost == t.lost
    && s.published <= t.published && s.revived <= t.revived
    && (forall b <- s.accepted :: Accepted(s, b) <= Accepted(t, b))
    && forall r <- t.rows ::
      && (r < s.nextRow ==> r in s.rows && SameSlot(t.rows[r], s.rows[r]) && t.rows[r].provider == s.rows[r].provider)
      && (t.rows[r].Readable() && t.rows[r].handle.Some? && t.rows[r].handle.value in s.published ==>
        || t.rows[r].handle.value in t.revived
        || (r in s.rows && s.rows[r].Readable() && s.rows[r].handle == t.rows[r].handle))
  }

  lemma WorkerSurvives(s: State, t: State, w: WorkerId, wk: Worker)
    requires Evolves(s, t) && WorkerOk(s, w, wk)
    requires wk.phase.Activating? || wk.phase.Cleaning? ==> wk.phase.written !in t.published
    ensures WorkerOk(t, w, wk)
  {
    assert wk.snap.blob in s.accepted;
    assert wk.hash.preimage in Accepted(t, wk.snap.blob);
  }

  lemma WorkersSurvive(s: State, t: State)
    requires Evolves(s, t) && WorkersOk(s) && t.workers == s.workers
    requires forall w <- s.workers ::
      s.workers[w].phase.Activating? || s.workers[w].phase.Cleaning? ==> s.workers[w].phase.written !in t.published
    ensures WorkersOk(t)
  {
    forall w | w in t.workers ensures WorkerOk(t, w, t.workers[w]) {
      WorkerSurvives(s, t, w, s.workers[w]);
    }
  }

  lemma KnownWorker(s: State, w: WorkerId)
    requires Inv(s) && w in s.workers
    ensures WorkerOk(s, w, s.workers[w]) && HandlesKnown(s)
  {
  }

  // ------------------------------------------------------- small state changes

  // Each part of the invariant speaks of some of the fields only.

  lemma HandlesStay(s: State, t: State)
    requires HandlesKnown(s) && t.puts == s.puts && t.nextHandle == s.nextHandle && t.copies <= s.copies
    requires t.lost == s.lost && t.published == s.published && t.doomed == s.doomed && t.revived == s.revived
    ensures HandlesKnown(t)
  {
  }

  lemma HistoryStays(s: State, t: State)
    requires HistoryHonest(s) && t.transports == s.transports && t.accepted == s.accepted
    requires s.published <= t.published && forall h <- s.puts :: h in t.puts && t.puts[h] == s.puts[h]
    ensures HistoryHonest(t)
  {
  }

  lemma RowsStay(s: State, t: State)
    requires RowsOwn(s) && t.rows == s.rows && t.nextRow == s.nextRow && t.transports.Keys == s.transports.Keys
    requires t.accepted == s.accepted && s.published <= t.published
    requires forall h <- s.puts :: h in t.puts && t.puts[h] == s.puts[h]
    ensures RowsOwn(t)
  {
    forall r | r in t.rows ensures OwnsHandle(t, t.rows[r]) { assert OwnsHandle(s, s.rows[r]); }
  }

  lemma SlotsStay(s: State, t: State)
    requires SlotsUnique(s) && t.rows == s.rows
    ensures SlotsUnique(t)
  {
  }

  lemma ReadableStays(s: State, t: State)
    requires ReadableKept(s) && t.rows == s.rows && s.copies <= t.copies
    requires t.lost == s.lost && t.doomed == s.doomed && t.revived == s.revived
    ensures ReadableKept(t)
  {
  }

  lemma WorkersStay(s: State, t: State)
    requires WorkersOk(s) && t.workers == s.workers && t.rows == s.rows && t.nextRow == s.nextRow
    requires t.accepted == s.accepted && t.published == s.published && t.puts == s.puts && t.copies == s.copies
    requires t.lost == s.lost && t.revived == s.revived
    ensures WorkersOk(t)
  {
    forall w | w in t.workers ensures WorkerOk(t, w, t.workers[w]) { SameKnowledge(s, t, w, s.workers[w]); }
  }

  lemma SameKnowledge(s: State, t: State, w: WorkerId, wk: Worker)
    requires WorkerOk(s, w, wk) && t.rows == s.rows && t.nextRow == s.nextRow
    requires t.accepted == s.accepted && t.published == s.published && t.puts == s.puts && t.copies == s.copies
    requires t.lost == s.lost && t.revived == s.revived
    ensures WorkerOk(t, w, wk)
  {
  }

  lemma UploadsStay(s: State, t: State)
    requires UploadsOk(s) && t.uploads == s.uploads && t.published == s.published
    requires s.copies <= t.copies && t.lost == s.lost && forall h <- s.puts :: h in t.puts && t.puts[h] == s.puts[h]
    ensures UploadsOk(t)
  {
    forall u | u in t.uploads ensures UploadOk(t, u, t.uploads[u]) { assert UploadOk(s, u, s.uploads[u]); }
  }

  lemma PurgesStay(s: State, t: State)
    requires PurgesOk(s) && t.purges == s.purges && s.doomed <= t.doomed
    ensures PurgesOk(t)
  {
  }

  /** Workers, uploads and the guard aside, nothing changed. */
  predicate TablesStay(s: State, t: State) {
    t == s.(workers := t.workers, uploads := t.uploads, inFlight := t.inFlight)
  }

  lemma TablesKeep(s: State, t: State)
    requires Inv(s) && TablesStay(s, t)
    ensures HandlesKnown(t) && HistoryHonest(t) && RowsOwn(t) && SlotsUnique(t) && ReadableKept(t) && PurgesOk(t)
  {
    hide HandlesKnown, HistoryHonest, RowsOwn, SlotsUnique, ReadableKept, PurgesOk, WorkersOk, UploadsOk;
    HandlesStay(s, t);
    HistoryStays(s, t);
    RowsStay(s, t);
    SlotsStay(s, t);
    ReadableStays(s, t);
    PurgesStay(s, t);
  }

  lemma ChangeWorker(s: State, w: WorkerId, wk: Worker, inFlight: set<RowId>)
    requires Inv(s) && WorkerOk(s, w, wk)
    ensures Inv(s.(workers := s.workers[w := wk], inFlight := inFlight))
  {
    var t := s.(workers := s.workers[w := wk], inFlight := inFlight);
    hide HandlesKnown, HistoryHonest, RowsOwn, SlotsUnique, ReadableKept, PurgesOk, UploadsOk, WorkerOk;
    TablesKeep(s, t);
    UploadsStay(s, t);
    forall v | v in t.workers ensures WorkerOk(t, v, t.workers[v]) { SameKnowledge(s, t, v, t.workers[v]); }
  }

  lemma RemoveWorker(s: State, w: WorkerId, inFlight: set<RowId>)
    requires Inv(s)
    ensures Inv(s.(workers := s.workers - {w}, inFlight := inFlight))
  {
    var t := s.(workers := s.workers - {w}, inFlight := inFlight);
    hide HandlesKnown, HistoryHonest, RowsOwn, SlotsUnique, ReadableKept, PurgesOk, UploadsOk, WorkerOk;
    TablesKeep(s, t);
    UploadsStay(s, t);
    forall v | v in t.workers ensures WorkerOk(t, v, t.workers[v]) { SameKnowledge(s, t, v, t.workers[v]); }
  }

  lemma RemoveUpload(s: State, u: UploadId)
    requires Inv(s)
    ensures Inv(s.(uploads := s.uploads - {u}))
  {
    var t := s.(uploads := s.uploads - {u});
    hide HandlesKnown, HistoryHonest, RowsOwn, SlotsUnique, ReadableKept, PurgesOk, WorkersOk;
    TablesKeep(s, t);
    WorkersStay(s, t);
    forall v | v in t.uploads ensures UploadOk(t, v, t.uploads[v]) { assert UploadOk(s, v, s.uploads[v]); }
  }

  lemma StoreFresh(s: State, put: Put)
    requires Inv(s)
    ensures Inv(StoreCopy(s, put)) && s.nextHandle !in s.puts && s.nextHandle !in s.published
  {
    var t := StoreCopy(s, put);
    assert HandlesKnown(t) && s.nextHandle !in s.puts && s.nextHandle !in s.published;
    hide HandlesKnown, HistoryHonest, RowsOwn, SlotsUnique, ReadableKept, PurgesOk, UploadsOk, WorkersOk;
    HistoryStays(s, t);
    RowsStay(s, t);
    SlotsStay(s, t);
    ReadableStays(s, t);
    UploadsStay(s, t);
    PurgesStay(s, t);
    WorkersKnowFresh(s, put);
  }

  lemma WorkersKnowFresh(s: State, put: Put)
    requires WorkersOk(s) && s.nextHandle !in s.puts
    ensures WorkersOk(StoreCopy(s, put))
  {
    forall w | w in s.workers ensures WorkerOk(StoreCopy(s, put), w, s.workers[w]) {
      assert WorkerOk(s, w, s.workers[w]);
    }
  }

  lemma DeleteUnprotected(s: State, h: Handle, deleted: bool)
    requires Inv(s)
    requires forall r <- s.rows :: s.rows[r].Readable() && s.rows[r].handle == Some(h) ==>
      h in s.lost + s.doomed + s.revived
    requires forall u <- s.uploads :: s.uploads[u].handle != h
    requires forall w <- s.workers :: s.workers[w].phase.Activating? ==> s.workers[w].phase.written != h
    ensures Inv(Delete(s, h, deleted))
  {
    var t := Delete(s, h, deleted);
    hide HandlesKnown, HistoryHonest, RowsOwn, SlotsUnique, ReadableKept, PurgesOk, UploadsOk, WorkersOk;
    HandlesStay(s, t);
    HistoryStays(s, t);
    RowsStay(s, t);
    SlotsStay(s, t);
    PurgesStay(s, t);
    RowsMissNothing(s, h, deleted);
    HoldersMissNothing(s, h, deleted);
  }

  lemma RowsMissNothing(s: State, h: Handle, deleted: bool)
    requires ReadableKept(s)
    requires forall r <- s.rows :: s.rows[r].Readable() && s.rows[r].handle == Some(h) ==>
      h in s.lost + s.doomed + s.revived
    ensures ReadableKept(Delete(s, h, deleted))
  {
  }

  lemma HoldersMissNothing(s: State, h: Handle, deleted: bool)
    requires UploadsOk(s) && WorkersOk(s)
    requires forall u <- s.uploads :: s.uploads[u].handle != h
    requires forall w <- s.workers :: s.workers[w].phase.Activating? ==> s.workers[w].phase.written != h
    ensures UploadsOk(Delete(s, h, deleted)) && WorkersOk(Delete(s, h, deleted))
  {
    forall u | u in s.uploads ensures UploadOk(Delete(s, h, deleted), u, s.uploads[u]) {
      assert UploadOk(s, u, s.uploads[u]);
    }
    forall w | w in s.workers ensures WorkerOk(Delete(s, h, deleted), w, s.workers[w]) {
      assert WorkerOk(s, w, s.workers[w]);
    }
  }

  /** Rows rewritten in place: identity and handle stay, and a row becomes readable only if its handle is revived. */
  predicate Rewritten(s: State, rows: map<RowId, Row>, revived: set<Handle>) {
    && rows.Keys == s.rows.Keys
    && forall r <- rows ::
      && rows[r] == s.rows[r].(status := rows[r].status, attempts := rows[r].attempts)
      && (rows[r].Readable() ==> s.rows[r].Readable() || (rows[r].handle.Some? && rows[r].handle.value in revived))
  }

  lemma RewriteRows(s: State, rows: map<RowId, Row>, revived: set<Handle>)
    requires Inv(s) && Rewritten(s, rows, revived)
    requires s.revived <= revived <= s.published && forall h <- revived :: s.puts[h].role == Primary
    ensures Inv(s.(rows := rows, revived := revived))
  {
    var t := s.(rows := rows, revived := revived);
    RewrittenHandles(s, rows, revived);
    hide HandlesKnown, HistoryHonest, RowsOwn, SlotsUnique, ReadableKept, PurgesOk, UploadsOk, WorkersOk, Rewritten;
    HistoryStays(s, t);
    UploadsStay(s, t);
    PurgesStay(s, t);
    RewrittenOwn(s, rows, revived);
    RewrittenEvolve(s, rows, revived);
    UnpublishedHeld(s);
    WorkersSurvive(s, t);
  }

  lemma RewrittenHandles(s: State, rows: map<RowId, Row>, revived: set<Handle>)
    requires HandlesKnown(s) && revived <= s.published && forall h <- revived :: s.puts[h].role == Primary
    ensures HandlesKnown(s.(rows := rows, revived := revived))
  {
  }

  lemma RewrittenOwn(s: State, rows: map<RowId, Row>, revived: set<Handle>)
    requires RowsOwn(s) && SlotsUnique(s) && ReadableKept(s) && Rewritten(s, rows, revived) && s.revived <= revived
    ensures var t := s.(rows := rows, revived := revived); RowsOwn(t) && SlotsUnique(t) && ReadableKept(t)
  {
    var t := s.(rows := rows, revived := revived);
    forall r | r in t.rows ensures OwnsHandle(t, t.rows[r]) { assert OwnsHandle(s, s.rows[r]); }
    hide OwnsHandle;
  }

  lemma RewrittenEvolve(s: State, rows: map<RowId, Row>, revived: set<Handle>)
    requires Rewritten(s, rows, revived) && s.revived <= revived
    ensures Evolves(s, s.(rows := rows, revived := revived))
  {
  }

  /** What a worker holds before its update is in no row yet. */
  lemma UnpublishedHeld(s: State)
    requires WorkersOk(s)
    ensures forall w <- s.workers ::
      s.workers[w].phase.Activating? || s.workers[w].phase.Cleaning? ==> s.workers[w].phase.written !in s.published
  {
    forall w | w in s.workers && (s.workers[w].phase.Activating? || s.workers[w].phase.Cleaning?)
      ensures s.workers[w].phase.written !in s.published
    {
      assert WorkerOk(s, w, s.workers[w]);
    }
  }

  lemma RewriteRow(s: State, r: RowId, row: Row)
    requires Inv(s) && r in s.rows && row == s.rows[r].(status := row.status, attempts := row.attempts)
    requires row.Readable() ==> s.rows[r].Readable()
    ensures Inv(s.(rows := s.rows[r := row]))
  {
    RewriteRows(s, s.rows[r := row], s.revived);
    assert s.(rows := s.rows[r := row]) == s.(rows := s.rows[r := row], revived := s.revived);
  }

  /** Tables with some rows left out. */
  lemma FewerRows(s: State, t: State)
    requires RowsOwn(s) && SlotsUnique(s) && ReadableKept(s)
    requires t == s.(rows := t.rows, transports := t.transports)
    requires t.rows.Keys <= s.rows.Keys && forall r <- t.rows ::
      t.rows[r] == s.rows[r] && t.rows[r].blob in t.transports
    ensures RowsOwn(t) && SlotsUnique(t) && ReadableKept(t)
  {
    forall r | r in t.rows ensures OwnsHandle(t, t.rows[r]) { assert OwnsHandle(s, s.rows[r]); }
  }

  lemma FewerRowsEvolve(s: State, t: State)
    requires t == s.(rows := t.rows, transports := t.transports)
    requires t.rows.Keys <= s.rows.Keys && forall r <- t.rows :: t.rows[r] == s.rows[r]
    ensures Evolves(s, t)
  {
  }

  lemma DropRows(s: State, b: BlobId)
    requires Inv(s)
    ensures Inv(PurgeRows(s, b))
  {
    var t := PurgeRows(s, b);
    assert HistoryHonest(t);
    hide HandlesKnown, HistoryHonest, RowsOwn, SlotsUnique, ReadableKept, PurgesOk, UploadsOk, WorkersOk;
    HandlesStay(s, t);
    UploadsStay(s, t);
    PurgesStay(s, t);
    FewerRowsEvolve(s, t);
    UnpublishedHeld(s);
    WorkersSurvive(s, t);
    FewerRowsOfOthers(s, b);
  }

  lemma FewerRowsOfOthers(s: State, b: BlobId)
    requires RowsOwn(s) && SlotsUnique(s) && ReadableKept(s)
    ensures var t := PurgeRows(s, b); RowsOwn(t) && SlotsUnique(t) && ReadableKept(t)
  {
    var t := PurgeRows(s, b);
    assert forall r <- t.rows :: t.rows[r].blob in t.transports;
    hide RowsOwn, SlotsUnique, ReadableKept;
    FewerRows(s, t);
  }

  lemma NewQueuedRow(s: State, t: State, row: Row)
    requires RowsOwn(s) && SlotsUnique(s) && ReadableKept(s)
    requires row.id == s.nextRow && row.blob in s.transports && row.role == Replica && row.handle.None?
      && !row.Readable()
    requires t == s.(rows := s.rows[s.nextRow := row], nextRow := s.nextRow + 1)
    requires forall r <- s.rows :: !SameSlot(s.rows[r], row)
    ensures RowsOwn(t) && SlotsUnique(t) && ReadableKept(t) && Evolves(s, t)
  {
    NewQueuedRowOwns(s, t, row);
    assert Evolves(s, t);
    hide RowsOwn, Evolves;
  }

  lemma NewQueuedRowOwns(s: State, t: State, row: Row)
    requires RowsOwn(s) && row.id == s.nextRow && row.blob in s.transports && row.role == Replica && row.handle.None?
    requires !row.Readable() && t == s.(rows := s.rows[s.nextRow := row], nextRow := s.nextRow + 1)
    ensures RowsOwn(t)
  {
    forall r | r in s.rows ensures OwnsHandle(t, t.rows[r]) { assert OwnsHandle(s, s.rows[r]); }
    hide OwnsHandle;
  }

  lemma NewReplica(s: State, b: BlobId, kind: Provider)
    requires Inv(s) && b in s.transports
    requires !exists r :: r in s.rows && s.rows[r].blob == b && s.rows[r].role == Replica && s.rows[r].provider == kind
    ensures Inv(AddReplica(s, b, kind))
  {
    var t := AddReplica(s, b, kind);
    hide HandlesKnown, HistoryHonest, RowsOwn, SlotsUnique, ReadableKept, PurgesOk, UploadsOk, WorkersOk;
    HandlesStay(s, t);
    HistoryStays(s, t);
    UploadsStay(s, t);
    PurgesStay(s, t);
    NewQueuedRow(s, t, t.rows[s.nextRow]);
    UnpublishedHeld(s);
    WorkersSurvive(s, t);
  }

  lemma {:induction false} NewReplicas(s: State, b: BlobId, kinds: seq<Provider>)
    requires Inv(s) && b in s.transports
    ensures Inv(EnsureReplicas(s, b, kinds))
    decreases |kinds|
  {
    hide Inv;
    if kinds != [] {
      if exists r :: r in s.rows && s.rows[r].blob == b && s.rows[r].role == Replica && s.rows[r].provider == kinds[0] {
        NewReplicas(s, b, kinds[1..]);
      } else {
        NewReplica(s, b, kinds[0]);
        NewReplicas(AddReplica(s, b, kinds[0]), b, kinds[1..]);
      }
    }
  }

  // ------------------------------------------------------------ publishing

  lemma HandlesNotPublished(s: State, h: Handle)
    requires WorkersOk(s) && RowsOwn(s) && h in s.puts && h !in s.published && OthersHoldOther(s, h)
    ensures forall w <- s.workers ::
      s.workers[w].phase.Activating? || s.workers[w].phase.Cleaning? ==>
        s.workers[w].phase.written !in s.published + {h}
    ensures forall r <- s.rows :: s.rows[r].handle != Some(h)
  {
    forall w | w in s.workers && (s.workers[w].phase.Activating? || s.workers[w].phase.Cleaning?)
      ensures s.workers[w].phase.written !in s.published + {h}
    {
      assert WorkerOk(s, w, s.workers[w]);
    }
    forall r | r in s.rows ensures s.rows[r].handle != Some(h) { assert OwnsHandle(s, s.rows[r]); }
  }

  lemma SetActiveEvolves(s: State, r: RowId, h: Handle)
    requires RowsOwn(s) && r in s.rows && h !in s.published
    ensures Evolves(s, SetActive(s, r, h))
  {
  }

  lemma SetActiveUploads(s: State, r: RowId, h: Handle)
    requires UploadsOk(s) && r in s.rows && forall u <- s.uploads :: s.uploads[u].handle != h
    ensures UploadsOk(SetActive(s, r, h))
  {
    forall u | u in s.uploads ensures UploadOk(SetActive(s, r, h), u, s.uploads[u]) {
      assert UploadOk(s, u, s.uploads[u]);
    }
  }

  lemma SetActiveHandles(s: State, r: RowId, h: Handle)
    requires HandlesKnown(s) && r in s.rows && h in s.puts
    ensures HandlesKnown(SetActive(s, r, h))
  {
  }

  /** A held copy becomes the content of a queued row. */
  lemma PublishCopy(s: State, r: RowId, h: Handle)
    requires Inv(s) && r in s.rows
    requires h in s.puts && h !in s.published && (h in s.copies || h in s.lost)
    requires s.puts[h].blob == s.rows[r].blob && s.puts[h].role == s.rows[r].role
    requires s.puts[h].bytes in Accepted(s, s.rows[r].blob) && s.puts[h].origin.ByWorker? && s.puts[h].origin.row == r
    requires OthersHoldOther(s, h)
    ensures Inv(SetActive(s, r, h))
  {
    var t := SetActive(s, r, h);
    hide RowsOwn, SlotsUnique, ReadableKept, WorkersOk, HistoryHonest, UploadsOk, HandlesKnown, PurgesOk, Evolves;
    PublishCopyRows(s, r, h);
    HandlesNotPublished(s, h);
    SetActiveEvolves(s, r, h);
    SetActiveUploads(s, r, h);
    SetActiveHandles(s, r, h);
    HistoryStays(s, t);
    PurgesStay(s, t);
    hide OthersHoldOther;
    WorkersSurvive(s, t);
  }

  lemma PublishCopyRows(s: State, r: RowId, h: Handle)
    requires RowsOwn(s) && SlotsUnique(s) && ReadableKept(s) && r in s.rows
    requires h in s.puts && (h in s.copies || h in s.lost)
    requires s.puts[h].blob == s.rows[r].blob && s.puts[h].role == s.rows[r].role
    requires s.puts[h].bytes in Accepted(s, s.rows[r].blob) && s.puts[h].origin.ByWorker? && s.puts[h].origin.row == r
    ensures var t := SetActive(s, r, h); RowsOwn(t) && SlotsUnique(t) && ReadableKept(t)
  {
    hide RowsOwn, SlotsUnique, ReadableKept;
    PublishedRows(s, SetActive(s, r, h), r, h);
  }

  /** The row tables after one row took over the unpublished copy h. */
  lemma PublishedRows(s: State, t: State, r: RowId, h: Handle)
    requires RowsOwn(s) && SlotsUnique(s) && ReadableKept(s)
    requires s.puts == t.puts && s.published <= t.published && h in t.published && h in s.puts
    requires s.copies == t.copies && s.lost == t.lost && s.doomed == t.doomed && s.revived == t.revived
    requires s.nextRow == t.nextRow && s.transports.Keys <= t.transports.Keys
    requires forall b <- s.accepted :: Accepted(s, b) <= Accepted(t, b)
    requires r in t.rows && t.rows.Keys == s.rows.Keys && forall q <- t.rows :: q != r ==> t.rows[q] == s.rows[q]
    requires t.rows[r] == s.rows[r].(status := Active, handle := Some(h), attempts := 0)
    requires s.puts[h].blob == t.rows[r].blob && s.puts[h].role == t.rows[r].role
      && s.puts[h].bytes in Accepted(t, t.rows[r].blob)
    requires if s.puts[h].origin.ByWorker? then s.puts[h].origin.row == r else t.rows[r].role == Primary
    requires Kept(s, h)
    ensures RowsOwn(t) && SlotsUnique(t) && ReadableKept(t)
  {
    PublishedRowsOwn(s, t, r, h);
    hide RowsOwn;
  }

  lemma PublishedRowsOwn(s: State, t: State, r: RowId, h: Handle)
    requires RowsOwn(s) && s.puts == t.puts && s.published <= t.published && h in t.published && h in s.puts
    requires s.nextRow == t.nextRow && s.transports.Keys <= t.transports.Keys
    requires forall b <- s.accepted :: Accepted(s, b) <= Accepted(t, b)
    requires r in t.rows && t.rows.Keys == s.rows.Keys && forall q <- t.rows :: q != r ==> t.rows[q] == s.rows[q]
    requires t.rows[r] == s.rows[r].(status := Active, handle := Some(h), attempts := 0)
    requires s.puts[h].blob == t.rows[r].blob && s.puts[h].role == t.rows[r].role
      && s.puts[h].bytes in Accepted(t, t.rows[r].blob)
    requires if s.puts[h].origin.ByWorker? then s.puts[h].origin.row == r else t.rows[r].role == Primary
    ensures RowsOwn(t)
  {
    forall q | q in t.rows ensures OwnsHandle(t, t.rows[q]) {
      if q != r { assert OwnsHandle(s, s.rows[q]); }
    }
    hide OwnsHandle;
  }

  /** The blob's primaries at other providers, which the upload transaction removes. */
  function OtherPrimaries(s: State, blob: BlobId, provider: Provider): map<RowId, Row> {
    map r | r in s.rows && !(s.rows[r].blob == blob && s.rows[r].role == Primary && s.rows[r].provider != provider) ::
      s.rows[r]
  }

  lemma ForgetRows(s: State, rows: map<RowId, Row>)
    requires Inv(s) && rows.Keys <= s.rows.Keys && forall r <- rows :: rows[r] == s.rows[r]
    ensures Inv(s.(rows := rows))
  {
    var t := s.(rows := rows);
    assert forall r <- t.rows :: t.rows[r].blob in t.transports;
    hide HandlesKnown, HistoryHonest, RowsOwn, SlotsUnique, ReadableKept, PurgesOk, UploadsOk, WorkersOk;
    HandlesStay(s, t);
    HistoryStays(s, t);
    UploadsStay(s, t);
    PurgesStay(s, t);
    FewerRows(s, t);
    FewerRowsEvolve(s, t);
    UnpublishedHeld(s);
    WorkersSurvive(s, t);
  }

  /** The upload's copy is its own; then the other providers' primaries go. */
  lemma SetAsideUpload(s: State, u: UploadId)
    requires Inv(s) && u in s.uploads
    ensures var up := s.uploads[u];
      var t := s.(uploads := s.uploads - {u}, rows := OtherPrimaries(s, up.blob, up.provider));
      Inv(t) && UploadOk(s, u, up) && OthersHoldOther(t, up.handle)
  {
    var up := s.uploads[u];
    assert UploadOk(s, u, up);
    assert forall v <- s.uploads :: v != u ==> UploadOk(s, v, s.uploads[v]);
    assert forall w <- s.workers :: WorkerOk(s, w, s.workers[w]);
    RemoveUpload(s, u);
    ForgetRows(s.(uploads := s.uploads - {u}), OtherPrimaries(s, up.blob, up.provider));
  }

  /** Transport, history and row for an upload whose primary slot already has a row or gets a new one. */
  lemma PublishUpload(s: State, u: UploadId)
    requires Inv(s) && u in s.uploads
    ensures Inv(PublishPrimary(s, u))
  {
    hide Inv, UploadOk;
    var up := s.uploads[u];
    var s2 := s.(uploads := s.uploads - {u}, rows := OtherPrimaries(s, up.blob, up.provider));
    var t := PublishPrimary(s, u);
    SetAsideUpload(s, u);
    UploadIsPublished(s2, t, u, up);
    var existing := PrimaryRow(s, up.blob, up.provider);
    if existing.Some? {
      assert t.rows == s2.rows[existing.value := t.rows[existing.value]];
      PublishInPlace(s2, t, existing.value, up);
    } else {
      assert t.rows == s2.rows[s.nextRow := t.rows[s.nextRow]];
      PublishNewRow(s2, t, up);
    }
  }

  lemma UploadIsPublished(s: State, t: State, u: UploadId, up: Upload)
    requires Inv(s) && UploadOk(s, u, up) && OthersHoldOther(s, up.handle)
    requires t == s.(transports := t.transports, rows := t.rows, nextRow := t.nextRow,
      published := s.published + {up.handle}, accepted := t.accepted)
    requires t.transports == s.transports[up.blob := UploadTransport(s, up)]
    requires t.accepted == s.accepted[up.blob := Accepted(s, up.blob) + {up.bytes}]
    ensures UploadPublished(s, t, up)
  {
    HandlesNotPublished(s, up.handle);
  }

  predicate UploadPublished(s: State, t: State, up: Upload) {
    && t == s.(transports := t.transports, rows := t.rows, nextRow := t.nextRow,
      published := s.published + {up.handle}, accepted := t.accepted)
    && t.transports == s.transports[up.blob := UploadTransport(s, up)]
    && t.accepted == s.accepted[up.blob := Accepted(s, up.blob) + {up.bytes}]
    && up.handle in s.puts && up.handle !in s.published && (up.handle in s.copies || up.handle in s.lost)
    && s.puts[up.handle].blob == up.blob && s.puts[up.handle].bytes == up.bytes && s.puts[up.handle].role == Primary
    && s.puts[up.handle].origin.ByUpload?
    && (forall u <- s.uploads :: s.uploads[u].handle != up.handle)
    && (forall w <- s.workers ::
      s.workers[w].phase.Activating? || s.workers[w].phase.Cleaning? ==>
        s.workers[w].phase.written !in s.published + {up.handle})
  }

  lemma AcceptedGrows(s: State, t: State, up: Upload)
    requires UploadPublished(s, t, up) && Inv(s)
    ensures up.bytes in Accepted(t, up.blob) && forall b <- s.accepted :: Accepted(s, b) <= Accepted(t, b)
    ensures HandlesKnown(t) && HistoryHonest(t) && UploadsOk(t) && PurgesOk(t)
  {
    forall b | b in s.accepted ensures Accepted(s, b) <= Accepted(t, b) {
      if b != up.blob { assert t.accepted[b] == s.accepted[b]; }
    }
    forall v | v in t.uploads ensures UploadOk(t, v, t.uploads[v]) { assert UploadOk(s, v, s.uploads[v]); }
    forall b | b in t.transports && b != up.blob ensures t.transports[b].hash.preimage in Accepted(t, b) {
      assert s.transports[b].hash.preimage in Accepted(s, b);
    }
  }

  lemma PublishInPlace(s: State, t: State, r: RowId, up: Upload)
    requires Inv(s) && UploadPublished(s, t, up) && t.nextRow == s.nextRow
    requires r in s.rows && s.rows[r].blob == up.blob && s.rows[r].role == Primary && s.rows[r].provider == up.provider
    requires t.rows == s.rows[r := Row(r, up.blob, up.provider, Primary, Active, Some(up.handle), 0)]
    ensures Inv(t)
  {
    hide RowsOwn, SlotsUnique, ReadableKept, WorkersOk, HistoryHonest, UploadsOk, HandlesKnown, PurgesOk, Evolves;
    AcceptedGrows(s, t, up);
    InPlaceEvolves(s, t, r, up);
    WorkersSurvive(s, t);
    PublishedRows(s, t, r, up.handle);
  }

  lemma InPlaceEvolves(s: State, t: State, r: RowId, up: Upload)
    requires RowsOwn(s) && UploadPublished(s, t, up) && t.nextRow == s.nextRow
    requires forall b <- s.accepted :: Accepted(s, b) <= Accepted(t, b)
    requires r in s.rows && s.rows[r].blob == up.blob && s.rows[r].role == Primary && s.rows[r].provider == up.provider
    requires t.rows == s.rows[r := Row(r, up.blob, up.provider, Primary, Active, Some(up.handle), 0)]
    ensures Evolves(s, t) && t.rows[r] == s.rows[r].(status := Active, handle := Some(up.handle), attempts := 0)
  {
  }

  lemma PublishNewRow(s: State, t: State, up: Upload)
    requires Inv(s) && UploadPublished(s, t, up) && t.nextRow == s.nextRow + 1
    requires forall r <- s.rows :: !(s.rows[r].blob == up.blob && s.rows[r].role == Primary)
    requires t.rows == s.rows[s.nextRow := Row(s.nextRow, up.blob, up.provider, Primary, Active, Some(up.handle), 0)]
    ensures Inv(t)
  {
    hide RowsOwn, SlotsUnique, ReadableKept, WorkersOk, HistoryHonest, UploadsOk, HandlesKnown, PurgesOk, Evolves;
    AcceptedGrows(s, t, up);
    NewPrimaryEvolves(s, t, up);
    NewPrimaryRows(s, t, up);
    WorkersSurvive(s, t);
  }

  lemma NewPrimaryEvolves(s: State, t: State, up: Upload)
    requires RowsOwn(s) && UploadPublished(s, t, up) && t.nextRow == s.nextRow + 1
    requires forall b <- s.accepted :: Accepted(s, b) <= Accepted(t, b)
    requires t.rows == s.rows[s.nextRow := Row(s.nextRow, up.blob, up.provider, Primary, Active, Some(up.handle), 0)]
    ensures Evolves(s, t)
  {
  }

  lemma NewPrimaryRows(s: State, t: State, up: Upload)
    requires RowsOwn(s) && SlotsUnique(s) && ReadableKept(s) && UploadPublished(s, t, up) && t.nextRow == s.nextRow + 1
    requires up.bytes in Accepted(t, up.blob) && forall b <- s.accepted :: Accepted(s, b) <= Accepted(t, b)
    requires forall r <- s.rows :: !(s.rows[r].blob == up.blob && s.rows[r].role == Primary)
    requires t.rows == s.rows[s.nextRow := Row(s.nextRow, up.blob, up.provider, Primary, Active, Some(up.handle), 0)]
    ensures RowsOwn(t) && SlotsUnique(t) && ReadableKept(t)
  {
    NewPrimaryOwns(s, t, up);
    hide RowsOwn;
  }

  lemma NewPrimaryOwns(s: State, t: State, up: Upload)
    requires RowsOwn(s) && UploadPublished(s, t, up) && t.nextRow == s.nextRow + 1
    requires up.bytes in Accepted(t, up.blob) && forall b <- s.accepted :: Accepted(s, b) <= Accepted(t, b)
    requires t.rows == s.rows[s.nextRow := Row(s.nextRow, up.blob, up.provider, Primary, Active, Some(up.handle), 0)]
    ensures RowsOwn(t)
  {
    forall q | q in t.rows ensures OwnsHandle(t, t.rows[q]) {
      if q != s.nextRow { assert OwnsHandle(s, s.rows[q]); }
    }
    hide OwnsHandle;
  }

  lemma CommitKeeps(s: State, u: UploadId, kinds: seq<Provider>)
    requires Inv(s) && u in s.uploads
    ensures Inv(CommitUpload(s, u, kinds))
  {
    PublishUpload(s, u);
    var t, b := PublishPrimary(s, u), s.uploads[u].blob;
    hide Inv, PublishPrimary;
    if kinds != [] {
      RequeueKeeps(t, b);
      NewReplicas(RequeueReplicas(t, b), b, kinds);
    }
  }

  lemma RequeueKeeps(s: State, b: BlobId)
    requires Inv(s)
    ensures Inv(RequeueReplicas(s, b))
  {
    var t := RequeueReplicas(s, b);
    assert s.revived <= s.published && forall h <- s.revived :: s.puts[h].role == Primary;
    hide Inv;
    RequeueRewrites(s, b);
    hide RequeueReplicas;
    RewriteRows(s, t.rows, s.revived);
  }

  lemma RequeueRewrites(s: State, b: BlobId)
    ensures var t := RequeueReplicas(s, b);
      t == s.(rows := t.rows, revived := s.revived) && Rewritten(s, t.rows, s.revived)
  {
  }

  lemma Rephase(s: State, w: WorkerId, phase: Phase)
    requires Inv(s) && w in s.workers && WorkerOk(s, w, s.workers[w].(phase := phase))
    ensures Inv(SetPhase(s, w, phase))
  {
    ChangeWorker(s, w, s.workers[w].(phase := phase), s.inFlight);
    assert SetPhase(s, w, phase)
      == s.(workers := s.workers[w := s.workers[w].(phase := phase)], inFlight := s.inFlight);
  }

  /** Without the worker itself, nobody holds its copy. */
  lemma SetAside(s: State, w: WorkerId)
    requires Inv(s) && w in s.workers && s.workers[w].phase.Activating?
    ensures var out := s.(workers := s.workers - {w}, inFlight := s.inFlight);
      Inv(out) && OthersHoldOther(out, s.workers[w].phase.written) && WorkerOk(out, w, s.workers[w])
  {
    RemoveWorker(s, w, s.inFlight);
    assert WorkerOk(s, w, s.workers[w]);
    assert forall v <- s.workers :: WorkerOk(s, v, s.workers[v]);
    assert forall u <- s.uploads :: UploadOk(s, u, s.uploads[u]);
  }

  /** The matching update on the state without the worker commutes with what the worker does next. */
  lemma UpdateCommutes(s: State, w: WorkerId, r: RowId, h: Handle, wk: Worker)
    requires w in s.workers && r in s.rows && s.workers[w].snap.id == r
    ensures var out := s.(workers := s.workers - {w}, inFlight := s.inFlight);
      var u := SetActive(out, r, h);
      && Finish(SetActive(s, r, h), w) == u.(workers := u.workers - {w}, inFlight := s.inFlight - {r})
      && SetActive(s, r, h).(workers := s.workers[w := wk]) == u.(workers := u.workers[w := wk], inFlight := s.inFlight)
  {
    var out := s.(workers := s.workers - {w}, inFlight := s.inFlight);
    assert out.workers[w := wk] == s.workers[w := wk];
    assert out.workers - {w} == s.workers - {w};
  }

  /** The matching update, after which the worker goes on in `next` or ends. */
  lemma UpdateKeeps(s: State, w: WorkerId, next: Phase, ends: bool)
    requires Inv(s) && w in s.workers && s.workers[w].phase.Activating? && UpdateMatches(s, w)
    requires next == Failing || next == Mirroring(s.workers[w].phase.written)
    ensures var t := SetActive(s, s.workers[w].snap.id, s.workers[w].phase.written);
      Inv(if ends then Finish(t, w) else SetPhase(t, w, next))
  {
    var wk := s.workers[w];
    var h, r := wk.phase.written, wk.snap.id;
    hide Inv, WorkerOk, OthersHoldOther, Finish;
    var out := s.(workers := s.workers - {w}, inFlight := s.inFlight);
    SetAside(s, w);
    PublishSetAside(out, w, wk);
    UpdateCommutes(s, w, r, h, wk.(phase := next));
    var u := SetActive(out, r, h);
    if ends {
      RemoveWorker(u, w, s.inFlight - {r});
    } else {
      UpdatedWorkerOk(out, w, wk, next);
      ChangeWorker(u, w, wk.(phase := next), s.inFlight);
    }
  }

  lemma PublishSetAside(out: State, w: WorkerId, wk: Worker)
    requires Inv(out) && WorkerOk(out, w, wk) && wk.phase.Activating? && OthersHoldOther(out, wk.phase.written)
    requires wk.snap.id in out.rows
    ensures Inv(SetActive(out, wk.snap.id, wk.phase.written))
  {
    hide Inv, OthersHoldOther;
    PublishCopy(out, wk.snap.id, wk.phase.written);
  }

  lemma UpdatedWorkerOk(s: State, w: WorkerId, wk: Worker, next: Phase)
    requires WorkerOk(s, w, wk) && wk.phase.Activating? && wk.snap.id in s.rows
    requires next == Failing || next == Mirroring(wk.phase.written)
    ensures WorkerOk(SetActive(s, wk.snap.id, wk.phase.written), w, wk.(phase := next))
  {
  }

  predicate OthersHoldOther(out: State, h: Handle) {
    && (forall u <- out.uploads :: out.uploads[u].handle != h)
    && forall v <- out.workers :: out.workers[v].phase.Activating? || out.workers[v].phase.Cleaning? ==>
      out.workers[v].phase.written != h
  }

  lemma ActivateKeeps(s: State, w: WorkerId, outcome: CallOutcome)
    requires Inv(s) && w in s.workers && s.workers[w].phase.Activating?
    ensures Inv(ActivateRow(s, w, outcome))
  {
    var wk := s.workers[w];
    KnownWorker(s, w);
    hide Inv;
    if outcome == Refused || (outcome == LostAck && !UpdateMatches(s, w)) {
      WithoutUpdate(s, w);
      Rephase(s, w, Failing);
    } else if !UpdateMatches(s, w) {
      WithoutUpdate(s, w);
      hide WorkerOk;
      Rephase(s, w, Cleaning(wk.phase.written));
    } else {
      hide WorkerOk;
      UpdateKeeps(s, w, if outcome == LostAck then Failing else Mirroring(wk.phase.written),
                  outcome == Acked && wk.snap.role == Replica);
    }
  }

  lemma WithoutUpdate(s: State, w: WorkerId)
    requires w in s.workers && WorkerOk(s, w, s.workers[w]) && s.workers[w].phase.Activating?
    ensures WorkerOk(s, w, s.workers[w].(phase := Failing))
    ensures WorkerOk(s, w, s.workers[w].(phase := Cleaning(s.workers[w].phase.written)))
  {
  }
}
