/** Exactly when the copies that serve a blob hold its latest upload. */
module PlacementFreshness {
  import opened Basics
  import opened PlacementRows
  import opened Placement
  import opened PlacementFrames
  import opened PlacementInvariant
  import opened PlacementSafety
  import PlacementEffects
  import ReadOrder
  import opened BlobReads
  import PlacementReads

  /** The row names a copy of these bytes. */
  predicate HoldsBytes(s: State, row: Row, bytes: Bytes) {
    row.handle.Some? && row.handle.value in s.puts && s.puts[row.handle.value].bytes == bytes
  }

  /** Every row of the blob that serves reads holds the latest committed upload. */
  predicate ServesLatest(s: State, b: BlobId) {
    b in s.transports ==> forall r <- s.rows :: s.rows[r].blob == b && s.rows[r].Readable() ==>
      HoldsBytes(s, s.rows[r], s.transports[b].hash.preimage)
  }

  /** So does every primary row, parked or not: what a health report may bring back. */
  predicate Fresh(s: State, b: BlobId) {
    b in s.transports ==> forall r <- s.rows ::
      s.rows[r].blob == b && (s.rows[r].Readable() || s.rows[r].role == Primary) ==>
        HoldsBytes(s, s.rows[r], s.transports[b].hash.preimage)
  }

  /** A matching update by a worker whose snapshot was taken under another upload's hash. */
  predicate StaleUpdate(s: State, step: Step, b: BlobId) {
    && step.Activate? && step.outcome != Refused && step.worker in s.workers
    && s.workers[step.worker].snap.blob == b && UpdateMatches(s, step.worker)
    && b in s.transports && s.workers[step.worker].hash != s.transports[b].hash
  }

  /** Some replica of the blob serves other bytes. */
  predicate ServesOther(s: State, b: BlobId, bytes: Bytes) {
    exists r <- s.rows ::
      s.rows[r].blob == b && s.rows[r].role == Replica && s.rows[r].Readable() && !HoldsBytes(s, s.rows[r], bytes)
  }

  /** A commit without replica kinds over such a replica. */
  predicate UnconfiguredCommit(s: State, step: Step, b: BlobId) {
    && step.UploadCommit? && step.replicaKinds == [] && step.upload in s.uploads && s.uploads[step.upload].blob == b
    && ServesOther(s, b, s.uploads[step.upload].bytes)
  }

  predicate Outdates(s: State, step: Step, b: BlobId) { StaleUpdate(s, step, b) || UnconfiguredCommit(s, step, b) }

  // ------------------------------------------------------------------- one step

  /** Rows of t that matter were there before, with the same copy, and mattered then. */
  ghost predicate SameServing(s: State, t: State, b: BlobId) {
    && (b in t.transports ==> b in s.transports && t.transports[b].hash == s.transports[b].hash)
    && (forall h <- s.puts :: h in t.puts && t.puts[h] == s.puts[h])
    && forall r <- t.rows :: t.rows[r].blob == b && (t.rows[r].Readable() || t.rows[r].role == Primary) ==>
         && r in s.rows && s.rows[r].blob == b && s.rows[r].handle == t.rows[r].handle
         && (s.rows[r].Readable() || s.rows[r].role == Primary)
  }

  lemma StaysFresh(s: State, t: State, b: BlobId)
    requires Fresh(s, b) && SameServing(s, t, b)
    ensures Fresh(t, b)
  {
  }

  lemma SameRowsServe(s: State, t: State, b: BlobId)
    requires t.rows == s.rows && t.transports == s.transports
    requires forall h <- s.puts :: h in t.puts && t.puts[h] == s.puts[h]
    ensures SameServing(s, t, b)
  {
  }

  /** Steps that touch neither rows nor transports. */
  predicate Aside(step: Step) {
    step.UploadPut? || step.UploadAbort? || step.Snapshot? || step.Enter? || step.ListSources? || step.ReadSource?
    || step.DropOld? || step.PutCopy? || step.Clean? || step.PurgeList? || step.PurgeDelete? || step.PurgeAbort?
    || step.ProviderLoss?
  }

  /** The rows, the transports and what was stored are as before. */
  ghost predicate RowsStay(s: State, t: State) { t.rows == s.rows && t.transports == s.transports }

  lemma EnterStays(s: State, w: WorkerId)
    requires w in s.workers
    ensures RowsStay(s, EnterGuard(s, w))
  {
    var t := s.(inFlight := s.inFlight + {s.workers[w].snap.id});
    assert RowsStay(s, t);
    PhaseStays(t, w, Listing);
    PhaseStays(t, w, Failing);
    if s.workers[w].given.Some? {
      PhaseStays(t, w, Dropping(s.workers[w].given.value));
    }
    hide SetPhase;
  }

  lemma ReadStays(s: State, w: WorkerId, answer: Option<Bytes>)
    requires w in s.workers && s.workers[w].phase.Reading?
    ensures RowsStay(s, TryRead(s, w, answer))
  {
  }

  lemma PutStays(s: State, w: WorkerId, outcome: CallOutcome)
    requires w in s.workers && s.workers[w].phase.Putting?
    ensures RowsStay(s, PutNewCopy(s, w, outcome))
  {
  }

  lemma WorkerAsideStays(s: State, step: Step)
    requires Enabled(s, step) && Aside(step) && WorkerStep(step)
    ensures RowsStay(s, Apply(s, step))
  {
    hide EnterGuard, TryRead, PutNewCopy, ActivateRow, CommitUpload, EnsureReplicas, ReportHealth, PurgeRows,
      PurgeTargets, RowsStay;
    if step.Enter? {
      EnterStays(s, step.worker);
    } else if step.ReadSource? {
      ReadStays(s, step.worker, step.answer);
    } else if step.PutCopy? {
      PutStays(s, step.worker, step.outcome);
    } else if step.ListSources? {
      var siblings := ReadOrder.OrderPlacementsForRead(step.siblings);
      PhaseStays(s, step.worker, Reading(Handles(siblings) + [s.workers[step.worker].mirror]));
    } else if step.DropOld? {
      DropStays(s, step.worker, step.deleted);
    } else {
      CleanStays(s, step.worker, step.deleted);
    }
  }

  lemma PhaseStays(s: State, w: WorkerId, phase: Phase)
    requires w in s.workers
    ensures RowsStay(s, SetPhase(s, w, phase))
  {
  }

  lemma DropStays(s: State, w: WorkerId, deleted: bool)
    requires Enabled(s, DropOld(w, deleted))
    ensures RowsStay(s, Apply(s, DropOld(w, deleted)))
  {
  }

  lemma CleanStays(s: State, w: WorkerId, deleted: bool)
    requires Enabled(s, Clean(w, deleted))
    ensures RowsStay(s, Apply(s, Clean(w, deleted)))
  {
  }

  lemma OuterAsideStays(s: State, step: Step)
    requires Enabled(s, step) && Aside(step) && !WorkerStep(step)
    ensures RowsStay(s, Apply(s, step))
  {
    hide RowsStay, PurgeTargets, StoreCopy;
    match step
    case UploadPut(u, blob, provider, bytes, outcome) => PutRowsStay(s, u, blob, provider, bytes, outcome);
    case UploadAbort(u) => FieldsStay(s, Apply(s, step));
    case Snapshot(w, r, given) => FieldsStay(s, Apply(s, step));
    case PurgeList(p, blob) => FieldsStay(s, Apply(s, step));
    case PurgeDelete(p, h, deleted) => FieldsStay(s, Apply(s, step));
    case PurgeAbort(p) => FieldsStay(s, Apply(s, step));
    case ProviderLoss(h) => FieldsStay(s, Apply(s, step));
  }

  lemma FieldsStay(s: State, t: State)
    requires t.rows == s.rows && t.transports == s.transports
    ensures RowsStay(s, t)
  {
  }

  lemma PutRowsStay(s: State, u: UploadId, blob: BlobId, provider: Provider, bytes: Bytes, outcome: CallOutcome)
    requires Enabled(s, UploadPut(u, blob, provider, bytes, outcome))
    ensures RowsStay(s, Apply(s, UploadPut(u, blob, provider, bytes, outcome)))
  {
  }

  lemma MirrorServes(s: State, w: WorkerId, stored: bool, b: BlobId)
    requires Enabled(s, RefreshMirror(w, stored))
    ensures SameServing(s, Apply(s, RefreshMirror(w, stored)), b)
  {
  }

  lemma FailureServes(s: State, w: WorkerId, stored: bool, b: BlobId)
    requires Enabled(s, RecordFailure(w, stored))
    ensures SameServing(s, Apply(s, RecordFailure(w, stored)), b)
  {
  }

  lemma HealthServes(s: State, blob: BlobId, verdict: Status, b: BlobId)
    ensures SameServing(s, ReportHealth(s, blob, verdict), b)
  {
  }

  lemma PurgeServes(s: State, p: PurgeId, b: BlobId)
    requires Enabled(s, PurgeCommit(p))
    ensures SameServing(s, Apply(s, PurgeCommit(p)), b)
  {
  }

  lemma ParkServes(s: State, r: RowId, b: BlobId)
    requires Enabled(s, Park(r))
    ensures SameServing(s, Apply(s, Park(r)), b)
  {
  }

  lemma ManifestServes(s: State, blob: BlobId, kinds: seq<Provider>, b: BlobId)
    requires RowsOwn(s) && Enabled(s, CommitManifest(blob, kinds))
    ensures SameServing(s, Apply(s, CommitManifest(blob, kinds)), b)
  {
    EnsureFrame(s, blob, kinds);
    EnsureAdds(s, blob, kinds);
    hide EnsureReplicas, RowsOwn;
  }

  /** The update's row gets the bytes of the worker's snapshot, whatever upload they belong to. */
  lemma UpdateServes(s: State, w: WorkerId, outcome: CallOutcome, b: BlobId)
    requires Inv(s) && Enabled(s, Activate(w, outcome)) && Fresh(s, b)
    ensures var t := ActivateRow(s, w, outcome);
      && (StaleUpdate(s, Activate(w, outcome), b) ==> !ServesLatest(t, b))
      && (!StaleUpdate(s, Activate(w, outcome), b) ==> Fresh(t, b))
  {
    var wk := s.workers[w];
    assert WorkerOk(s, w, wk);
    assert UpdateMatches(s, w) ==> s.rows[wk.snap.id].blob in s.transports;
    ActivateRows(s, w, outcome);
    hide Inv, ActivateRow, WorkerOk;
    var t := ActivateRow(s, w, outcome);
    if outcome == Refused || !UpdateMatches(s, w) {
      SameRowsServe(s, t, b);
      StaysFresh(s, t, b);
    } else {
      var r := wk.snap.id;
      assert HoldsBytes(t, t.rows[r], wk.hash.preimage);
      assert t.rows[r].blob == wk.snap.blob && t.rows[r].Readable();
    }
  }

  /** What the update does to rows, transports and what was stored. */
  lemma ActivateRows(s: State, w: WorkerId, outcome: CallOutcome)
    requires Enabled(s, Activate(w, outcome))
    ensures var t, r := ActivateRow(s, w, outcome), s.workers[w].snap.id;
      && t.transports == s.transports && t.puts == s.puts
      && t.rows == if outcome == Refused || !UpdateMatches(s, w) then s.rows
        else s.rows[r := s.rows[r].(status := Active, handle := Some(s.workers[w].phase.written), attempts := 0)]
  {
    var wk := s.workers[w];
    var u := if UpdateMatches(s, w) then SetActive(s, wk.snap.id, wk.phase.written) else s;
    assert u.transports == s.transports && u.puts == s.puts && u.workers == s.workers;
    assert u.rows == if UpdateMatches(s, w)
      then s.rows[wk.snap.id := s.rows[wk.snap.id].(status := Active, handle := Some(wk.phase.written), attempts := 0)]
      else s.rows;
    hide SetActive, Enabled;
    SamePlaces(s, w, Failing);
    SamePlaces(u, w, Failing);
    SamePlaces(s, w, Cleaning(wk.phase.written));
    SamePlaces(u, w, Mirroring(wk.phase.written));
    hide SetPhase, Finish;
  }

  lemma SamePlaces(s: State, w: WorkerId, phase: Phase)
    requires w in s.workers
    ensures RowsStay(s, SetPhase(s, w, phase)) && SetPhase(s, w, phase).puts == s.puts
    ensures RowsStay(s, Finish(s, w)) && Finish(s, w).puts == s.puts
  {
  }

  // ------------------------------------------------------------------ the commit

  /** The blob's primary rows hold the upload. */
  predicate PrimariesHold(t: State, up: Upload) {
    forall r <- t.rows :: t.rows[r].blob == up.blob && t.rows[r].role == Primary ==>
      HoldsBytes(t, t.rows[r], up.bytes)
  }

  predicate SameReplicas(s: State, t: State) {
    && (forall r <- s.rows :: s.rows[r].role == Replica ==> r in t.rows && t.rows[r] == s.rows[r])
    && (forall r <- t.rows :: t.rows[r].role == Replica ==> r in s.rows && t.rows[r] == s.rows[r])
  }

  predicate RowsBelow(t: State) { forall r <- t.rows :: r < t.nextRow }

  /** The blob's hash is the upload's, its one primary row holds the upload, other blobs stay as they are. */
  ghost predicate Published(s: State, t: State, up: Upload, b: BlobId) {
    && t.puts == s.puts && up.blob in t.transports && t.transports[up.blob].hash == Sha256(up.bytes)
    && (b != up.blob ==> SameServing(s, t, b))
    && PrimariesHold(t, up) && SameReplicas(s, t) && RowsBelow(t)
  }

  lemma PublishServes(s: State, u: UploadId, b: BlobId)
    requires Inv(s) && u in s.uploads
    ensures Published(s, PublishPrimary(s, u), s.uploads[u], b)
  {
    var up := s.uploads[u];
    assert UploadOk(s, u, up);
    assert up.handle in s.puts && s.puts[up.handle].bytes == up.bytes;
    assert RowsOwn(s) && SlotsUnique(s);
    hide Inv, UploadOk, SlotsUnique, SameServing, PublishPrimary, PrimariesHold, SameReplicas, RowsBelow, RowsOwn;
    PublishedPrimaries(s, u);
    PublishedReplicas(s, u);
    PublishedTables(s, u);
    if b != up.blob { OtherBlobsStay(s, u, b); }
  }

  lemma PublishedPrimaries(s: State, u: UploadId)
    requires RowsOwn(s) && SlotsUnique(s) && u in s.uploads
    requires s.uploads[u].handle in s.puts && s.puts[s.uploads[u].handle].bytes == s.uploads[u].bytes
    ensures PrimariesHold(PublishPrimary(s, u), s.uploads[u]) && RowsBelow(PublishPrimary(s, u))
  {
    assert forall r <- s.rows :: s.rows[r].id == r < s.nextRow;
    hide RowsOwn, SlotsUnique, PublishPrimary;
    PlacementEffects.PublishSetsPrimary(s, u);
    PublishedTables(s, u);
  }

  lemma PublishedReplicas(s: State, u: UploadId)
    requires RowsOwn(s) && u in s.uploads
    ensures SameReplicas(s, PublishPrimary(s, u))
  {
    assert forall r <- s.rows :: s.rows[r].id == r < s.nextRow;
    hide RowsOwn, PublishPrimary;
    PlacementEffects.PublishKeepsReplicas(s, u);
  }

  lemma PublishedTables(s: State, u: UploadId)
    requires u in s.uploads
    ensures var up, t := s.uploads[u], PublishPrimary(s, u);
      t.puts == s.puts && up.blob in t.transports && t.transports[up.blob].hash == Sha256(up.bytes)
  {
  }

  lemma OtherBlobsStay(s: State, u: UploadId, b: BlobId)
    requires u in s.uploads && s.uploads[u].blob != b
    ensures SameServing(s, PublishPrimary(s, u), b)
  {
  }

  /** After the re-queue no replica of the blob serves. */
  lemma RequeueServes(s: State, blob: BlobId, b: BlobId)
    ensures var t := RequeueReplicas(s, blob);
      && SameServing(s, t, b) && t.transports == s.transports && t.puts == s.puts
      && (forall r <- t.rows :: r in s.rows && t.rows[r].blob == s.rows[r].blob && t.rows[r].role == s.rows[r].role)
      && forall r <- t.rows :: t.rows[r].blob == blob && t.rows[r].role == Replica ==> !t.rows[r].Readable()
  {
  }

  /**
   After the transaction every serving and every primary row holds the new upload, whatever was
   there before; unless replicas are not configured and one serves other bytes.
   */
  lemma CommitServes(s: State, u: UploadId, kinds: seq<Provider>, b: BlobId)
    requires Inv(s) && Enabled(s, UploadCommit(u, kinds)) && s.uploads[u].blob == b
    ensures var t := CommitUpload(s, u, kinds);
      && (UnconfiguredCommit(s, UploadCommit(u, kinds), b) ==> !ServesLatest(t, b))
      && (!UnconfiguredCommit(s, UploadCommit(u, kinds), b) ==> Fresh(t, b))
  {
    var up, p := s.uploads[u], PublishPrimary(s, u);
    PublishServes(s, u, b);
    hide Inv, PublishPrimary, ServesOther;
    if kinds == [] {
      BareCommitServes(s, p, up);
    } else {
      QueuedCommitServes(p, b, kinds);
      hide Fresh, EnsureReplicas, RequeueReplicas;
    }
  }

  lemma BareCommitServes(s: State, p: State, up: Upload)
    requires Published(s, p, up, up.blob)
    ensures ServesOther(s, up.blob, up.bytes) ==> !ServesLatest(p, up.blob)
    ensures !ServesOther(s, up.blob, up.bytes) ==> Fresh(p, up.blob)
  {
    forall r | r in s.rows && s.rows[r].role == Replica ensures r in p.rows && p.rows[r] == s.rows[r] {
    }
  }

  lemma QueuedCommitServes(p: State, b: BlobId, kinds: seq<Provider>)
    requires b in p.transports && forall r <- p.rows :: r < p.nextRow
    requires forall r <- p.rows :: p.rows[r].blob == b && p.rows[r].role == Primary ==>
      HoldsBytes(p, p.rows[r], p.transports[b].hash.preimage)
    ensures Fresh(EnsureReplicas(RequeueReplicas(p, b), b, kinds), b)
  {
    var q := RequeueReplicas(p, b);
    RequeueServes(p, b, b);
    assert q.nextRow == p.nextRow;
    hide RequeueReplicas;
    EnsureFrame(q, b, kinds);
    EnsureAdds(q, b, kinds);
    hide EnsureReplicas;
  }

  lemma OtherCommitServes(s: State, u: UploadId, kinds: seq<Provider>, b: BlobId)
    requires Inv(s) && Enabled(s, UploadCommit(u, kinds)) && s.uploads[u].blob != b && Fresh(s, b)
    ensures Fresh(CommitUpload(s, u, kinds), b)
  {
    var blob, p := s.uploads[u].blob, PublishPrimary(s, u);
    PublishServes(s, u, b);
    StaysFresh(s, p, b);
    hide Inv, PublishPrimary, Fresh;
    if kinds != [] {
      var q := RequeueReplicas(p, blob);
      RequeueServes(p, blob, b);
      assert q.nextRow == p.nextRow;
      hide RequeueReplicas;
      StaysFresh(p, q, b);
      EnsureFrame(q, blob, kinds);
      EnsureAdds(q, blob, kinds);
      hide EnsureReplicas;
      StaysFresh(q, EnsureReplicas(q, blob, kinds), b);
    }
  }

  // ------------------------------------------------------------------- every step

  lemma InPlaceServes(s: State, step: Step, b: BlobId)
    requires RowsOwn(s) && Enabled(s, step)
    requires step.RefreshMirror? || step.RecordFailure? || step.Park? || step.Health? || step.PurgeCommit?
      || step.CommitManifest?
    ensures SameServing(s, Apply(s, step), b)
  {
    hide SameServing, ReportHealth, EnsureReplicas, PurgeRows;
    if step.RefreshMirror? {
      MirrorServes(s, step.worker, step.stored, b);
    } else if step.RecordFailure? {
      FailureServes(s, step.worker, step.stored, b);
    } else if step.Park? {
      ParkServes(s, step.row, b);
    } else if step.Health? {
      HealthServes(s, step.blob, step.verdict, b);
    } else if step.PurgeCommit? {
      PurgeServes(s, step.purge, b);
    } else {
      ManifestServes(s, step.blob, step.replicaKinds, b);
    }
  }

  /** From a fresh state exactly the two kinds of step put a row in service that lacks the latest upload. */
  lemma StepServes(s: State, step: Step, b: BlobId)
    requires Inv(s) && Enabled(s, step) && Fresh(s, b)
    ensures Outdates(s, step, b) ==> !ServesLatest(Apply(s, step), b)
    ensures !Outdates(s, step, b) ==> Fresh(Apply(s, step), b)
  {
    assert Outdates(s, step, b) ==> step.Activate? || step.UploadCommit?;
    hide Inv, Fresh, ServesLatest, Apply, Enabled, Outdates;
    if step.Activate? {
      ActivateStep(s, step, b);
    } else if step.UploadCommit? {
      CommitStep(s, step, b);
    } else {
      OtherStep(s, step, b);
    }
  }

  lemma OtherStep(s: State, step: Step, b: BlobId)
    requires Inv(s) && Enabled(s, step) && Fresh(s, b) && !step.Activate? && !step.UploadCommit?
    ensures Fresh(Apply(s, step), b)
  {
    var t := Apply(s, step);
    assert RowsOwn(s) && FreshHandle(s);
    hide Inv, Fresh, RowsOwn, Apply, Enabled;
    if Aside(step) {
      AsideStep(s, step, b);
    } else {
      InPlaceServes(s, step, b);
    }
    hide SameServing;
    StaysFresh(s, t, b);
  }

  lemma AsideStep(s: State, step: Step, b: BlobId)
    requires FreshHandle(s) && Enabled(s, step) && Aside(step)
    ensures SameServing(s, Apply(s, step), b)
  {
    if WorkerStep(step) { WorkerAsideStays(s, step); } else { OuterAsideStays(s, step); }
    StepHistory(s, step);
    hide Apply, Enabled, SameServing, Aside, WorkerStep;
    SameRowsServe(s, Apply(s, step), b);
  }

  lemma ActivateStep(s: State, step: Step, b: BlobId)
    requires Inv(s) && Enabled(s, step) && Fresh(s, b) && step.Activate?
    ensures Outdates(s, step, b) ==> !ServesLatest(Apply(s, step), b)
    ensures !Outdates(s, step, b) ==> Fresh(Apply(s, step), b)
  {
    UpdateServes(s, step.worker, step.outcome, b);
    hide Inv, Fresh, ServesLatest, ActivateRow;
  }

  lemma CommitStep(s: State, step: Step, b: BlobId)
    requires Inv(s) && Enabled(s, step) && Fresh(s, b) && step.UploadCommit?
    ensures Outdates(s, step, b) ==> !ServesLatest(Apply(s, step), b)
    ensures !Outdates(s, step, b) ==> Fresh(Apply(s, step), b)
  {
    if s.uploads[step.upload].blob == b {
      CommitServes(s, step.upload, step.replicaKinds, b);
    } else {
      OtherCommitServes(s, step.upload, step.replicaKinds, b);
    }
    hide Inv, Fresh, ServesLatest, CommitUpload;
  }

  // ------------------------------------------------------------------- whole runs

  /** In every state of the run the serving rows hold the latest upload. */
  ghost predicate AlwaysLatest(s: State, run: seq<Step>, b: BlobId)
    requires Valid(s, run)
    decreases |run|
  {
    ServesLatest(s, b) && (run != [] ==> AlwaysLatest(Apply(s, run[0]), run[1..], b))
  }

  /** No step of the run is a stale update or an unconfigured commit over a serving replica. */
  ghost predicate NeverOutdated(s: State, run: seq<Step>, b: BlobId)
    requires Valid(s, run)
    decreases |run|
  {
    run == [] || (!Outdates(s, run[0], b) && NeverOutdated(Apply(s, run[0]), run[1..], b))
  }

  lemma FreshServes(s: State, b: BlobId)
    requires Fresh(s, b)
    ensures ServesLatest(s, b)
  {
  }

  lemma {:induction false} FreshRunIff(s: State, run: seq<Step>, b: BlobId)
    requires Inv(s) && Fresh(s, b) && Valid(s, run)
    ensures AlwaysLatest(s, run, b) <==> NeverOutdated(s, run, b)
    decreases |run|
  {
    FreshServes(s, b);
    if run != [] {
      StepServes(s, run[0], b);
      StepKeeps(s, run[0]);
      hide Inv, Fresh, Outdates, Apply, Enabled, ServesLatest;
      if !Outdates(s, run[0], b) {
        FreshRunIff(Apply(s, run[0]), run[1..], b);
      }
    }
  }

  /** Over every run: the serving rows hold the latest upload all along exactly if no step outdates them. */
  lemma {:induction false} AlwaysLatestIff(run: seq<Step>, b: BlobId)
    requires Valid(Empty, run)
    ensures AlwaysLatest(Empty, run, b) <==> NeverOutdated(Empty, run, b)
  {
    assert Inv(Empty) && Fresh(Empty, b);
    FreshRunIff(Empty, run, b);
  }

  /**
   Since a commit, whatever happened before it: exactly if that commit had replicas configured or
   no replica served other bytes, and no step since outdates a row.
   */
  lemma {:induction false} LatestSinceCommitIff(before: seq<Step>, u: UploadId, kinds: seq<Provider>, run: seq<Step>)
    requires Valid(Empty, before) && Enabled(Final(Empty, before), UploadCommit(u, kinds))
    requires Valid(Apply(Final(Empty, before), UploadCommit(u, kinds)), run)
    ensures var s, step := Final(Empty, before), UploadCommit(u, kinds);
      var b := s.uploads[u].blob;
      AlwaysLatest(Apply(s, step), run, b) <==> !UnconfiguredCommit(s, step, b) && NeverOutdated(Apply(s, step), run, b)
  {
    assert Inv(Empty);
    RunKeeps(Empty, before);
    var s, step := Final(Empty, before), UploadCommit(u, kinds);
    var b := s.uploads[u].blob;
    CommitServes(s, u, kinds, b);
    StepKeeps(s, step);
    assert Apply(s, step) == CommitUpload(s, u, kinds);
    hide Inv, Fresh, Enabled, Apply, ServesLatest, CommitUpload, UnconfiguredCommit;
    if !UnconfiguredCommit(s, step, b) {
      FreshRunIff(Apply(s, step), run, b);
    }
  }

  /** In such a state a read that returns anything returns the latest upload, whichever copy serves. */
  lemma LatestIsRead(
    s: State, b: BlobId, rows: seq<Row>, get: Row -> Answer, tried: nat, result: Result<Bytes, Answer>)
    requires b in s.transports && ServesLatest(s, b)
    requires PlacementReads.Lists(s, rows, b) && PlacementReads.AnswersStored(s, rows, get)
    requires ServedAt(ReadOrder.DocumentedOrder(rows), get, tried, result) && exists r <- rows :: r.Readable()
    ensures result.Ok? ==> result.value == s.transports[b].hash.preimage
  {
    if result.Ok? {
      PlacementReads.SomeCandidate(rows);
      var r := PlacementReads.ServedFromRow(rows, get, tried, result);
    }
  }
}
