/** Exactly when a row that serves reads names a copy that is gone. */
module PlacementDrops {
  import opened Basics
  import opened PlacementRows
  import opened Placement
  import opened PlacementFrames
  import opened PlacementInvariant
  import opened PlacementSafety
  import opened ReadOrder

  // ------------------------------------------------------------- one health report

  /** Every row of the blob that serves reads names a copy that exists. */
  predicate CopiesNamed(s: State, b: BlobId) {
    forall r <- s.rows :: s.rows[r].blob == b && s.rows[r].Readable() ==>
      s.rows[r].handle.Some? && s.rows[r].handle.value in s.copies
  }

  /** The copies of the blob's parked primary rows still exist. */
  predicate ParkedCopiesExist(s: State, b: BlobId) {
    forall r <- s.rows :: s.rows[r].blob == b && s.rows[r].role == Primary && s.rows[r].status == Missing ==>
      s.rows[r].handle.Some? && s.rows[r].handle.value in s.copies
  }

  /**
   A health report keeps every readable row's copy in place exactly when it says MISSING or
   no worker has yet deleted the copy of a parked primary row.
   */
  lemma HealthIsSafeIff(s: State, b: BlobId, verdict: Status)
    requires Inv(s) && Enabled(s, Health(b, verdict)) && CopiesNamed(s, b)
    ensures CopiesNamed(ReportHealth(s, b, verdict), b) <==> verdict == Missing || ParkedCopiesExist(s, b)
  {
    hide Inv;
    HealthRows(s, b, verdict);
    hide ReportHealth;
    var t := ReportHealth(s, b, verdict);
    if verdict != Missing && !ParkedCopiesExist(s, b) {
      var r :| r in s.rows && s.rows[r].blob == b && s.rows[r].role == Primary && s.rows[r].status == Missing
        && !(s.rows[r].handle.Some? && s.rows[r].handle.value in s.copies);
      assert t.rows[r].Readable();
    }
  }

  /** Which rows the report makes readable. */
  lemma HealthRows(s: State, b: BlobId, verdict: Status)
    requires Enabled(s, Health(b, verdict))
    ensures var t := ReportHealth(s, b, verdict);
      && t.copies == s.copies && t.rows.Keys == s.rows.Keys
      && forall r <- s.rows ::
        && t.rows[r].blob == s.rows[r].blob && t.rows[r].handle == s.rows[r].handle
        && (s.rows[r].blob == b && s.rows[r].role == Primary && s.rows[r].status == Missing ==>
          (t.rows[r].Readable() <==> verdict != Missing))
        && (t.rows[r].Readable() ==>
          || s.rows[r].Readable()
          || (s.rows[r].blob == b && s.rows[r].role == Primary && s.rows[r].status == Missing))
  {
  }

  /** A report gives every ACTIVE, MODIFIED or MISSING primary row of the blob its verdict, and changes no other. */
  lemma HealthSetsVerdict(s: State, b: BlobId, verdict: Status)
    requires Enabled(s, Health(b, verdict))
    ensures var t := Apply(s, Health(b, verdict));
      && t == s.(rows := t.rows, revived := t.revived) && t.rows.Keys == s.rows.Keys
      && forall r <- s.rows ::
        var hit := s.rows[r].blob == b && s.rows[r].role == Primary && s.rows[r].status in {Active, Modified, Missing};
        t.rows[r] == if hit then s.rows[r].(status := verdict) else s.rows[r]
  {
  }

  // ------------------------------------------------------------------ whole runs

  /** This step deletes copy h as the old copy in a worker's snapshot. */
  predicate DropsCopy(s: State, step: Step, h: Handle) {
    step.DropOld? && step.deleted && step.worker in s.workers && s.workers[step.worker].snap.handle == Some(h)
  }

  /** Some step of the run does. */
  ghost predicate Drops(s: State, run: seq<Step>, h: Handle)
    requires Valid(s, run)
    decreases |run|
  {
    run != [] && (DropsCopy(s, run[0], h) || Drops(Apply(s, run[0]), run[1..], h))
  }

  /** An upload or a worker still has the handle of its own new copy. */
  predicate Held(s: State, h: Handle) {
    || (exists u <- s.uploads :: s.uploads[u].handle == h)
    || (exists w <- s.workers :: HoldsWritten(s.workers[w].phase, h))
  }

  predicate HoldsWritten(phase: Phase, h: Handle) {
    (phase.Activating? || phase.Cleaning?) && phase.written == h
  }

  /** A stored copy that no row names and nobody is going to publish. */
  predicate Abandoned(s: State, h: Handle) { h in s.puts && h !in s.published && !Held(s, h) }

  /** Copy h, if it is one of blob b, exists or can never come to stand in a row. */
  predicate Accounted(s: State, h: Handle, b: BlobId) {
    h in s.puts && s.puts[h].blob == b ==> h in s.copies || Abandoned(s, h)
  }

  /** The steps that can take copy h away. */
  predicate Removes(s: State, step: Step, h: Handle) {
    || DropsCopy(s, step, h)
    || (step.Clean? && step.worker in s.workers && s.workers[step.worker].phase == Cleaning(h))
    || (step.PurgeDelete? && step.target == h)
    || (step.ProviderLoss? && step.copy == h)
  }

  /** What a step can do to copies, puts, published handles and handles held. */
  ghost predicate Frame(s: State, t: State, step: Step) {
    && (forall h <- s.copies :: h in t.copies || Removes(s, step, h))
    && (forall h <- t.copies :: h in s.copies || h == s.nextHandle)
    && (forall h <- s.puts :: h in t.puts && t.puts[h] == s.puts[h])
    && (forall h <- t.puts :: h in s.puts || (h == s.nextHandle && h in t.copies))
    && s.nextHandle <= t.nextHandle
    && (forall h <- t.published :: h in s.published || Held(s, h))
    && forall h :: Held(t, h) ==> Held(s, h) || h == s.nextHandle
  }

  /** Worker w is the only one to change, and holds what it held, its own put, or nothing. */
  lemma HeldByOthers(s: State, t: State, w: WorkerId)
    requires w in s.workers && t.uploads == s.uploads
    requires t.workers == s.workers - {w} || (w in t.workers && t.workers == s.workers[w := t.workers[w]])
    requires w in t.workers ==> forall h :: HoldsWritten(t.workers[w].phase, h) ==>
      HoldsWritten(s.workers[w].phase, h) || h == s.nextHandle
    ensures forall h :: Held(t, h) ==> Held(s, h) || h == s.nextHandle
  {
  }

  /**
   The worker moves on without holding anything new; copies, puts and uploads stay, one held handle may
   be published.
   */
  ghost predicate WorkerGoesOn(s: State, t: State, w: WorkerId) {
    && t.copies == s.copies && t.puts == s.puts && t.uploads == s.uploads && t.nextHandle == s.nextHandle
    && (forall h <- t.published :: h in s.published || Held(s, h))
    && w in s.workers && (t.workers == s.workers - {w} || (w in t.workers && t.workers == s.workers[w := t.workers[w]]))
    && (w in t.workers ==> forall h :: HoldsWritten(t.workers[w].phase, h) ==> HoldsWritten(s.workers[w].phase, h))
  }

  lemma GoesOnFrame(s: State, t: State, w: WorkerId, step: Step)
    requires WorkerGoesOn(s, t, w)
    ensures Frame(s, t, step)
  {
    HeldByOthers(s, t, w);
    hide Held;
  }

  lemma PhaseGoesOn(s: State, w: WorkerId, phase: Phase, inFlight: set<RowId>)
    requires w in s.workers && !phase.Activating? && !phase.Cleaning?
    ensures WorkerGoesOn(s, SetPhase(s.(inFlight := inFlight), w, phase), w)
  {
  }

  lemma EnterGoesOn(s: State, w: WorkerId)
    requires Enabled(s, Enter(w))
    ensures WorkerGoesOn(s, EnterGuard(s, w), w)
  {
    var wk := s.workers[w];
    var busy := s.inFlight + {wk.snap.id};
    if wk.given.Some? {
      PhaseGoesOn(s, w, if Sha256(wk.given.value) == wk.hash then Dropping(wk.given.value) else Failing, busy);
    } else {
      PhaseGoesOn(s, w, Listing, busy);
    }
  }

  lemma ReadGoesOn(s: State, w: WorkerId, answer: Option<Bytes>)
    requires Enabled(s, ReadSource(w, answer))
    ensures WorkerGoesOn(s, TryRead(s, w, answer), w)
  {
    hide WorkerGoesOn;
    assert s.(inFlight := s.inFlight) == s;
    var sources := s.workers[w].phase.sources;
    if sources == [] {
      PhaseGoesOn(s, w, Failing, s.inFlight);
    } else if answer.Some? && sources[0].Some? {
      var next := if Sha256(answer.value) == s.workers[w].hash then Dropping(answer.value) else Failing;
      PhaseGoesOn(s, w, next, s.inFlight);
    } else {
      PhaseGoesOn(s, w, Reading(sources[1..]), s.inFlight);
    }
  }

  lemma EndGoesOn(s: State, step: Step)
    requires Enabled(s, step) && (step.RefreshMirror? || step.RecordFailure? || step.ListSources?)
    ensures WorkerGoesOn(s, Apply(s, step), step.worker)
  {
    hide WorkerGoesOn, Finish, OrderPlacementsForRead;
    match step
    case ListSources(w, siblings) =>
      assert s.(inFlight := s.inFlight) == s;
      PhaseGoesOn(s, w, Reading(Handles(OrderPlacementsForRead(siblings)) + [s.workers[w].mirror]), s.inFlight);
    case RefreshMirror(w, stored) =>
      var wk := s.workers[w];
      FinishGoesOn(s, w, s.rows, s.transports);
      if stored && wk.snap.blob in s.transports {
        var record := s.transports[wk.snap.blob].Refreshed(wk.snap.provider, wk.phase.written);
        FinishGoesOn(s, w, s.rows, s.transports[wk.snap.blob := record]);
      }
    case RecordFailure(w, stored) =>
      var r := s.workers[w].snap.id;
      FinishGoesOn(s, w, s.rows, s.transports);
      if stored && r in s.rows {
        FinishGoesOn(s, w, s.rows[r := s.rows[r].(attempts := s.rows[r].attempts + 1)], s.transports);
      }
  }

  lemma FinishGoesOn(s: State, w: WorkerId, rows: map<RowId, Row>, transports: map<BlobId, Transport>)
    requires w in s.workers
    ensures WorkerGoesOn(s, Finish(s.(rows := rows, transports := transports), w), w)
    ensures s.(rows := s.rows, transports := s.transports) == s
    ensures s.(rows := rows, transports := s.transports) == s.(rows := rows)
    ensures s.(rows := s.rows, transports := transports) == s.(transports := transports)
  {
  }

  /** The conditional update publishes the handle the worker holds. */
  lemma UpdateGoesOn(s: State, w: WorkerId, phase: Phase)
    requires Enabled(s, Activate(w, Acked)) && UpdateMatches(s, w) && !phase.Activating? && !phase.Cleaning?
    ensures WorkerGoesOn(s, SetPhase(SetActive(s, s.workers[w].snap.id, s.workers[w].phase.written), w, phase), w)
  {
    ActivatorHolds(s, w);
    hide Held;
  }

  lemma UpdateEnds(s: State, w: WorkerId)
    requires Enabled(s, Activate(w, Acked)) && UpdateMatches(s, w)
    ensures WorkerGoesOn(s, Finish(SetActive(s, s.workers[w].snap.id, s.workers[w].phase.written), w), w)
  {
    ActivatorHolds(s, w);
    hide Held;
  }

  lemma ActivatorHolds(s: State, w: WorkerId)
    requires w in s.workers && s.workers[w].phase.Activating?
    ensures Held(s, s.workers[w].phase.written)
  {
    assert HoldsWritten(s.workers[w].phase, s.workers[w].phase.written);
  }

  lemma NoMatchGoesOn(s: State, w: WorkerId)
    requires w in s.workers && s.workers[w].phase.Activating?
    ensures WorkerGoesOn(s, SetPhase(s, w, Cleaning(s.workers[w].phase.written)), w)
  {
    hide Held;
  }

  lemma ActivateGoesOn(s: State, w: WorkerId, outcome: CallOutcome)
    requires Enabled(s, Activate(w, outcome))
    ensures WorkerGoesOn(s, ActivateRow(s, w, outcome), w)
  {
    hide WorkerGoesOn, SetPhase, SetActive, Finish;
    assert s.(inFlight := s.inFlight) == s;
    if outcome == Refused || (outcome == LostAck && !UpdateMatches(s, w)) {
      PhaseGoesOn(s, w, Failing, s.inFlight);
    } else if !UpdateMatches(s, w) {
      NoMatchGoesOn(s, w);
    } else if outcome == LostAck {
      UpdateGoesOn(s, w, Failing);
    } else if s.workers[w].snap.role == Primary {
      UpdateGoesOn(s, w, Mirroring(s.workers[w].phase.written));
    } else {
      UpdateEnds(s, w);
    }
  }

  lemma GoesOn(s: State, step: Step)
    requires Enabled(s, step)
    requires step.Enter? || step.ListSources? || step.ReadSource? || step.Activate? || step.RefreshMirror?
      || step.RecordFailure?
    ensures WorkerGoesOn(s, Apply(s, step), step.worker)
  {
    hide WorkerGoesOn, EnterGuard, TryRead, ActivateRow;
    match step
    case Enter(w) => EnterGoesOn(s, w);
    case ReadSource(w, answer) => ReadGoesOn(s, w, answer);
    case Activate(w, outcome) => ActivateGoesOn(s, w, outcome);
    case _ => EndGoesOn(s, step);
  }

  lemma DropFrame(s: State, w: WorkerId, deleted: bool)
    requires Enabled(s, DropOld(w, deleted))
    ensures Frame(s, Apply(s, DropOld(w, deleted)), DropOld(w, deleted))
  {
    var t := Apply(s, DropOld(w, deleted));
    DropCopies(s, w, deleted);
    hide Apply, DropsCopy;
    HeldByOthers(s, t, w);
    hide Held;
  }

  lemma DropCopies(s: State, w: WorkerId, deleted: bool)
    requires Enabled(s, DropOld(w, deleted))
    ensures var t := Apply(s, DropOld(w, deleted));
      && t.puts == s.puts && t.nextHandle == s.nextHandle && t.published == s.published && t.uploads == s.uploads
      && t.copies <= s.copies && (forall h <- s.copies :: h in t.copies || DropsCopy(s, DropOld(w, deleted), h))
      && w in t.workers && t.workers == s.workers[w := t.workers[w]] && t.workers[w].phase.Putting?
  {
  }

  lemma PutFrame(s: State, w: WorkerId, outcome: CallOutcome)
    requires Enabled(s, PutCopy(w, outcome)) && FreshHandle(s)
    ensures Frame(s, Apply(s, PutCopy(w, outcome)), PutCopy(w, outcome))
  {
    HeldByOthers(s, Apply(s, PutCopy(w, outcome)), w);
    hide Held;
  }

  lemma CleanFrame(s: State, w: WorkerId, deleted: bool)
    requires Enabled(s, Clean(w, deleted))
    ensures Frame(s, Apply(s, Clean(w, deleted)), Clean(w, deleted))
  {
    HeldByOthers(s, Apply(s, Clean(w, deleted)), w);
    hide Held;
  }

  lemma UploadPutFrame(s: State, u: UploadId, put: Put, up: Upload, step: Step)
    requires FreshHandle(s) && up.handle == s.nextHandle
    ensures Frame(s, StoreCopy(s, put), step)
    ensures Frame(s, StoreCopy(s, put).(uploads := s.uploads[u := up]), step)
  {
    var t := StoreCopy(s, put).(uploads := s.uploads[u := up]);
    forall h | Held(t, h) ensures Held(s, h) || h == s.nextHandle {
      if v :| v in t.uploads && t.uploads[v].handle == h && h != s.nextHandle {
        assert v in s.uploads;
      }
    }
  }

  lemma UploadFrame(s: State, step: Step)
    requires Enabled(s, step) && FreshHandle(s) && (step.UploadPut? || step.UploadAbort?)
    ensures Frame(s, Apply(s, step), step)
  {
    if step.UploadAbort? {
    } else if step.outcome == Refused {
    } else {
      UploadPutFrame(s, step.upload, Put(step.blob, step.bytes, Primary, ByUpload(step.upload)),
        Upload(step.blob, step.provider, step.bytes, s.nextHandle), step);
      hide Frame, StoreCopy;
    }
  }

  lemma CommitFrame(s: State, u: UploadId, kinds: seq<Provider>)
    requires Enabled(s, UploadCommit(u, kinds))
    ensures Frame(s, Apply(s, UploadCommit(u, kinds)), UploadCommit(u, kinds))
  {
    var t := Apply(s, UploadCommit(u, kinds));
    assert t == CommitUpload(s, u, kinds) && Held(s, s.uploads[u].handle);
    hide Apply, CommitUpload, Enabled;
    CommitFields(s, u, kinds);
    forall h | Held(t, h) ensures Held(s, h) {
      if v :| v in t.uploads && t.uploads[v].handle == h {
        assert v in s.uploads && s.uploads[v].handle == h;
      }
    }
    hide Held, Removes;
  }

  lemma CommitFields(s: State, u: UploadId, kinds: seq<Provider>)
    requires u in s.uploads
    ensures var t := CommitUpload(s, u, kinds);
      && t.copies == s.copies && t.puts == s.puts && t.nextHandle == s.nextHandle && t.workers == s.workers
      && t.uploads == s.uploads - {u} && t.published == s.published + {s.uploads[u].handle}
  {
    EnsureFrame(RequeueReplicas(PublishPrimary(s, u), s.uploads[u].blob), s.uploads[u].blob, kinds);
    hide EnsureReplicas;
  }

  /** Steps that change rows, snapshots or purge records only, and the removals by purge and provider. */
  lemma OuterFrame(s: State, step: Step)
    requires Enabled(s, step) && !WorkerStep(step) && !step.UploadPut? && !step.UploadAbort? && !step.UploadCommit?
    ensures Frame(s, Apply(s, step), step)
  {
    hide Frame, EnsureReplicas, PurgeTargets, ReportHealth, PurgeRows, Enabled, Apply;
    match step
    case CommitManifest(b, kinds) => ManifestFrame(s, b, kinds);
    case Snapshot(w, r, given) => SnapshotFrame(s, w, r, given);
    case Park(r) => ParkFrame(s, r);
    case Health(b, verdict) => HealthFrame(s, b, verdict);
    case PurgeList(p, b) => ListFrame(s, p, b);
    case PurgeDelete(p, h, deleted) => DeleteFrame(s, p, h, deleted);
    case PurgeCommit(p) => PurgeCommitFrame(s, p);
    case PurgeAbort(p) => PurgeAbortFrame(s, p);
    case ProviderLoss(h) => LossFrame(s, h);
  }

  /** Only rows, transports and records of purges and revivals differ. */
  lemma AsideFrame(s: State, t: State, step: Step)
    requires t.copies == s.copies && t.puts == s.puts && t.nextHandle == s.nextHandle && t.published == s.published
    requires t.uploads == s.uploads && t.workers == s.workers
    ensures Frame(s, t, step)
  {
    assert forall h :: Held(t, h) <==> Held(s, h);
    hide Held, Removes;
  }

  lemma ManifestFrame(s: State, b: BlobId, kinds: seq<Provider>)
    requires Enabled(s, CommitManifest(b, kinds))
    ensures Frame(s, Apply(s, CommitManifest(b, kinds)), CommitManifest(b, kinds))
  {
    EnsureFrame(s, b, kinds);
    hide Frame, EnsureReplicas;
    AsideFrame(s, Apply(s, CommitManifest(b, kinds)), CommitManifest(b, kinds));
  }

  lemma SnapshotFrame(s: State, w: WorkerId, r: RowId, given: Option<Bytes>)
    requires Enabled(s, Snapshot(w, r, given))
    ensures Frame(s, Apply(s, Snapshot(w, r, given)), Snapshot(w, r, given))
  {
    var t := Apply(s, Snapshot(w, r, given));
    forall h | Held(t, h) ensures Held(s, h) {
      if v :| v in t.workers && HoldsWritten(t.workers[v].phase, h) {
        assert v in s.workers && t.workers[v] == s.workers[v];
      }
    }
    hide Held, Removes;
  }

  lemma ParkFrame(s: State, r: RowId)
    requires Enabled(s, Park(r))
    ensures Frame(s, Apply(s, Park(r)), Park(r))
  {
    hide Frame;
    AsideFrame(s, Apply(s, Park(r)), Park(r));
  }

  lemma HealthFrame(s: State, b: BlobId, verdict: Status)
    requires Enabled(s, Health(b, verdict))
    ensures Frame(s, Apply(s, Health(b, verdict)), Health(b, verdict))
  {
    hide Frame;
    AsideFrame(s, Apply(s, Health(b, verdict)), Health(b, verdict));
  }

  lemma ListFrame(s: State, p: PurgeId, b: BlobId)
    requires Enabled(s, PurgeList(p, b))
    ensures Frame(s, Apply(s, PurgeList(p, b)), PurgeList(p, b))
  {
    hide Frame, PurgeTargets;
    AsideFrame(s, Apply(s, PurgeList(p, b)), PurgeList(p, b));
  }

  lemma PurgeCommitFrame(s: State, p: PurgeId)
    requires Enabled(s, PurgeCommit(p))
    ensures Frame(s, Apply(s, PurgeCommit(p)), PurgeCommit(p))
  {
    hide Frame;
    AsideFrame(s, Apply(s, PurgeCommit(p)), PurgeCommit(p));
  }

  lemma PurgeAbortFrame(s: State, p: PurgeId)
    requires Enabled(s, PurgeAbort(p))
    ensures Frame(s, Apply(s, PurgeAbort(p)), PurgeAbort(p))
  {
    hide Frame;
    AsideFrame(s, Apply(s, PurgeAbort(p)), PurgeAbort(p));
  }

  /** A removed copy, which the step is recorded to remove. */
  lemma RemovalFrame(s: State, t: State, step: Step, h: Handle)
    requires t == s.(copies := t.copies, lost := t.lost) && (t.copies == s.copies || t.copies == s.copies - {h})
    requires Removes(s, step, h)
    ensures Frame(s, t, step)
  {
    assert forall k :: Held(t, k) <==> Held(s, k);
    hide Held, Removes;
  }

  lemma DeleteFrame(s: State, p: PurgeId, h: Handle, deleted: bool)
    requires Enabled(s, PurgeDelete(p, h, deleted))
    ensures Frame(s, Apply(s, PurgeDelete(p, h, deleted)), PurgeDelete(p, h, deleted))
  {
    hide Frame;
    RemovalFrame(s, Apply(s, PurgeDelete(p, h, deleted)), PurgeDelete(p, h, deleted), h);
  }

  lemma LossFrame(s: State, h: Handle)
    requires Enabled(s, ProviderLoss(h))
    ensures Frame(s, Apply(s, ProviderLoss(h)), ProviderLoss(h))
  {
    hide Frame;
    RemovalFrame(s, Apply(s, ProviderLoss(h)), ProviderLoss(h), h);
  }

  lemma StepFrame(s: State, step: Step)
    requires Enabled(s, step) && FreshHandle(s)
    ensures Frame(s, Apply(s, step), step)
  {
    hide Frame, Apply, WorkerGoesOn;
    if step.DropOld? {
      DropFrame(s, step.worker, step.deleted);
    } else if step.PutCopy? {
      PutFrame(s, step.worker, step.outcome);
    } else if step.Clean? {
      CleanFrame(s, step.worker, step.deleted);
    } else if step.UploadCommit? {
      CommitFrame(s, step.upload, step.replicaKinds);
    } else if step.UploadPut? || step.UploadAbort? {
      UploadFrame(s, step);
    } else if WorkerStep(step) {
      GoesOn(s, step);
      GoesOnFrame(s, Apply(s, step), step.worker, step);
    } else {
      OuterFrame(s, step);
    }
  }

  // ------------------------------------------------------- what becomes of a copy

  /** A worker's clean-up deletes a copy that nobody else holds and no row names. */
  lemma CleanAbandons(s: State, w: WorkerId, deleted: bool, h: Handle)
    requires Inv(s) && Enabled(s, Clean(w, deleted)) && s.workers[w].phase == Cleaning(h)
    ensures Abandoned(Apply(s, Clean(w, deleted)), h)
  {
    assert WorkerOk(s, w, s.workers[w]);
    forall u | u in s.uploads ensures s.uploads[u].handle != h {
      assert UploadOk(s, u, s.uploads[u]);
    }
    forall v | v in s.workers && v != w ensures !HoldsWritten(s.workers[v].phase, h) {
      assert WorkerOk(s, v, s.workers[v]);
    }
  }

  lemma StaysAbandoned(s: State, t: State, step: Step, h: Handle)
    requires Frame(s, t, step) && Abandoned(s, h) && h < s.nextHandle
    ensures Abandoned(t, h)
  {
    hide Held;
  }

  lemma StepAccounts(s: State, step: Step, h: Handle, b: BlobId)
    requires Inv(s) && Enabled(s, step) && !step.ProviderLoss? && Clear(s, s.doomed, b)
    requires Accounted(s, h, b) && !DropsCopy(s, step, h)
    ensures Accounted(Apply(s, step), h, b)
  {
    var t := Apply(s, step);
    assert FreshHandle(s) && h in s.puts ==> h < s.nextHandle;
    StepFrame(s, step);
    if step.Clean? && s.workers[step.worker].phase == Cleaning(h) {
      CleanAbandons(s, step.worker, step.deleted, h);
    } else if h in s.puts && s.puts[h].blob == b && h !in s.copies {
      StaysAbandoned(s, t, step, h);
    } else if h in s.puts && s.puts[h].blob == b {
      NotRemoved(s, step, h, b);
    }
    hide Inv, Abandoned, Apply, Enabled, Removes;
  }

  /** No purge removes a copy of the blob, and a clean-up only its own. */
  lemma NotRemoved(s: State, step: Step, h: Handle, b: BlobId)
    requires PurgesOk(s) && Clear(s, s.doomed, b) && Enabled(s, step) && !step.ProviderLoss? && !DropsCopy(s, step, h)
    requires h in s.puts && s.puts[h].blob == b && !(step.Clean? && s.workers[step.worker].phase == Cleaning(h))
    ensures !Removes(s, step, h)
  {
    hide DropsCopy;
  }

  /** Once gone, a copy does not come back. */
  lemma {:induction false} GoneStaysGone(s: State, run: seq<Step>, h: Handle)
    requires Inv(s) && Valid(s, run) && h < s.nextHandle && h !in s.copies
    ensures h !in Final(s, run).copies
    decreases |run|
  {
    if run != [] {
      StepFrame(s, run[0]);
      StepKeeps(s, run[0]);
      hide Inv, Frame, Apply;
      GoneStaysGone(Apply(s, run[0]), run[1..], h);
    }
  }

  lemma {:induction false} RunAccounts(s: State, run: seq<Step>, h: Handle, b: BlobId)
    requires Inv(s) && Valid(s, run) && NoLossNoPurge(run, b) && s.lost == {} && Clear(s, s.doomed, b)
    requires Accounted(s, h, b)
    ensures Drops(s, run, h) ==> h !in Final(s, run).copies
    ensures Drops(s, run, h) || Accounted(Final(s, run), h, b)
    decreases |run|
  {
    if run != [] {
      assert run[0] in run;
      assert forall step <- run[1..] :: step in run;
      StepKeeps(s, run[0]);
      StepClear(s, run[0], b);
      if DropsCopy(s, run[0], h) {
        DropRemoves(s, run[0], h);
        hide Inv, Clear, Accounted, Apply, DropsCopy;
        GoneStaysGone(Apply(s, run[0]), run[1..], h);
      } else {
        StepAccounts(s, run[0], h, b);
        hide Inv, Clear, Accounted, Apply, DropsCopy;
        RunAccounts(Apply(s, run[0]), run[1..], h, b);
      }
    }
  }

  lemma DropRemoves(s: State, step: Step, h: Handle)
    requires Inv(s) && Enabled(s, step) && DropsCopy(s, step, h)
    ensures var t := Apply(s, step); h !in t.copies && h < t.nextHandle
  {
    assert WorkerOk(s, step.worker, s.workers[step.worker]);
  }

  /**
   In a run without loss or purge, the copy behind an ACTIVE row exists exactly if no worker
   has deleted it as the old copy of its snapshot. Nothing is asked of the health reports.
   */
  lemma {:induction false} ActiveRowExists(run: seq<Step>, r: RowId)
    requires Valid(Empty, run)
    requires var s := Final(Empty, run);
      r in s.rows && s.rows[r].Readable() && NoLossNoPurge(run, s.rows[r].blob)
    ensures var s := Final(Empty, run);
      && s.rows[r].handle.Some?
      && (s.rows[r].handle.value in s.copies <==> !Drops(Empty, run, s.rows[r].handle.value))
  {
    var s := Final(Empty, run);
    var b := s.rows[r].blob;
    assert Inv(Empty);
    RunKeeps(Empty, run);
    assert OwnsHandle(s, s.rows[r]);
    RunAccounts(Empty, run, s.rows[r].handle.value, b);
  }
}
