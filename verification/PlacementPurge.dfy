/** Purge is final: nothing brings a purged blob's rows back, and late copies are cleaned up. */
module PlacementPurge {
  import opened Basics
  import opened PlacementRows
  import opened Placement
  import opened PlacementFrames
  import opened PlacementInvariant
  import opened PlacementSafety

  /** No row, no transport, and no upload request that could bring them back. */
  predicate Purged(s: State, b: BlobId) {
    && b !in s.transports
    && (forall r <- s.rows :: s.rows[r].blob != b)
    && forall u <- s.uploads :: s.uploads[u].blob != b
  }

  predicate Uploads(step: Step, b: BlobId) { step.UploadPut? && step.blob == b }

  lemma {:induction false} EnsureOthers(s: State, c: BlobId, kinds: seq<Provider>, b: BlobId)
    requires c != b && forall r <- s.rows :: s.rows[r].blob != b
    ensures forall r <- EnsureReplicas(s, c, kinds).rows :: EnsureReplicas(s, c, kinds).rows[r].blob != b
    decreases |kinds|
  {
    if kinds != [] {
      var t := AddReplica(s, c, kinds[0]);
      assert EnsureReplicas(s, c, kinds) == EnsureReplicas(s, c, kinds[1..])
          || EnsureReplicas(s, c, kinds) == EnsureReplicas(t, c, kinds[1..]);
      hide EnsureReplicas;
      EnsureOthers(s, c, kinds[1..], b);
      EnsureOthers(t, c, kinds[1..], b);
    }
  }

  lemma CommitOthers(s: State, u: UploadId, kinds: seq<Provider>, b: BlobId)
    requires Purged(s, b) && u in s.uploads
    ensures Purged(CommitUpload(s, u, kinds), b)
  {
    var c := s.uploads[u].blob;
    var t := PublishPrimary(s, u);
    PublishOthers(s, u, b);
    hide PublishPrimary;
    if kinds != [] {
      assert Purged(RequeueReplicas(t, c), b);
      hide RequeueReplicas;
      EnsureOthers(RequeueReplicas(t, c), c, kinds, b);
      EnsureFrame(RequeueReplicas(t, c), c, kinds);
      hide EnsureReplicas;
    }
  }

  lemma PublishOthers(s: State, u: UploadId, b: BlobId)
    requires Purged(s, b) && u in s.uploads
    ensures Purged(PublishPrimary(s, u), b)
  {
  }

  /** No step of a worker, reader, health check or purge brings a purged blob's rows back. */
  lemma StepStaysPurged(s: State, step: Step, b: BlobId)
    requires Purged(s, b) && Enabled(s, step) && FreshHandle(s) && !Uploads(step, b)
    ensures Purged(Apply(s, step), b)
  {
    hide Enabled, Apply;
    if WorkerStep(step) {
      WorkerStepShape(s, step);
    } else {
      OuterStaysPurged(s, step, b);
    }
  }

  lemma OuterStaysPurged(s: State, step: Step, b: BlobId)
    requires Purged(s, b) && Enabled(s, step) && !WorkerStep(step) && !Uploads(step, b)
    ensures Purged(Apply(s, step), b)
  {
    hide Enabled, Apply, Purged;
    if PurgeStep(step) {
      PurgesStayPurged(s, step, b);
    } else {
      match step
      case UploadPut(u, c, provider, bytes, outcome) => UploadStaysPurged(s, step, b);
      case UploadAbort(u) => AbortStaysPurged(s, u, b);
      case UploadCommit(u, kinds) => CommitStaysPurged(s, u, kinds, b);
      case CommitManifest(c, kinds) => ManifestStaysPurged(s, c, kinds, b);
      case Snapshot(w, r, given) => SnapshotStaysPurged(s, w, r, given, b);
      case Park(r) => ParkStaysPurged(s, r, b);
      case Health(c, verdict) => HealthStaysPurged(s, c, verdict, b);
      case ProviderLoss(h) => LossStaysPurged(s, h, b);
    }
  }

  lemma UploadStaysPurged(s: State, step: Step, b: BlobId)
    requires Purged(s, b) && Enabled(s, step) && step.UploadPut? && step.blob != b
    ensures Purged(Apply(s, step), b)
  {
    var put := Put(step.blob, step.bytes, Primary, ByUpload(step.upload));
    var t := StoreCopy(s, put);
    assert Purged(t, b);
    assert Purged(t.(uploads := s.uploads[step.upload :=
      Upload(step.blob, step.provider, step.bytes, s.nextHandle)]), b);
    hide StoreCopy, Purged;
  }

  lemma AbortStaysPurged(s: State, u: UploadId, b: BlobId)
    requires Purged(s, b) && Enabled(s, UploadAbort(u))
    ensures Purged(Apply(s, UploadAbort(u)), b)
  {
  }

  lemma CommitStaysPurged(s: State, u: UploadId, kinds: seq<Provider>, b: BlobId)
    requires Purged(s, b) && Enabled(s, UploadCommit(u, kinds))
    ensures Purged(Apply(s, UploadCommit(u, kinds)), b)
  {
    hide CommitUpload, Purged;
    CommitOthers(s, u, kinds, b);
  }

  lemma ManifestStaysPurged(s: State, c: BlobId, kinds: seq<Provider>, b: BlobId)
    requires Purged(s, b) && Enabled(s, CommitManifest(c, kinds))
    ensures Purged(Apply(s, CommitManifest(c, kinds)), b)
  {
    EnsureOthers(s, c, kinds, b);
    EnsureFrame(s, c, kinds);
    hide EnsureReplicas;
  }

  lemma SnapshotStaysPurged(s: State, w: WorkerId, r: RowId, given: Option<Bytes>, b: BlobId)
    requires Purged(s, b) && Enabled(s, Snapshot(w, r, given))
    ensures Purged(Apply(s, Snapshot(w, r, given)), b)
  {
  }

  lemma ParkStaysPurged(s: State, r: RowId, b: BlobId)
    requires Purged(s, b) && Enabled(s, Park(r))
    ensures Purged(Apply(s, Park(r)), b)
  {
  }

  lemma HealthStaysPurged(s: State, c: BlobId, verdict: Status, b: BlobId)
    requires Purged(s, b) && Enabled(s, Health(c, verdict))
    ensures Purged(Apply(s, Health(c, verdict)), b)
  {
  }

  lemma LossStaysPurged(s: State, h: Handle, b: BlobId)
    requires Purged(s, b) && Enabled(s, ProviderLoss(h))
    ensures Purged(Apply(s, ProviderLoss(h)), b)
  {
  }

  lemma PurgesStayPurged(s: State, step: Step, b: BlobId)
    requires Purged(s, b) && Enabled(s, step) && PurgeStep(step)
    ensures Purged(Apply(s, step), b)
  {
    hide PurgeTargets, PurgeRows, Purged;
    match step
    case PurgeList(p, c) => FieldsAside(s, Apply(s, step), b);
    case PurgeDelete(p, h, deleted) => FieldsAside(s, Apply(s, step), b);
    case PurgeCommit(p) =>
      RowsGoPurged(s, s.purges[p].blob, b);
      FieldsAside(PurgeRows(s, s.purges[p].blob), Apply(s, step), b);
    case PurgeAbort(p) => FieldsAside(s, Apply(s, step), b);
  }

  lemma FieldsAside(s: State, t: State, b: BlobId)
    requires Purged(s, b) && t.transports == s.transports && t.rows == s.rows && t.uploads == s.uploads
    ensures Purged(t, b)
  {
  }

  lemma RowsGoPurged(s: State, c: BlobId, b: BlobId)
    requires Purged(s, b)
    ensures Purged(PurgeRows(s, c), b)
  {
  }

  lemma {:induction false} PurgedStays(s: State, run: seq<Step>, b: BlobId)
    requires Inv(s) && Purged(s, b) && Valid(s, run) && forall step <- run :: !Uploads(step, b)
    ensures Purged(Final(s, run), b)
    decreases |run|
  {
    if run != [] {
      assert run[0] in run;
      StepKeeps(s, run[0]);
      StepStaysPurged(s, run[0], b);
      assert forall step <- run[1..] :: step in run;
      PurgedStays(Apply(s, run[0]), run[1..], b);
    }
  }

  lemma PurgeCommitPurges(s: State, p: PurgeId)
    requires p in s.purges && forall u <- s.uploads :: s.uploads[u].blob != s.purges[p].blob
    ensures Purged(Apply(s, PurgeCommit(p)), s.purges[p].blob)
  {
  }

  // ------------------------------------------------------------------- leaks

  predicate Holding(p: Phase) { p.Activating? || p.Cleaning? }

  /** Copies of b that no worker is about to publish or clean up. */
  ghost function Leaked(s: State, b: BlobId): set<Handle> {
    set h | h in s.copies && h in s.puts && s.puts[h].blob == b && !HeldBySome(s, h, b)
  }

  ghost predicate HeldBySome(s: State, h: Handle, b: BlobId) {
    exists w :: w in s.workers && s.workers[w].snap.blob == b && Holding(s.workers[w].phase)
      && s.workers[w].phase.written == h
  }

  /** Provider and database calls of b's workers that report what they did. */
  predicate FaultFree(s: State, step: Step, b: BlobId) {
    match step
    case UploadPut(_, c, _, _, _) => c != b
    case PutCopy(w, outcome) => w in s.workers && s.workers[w].snap.blob == b ==> outcome != LostAck
    case Activate(w, outcome) => w in s.workers && s.workers[w].snap.blob == b ==> outcome == Acked
    case Clean(w, deleted) => w in s.workers && s.workers[w].snap.blob == b ==> deleted
    case _ => true
  }

  /** No copy appears, and every copy held stays held. */
  predicate HoldersStay(s: State, t: State) {
    && t.copies <= s.copies
    && (forall h <- s.puts :: h in t.puts && t.puts[h] == s.puts[h])
    && forall w <- s.workers :: Holding(s.workers[w].phase) ==>
      w in t.workers && t.workers[w].snap == s.workers[w].snap && t.workers[w].phase == s.workers[w].phase
  }

  lemma HoldersStayLeaks(s: State, t: State, b: BlobId)
    requires s.copies <= s.puts.Keys && HoldersStay(s, t)
    ensures Leaked(t, b) <= Leaked(s, b)
  {
    forall h | h in Leaked(t, b) ensures h in Leaked(s, b) {
      assert HeldBySome(s, h, b) ==> HeldBySome(t, h, b);
    }
  }

  lemma QuietHolders(s: State, step: Step)
    requires Enabled(s, step) && FreshHandle(s) && !step.UploadPut? && !step.PutCopy? && !step.Activate? && !step.Clean?
    ensures HoldersStay(s, Apply(s, step))
  {
    if WorkerStep(step) {
      assert !s.workers[step.worker].phase.Putting? && !Holding(s.workers[step.worker].phase);
      WorkerStepShape(s, step);
      hide Enabled, Apply;
    } else if step.Snapshot? {
      SnapshotHolders(s, step);
    } else {
      OuterStepShape(s, step);
      hide Enabled, Apply;
    }
  }

  lemma SnapshotHolders(s: State, step: Step)
    requires Enabled(s, step) && step.Snapshot?
    ensures HoldersStay(s, Apply(s, step))
  {
  }

  /** What a step of worker w may do with the copy it holds or puts: keep holding it, unless it is deleted. */
  ghost predicate KeepsHold(s: State, t: State, w: WorkerId, b: BlobId)
    requires w in s.workers
  {
    var wk := s.workers[w];
    && (Holding(wk.phase) && wk.snap.blob == b && wk.phase.written in t.copies ==>
          w in t.workers && Holding(t.workers[w].phase) && t.workers[w].phase.written == wk.phase.written)
    && (s.nextHandle in t.copies && s.nextHandle in t.puts && t.puts[s.nextHandle].blob == b ==>
          w in t.workers && t.workers[w].snap.blob == b && Holding(t.workers[w].phase)
            && t.workers[w].phase.written == s.nextHandle)
  }

  lemma PutKeepsHold(s: State, w: WorkerId, outcome: CallOutcome, b: BlobId)
    requires HandlesKnown(s) && Enabled(s, PutCopy(w, outcome)) && FaultFree(s, PutCopy(w, outcome), b)
    ensures KeepsHold(s, Apply(s, PutCopy(w, outcome)), w, b)
  {
    hide CommitUpload, EnsureReplicas, PurgeTargets, ReportHealth;
  }

  /** The row of a purged blob is gone, so the update matches nothing and the worker turns to cleaning. */
  lemma ActivateKeepsHold(s: State, w: WorkerId, outcome: CallOutcome, b: BlobId)
    requires HandlesKnown(s) && Purged(s, b) && w in s.workers && WorkerOk(s, w, s.workers[w])
    requires Enabled(s, Activate(w, outcome)) && FaultFree(s, Activate(w, outcome), b)
    ensures KeepsHold(s, Apply(s, Activate(w, outcome)), w, b)
  {
    hide CommitUpload, EnsureReplicas, PurgeTargets, ReportHealth;
  }

  lemma CleanKeepsHold(s: State, w: WorkerId, deleted: bool, b: BlobId)
    requires HandlesKnown(s) && Enabled(s, Clean(w, deleted)) && FaultFree(s, Clean(w, deleted), b)
    ensures KeepsHold(s, Apply(s, Clean(w, deleted)), w, b)
  {
    hide CommitUpload, EnsureReplicas, PurgeTargets, ReportHealth;
  }

  /** A step that keeps its worker's hold leaks nothing. */
  lemma HoldLeaksNothing(s: State, t: State, w: WorkerId, b: BlobId)
    requires HandlesKnown(s) && WorkerShape(s, t, w) && KeepsHold(s, t, w, b)
    ensures Leaked(t, b) <= Leaked(s, b)
  {
    forall h | h in t.copies && h in t.puts && t.puts[h].blob == b && (h !in s.copies || HeldBySome(s, h, b))
      ensures HeldBySome(t, h, b)
    {
      if h !in s.copies {
        assert h == s.nextHandle;
      } else {
        var v :| v in s.workers && s.workers[v].snap.blob == b && Holding(s.workers[v].phase)
          && s.workers[v].phase.written == h;
        assert v == w || t.workers[v] == s.workers[v];
      }
    }
  }

  /** A held copy that is put, moved on to cleaning, or cleaned never becomes a leak. */
  lemma HolderSteps(s: State, step: Step, b: BlobId)
    requires Inv(s) && Purged(s, b) && Enabled(s, step) && FaultFree(s, step, b)
    requires step.PutCopy? || step.Activate? || step.Clean?
    ensures Leaked(Apply(s, step), b) <= Leaked(s, b)
  {
    hide Inv, Apply, WorkerShape, KeepsHold, Leaked;
    KnownWorker(s, step.worker);
    WorkerStepShape(s, step);
    match step {
      case PutCopy(w, outcome) => PutKeepsHold(s, w, outcome, b);
      case Activate(w, outcome) => ActivateKeepsHold(s, w, outcome, b);
      case Clean(w, deleted) => CleanKeepsHold(s, w, deleted, b);
    }
    HoldLeaksNothing(s, Apply(s, step), step.worker, b);
  }

  lemma StepLeaksNothing(s: State, step: Step, b: BlobId)
    requires Inv(s) && Purged(s, b) && Enabled(s, step) && FaultFree(s, step, b)
    ensures Leaked(Apply(s, step), b) <= Leaked(s, b)
  {
    if step.PutCopy? || step.Activate? || step.Clean? {
      HolderSteps(s, step, b);
    } else if step.UploadPut? {
      UploadLeaksNothing(s, step, b);
    } else {
      assert FreshHandle(s) && s.copies <= s.puts.Keys;
      hide Inv, Enabled, Apply, Leaked, HoldersStay, FaultFree, Purged;
      QuietHolders(s, step);
      HoldersStayLeaks(s, Apply(s, step), b);
    }
  }

  /** Another blob's upload adds no copy of b. */
  lemma UploadLeaksNothing(s: State, step: Step, b: BlobId)
    requires HandlesKnown(s) && Enabled(s, step) && step.UploadPut? && step.blob != b
    ensures Leaked(Apply(s, step), b) <= Leaked(s, b)
  {
    var t := Apply(s, step);
    UploadAdds(s, step, b);
    hide Apply, Enabled, HandlesKnown;
    forall h | h in Leaked(t, b) ensures h in Leaked(s, b) {
      assert HeldBySome(s, h, b) ==> HeldBySome(t, h, b);
    }
  }

  lemma UploadAdds(s: State, step: Step, b: BlobId)
    requires s.nextHandle !in s.puts && Enabled(s, step) && step.UploadPut? && step.blob != b
    ensures var t := Apply(s, step);
      && t.workers == s.workers && t.copies <= s.copies + {s.nextHandle}
      && forall h :: h in t.puts && t.puts[h].blob == b ==> h in s.puts && s.puts[h].blob == b && h != s.nextHandle
  {
    var put := Put(step.blob, step.bytes, Primary, ByUpload(step.upload));
    StoreAdds(s, put, b);
    hide StoreCopy;
  }

  lemma StoreAdds(s: State, put: Put, b: BlobId)
    requires s.nextHandle !in s.puts && put.blob != b
    ensures var t := StoreCopy(s, put);
      && t.workers == s.workers && t.copies <= s.copies + {s.nextHandle}
      && forall h :: h in t.puts && t.puts[h].blob == b ==> h in s.puts && s.puts[h].blob == b && h != s.nextHandle
  {
  }

  ghost predicate FaultFreeRun(s: State, run: seq<Step>, b: BlobId)
    requires Valid(s, run)
    decreases |run|
  {
    run == [] || (FaultFree(s, run[0], b) && FaultFreeRun(Apply(s, run[0]), run[1..], b))
  }

  /** After the purge transaction, a fault-free run adds no leaked copy: what workers put, they clean up. */
  lemma {:induction false} PurgedLeaksNothing(s: State, run: seq<Step>, b: BlobId)
    requires Inv(s) && Purged(s, b) && Valid(s, run) && FaultFreeRun(s, run, b)
    ensures Purged(Final(s, run), b) && Leaked(Final(s, run), b) <= Leaked(s, b)
    decreases |run|
  {
    if run != [] {
      StepKeeps(s, run[0]);
      StepStaysPurged(s, run[0], b);
      StepLeaksNothing(s, run[0], b);
      PurgedLeaksNothing(Apply(s, run[0]), run[1..], b);
    }
  }

  /** Once b's workers are done, every copy of b that still exists was leaked before the transaction. */
  lemma {:induction false} QuiescentAfterPurge(s: State, run: seq<Step>, b: BlobId, h: Handle)
    requires Inv(s) && Purged(s, b) && Valid(s, run) && FaultFreeRun(s, run, b)
    requires var t := Final(s, run);
      && (forall w <- t.workers :: t.workers[w].snap.blob != b)
      && h in t.copies && h in t.puts && t.puts[h].blob == b
    ensures h in Leaked(s, b)
  {
    PurgedLeaksNothing(s, run, b);
    assert h in Leaked(Final(s, run), b);
  }

  // ------------------------------------------------------- the in-flight guard

  predicate Entered(s: State, w: WorkerId) { w in s.workers && !s.workers[w].phase.Waiting? }

  /** The guard holds exactly the rows of the workers inside processPlacement, one worker each. */
  ghost predicate GuardExact(s: State) {
    && (forall w <- s.workers :: Entered(s, w) ==> s.workers[w].snap.id in s.inFlight)
    && (forall v <- s.workers, w <- s.workers ::
      Entered(s, v) && Entered(s, w) && s.workers[v].snap.id == s.workers[w].snap.id ==> v == w)
    && forall r <- s.inFlight :: exists w :: Entered(s, w) && s.workers[w].snap.id == r
  }

  lemma MovesKeepEntries(s: State, t: State, w: WorkerId)
    requires GuardExact(s) && WorkerMoves(s, t, w)
    ensures forall v <- t.workers :: Entered(t, v) ==> t.workers[v].snap.id in t.inFlight
    ensures forall u <- t.workers, v <- t.workers ::
      Entered(t, u) && Entered(t, v) && t.workers[u].snap.id == t.workers[v].snap.id ==> u == v
  {
  }

  lemma MovesKeepGuard(s: State, t: State, w: WorkerId)
    requires GuardExact(s) && WorkerMoves(s, t, w)
    ensures GuardExact(t)
  {
    MovesKeepEntries(s, t, w);
    forall r | r in t.inFlight ensures exists v :: Entered(t, v) && t.workers[v].snap.id == r {
      if r in s.inFlight {
        var v :| Entered(s, v) && s.workers[v].snap.id == r;
        assert Entered(t, v) && t.workers[v].snap.id == r;
      } else {
        assert Entered(t, w) && t.workers[w].snap.id == r;
      }
    }
  }

  lemma SnapshotKeepsGuard(s: State, w: WorkerId, wk: Worker)
    requires GuardExact(s) && w !in s.workers && wk.phase.Waiting?
    ensures GuardExact(s.(workers := s.workers[w := wk]))
  {
    var t := s.(workers := s.workers[w := wk]);
    forall r | r in t.inFlight ensures exists v :: Entered(t, v) && t.workers[v].snap.id == r {
      var v :| Entered(s, v) && s.workers[v].snap.id == r;
      assert Entered(t, v) && t.workers[v].snap.id == r;
    }
  }

  lemma StepKeepsGuard(s: State, step: Step)
    requires FreshHandle(s) && GuardExact(s) && Enabled(s, step)
    ensures GuardExact(Apply(s, step))
  {
    if WorkerStep(step) {
      WorkerStepShape(s, step);
      hide GuardExact, Apply, Enabled, WorkerMoves;
      MovesKeepGuard(s, Apply(s, step), step.worker);
    } else if step.Snapshot? {
      hide GuardExact;
      SnapshotKeepsGuard(s, step.worker, Apply(s, step).workers[step.worker]);
    } else {
      OuterStepShape(s, step);
      hide Apply, Enabled;
    }
  }

  /** At most one worker is inside processPlacement for a row, and no guard entry is left behind. */
  lemma {:induction false} GuardIsExact(s: State, run: seq<Step>)
    requires Inv(s) && GuardExact(s) && Valid(s, run)
    ensures GuardExact(Final(s, run))
    decreases |run|
  {
    if run != [] {
      var step := run[0];
      assert FreshHandle(s);
      StepKeeps(s, step);
      hide Inv;
      StepKeepsGuard(s, step);
      hide GuardExact, Apply, Enabled;
      GuardIsExact(Apply(s, step), run[1..]);
    }
  }
}
