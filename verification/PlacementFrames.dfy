/** What one step of the placement protocol can touch, step by step. */
module PlacementFrames {
  import opened Basics
  import opened PlacementRows
  import opened Placement

  /** The steps a worker takes once it has its snapshot. */
  predicate WorkerStep(step: Step) {
    step.Enter? || step.ListSources? || step.ReadSource? || step.DropOld? || step.PutCopy? || step.Activate?
    || step.Clean? || step.RefreshMirror? || step.RecordFailure?
  }

  predicate FreshHandle(s: State) { s.nextHandle !in s.puts }

  /** The part of the state that says what happened to copies, apart from the replication protocol itself. */
  predicate SameHistory(s: State, t: State) {
    && s.lost == t.lost && s.doomed == t.doomed && s.revived == t.revived
    && forall h <- s.puts :: h in t.puts && t.puts[h] == s.puts[h]
  }

  /** Worker w entered the guarded section, moved on inside it, or left it together with its guard entry. */
  predicate WorkerMoves(s: State, t: State, w: WorkerId) {
    && w in s.workers
    && var wk := s.workers[w];
      || (t.workers == s.workers - {w}
          && t.inFlight == if wk.phase.Waiting? then s.inFlight else s.inFlight - {wk.snap.id})
      || (&& w in t.workers && t.workers[w].snap == wk.snap && !t.workers[w].phase.Waiting?
          && t.workers == s.workers[w := t.workers[w]]
          && (wk.phase.Waiting? ==> wk.snap.id !in s.inFlight)
          && t.inFlight == if wk.phase.Waiting? then s.inFlight + {wk.snap.id} else s.inFlight)
  }

  /** A worker step: no row or transport comes or goes, and only a put adds a copy. */
  predicate WorkerShape(s: State, t: State, w: WorkerId) {
    && WorkerMoves(s, t, w)
    && SameHistory(s, t)
    && t.uploads == s.uploads && t.transports.Keys == s.transports.Keys
    && t.rows.Keys == s.rows.Keys && (forall r <- s.rows :: t.rows[r].blob == s.rows[r].blob)
    && (if s.workers[w].phase.Putting? then t.copies <= s.copies + {s.nextHandle} else t.copies <= s.copies)
  }

  lemma PhaseShape(s: State, w: WorkerId, phase: Phase)
    requires w in s.workers && !s.workers[w].phase.Waiting? && !phase.Waiting?
    ensures WorkerShape(s, SetPhase(s, w, phase), w)
  {
  }

  lemma EnterShape(s: State, w: WorkerId)
    requires Enabled(s, Enter(w))
    ensures WorkerShape(s, Apply(s, Enter(w)), w)
  {
    var wk := s.workers[w];
    var entered := s.(inFlight := s.inFlight + {wk.snap.id});
    if wk.snap.id !in s.inFlight {
      if wk.given.Some? {
        EnteredShape(s, w, if Sha256(wk.given.value) == wk.hash then Dropping(wk.given.value) else Failing);
      } else {
        EnteredShape(s, w, Listing);
      }
    }
  }

  lemma EnteredShape(s: State, w: WorkerId, phase: Phase)
    requires w in s.workers && s.workers[w].phase.Waiting? && !phase.Waiting? && s.workers[w].snap.id !in s.inFlight
    ensures WorkerShape(s, SetPhase(s.(inFlight := s.inFlight + {s.workers[w].snap.id}), w, phase), w)
  {
  }

  lemma ListShape(s: State, w: WorkerId, siblings: seq<Row>)
    requires Enabled(s, ListSources(w, siblings))
    ensures WorkerShape(s, Apply(s, ListSources(w, siblings)), w)
  {
  }

  lemma ReadShape(s: State, w: WorkerId, answer: Option<Bytes>)
    requires Enabled(s, ReadSource(w, answer))
    ensures WorkerShape(s, Apply(s, ReadSource(w, answer)), w)
  {
    hide WorkerShape;
    var sources := s.workers[w].phase.sources;
    if sources == [] {
      PhaseShape(s, w, Failing);
    } else if answer.Some? && sources[0].Some? {
      PhaseShape(s, w, if Sha256(answer.value) == s.workers[w].hash then Dropping(answer.value) else Failing);
    } else {
      PhaseShape(s, w, Reading(sources[1..]));
    }
  }

  lemma DropShape(s: State, w: WorkerId, deleted: bool)
    requires Enabled(s, DropOld(w, deleted))
    ensures WorkerShape(s, Apply(s, DropOld(w, deleted)), w)
  {
    hide WorkerShape;
    var stale := s.workers[w].snap.handle;
    var copies := if stale.Some? && deleted then s.copies - {stale.value} else s.copies;
    FewerCopiesShape(s, w, copies, Putting(s.workers[w].phase.bytes));
    assert Apply(s, DropOld(w, deleted)) == SetPhase(s.(copies := copies), w, Putting(s.workers[w].phase.bytes));
  }

  lemma FewerCopiesShape(s: State, w: WorkerId, copies: set<Handle>, phase: Phase)
    requires w in s.workers && !s.workers[w].phase.Waiting? && !phase.Waiting? && copies <= s.copies
    ensures WorkerShape(s, SetPhase(s.(copies := copies), w, phase), w)
  {
  }

  lemma PutShape(s: State, w: WorkerId, outcome: CallOutcome)
    requires Enabled(s, PutCopy(w, outcome)) && FreshHandle(s)
    ensures WorkerShape(s, Apply(s, PutCopy(w, outcome)), w)
  {
  }

  lemma ActivateShape(s: State, w: WorkerId, outcome: CallOutcome)
    requires Enabled(s, Activate(w, outcome))
    ensures WorkerShape(s, Apply(s, Activate(w, outcome)), w)
  {
    hide WorkerShape, SetPhase, Finish, SetActive;
    var wk := s.workers[w];
    var updated := if UpdateMatches(s, w) then SetActive(s, wk.snap.id, wk.phase.written) else s;
    if outcome == Acked && UpdateMatches(s, w) && wk.snap.role == Replica {
      UpdateEndsShape(s, updated, w);
    } else if outcome == Refused || (outcome == LostAck && !UpdateMatches(s, w)) {
      PhaseShape(s, w, Failing);
    } else if !UpdateMatches(s, w) {
      PhaseShape(s, w, Cleaning(wk.phase.written));
    } else {
      UpdatePhaseShape(s, updated, w, if outcome == LostAck then Failing else Mirroring(wk.phase.written));
    }
  }

  lemma UpdateEndsShape(s: State, t: State, w: WorkerId)
    requires w in s.workers && s.workers[w].phase.Activating? && UpdateMatches(s, w)
    requires t == SetActive(s, s.workers[w].snap.id, s.workers[w].phase.written)
    ensures WorkerShape(s, Finish(t, w), w)
  {
  }

  lemma UpdatePhaseShape(s: State, t: State, w: WorkerId, phase: Phase)
    requires w in s.workers && s.workers[w].phase.Activating? && UpdateMatches(s, w) && !phase.Waiting?
    requires t == SetActive(s, s.workers[w].snap.id, s.workers[w].phase.written)
    ensures WorkerShape(s, SetPhase(t, w, phase), w)
  {
  }

  lemma CleanShape(s: State, w: WorkerId, deleted: bool)
    requires Enabled(s, Clean(w, deleted))
    ensures WorkerShape(s, Apply(s, Clean(w, deleted)), w)
  {
  }

  lemma MirrorShape(s: State, w: WorkerId, stored: bool)
    requires Enabled(s, RefreshMirror(w, stored))
    ensures WorkerShape(s, Apply(s, RefreshMirror(w, stored)), w)
  {
  }

  lemma FailureShape(s: State, w: WorkerId, stored: bool)
    requires Enabled(s, RecordFailure(w, stored))
    ensures WorkerShape(s, Apply(s, RecordFailure(w, stored)), w)
  {
  }

  lemma WorkerStepShape(s: State, step: Step)
    requires Enabled(s, step) && FreshHandle(s) && WorkerStep(step)
    ensures WorkerShape(s, Apply(s, step), step.worker)
  {
    hide WorkerShape, Enabled, Apply;
    match step
    case Enter(w) => EnterShape(s, w);
    case ListSources(w, siblings) => ListShape(s, w, siblings);
    case ReadSource(w, answer) => ReadShape(s, w, answer);
    case DropOld(w, deleted) => DropShape(s, w, deleted);
    case PutCopy(w, outcome) => PutShape(s, w, outcome);
    case Activate(w, outcome) => ActivateShape(s, w, outcome);
    case Clean(w, deleted) => CleanShape(s, w, deleted);
    case RefreshMirror(w, stored) => MirrorShape(s, w, stored);
    case RecordFailure(w, stored) => FailureShape(s, w, stored);
  }

  lemma {:induction false} EnsureFrame(s: State, b: BlobId, kinds: seq<Provider>)
    ensures EnsureReplicas(s, b, kinds)
      == s.(rows := EnsureReplicas(s, b, kinds).rows, nextRow := EnsureReplicas(s, b, kinds).nextRow)
    decreases |kinds|
  {
    if kinds != [] {
      var t := AddReplica(s, b, kinds[0]);
      assert EnsureReplicas(s, b, kinds) == EnsureReplicas(s, b, kinds[1..])
          || EnsureReplicas(s, b, kinds) == EnsureReplicas(t, b, kinds[1..]);
      hide EnsureReplicas;
      EnsureFrame(s, b, kinds[1..]);
      EnsureFrame(t, b, kinds[1..]);
    }
  }

  /** New replica rows are PENDING; the others stay as they are. */
  ghost predicate OnlyPendingReplicasAdded(s: State, t: State) {
    && (forall r <- s.rows :: r in t.rows && t.rows[r] == s.rows[r])
    && (forall r <- t.rows :: r !in s.rows ==> t.rows[r].role == Replica && !t.rows[r].Readable())
  }

  lemma {:induction false} EnsureAdds(s: State, blob: BlobId, kinds: seq<Provider>)
    requires forall r <- s.rows :: r < s.nextRow
    ensures OnlyPendingReplicasAdded(s, EnsureReplicas(s, blob, kinds))
    decreases |kinds|
  {
    if kinds != [] {
      var t := AddReplica(s, blob, kinds[0]);
      assert OnlyPendingReplicasAdded(s, t) && forall r <- t.rows :: r < t.nextRow;
      assert EnsureReplicas(s, blob, kinds) == EnsureReplicas(s, blob, kinds[1..])
          || EnsureReplicas(s, blob, kinds) == EnsureReplicas(t, blob, kinds[1..]);
      hide EnsureReplicas, AddReplica;
      EnsureAdds(s, blob, kinds[1..]);
      EnsureAdds(t, blob, kinds[1..]);
    }
  }

  /** A step outside any worker: workers keep their place and, except for an upload's put, copies only go. */
  predicate OuterShape(s: State, t: State) {
    && t.workers == s.workers && t.inFlight == s.inFlight
    && (forall h <- s.puts :: h in t.puts && t.puts[h] == s.puts[h])
  }

  lemma CommitShape(s: State, u: UploadId, kinds: seq<Provider>)
    requires u in s.uploads
    ensures OuterShape(s, CommitUpload(s, u, kinds)) && SameHistory(s, CommitUpload(s, u, kinds))
    ensures CommitUpload(s, u, kinds).copies == s.copies
  {
    EnsureFrame(RequeueReplicas(PublishPrimary(s, u), s.uploads[u].blob), s.uploads[u].blob, kinds);
  }

  lemma ManifestShape(s: State, b: BlobId, kinds: seq<Provider>)
    requires Enabled(s, CommitManifest(b, kinds))
    ensures var t := Apply(s, CommitManifest(b, kinds)); OuterShape(s, t) && SameHistory(s, t) && t.copies == s.copies
  {
    EnsureFrame(s, b, kinds);
  }

  predicate PurgeStep(step: Step) {
    step.PurgeList? || step.PurgeDelete? || step.PurgeCommit? || step.PurgeAbort?
  }

  lemma PurgeStepShape(s: State, step: Step)
    requires Enabled(s, step) && PurgeStep(step)
    ensures OuterShape(s, Apply(s, step)) && Apply(s, step).copies <= s.copies
    ensures Apply(s, step).lost == s.lost && Apply(s, step).revived == s.revived
    ensures Apply(s, step).doomed == s.doomed + (if step.PurgeList? then PurgeTargets(s, step.blob) else {})
  {
    assert s.doomed + {} == s.doomed;
    hide Enabled, Apply, PurgeTargets, OuterShape;
    match step
    case PurgeList(p, b) => PurgeListShape(s, p, b);
    case PurgeDelete(p, h, deleted) => PurgeDeleteShape(s, p, h, deleted);
    case PurgeCommit(p) => PurgeCommitShape(s, p);
    case PurgeAbort(p) => PurgeAbortShape(s, p);
  }

  lemma PurgeListShape(s: State, p: PurgeId, b: BlobId)
    requires Enabled(s, PurgeList(p, b))
    ensures var t := Apply(s, PurgeList(p, b));
      && OuterShape(s, t) && t.copies == s.copies && t.lost == s.lost && t.revived == s.revived
      && t.doomed == s.doomed + PurgeTargets(s, b)
  {
    hide PurgeTargets;
  }

  lemma PurgeDeleteShape(s: State, p: PurgeId, h: Handle, deleted: bool)
    requires Enabled(s, PurgeDelete(p, h, deleted))
    ensures var t := Apply(s, PurgeDelete(p, h, deleted));
      OuterShape(s, t) && t.copies <= s.copies && t.lost == s.lost && t.revived == s.revived && t.doomed == s.doomed
  {
  }

  lemma PurgeCommitShape(s: State, p: PurgeId)
    requires Enabled(s, PurgeCommit(p))
    ensures var t := Apply(s, PurgeCommit(p));
      OuterShape(s, t) && t.copies == s.copies && t.lost == s.lost && t.revived == s.revived && t.doomed == s.doomed
  {
  }

  lemma PurgeAbortShape(s: State, p: PurgeId)
    requires Enabled(s, PurgeAbort(p))
    ensures var t := Apply(s, PurgeAbort(p));
      OuterShape(s, t) && t.copies == s.copies && t.lost == s.lost && t.revived == s.revived && t.doomed == s.doomed
  {
  }

  lemma OuterStepShape(s: State, step: Step)
    requires Enabled(s, step) && FreshHandle(s) && !WorkerStep(step) && !step.Snapshot?
    ensures OuterShape(s, Apply(s, step))
    ensures step.UploadPut? || Apply(s, step).copies <= s.copies
  {
    hide CommitUpload, EnsureReplicas, PurgeTargets, PurgeRows, ReportHealth, OuterShape, StoreCopy, EnterGuard,
      TryRead, PutNewCopy, ActivateRow, Finish, SetPhase;
    if PurgeStep(step) {
      PurgeStepShape(s, step);
    } else if step.UploadCommit? {
      CommitShape(s, step.upload, step.replicaKinds);
    } else if step.CommitManifest? {
      ManifestShape(s, step.blob, step.replicaKinds);
    } else if step.Health? {
      HealthShape(s, step.blob, step.verdict);
    } else {
      PlainShape(s, step);
    }
  }

  lemma PlainShape(s: State, step: Step)
    requires Enabled(s, step) && FreshHandle(s)
    requires step.UploadPut? || step.UploadAbort? || step.Park? || step.ProviderLoss?
    ensures OuterShape(s, Apply(s, step))
    ensures step.UploadPut? || Apply(s, step).copies <= s.copies
  {
    match step
    case UploadPut(u, b, provider, bytes, outcome) =>
      var put := Put(b, bytes, Primary, ByUpload(u));
      StoreShape(s, put, s.uploads);
      StoreShape(s, put, s.uploads[u := Upload(b, provider, bytes, s.nextHandle)]);
      assert StoreCopy(s, put).(uploads := s.uploads) == StoreCopy(s, put);
      hide StoreCopy;
    case UploadAbort(u) =>
    case Park(r) =>
    case ProviderLoss(h) =>
  }

  lemma StoreShape(s: State, put: Put, uploads: map<UploadId, Upload>)
    requires FreshHandle(s)
    ensures OuterShape(s, StoreCopy(s, put).(uploads := uploads))
  {
  }

  lemma HealthShape(s: State, b: BlobId, verdict: Status)
    ensures OuterShape(s, ReportHealth(s, b, verdict)) && ReportHealth(s, b, verdict).copies == s.copies
  {
  }

  /** Only a provider loss adds to the lost copies, only a purge listing to the doomed ones. */
  lemma StepHistory(s: State, step: Step)
    requires Enabled(s, step) && FreshHandle(s)
    ensures var t := Apply(s, step);
      && t.lost == s.lost + (if step.ProviderLoss? then {step.copy} else {})
      && t.doomed == s.doomed + (if step.PurgeList? then PurgeTargets(s, step.blob) else {})
      && (!step.Health? ==> t.revived == s.revived)
      && forall h <- s.puts :: h in t.puts && t.puts[h] == s.puts[h]
  {
    if WorkerStep(step) {
      WorkerStepShape(s, step);
    } else {
      OuterStepHistory(s, step);
    }
  }

  lemma OuterStepHistory(s: State, step: Step)
    requires Enabled(s, step) && FreshHandle(s) && !WorkerStep(step)
    ensures var t := Apply(s, step);
      && t.lost == s.lost + (if step.ProviderLoss? then {step.copy} else {})
      && t.doomed == s.doomed + (if step.PurgeList? then PurgeTargets(s, step.blob) else {})
      && (!step.Health? ==> t.revived == s.revived)
      && forall h <- s.puts :: h in t.puts && t.puts[h] == s.puts[h]
  {
    hide CommitUpload, EnsureReplicas, PurgeTargets;
    if PurgeStep(step) {
      PurgeStepShape(s, step);
    } else if RowStep(step) {
      RowStepHistory(s, step);
    } else if step.UploadCommit? {
      CommitShape(s, step.upload, step.replicaKinds);
    } else if step.CommitManifest? {
      ManifestShape(s, step.blob, step.replicaKinds);
    } else {
      CopyStepHistory(s, step);
    }
  }

  lemma CopyStepHistory(s: State, step: Step)
    requires Enabled(s, step) && FreshHandle(s) && (step.UploadPut? || step.UploadAbort? || step.ProviderLoss?)
    ensures var t := Apply(s, step);
      && t.lost == s.lost + (if step.ProviderLoss? then {step.copy} else {}) && t.doomed == s.doomed
      && t.revived == s.revived
      && forall h <- s.puts :: h in t.puts && t.puts[h] == s.puts[h]
  {
    hide CommitUpload, EnsureReplicas, PurgeTargets, PurgeRows, ReportHealth, StoreCopy;
    match step {
      case UploadPut(u, b, provider, bytes, outcome) => StoreHistory(s, Put(b, bytes, Primary, ByUpload(u)));
      case _ =>
    }
  }

  lemma StoreHistory(s: State, put: Put)
    requires FreshHandle(s)
    ensures var t := StoreCopy(s, put);
      && t.lost == s.lost && t.doomed == s.doomed && t.revived == s.revived
      && forall h <- s.puts :: h in t.puts && t.puts[h] == s.puts[h]
  {
  }

  predicate RowStep(step: Step) { step.Park? || step.Health? || step.Snapshot? }

  lemma RowStepHistory(s: State, step: Step)
    requires Enabled(s, step) && RowStep(step)
    ensures var t := Apply(s, step);
      t.lost == s.lost && t.doomed == s.doomed && t.puts == s.puts && (!step.Health? ==> t.revived == s.revived)
  {
    hide CommitUpload, EnsureReplicas, PurgeTargets, PurgeRows;
  }
}
