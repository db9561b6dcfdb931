/** Safety of the placement protocol over all runs. */
module PlacementSafety {
  import opened Basics
  import opened PlacementRows
  import opened ReadOrder
  import opened Placement
  import opened PlacementFrames
  import opened PlacementInvariant

  // ------------------------------------------------------- one lemma per step

  lemma UploadPutKeeps(s: State, u: UploadId, b: BlobId, provider: Provider, bytes: Bytes, outcome: CallOutcome)
    requires Inv(s) && Enabled(s, UploadPut(u, b, provider, bytes, outcome))
    ensures Inv(Apply(s, UploadPut(u, b, provider, bytes, outcome)))
  {
    if outcome != Refused {
      StoreFresh(s, Put(b, bytes, Primary, ByUpload(u)));
      if outcome == Acked {
        AddUpload(StoreCopy(s, Put(b, bytes, Primary, ByUpload(u))), u, Upload(b, provider, bytes, s.nextHandle));
      }
    }
  }

  lemma AddUpload(s: State, u: UploadId, up: Upload)
    requires Inv(s) && UploadOk(s, u, up)
    ensures Inv(s.(uploads := s.uploads[u := up]))
  {
  }

  /** Two rows with one handle are one row. */
  lemma HandleNamesOneRow(s: State, a: RowId, b: RowId, h: Handle)
    requires RowsOwn(s) && SlotsUnique(s) && a in s.rows && b in s.rows
    requires s.rows[a].handle == Some(h) == s.rows[b].handle
    ensures a == b
  {
    assert OwnsHandle(s, s.rows[a]) && OwnsHandle(s, s.rows[b]);
    assert s.rows[a].role == Primary ==> SameSlot(s.rows[a], s.rows[b]);
  }

  lemma SnapshotKeeps(s: State, w: WorkerId, r: RowId, given: Option<Bytes>)
    requires Inv(s) && Enabled(s, Snapshot(w, r, given))
    ensures Inv(Apply(s, Snapshot(w, r, given)))
  {
    var row := s.rows[r];
    var t := s.transports[row.blob];
    var wk := Worker(row, t.hash, t.Mirror(), given, Waiting);
    assert WorkerOk(s, w, wk) by {
      assert OwnsHandle(s, row);
      if row.handle.Some? {
        forall q | q in s.rows && s.rows[q].Readable() && s.rows[q].handle == row.handle ensures false {
          HandleNamesOneRow(s, q, r, row.handle.value);
        }
      }
    }
    hide Inv;
    ChangeWorker(s, w, wk, s.inFlight);
    assert Apply(s, Snapshot(w, r, given)) == s.(workers := s.workers[w := wk], inFlight := s.inFlight);
  }

  lemma CheckKeeps(s: State, w: WorkerId, bytes: Bytes, inFlight: set<RowId>)
    requires Inv(s) && w in s.workers && BeforeDrop(s.workers[w].phase)
    ensures Inv(CheckHash(s.(inFlight := inFlight), w, bytes))
  {
    assert WorkerOk(s, w, s.workers[w]);
    hide Inv;
    var wk := s.workers[w].(phase := if Sha256(bytes) == s.workers[w].hash then Dropping(bytes) else Failing);
    ChangeWorker(s, w, wk, inFlight);
    assert CheckHash(s.(inFlight := inFlight), w, bytes) == s.(workers := s.workers[w := wk], inFlight := inFlight);
  }

  lemma EnterKeeps(s: State, w: WorkerId)
    requires Inv(s) && Enabled(s, Enter(w))
    ensures Inv(Apply(s, Enter(w)))
  {
    assert WorkerOk(s, w, s.workers[w]);
    hide Inv;
    var wk := s.workers[w];
    if wk.snap.id in s.inFlight {
      RemoveWorker(s, w, s.inFlight);
      assert EnterGuard(s, w) == s.(workers := s.workers - {w}, inFlight := s.inFlight);
    } else {
      var busy := s.inFlight + {wk.snap.id};
      if wk.given.Some? {
        CheckKeeps(s, w, wk.given.value, busy);
      } else {
        ChangeWorker(s, w, wk.(phase := Listing), busy);
        assert EnterGuard(s, w) == s.(workers := s.workers[w := wk.(phase := Listing)], inFlight := busy);
      }
    }
  }

  lemma ReadKeeps(s: State, w: WorkerId, answer: Option<Bytes>)
    requires Inv(s) && Enabled(s, ReadSource(w, answer))
    ensures Inv(Apply(s, ReadSource(w, answer)))
  {
    assert WorkerOk(s, w, s.workers[w]);
    hide Inv;
    var sources := s.workers[w].phase.sources;
    if sources == [] {
      Rephase(s, w, Failing);
    } else if answer.Some? && sources[0].Some? {
      CheckKeeps(s, w, answer.value, s.inFlight);
      assert s.(inFlight := s.inFlight) == s;
    } else {
      Rephase(s, w, Reading(sources[1..]));
    }
  }

  lemma DropKeeps(s: State, w: WorkerId, deleted: bool)
    requires Inv(s) && Enabled(s, DropOld(w, deleted))
    ensures Inv(Apply(s, DropOld(w, deleted)))
  {
    var wk := s.workers[w];
    KnownWorker(s, w);
    if wk.snap.handle.Some? {
      var h := wk.snap.handle.value;
      PublishedUnheld(s, h);
      hide Inv;
      DropperGoesOn(s, w, h, deleted);
      DeleteUnprotected(s, h, deleted);
      Rephase(Delete(s, h, deleted), w, Putting(wk.phase.bytes));
    } else {
      hide Inv;
      Rephase(s, w, Putting(wk.phase.bytes));
    }
  }

  /** A published copy is no upload's and no worker's own new copy. */
  lemma PublishedUnheld(s: State, h: Handle)
    requires UploadsOk(s) && WorkersOk(s) && h in s.published
    ensures forall u <- s.uploads :: s.uploads[u].handle != h
    ensures forall w <- s.workers :: s.workers[w].phase.Activating? ==> s.workers[w].phase.written != h
  {
    assert forall u <- s.uploads :: UploadOk(s, u, s.uploads[u]);
    assert forall v <- s.workers :: WorkerOk(s, v, s.workers[v]);
  }

  lemma DropperGoesOn(s: State, w: WorkerId, h: Handle, deleted: bool)
    requires w in s.workers && WorkerOk(s, w, s.workers[w]) && s.workers[w].phase.Dropping?
    ensures WorkerOk(Delete(s, h, deleted), w, s.workers[w].(phase := Putting(s.workers[w].phase.bytes)))
  {
  }

  lemma PutKeeps(s: State, w: WorkerId, outcome: CallOutcome)
    requires Inv(s) && Enabled(s, PutCopy(w, outcome))
    ensures Inv(Apply(s, PutCopy(w, outcome)))
  {
    hide Inv;
    var wk := s.workers[w];
    KnownWorker(s, w);
    if outcome == Refused {
      Rephase(s, w, Failing);
    } else {
      var put := Put(wk.snap.blob, wk.phase.bytes, wk.snap.role, ByWorker(w, wk.snap.id));
      StoreFresh(s, put);
      var next := if outcome == Acked then Activating(wk.phase.bytes, s.nextHandle) else Failing;
      StoredWorkerOk(s, w, wk, put, next);
      Rephase(StoreCopy(s, put), w, next);
    }
  }

  lemma StoredWorkerOk(s: State, w: WorkerId, wk: Worker, put: Put, next: Phase)
    requires WorkerOk(s, w, wk) && wk.phase.Putting? && s.nextHandle !in s.puts && s.nextHandle !in s.published
    requires put == Put(wk.snap.blob, wk.phase.bytes, wk.snap.role, ByWorker(w, wk.snap.id))
    requires next == Failing || next == Activating(wk.phase.bytes, s.nextHandle)
    ensures WorkerOk(StoreCopy(s, put), w, wk.(phase := next))
  {
  }

  lemma CleanKeeps(s: State, w: WorkerId, deleted: bool)
    requires Inv(s) && Enabled(s, Clean(w, deleted))
    ensures Inv(Apply(s, Clean(w, deleted)))
  {
    var h := s.workers[w].phase.written;
    assert WorkerOk(s, w, s.workers[w]);
    assert forall r <- s.rows :: OwnsHandle(s, s.rows[r]);
    assert forall u <- s.uploads :: UploadOk(s, u, s.uploads[u]);
    assert forall v <- s.workers :: WorkerOk(s, v, s.workers[v]);
    DeleteUnprotected(s, h, deleted);
    var t := Delete(s, h, deleted);
    hide Inv;
    RemoveWorker(t, w, t.inFlight - {s.workers[w].snap.id});
  }

  lemma MirrorKeeps(s: State, w: WorkerId, stored: bool)
    requires Inv(s) && Enabled(s, RefreshMirror(w, stored))
    ensures Inv(Apply(s, RefreshMirror(w, stored)))
  {
    var wk := s.workers[w];
    var b := wk.snap.blob;
    assert WorkerOk(s, w, wk);
    if stored && b in s.transports {
      var t := s.(transports := s.transports[b := s.transports[b].Refreshed(wk.snap.provider, wk.phase.written)]);
      SetMirror(s, t, b);
      hide Inv;
      RemoveWorker(t, w, t.inFlight - {wk.snap.id});
    } else {
      RemoveWorker(s, w, s.inFlight - {wk.snap.id});
    }
  }

  lemma SetMirror(s: State, t: State, b: BlobId)
    requires Inv(s) && b in s.transports && b in t.transports
    requires var transport := t.transports[b];
      t == s.(transports := s.transports[b := s.transports[b].(kind := transport.kind, columns := transport.columns)])
    requires t.transports[b].columns.Some? ==>
      var h := t.transports[b].columns.value; h in s.published && h in s.puts && s.puts[h].blob == b
    ensures Inv(t)
  {
    assert Evolves(s, t);
    WorkersSurvive(s, t);
    assert forall r <- t.rows :: OwnsHandle(s, s.rows[r]) ==> OwnsHandle(t, t.rows[r]);
  }

  lemma FailureKeeps(s: State, w: WorkerId, stored: bool)
    requires Inv(s) && Enabled(s, RecordFailure(w, stored))
    ensures Inv(Apply(s, RecordFailure(w, stored)))
  {
    hide Inv;
    var r := s.workers[w].snap.id;
    if stored && r in s.rows {
      var row := s.rows[r].(attempts := s.rows[r].attempts + 1);
      RewriteRow(s, r, row);
      RemoveWorker(s.(rows := s.rows[r := row]), w, s.inFlight - {r});
    } else {
      RemoveWorker(s, w, s.inFlight - {r});
    }
  }

  lemma HealthKeeps(s: State, b: BlobId, verdict: Status)
    requires Inv(s) && Enabled(s, Health(b, verdict))
    ensures Inv(ReportHealth(s, b, verdict))
  {
    var t := ReportHealth(s, b, verdict);
    HealthRevives(s, b, verdict);
    HealthRewrites(s, b, verdict);
    hide Inv, ReportHealth;
    RewriteRows(s, t.rows, t.revived);
  }

  /** Only published copies of primaries are revived. */
  lemma HealthRevives(s: State, b: BlobId, verdict: Status)
    requires RowsOwn(s) && HandlesKnown(s)
    ensures var t := ReportHealth(s, b, verdict);
      s.revived <= t.revived <= s.published && forall h <- t.revived :: s.puts[h].role == Primary
  {
    assert forall r <- s.rows :: OwnsHandle(s, s.rows[r]);
    hide RowsOwn;
  }

  lemma HealthRewrites(s: State, b: BlobId, verdict: Status)
    requires RowsOwn(s) && Enabled(s, Health(b, verdict))
    ensures var t := ReportHealth(s, b, verdict);
      t == s.(rows := t.rows, revived := t.revived) && Rewritten(s, t.rows, t.revived)
  {
  }

  lemma TargetsPublished(s: State, b: BlobId)
    requires RowsOwn(s) && HistoryHonest(s) && b in s.transports
    ensures PurgeTargets(s, b) <= s.published && forall h <- PurgeTargets(s, b) :: h in s.puts && s.puts[h].blob == b
  {
    assert forall r <- s.rows :: OwnsHandle(s, s.rows[r]);
  }

  /** More purges and more doomed copies make no promise harder to keep. */
  lemma DoomMore(s: State, t: State)
    requires Inv(s) && t == s.(purges := t.purges, doomed := t.doomed) && s.doomed <= t.doomed <= s.published
    requires PurgesOk(t)
    ensures Inv(t)
  {
    assert RowsOwn(t) by {
      forall r | r in t.rows ensures OwnsHandle(t, t.rows[r]) { assert OwnsHandle(s, s.rows[r]); }
    }
    assert UploadsOk(t) by {
      forall u | u in t.uploads ensures UploadOk(t, u, t.uploads[u]) { assert UploadOk(s, u, s.uploads[u]); }
    }
    assert WorkersOk(t) by {
      forall w | w in t.workers ensures WorkerOk(t, w, t.workers[w]) { assert WorkerOk(s, w, s.workers[w]); }
    }
    hide RowsOwn, UploadsOk, WorkersOk;
  }

  lemma PurgeListKeeps(s: State, p: PurgeId, b: BlobId)
    requires Inv(s) && Enabled(s, PurgeList(p, b))
    ensures Inv(Apply(s, PurgeList(p, b)))
    ensures forall h <- PurgeTargets(s, b) :: h in s.puts && s.puts[h].blob == b
  {
    TargetsPublished(s, b);
    var targets := PurgeTargets(s, b);
    hide PurgeTargets;
    var t := s.(purges := s.purges[p := Purge(b, targets)], doomed := s.doomed + targets);
    assert PurgesOk(t);
    DoomMore(s, t);
  }

  lemma PurgeDeleteKeeps(s: State, p: PurgeId, h: Handle, deleted: bool)
    requires Inv(s) && Enabled(s, PurgeDelete(p, h, deleted))
    ensures Inv(Apply(s, PurgeDelete(p, h, deleted)))
  {
    assert h in s.doomed && h in s.published;
    assert forall u <- s.uploads :: UploadOk(s, u, s.uploads[u]);
    assert forall v <- s.workers :: WorkerOk(s, v, s.workers[v]);
    DeleteUnprotected(s, h, deleted);
  }

  lemma LossKeeps(s: State, h: Handle)
    requires Inv(s) && h in s.copies
    ensures Inv(s.(copies := s.copies - {h}, lost := s.lost + {h}))
  {
    var t := s.(copies := s.copies - {h}, lost := s.lost + {h});
    forall w | w in t.workers ensures WorkerOk(t, w, t.workers[w]) { assert WorkerOk(s, w, s.workers[w]); }
    forall u | u in t.uploads ensures UploadOk(t, u, t.uploads[u]) { assert UploadOk(s, u, s.uploads[u]); }
    forall r | r in t.rows ensures OwnsHandle(t, t.rows[r]) { assert OwnsHandle(s, s.rows[r]); }
  }

  lemma PurgeEndKeeps(s: State, p: PurgeId, committed: bool)
    requires Inv(s) && p in s.purges
    ensures Inv(if committed then PurgeRows(s, s.purges[p].blob).(purges := s.purges - {p})
      else s.(purges := s.purges - {p}))
  {
    var t := s.(purges := s.purges - {p});
    assert Inv(t);
    if committed {
      hide Inv;
      DropRows(t, s.purges[p].blob);
      assert PurgeRows(t, s.purges[p].blob) == PurgeRows(s, s.purges[p].blob).(purges := s.purges - {p});
    }
  }

  /** Every step keeps the invariant. */
  lemma StepKeeps(s: State, step: Step)
    requires Inv(s) && Enabled(s, step)
    ensures Inv(Apply(s, step))
  {
    hide Inv, Enabled, Apply;
    match step
    case UploadPut(u, b, provider, bytes, outcome) => UploadPutKeeps(s, u, b, provider, bytes, outcome);
    case UploadCommit(u, kinds) => CommitStepKeeps(s, u, kinds);
    case UploadAbort(u) => AbortKeeps(s, u);
    case CommitManifest(b, kinds) => ManifestKeeps(s, b, kinds);
    case Snapshot(w, r, given) => SnapshotKeeps(s, w, r, given);
    case Enter(w) => EnterKeeps(s, w);
    case ListSources(w, siblings) => ListKeeps(s, w, siblings);
    case ReadSource(w, answer) => ReadKeeps(s, w, answer);
    case DropOld(w, deleted) => DropKeeps(s, w, deleted);
    case PutCopy(w, outcome) => PutKeeps(s, w, outcome);
    case Activate(w, outcome) => ActivateStepKeeps(s, w, outcome);
    case Clean(w, deleted) => CleanKeeps(s, w, deleted);
    case RefreshMirror(w, stored) => MirrorKeeps(s, w, stored);
    case RecordFailure(w, stored) => FailureKeeps(s, w, stored);
    case Park(r) => ParkKeeps(s, r);
    case Health(b, verdict) => HealthStepKeeps(s, b, verdict);
    case PurgeList(p, b) => PurgeListKeeps(s, p, b);
    case PurgeDelete(p, h, deleted) => PurgeDeleteKeeps(s, p, h, deleted);
    case PurgeCommit(p) => PurgeCommitKeeps(s, p);
    case PurgeAbort(p) => PurgeAbortKeeps(s, p);
    case ProviderLoss(h) => LossStepKeeps(s, h);
  }

  lemma AbortKeeps(s: State, u: UploadId)
    requires Inv(s) && Enabled(s, UploadAbort(u))
    ensures Inv(Apply(s, UploadAbort(u)))
  {
    hide Inv;
    RemoveUpload(s, u);
  }

  lemma ManifestKeeps(s: State, b: BlobId, kinds: seq<Provider>)
    requires Inv(s) && Enabled(s, CommitManifest(b, kinds))
    ensures Inv(Apply(s, CommitManifest(b, kinds)))
  {
    hide Inv;
    NewReplicas(s, b, kinds);
  }

  lemma CommitStepKeeps(s: State, u: UploadId, kinds: seq<Provider>)
    requires Inv(s) && Enabled(s, UploadCommit(u, kinds))
    ensures Inv(Apply(s, UploadCommit(u, kinds)))
  {
    hide Inv, CommitUpload;
    CommitKeeps(s, u, kinds);
  }

  lemma ActivateStepKeeps(s: State, w: WorkerId, outcome: CallOutcome)
    requires Inv(s) && Enabled(s, Activate(w, outcome))
    ensures Inv(Apply(s, Activate(w, outcome)))
  {
    hide Inv, ActivateRow;
    ActivateKeeps(s, w, outcome);
  }

  lemma ParkKeeps(s: State, r: RowId)
    requires Inv(s) && Enabled(s, Park(r))
    ensures Inv(Apply(s, Park(r)))
  {
    hide Inv;
    RewriteRow(s, r, s.rows[r].(status := Missing, attempts := 0));
  }

  lemma HealthStepKeeps(s: State, b: BlobId, verdict: Status)
    requires Inv(s) && Enabled(s, Health(b, verdict))
    ensures Inv(Apply(s, Health(b, verdict)))
  {
    hide Inv, ReportHealth;
    HealthKeeps(s, b, verdict);
  }

  lemma PurgeCommitKeeps(s: State, p: PurgeId)
    requires Inv(s) && Enabled(s, PurgeCommit(p))
    ensures Inv(Apply(s, PurgeCommit(p)))
  {
    hide Inv;
    PurgeEndKeeps(s, p, true);
  }

  lemma PurgeAbortKeeps(s: State, p: PurgeId)
    requires Inv(s) && Enabled(s, PurgeAbort(p))
    ensures Inv(Apply(s, PurgeAbort(p)))
  {
    hide Inv;
    PurgeEndKeeps(s, p, false);
  }

  lemma LossStepKeeps(s: State, h: Handle)
    requires Inv(s) && Enabled(s, ProviderLoss(h))
    ensures Inv(Apply(s, ProviderLoss(h)))
  {
    hide Inv;
    LossKeeps(s, h);
  }

  lemma ListKeeps(s: State, w: WorkerId, siblings: seq<Row>)
    requires Inv(s) && Enabled(s, ListSources(w, siblings))
    ensures Inv(Apply(s, ListSources(w, siblings)))
  {
    assert WorkerOk(s, w, s.workers[w]);
    hide Inv;
    Rephase(s, w, Reading(Handles(OrderPlacementsForRead(siblings)) + [s.workers[w].mirror]));
  }

  lemma {:induction false} RunKeeps(s: State, run: seq<Step>)
    requires Inv(s) && Valid(s, run)
    ensures Inv(Final(s, run))
    decreases |run|
  {
    if run != [] {
      StepKeeps(s, run[0]);
      RunKeeps(Apply(s, run[0]), run[1..]);
    }
  }

  // ---------------------------------------------------------------- theorems

  /**
   In every interleaving, a readable row's copy exists unless the provider lost it,
   a purge listed it, or a health report moved its row out of MISSING.
   */
  lemma {:induction false} ReadableRowsNameCopies(run: seq<Step>, r: RowId)
    requires Valid(Empty, run)
    requires r in Final(Empty, run).rows && Final(Empty, run).rows[r].Readable()
    ensures var s := Final(Empty, run); s.rows[r].handle.Some? && Kept(s, s.rows[r].handle.value)
  {
    assert Inv(Empty);
    RunKeeps(Empty, run);
  }

  /** A health report that takes no missing primary row of blob b out of MISSING. */
  predicate KeepsMissing(s: State, step: Step, b: BlobId) {
    step.Health? && step.blob == b && step.verdict != Missing ==>
      forall r <- s.rows :: s.rows[r].blob == b && s.rows[r].role == Primary ==> s.rows[r].status != Missing
  }

  /** A run in which no health report takes a missing primary row of blob b out of MISSING. */
  ghost predicate NoRevival(s: State, run: seq<Step>, b: BlobId)
    requires Valid(s, run)
    decreases |run|
  {
    run == [] || (KeepsMissing(s, run[0], b) && NoRevival(Apply(s, run[0]), run[1..], b))
  }

  /** A run in which no provider loses a copy and no purge lists blob b. */
  predicate NoLossNoPurge(run: seq<Step>, b: BlobId) {
    forall step <- run :: !step.ProviderLoss? && (step.PurgeList? ==> step.blob != b)
  }

  /** No handle of blob b stands in the set. */
  predicate Clear(s: State, handles: set<Handle>, b: BlobId) {
    forall h <- handles :: h in s.puts && s.puts[h].blob != b
  }

  lemma StepClear(s: State, step: Step, b: BlobId)
    requires Inv(s) && Enabled(s, step) && !step.ProviderLoss? && (step.PurgeList? ==> step.blob != b)
    requires s.lost == {} && Clear(s, s.doomed, b)
    ensures var t := Apply(s, step); t.lost == {} && Clear(t, t.doomed, b)
    ensures KeepsMissing(s, step, b) && Clear(s, s.revived, b) ==> var t := Apply(s, step); Clear(t, t.revived, b)
  {
    assert RowsOwn(s) && FreshHandle(s);
    if step.PurgeList? {
      PurgeListKeeps(s, step.purge, step.blob);
    }
    hide Inv, RowsOwn;
    StepHistory(s, step);
    var t := Apply(s, step);
    if step.Health? {
      assert t == ReportHealth(s, step.blob, step.verdict);
      if KeepsMissing(s, step, b) && Clear(s, s.revived, b) {
        HealthClear(s, step.blob, step.verdict, b);
      }
    }
    hide Apply, Enabled, PurgeTargets, ReportHealth, KeepsMissing;
    if step.PurgeList? {
      assert Clear(s, PurgeTargets(s, step.blob), b);
    }
    ClearGrows(s, t, if step.PurgeList? then PurgeTargets(s, step.blob) else {}, b);
  }

  /** What was clear stays clear when stored copies keep their blob. */
  lemma ClearGrows(s: State, t: State, more: set<Handle>, b: BlobId)
    requires forall h <- s.puts :: h in t.puts && t.puts[h] == s.puts[h]
    ensures Clear(s, s.doomed, b) && Clear(s, more, b) ==> Clear(t, s.doomed + more, b)
    ensures Clear(s, s.revived, b) ==> Clear(t, s.revived, b)
  {
  }

  lemma HealthClear(s: State, blob: BlobId, verdict: Status, b: BlobId)
    requires RowsOwn(s) && Clear(s, s.revived, b) && KeepsMissing(s, Health(blob, verdict), b)
    ensures Clear(ReportHealth(s, blob, verdict), ReportHealth(s, blob, verdict).revived, b)
  {
    assert forall r <- s.rows :: OwnsHandle(s, s.rows[r]);
    hide RowsOwn;
  }

  lemma {:induction false} RunClear(s: State, run: seq<Step>, b: BlobId)
    requires Inv(s) && Valid(s, run) && NoLossNoPurge(run, b)
    requires s.lost == {} && Clear(s, s.doomed, b)
    ensures var t := Final(s, run); Inv(t) && t.lost == {} && Clear(t, t.doomed, b)
    ensures NoRevival(s, run, b) && Clear(s, s.revived, b) ==> Clear(Final(s, run), Final(s, run).revived, b)
    decreases |run|
  {
    if run != [] {
      assert run[0] in run;
      StepKeeps(s, run[0]);
      StepClear(s, run[0], b);
      assert forall step <- run[1..] :: step in run;
      hide Inv, Clear, KeepsMissing;
      RunClear(Apply(s, run[0]), run[1..], b);
    }
  }

  /**
   Replica safety: for a blob no purge has listed, and providers that lose nothing,
   every ACTIVE replica row names a copy that exists, whatever the workers delete.
   */
  lemma {:induction false} ActiveReplicaExists(run: seq<Step>, r: RowId)
    requires Valid(Empty, run)
    requires var s := Final(Empty, run);
      r in s.rows && s.rows[r].role == Replica && s.rows[r].status == Active && NoLossNoPurge(run, s.rows[r].blob)
    ensures var s := Final(Empty, run); s.rows[r].handle.Some? && s.rows[r].handle.value in s.copies
  {
    var s := Final(Empty, run);
    assert Inv(Empty);
    RunClear(Empty, run, s.rows[r].blob);
    assert OwnsHandle(s, s.rows[r]);
  }

  /** The same for primary rows when no health report takes a missing primary row out of MISSING. */
  lemma {:induction false} UnrevivedRowExists(run: seq<Step>, r: RowId)
    requires Valid(Empty, run)
    requires var s := Final(Empty, run);
      && r in s.rows && s.rows[r].status == Active
      && NoLossNoPurge(run, s.rows[r].blob) && NoRevival(Empty, run, s.rows[r].blob)
    ensures var s := Final(Empty, run); s.rows[r].handle.Some? && s.rows[r].handle.value in s.copies
  {
    var s := Final(Empty, run);
    assert Inv(Empty);
    RunClear(Empty, run, s.rows[r].blob);
    assert OwnsHandle(s, s.rows[r]);
  }

  /** Every copy a row names holds the bytes of some accepted upload of its blob. */
  lemma {:induction false} RowsHoldAcceptedUploads(run: seq<Step>, r: RowId)
    requires Valid(Empty, run)
    requires r in Final(Empty, run).rows && Final(Empty, run).rows[r].handle.Some?
    ensures var s := Final(Empty, run);
      var h := s.rows[r].handle.value;
      h in s.puts && s.puts[h].blob == s.rows[r].blob && s.puts[h].bytes in Accepted(s, s.rows[r].blob)
  {
    assert Inv(Empty);
    RunKeeps(Empty, run);
    assert OwnsHandle(Final(Empty, run), Final(Empty, run).rows[r]);
  }

  /** A blob that was uploaded once has byte-identical copies behind all its rows. */
  lemma {:induction false} OneUploadMeansEqualCopies(run: seq<Step>, a: RowId, b: RowId)
    requires Valid(Empty, run)
    requires var s := Final(Empty, run);
      && a in s.rows && b in s.rows && s.rows[a].blob == s.rows[b].blob
      && s.rows[a].handle.Some? && s.rows[b].handle.Some?
      && |Accepted(s, s.rows[a].blob)| == 1
    ensures var s := Final(Empty, run);
      var h, k := s.rows[a].handle.value, s.rows[b].handle.value;
      h in s.puts && k in s.puts && s.puts[h].bytes == s.puts[k].bytes
  {
    var s := Final(Empty, run);
    RowsHoldAcceptedUploads(run, a);
    RowsHoldAcceptedUploads(run, b);
    var all := Accepted(s, s.rows[a].blob);
    var x := s.puts[s.rows[a].handle.value].bytes;
    assert |all - {x}| == 0;
  }
}
