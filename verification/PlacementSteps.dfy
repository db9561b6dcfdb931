/** What single steps of the placement protocol achieve: copies are conserved, rows are spared, workers go on. */
module PlacementSteps {
  import opened Basics
  import opened PlacementRows
  import opened ReadOrder
  import opened Placement
  import opened PlacementFrames
  import opened PlacementInvariant
  import opened PlacementDrops

  // ----------------------------------------------------------- copies are conserved

  /** The step stores a new copy: a put that was not refused, acknowledged or not. */
  predicate Stores(s: State, step: Step) {
    (step.UploadPut? && step.outcome != Refused) || (step.PutCopy? && step.outcome != Refused)
  }

  /** The step takes copy h away: a deletion that took effect, or a loss. */
  predicate Takes(s: State, step: Step, h: Handle) {
    || DropsCopy(s, step, h)
    || (step.Clean? && step.deleted && step.worker in s.workers && s.workers[step.worker].phase == Cleaning(h))
    || (step.PurgeDelete? && step.deleted && step.target == h)
    || (step.ProviderLoss? && step.copy == h)
  }

  /** What a storing step stores, and for whom. */
  function Stored(s: State, step: Step): Put
    requires Stores(s, step) && Enabled(s, step)
  {
    if step.UploadPut? then Put(step.blob, step.bytes, Primary, ByUpload(step.upload))
    else
      var wk := s.workers[step.worker];
      Put(wk.snap.blob, wk.phase.bytes, wk.snap.role, ByWorker(step.worker, wk.snap.id))
  }

  /** A copy exists afterwards exactly if it did before and was not taken away, or is the one just stored. */
  ghost predicate Conserved(s: State, t: State, step: Step)
    requires Enabled(s, step)
  {
    && (forall h :: h in t.copies <==> (h in s.copies && !Takes(s, step, h)) || (Stores(s, step) && h == s.nextHandle))
    && t.puts == (if Stores(s, step) then s.puts[s.nextHandle := Stored(s, step)] else s.puts)
  }

  lemma NothingMoved(s: State, t: State, step: Step)
    requires Enabled(s, step) && t.copies == s.copies && t.puts == s.puts
    requires !Stores(s, step) && forall h :: !Takes(s, step, h)
    ensures Conserved(s, t, step)
  {
    hide Takes, Stored;
  }

  lemma OneStored(s: State, t: State, step: Step)
    requires Enabled(s, step) && Stores(s, step) && (step.UploadPut? || step.PutCopy?)
    requires t.copies == s.copies + {s.nextHandle} && t.puts == s.puts[s.nextHandle := Stored(s, step)]
    ensures Conserved(s, t, step)
  {
    assert forall h :: !Takes(s, step, h);
    hide Takes, Stored, Stores;
  }

  lemma OneTaken(s: State, t: State, step: Step, h: Handle, taken: bool)
    requires Enabled(s, step) && !Stores(s, step) && forall k :: Takes(s, step, k) <==> taken && k == h
    requires t.copies == (if taken then s.copies - {h} else s.copies) && t.puts == s.puts
    ensures Conserved(s, t, step)
  {
    hide Takes, Stored, Stores;
  }

  lemma UploadPutConserves(s: State, u: UploadId, b: BlobId, provider: Provider, bytes: Bytes, outcome: CallOutcome)
    requires Enabled(s, UploadPut(u, b, provider, bytes, outcome))
    ensures Conserved(s, Apply(s, UploadPut(u, b, provider, bytes, outcome)), UploadPut(u, b, provider, bytes, outcome))
  {
    var step := UploadPut(u, b, provider, bytes, outcome);
    var t := Apply(s, step);
    if outcome == Refused {
      NothingMoved(s, t, step);
    } else {
      assert t.copies == s.copies + {s.nextHandle};
      hide Conserved;
      OneStored(s, t, step);
    }
  }

  lemma PutConserves(s: State, w: WorkerId, outcome: CallOutcome)
    requires Enabled(s, PutCopy(w, outcome))
    ensures Conserved(s, Apply(s, PutCopy(w, outcome)), PutCopy(w, outcome))
  {
    var step := PutCopy(w, outcome);
    var t := Apply(s, step);
    if outcome == Refused {
      NothingMoved(s, t, step);
    } else {
      assert t.copies == s.copies + {s.nextHandle} && t.puts == s.puts[s.nextHandle := Stored(s, step)];
      hide Conserved, Apply, Enabled;
      OneStored(s, t, step);
    }
  }

  lemma DropConserves(s: State, w: WorkerId, deleted: bool)
    requires Enabled(s, DropOld(w, deleted))
    ensures Conserved(s, Apply(s, DropOld(w, deleted)), DropOld(w, deleted))
  {
    var step, old' := DropOld(w, deleted), s.workers[w].snap.handle;
    var t := Apply(s, step);
    assert t.puts == s.puts;
    if old'.Some? {
      assert t.copies == if deleted then s.copies - {old'.value} else s.copies;
      hide Conserved, Apply, Enabled;
      OneTaken(s, t, step, old'.value, deleted);
    } else {
      hide Conserved;
      NothingMoved(s, t, step);
    }
  }

  lemma CleanConserves(s: State, w: WorkerId, deleted: bool)
    requires Enabled(s, Clean(w, deleted))
    ensures Conserved(s, Apply(s, Clean(w, deleted)), Clean(w, deleted))
  {
    var step, h := Clean(w, deleted), s.workers[w].phase.written;
    var t := Apply(s, step);
    assert t.puts == s.puts && t.copies == if deleted then s.copies - {h} else s.copies;
    hide Conserved, Apply;
    OneTaken(s, t, step, h, deleted);
  }

  lemma DeleteConserves(s: State, p: PurgeId, h: Handle, deleted: bool)
    requires Enabled(s, PurgeDelete(p, h, deleted))
    ensures Conserved(s, Apply(s, PurgeDelete(p, h, deleted)), PurgeDelete(p, h, deleted))
  {
    hide Conserved;
    OneTaken(s, Apply(s, PurgeDelete(p, h, deleted)), PurgeDelete(p, h, deleted), h, deleted);
  }

  lemma LossConserves(s: State, h: Handle)
    requires Enabled(s, ProviderLoss(h))
    ensures Conserved(s, Apply(s, ProviderLoss(h)), ProviderLoss(h))
  {
    hide Conserved;
    OneTaken(s, Apply(s, ProviderLoss(h)), ProviderLoss(h), h, true);
  }

  /** Steps that call no provider to put or delete. */
  predicate Quiet(step: Step) {
    !step.UploadPut? && !step.PutCopy? && !step.DropOld? && !step.Clean? && !step.PurgeDelete? && !step.ProviderLoss?
  }

  lemma QuietCopies(s: State, step: Step)
    requires Enabled(s, step) && FreshHandle(s) && Quiet(step)
    ensures Apply(s, step).copies == s.copies && Apply(s, step).puts == s.puts
  {
    hide Apply, Enabled;
    match step
    case UploadCommit(u, kinds) => CommitCopies(s, u, kinds);
    case UploadAbort(u) => AbortCopies(s, u);
    case CommitManifest(b, kinds) => ManifestCopies(s, b, kinds);
    case Snapshot(w, r, given) => SnapshotCopies(s, w, r, given);
    case Enter(w) => EnterGoesOn(s, w); EnterIs(s, w);
    case ListSources(w, siblings) => EndGoesOn(s, step);
    case ReadSource(w, answer) => ReadGoesOn(s, w, answer); ReadIs(s, w, answer);
    case Activate(w, outcome) => ActivateGoesOn(s, w, outcome); ActivateIs(s, w, outcome);
    case RefreshMirror(w, stored) => EndGoesOn(s, step);
    case RecordFailure(w, stored) => EndGoesOn(s, step);
    case Park(r) => ParkCopies(s, r);
    case Health(b, verdict) => HealthSetsVerdict(s, b, verdict);
    case PurgeList(p, b) => ListCopies(s, p, b);
    case PurgeCommit(p) => PurgeCopies(s, p);
    case PurgeAbort(p) => PurgeAbortCopies(s, p);
  }

  lemma CommitCopies(s: State, u: UploadId, kinds: seq<Provider>)
    requires Enabled(s, UploadCommit(u, kinds))
    ensures var t := Apply(s, UploadCommit(u, kinds)); t.copies == s.copies && t.puts == s.puts
  {
    hide CommitUpload;
    CommitFields(s, u, kinds);
  }

  lemma EnterIs(s: State, w: WorkerId)
    requires Enabled(s, Enter(w))
    ensures Apply(s, Enter(w)) == EnterGuard(s, w)
  {
  }

  lemma ReadIs(s: State, w: WorkerId, answer: Option<Bytes>)
    requires Enabled(s, ReadSource(w, answer))
    ensures Apply(s, ReadSource(w, answer)) == TryRead(s, w, answer)
  {
  }

  lemma ActivateIs(s: State, w: WorkerId, outcome: CallOutcome)
    requires Enabled(s, Activate(w, outcome))
    ensures Apply(s, Activate(w, outcome)) == ActivateRow(s, w, outcome)
  {
  }

  /** An aborted upload request leaves its stored copy behind, and nothing else of it. */
  lemma AbortCopies(s: State, u: UploadId)
    requires Enabled(s, UploadAbort(u))
    ensures var t := Apply(s, UploadAbort(u)); t == s.(uploads := t.uploads) && t.uploads == s.uploads - {u}
  {
  }

  lemma ManifestCopies(s: State, b: BlobId, kinds: seq<Provider>)
    requires Enabled(s, CommitManifest(b, kinds))
    ensures var t := Apply(s, CommitManifest(b, kinds)); t.copies == s.copies && t.puts == s.puts
  {
    EnsureFrame(s, b, kinds);
    hide EnsureReplicas;
  }

  /** A snapshot is the row as it is now, with the stored hash and the legacy record's copy. */
  lemma SnapshotCopies(s: State, w: WorkerId, r: RowId, given: Option<Bytes>)
    requires Enabled(s, Snapshot(w, r, given))
    ensures var t, record := Apply(s, Snapshot(w, r, given)), s.transports[s.rows[r].blob];
      && t == s.(workers := t.workers)
      && t.workers == s.workers[w := Worker(s.rows[r], record.hash, record.Mirror(), given, Waiting)]
      && (t.workers[w].snap.status == Pending || t.workers[w].snap.status == Missing)
  {
  }

  lemma ParkCopies(s: State, r: RowId)
    requires Enabled(s, Park(r))
    ensures Apply(s, Park(r)).copies == s.copies && Apply(s, Park(r)).puts == s.puts
  {
  }

  lemma ListCopies(s: State, p: PurgeId, b: BlobId)
    requires Enabled(s, PurgeList(p, b))
    ensures Apply(s, PurgeList(p, b)).copies == s.copies && Apply(s, PurgeList(p, b)).puts == s.puts
  {
    hide PurgeTargets;
  }

  lemma PurgeCopies(s: State, p: PurgeId)
    requires Enabled(s, PurgeCommit(p))
    ensures Apply(s, PurgeCommit(p)).copies == s.copies && Apply(s, PurgeCommit(p)).puts == s.puts
  {
  }

  /** A purge that fails before its transaction changes no table. */
  lemma PurgeAbortCopies(s: State, p: PurgeId)
    requires Enabled(s, PurgeAbort(p))
    ensures var t := Apply(s, PurgeAbort(p)); t == s.(purges := t.purges) && t.purges == s.purges - {p}
  {
  }

  /** Conservation: no step makes or takes away a copy but a put that was not refused and a removal that took effect. */
  lemma CopiesConserved(s: State, step: Step)
    requires Enabled(s, step) && FreshHandle(s)
    ensures Conserved(s, Apply(s, step), step)
  {
    if Quiet(step) {
      QuietCopies(s, step);
      assert !Stores(s, step) && forall h :: !Takes(s, step, h);
      hide Enabled, Apply, Conserved, Stores, Takes, Quiet;
      NothingMoved(s, Apply(s, step), step);
    } else {
      hide Enabled, Apply, Conserved;
      match step
      case UploadPut(u, b, provider, bytes, outcome) => UploadPutConserves(s, u, b, provider, bytes, outcome);
      case PutCopy(w, outcome) => PutConserves(s, w, outcome);
      case DropOld(w, deleted) => DropConserves(s, w, deleted);
      case Clean(w, deleted) => CleanConserves(s, w, deleted);
      case PurgeDelete(p, h, deleted) => DeleteConserves(s, p, h, deleted);
      case ProviderLoss(h) => LossConserves(s, h);
    }
  }

  /** A put by an upload request: pending with its copy if acknowledged, an unknown copy if not, nothing if refused. */
  lemma UploadPutOutcome(s: State, u: UploadId, b: BlobId, provider: Provider, bytes: Bytes, outcome: CallOutcome)
    requires Enabled(s, UploadPut(u, b, provider, bytes, outcome))
    ensures var t := Apply(s, UploadPut(u, b, provider, bytes, outcome));
      && (u in t.uploads <==> outcome == Acked)
      && (outcome == Acked ==> t.uploads == s.uploads[u := Upload(b, provider, bytes, s.nextHandle)])
      && (outcome != Acked ==> t.uploads == s.uploads) && (outcome == Refused ==> t == s)
      && t.rows == s.rows && t.transports == s.transports && t.workers == s.workers && t.published == s.published
  {
  }

  // ------------------------------------------------------------- the guarded update

  /** The row as the worker's update finds it: PENDING or MISSING, and so free to be taken. */
  predicate StillQueued(s: State, r: RowId) {
    r in s.rows && (s.rows[r].status == Pending || s.rows[r].status == Missing)
  }

  lemma UpdatedRows(s: State, w: WorkerId, outcome: CallOutcome)
    requires Enabled(s, Activate(w, outcome))
    ensures var t, wk := ActivateRow(s, w, outcome), s.workers[w];
      t.rows == (if outcome == Refused || !StillQueued(s, wk.snap.id) then s.rows
        else s.rows[wk.snap.id :=
          s.rows[wk.snap.id].(status := Active, handle := Some(wk.phase.written), attempts := 0)])
  {
    var wk := s.workers[w];
    if StillQueued(s, wk.snap.id) {
      var u := SetActive(s, wk.snap.id, wk.phase.written);
      assert u.rows == s.rows[wk.snap.id :=
        s.rows[wk.snap.id].(status := Active, handle := Some(wk.phase.written), attempts := 0)];
      hide SetActive, Enabled;
    }
  }

  function AfterUpdate(taken: bool, written: Handle): Phase { if taken then Mirroring(written) else Cleaning(written) }

  lemma UpdatedWorker(s: State, w: WorkerId, outcome: CallOutcome)
    requires Enabled(s, Activate(w, outcome))
    ensures var t, wk := ActivateRow(s, w, outcome), s.workers[w];
      var taken := StillQueued(s, wk.snap.id);
      var next := if outcome != Acked then Failing else AfterUpdate(taken, wk.phase.written);
      && (w !in t.workers <==> outcome == Acked && taken && wk.snap.role == Replica)
      && (w in t.workers ==> t.workers[w].phase == next)
  {
    var wk := s.workers[w];
    if StillQueued(s, wk.snap.id) {
      var u := SetActive(s, wk.snap.id, wk.phase.written);
      assert u.workers == s.workers;
      hide SetActive, Enabled;
    }
  }

  /**
   The update takes the row exactly if the database took it and the row is still PENDING or MISSING; then the
   row is ACTIVE with the worker's copy. An acknowledged update that took nothing sends the worker to clean up.
   */
  lemma ActivationIff(s: State, w: WorkerId, outcome: CallOutcome)
    requires Enabled(s, Activate(w, outcome))
    ensures var t, wk := Apply(s, Activate(w, outcome)), s.workers[w];
      var r, queued := wk.snap.id, StillQueued(s, wk.snap.id);
      && (outcome != Refused && queued ==>
        t.rows == s.rows[r := s.rows[r].(status := Active, handle := Some(wk.phase.written), attempts := 0)])
      && (outcome == Refused || !queued ==> t.rows == s.rows)
      && (w in t.workers && t.workers[w].phase.Cleaning? <==> outcome == Acked && !queued)
      && (w in t.workers && t.workers[w].phase.Mirroring? <==> outcome == Acked && queued && wk.snap.role == Primary)
      && (w !in t.workers <==> outcome == Acked && queued && wk.snap.role == Replica)
      && (w in t.workers && t.workers[w].phase.Failing? <==> outcome != Acked)
  {
    ActivateIs(s, w, outcome);
    hide Apply, Enabled, ActivateRow, StillQueued;
    UpdatedRows(s, w, outcome);
    UpdatedWorker(s, w, outcome);
  }

  /** A primary that was healed: its legacy record names the new copy if it is Discord's, and none otherwise. */
  lemma HealedRecord(s: State, w: WorkerId, stored: bool)
    requires Enabled(s, RefreshMirror(w, stored))
    ensures var t, wk, b := Apply(s, RefreshMirror(w, stored)), s.workers[w], s.workers[w].snap.blob;
      var copy := if wk.snap.provider == Discord then Some(wk.phase.written) else None;
      && w !in t.workers && t.transports.Keys == s.transports.Keys
      && (forall c <- s.transports :: c != b || !stored ==> t.transports[c] == s.transports[c])
      && (stored && b in s.transports ==>
        t.transports[b].kind == wk.snap.provider && t.transports[b].columns == t.transports[b].Mirror() == copy)
      && (b in s.transports ==> t.transports[b].hash == s.transports[b].hash)
  {
  }

  /** A recorded failure costs the worker's row, if it is still there, one attempt, and changes no other row. */
  lemma FailureCounts(s: State, w: WorkerId, stored: bool)
    requires Enabled(s, RecordFailure(w, stored))
    ensures var t, r := Apply(s, RecordFailure(w, stored)), s.workers[w].snap.id;
      && w !in t.workers && t.rows.Keys == s.rows.Keys && t.transports == s.transports
      && (forall q <- s.rows :: q != r || !stored ==> t.rows[q] == s.rows[q])
      && (stored && r in s.rows ==>
        t.rows[r].attempts == s.rows[r].attempts + 1 && t.rows[r] == s.rows[r].(attempts := t.rows[r].attempts))
  {
  }

  // ------------------------------------------------------------------- workers end

  /** How far a worker still has to go: its statements to come, with one for each source still to try. */
  function WorkLeft(phase: Phase): (nat, nat) {
    match phase
    case Waiting => (9, 0)
    case Listing => (8, 0)
    case Reading(sources) => (7, |sources|)
    case Dropping(_) => (6, 0)
    case Putting(_) => (5, 0)
    case Activating(_, _) => (4, 0)
    case Cleaning(_) => (3, 0)
    case Mirroring(_) => (2, 0)
    case Failing => (1, 0)
  }

  predicate Less(a: (nat, nat), b: (nat, nat)) { a.0 < b.0 || (a.0 == b.0 && a.1 < b.1) }

  /** Each statement of a worker brings it nearer to its end. */
  predicate Nearer(s: State, t: State, w: WorkerId)
    requires w in s.workers
  {
    w !in t.workers || Less(WorkLeft(t.workers[w].phase), WorkLeft(s.workers[w].phase))
  }

  lemma PhaseNearer(s: State, u: State, w: WorkerId, phase: Phase)
    requires w in s.workers && u.workers == s.workers && Less(WorkLeft(phase), WorkLeft(s.workers[w].phase))
    ensures Nearer(s, SetPhase(u, w, phase), w)
  {
  }

  lemma EnterNearer(s: State, w: WorkerId)
    requires Enabled(s, Enter(w))
    ensures Nearer(s, Apply(s, Enter(w)), w)
    ensures s.workers[w].snap.id in s.inFlight ==> Apply(s, Enter(w)) == s.(workers := s.workers - {w})
  {
    EnterIs(s, w);
    var wk := s.workers[w];
    hide Apply, Enabled;
    if wk.snap.id !in s.inFlight {
      hide Nearer;
      var u := s.(inFlight := s.inFlight + {wk.snap.id});
      if wk.given.Some? {
        PhaseNearer(s, u, w, if Sha256(wk.given.value) == wk.hash then Dropping(wk.given.value) else Failing);
      } else {
        PhaseNearer(s, u, w, Listing);
      }
    }
  }

  lemma ReadNearer(s: State, w: WorkerId, answer: Option<Bytes>)
    requires Enabled(s, ReadSource(w, answer))
    ensures Nearer(s, Apply(s, ReadSource(w, answer)), w)
  {
    ReadIs(s, w, answer);
    var sources := s.workers[w].phase.sources;
    hide Nearer;
    if sources == [] {
      PhaseNearer(s, s, w, Failing);
    } else if answer.Some? && sources[0].Some? {
      PhaseNearer(s, s, w, if Sha256(answer.value) == s.workers[w].hash then Dropping(answer.value) else Failing);
    } else {
      PhaseNearer(s, s, w, Reading(sources[1..]));
    }
  }

  lemma ListNearer(s: State, w: WorkerId, siblings: seq<Row>)
    requires Enabled(s, ListSources(w, siblings))
    ensures Nearer(s, Apply(s, ListSources(w, siblings)), w)
  {
    hide Nearer, OrderPlacementsForRead;
    PhaseNearer(s, s, w, Reading(Handles(OrderPlacementsForRead(siblings)) + [s.workers[w].mirror]));
  }

  lemma DropNearer(s: State, w: WorkerId, deleted: bool)
    requires Enabled(s, DropOld(w, deleted))
    ensures Nearer(s, Apply(s, DropOld(w, deleted)), w)
  {
    hide Nearer;
    var stale := s.workers[w].snap.handle;
    PhaseNearer(s, if stale.Some? then Delete(s, stale.value, deleted) else s, w, Putting(s.workers[w].phase.bytes));
  }

  lemma PutNearer(s: State, w: WorkerId, outcome: CallOutcome)
    requires Enabled(s, PutCopy(w, outcome))
    ensures Nearer(s, Apply(s, PutCopy(w, outcome)), w)
  {
    hide Nearer;
    var wk := s.workers[w];
    var stored := StoreCopy(s, Put(wk.snap.blob, wk.phase.bytes, wk.snap.role, ByWorker(w, wk.snap.id)));
    match outcome
    case Acked => PhaseNearer(s, stored, w, Activating(wk.phase.bytes, s.nextHandle));
    case LostAck => PhaseNearer(s, stored, w, Failing);
    case Refused => PhaseNearer(s, s, w, Failing);
  }

  lemma EndNearer(s: State, step: Step)
    requires Enabled(s, step) && (step.Clean? || step.RefreshMirror? || step.RecordFailure?)
    ensures step.worker !in Apply(s, step).workers
  {
    match step
    case Clean(w, deleted) =>
    case RefreshMirror(w, stored) =>
    case RecordFailure(w, stored) =>
  }

  lemma WorkerStepNearer(s: State, step: Step)
    requires Enabled(s, step) && WorkerStep(step)
    ensures Nearer(s, Apply(s, step), step.worker)
  {
    hide Apply;
    if step.Enter? {
      EnterNearer(s, step.worker);
    } else if step.ReadSource? {
      ReadNearer(s, step.worker, step.answer);
    } else if step.Activate? {
      ActivationIff(s, step.worker, step.outcome);
    } else if step.Clean? || step.RefreshMirror? || step.RecordFailure? {
      EndNearer(s, step);
    } else if step.PutCopy? {
      PutNearer(s, step.worker, step.outcome);
    } else if step.DropOld? {
      DropNearer(s, step.worker, step.deleted);
    } else {
      ListNearer(s, step.worker, step.siblings);
    }
  }

  /** Some list holds each row of the set once. */
  lemma AllListed(s: State, ids: set<RowId>) returns (list: seq<Row>)
    requires ids <= s.rows.Keys && forall r <- ids :: s.rows[r].id == r
    ensures forall row <- list :: row.id in ids && s.rows[row.id] == row
    ensures forall i, j :: 0 <= i < j < |list| ==> list[i] != list[j]
    ensures forall r <- ids :: s.rows[r] in list
  {
    if ids == {} {
      list := [];
    } else {
      var r :| r in ids;
      var rest := AllListed(s, ids - {r});
      list := [s.rows[r]] + rest;
    }
  }

  /** No worker hangs: each has a statement to take, whatever the tables and the other workers do. */
  lemma WorkerCanGoOn(s: State, w: WorkerId)
    requires RowsOwn(s) && w in s.workers
    ensures exists step :: WorkerStep(step) && step.worker == w && Enabled(s, step)
  {
    match s.workers[w].phase
    case Waiting => assert Enabled(s, Enter(w));
    case Listing =>
      var snap := s.workers[w].snap;
      var list := AllListed(s, set r | r in s.rows && s.rows[r].blob == snap.blob && r != snap.id);
      assert SiblingList(s, list, snap);
      assert Enabled(s, ListSources(w, list));
    case Reading(_) => assert Enabled(s, ReadSource(w, None));
    case Dropping(_) => assert Enabled(s, DropOld(w, true));
    case Putting(_) => assert Enabled(s, PutCopy(w, Acked));
    case Activating(_, _) => assert Enabled(s, Activate(w, Acked));
    case Cleaning(_) => assert Enabled(s, Clean(w, true));
    case Mirroring(_) => assert Enabled(s, RefreshMirror(w, true));
    case Failing => assert Enabled(s, RecordFailure(w, true));
  }
}
