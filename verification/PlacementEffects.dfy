/** What the protocol's operations achieve when nothing interrupts them. */
module PlacementEffects {
  import opened Basics
  import opened PlacementRows
  import opened ReadOrder
  import opened Placement
  import opened PlacementFrames
  import opened PlacementInvariant

  lemma {:induction false} Extend(from: State, run: seq<Step>, step: Step)
    requires Valid(from, run) && Enabled(Final(from, run), step)
    ensures Valid(from, run + [step]) && Final(from, run + [step]) == Apply(Final(from, run), step)
    decreases |run|
  {
    hide Enabled, Apply;
    if run == [] {
      assert run + [step] == [step];
      assert [step][1..] == [];
    } else {
      assert (run + [step])[1..] == run[1..] + [step];
      Extend(Apply(from, run[0]), run[1..], step);
    }
  }

  lemma {:induction false} Joined(s: State, a: seq<Step>, b: seq<Step>)
    requires Valid(s, a) && Valid(Final(s, a), b)
    ensures Valid(s, a + b) && Final(s, a + b) == Final(Final(s, a), b)
    decreases |a|
  {
    hide Enabled, Apply;
    if a == [] {
      assert a + b == b;
    } else {
      assert (a + b)[1..] == a[1..] + b;
      Joined(Apply(s, a[0]), a[1..], b);
    }
  }

  /** Steps of one worker, from its snapshot on. */
  predicate WorkersOwn(run: seq<Step>) {
    forall step <- run :: step.Snapshot? || WorkerStep(step)
  }

  // ------------------------------------------------- one replication, start to end

  /** The row's old copy, which the worker deletes before it writes the new one. */
  function OldCopy(row: Row): set<Handle> {
    if row.handle.Some? then {row.handle.value} else {}
  }

  /**
   Row r has a fresh copy of these bytes and nothing else changed: the old copy is gone,
   the guard is released, and a healed primary's legacy record names the new copy.
   */
  predicate Replicated(s: State, t: State, w: WorkerId, r: RowId, bytes: Bytes)
    requires r in s.rows && s.rows[r].blob in s.transports
  {
    var row, h := s.rows[r], s.nextHandle;
    var b := row.blob;
    && t == s.(
         rows := s.rows[r := row.(status := Active, handle := Some(h), attempts := 0)],
         workers := s.workers - {w},
         inFlight := s.inFlight - {r},
         transports := if row.role == Replica then s.transports
           else s.transports[b := s.transports[b].Refreshed(row.provider, h)],
         nextHandle := h + 1,
         copies := s.copies - OldCopy(row) + {h},
         puts := s.puts[h := Put(b, bytes, row.role, ByWorker(w, r))],
         published := s.published + {h})
  }

  /** Worker w is about to drop the old copy of row r, which is as it was in the snapshot. */
  predicate AboutToDrop(s: State, w: WorkerId, r: RowId, bytes: Bytes) {
    && r in s.rows && s.rows[r].Queued() && s.rows[r].id == r && s.rows[r].blob in s.transports
    && w in s.workers && s.workers[w].snap == s.rows[r] && s.workers[w].phase == Dropping(bytes)
  }

  function Dropped(s: State, w: WorkerId, bytes: Bytes): State
    requires w in s.workers
  {
    SetPhase(s.(copies := s.copies - OldCopy(s.workers[w].snap)), w, Putting(bytes))
  }

  lemma DropStep(s: State, w: WorkerId, r: RowId, bytes: Bytes)
    requires AboutToDrop(s, w, r, bytes)
    ensures Enabled(s, DropOld(w, true)) && Apply(s, DropOld(w, true)) == Dropped(s, w, bytes)
  {
  }

  lemma PutStep(s: State, w: WorkerId, bytes: Bytes)
    requires w in s.workers && s.workers[w].phase == Putting(bytes)
    ensures Enabled(s, PutCopy(w, Acked))
    ensures Apply(s, PutCopy(w, Acked)) ==
      var snap := s.workers[w].snap;
      SetPhase(StoreCopy(s, Put(snap.blob, bytes, snap.role, ByWorker(w, snap.id))), w, Activating(bytes, s.nextHandle))
  {
  }

  lemma ActivateStep(s: State, w: WorkerId, bytes: Bytes, h: Handle)
    requires w in s.workers && s.workers[w].phase == Activating(bytes, h) && UpdateMatches(s, w)
    ensures Enabled(s, Activate(w, Acked))
    ensures Apply(s, Activate(w, Acked)) ==
      var r := s.workers[w].snap.id;
      if s.workers[w].snap.role == Primary then SetPhase(SetActive(s, r, h), w, Mirroring(h))
      else Finish(SetActive(s, r, h), w)
  {
  }

  lemma MirrorStep(s: State, w: WorkerId, h: Handle)
    requires w in s.workers && s.workers[w].phase == Mirroring(h) && s.workers[w].snap.blob in s.transports
    ensures Enabled(s, RefreshMirror(w, true))
    ensures var b := s.workers[w].snap.blob;
      Apply(s, RefreshMirror(w, true))
        == Finish(s.(transports := s.transports[b := s.transports[b].Refreshed(s.workers[w].snap.provider, h)]), w)
  {
  }

  /** The state in which the new copy is stored and the update comes next. */
  lemma UntilStored(s: State, w: WorkerId, r: RowId, bytes: Bytes) returns (run: seq<Step>, t: State)
    requires AboutToDrop(s, w, r, bytes)
    ensures WorkersOwn(run)
    ensures Valid(s, run) && Final(s, run) == t
    ensures t == s.(
      workers := s.workers[w := s.workers[w].(phase := Activating(bytes, s.nextHandle))],
      nextHandle := s.nextHandle + 1,
      copies := s.copies - OldCopy(s.rows[r]) + {s.nextHandle},
      puts := s.puts[s.nextHandle := Put(s.rows[r].blob, bytes, s.rows[r].role, ByWorker(w, r))])
  {
    DropStep(s, w, r, bytes);
    var s1 := Dropped(s, w, bytes);
    PutStep(s1, w, bytes);
    hide Enabled, Apply;
    assert Valid(s, []) && Final(s, []) == s;
    Extend(s, [], DropOld(w, true));
    Extend(s, [] + [DropOld(w, true)], PutCopy(w, Acked));
    run := [] + [DropOld(w, true)] + [PutCopy(w, Acked)];
    t := Final(s, run);
  }

  /** From the drop on, an uninterrupted worker replaces the copy of its row. */
  lemma DropToEnd(s: State, w: WorkerId, r: RowId, bytes: Bytes) returns (run: seq<Step>)
    requires AboutToDrop(s, w, r, bytes)
    ensures Valid(s, run) && Replicated(s, Final(s, run), w, r, bytes)
  {
    var first, t := UntilStored(s, w, r, bytes);
    var h := s.nextHandle;
    assert UpdateMatches(t, w) && t.workers[w].snap == s.rows[r];
    UpdateReplicates(s, t, w, r, bytes);
    ActivateStep(t, w, bytes, h);
    hide Enabled, Apply, AboutToDrop, Replicated;
    Extend(s, first, Activate(w, Acked));
    run := first + [Activate(w, Acked)];
    if s.rows[r].role == Primary {
      var u := Final(s, run);
      MirrorStep(u, w, h);
      Extend(s, run, RefreshMirror(w, true));
      run := run + [RefreshMirror(w, true)];
    }
  }

  /** The update, for a primary with the refresh of the legacy record, ends in the replicated state. */
  lemma UpdateReplicates(s: State, t: State, w: WorkerId, r: RowId, bytes: Bytes)
    requires AboutToDrop(s, w, r, bytes)
    requires t == s.(
      workers := s.workers[w := s.workers[w].(phase := Activating(bytes, s.nextHandle))],
      nextHandle := s.nextHandle + 1,
      copies := s.copies - OldCopy(s.rows[r]) + {s.nextHandle},
      puts := s.puts[s.nextHandle := Put(s.rows[r].blob, bytes, s.rows[r].role, ByWorker(w, r))])
    ensures var h, b, active := s.nextHandle, s.rows[r].blob, SetActive(t, r, s.nextHandle);
      var mirroring := SetPhase(active, w, Mirroring(h));
      && mirroring.workers[w].phase == Mirroring(h) && mirroring.workers[w].snap == s.rows[r]
      && mirroring.transports == s.transports
      && (s.rows[r].role == Replica ==> Replicated(s, Finish(active, w), w, r, bytes))
      && (s.rows[r].role == Primary ==>
        var record := s.transports[b].Refreshed(s.rows[r].provider, h);
        Replicated(s, Finish(mirroring.(transports := s.transports[b := record]), w), w, r, bytes))
  {
  }

  /** Sources are tried in order until one answers. */
  lemma {:induction false} ReadUntil(s: State, w: WorkerId, k: nat, bytes: Bytes) returns (run: seq<Step>)
    requires w in s.workers && s.workers[w].phase.Reading? && Sha256(bytes) == s.workers[w].hash
    requires k < |s.workers[w].phase.sources| && s.workers[w].phase.sources[k].Some?
    ensures WorkersOwn(run)
    ensures |run| == k + 1 && Valid(s, run)
    ensures Final(s, run) == s.(workers := s.workers[w := s.workers[w].(phase := Dropping(bytes))])
    decreases k
  {
    var answer := if k == 0 then Some(bytes) else None;
    var s1 := TryRead(s, w, answer);
    assert Enabled(s, ReadSource(w, answer)) && Apply(s, ReadSource(w, answer)) == s1;
    var rest: seq<Step> := [];
    if k > 0 {
      rest := ReadUntil(s1, w, k - 1, bytes);
      assert s1.workers[w := s1.workers[w].(phase := Dropping(bytes))]
        == s.workers[w := s.workers[w].(phase := Dropping(bytes))];
    }
    run := [ReadSource(w, answer)] + rest;
    assert run[1..] == rest && run[0] == ReadSource(w, answer);
  }

  lemma EnterWithBytes(s: State, w: WorkerId, r: RowId, bytes: Bytes) returns (run: seq<Step>)
    requires RowsOwn(s) && Enabled(s, Snapshot(w, r, Some(bytes))) && r !in s.inFlight
    requires Sha256(bytes) == s.transports[s.rows[r].blob].hash
    ensures WorkersOwn(run)
    ensures Valid(s, run)
    ensures var t := s.transports[s.rows[r].blob];
      Final(s, run) == s.(
        workers := s.workers[w := Worker(s.rows[r], t.hash, t.Mirror(), Some(bytes), Dropping(bytes))],
        inFlight := s.inFlight + {r})
  {
    var a, b := Snapshot(w, r, Some(bytes)), Enter(w);
    assert s.rows[r].id == r;
    var s1 := Apply(s, a);
    assert Enabled(s1, b);
    hide RowsOwn;
    Two(s, a, b);
    run := [a, b];
  }

  lemma {:induction false} Two(s: State, a: Step, b: Step)
    requires Enabled(s, a) && Enabled(Apply(s, a), b)
    ensures Valid(s, [a, b]) && Final(s, [a, b]) == Apply(Apply(s, a), b)
  {
    hide Enabled, Apply;
    var s1 := Apply(s, a);
    assert [a, b][1..] == [b] && [b][1..] == [];
    assert Valid(Apply(s1, b), []) && Final(Apply(s1, b), []) == Apply(s1, b);
    assert Valid(s1, [b]) && Final(s1, [b]) == Apply(s1, b);
  }

  /** Write-through: given the uploaded bytes, an uninterrupted worker makes the replica row ACTIVE with them. */
  lemma WriteThroughReplicates(s: State, w: WorkerId, r: RowId, bytes: Bytes) returns (run: seq<Step>)
    requires RowsOwn(s) && Enabled(s, Snapshot(w, r, Some(bytes))) && r !in s.inFlight
    requires Sha256(bytes) == s.transports[s.rows[r].blob].hash
    ensures Valid(s, run) && Replicated(s, Final(s, run), w, r, bytes)
  {
    var first := EnterWithBytes(s, w, r, bytes);
    var t := Final(s, first);
    assert s.rows[r].id == r && s.rows[r].Queued() && s.rows[r].blob in s.transports && w !in s.workers;
    hide RowsOwn, Enabled, Apply;
    var second := DropToEnd(t, w, r, bytes);
    Joined(s, first, second);
    run := first + second;
    SameOutcome(s, t, Final(s, run), w, r, bytes);
  }

  /** Replicating from the state where the worker has just entered is replicating from the state before it. */
  lemma SameOutcome(s: State, t: State, u: State, w: WorkerId, r: RowId, bytes: Bytes)
    requires r in s.rows && s.rows[r].blob in s.transports && w !in s.workers && r !in s.inFlight && w in t.workers
    requires t == s.(workers := s.workers[w := t.workers[w]], inFlight := s.inFlight + {r})
    requires Replicated(t, u, w, r, bytes)
    ensures Replicated(s, u, w, r, bytes)
  {
    assert t.workers - {w} == s.workers - {w};
    assert t.inFlight - {r} == s.inFlight - {r};
  }

  lemma EnterToList(s: State, w: WorkerId, r: RowId)
    requires Enabled(s, Snapshot(w, r, None)) && r !in s.inFlight && s.rows[r].id == r
    ensures Enabled(Apply(s, Snapshot(w, r, None)), Enter(w))
    ensures var t := s.transports[s.rows[r].blob];
      Apply(Apply(s, Snapshot(w, r, None)), Enter(w)) == s.(
        workers := s.workers[w := Worker(s.rows[r], t.hash, t.Mirror(), None, Listing)], inFlight := s.inFlight + {r})
  {
  }

  lemma ListStep(s: State, t: State, w: WorkerId, siblings: seq<Row>)
    requires w in t.workers && t.workers[w].phase.Listing? && t.rows == s.rows
    requires SiblingList(s, siblings, t.workers[w].snap)
    ensures Enabled(t, ListSources(w, siblings))
    ensures Apply(t, ListSources(w, siblings)) ==
      SetPhase(t, w, Reading(Handles(OrderPlacementsForRead(siblings)) + [t.workers[w].mirror]))
  {
  }

  lemma RephasedWorker(s: State, w: WorkerId, wk: Worker, inFlight: set<RowId>, phase: Phase)
    ensures SetPhase(s.(workers := s.workers[w := wk], inFlight := inFlight), w, phase)
      == s.(workers := s.workers[w := wk.(phase := phase)], inFlight := inFlight)
  {
    assert s.workers[w := wk][w := wk.(phase := phase)] == s.workers[w := wk.(phase := phase)];
  }

  lemma EnterAndList(s: State, w: WorkerId, r: RowId, siblings: seq<Row>) returns (run: seq<Step>)
    requires RowsOwn(s) && Enabled(s, Snapshot(w, r, None)) && r !in s.inFlight && SiblingList(s, siblings, s.rows[r])
    ensures WorkersOwn(run)
    ensures Valid(s, run)
    ensures var t := s.transports[s.rows[r].blob];
      Final(s, run) == s.(
        workers := s.workers[w := Worker(s.rows[r], t.hash, t.Mirror(), None,
          Reading(Handles(OrderPlacementsForRead(siblings)) + [t.Mirror()]))],
        inFlight := s.inFlight + {r})
  {
    assert s.rows[r].id == r;
    hide RowsOwn, SiblingList, OrderPlacementsForRead;
    var a, b, c := Snapshot(w, r, None), Enter(w), ListSources(w, siblings);
    EnterToList(s, w, r);
    var s1 := Apply(s, a);
    var s2 := Apply(s1, b);
    ListStep(s, s2, w, siblings);
    hide Enabled, Apply;
    Two(s, a, b);
    var transport := s.transports[s.rows[r].blob];
    RephasedWorker(s, w, Worker(s.rows[r], transport.hash, transport.Mirror(), None, Listing), s.inFlight + {r},
      Reading(Handles(OrderPlacementsForRead(siblings)) + [transport.Mirror()]));
    hide Valid, Final, SetPhase;
    Extend(s, [a, b], c);
    run := [a, b] + [c];
  }

  /**
   A sweep's uninterrupted worker: whatever earlier sources fail, if the k-th one in read order
   returns bytes that match the stored hash, the row ends ACTIVE with a fresh copy of them.
   */
  lemma SweepReplicates(s: State, w: WorkerId, r: RowId, siblings: seq<Row>, k: nat, bytes: Bytes)
    returns (run: seq<Step>)
    requires RowsOwn(s) && Enabled(s, Snapshot(w, r, None)) && r !in s.inFlight && SiblingList(s, siblings, s.rows[r])
    requires Sha256(bytes) == s.transports[s.rows[r].blob].hash
    requires var sources := Handles(OrderPlacementsForRead(siblings)) + [s.transports[s.rows[r].blob].Mirror()];
      k < |sources| && sources[k].Some?
    ensures Valid(s, run) && Replicated(s, Final(s, run), w, r, bytes)
  {
    var first := EnterAndList(s, w, r, siblings);
    var t := Final(s, first);
    assert s.rows[r].id == r && s.rows[r].Queued() && s.rows[r].blob in s.transports && w !in s.workers;
    hide RowsOwn, Enabled, Apply, SiblingList, OrderPlacementsForRead;
    var rest := ReadToEnd(s, t, w, r, k, bytes);
    Joined(s, first, rest);
    run := first + rest;
  }

  /** From the first read on, seen from the state s before the worker entered. */
  lemma ReadToEnd(s: State, t: State, w: WorkerId, r: RowId, k: nat, bytes: Bytes) returns (run: seq<Step>)
    requires r in s.rows && s.rows[r].id == r && s.rows[r].Queued() && s.rows[r].blob in s.transports
    requires w !in s.workers && r !in s.inFlight && w in t.workers && t.workers[w].snap == s.rows[r]
    requires t == s.(workers := s.workers[w := t.workers[w]], inFlight := s.inFlight + {r})
    requires t.workers[w].phase.Reading? && Sha256(bytes) == t.workers[w].hash
    requires k < |t.workers[w].phase.sources| && t.workers[w].phase.sources[k].Some?
    ensures Valid(t, run) && Replicated(s, Final(t, run), w, r, bytes)
  {
    hide Enabled, Apply, Replicated;
    var first := ReadUntil(t, w, k, bytes);
    var u := Final(t, first);
    assert u.workers == s.workers[w := u.workers[w]];
    var second := DropToEnd(u, w, r, bytes);
    Joined(t, first, second);
    run := first + second;
    SameOutcome(s, u, Final(t, run), w, r, bytes);
  }

  // --------------------------------------------------- what a commit leaves readable

  /** Every row of the blob that serves reads names this copy. */
  predicate OnlyServes(s: State, b: BlobId, h: Handle) {
    forall r <- s.rows :: s.rows[r].blob == b && s.rows[r].Readable() ==> s.rows[r].handle == Some(h)
  }

  predicate NoReadableReplica(s: State, b: BlobId) {
    forall r <- s.rows :: s.rows[r].blob == b && s.rows[r].role == Replica ==> !s.rows[r].Readable()
  }

  lemma EnsureServes(s: State, b: BlobId, kinds: seq<Provider>, h: Handle)
    requires forall r <- s.rows :: r < s.nextRow
    ensures OnlyServes(EnsureReplicas(s, b, kinds), b, h) <==> OnlyServes(s, b, h)
  {
    EnsureAdds(s, b, kinds);
    hide EnsureReplicas;
  }

  lemma UploadIsNew(s: State, u: UploadId)
    requires RowsOwn(s) && UploadsOk(s) && u in s.uploads
    ensures forall r <- s.rows :: r < s.nextRow && s.rows[r].handle != Some(s.uploads[u].handle)
  {
    assert UploadOk(s, u, s.uploads[u]);
    assert forall r <- s.rows :: OwnsHandle(s, s.rows[r]) && s.rows[r].id == r < s.nextRow;
  }

  /** Publishing leaves the blob one primary, with the upload's copy. */
  lemma PublishSetsPrimary(s: State, u: UploadId)
    requires u in s.uploads && (forall r <- s.rows :: r < s.nextRow) && SlotsUnique(s)
    ensures var up, t := s.uploads[u], PublishPrimary(s, u);
      && (forall r <- t.rows :: r < t.nextRow)
      && (forall r <- t.rows :: t.rows[r].blob == up.blob && t.rows[r].role == Primary ==>
        t.rows[r].handle == Some(up.handle))
  {
  }

  /** Publishing changes primary rows only. */
  lemma PublishKeepsReplicas(s: State, u: UploadId)
    requires u in s.uploads && forall r <- s.rows :: r < s.nextRow
    ensures var t := PublishPrimary(s, u);
      && (forall r <- s.rows :: s.rows[r].role == Replica ==> r in t.rows && t.rows[r] == s.rows[r])
      && (forall r <- t.rows :: t.rows[r].role == Replica ==> r in s.rows && t.rows[r] == s.rows[r])
  {
    var up := s.uploads[u];
    var existing := PrimaryRow(s, up.blob, up.provider);
    var id := if existing.Some? then existing.value else s.nextRow;
    assert id in s.rows ==> s.rows[id].role == Primary;
  }

  /** Right after the upload's own row is published, only replicas may still serve older bytes. */
  lemma PublishServes(s: State, u: UploadId)
    requires RowsOwn(s) && SlotsUnique(s) && UploadsOk(s) && u in s.uploads
    ensures var up, t := s.uploads[u], PublishPrimary(s, u);
      && (forall r <- t.rows :: r < t.nextRow)
      && (forall r <- t.rows :: t.rows[r].blob == up.blob && t.rows[r].role == Primary ==>
        t.rows[r].handle == Some(up.handle))
      && (NoReadableReplica(t, up.blob) <==> NoReadableReplica(s, up.blob))
      && forall r <- t.rows :: t.rows[r].role == Replica ==> t.rows[r].handle != Some(up.handle)
  {
    UploadIsNew(s, u);
    PublishSetsPrimary(s, u);
    PublishKeepsReplicas(s, u);
    hide RowsOwn, SlotsUnique, UploadsOk, PublishPrimary;
  }

  /**
   After the transaction every row that serves reads names the new upload's copy, exactly when
   replicas are configured or none of the blob's replica rows was readable.
   */
  lemma CommitServesNewIff(s: State, u: UploadId, kinds: seq<Provider>)
    requires Inv(s) && u in s.uploads
    ensures var up := s.uploads[u];
      OnlyServes(CommitUpload(s, u, kinds), up.blob, up.handle) <==> kinds != [] || NoReadableReplica(s, up.blob)
  {
    var up, p := s.uploads[u], PublishPrimary(s, u);
    PublishServes(s, u);
    hide Inv, PublishPrimary;
    if kinds != [] {
      RequeueServes(p, up.blob, up.handle);
      EnsureServes(RequeueReplicas(p, up.blob), up.blob, kinds, up.handle);
      hide EnsureReplicas, RequeueReplicas;
    } else if !NoReadableReplica(p, up.blob) {
      var r :| r in p.rows && p.rows[r].blob == up.blob && p.rows[r].role == Replica && p.rows[r].Readable();
      assert p.rows[r].handle != Some(up.handle);
    }
  }

  /** With every replica back in the queue only the primary serves. */
  lemma RequeueServes(s: State, b: BlobId, h: Handle)
    requires forall r <- s.rows :: r < s.nextRow
    requires forall r <- s.rows :: s.rows[r].blob == b && s.rows[r].role == Primary ==> s.rows[r].handle == Some(h)
    ensures var t := RequeueReplicas(s, b); OnlyServes(t, b, h) && forall r <- t.rows :: r < t.nextRow
  {
  }

  // ---------------------------------------------------------------- a whole purge

  function Deletes(p: PurgeId, targets: seq<Handle>): seq<Step> {
    if targets == [] then [] else [PurgeDelete(p, targets[0], true)] + Deletes(p, targets[1..])
  }

  lemma {:induction false} DeletesRemove(s: State, p: PurgeId, targets: seq<Handle>)
    requires p in s.purges && forall h <- targets :: h in s.purges[p].targets
    ensures Valid(s, Deletes(p, targets))
    ensures Final(s, Deletes(p, targets)) == s.(copies := Final(s, Deletes(p, targets)).copies)
    ensures forall h :: h in Final(s, Deletes(p, targets)).copies <==> h in s.copies && h !in targets
    decreases |targets|
  {
    if targets != [] {
      var step := PurgeDelete(p, targets[0], true);
      assert Enabled(s, step);
      DeletesRemove(Apply(s, step), p, targets[1..]);
      assert Deletes(p, targets)[1..] == Deletes(p, targets[1..]);
      assert forall h :: h in targets <==> h == targets[0] || h in targets[1..];
    }
  }

  /** Any list of a finite set's members. */
  lemma Listed(hs: set<Handle>) returns (list: seq<Handle>)
    ensures forall h :: h in list <==> h in hs
  {
    if hs == {} {
      list := [];
    } else {
      var x :| x in hs;
      var rest := Listed(hs - {x});
      list := [x] + rest;
    }
  }

  /**
   An uninterrupted purge whose deletes succeed: every copy a row of the blob names is gone, with
   the rows and the transport, and no other row, transport or copy is touched.
   */
  lemma PurgeRemovesNamedCopies(s: State, p: PurgeId, b: BlobId) returns (run: seq<Step>)
    requires p !in s.purges && b in s.transports && exists r :: r in s.rows && s.rows[r].blob == b
    ensures Valid(s, run)
    ensures var t := Final(s, run);
      && (forall h :: h in t.copies <==> h in s.copies && forall r <- s.rows :: s.rows[r].blob == b ==>
        s.rows[r].handle != Some(h))
      && t.transports == s.transports - {b}
      && (forall r :: r in t.rows <==> r in s.rows && s.rows[r].blob != b)
      && (forall r <- t.rows :: t.rows[r] == s.rows[r])
      && t.workers == s.workers && t.uploads == s.uploads && t.purges == s.purges
  {
    run := WholePurge(s, p, b);
    TargetsAreNamed(s, b);
    hide PurgeTargets, Valid, Final;
  }

  lemma PurgeEnds(s: State, t: State, p: PurgeId, b: BlobId)
    requires p !in s.purges && b in s.transports && Enabled(s, PurgeList(p, b))
    requires t == Apply(s, PurgeList(p, b)).(copies := t.copies)
    ensures Enabled(t, PurgeCommit(p))
    ensures Apply(t, PurgeCommit(p)) == PurgeRows(s, b).(copies := t.copies, doomed := t.doomed)
  {
    assert t.purges - {p} == s.purges;
    hide PurgeTargets;
  }

  /** List the targets, delete each, commit. */
  lemma WholePurge(s: State, p: PurgeId, b: BlobId) returns (run: seq<Step>)
    requires p !in s.purges && b in s.transports
    ensures Valid(s, run)
    ensures var t := Final(s, run);
      && t == PurgeRows(s, b).(copies := t.copies, doomed := t.doomed)
      && forall h :: h in t.copies <==> h in s.copies && h !in PurgeTargets(s, b)
  {
    var list := Listed(PurgeTargets(s, b));
    var s1 := Apply(s, PurgeList(p, b));
    DeletesRemove(s1, p, list);
    var s2 := Final(s1, Deletes(p, list));
    PurgeEnds(s, s2, p, b);
    hide PurgeTargets, PurgeRows, Enabled, Apply;
    Extend(s1, Deletes(p, list), PurgeCommit(p));
    run := [PurgeList(p, b)] + (Deletes(p, list) + [PurgeCommit(p)]);
    assert run[1..] == Deletes(p, list) + [PurgeCommit(p)];
  }

  /** A blob without rows: the purge deletes what its legacy record names. */
  lemma LegacyPurgeRemovesMirror(s: State, p: PurgeId, b: BlobId) returns (run: seq<Step>)
    requires p !in s.purges && b in s.transports && forall r <- s.rows :: s.rows[r].blob != b
    ensures Valid(s, run)
    ensures var t := Final(s, run);
      && (forall h :: h in t.copies <==> h in s.copies && s.transports[b].Mirror() != Some(h))
      && t.transports == s.transports - {b} && t.rows == s.rows
  {
    run := WholePurge(s, p, b);
    var rows := set r | r in s.rows && s.rows[r].blob == b;
    assert rows == {};
    assert PurgeRows(s, b).rows == s.rows;
    hide Valid, Final;
  }

  lemma TargetsAreNamed(s: State, b: BlobId)
    requires b in s.transports && exists r :: r in s.rows && s.rows[r].blob == b
    ensures forall h ::
      h in PurgeTargets(s, b) <==> exists r <- s.rows :: s.rows[r].blob == b && s.rows[r].handle == Some(h)
  {
    var rows := set q | q in s.rows && s.rows[q].blob == b;
    var r :| r in s.rows && s.rows[r].blob == b;
    assert r in rows;
    assert PurgeTargets(s, b) == set q | q in rows && s.rows[q].handle.Some? :: s.rows[q].handle.value;
    forall h | exists q <- s.rows :: s.rows[q].blob == b && s.rows[q].handle == Some(h)
      ensures h in PurgeTargets(s, b)
    {
      var q :| q in s.rows && s.rows[q].blob == b && s.rows[q].handle == Some(h);
      assert q in rows && s.rows[q].handle.Some? && s.rows[q].handle.value == h;
    }
  }
}
