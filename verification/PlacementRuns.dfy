/** Runs that show where the placement protocol's guarantees end. */
module PlacementRuns {
  import opened Basics
  import opened PlacementRows
  import opened ReadOrder
  import opened Placement
  import opened PlacementInvariant
  import opened PlacementSafety
  import opened PlacementFrames
  import opened PlacementEffects

  /** s is where the run leads from the empty state. */
  ghost predicate Reached(run: seq<Step>, s: State) {
    Valid(Empty, run) && Final(Empty, run) == s
  }

  /** A run by steps no loss or purge listing is among. */
  ghost predicate Quiet(run: seq<Step>, s: State) {
    Reached(run, s) && NoLossNoPurge(run, 0)
  }

  lemma QuietThen(run: seq<Step>, s: State, step: Step)
    requires Quiet(run, s) && Enabled(s, step) && !step.ProviderLoss? && !step.PurgeList?
    ensures Quiet(run + [step], Apply(s, step))
  {
    Extend(Empty, run, step);
  }

  lemma {:induction false} QuietJoin(run: seq<Step>, s: State, more: seq<Step>)
    requires Quiet(run, s) && Valid(s, more) && WorkersOwn(more)
    ensures Quiet(run + more, Final(s, more))
  {
    Joined(Empty, run, more);
  }

  lemma QuietIs(run: seq<Step>, s: State)
    requires Quiet(run, s)
    ensures Valid(Empty, run) && Final(Empty, run) == s && NoLossNoPurge(run, 0)
  {
  }

  lemma QuietOk(run: seq<Step>, s: State)
    requires Quiet(run, s)
    ensures Inv(s)
  {
    assert Inv(Empty);
    RunKeeps(Empty, run);
  }

  // ---------------------------------------- a health report revives a primary row

  /**
   Without any loss or purge, a run can end with an ACTIVE primary row whose copy is
   gone: a worker healing the parked row has dropped the old copy when a health
   report moves the row back to ACTIVE. So the health condition of UnrevivedRowExists is needed.
   */
  lemma HealthCanReviveDeletedPrimary() returns (run: seq<Step>)
    ensures Valid(Empty, run) && NoLossNoPurge(run, 0) && !NoRevival(Empty, run, 0)
    ensures var s := Final(Empty, run);
      && 0 in s.rows && s.rows[0].blob == 0 && s.rows[0].role == Primary && s.rows[0].status == Active
      && s.rows[0].handle.Some? && s.rows[0].handle.value !in s.copies
  {
    var row := Row(0, 0, Discord, Primary, Missing, Some(0), 0);
    var run1, s1 := UploadAndPark(row);
    var run2, s2 := ReadForHealing(run1, s1, row);
    run := DropAndRevive(run2, s2, row);
    if NoRevival(Empty, run, 0) {
      UnrevivedRowExists(run, 0);
    }
  }

  lemma PutEnabled(s: State, u: UploadId, b: BlobId, provider: Provider, bytes: Bytes)
    requires u !in s.uploads
    ensures var step := UploadPut(u, b, provider, bytes, Acked);
      && Enabled(s, step)
      && Apply(s, step) == StoreCopy(s, Put(b, bytes, Primary, ByUpload(u))).(
           uploads := s.uploads[u := Upload(b, provider, bytes, s.nextHandle)])
  {
  }

  lemma CommitEnabled(s: State, u: UploadId, kinds: seq<Provider>)
    requires u in s.uploads
    ensures Enabled(s, UploadCommit(u, kinds)) && Apply(s, UploadCommit(u, kinds)) == CommitUpload(s, u, kinds)
  {
  }

  lemma ParkEnabled(s: State, r: RowId)
    requires r in s.rows && s.rows[r].Readable()
    ensures Enabled(s, Park(r))
    ensures Apply(s, Park(r)) == s.(rows := s.rows[r := s.rows[r].(status := Missing, attempts := 0)])
  {
  }

  /** The first upload's transaction, into empty tables. */
  lemma FirstPublish(s: State)
    requires s.rows == map[] && s.transports == map[] && s.nextRow == 0
    requires s.uploads == map[0 := Upload(0, Discord, [1], 0)]
    ensures var t := PublishPrimary(s, 0);
      && t.rows == map[0 := Row(0, 0, Discord, Primary, Active, Some(0), 0)] && t.uploads == map[] && t.nextRow == 1
      && t.transports == map[0 := Transport(Sha256([1]), Discord, Some(0))]
      && t.copies == s.copies && t.workers == s.workers && t.inFlight == s.inFlight && t.nextHandle == s.nextHandle
      && [1] in Accepted(t, 0)
  {
  }

  lemma UploadAndPark(row: Row) returns (run: seq<Step>, s: State)
    requires row == Row(0, 0, Discord, Primary, Missing, Some(0), 0)
    ensures Quiet(run, s) && s.rows == map[0 := row] && s.copies == {0} && s.workers == map[] && s.inFlight == {}
    ensures s.transports == map[0 := Transport(Sha256([1]), Discord, Some(0))]
  {
    assert Quiet([], Empty);
    hide Quiet;
    var a := UploadPut(0, 0, Discord, [1], Acked);
    PutEnabled(Empty, 0, 0, Discord, [1]);
    var s1 := Apply(Empty, a);
    CommitEnabled(s1, 0, []);
    var s2 := Apply(s1, UploadCommit(0, []));
    FirstPublish(s1);
    hide Apply, Enabled, PublishPrimary;
    QuietThen([], Empty, a);
    QuietThen([] + [a], s1, UploadCommit(0, []));
    ParkEnabled(s2, 0);
    QuietThen([] + [a] + [UploadCommit(0, [])], s2, Park(0));
    run, s := [] + [a] + [UploadCommit(0, [])] + [Park(0)], Apply(s2, Park(0));
  }

  lemma ReadForHealing(run0: seq<Step>, s0: State, row: Row) returns (run: seq<Step>, s: State)
    requires row == Row(0, 0, Discord, Primary, Missing, Some(0), 0)
    requires Quiet(run0, s0) && s0.rows == map[0 := row] && s0.copies == {0} && s0.workers == map[] && s0.inFlight == {}
    requires s0.transports == map[0 := Transport(Sha256([1]), Discord, Some(0))]
    ensures Quiet(run, s) && s.rows == map[0 := row] && s.copies == {0}
    ensures s.workers == map[0 := Worker(row, Sha256([1]), Some(0), None, Dropping([1]))]
  {
    QuietOk(run0, s0);
    hide Quiet, Inv;
    assert Enabled(s0, Snapshot(0, 0, None)) && SiblingList(s0, [], row);
    var a := EnterAndList(s0, 0, 0, []);
    hide Enabled, Apply;
    QuietJoin(run0, s0, a);
    var s1 := Final(s0, a);
    assert s1.workers[0].phase.sources[0] == Some(0);
    var b := ReadUntil(s1, 0, 0, [1]);
    QuietJoin(run0 + a, s1, b);
    run, s := run0 + a + b, Final(s1, b);
  }

  lemma DropAndRevive(run0: seq<Step>, s0: State, row: Row) returns (run: seq<Step>)
    requires row == Row(0, 0, Discord, Primary, Missing, Some(0), 0)
    requires Quiet(run0, s0) && s0.rows == map[0 := row] && s0.copies == {0}
    requires s0.workers == map[0 := Worker(row, Sha256([1]), Some(0), None, Dropping([1]))]
    ensures Valid(Empty, run) && NoLossNoPurge(run, 0)
    ensures var s := Final(Empty, run); s.rows == map[0 := row.(status := Active)] && s.copies == {}
  {
    hide Quiet, Apply, Enabled;
    OldCopyGone(s0, row);
    var s1 := Apply(s0, DropOld(0, true));
    Revived(s1, row);
    QuietThen(run0, s0, DropOld(0, true));
    QuietThen(run0 + [DropOld(0, true)], s1, Health(0, Active));
    QuietIs(run0 + [DropOld(0, true)] + [Health(0, Active)], Apply(s1, Health(0, Active)));
    run := run0 + [DropOld(0, true)] + [Health(0, Active)];
  }

  lemma OldCopyGone(s: State, row: Row)
    requires row == Row(0, 0, Discord, Primary, Missing, Some(0), 0) && s.rows == map[0 := row] && s.copies == {0}
    requires s.workers == map[0 := Worker(row, Sha256([1]), Some(0), None, Dropping([1]))]
    ensures Enabled(s, DropOld(0, true))
    ensures Apply(s, DropOld(0, true)).rows == s.rows && Apply(s, DropOld(0, true)).copies == {}
  {
  }

  lemma Revived(s: State, row: Row)
    requires row == Row(0, 0, Discord, Primary, Missing, Some(0), 0) && s.rows == map[0 := row]
    ensures Enabled(s, Health(0, Active))
    ensures Apply(s, Health(0, Active)).rows == map[0 := row.(status := Active)]
    ensures Apply(s, Health(0, Active)).copies == s.copies
  {
  }

  // -------------------------------------------- a re-upload overtakes a worker

  /**
   When a worker's update matches, the copy it makes ACTIVE holds the bytes of the
   blob's current upload exactly when the hash in its snapshot is still the stored hash.
   */
  lemma {:induction false} ActivationIsCurrentIff(run: seq<Step>, w: WorkerId)
    requires Valid(Empty, run)
    requires var s := Final(Empty, run);
      && w in s.workers && s.workers[w].phase.Activating? && UpdateMatches(s, w)
      && s.workers[w].snap.blob in s.transports
    ensures var s := Final(Empty, run);
      var wk, t := s.workers[w], ActivateRow(s, w, Acked);
      && wk.snap.id in t.rows && t.rows[wk.snap.id].status == Active
      && t.rows[wk.snap.id].handle == Some(wk.phase.written)
      && wk.phase.written in t.puts
      && (Sha256(t.puts[wk.phase.written].bytes) == s.transports[wk.snap.blob].hash
          <==> wk.hash == s.transports[wk.snap.blob].hash)
  {
    var s := Final(Empty, run);
    assert Inv(Empty);
    RunKeeps(Empty, run);
    KnownWorker(s, w);
    hide Inv, Valid, Final;
    UpdatedRow(s, w);
    hide WorkerOk, ActivateRow;
  }

  lemma UpdatedRow(s: State, w: WorkerId)
    requires w in s.workers && s.workers[w].phase.Activating? && UpdateMatches(s, w) && WorkerOk(s, w, s.workers[w])
    ensures var wk, t := s.workers[w], ActivateRow(s, w, Acked);
      && wk.snap.id in t.rows && t.rows[wk.snap.id].status == Active
      && t.rows[wk.snap.id].handle == Some(wk.phase.written)
      && wk.phase.written in t.puts && t.puts[wk.phase.written].bytes == wk.hash.preimage
  {
  }

  /**
   A re-upload that commits while a worker holds the first upload's bytes: the run ends
   with an ACTIVE replica of the first upload beside an ACTIVE primary of the second.
   */
  lemma ReuploadCanLeaveStaleReplica() returns (run: seq<Step>)
    ensures Valid(Empty, run) && NoLossNoPurge(run, 0)
    ensures var s := Final(Empty, run);
      && 0 in s.rows && 1 in s.rows && s.rows[0].status == Active == s.rows[1].status
      && s.rows[0].blob == s.rows[1].blob && s.rows[0].handle == Some(2) && s.rows[1].handle == Some(1)
      && 1 in s.puts && 2 in s.puts && s.puts[2].bytes == [2] && s.puts[1].bytes == [1]
  {
    var p := Row(0, 0, Discord, Primary, Active, Some(0), 0);
    var r := Row(1, 0, Telegram, Replica, Pending, None, 0);
    var run1, s1 := UploadWithReplica(p, r);
    var run2, s2 := WriteThrough(run1, s1, p, r);
    var run3, s3 := SecondUpload(run2, s2, p, r);
    hide Quiet, Apply, Enabled;
    FirstUploadActivated(s3, p, r);
    QuietThen(run3, s3, Activate(0, Acked));
    run := run3 + [Activate(0, Acked)];
    QuietIs(run, Apply(s3, Activate(0, Acked)));
  }

  lemma FirstUploadActivated(s: State, p: Row, r: Row)
    requires r == Row(1, 0, Telegram, Replica, Pending, None, 0)
    requires s.rows == map[0 := p.(handle := Some(2)), 1 := r]
    requires s.workers == map[0 := Worker(r, Sha256([1]), Some(0), Some([1]), Activating([1], 1))]
    ensures Enabled(s, Activate(0, Acked))
    ensures var t := Apply(s, Activate(0, Acked));
      t.rows == map[0 := p.(handle := Some(2)), 1 := r.(status := Active, handle := Some(1))] && t.puts == s.puts
  {
    assert s.rows[1] == r && s.workers[0].snap == r;
    assert ActivateRow(s, 0, Acked) == Finish(SetActive(s, 1, 1), 0);
  }

  /** The transaction's second half adds the one configured replica. */
  lemma FirstReplica(q: State, p: Row, r: Row)
    requires p == Row(0, 0, Discord, Primary, Active, Some(0), 0) && r == Row(1, 0, Telegram, Replica, Pending, None, 0)
    requires q.rows == map[0 := p] && q.nextRow == 1
    ensures var s := EnsureReplicas(RequeueReplicas(q, 0), 0, [Telegram]);
      s.rows == map[0 := p, 1 := r] && s == q.(rows := s.rows, nextRow := 2)
  {
    var t := RequeueReplicas(q, 0);
    assert t.rows == map[0 := p] && [Telegram][1..] == [];
    assert EnsureReplicas(t, 0, [Telegram]) == EnsureReplicas(AddReplica(t, 0, Telegram), 0, []);
  }

  lemma UploadWithReplica(p: Row, r: Row) returns (run: seq<Step>, s: State)
    requires p == Row(0, 0, Discord, Primary, Active, Some(0), 0) && r == Row(1, 0, Telegram, Replica, Pending, None, 0)
    ensures Quiet(run, s) && s.rows == map[0 := p, 1 := r] && s.nextHandle == 1 && s.nextRow == 2 && s.uploads == map[]
    ensures s.workers == map[] && s.inFlight == {} && [1] in Accepted(s, 0)
    ensures s.transports == map[0 := Transport(Sha256([1]), Discord, Some(0))]
  {
    assert Quiet([], Empty);
    hide Quiet;
    var a, c := UploadPut(0, 0, Discord, [1], Acked), UploadCommit(0, [Telegram]);
    PutEnabled(Empty, 0, 0, Discord, [1]);
    var s1 := Apply(Empty, a);
    CommitEnabled(s1, 0, [Telegram]);
    FirstPublish(s1);
    hide Apply, Enabled, PublishPrimary;
    QuietThen([], Empty, a);
    QuietThen([] + [a], s1, c);
    run, s := [] + [a] + [c], Apply(s1, c);
    FirstReplica(PublishPrimary(s1, 0), p, r);
    hide EnsureReplicas, RequeueReplicas;
  }

  lemma WriteThrough(run0: seq<Step>, s0: State, p: Row, r: Row) returns (run: seq<Step>, s: State)
    requires p == Row(0, 0, Discord, Primary, Active, Some(0), 0) && r == Row(1, 0, Telegram, Replica, Pending, None, 0)
    requires Quiet(run0, s0) && s0.rows == map[0 := p, 1 := r] && s0.nextHandle == 1 && s0.nextRow == 2
      && s0.uploads == map[]
    requires s0.workers == map[] && s0.inFlight == {} && [1] in Accepted(s0, 0)
    requires s0.transports == map[0 := Transport(Sha256([1]), Discord, Some(0))]
    ensures Quiet(run, s) && s.rows == map[0 := p, 1 := r] && s.nextHandle == 2 && s.nextRow == 2 && s.uploads == map[]
    ensures s.workers == map[0 := Worker(r, Sha256([1]), Some(0), Some([1]), Activating([1], 1))]
    ensures 1 in s.puts && s.puts[1].bytes == [1]
  {
    QuietOk(run0, s0);
    hide Quiet, Inv;
    assert Enabled(s0, Snapshot(0, 1, Some([1])));
    var a := EnterWithBytes(s0, 0, 1, [1]);
    hide Enabled, Apply;
    QuietJoin(run0, s0, a);
    var b, t := UntilStored(Final(s0, a), 0, 1, [1]);
    QuietJoin(run0 + a, Final(s0, a), b);
    run, s := run0 + a + b, t;
  }

  lemma SecondUpload(run0: seq<Step>, s0: State, p: Row, r: Row) returns (run: seq<Step>, s: State)
    requires p == Row(0, 0, Discord, Primary, Active, Some(0), 0) && r == Row(1, 0, Telegram, Replica, Pending, None, 0)
    requires Quiet(run0, s0) && s0.rows == map[0 := p, 1 := r] && s0.nextHandle == 2 && s0.nextRow == 2
      && s0.uploads == map[]
    requires s0.workers == map[0 := Worker(r, Sha256([1]), Some(0), Some([1]), Activating([1], 1))]
    requires 1 in s0.puts && s0.puts[1].bytes == [1]
    ensures Quiet(run, s) && s.rows == map[0 := p.(handle := Some(2)), 1 := r] && s.workers == s0.workers
    ensures 1 in s.puts && 2 in s.puts && s.puts[2].bytes == [2] && s.puts[1].bytes == [1]
  {
    hide Quiet;
    var a, c := UploadPut(1, 0, Discord, [2], Acked), UploadCommit(1, [Telegram]);
    QuietThen(run0, s0, a);
    var s1 := Apply(s0, a);
    assert s1 == StoreCopy(s0, Put(0, [2], Primary, ByUpload(1))).(uploads := map[1 := Upload(0, Discord, [2], 2)]);
    QuietThen(run0 + [a], s1, c);
    run, s := run0 + [a] + [c], Apply(s1, c);
    SecondCommit(s1, p, r);
  }

  lemma SecondCommit(s: State, p: Row, r: Row)
    requires p == Row(0, 0, Discord, Primary, Active, Some(0), 0) && r == Row(1, 0, Telegram, Replica, Pending, None, 0)
    requires s.rows == map[0 := p, 1 := r] && s.uploads == map[1 := Upload(0, Discord, [2], 2)]
    ensures var t := CommitUpload(s, 1, [Telegram]);
      t.rows == map[0 := p.(handle := Some(2)), 1 := r] && t.workers == s.workers && t.puts == s.puts
  {
    SecondPublish(s, p, r);
    hide PublishPrimary;
    SecondRequeue(PublishPrimary(s, 1), p.(handle := Some(2)), r);
  }

  lemma SecondPublish(s: State, p: Row, r: Row)
    requires p == Row(0, 0, Discord, Primary, Active, Some(0), 0)
    requires r.id == 1 && r.blob == 0 && r.provider == Telegram && r.role == Replica
    requires s.rows == map[0 := p, 1 := r] && s.uploads == map[1 := Upload(0, Discord, [2], 2)]
    ensures var q := PublishPrimary(s, 1);
      q.rows == map[0 := p.(handle := Some(2)), 1 := r] && q.workers == s.workers && q.puts == s.puts
  {
    assert s.rows[0] == p && s.rows[1] == r;
    assert PrimaryRow(s, 0, Discord) == Some(0);
  }

  lemma SecondRequeue(q: State, p: Row, r: Row)
    requires p == Row(0, 0, Discord, Primary, Active, Some(2), 0) && r == Row(1, 0, Telegram, Replica, Pending, None, 0)
    requires q.rows == map[0 := p, 1 := r]
    ensures EnsureReplicas(RequeueReplicas(q, 0), 0, [Telegram]) == q
  {
    var t := RequeueReplicas(q, 0);
    assert t.rows == q.rows && t == q;
    assert 1 in t.rows && [Telegram][1..] == [];
  }

  /**
   A blob is replicated, then no replicas are configured any more and it is uploaded again: the
   ACTIVE replica keeps serving the first upload beside the ACTIVE primary of the second.
   */
  lemma UnconfiguredReplicaStaysStale() returns (run: seq<Step>)
    ensures Valid(Empty, run)
    ensures var s := Final(Empty, run);
      && 0 in s.rows && 1 in s.rows && s.rows[0].status == Active == s.rows[1].status
      && s.rows[0].blob == s.rows[1].blob && s.rows[0].handle == Some(2) && s.rows[1].handle == Some(1)
      && 1 in s.puts && 2 in s.puts && s.puts[2].bytes == [2] && s.puts[1].bytes == [1]
  {
    var p, r := Row(0, 0, Discord, Primary, Active, Some(0), 0), Row(1, 0, Telegram, Replica, Pending, None, 0);
    var first, s1 := UploadWithReplica(p, r);
    assert Valid(Empty, first) && Final(Empty, first) == s1;
    QuietOk(first, s1);
    assert Enabled(s1, Snapshot(0, 1, Some([1])));
    hide Inv, Enabled, Apply;
    var second := WriteThroughReplicates(s1, 0, 1, [1]);
    Joined(Empty, first, second);
    var s2 := Final(s1, second);
    assert s2.rows == map[0 := p, 1 := r.(status := Active, handle := Some(1))];
    var third := UploadWithoutReplicas(s2, p, r);
    Joined(Empty, first + second, third);
    run := first + second + third;
  }

  lemma UploadWithoutReplicas(s: State, p: Row, r: Row) returns (run: seq<Step>)
    requires p == Row(0, 0, Discord, Primary, Active, Some(0), 0) && r == Row(1, 0, Telegram, Replica, Pending, None, 0)
    requires s.rows == map[0 := p, 1 := r.(status := Active, handle := Some(1))]
    requires s.uploads == map[] && s.nextHandle == 2 && 1 in s.puts && s.puts[1].bytes == [1]
    ensures Valid(s, run)
    ensures var t := Final(s, run);
      && t.rows == map[0 := p.(handle := Some(2)), 1 := r.(status := Active, handle := Some(1))]
      && 1 in t.puts && 2 in t.puts && t.puts[2].bytes == [2] && t.puts[1].bytes == [1]
  {
    var a, c := UploadPut(1, 0, Discord, [2], Acked), UploadCommit(1, []);
    var s1 := Apply(s, a);
    PutEnabled(s, 1, 0, Discord, [2]);
    CommitEnabled(s1, 1, []);
    hide Apply, Enabled;
    Two(s, a, c);
    run := [a, c];
    SecondPublish(s1, p, r.(status := Active, handle := Some(1)));
    hide PublishPrimary;
  }
}
