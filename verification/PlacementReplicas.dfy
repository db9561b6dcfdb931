/** What the upload transaction and a manifest commit leave of a blob's rows, row by row. */
module PlacementReplicas {
  import opened Basics
  import opened PlacementRows
  import opened Placement
  import opened PlacementFrames
  import opened PlacementInvariant
  import opened PlacementSafety

  /** The blob has a replica row at this provider. */
  predicate HasReplica(s: State, b: BlobId, kind: Provider) {
    exists r <- s.rows :: s.rows[r].blob == b && s.rows[r].role == Replica && s.rows[r].provider == kind
  }

  /** An untouched row of the queue: PENDING, no copy, no attempt. */
  predicate FreshReplica(row: Row, r: RowId, b: BlobId, kind: Provider) {
    row == Row(r, b, kind, Replica, Pending, None, 0)
  }

  /** Nothing is lost or changed, and each new row is a fresh replica of a kind that had none. */
  ghost predicate OnlyMissingKindsAdded(s: State, t: State, b: BlobId, kinds: seq<Provider>) {
    && (forall r <- s.rows :: r in t.rows && t.rows[r] == s.rows[r])
    && (forall r <- t.rows :: r !in s.rows ==>
      && s.nextRow <= r && FreshReplica(t.rows[r], r, b, t.rows[r].provider)
      && t.rows[r].provider in kinds && !HasReplica(s, b, t.rows[r].provider))
    && s.nextRow <= t.nextRow
  }

  /** Every configured kind has its row. */
  ghost predicate EveryKindQueued(t: State, b: BlobId, kinds: seq<Provider>) {
    forall kind <- kinds :: HasReplica(t, b, kind)
  }

  lemma ReplicaStays(s: State, t: State, b: BlobId, kind: Provider)
    requires HasReplica(s, b, kind) && forall r <- s.rows :: r in t.rows && t.rows[r] == s.rows[r]
    ensures HasReplica(t, b, kind)
  {
  }

  lemma AddsOne(s: State, b: BlobId, kind: Provider)
    requires (forall r <- s.rows :: r < s.nextRow) && !HasReplica(s, b, kind)
    ensures var t := AddReplica(s, b, kind);
      && OnlyMissingKindsAdded(s, t, b, [kind]) && HasReplica(t, b, kind) && forall r <- t.rows :: r < t.nextRow
  {
    var t := AddReplica(s, b, kind);
    assert t.rows[s.nextRow] == Row(s.nextRow, b, kind, Replica, Pending, None, 0);
  }

  lemma AddedInTurn(s: State, t: State, u: State, b: BlobId, kind: Provider, rest: seq<Provider>)
    requires OnlyMissingKindsAdded(s, t, b, [kind]) && OnlyMissingKindsAdded(t, u, b, rest)
    ensures OnlyMissingKindsAdded(s, u, b, [kind] + rest)
  {
    forall r | r in u.rows && r !in s.rows
      ensures s.nextRow <= r && FreshReplica(u.rows[r], r, b, u.rows[r].provider)
      ensures u.rows[r].provider in [kind] + rest && !HasReplica(s, b, u.rows[r].provider)
    {
      if r !in t.rows && HasReplica(s, b, u.rows[r].provider) {
        ReplicaStays(s, t, b, u.rows[r].provider);
      }
    }
  }

  /** createMany gives each configured kind a row, and adds no other. */
  lemma {:induction false} EnsureQueuesEveryKind(s: State, b: BlobId, kinds: seq<Provider>)
    requires forall r <- s.rows :: r < s.nextRow
    ensures var t := EnsureReplicas(s, b, kinds);
      OnlyMissingKindsAdded(s, t, b, kinds) && EveryKindQueued(t, b, kinds)
    decreases |kinds|
  {
    if kinds != [] {
      var first, rest := kinds[0], kinds[1..];
      assert kinds == [first] + rest;
      var t := if HasReplica(s, b, first) then s else AddReplica(s, b, first);
      if !HasReplica(s, b, first) {
        AddsOne(s, b, first);
      }
      assert EnsureReplicas(s, b, kinds) == EnsureReplicas(t, b, rest);
      EnsureQueuesEveryKind(t, b, rest);
      var u := EnsureReplicas(t, b, rest);
      hide EnsureReplicas, HasReplica, FreshReplica, AddReplica;
      AddedInTurn(s, t, u, b, first, rest);
      ReplicaStays(t, u, b, first);
    }
  }

  // ------------------------------------------------------------ the whole transaction

  /** What becomes of a row that was there: another provider's primary goes, a queued replica starts over. */
  function AfterCommit(row: Row, up: Upload, kinds: seq<Provider>): Option<Row> {
    if row.blob != up.blob then Some(row)
    else if row.role == Primary then
      if row.provider == up.provider then Some(row.(status := Active, handle := Some(up.handle), attempts := 0))
      else None
    else if kinds != [] && (row.status == Active || row.status == Modified || row.status == Missing)
    then Some(row.(status := Pending, attempts := 0))
    else Some(row)
  }

  /** The row the commit leaves under an id, if any, and how it came to be. */
  ghost predicate RowsAfterCommit(s: State, t: State, up: Upload, kinds: seq<Provider>) {
    && (forall r <- s.rows :: if r in t.rows then AfterCommit(s.rows[r], up, kinds) == Some(t.rows[r])
                              else AfterCommit(s.rows[r], up, kinds) == None)
    && (forall r <- t.rows :: r !in s.rows ==>
      || t.rows[r] == Row(r, up.blob, up.provider, Primary, Active, Some(up.handle), 0)
      || (FreshReplica(t.rows[r], r, up.blob, t.rows[r].provider)
          && t.rows[r].provider in kinds && !HasReplica(s, up.blob, t.rows[r].provider)))
    && EveryKindQueued(t, up.blob, kinds)
    && exists p <- t.rows :: t.rows[p] == Row(p, up.blob, up.provider, Primary, Active, Some(up.handle), 0)
  }

  /** The record the transaction leaves: the upload's hash and kind, and the columns of the last Discord copy. */
  ghost predicate RecordAfterCommit(s: State, t: State, up: Upload) {
    && t.transports.Keys == s.transports.Keys + {up.blob}
    && (forall b <- s.transports :: b != up.blob ==> t.transports[b] == s.transports[b])
    && t.transports[up.blob].hash == Sha256(up.bytes) && t.transports[up.blob].kind == up.provider
    && (up.provider == Discord ==> t.transports[up.blob].Mirror() == Some(up.handle))
    && (up.provider == Telegram ==> t.transports[up.blob].Mirror() == None)
    && (up.provider == Telegram && up.blob in s.transports ==>
      t.transports[up.blob].columns == s.transports[up.blob].columns)
  }

  lemma PublishedRows(s: State, u: UploadId)
    requires RowsOwn(s) && SlotsUnique(s) && u in s.uploads
    ensures var up, t := s.uploads[u], PublishPrimary(s, u);
      && (forall r <- s.rows :: if r in t.rows then AfterCommit(s.rows[r], up, []) == Some(t.rows[r])
                                else AfterCommit(s.rows[r], up, []) == None)
      && (forall r <- t.rows :: r !in s.rows ==>
        t.rows[r] == Row(r, up.blob, up.provider, Primary, Active, Some(up.handle), 0))
      && (exists p <- t.rows :: t.rows[p] == Row(p, up.blob, up.provider, Primary, Active, Some(up.handle), 0))
      && s.nextRow <= t.nextRow && (forall r <- t.rows :: r < t.nextRow) && forall r <- s.rows :: r < s.nextRow
  {
    var up, t := s.uploads[u], PublishPrimary(s, u);
    var existing := PrimaryRow(s, up.blob, up.provider);
    var id := if existing.Some? then existing.value else s.nextRow;
    assert t.rows[id] == Row(id, up.blob, up.provider, Primary, Active, Some(up.handle), 0);
    forall r | r in s.rows ensures s.rows[r].id == r < s.nextRow { }
    forall r | r in s.rows && s.rows[r].blob == up.blob && s.rows[r].role == Primary
      && s.rows[r].provider == up.provider
      ensures r == id
    {
      assert SameSlot(s.rows[r], s.rows[id]);
    }
  }

  /** The re-queue: replicas with a copy, or parked ones, start over; their coordinates stay. */
  lemma RequeuedRows(s: State, up: Upload, kinds: seq<Provider>)
    requires kinds != []
    ensures var t := RequeueReplicas(s, up.blob);
      && t == s.(rows := t.rows) && t.rows.Keys == s.rows.Keys
      && forall r <- s.rows ::
        && (s.rows[r].role == Replica ==> AfterCommit(s.rows[r], up, kinds) == Some(t.rows[r]))
        && (s.rows[r].role == Primary ==> t.rows[r] == s.rows[r])
        && t.rows[r].blob == s.rows[r].blob && t.rows[r].role == s.rows[r].role
        && t.rows[r].provider == s.rows[r].provider
  {
  }

  /** One row of s, followed through publish, re-queue and creation. */
  lemma FollowRow(s: State, p: State, q: State, t: State, up: Upload, kinds: seq<Provider>, r: RowId)
    requires r in s.rows && q.rows.Keys == p.rows.Keys
    requires if r in p.rows then AfterCommit(s.rows[r], up, []) == Some(p.rows[r])
             else AfterCommit(s.rows[r], up, []) == None
    requires r in p.rows && p.rows[r].role == Replica ==> AfterCommit(p.rows[r], up, kinds) == Some(q.rows[r])
    requires r in p.rows && p.rows[r].role == Primary ==> q.rows[r] == p.rows[r]
    requires r in q.rows ==> r in t.rows && t.rows[r] == q.rows[r]
    requires r !in p.rows ==> r !in t.rows
    ensures if r in t.rows then AfterCommit(s.rows[r], up, kinds) == Some(t.rows[r])
            else AfterCommit(s.rows[r], up, kinds) == None
  {
  }

  lemma CommitRows(s: State, u: UploadId, kinds: seq<Provider>)
    requires RowsOwn(s) && SlotsUnique(s) && u in s.uploads
    ensures RowsAfterCommit(s, CommitUpload(s, u, kinds), s.uploads[u], kinds)
  {
    var up, p := s.uploads[u], PublishPrimary(s, u);
    hide RowsOwn, SlotsUnique, PublishPrimary;
    PublishedRows(s, u);
    if kinds != [] {
      hide AfterCommit, RowsAfterCommit, EnsureReplicas, RequeueReplicas;
      var q := RequeueReplicas(p, up.blob);
      RequeuedRows(p, up, kinds);
      EnsureQueuesEveryKind(q, up.blob, kinds);
      QueuedRows(s, p, q, EnsureReplicas(q, up.blob, kinds), up, kinds);
    }
  }

  lemma QueuedRows(s: State, p: State, q: State, t: State, up: Upload, kinds: seq<Provider>)
    requires kinds != [] && (forall r <- s.rows :: r < s.nextRow) && s.nextRow <= p.nextRow
    requires forall r <- s.rows :: if r in p.rows then AfterCommit(s.rows[r], up, []) == Some(p.rows[r])
                                   else AfterCommit(s.rows[r], up, []) == None
    requires forall r <- p.rows :: r !in s.rows ==>
      p.rows[r] == Row(r, up.blob, up.provider, Primary, Active, Some(up.handle), 0)
    requires exists x <- p.rows :: p.rows[x] == Row(x, up.blob, up.provider, Primary, Active, Some(up.handle), 0)
    requires q.rows.Keys == p.rows.Keys && q.nextRow == p.nextRow
    requires forall r <- p.rows ::
      && (p.rows[r].role == Replica ==> AfterCommit(p.rows[r], up, kinds) == Some(q.rows[r]))
      && (p.rows[r].role == Primary ==> q.rows[r] == p.rows[r])
      && q.rows[r].blob == p.rows[r].blob && q.rows[r].role == p.rows[r].role
      && q.rows[r].provider == p.rows[r].provider
    requires OnlyMissingKindsAdded(q, t, up.blob, kinds) && EveryKindQueued(t, up.blob, kinds)
    ensures RowsAfterCommit(s, t, up, kinds)
  {
    forall r | r in s.rows
      ensures if r in t.rows then AfterCommit(s.rows[r], up, kinds) == Some(t.rows[r])
              else AfterCommit(s.rows[r], up, kinds) == None
    {
      FollowRow(s, p, q, t, up, kinds, r);
    }
    forall kind | HasReplica(s, up.blob, kind) ensures HasReplica(q, up.blob, kind) {
      var r :| r in s.rows && s.rows[r].blob == up.blob && s.rows[r].role == Replica && s.rows[r].provider == kind;
      assert r in q.rows && q.rows[r].blob == up.blob && q.rows[r].role == Replica && q.rows[r].provider == kind;
    }
    hide AfterCommit, HasReplica, FreshReplica;
    var x :| x in p.rows && p.rows[x] == Row(x, up.blob, up.provider, Primary, Active, Some(up.handle), 0);
    assert t.rows[x] == p.rows[x];
  }

  // ------------------------------------------------------------------- theorems

  /** No kind has two rows. */
  ghost predicate OneRowForEachKind(t: State, b: BlobId) {
    forall q <- t.rows, r <- t.rows ::
      && t.rows[q].blob == b == t.rows[r].blob && t.rows[q].role == Replica == t.rows[r].role
      && t.rows[q].provider == t.rows[r].provider
      ==> q == r
  }

  lemma UniqueSlots(t: State, b: BlobId)
    requires SlotsUnique(t)
    ensures OneRowForEachKind(t, b)
    ensures forall q <- t.rows, r <- t.rows ::
      t.rows[q].blob == b == t.rows[r].blob && t.rows[q].role == Primary == t.rows[r].role ==> q == r
  {
  }

  lemma CommitRecord(s: State, u: UploadId, kinds: seq<Provider>)
    requires u in s.uploads
    ensures var t := CommitUpload(s, u, kinds);
      && RecordAfterCommit(s, t, s.uploads[u])
      && t == s.(transports := t.transports, rows := t.rows, nextRow := t.nextRow, uploads := s.uploads - {u},
           published := s.published + {s.uploads[u].handle}, accepted := t.accepted)
      && t.accepted == s.accepted[s.uploads[u].blob := Accepted(s, s.uploads[u].blob) + {s.uploads[u].bytes}]
  {
    var p, b := PublishPrimary(s, u), s.uploads[u].blob;
    assert RecordAfterCommit(s, p, s.uploads[u]);
    if kinds != [] {
      EnsureFrame(RequeueReplicas(p, b), b, kinds);
      hide EnsureReplicas;
    }
  }

  /**
   In every reachable state the upload transaction leaves one ACTIVE primary row with the new copy,
   exactly one replica row for each configured kind, the queued and served replicas queued anew, no
   other row of the blob touched or added, and no row of another blob.
   */
  lemma {:induction false} CommitQueuesEveryKind(run: seq<Step>, u: UploadId, kinds: seq<Provider>)
    requires Valid(Empty, run) && Enabled(Final(Empty, run), UploadCommit(u, kinds))
    ensures var s := Final(Empty, run);
      var up, t := s.uploads[u], Apply(s, UploadCommit(u, kinds));
      && RowsAfterCommit(s, t, up, kinds) && RecordAfterCommit(s, t, up) && OneRowForEachKind(t, up.blob)
      && t.uploads == s.uploads - {u} && t.copies == s.copies && t.workers == s.workers && t.inFlight == s.inFlight
  {
    assert Inv(Empty);
    RunKeeps(Empty, run);
    var s := Final(Empty, run);
    CommitRows(s, u, kinds);
    CommitRecord(s, u, kinds);
    CommitKeeps(s, u, kinds);
    UniqueSlots(CommitUpload(s, u, kinds), s.uploads[u].blob);
    assert Apply(s, UploadCommit(u, kinds)) == CommitUpload(s, u, kinds);
    hide Inv, CommitUpload, RowsAfterCommit, RecordAfterCommit, OneRowForEachKind, Apply;
  }

  /** A manifest commit queues each configured kind that has no row yet, and changes nothing else. */
  lemma {:induction false} ManifestQueuesEveryKind(run: seq<Step>, b: BlobId, kinds: seq<Provider>)
    requires Valid(Empty, run) && Enabled(Final(Empty, run), CommitManifest(b, kinds))
    ensures var s := Final(Empty, run);
      var t := Apply(s, CommitManifest(b, kinds));
      && OnlyMissingKindsAdded(s, t, b, kinds) && EveryKindQueued(t, b, kinds) && OneRowForEachKind(t, b)
      && t == s.(rows := t.rows, nextRow := t.nextRow)
  {
    assert Inv(Empty);
    RunKeeps(Empty, run);
    var s := Final(Empty, run);
    assert forall r <- s.rows :: s.rows[r].id == r < s.nextRow;
    EnsureQueuesEveryKind(s, b, kinds);
    EnsureFrame(s, b, kinds);
    StepKeeps(s, CommitManifest(b, kinds));
    UniqueSlots(Apply(s, CommitManifest(b, kinds)), b);
    hide Inv, EnsureReplicas, OnlyMissingKindsAdded, EveryKindQueued, OneRowForEachKind;
  }
}
