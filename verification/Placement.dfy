/**
 The placement and replication protocol as a step system: one step per database
 statement or transaction and per provider call. Every worker carries the row
 snapshot it was given, which may be stale by the time it acts. Provider calls
 may succeed, fail, or take effect and still report failure.
 */
module Placement {
  import opened Basics
  import opened PlacementRows
  import opened ReadOrder

  type WorkerId = nat
  type UploadId = nat
  type PurgeId = nat

  /** The stored hash, idealised: two byte strings have one digest only if they are equal. */
  datatype Digest = Sha256(preimage: Bytes)

  /** The blob's legacy record. Its Discord columns outlive a move to Telegram. */
  datatype Transport = Transport(hash: Digest, kind: Provider, columns: Option<Handle>) {
    /** The copy that a read or delete through the record's own kind reaches. */
    function Mirror(): Option<Handle> { if kind == Discord then columns else None }

    /** A healed primary rewrites kind and columns. */
    function Refreshed(provider: Provider, written: Handle): Transport {
      this.(kind := provider, columns := if provider == Discord then Some(written) else None)
    }
  }

  /** History of one provider put: what was stored, for whom, and by which call. */
  datatype Origin = ByUpload(upload: UploadId) | ByWorker(worker: WorkerId, row: RowId)
  datatype Put = Put(blob: BlobId, bytes: Bytes, role: Role, origin: Origin)

  /** A primary copy written by an upload request whose transaction has not run yet. */
  datatype Upload = Upload(blob: BlobId, provider: Provider, bytes: Bytes, handle: Handle)

  datatype Phase =
    | Waiting                                   // snapshot taken, processPlacement not entered
    | Listing                                   // entered, sibling rows not read yet
    | Reading(sources: seq<Option<Handle>>)     // copies still to try, in order
    | Dropping(bytes: Bytes)                    // about to delete the snapshot's old copy
    | Putting(bytes: Bytes)
    | Activating(bytes: Bytes, written: Handle) // about to run the conditional update
    | Cleaning(written: Handle)                 // update matched no row
    | Mirroring(written: Handle)                // primary row healed, legacy columns to refresh
    | Failing                                   // catch branch, attempt not recorded yet

  datatype Worker = Worker(snap: Row, hash: Digest, mirror: Option<Handle>, given: Option<Bytes>, phase: Phase)

  datatype Purge = Purge(blob: BlobId, targets: set<Handle>)

  datatype State = State(
    transports: map<BlobId, Transport>,
    rows: map<RowId, Row>,
    workers: map<WorkerId, Worker>,
    uploads: map<UploadId, Upload>,
    purges: map<PurgeId, Purge>,
    inFlight: set<RowId>,
    nextRow: RowId,
    nextHandle: Handle,
    copies: set<Handle>,                // copies the providers hold now
    // history
    puts: map<Handle, Put>,             // every copy ever stored
    published: set<Handle>,             // handles ever written to a row
    accepted: map<BlobId, set<Bytes>>,  // ciphertexts of committed uploads
    lost: set<Handle>,                  // copies a provider lost by itself
    doomed: set<Handle>,                // handles a purge has listed
    revived: set<Handle>)               // handles a health report moved out of MISSING

  datatype CallOutcome = Acked | LostAck | Refused

  datatype Step =
    | UploadPut(upload: UploadId, blob: BlobId, provider: Provider, bytes: Bytes, outcome: CallOutcome)
    | UploadCommit(upload: UploadId, replicaKinds: seq<Provider>)
    | UploadAbort(upload: UploadId)
    | CommitManifest(blob: BlobId, replicaKinds: seq<Provider>)
    | Snapshot(worker: WorkerId, row: RowId, given: Option<Bytes>)
    | Enter(worker: WorkerId)
    | ListSources(worker: WorkerId, siblings: seq<Row>)
    | ReadSource(worker: WorkerId, answer: Option<Bytes>)
    | DropOld(worker: WorkerId, deleted: bool)
    | PutCopy(worker: WorkerId, outcome: CallOutcome)
    | Activate(worker: WorkerId, outcome: CallOutcome)
    | Clean(worker: WorkerId, deleted: bool)
    | RefreshMirror(worker: WorkerId, stored: bool)
    | RecordFailure(worker: WorkerId, stored: bool)
    | Park(row: RowId)
    | Health(blob: BlobId, verdict: Status)
    | PurgeList(purge: PurgeId, blob: BlobId)
    | PurgeDelete(purge: PurgeId, target: Handle, deleted: bool)
    | PurgeCommit(purge: PurgeId)
    | PurgeAbort(purge: PurgeId)
    | ProviderLoss(copy: Handle)

  // ---------------------------------------------------------------- helpers

  function Accepted(s: State, blob: BlobId): set<Bytes> {
    if blob in s.accepted then s.accepted[blob] else {}
  }

  /** Stores a new copy under a fresh handle. */
  function StoreCopy(s: State, put: Put): State {
    s.(nextHandle := s.nextHandle + 1, puts := s.puts[s.nextHandle := put], copies := s.copies + {s.nextHandle})
  }

  function SetPhase(s: State, w: WorkerId, phase: Phase): State
    requires w in s.workers
  {
    s.(workers := s.workers[w := s.workers[w].(phase := phase)])
  }

  /** The finally branch: the worker ends and releases its row. */
  function Finish(s: State, w: WorkerId): State
    requires w in s.workers
  {
    s.(workers := s.workers - {w}, inFlight := s.inFlight - {s.workers[w].snap.id})
  }

  /** Bytes in hand: the hash check decides between going on and the catch branch. */
  function CheckHash(s: State, w: WorkerId, bytes: Bytes): State
    requires w in s.workers
  {
    SetPhase(s, w, if Sha256(bytes) == s.workers[w].hash then Dropping(bytes) else Failing)
  }

  predicate RowsOf(s: State, siblings: seq<Row>, snap: Row) {
    forall r <- siblings :: r.id in s.rows && s.rows[r.id] == r && r.blob == snap.blob && r.id != snap.id
  }

  /** All other rows of the blob, each once, in whatever order the database returns them. */
  ghost predicate SiblingList(s: State, siblings: seq<Row>, snap: Row) {
    && RowsOf(s, siblings, snap)
    && (forall i, j :: 0 <= i < j < |siblings| ==> siblings[i] != siblings[j])
    && (forall r :: r in s.rows && s.rows[r].blob == snap.blob && r != snap.id ==> s.rows[r] in siblings)
  }

  function Handles(rows: seq<Row>): seq<Option<Handle>> {
    seq(|rows|, i requires 0 <= i < |rows| => rows[i].handle)
  }

  // ------------------------------------------------- the upload transaction

  ghost function PrimaryRow(s: State, blob: BlobId, provider: Provider): Option<RowId> {
    if r :| r in s.rows && s.rows[r].blob == blob && s.rows[r].role == Primary && s.rows[r].provider == provider
    then Some(r) else None
  }

  /** The record an upload writes: a Telegram upsert leaves the Discord columns as they were. */
  function UploadTransport(s: State, up: Upload): Transport {
    var columns := if up.blob in s.transports then s.transports[up.blob].columns else None;
    Transport(Sha256(up.bytes), up.provider, if up.provider == Discord then Some(up.handle) else columns)
  }

  /** Transport upsert, removal of primaries at other providers, primary upsert as ACTIVE. */
  ghost function PublishPrimary(s: State, u: UploadId): State
    requires u in s.uploads
  {
    var up := s.uploads[u];
    var kept := map r | r in s.rows
      && !(s.rows[r].blob == up.blob && s.rows[r].role == Primary && s.rows[r].provider != up.provider)
      :: s.rows[r];
    var existing := PrimaryRow(s, up.blob, up.provider);
    var id := if existing.Some? then existing.value else s.nextRow;
    s.(
      transports := s.transports[up.blob := UploadTransport(s, up)],
      rows := kept[id := Row(id, up.blob, up.provider, Primary, Active, Some(up.handle), 0)],
      nextRow := if existing.Some? then s.nextRow else s.nextRow + 1,
      uploads := s.uploads - {u},
      published := s.published + {up.handle},
      accepted := s.accepted[up.blob := Accepted(s, up.blob) + {up.bytes}])
  }

  /** Replica rows with a copy go back to the queue; their old coordinates stay in the row. */
  function RequeueReplicas(s: State, blob: BlobId): State {
    s.(rows := map r | r in s.rows ::
      var row := s.rows[r];
      if row.blob == blob && row.role == Replica && (row.Readable() || row.status == Missing)
      then row.(status := Pending, attempts := 0) else row)
  }

  /** createMany with skipDuplicates on the unique key (blob, provider, role). */
  ghost function EnsureReplicas(s: State, blob: BlobId, kinds: seq<Provider>): State
    decreases |kinds|
  {
    if kinds == [] then s
    else if exists r ::
      r in s.rows && s.rows[r].blob == blob && s.rows[r].role == Replica && s.rows[r].provider == kinds[0]
    then EnsureReplicas(s, blob, kinds[1..])
    else EnsureReplicas(AddReplica(s, blob, kinds[0]), blob, kinds[1..])
  }

  function AddReplica(s: State, blob: BlobId, kind: Provider): State {
    s.(rows := s.rows[s.nextRow := Row(s.nextRow, blob, kind, Replica, Pending, None, 0)], nextRow := s.nextRow + 1)
  }

  ghost function CommitUpload(s: State, u: UploadId, kinds: seq<Provider>): State
    requires u in s.uploads
  {
    var blob := s.uploads[u].blob;
    var primary := PublishPrimary(s, u);
    if kinds == [] then primary else EnsureReplicas(RequeueReplicas(primary, blob), blob, kinds)
  }

  // ------------------------------------------------------------ worker steps

  function PutNewCopy(s: State, w: WorkerId, outcome: CallOutcome): State
    requires w in s.workers && s.workers[w].phase.Putting?
  {
    var wk := s.workers[w];
    var stored := StoreCopy(s, Put(wk.snap.blob, wk.phase.bytes, wk.snap.role, ByWorker(w, wk.snap.id)));
    match outcome
    case Acked => SetPhase(stored, w, Activating(wk.phase.bytes, s.nextHandle))
    case LostAck => SetPhase(stored, w, Failing)
    case Refused => SetPhase(s, w, Failing)
  }

  /** The conditional update matches the row only while it is still queued. */
  predicate UpdateMatches(s: State, w: WorkerId)
    requires w in s.workers
  {
    s.workers[w].snap.id in s.rows && s.rows[s.workers[w].snap.id].Queued()
  }

  function SetActive(s: State, r: RowId, written: Handle): State
    requires r in s.rows
  {
    s.(rows := s.rows[r := s.rows[r].(status := Active, handle := Some(written), attempts := 0)],
       published := s.published + {written})
  }

  function ActivateRow(s: State, w: WorkerId, outcome: CallOutcome): State
    requires w in s.workers && s.workers[w].phase.Activating?
  {
    var wk := s.workers[w];
    if outcome == Refused then SetPhase(s, w, Failing)
    else
      var updated := if UpdateMatches(s, w) then SetActive(s, wk.snap.id, wk.phase.written) else s;
      if outcome == LostAck then SetPhase(updated, w, Failing)
      else if !UpdateMatches(s, w) then SetPhase(s, w, Cleaning(wk.phase.written))
      else if wk.snap.role == Primary then SetPhase(updated, w, Mirroring(wk.phase.written))
      else Finish(updated, w)
  }

  function Delete(s: State, h: Handle, deleted: bool): State {
    if deleted then s.(copies := s.copies - {h}) else s
  }

  // ------------------------------------------------------------------- steps

  ghost predicate Enabled(s: State, step: Step) {
    match step
    case UploadPut(u, _, _, _, _) => u !in s.uploads
    case UploadCommit(u, _) => u in s.uploads
    case UploadAbort(u) => u in s.uploads
    case CommitManifest(b, _) =>
      b in s.transports && exists r :: r in s.rows && s.rows[r].blob == b && s.rows[r].role == Primary
    case Snapshot(w, r, given) =>
      && w !in s.workers && r in s.rows && s.rows[r].Queued()
      && s.rows[r].blob in s.transports
      && (given.Some? ==>
        s.rows[r].role == Replica && s.rows[r].status == Pending && given.value in Accepted(s, s.rows[r].blob))
    case Enter(w) => w in s.workers && s.workers[w].phase.Waiting?
    case ListSources(w, siblings) =>
      w in s.workers && s.workers[w].phase.Listing? && SiblingList(s, siblings, s.workers[w].snap)
    case ReadSource(w, _) => w in s.workers && s.workers[w].phase.Reading?
    case DropOld(w, _) => w in s.workers && s.workers[w].phase.Dropping?
    case PutCopy(w, _) => w in s.workers && s.workers[w].phase.Putting?
    case Activate(w, _) => w in s.workers && s.workers[w].phase.Activating?
    case Clean(w, _) => w in s.workers && s.workers[w].phase.Cleaning?
    case RefreshMirror(w, _) => w in s.workers && s.workers[w].phase.Mirroring?
    case RecordFailure(w, _) => w in s.workers && s.workers[w].phase.Failing?
    case Park(r) => r in s.rows && s.rows[r].Readable()
    case Health(b, verdict) => verdict == Active || verdict == Missing || verdict == Modified
    case PurgeList(p, b) => p !in s.purges && b in s.transports
    case PurgeDelete(p, h, _) => p in s.purges && h in s.purges[p].targets
    case PurgeCommit(p) => p in s.purges
    case PurgeAbort(p) => p in s.purges
    case ProviderLoss(h) => h in s.copies
  }

  function EnterGuard(s: State, w: WorkerId): State
    requires w in s.workers
  {
    var wk := s.workers[w];
    if wk.snap.id in s.inFlight then s.(workers := s.workers - {w})
    else
      var entered := s.(inFlight := s.inFlight + {wk.snap.id});
      if wk.given.Some? then CheckHash(entered, w, wk.given.value) else SetPhase(entered, w, Listing)
  }

  /** One get: the answer may be any bytes at all, or a failure that moves on to the next source. */
  function TryRead(s: State, w: WorkerId, answer: Option<Bytes>): State
    requires w in s.workers && s.workers[w].phase.Reading?
  {
    var sources := s.workers[w].phase.sources;
    if sources == [] then SetPhase(s, w, Failing)
    else if answer.Some? && sources[0].Some? then CheckHash(s, w, answer.value)
    else SetPhase(s, w, Reading(sources[1..]))
  }

  function ReportHealth(s: State, b: BlobId, verdict: Status): State {
    var hit := set r | r in s.rows && s.rows[r].blob == b && s.rows[r].role == Primary
      && (s.rows[r].Readable() || s.rows[r].status == Missing);
    var moved := set r | r in hit && s.rows[r].status == Missing && verdict != Missing && s.rows[r].handle.Some?
      :: s.rows[r].handle.value;
    s.(rows := map r | r in s.rows :: if r in hit then s.rows[r].(status := verdict) else s.rows[r],
       revived := s.revived + moved)
  }

  /** The handles purge will delete: every row with coordinates, or the legacy mirror if there is no row. */
  function PurgeTargets(s: State, b: BlobId): set<Handle>
    requires b in s.transports
  {
    var rows := set r | r in s.rows && s.rows[r].blob == b;
    if rows == {} then (if s.transports[b].Mirror().Some? then {s.transports[b].Mirror().value} else {})
    else set r | r in rows && s.rows[r].handle.Some? :: s.rows[r].handle.value
  }

  /** Deleting the transport cascades to its placements. */
  function PurgeRows(s: State, b: BlobId): State {
    s.(transports := s.transports - {b}, rows := map r | r in s.rows && s.rows[r].blob != b :: s.rows[r])
  }

  ghost function Apply(s: State, step: Step): State
    requires Enabled(s, step)
  {
    match step
    case UploadPut(u, b, provider, bytes, outcome) =>
      if outcome == Refused then s
      else
        var stored := StoreCopy(s, Put(b, bytes, Primary, ByUpload(u)));
        if outcome == LostAck then stored
        else stored.(uploads := s.uploads[u := Upload(b, provider, bytes, s.nextHandle)])
    case UploadCommit(u, kinds) => CommitUpload(s, u, kinds)
    case UploadAbort(u) => s.(uploads := s.uploads - {u})
    case CommitManifest(b, kinds) => EnsureReplicas(s, b, kinds)
    case Snapshot(w, r, given) =>
      var t := s.transports[s.rows[r].blob];
      s.(workers := s.workers[w := Worker(s.rows[r], t.hash, t.Mirror(), given, Waiting)])
    case Enter(w) => EnterGuard(s, w)
    case ListSources(w, siblings) =>
      SetPhase(s, w, Reading(Handles(OrderPlacementsForRead(siblings)) + [s.workers[w].mirror]))
    case ReadSource(w, answer) => TryRead(s, w, answer)
    case DropOld(w, deleted) =>
      var stale := s.workers[w].snap.handle;
      SetPhase(if stale.Some? then Delete(s, stale.value, deleted) else s, w, Putting(s.workers[w].phase.bytes))
    case PutCopy(w, outcome) => PutNewCopy(s, w, outcome)
    case Activate(w, outcome) => ActivateRow(s, w, outcome)
    case Clean(w, deleted) => Finish(Delete(s, s.workers[w].phase.written, deleted), w)
    case RefreshMirror(w, stored) =>
      var wk := s.workers[w];
      var b := wk.snap.blob;
      Finish(if stored && b in s.transports
             then s.(transports := s.transports[b := s.transports[b].Refreshed(wk.snap.provider, wk.phase.written)])
             else s, w)
    case RecordFailure(w, stored) =>
      var r := s.workers[w].snap.id;
      Finish(if stored && r in s.rows
             then s.(rows := s.rows[r := s.rows[r].(attempts := s.rows[r].attempts + 1)]) else s, w)
    case Park(r) => s.(rows := s.rows[r := s.rows[r].(status := Missing, attempts := 0)])
    case Health(b, verdict) => ReportHealth(s, b, verdict)
    case PurgeList(p, b) =>
      s.(purges := s.purges[p := Purge(b, PurgeTargets(s, b))], doomed := s.doomed + PurgeTargets(s, b))
    case PurgeDelete(p, h, deleted) => Delete(s, h, deleted)
    case PurgeCommit(p) => PurgeRows(s, s.purges[p].blob).(purges := s.purges - {p})
    case PurgeAbort(p) => s.(purges := s.purges - {p})
    case ProviderLoss(h) => s.(copies := s.copies - {h}, lost := s.lost + {h})
  }

  const Empty := State(map[], map[], map[], map[], map[], {}, 0, 0, {}, map[], {}, map[], {}, {}, {})

  /** A run: each step is enabled in the state the previous ones lead to. */
  ghost predicate Valid(s: State, run: seq<Step>)
    decreases |run|
  {
    run == [] || (Enabled(s, run[0]) && Valid(Apply(s, run[0]), run[1..]))
  }

  ghost function Final(s: State, run: seq<Step>): State
    requires Valid(s, run)
    decreases |run|
  {
    if run == [] then s else Final(Apply(s, run[0]), run[1..])
  }
}
