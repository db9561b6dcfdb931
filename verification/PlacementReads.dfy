/** What a client reads back from the copies that a run of the placement protocol leaves. */
module PlacementReads {
  import opened Basics
  import opened PlacementRows
  import opened ReadOrder
  import opened BlobReads
  import opened ServerCrypto
  import opened Placement
  import opened PlacementInvariant
  import opened PlacementSafety
  import opened PlacementDrops

  /** Rows of the blob as the state has them, listed in any order. */
  predicate Lists(s: State, rows: seq<Row>, b: BlobId) {
    forall r <- rows :: r.id in s.rows && s.rows[r.id] == r && r.blob == b
  }

  /** A get that answers at all answers with what was stored under the row's handle. */
  ghost predicate AnswersStored(s: State, rows: seq<Row>, get: Row -> Answer) {
    forall r <- rows :: get(r).Got? ==>
      r.handle.Some? && r.handle.value in s.puts && get(r).bytes == s.puts[r.handle.value].bytes
  }

  /** Providers answer exactly for the copies they hold, and say not-found for the rest. */
  ghost predicate AnswersHeld(s: State, rows: seq<Row>, get: Row -> Answer) {
    forall r <- rows :: (get(r).Got? <==> r.handle.Some? && r.handle.value in s.copies) && !get(r).Failed?
  }

  lemma ServedFromRow(rows: seq<Row>, get: Row -> Answer, tried: nat, result: Result<Bytes, Answer>) returns (r: Row)
    requires ServedAt(DocumentedOrder(rows), get, tried, result) && result.Ok?
    requires DocumentedOrder(rows) != []
    ensures r in rows && r.Readable() && get(r) == Got(result.value)
  {
    r := DocumentedOrder(rows)[tried];
    ReadOrderIsDocumented(rows);
    ReadOrderServesReadable(rows, r);
  }

  /**
   A read of a blob that has a readable row returns the bytes of a committed upload, whichever
   copy serves, and returns some as soon as one readable row's provider answers.
   */
  lemma ReadReturnsUpload(
    run: seq<Step>, b: BlobId, rows: seq<Row>, get: Row -> Answer, tried: nat, result: Result<Bytes, Answer>)
    requires Valid(Empty, run)
    requires var s := Final(Empty, run); Lists(s, rows, b) && AnswersStored(s, rows, get)
    requires ServedAt(DocumentedOrder(rows), get, tried, result) && exists r <- rows :: r.Readable()
    ensures result.Ok? ==> result.value in Accepted(Final(Empty, run), b)
    ensures result.Ok? <==> exists r <- rows :: r.Readable() && get(r).Got?
  {
    hide Valid, Final, ServedAt;
    FailsOnlyWhenEveryCopyFails(rows, get, tried, result);
    if result.Ok? {
      SomeCandidate(rows);
      var r := ServedFromRow(rows, get, tried, result);
      RowsHoldAcceptedUploads(run, r.id);
    }
  }

  lemma SomeCandidate(rows: seq<Row>)
    requires exists r <- rows :: r.Readable()
    ensures DocumentedOrder(rows) != []
  {
    var r :| r in rows && r.Readable();
    ReadOrderIsDocumented(rows);
    ReadOrderServesReadable(rows, r);
  }

  /** Uploaded once: every copy that serves returns the one ciphertext. */
  lemma EveryCopyReturnsTheUpload(
    run: seq<Step>, b: BlobId, rows: seq<Row>, get: Row -> Answer, tried: nat, result: Result<Bytes, Answer>, x: Bytes)
    requires Valid(Empty, run)
    requires var s := Final(Empty, run); Lists(s, rows, b) && AnswersStored(s, rows, get) && Accepted(s, b) == {x}
    requires ServedAt(DocumentedOrder(rows), get, tried, result) && exists r <- rows :: r.Readable()
    ensures result.Ok? ==> result.value == x
    ensures (exists r <- rows :: r.Readable() && get(r).Got?) ==> result == Ok(x)
  {
    ReadReturnsUpload(run, b, rows, get, tried, result);
  }

  /** Uploaded any number of times, each time with a fresh IV: every copy that serves decrypts to the one plaintext. */
  lemma EveryCopyDecryptsAlike(
    run: seq<Step>, b: BlobId, rows: seq<Row>, get: Row -> Answer, tried: nat, result: Result<Bytes, Answer>,
    a: Aead, p: Bytes)
    requires Valid(Empty, run)
    requires var s := Final(Empty, run); Lists(s, rows, b) && AnswersStored(s, rows, get)
    requires forall x <- Accepted(Final(Empty, run), b) :: DecryptServerSide(a, x) == Ok(p)
    requires ServedAt(DocumentedOrder(rows), get, tried, result) && exists r <- rows :: r.Readable()
    ensures result.Ok? ==> DecryptServerSide(a, result.value) == Ok(p)
    ensures result.Ok? <==> exists r <- rows :: r.Readable() && get(r).Got?
  {
    ReadReturnsUpload(run, b, rows, get, tried, result);
    hide Valid, Final, ServedAt;
  }

  /**
   Without loss or purge, and with providers that answer for what they hold, the read fails
   exactly if a worker has deleted the copy behind every readable row.
   */
  lemma ReadFailsIffAllDropped(
    run: seq<Step>, b: BlobId, rows: seq<Row>, get: Row -> Answer, tried: nat, result: Result<Bytes, Answer>)
    requires Valid(Empty, run) && NoLossNoPurge(run, b)
    requires var s := Final(Empty, run); Lists(s, rows, b) && AnswersHeld(s, rows, get)
    requires ServedAt(DocumentedOrder(rows), get, tried, result) && exists r <- rows :: r.Readable()
    ensures result.Err? <==> forall r <- rows :: r.Readable() ==> r.handle.Some? && Drops(Empty, run, r.handle.value)
  {
    hide Valid, Final, ServedAt, Drops;
    FailsOnlyWhenEveryCopyFails(rows, get, tried, result);
    forall r | r in rows && r.Readable()
      ensures r.handle.Some? && (get(r).Got? <==> !Drops(Empty, run, r.handle.value))
    {
      ActiveRowExists(run, r.id);
    }
  }

  /** One ACTIVE replica keeps the blob readable. */
  lemma ReplicaKeepsBlobReadable(
    run: seq<Step>, b: BlobId, rows: seq<Row>, get: Row -> Answer, tried: nat, result: Result<Bytes, Answer>, r: Row)
    requires Valid(Empty, run) && NoLossNoPurge(run, b)
    requires var s := Final(Empty, run); Lists(s, rows, b) && AnswersHeld(s, rows, get)
    requires ServedAt(DocumentedOrder(rows), get, tried, result)
    requires r in rows && r.role == Replica && r.status == Active
    ensures result.Ok?
  {
    hide Valid, Final, ServedAt;
    assert r.Readable();
    FailsOnlyWhenEveryCopyFails(rows, get, tried, result);
    ActiveReplicaExists(run, r.id);
  }

  // --------------------------------------------------- parking what was found gone

  /** The conditional MISSING updates a read issues, one for each copy it found gone. */
  function Parks(parked: seq<RowId>): seq<Step> {
    if parked == [] then [] else [Park(parked[0])] + Parks(parked[1..])
  }

  function ParkAll(s: State, ids: set<RowId>): State {
    s.(rows := map r | r in s.rows ::
      if r in ids then s.rows[r].(status := Missing, attempts := 0) else s.rows[r])
  }

  function IdSet(ids: seq<RowId>): set<RowId> { set p | p in ids }

  predicate Distinct(ids: seq<RowId>) { forall i, j :: 0 <= i < j < |ids| ==> ids[i] != ids[j] }

  predicate Parkable(s: State, ids: seq<RowId>) {
    && Distinct(ids)
    && forall p <- ids :: p in s.rows && s.rows[p].Readable()
  }

  lemma {:induction false} ParksMove(s: State, ids: seq<RowId>)
    requires Parkable(s, ids)
    ensures Valid(s, Parks(ids)) && Final(s, Parks(ids)) == ParkAll(s, IdSet(ids))
    decreases |ids|
  {
    if ids != [] {
      var t := Apply(s, Park(ids[0]));
      ParkOne(s, ids);
      assert Parks(ids)[1..] == Parks(ids[1..]);
      hide Apply, ParkAll, Parkable;
      ParksMove(t, ids[1..]);
    }
  }

  lemma ParkOne(s: State, ids: seq<RowId>)
    requires Parkable(s, ids) && ids != []
    ensures Enabled(s, Park(ids[0])) && Parkable(Apply(s, Park(ids[0])), ids[1..])
    ensures ParkAll(Apply(s, Park(ids[0])), IdSet(ids[1..])) == ParkAll(s, IdSet(ids))
  {
    hide Apply, Enabled, Parkable, ParkAll;
    var p := ids[0];
    HeadParkable(s, ids);
    ParkApplied(s, p);
    RestParkable(s, Apply(s, Park(p)), ids);
    HeadAndRest(ids);
    ParkTwice(s, Apply(s, Park(p)), p, IdSet(ids[1..]));
  }

  lemma HeadParkable(s: State, ids: seq<RowId>)
    requires Parkable(s, ids) && ids != []
    ensures ids[0] in s.rows && s.rows[ids[0]].Readable()
  {
    assert ids[0] in ids;
  }

  lemma ParkApplied(s: State, p: RowId)
    requires p in s.rows && s.rows[p].Readable()
    ensures Enabled(s, Park(p))
    ensures Apply(s, Park(p)) == s.(rows := s.rows[p := s.rows[p].(status := Missing, attempts := 0)])
  {
  }

  lemma RestParkable(s: State, t: State, ids: seq<RowId>)
    requires Parkable(s, ids) && ids != [] && ids[0] in s.rows
    requires t.rows == s.rows[ids[0] := s.rows[ids[0]].(status := Missing, attempts := 0)]
    ensures Parkable(t, ids[1..])
  {
    forall p | p in ids[1..] ensures p != ids[0] && p in ids {
      var k :| 0 <= k < |ids[1..]| && ids[1..][k] == p;
      assert ids[k + 1] == p;
    }
  }

  lemma HeadAndRest(ids: seq<RowId>)
    requires ids != []
    ensures IdSet(ids) == {ids[0]} + IdSet(ids[1..])
  {
    assert ids == [ids[0]] + ids[1..];
  }

  lemma ParkTwice(s: State, t: State, p: RowId, ids: set<RowId>)
    requires p in s.rows && t == s.(rows := s.rows[p := s.rows[p].(status := Missing, attempts := 0)])
    ensures ParkAll(t, ids) == ParkAll(s, {p} + ids)
  {
  }

  lemma {:induction false} ParkedIds(rows: seq<Row>, get: Row -> Answer)
    ensures forall p :: p in Parked(rows, get) <==> exists r <- rows :: r.id == p && get(r).NotFound?
  {
    if rows != [] {
      ParkedIds(rows[1..], get);
      assert rows == [rows[0]] + rows[1..];
    }
  }

  lemma {:induction false} ParkedOnce(rows: seq<Row>, get: Row -> Answer)
    requires forall i, j :: 0 <= i < j < |rows| ==> rows[i].id != rows[j].id
    ensures Distinct(Parked(rows, get))
  {
    if rows != [] {
      var rest := Parked(rows[1..], get);
      ParkedOnce(rows[1..], get);
      ParkedIds(rows[1..], get);
      assert rows[0].id !in rest;
      if get(rows[0]).NotFound? {
        OneMoreId(rows[0].id, rest);
      }
    }
  }

  lemma OneMoreId(id: RowId, rest: seq<RowId>)
    requires id !in rest && Distinct(rest)
    ensures Distinct([id] + rest)
  {
  }

  /** Parking what a read found gone is always possible and moves exactly those rows to MISSING. */
  lemma ParkingMovesGoneRows(s: State, rows: seq<Row>, get: Row -> Answer)
    requires forall i, j :: 0 <= i < j < |rows| ==> rows[i].id != rows[j].id
    requires forall r <- rows :: r.id in s.rows && s.rows[r.id] == r && r.Readable()
    ensures var run, gone := Parks(Parked(rows, get)), set r <- rows | get(r).NotFound? :: r.id;
      Valid(s, run) && Final(s, run) == ParkAll(s, gone)
  {
    var ids := Parked(rows, get);
    GoneIds(rows, get);
    assert Parkable(s, ids);
    hide Parked, Parkable, ParkAll, Parks;
    ParksMove(s, ids);
  }

  lemma GoneIds(rows: seq<Row>, get: Row -> Answer)
    requires forall i, j :: 0 <= i < j < |rows| ==> rows[i].id != rows[j].id
    ensures IdSet(Parked(rows, get)) == set r <- rows | get(r).NotFound? :: r.id
    ensures Distinct(Parked(rows, get))
    ensures forall p <- Parked(rows, get) :: exists r <- rows :: r.id == p
  {
    ParkedIds(rows, get);
    ParkedOnce(rows, get);
    hide Parked;
  }
}
