/** A whole file read back from the copies that a run of the placement protocol leaves. */
module PlacedFiles {
  import opened Basics
  import opened PlacementRows
  import opened BlobReads
  import ReadOrder
  import Placement
  import opened PlacementReads
  import opened ServerCrypto
  import opened Chunker
  import opened Slices
  import opened RangeReaders

  /** One readBlobBytes call for a chunk: its blob, the rows as listed, and what the call returned. */
  datatype ChunkRead = ChunkRead(blob: BlobId, rows: seq<Row>, tried: nat, result: Result<Bytes, Answer>)

  /** The call read rows of its blob that the state has, one of them readable, from honest providers. */
  ghost predicate Honest(s: Placement.State, call: ChunkRead, get: Row -> Answer) {
    && Lists(s, call.rows, call.blob) && AnswersStored(s, call.rows, get)
    && ServedAt(ReadOrder.DocumentedOrder(call.rows), get, call.tried, call.result)
    && exists r <- call.rows :: r.Readable()
  }

  /** Some readable copy of the chunk answers. */
  ghost predicate Answers(call: ChunkRead, get: Row -> Answer) {
    exists r <- call.rows :: r.Readable() && get(r).Got?
  }

  function Fetch(calls: seq<ChunkRead>): nat -> Result<Bytes, ReadError> {
    (i: nat) => if i < |calls| && calls[i].result.Ok? then Ok(calls[i].result.value) else Err(Unreadable)
  }

  /** Every ciphertext ever committed for chunk i decrypts to piece i, whatever its IV. */
  ghost predicate Uploaded(s: Placement.State, a: Aead, plain: seq<Bytes>, calls: seq<ChunkRead>) {
    && |calls| == |plain|
    && forall i :: 0 <= i < |plain| ==>
         forall x <- Placement.Accepted(s, calls[i].blob) :: DecryptServerSide(a, x) == Ok(plain[i])
  }

  lemma PlacedFileIsReadable(
    run: seq<Placement.Step>, a: Aead, plain: seq<Bytes>, calls: seq<ChunkRead>, get: Row -> Answer)
    requires Placement.Valid(Placement.Empty, run)
    requires Uploaded(Placement.Final(Placement.Empty, run), a, plain, calls)
    requires forall i :: 0 <= i < |calls| ==> Honest(Placement.Final(Placement.Empty, run), calls[i], get)
    ensures Faithful(Decrypting(a, Fetch(calls)), plain)
    ensures forall i :: 0 <= i < |plain| ==> (Decrypting(a, Fetch(calls))(i).Ok? <==> Answers(calls[i], get))
  {
    hide Placement.Valid, Placement.Final, ServedAt;
    forall i | 0 <= i < |plain|
      ensures calls[i].result.Ok? ==> DecryptServerSide(a, calls[i].result.value) == Ok(plain[i])
      ensures calls[i].result.Ok? <==> Answers(calls[i], get)
    {
      var call := calls[i];
      EveryCopyDecryptsAlike(run, call.blob, call.rows, get, call.tried, call.result, a, plain[i]);
    }
    hide Uploaded, Honest, Answers, DecryptServerSide;
  }

  /** Every chunk of the window has a readable copy that answers. */
  ghost predicate AllAnswer(plain: seq<Bytes>, calls: seq<ChunkRead>, get: Row -> Answer, start: nat, end: nat)
    requires |calls| == |plain|
  {
    forall k: nat :: InSpan(plain, k, start, end) ==> Answers(calls[k], get)
  }

  lemma AllReadIffAllAnswer(
    plain: seq<Bytes>, source: Source, calls: seq<ChunkRead>, get: Row -> Answer, start: nat, end: nat)
    requires |calls| == |plain|
    requires forall i :: 0 <= i < |plain| ==> (source(i).Ok? <==> Answers(calls[i], get))
    ensures AllRead(plain, source, start, end) <==> AllAnswer(plain, calls, get, start, end)
  {
    hide Answers, Offset;
  }

  /**
   After any run, if each chunk's committed ciphertexts all hold that chunk, the three readers serve
   the window exactly if every chunk in it has a readable copy that answers, and all three serve
   the same bytes of the file.
   */
  method ReadPlacedFile(
    ghost run: seq<Placement.Step>, ghost file: Bytes, size: nat, a: Aead, calls: seq<ChunkRead>,
    ghost get: Row -> Answer, sizes: seq<nat>, late: Timing, start: nat, end: nat)
    returns (pulled: seq<Bytes>, outcome: Delivery, spliced: Result<array<Byte>, ReadError>,
             assembled: Result<Bytes, ReadError>)
    requires Placement.Valid(Placement.Empty, run) && size > 0 && start <= end < |file|
    requires Uploaded(Placement.Final(Placement.Empty, run), a, Chunks(file, size), calls)
    requires forall i :: 0 <= i < |calls| ==> Honest(Placement.Final(Placement.Empty, run), calls[i], get)
    requires |sizes| == |calls| && forall i :: 0 <= i < |sizes| ==> sizes[i] == |Chunks(file, size)[i]|
    ensures var served := AllAnswer(Chunks(file, size), calls, get, start, end);
      && (outcome.Closed? <==> served) && (spliced.Ok? <==> served) && (assembled.Ok? <==> served)
      && (served ==> Flatten(pulled) == spliced.value[..] == assembled.value == file[start..end + 1])
  {
    ghost var plain := Chunks(file, size);
    PlacedFileIsReadable(run, a, plain, calls, get);
    var source := Decrypting(a, Fetch(calls));
    AllReadIffAllAnswer(plain, source, calls, get, start, end);
    FlattenChunks(file, size);
    NoChunkIsEmpty(file, size);
    NeverStallsIff(plain, start, end);
    hide Offset, Describes, Faithful, Chunks, Flatten, Uploaded, Honest, AllAnswer, AllRead, Decrypting;
    hide Placement.Valid, Placement.Final;
    var rows := map i | 0 <= i < |sizes| :: sizes[i];
    var chunks := GetShareChunks(rows, |sizes|, plain);
    pulled, outcome := ReadShareRange(chunks.value, start, end, source, late, plain);
    spliced := SpliceRange(sizes, start, end, source, plain);
    assembled := GetByteRange(size, start, end, source, file);
  }
}
