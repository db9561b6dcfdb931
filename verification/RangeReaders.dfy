/**
 The three range readers of a chunked file: the share page's pull stream, the
 stream handler's buffered splice, and the download engine's floor-division
 assembly. Each is a loop over chunks; each returns the same window of the file.
 */
module RangeReaders {
  import opened Basics
  import opened Chunker
  import opened ServerCrypto
  import opened SharePull
  import opened Slices

  /** The rows describe the chunks `plain`. */
  predicate Describes(chunks: seq<ChunkInfo>, plain: seq<Bytes>) {
    && |chunks| == |plain|
    && forall i :: 0 <= i < |chunks| ==> chunks[i] == ChunkInfo(|plain[i]|, Offset(plain, i))
  }

  /** Every read that succeeds returns the chunk's plaintext. */
  predicate Faithful(source: Source, plain: seq<Bytes>) {
    forall i :: 0 <= i < |plain| && source(i).Ok? ==> source(i).value == plain[i]
  }

  /** Chunk k reaches into the window, or is empty and lies inside it. */
  predicate InSpan(plain: seq<Bytes>, k: nat, start: nat, end: nat) {
    k < |plain| && start < Offset(plain, k + 1) && Offset(plain, k) <= end
  }

  /** Every read the window needs succeeds. */
  ghost predicate AllRead(plain: seq<Bytes>, source: Source, start: nat, end: nat) {
    forall k: nat :: InSpan(plain, k, start, end) ==> source(k).Ok?
  }

  /** The span runs from the chunk holding the first byte to the one holding the last. */
  lemma SpanIs(plain: seq<Bytes>, lo: nat, hi: nat, start: nat, end: nat, k: nat)
    requires lo < |plain| && hi < |plain| && start <= end
    requires Offset(plain, lo) <= start < Offset(plain, lo + 1) && Offset(plain, hi) <= end < Offset(plain, hi + 1)
    ensures InSpan(plain, k, start, end) <==> lo <= k <= hi
  {
    if k < lo {
      OffsetMonotone(plain, k + 1, lo);
    } else if k < |plain| {
      OffsetMonotone(plain, lo + 1, k + 1);
      if k <= hi {
        OffsetMonotone(plain, k, hi);
      } else {
        OffsetMonotone(plain, hi + 1, k);
      }
    }
  }

  // ------------------------------------------------------------- chunk index

  /**
   getShareChunks: every index below the file's chunk count must have a row. When the
   rows' sizes are those of the chunks `plain`, the result describes them.
   */
  method GetShareChunks(sizes: map<nat, nat>, chunkCount: nat, ghost plain: seq<Bytes>)
    returns (r: Result<seq<ChunkInfo>, nat>)
    ensures r.Ok? <==> forall i :: 0 <= i < chunkCount ==> i in sizes
    ensures r.Err? ==> r.error < chunkCount && r.error !in sizes && forall i :: 0 <= i < r.error ==> i in sizes
    ensures r.Ok? && |plain| == chunkCount && (forall i :: 0 <= i < chunkCount ==> sizes[i] == |plain[i]|)
      ==> Describes(r.value, plain)
  {
    var chunks: seq<ChunkInfo> := [];
    var running: nat := 0;
    var i := 0;
    while i < chunkCount
      invariant i <= chunkCount && |chunks| == i && forall j :: 0 <= j < i ==> j in sizes
      invariant |plain| == chunkCount && (forall j :: 0 <= j < i ==> sizes[j] == |plain[j]|)
        ==> running == Offset(plain, i)
            && forall j :: 0 <= j < i ==> chunks[j] == ChunkInfo(|plain[j]|, Offset(plain, j))
    {
      if i !in sizes {
        return Err(i);
      }
      if |plain| == chunkCount {
        OffsetStep(plain, i);
      }
      chunks := chunks + [ChunkInfo(sizes[i], running)];
      running := running + sizes[i];
      i := i + 1;
    }
    r := Ok(chunks);
  }

  /** The chunks before the first one found lie before the window, so nothing is missed. */
  lemma {:induction false} NothingBefore(chunks: seq<ChunkInfo>, plain: seq<Bytes>, i: nat, start: nat, end: nat)
    requires Describes(chunks, plain) && start <= end < |Flatten(plain)|
    requires i <= |chunks| && forall j :: 0 <= j < i ==> chunks[j].offset + chunks[j].size <= start
    ensures i < |chunks| && Offset(plain, i) <= start && Covered(plain, i, start, end) == []
    ensures forall k: nat :: k < i ==> !InSpan(plain, k, start, end)
  {
    OffsetBounds(plain);
    if i > 0 {
      OffsetStep(plain, i - 1);
    }
    forall k: nat | k < i ensures !InSpan(plain, k, start, end) {
      OffsetStep(plain, k);
    }
  }

  /** Once chunk i starts after the window, the window is covered. */
  lemma {:induction false} EverythingCovered(plain: seq<Bytes>, i: nat, start: nat, end: nat)
    requires i <= |plain| && start <= end < |Flatten(plain)|
    requires i == |plain| || end < Offset(plain, i)
    ensures Covered(plain, i, start, end) == Flatten(plain)[start..end + 1]
  {
    OffsetBounds(plain);
  }

  // ------------------------------------------------- reader 1: the pull stream

  /** Every pull inside the window enqueues a non-empty piece exactly when its chunk is non-empty. */
  lemma PullMakesProgressIff(chunks: seq<ChunkInfo>, plain: seq<Bytes>, start: nat, end: nat, i: nat, source: Source)
    requires Describes(chunks, plain) && Faithful(source, plain) && start <= end
    requires i < |chunks| && chunks[i].offset <= end && source(i).Ok?
    requires start < chunks[i].offset + Max(1, chunks[i].size)
    ensures Pulled(chunks, start, end, i, source).Enqueue? <==> chunks[i].size > 0
  {
    CutNonEmptyIff(plain, i, start, end);
  }

  // By the Streams Standard a pull ends in one of three ways. After an enqueued piece the stream
  // pulls again. After a pull that enqueued nothing it pulls again only for a read that came in
  // since that pull began; a consumer has at most one read pending, and the same read does not
  // make it pull twice. So the response hangs, with a read pending, once an empty chunk is
  // pulled for a read that was pending before.

  datatype Delivery = Closed | Aborted | Stalled

  /** When the consumer's next read comes: only after the pull of chunk k began, or before. */
  type Timing = nat -> bool

  predicate EmptyInSpan(plain: seq<Bytes>, k: nat, start: nat, end: nat) {
    InSpan(plain, k, start, end) && plain[k] == []
  }

  /** An empty chunk is pulled for a read that was pending already: at once, or since the empty chunk before it. */
  predicate StallsAt(plain: seq<Bytes>, start: nat, end: nat, late: Timing, k: nat) {
    && EmptyInSpan(plain, k, start, end)
    && (!late(k) || (k > 0 && EmptyInSpan(plain, k - 1, start, end)))
  }

  ghost predicate NoStall(plain: seq<Bytes>, start: nat, end: nat, late: Timing) {
    forall k: nat :: !StallsAt(plain, start, end, late, k)
  }

  /**
   A response read to its end. It closes exactly if no needed read fails and no empty chunk
   stalls it, and then the enqueued pieces are exactly the window, as long as the declared
   Content-Length; otherwise only a proper prefix is delivered, so a short body never looks complete.
   */
  method ReadShareRange(
    chunks: seq<ChunkInfo>, start: nat, end: nat, source: Source, late: Timing, ghost plain: seq<Bytes>)
    returns (body: seq<Bytes>, outcome: Delivery)
    requires Describes(chunks, plain) && Faithful(source, plain) && start <= end < |Flatten(plain)|
    ensures outcome.Closed? <==> AllRead(plain, source, start, end) && NoStall(plain, start, end, late)
    ensures outcome.Aborted? ==> !AllRead(plain, source, start, end)
    ensures outcome.Stalled? ==> !NoStall(plain, start, end, late)
    ensures outcome.Closed? ==> Flatten(body) == Flatten(plain)[start..end + 1] && |Flatten(body)| == end - start + 1
    ensures !outcome.Closed? ==> Flatten(body) < Flatten(plain)[start..end + 1]
    ensures forall k :: 0 <= k < |body| ==> body[k] != []
  {
    hide Flatten, Offset, Covered, Cut, InSpan;
    var stream := new ShareStream(chunks, start, end);
    body := [];
    assert Flatten(body) == [] by { EmptyFlatten(); }
    ghost var first := stream.i;
    NothingBefore(chunks, plain, first, start, end);
    var waiting := false;
    while true
      invariant first <= stream.i <= |chunks| && stream.chunks == chunks && stream.start == start && stream.end == end
      invariant Flatten(body) == Covered(plain, stream.i, start, end)
      invariant forall k: nat :: k < stream.i && InSpan(plain, k, start, end) ==>
        source(k).Ok? && !StallsAt(plain, start, end, late, k)
      invariant waiting <==> stream.i > 0 && EmptyInSpan(plain, stream.i - 1, start, end)
      invariant forall k :: 0 <= k < |body| ==> body[k] != []
      decreases |chunks| - stream.i
    {
      ghost var at := stream.i;
      var pending := waiting || !late(stream.i);
      var event := stream.Pull(source);
      if event.Close? {
        EverythingCovered(plain, at, start, end);
        NothingAfter(chunks, plain, at, start, end);
        return body, Closed;
      }
      PulledInSpan(chunks, plain, first, at, start, end, source);
      if event.Abort? {
        CoveredIsProperPrefix(plain, at, start, end);
        return body, Aborted;
      }
      if event.Idle? && pending {
        assert StallsAt(plain, start, end, late, at);
        CoveredIsProperPrefix(plain, at, start, end);
        return body, Stalled;
      }
      CutExtends(plain, at, start, end);
      waiting := event.Idle?;
      if event.Enqueue? {
        FlattenSnoc(body, event.piece);
        body := body + [event.piece];
      }
    }
  }

  lemma NothingAfter(chunks: seq<ChunkInfo>, plain: seq<Bytes>, i: nat, start: nat, end: nat)
    requires Describes(chunks, plain) && i <= |chunks| && (i < |chunks| ==> chunks[i].offset > end)
    ensures forall k: nat :: k >= i ==> !InSpan(plain, k, start, end)
  {
    forall k: nat | k >= i ensures !InSpan(plain, k, start, end) {
      if k < |plain| {
        OffsetMonotone(plain, i, k);
      }
    }
  }

  /** A pull that does not close reads a chunk of the span, and is idle exactly on an empty one. */
  lemma PulledInSpan(
    chunks: seq<ChunkInfo>, plain: seq<Bytes>, first: nat, i: nat, start: nat, end: nat, source: Source)
    requires Describes(chunks, plain) && Faithful(source, plain) && start <= end
    requires first <= i < |chunks| && start < chunks[first].offset + chunks[first].size && chunks[i].offset <= end
    ensures InSpan(plain, i, start, end) && Offset(plain, i) <= end
    ensures source(i).Ok? ==> (Pulled(chunks, start, end, i, source).Idle? <==> EmptyInSpan(plain, i, start, end))
  {
    OffsetStep(plain, first);
    OffsetMonotone(plain, first + 1, i + 1);
    OffsetStep(plain, i);
    if source(i).Ok? {
      PullMakesProgressIff(chunks, plain, start, end, i, source);
    }
  }

  /** No timing stalls exactly the windows without an empty chunk. */
  lemma NeverStallsIff(plain: seq<Bytes>, start: nat, end: nat)
    ensures (forall late: Timing :: NoStall(plain, start, end, late))
       <==> forall k: nat :: !EmptyInSpan(plain, k, start, end)
  {
    hide InSpan;
    if k: nat :| EmptyInSpan(plain, k, start, end) {
      var eager: Timing := _ => false;
      assert StallsAt(plain, start, end, eager, k);
      assert !NoStall(plain, start, end, eager);
    }
  }

  /** Some timing gets through exactly the windows without two empty chunks in a row. */
  lemma MayFinishIff(plain: seq<Bytes>, start: nat, end: nat)
    ensures (exists late: Timing :: NoStall(plain, start, end, late))
       <==> forall k: nat :: !(EmptyInSpan(plain, k, start, end) && EmptyInSpan(plain, k + 1, start, end))
  {
    hide InSpan;
    if k: nat :| EmptyInSpan(plain, k, start, end) && EmptyInSpan(plain, k + 1, start, end) {
      forall late: Timing ensures !NoStall(plain, start, end, late) {
        assert StallsAt(plain, start, end, late, k + 1);
      }
    } else {
      var slow: Timing := _ => true;
      forall k: nat ensures !StallsAt(plain, start, end, slow, k) {
        if k > 0 {
          assert !(EmptyInSpan(plain, k - 1, start, end) && EmptyInSpan(plain, k - 1 + 1, start, end));
        }
      }
      assert NoStall(plain, start, end, slow);
    }
  }

  /** Chunks of sizes 1, 0, 0 and 1, read as a whole: the response hangs whatever the timing. */
  lemma TwoEmptyChunksStall(x: Byte, y: Byte, late: Timing)
    ensures Flatten([[x], [], [], [y]]) == [x, y]
    ensures !NoStall([[x], [], [], [y]], 0, 1, late)
  {
    var plain := [[x], [], [], [y]];
    FlattenFour([x], [], [], [y]);
    OffsetsOf(plain);
    assert EmptyInSpan(plain, 1, 0, 1) && EmptyInSpan(plain, 2, 0, 1);
    assert StallsAt(plain, 0, 1, late, 2);
  }

  lemma FlattenFour(a: Bytes, b: Bytes, c: Bytes, d: Bytes)
    ensures Flatten([a, b, c, d]) == a + (b + (c + d))
  {
    var s := [a, b, c, d];
    assert s[1..] == [b, c, d] && [b, c, d][1..] == [c, d] && [c, d][1..] == [d] && [d][1..] == [];
    assert Flatten([d]) == d + Flatten([]) == d;
    assert Flatten([c, d]) == c + d;
    assert Flatten([b, c, d]) == b + (c + d);
  }

  lemma OffsetsOf(plain: seq<Bytes>)
    requires |plain| == 4
    ensures Offset(plain, 1) == |plain[0]| && Offset(plain, 2) == |plain[0]| + |plain[1]|
    ensures Offset(plain, 3) == |plain[0]| + |plain[1]| + |plain[2]|
  {
    OffsetBounds(plain);
    OffsetStep(plain, 0);
    OffsetStep(plain, 1);
    OffsetStep(plain, 2);
  }

  /** The window of an empty file runs from 0 to -1: the first pull closes the stream. */
  method ReadEmptyShare(chunks: seq<ChunkInfo>, source: Source, ghost plain: seq<Bytes>) returns (event: PullEvent)
    requires Describes(chunks, plain) && Flatten(plain) == []
    ensures event == Close
  {
    var stream := new ShareStream(chunks, 0, -1);
    if stream.i < |chunks| {
      OffsetStep(plain, stream.i);
      assert false;
    }
    event := stream.Pull(source);
  }

  lemma EmptyFlatten()
    ensures Flatten<Byte>([]) == []
  {
  }

  lemma {:induction false} CoveredIsProperPrefix(plain: seq<Bytes>, i: nat, start: nat, end: nat)
    requires i <= |plain| && start <= end < |Flatten(plain)| && Offset(plain, i) <= end
    ensures Covered(plain, i, start, end) < Flatten(plain)[start..end + 1]
  {
  }

  // --------------------------------------------- reader 2: the buffered splice

  /** Cumulative plaintext offset at which each chunk starts. */
  method PrefixOffsets(sizes: seq<nat>, ghost plain: seq<Bytes>) returns (offsets: seq<nat>)
    requires |plain| == |sizes| && forall i :: 0 <= i < |sizes| ==> sizes[i] == |plain[i]|
    ensures |offsets| == |sizes| && forall i :: 0 <= i < |sizes| ==> offsets[i] == Offset(plain, i)
  {
    offsets := [];
    var running: nat := 0;
    OffsetBounds(plain);
    var i := 0;
    while i < |sizes|
      invariant i <= |sizes| && |offsets| == i && running == Offset(plain, i)
      invariant forall j :: 0 <= j < i ==> offsets[j] == Offset(plain, j)
    {
      OffsetStep(plain, i);
      offsets := offsets + [running];
      running := running + sizes[i];
      i := i + 1;
    }
  }

  /** The chunk range [firstIdx, lastIdx] covering the window. */
  method FindSpan(sizes: seq<nat>, offsets: seq<nat>, start: nat, end: nat, ghost plain: seq<Bytes>)
    returns (firstIdx: nat, lastIdx: nat)
    requires |offsets| == |plain| == |sizes| && start <= end < |Flatten(plain)|
    requires forall i :: 0 <= i < |sizes| ==> sizes[i] == |plain[i]| && offsets[i] == Offset(plain, i)
    ensures firstIdx <= lastIdx < |sizes|
    ensures Offset(plain, firstIdx) <= start < Offset(plain, firstIdx + 1)
    ensures Offset(plain, lastIdx) <= end < Offset(plain, lastIdx + 1)
  {
    OffsetBounds(plain);
    firstIdx := 0;
    while firstIdx < |sizes| && !(start < offsets[firstIdx] + sizes[firstIdx])
      invariant firstIdx <= |sizes| && Offset(plain, firstIdx) <= start
    {
      OffsetStep(plain, firstIdx);
      firstIdx := firstIdx + 1;
    }
    OffsetStep(plain, firstIdx);
    lastIdx := firstIdx;
    var i := firstIdx;
    while i < |sizes|
      invariant firstIdx <= lastIdx <= i <= |sizes| && (i > firstIdx ==> Offset(plain, i) <= end && lastIdx == i - 1)
    {
      lastIdx := i;
      OffsetStep(plain, i);
      if offsets[i] + sizes[i] > end {
        break;
      }
      i := i + 1;
    }
  }

  /** Concatenates pieces into one buffer. */
  method Join(pieces: seq<Bytes>) returns (body: array<Byte>)
    ensures fresh(body) && body[..] == Flatten(pieces)
  {
    var totalBytes: nat := 0;
    var i := 0;
    while i < |pieces|
      invariant i <= |pieces| && totalBytes == |Flatten(pieces[..i])|
    {
      assert pieces[..i + 1] == pieces[..i] + [pieces[i]];
      FlattenSnoc(pieces[..i], pieces[i]);
      totalBytes := totalBytes + |pieces[i]|;
      i := i + 1;
    }
    assert pieces[..i] == pieces;
    body := new Byte[totalBytes];
    var offset: nat := 0;
    i := 0;
    while i < |pieces|
      invariant i <= |pieces| && offset == Offset(pieces, i) <= body.Length
      invariant body[..offset] == Flatten(pieces[..i])
    {
      OffsetStep(pieces, i);
      assert pieces[..i + 1] == pieces[..i] + [pieces[i]];
      FlattenSnoc(pieces[..i], pieces[i]);
      Place(body, offset, pieces[i]);
      offset := offset + |pieces[i]|;
      i := i + 1;
    }
    assert pieces[..i] == pieces;
  }

  /** body.set(piece, at), where everything before `at` is final. */
  method Place(body: array<Byte>, at: nat, piece: Bytes)
    requires at + |piece| <= body.Length
    modifies body
    ensures body[..at + |piece|] == old(body[..at]) + piece
  {
    forall k | 0 <= k < |piece| {
      body[at + k] := piece[k];
    }
  }

  /** handleStreamRequest: reads every chunk of the span, then answers with one buffer. */
  method SpliceRange(sizes: seq<nat>, start: nat, end: nat, source: Source, ghost plain: seq<Bytes>)
    returns (r: Result<array<Byte>, ReadError>)
    requires |plain| == |sizes| && forall i :: 0 <= i < |sizes| ==> sizes[i] == |plain[i]|
    requires Faithful(source, plain) && start <= end < |Flatten(plain)|
    ensures r.Ok? ==> fresh(r.value) && r.value[..] == Flatten(plain)[start..end + 1]
    ensures r.Ok? <==> AllRead(plain, source, start, end)
  {
    hide Flatten, Offset, Covered, InSpan;
    EmptyFlatten();
    var offsets := PrefixOffsets(sizes, plain);
    var firstIdx, lastIdx := FindSpan(sizes, offsets, start, end, plain);
    NothingCovered(plain, firstIdx, start, end);
    forall k: nat ensures InSpan(plain, k, start, end) <==> firstIdx <= k <= lastIdx {
      SpanIs(plain, firstIdx, lastIdx, start, end, k);
    }
    var pieces: seq<Bytes> := [];
    var i := firstIdx;
    while i <= lastIdx
      invariant firstIdx <= i <= lastIdx + 1
      invariant Flatten(pieces) == Covered(plain, i, start, end)
      invariant forall k :: firstIdx <= k < i ==> source(k).Ok?
    {
      var read := source(i);
      if read.Err? {
        return Err(read.error);
      }
      var plaintext := read.value;
      var chunkStart := offsets[i];
      var sliceStart := Max(0, start - chunkStart);
      var sliceEnd := Min(sizes[i] as int - 1, end - chunkStart);
      CutExtends(plain, i, start, end);
      if sliceStart <= sliceEnd {
        FlattenSnoc(pieces, plaintext[sliceStart..sliceEnd + 1]);
        pieces := pieces + [plaintext[sliceStart..sliceEnd + 1]];
      }
      i := i + 1;
    }
    EverythingCovered(plain, i, start, end);
    var body := Join(pieces);
    r := Ok(body);
  }

  // -------------------------------------- reader 3: floor division over uniform chunks

  /** Uniform chunks start at multiples of the chunk size. */
  lemma {:induction false} UniformOffset(file: Bytes, size: nat, i: nat)
    requires size > 0 && i < |Chunks(file, size)|
    ensures Offset(Chunks(file, size), i) == i * size
  {
    var plain := Chunks(file, size);
    OffsetBounds(plain);
    if i > 0 {
      UniformOffset(file, size, i - 1);
      OffsetStep(plain, i - 1);
      ChunksAreRegular(file, size);
      assert i * size == (i - 1) * size + size;
    }
  }

  lemma DivMonotone(a: nat, b: nat, d: nat)
    requires d > 0 && a <= b
    ensures a / d <= b / d
  {
    var x, y := a / d, b / d;
    assert a == x * d + a % d && b == y * d + b % d && (y + 1) * d == y * d + d;
    MulMonotone(y + 1, x, d);
  }

  lemma FloorBounds(n: nat, size: nat, position: nat)
    requires size > 0 && position < n
    ensures var k := position / size;
      k < CalculateChunkCount(n, size) && k * size <= position < Min((k + 1) * size, n)
  {
    var k, c := position / size, (n + size - 1) / size;
    assert position == k * size + position % size;
    assert n + size - 1 == c * size + (n + size - 1) % size;
    assert (k + 1) * size == k * size + size;
    MulMonotone(c, k, size);
  }

  /** The chunk that floor division picks exists and contains the position. */
  lemma {:induction false} FloorPicksChunk(file: Bytes, size: nat, position: nat)
    requires size > 0 && position < |file|
    ensures var plain, k := Chunks(file, size), position / size;
      k < |plain| && k * size == Offset(plain, k) <= position < Offset(plain, k) + |plain[k]|
  {
    var k := position / size;
    ChunkCountMatches(file, size);
    FloorBounds(|file|, size, position);
    UniformOffset(file, size, k);
    ChunkAt(file, size, k);
  }

  /** The one-chunk window: a slice of that chunk. */
  lemma {:induction false} SingleChunk(plain: seq<Bytes>, k: nat, start: nat, end: nat)
    requires k < |plain| && start <= end < |Flatten(plain)|
    requires Offset(plain, k) <= start && end < Offset(plain, k) + |plain[k]|
    ensures var offsetInChunk := start - Offset(plain, k);
      plain[k][offsetInChunk..offsetInChunk + (end - start + 1)] == Flatten(plain)[start..end + 1]
  {
    OffsetStep(plain, k);
    SliceOfSlice(Flatten(plain), Offset(plain, k), Offset(plain, k + 1), start - Offset(plain, k),
      end + 1 - Offset(plain, k));
  }

  /** getByteRange: one chunk by slicing, several by filling a result buffer. */
  method GetByteRange(chunkSize: nat, start: nat, end: nat, getChunk: Source, ghost file: Bytes)
    returns (r: Result<Bytes, ReadError>)
    requires chunkSize > 0 && start <= end < |file| && Faithful(getChunk, Chunks(file, chunkSize))
    ensures r.Ok? ==> r.value == file[start..end + 1]
    ensures r.Ok? <==> AllRead(Chunks(file, chunkSize), getChunk, start, end)
  {
    hide Chunks, Flatten, Offset, InSpan;
    QuotientSpan(file, chunkSize, start, end);
    DivMonotone(start, end, chunkSize);
    var startChunk, endChunk := start / chunkSize, end / chunkSize;
    var totalBytes := end - start + 1;
    if startChunk == endChunk {
      OneChunkWindow(file, chunkSize, start, end);
      var decrypted := getChunk(startChunk);
      if decrypted.Err? {
        return decrypted;
      }
      var offsetInChunk := start - startChunk * chunkSize;
      return Ok(decrypted.value[offsetInChunk..offsetInChunk + totalBytes]);
    }
    r := AssembleChunks(chunkSize, start, end, startChunk, endChunk, getChunk, file);
  }

  /** The window lies in the one chunk that both quotients pick. */
  lemma {:induction false} OneChunkWindow(file: Bytes, size: nat, start: nat, end: nat)
    requires size > 0 && start <= end < |file| && start / size == end / size
    ensures var plain, k := Chunks(file, size), start / size;
      && k < |plain| && 0 <= start - k * size && end + 1 - k * size <= |plain[k]|
      && plain[k][start - k * size..start - k * size + (end - start + 1)] == file[start..end + 1]
  {
    hide Chunks, Flatten, Offset;
    FlattenChunks(file, size);
    FloorPicksChunk(file, size, start);
    FloorPicksChunk(file, size, end);
    SingleChunk(Chunks(file, size), start / size, start, end);
  }

  /** One turn of the loop: the overlap of chunk ci with the window goes behind what is already written. */
  method CopyShare(
    result: array<Byte>, written: nat, chunk: Bytes, ci: nat, size: nat, start: nat, end: nat, ghost file: Bytes)
    returns (now: nat)
    requires size > 0 && start <= end < |file| && start / size <= ci <= end / size && result.Length == end - start + 1
    requires ci < |Chunks(file, size)| && chunk == Chunks(file, size)[ci] && Flatten(Chunks(file, size)) == file
    requires written <= result.Length && result[..written] == Covered(Chunks(file, size), ci, start, end)
    modifies result
    ensures now <= result.Length && result[..now] == Covered(Chunks(file, size), ci + 1, start, end)
  {
    hide Chunks, Flatten, Offset, Covered, Cut;
    ChunkShare(file, size, start, end, ci);
    var chunkStart := ci * size;
    OverlapCut(chunk, chunkStart, start, end);
    var sliceStart := Max(start, chunkStart) - chunkStart;
    var sliceEnd := Min(end + 1, chunkStart + |chunk|) - chunkStart;
    var slice := chunk[sliceStart..sliceEnd];
    Place(result, written, slice);
    now := written + |slice|;
  }

  /** The multi-chunk branch: each chunk's share goes behind what is already written. */
  method AssembleChunks(
    chunkSize: nat, start: nat, end: nat, startChunk: nat, endChunk: nat, getChunk: Source, ghost file: Bytes)
    returns (r: Result<Bytes, ReadError>)
    requires chunkSize > 0 && start <= end < |file| && Faithful(getChunk, Chunks(file, chunkSize))
    requires startChunk == start / chunkSize <= endChunk == end / chunkSize
    ensures r.Ok? ==> r.value == file[start..end + 1]
    ensures r.Ok? <==> AllRead(Chunks(file, chunkSize), getChunk, start, end)
  {
    ghost var plain := Chunks(file, chunkSize);
    SpanEnds(file, chunkSize, start, end, startChunk, endChunk);
    QuotientSpan(file, chunkSize, start, end);
    hide Chunks, Flatten, Offset, Cut, Covered, InSpan;
    var result := new Byte[end - start + 1];
    var written: nat := 0;
    var ci := startChunk;
    while ci <= endChunk
      invariant startChunk <= ci <= endChunk + 1
      invariant ci <= |plain| && written <= result.Length && result[..written] == Covered(plain, ci, start, end)
      invariant forall k :: startChunk <= k < ci ==> getChunk(k).Ok?
    {
      var decrypted := getChunk(ci);
      if decrypted.Err? {
        return decrypted;
      }
      written := CopyShare(result, written, decrypted.value, ci, chunkSize, start, end, file);
      ci := ci + 1;
    }
    assert result[..written] == result[..];
    r := Ok(result[..]);
  }

  /** Nothing is covered before the first chunk of the span, everything after the last one. */
  lemma {:induction false} SpanEnds(file: Bytes, size: nat, start: nat, end: nat, lo: nat, hi: nat)
    requires size > 0 && start <= end < |file| && lo == start / size && hi == end / size
    ensures var plain := Chunks(file, size);
      && Flatten(plain) == file && lo < |plain| && hi < |plain|
      && Covered(plain, lo, start, end) == []
      && Covered(plain, hi + 1, start, end) == file[start..end + 1]
  {
    hide Chunks, Flatten, Offset, Covered;
    var plain := Chunks(file, size);
    FlattenChunks(file, size);
    FloorPicksChunk(file, size, start);
    FloorPicksChunk(file, size, end);
    SpanCovers(plain, lo, hi, start, end);
  }

  lemma {:induction false} SpanCovers(plain: seq<Bytes>, lo: nat, hi: nat, start: nat, end: nat)
    requires lo < |plain| && hi < |plain| && start <= end < |Flatten(plain)|
    requires Offset(plain, lo) <= start && end < Offset(plain, hi) + |plain[hi]|
    ensures Covered(plain, lo, start, end) == []
    ensures Covered(plain, hi + 1, start, end) == Flatten(plain)[start..end + 1]
  {
    hide Flatten, Offset, Covered;
    OffsetStep(plain, hi);
    NothingCovered(plain, lo, start, end);
    EverythingCovered(plain, hi + 1, start, end);
  }

  lemma {:induction false} NothingCovered(plain: seq<Bytes>, i: nat, start: nat, end: nat)
    requires i <= |plain| && start <= end < |Flatten(plain)| && Offset(plain, i) <= start
    ensures Covered(plain, i, start, end) == []
  {
  }

  /** The share of chunk ci extends what is covered, and still fits. */
  lemma {:induction false} ChunkShare(file: Bytes, size: nat, start: nat, end: nat, ci: nat)
    requires size > 0 && start <= end < |file| && start / size <= ci <= end / size
    ensures ci < |Chunks(file, size)| && Flatten(Chunks(file, size)) == file
    ensures var plain, o := Chunks(file, size), ci * size;
      && start < o + |plain[ci]| && o <= end
      && Covered(plain, ci, start, end) + Cut(plain[ci], o, start, end) == Covered(plain, ci + 1, start, end)
      && |Covered(plain, ci + 1, start, end)| <= end - start + 1
  {
    var plain := Chunks(file, size);
    FlattenChunks(file, size);
    InsideSpan(file, size, start, end, ci);
    UniformOffset(file, size, ci);
    hide Chunks, Cut, Flatten, Offset;
    CutExtends(plain, ci, start, end);
  }

  lemma OverlapCut(chunk: Bytes, offset: nat, start: nat, end: nat)
    requires start < offset + |chunk| && offset <= end && start <= end
    ensures 0 <= Max(start, offset) - offset <= Min(end + 1, offset + |chunk|) - offset <= |chunk|
    ensures Cut(chunk, offset, start, end)
      == chunk[Max(start, offset) - offset..Min(end + 1, offset + |chunk|) - offset]
  {
  }

  /** The span of a uniformly cut file runs between the two quotients. */
  lemma {:induction false} QuotientSpan(file: Bytes, size: nat, start: nat, end: nat)
    requires size > 0 && start <= end < |file|
    ensures forall k: nat :: InSpan(Chunks(file, size), k, start, end) <==> start / size <= k <= end / size
  {
    hide Chunks, Offset, InSpan;
    var plain := Chunks(file, size);
    FloorPicksChunk(file, size, start);
    FloorPicksChunk(file, size, end);
    OffsetStep(plain, start / size);
    OffsetStep(plain, end / size);
    forall k: nat ensures InSpan(plain, k, start, end) <==> start / size <= k <= end / size {
      SpanIs(plain, start / size, end / size, start, end, k);
    }
  }

  /** Chunks between the first and the last one overlap the window. */
  lemma {:induction false} InsideSpan(file: Bytes, size: nat, start: nat, end: nat, ci: nat)
    requires size > 0 && start <= end < |file| && start / size <= ci <= end / size
    ensures ci < |Chunks(file, size)|
    ensures var plain := Chunks(file, size);
      start < Offset(plain, ci) + |plain[ci]| && Offset(plain, ci) <= end
  {
    QuotientSpan(file, size, start, end);
    hide Chunks, Offset;
    var plain := Chunks(file, size);
    assert InSpan(plain, ci, start, end);
    OffsetStep(plain, ci);
  }

  // ------------------------------------------------------------ whole pipeline

  /** The file as the upload stored it: cut, then each chunk encrypted under its own IV. */
  predicate Stored(a: Aead, file: Bytes, size: nat, ivs: seq<Bytes>, stored: seq<Bytes>)
    requires size > 0
  {
    var plain := Chunks(file, size);
    && |ivs| == |stored| == |plain|
    && forall i :: 0 <= i < |plain| ==> |ivs[i]| == IV_LENGTH && stored[i] == EncryptServerSide(a, ivs[i], plain[i])
  }

  /** Decrypting stored bytes, where a fetch may fail. */
  function Decrypting(a: Aead, fetch: nat -> Result<Bytes, ReadError>): Source {
    (i: nat) =>
      match fetch(i)
      case Err(e) => Err(e)
      case Ok(bytes) => match DecryptServerSide(a, bytes) case Ok(p) => Ok(p) case Err(_) => Err(Unreadable)
  }

  /**
   Cut, encrypt, store: the stored sizes describe the chunks, every fetch that returns
   the stored bytes decrypts to its chunk, and the chunks join to the file.
   */
  lemma {:induction false} StoredFileIsReadable(
    a: Aead, file: Bytes, size: nat, ivs: seq<Bytes>, stored: seq<Bytes>, fetch: nat -> Result<Bytes, ReadError>)
    requires a.Lawful() && size > 0 && Stored(a, file, size, ivs, stored)
    requires forall i :: 0 <= i < |stored| && fetch(i).Ok? ==> fetch(i).value == stored[i]
    ensures var plain := Chunks(file, size);
      && Flatten(plain) == file
      && (forall i :: 0 <= i < |plain| ==> PlaintextSizeFor(|stored[i]|) == |plain[i]|)
      && Faithful(Decrypting(a, fetch), plain)
      && forall i :: 0 <= i < |plain| && fetch(i).Ok? ==> Decrypting(a, fetch)(i).Ok?
  {
    var plain := Chunks(file, size);
    FlattenChunks(file, size);
    forall i | 0 <= i < |plain|
      ensures PlaintextSizeFor(|stored[i]|) == |plain[i]| && DecryptServerSide(a, stored[i]) == Ok(plain[i])
    {
      RoundTrip(a, ivs[i], plain[i]);
    }
  }

  lemma NoChunkIsEmpty(file: Bytes, size: nat)
    requires size > 0
    ensures forall i :: 0 <= i < |Chunks(file, size)| ==> Chunks(file, size)[i] != []
  {
    ChunksAreRegular(file, size);
  }

  /**
   From the stored bytes to three equal answers: what the share page's stream delivers, what the
   stream handler splices and what the download engine assembles is one and the same window of the file.
   */
  method ReadThreeWays(
    a: Aead, ghost file: Bytes, size: nat, ghost ivs: seq<Bytes>, stored: seq<Bytes>,
    fetch: nat -> Result<Bytes, ReadError>, late: Timing, start: nat, end: nat)
    returns (pulled: seq<Bytes>, spliced: array<Byte>, assembled: Bytes)
    requires a.Lawful() && size > 0 && Stored(a, file, size, ivs, stored) && start <= end < |file|
    requires forall i :: 0 <= i < |stored| ==> fetch(i) == Ok(stored[i])
    ensures Flatten(pulled) == spliced[..] == assembled == file[start..end + 1]
  {
    ghost var plain := Chunks(file, size);
    StoredFileIsReadable(a, file, size, ivs, stored, fetch);
    hide Chunks, Flatten, Stored;
    var source := Decrypting(a, fetch);
    var sizes := seq(|stored|, i requires 0 <= i < |stored| => PlaintextSizeFor(|stored[i]|));
    var rows := map i | 0 <= i < |sizes| :: sizes[i];
    var chunks := GetShareChunks(rows, |stored|, plain);
    NoChunkIsEmpty(file, size);
    NeverStallsIff(plain, start, end);
    var outcome;
    pulled, outcome := ReadShareRange(chunks.value, start, end, source, late, plain);
    var splice := SpliceRange(sizes, start, end, source, plain);
    var range := GetByteRange(size, start, end, source, file);
    spliced, assembled := splice.value, range.value;
  }
}
