/** The streaming chunker, against the simple cut of the whole input. */
module Chunker {
  import opened Basics

  /** The input cut every `size` bytes; only the last piece may be shorter. */
  function Chunks(input: Bytes, size: nat): seq<Bytes>
    requires size > 0
  {
    if input == [] then []
    else if |input| <= size then [input]
    else [input[..size]] + Chunks(input[size..], size)
  }

  function CalculateChunkCount(fileSize: nat, chunkSize: nat): nat
    requires chunkSize > 0
  {
    (fileSize + chunkSize - 1) / chunkSize
  }

  lemma DivStep(n: nat, d: nat)
    requires d > 0
    ensures (n + d) / d == n / d + 1
  {
    DivUnique(n + d, d, n / d + 1, n % d);
  }

  lemma {:induction false} ChunkCountMatches(input: Bytes, size: nat)
    requires size > 0
    ensures |Chunks(input, size)| == CalculateChunkCount(|input|, size)
  {
    CountStep(|input|, size);
    hide CalculateChunkCount;
    if |input| > size {
      ChunkCountMatches(input[size..], size);
    }
  }

  lemma CountStep(n: nat, size: nat)
    requires size > 0
    ensures n == 0 ==> CalculateChunkCount(n, size) == 0
    ensures 0 < n <= size ==> CalculateChunkCount(n, size) == 1
    ensures n > size ==> CalculateChunkCount(n, size) == 1 + CalculateChunkCount(n - size, size)
  {
    if n == 0 {
      DivUnique(size - 1, size, 0, size - 1);
    } else {
      DivStep(n - 1, size);
      if n <= size {
        DivUnique(n - 1, size, 0, n - 1);
      }
    }
  }

  lemma SliceOfTail<T>(s: seq<T>, k: nat, a: nat, b: nat)
    requires a <= b && k + b <= |s|
    ensures s[k..][a..b] == s[k + a..k + b]
  {
  }

  /** Chunk k is input[k * size .. min((k + 1) * size, n)]. */
  lemma {:induction false} ChunkAt(input: Bytes, size: nat, k: nat)
    requires size > 0 && k < |Chunks(input, size)|
    ensures 0 <= k * size < |input|
    ensures Chunks(input, size)[k] == input[k * size..Min((k + 1) * size, |input|)]
    decreases k
  {
    if k > 0 {
      var rest := input[size..];
      ChunkAt(rest, size, k - 1);
      assert k * size == (k - 1) * size + size;
      assert (k + 1) * size == k * size + size;
      SliceOfTail(input, size, (k - 1) * size, Min(k * size, |rest|));
    }
  }

  lemma {:induction false} FlattenChunks(input: Bytes, size: nat)
    requires size > 0
    ensures Flatten(Chunks(input, size)) == input
  {
    if |input| > size {
      FlattenChunks(input[size..], size);
    } else if input != [] {
      assert Flatten([input]) == input + Flatten([]);
    }
  }

  /** Full pieces with at most one shorter, non-empty piece at the end. */
  predicate Regular(pieces: seq<Bytes>, size: nat) {
    forall k :: 0 <= k < |pieces| ==> 0 < |pieces[k]| <= size && (k < |pieces| - 1 ==> |pieces[k]| == size)
  }

  lemma {:induction false} ChunksAreRegular(input: Bytes, size: nat)
    requires size > 0
    ensures Regular(Chunks(input, size), size)
  {
    if |input| > size {
      ChunksAreRegular(input[size..], size);
      var rest := Chunks(input[size..], size);
      assert Chunks(input, size) == [input[..size]] + rest;
    }
  }

  /** There is only one regular way to cut a byte string. */
  lemma {:induction false} RegularIsChunks(pieces: seq<Bytes>, size: nat)
    requires size > 0 && Regular(pieces, size)
    ensures pieces == Chunks(Flatten(pieces), size)
  {
    if |pieces| == 1 {
      assert Flatten(pieces) == pieces[0] + Flatten(pieces[1..]) == pieces[0];
    } else if |pieces| > 1 {
      var rest := pieces[1..];
      assert Regular(rest, size) by {
        forall k | 0 <= k < |rest| ensures 0 < |rest[k]| <= size && (k < |rest| - 1 ==> |rest[k]| == size) {
          assert rest[k] == pieces[k + 1];
        }
      }
      RegularIsChunks(rest, size);
      assert Flatten(pieces)[..size] == pieces[0] && Flatten(pieces)[size..] == Flatten(rest);
      assert |Flatten(rest)| > 0 by { assert rest[0] == pieces[1]; }
      assert pieces == [pieces[0]] + rest;
    }
  }

  lemma FlattenTake(segments: seq<Bytes>, r: nat)
    requires r < |segments|
    ensures Flatten(segments[..r + 1]) == Flatten(segments[..r]) + segments[r]
  {
    FlattenSnoc(segments[..r], segments[r]);
    assert segments[..r + 1] == segments[..r] + [segments[r]];
  }

  /** acc.set(piece, at) */
  method SetBytes(acc: array<Byte>, at: nat, piece: Bytes)
    requires at + |piece| <= acc.Length
    modifies acc
    ensures acc[..at] == old(acc[..at]) && acc[at..at + |piece|] == piece
    ensures acc[at + |piece|..] == old(acc[at + |piece|..])
  {
    forall i | 0 <= i < |piece| {
      acc[at + i] := piece[i];
    }
  }

  /** acc.slice(0, n): a copy of its own. */
  method CopyPrefix(acc: array<Byte>, n: nat) returns (copy: array<Byte>)
    requires n <= acc.Length
    ensures fresh(copy) && copy[..] == acc[..n]
  {
    copy := new Byte[n];
    forall i | 0 <= i < n {
      copy[i] := acc[i];
    }
  }

  /** The chunks handed out so far: full, distinct, none of them the buffer in use, unchanged since their yield. */
  ghost predicate HandedOut(chunks: seq<array<Byte>>, atYield: seq<Bytes>, acc: array<Byte>, size: nat)
    reads chunks
  {
    && |chunks| == |atYield|
    && (forall k :: 0 <= k < |chunks| ==> chunks[k] != acc && chunks[k][..] == atYield[k] && |atYield[k]| == size)
    && forall j, k :: 0 <= j < k < |chunks| ==> chunks[j] != chunks[k]
  }

  lemma Regroup(flat: Bytes, filled: Bytes, seen: Bytes, value: Bytes, offset: nat, take: nat)
    requires offset + take <= |value| && flat + filled == seen + value[..offset]
    ensures flat + (filled + value[offset..offset + take]) == seen + value[..offset + take]
  {
    assert flat + (filled + value[offset..offset + take]) == (flat + filled) + value[offset..offset + take];
    assert value[..offset + take] == value[..offset] + value[offset..offset + take];
  }

  /** One round of the inner loop: moves bytes into the buffer and yields it when full. */
  method TakePiece(
    acc: array<Byte>, accLen: nat, chunks: seq<array<Byte>>, ghost atYield: seq<Bytes>, value: Bytes, offset: nat,
    ghost seen: Bytes)
    returns (take: nat, acc': array<Byte>, accLen': nat, chunks': seq<array<Byte>>, ghost atYield': seq<Bytes>)
    requires accLen < acc.Length && offset < |value| && HandedOut(chunks, atYield, acc, acc.Length)
    requires Flatten(atYield) + acc[..accLen] == seen + value[..offset]
    modifies acc
    ensures 0 < take <= |value| - offset && accLen' < acc'.Length == acc.Length
    ensures (acc' == acc && chunks' == chunks) || (fresh(acc') && chunks' == chunks + [acc])
    ensures HandedOut(chunks', atYield', acc', acc.Length)
    ensures Flatten(atYield') + acc'[..accLen'] == seen + value[..offset + take]
  {
    take := Min(acc.Length - accLen, |value| - offset);
    ghost var filled := acc[..accLen];
    SetBytes(acc, accLen, value[offset..offset + take]);
    assert acc[..accLen + take] == filled + value[offset..offset + take];
    Regroup(Flatten(atYield), filled, seen, value, offset, take);
    acc', accLen', chunks', atYield' := acc, accLen + take, chunks, atYield;
    if accLen' == acc.Length {
      FlattenSnoc(atYield, acc[..]);
      assert acc[..accLen'] == acc[..];
      chunks', atYield' := chunks + [acc], atYield + [acc[..]];
      acc' := new Byte[acc.Length];
      accLen' := 0;
      assert Flatten(atYield') + acc'[..0] == Flatten(atYield');
    }
  }

  /**
   Fills a fixed-size buffer from reads of any length and yields it when full.
   `atYield` records what each chunk held at the moment it was yielded: no yielded
   buffer is written afterwards, and no two chunks share a buffer.
   */
  method ChunkFileStream(segments: seq<Bytes>, chunkSize: nat)
    returns (chunks: seq<array<Byte>>, ghost atYield: seq<Bytes>)
    requires chunkSize > 0
    ensures atYield == Chunks(Flatten(segments), chunkSize)
    ensures |chunks| == |atYield| == CalculateChunkCount(|Flatten(segments)|, chunkSize)
    ensures forall k :: 0 <= k < |chunks| ==> fresh(chunks[k]) && chunks[k][..] == atYield[k]
    ensures forall j, k :: 0 <= j < k < |chunks| ==> chunks[j] != chunks[k]
  {
    var acc := new Byte[chunkSize];
    var accLen: nat := 0;
    chunks, atYield := [], [];
    var r := 0;
    while r < |segments|
      invariant r <= |segments| && accLen < chunkSize == acc.Length && fresh(acc) && fresh(set c | c in chunks)
      invariant HandedOut(chunks, atYield, acc, chunkSize)
      invariant Flatten(atYield) + acc[..accLen] == Flatten(segments[..r])
    {
      var value := segments[r];
      var offset: nat := 0;
      while offset < |value|
        invariant offset <= |value| && accLen < chunkSize == acc.Length && fresh(acc) && fresh(set c | c in chunks)
        invariant HandedOut(chunks, atYield, acc, chunkSize)
        invariant Flatten(atYield) + acc[..accLen] == Flatten(segments[..r]) + value[..offset]
      {
        var take;
        take, acc, accLen, chunks, atYield :=
          TakePiece(acc, accLen, chunks, atYield, value, offset, Flatten(segments[..r]));
        offset := offset + take;
      }
      assert value[..offset] == value;
      FlattenTake(segments, r);
      r := r + 1;
    }
    assert segments[..r] == segments;
    chunks, atYield := YieldTail(acc, accLen, chunks, atYield);
    ChunkCountMatches(Flatten(segments), chunkSize);
  }

  /** The tail: what is left in the buffer, copied. */
  method YieldTail(acc: array<Byte>, accLen: nat, chunks: seq<array<Byte>>, ghost atYield: seq<Bytes>)
    returns (chunks': seq<array<Byte>>, ghost atYield': seq<Bytes>)
    requires accLen < acc.Length && HandedOut(chunks, atYield, acc, acc.Length)
    ensures |chunks'| == |atYield'| && atYield' == Chunks(Flatten(atYield) + acc[..accLen], acc.Length)
    ensures chunks' == chunks
      || (|chunks'| == |chunks| + 1 && chunks'[..|chunks|] == chunks && fresh(chunks'[|chunks|]))
    ensures forall k :: 0 <= k < |chunks'| ==> chunks'[k][..] == atYield'[k]
    ensures forall j, k :: 0 <= j < k < |chunks'| ==> chunks'[j] != chunks'[k]
  {
    chunks', atYield' := chunks, atYield;
    if accLen > 0 {
      FlattenSnoc(atYield, acc[..accLen]);
      var tail := CopyPrefix(acc, accLen);
      chunks', atYield' := chunks + [tail], atYield + [tail[..]];
    } else {
      assert Flatten(atYield) + acc[..0] == Flatten(atYield);
    }
    assert Regular(atYield', acc.Length);
    RegularIsChunks(atYield', acc.Length);
  }

  /** Read boundaries do not matter: equal bytes give equal chunks. */
  lemma {:induction false} SegmentationIrrelevant(
    a: seq<Bytes>, b: seq<Bytes>, piecesA: seq<Bytes>, piecesB: seq<Bytes>, size: nat)
    requires size > 0 && Flatten(a) == Flatten(b)
    requires Regular(piecesA, size) && Flatten(piecesA) == Flatten(a)
    requires Regular(piecesB, size) && Flatten(piecesB) == Flatten(b)
    ensures piecesA == piecesB
  {
    RegularIsChunks(piecesA, size);
    RegularIsChunks(piecesB, size);
  }
}
