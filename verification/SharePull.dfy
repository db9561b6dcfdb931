/** The share page's stream: one chunk is read for each pull of the consumer. */
module SharePull {
  import opened Basics
  import opened Slices

  /** findIndex: the first chunk that ends after `start`, or the number of chunks. */
  method FindFirst(chunks: seq<ChunkInfo>, start: nat) returns (i: nat)
    ensures i <= |chunks| && (i < |chunks| ==> start < chunks[i].offset + chunks[i].size)
    ensures forall j :: 0 <= j < i ==> chunks[j].offset + chunks[j].size <= start
  {
    i := 0;
    while i < |chunks| && chunks[i].offset + chunks[i].size <= start
      invariant i <= |chunks| && forall j :: 0 <= j < i ==> chunks[j].offset + chunks[j].size <= start
    {
      i := i + 1;
    }
  }

  datatype PullEvent = Close | Enqueue(piece: Bytes) | Idle | Abort

  /** What one pull does at cursor i. */
  function Pulled(chunks: seq<ChunkInfo>, start: nat, end: int, i: nat, source: Source): PullEvent {
    if i >= |chunks| || chunks[i].offset > end then Close
    else
      match source(i)
      case Err(_) => Abort
      case Ok(plaintext) =>
        var piece := Cut(plaintext, chunks[i].offset, start, end);
        if piece == [] then Idle else Enqueue(piece)
  }

  class ShareStream {
    const chunks: seq<ChunkInfo>
    const start: nat
    const end: int   // -1 for the whole of an empty file
    var i: nat

    constructor (chunks: seq<ChunkInfo>, start: nat, end: int)
      ensures this.chunks == chunks && this.start == start && this.end == end
      ensures i <= |chunks| && (i < |chunks| ==> start < chunks[i].offset + chunks[i].size)
      ensures forall j :: 0 <= j < i ==> chunks[j].offset + chunks[j].size <= start
    {
      this.chunks, this.start, this.end := chunks, start, end;
      new;
      i := FindFirst(chunks, start);
    }

    /** The consumer asks for more: at most one chunk is read. */
    method Pull(source: Source) returns (event: PullEvent)
      modifies this
      ensures event == Pulled(chunks, start, end, old(i), source)
      ensures i == if event.Close? then old(i) else old(i) + 1
    {
      if i >= |chunks| || chunks[i].offset > end {
        return Close;
      }
      var chunk := chunks[i];
      var encrypted := source(i);
      i := i + 1;
      if encrypted.Err? {
        return Abort;
      }
      var plaintext := encrypted.value;
      var sliceStart := Max(0, start - chunk.offset);
      var sliceEnd := Min(|plaintext| - 1, end - chunk.offset);
      event := if sliceStart <= sliceEnd then Enqueue(plaintext[sliceStart..sliceEnd + 1]) else Idle;
    }
  }
}
