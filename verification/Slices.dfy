/** Windows of a file that is stored as a list of chunks. */
module Slices {
  import opened Basics

  /** A chunk as known from its database row: size and offset, no bytes. */
  datatype ChunkInfo = ChunkInfo(size: nat, offset: nat)

  /** One read and decryption of a chunk; an error aborts the response. */
  datatype ReadError = Unreadable
  type Source = nat -> Result<Bytes, ReadError>

  /** Plaintext offset at which chunk i starts. */
  function Offset(plain: seq<Bytes>, i: nat): nat
    requires i <= |plain|
  {
    |Flatten(plain[..i])|
  }

  lemma {:induction false} OffsetStep(plain: seq<Bytes>, i: nat)
    requires i < |plain|
    ensures Offset(plain, i + 1) == Offset(plain, i) + |plain[i]| <= |Flatten(plain)|
    ensures Flatten(plain)[Offset(plain, i)..Offset(plain, i + 1)] == plain[i]
  {
    assert plain[..i + 1] == plain[..i] + [plain[i]];
    FlattenSnoc(plain[..i], plain[i]);
    assert plain == plain[..i + 1] + plain[i + 1..];
    FlattenAppend(plain[..i + 1], plain[i + 1..]);
  }

  lemma {:induction false} OffsetBounds(plain: seq<Bytes>)
    ensures Offset(plain, 0) == 0 && Offset(plain, |plain|) == |Flatten(plain)|
  {
    assert plain[..0] == [];
    assert plain[..|plain|] == plain;
  }

  lemma {:induction false} OffsetMonotone(plain: seq<Bytes>, i: nat, j: nat)
    requires i <= j <= |plain|
    ensures Offset(plain, i) <= Offset(plain, j) <= |Flatten(plain)|
    decreases j - i
  {
    if i < j {
      OffsetStep(plain, i);
      OffsetMonotone(plain, i + 1, j);
    } else if j < |plain| {
      OffsetStep(plain, j);
    } else {
      OffsetBounds(plain);
    }
  }

  lemma SliceOfSlice(f: Bytes, lo: nat, hi: nat, x: nat, y: nat)
    requires lo <= hi <= |f| && x <= y <= hi - lo
    ensures f[lo..hi][x..y] == f[lo + x..lo + y]
  {
    var a, b := f[lo..hi][x..y], f[lo + x..lo + y];
    assert |a| == |b| && forall k :: 0 <= k < |a| ==> a[k] == b[k];
  }

  /** The part of chunk i inside the window [start..end], as every reader cuts it. */
  function Cut(chunk: Bytes, offset: nat, start: nat, end: int): Bytes {
    var sliceStart := Max(0, start - offset);
    var sliceEnd := Min(|chunk| - 1, end - offset);
    if sliceStart <= sliceEnd then chunk[sliceStart..sliceEnd + 1] else []
  }

  /** How much of the window is covered by the chunks before i. */
  function Covered(plain: seq<Bytes>, i: nat, start: nat, end: nat): Bytes
    requires i <= |plain| && start <= end < |Flatten(plain)|
  {
    Flatten(plain)[start..Max(start, Min(end + 1, Offset(plain, i)))]
  }

  /** What Cut takes from the chunk f[o..o'] is f itself between the clamped bounds. */
  lemma CutIsWindow(f: Bytes, o: nat, o': nat, start: nat, end: nat)
    requires o <= o' <= |f| && start <= end < |f|
    ensures var a, b := Max(start, Min(end + 1, o)), Max(start, Min(end + 1, o'));
      a <= b <= |f| && Cut(f[o..o'], o, start, end) == f[a..b]
  {
    if start < o' && o <= end && o < o' {
      SliceOfSlice(f, o, o', Max(0, start - o), Min(o' - o - 1, end - o) + 1);
    }
  }

  /** Cutting chunk i extends the covered part of the window by exactly that chunk's share. */
  lemma {:induction false} CutExtends(plain: seq<Bytes>, i: nat, start: nat, end: nat)
    requires i < |plain| && start <= end < |Flatten(plain)|
    ensures Covered(plain, i, start, end) + Cut(plain[i], Offset(plain, i), start, end)
      == Covered(plain, i + 1, start, end)
  {
    OffsetStep(plain, i);
    var f, o, o' := Flatten(plain), Offset(plain, i), Offset(plain, i + 1);
    CutIsWindow(f, o, o', start, end);
    JoinWindows(f, start, Max(start, Min(end + 1, o)), Max(start, Min(end + 1, o')));
  }

  /** A chunk that lies in the window contributes a non-empty piece exactly when it is non-empty. */
  lemma CutNonEmptyIff(plain: seq<Bytes>, i: nat, start: nat, end: nat)
    requires i < |plain| && start <= end
    requires Offset(plain, i) <= end && start < Offset(plain, i) + Max(1, |plain[i]|)
    ensures Cut(plain[i], Offset(plain, i), start, end) != [] <==> |plain[i]| > 0
  {
  }
}
