/** The stream handler's chunk list: whatever rows carry the file's prefix, in index order. */
module ChunkRows {
  import opened Basics

  /** A stored chunk: its blob id carries the index. */
  datatype ChunkRow = ChunkRow(blobId: string, bytes: Bytes)
  {
    function Index(): Option<nat> { ParseChunkIndex(blobId) }
  }

  /** The digits s ends in. */
  function TrailingDigits(s: string): (d: string)
    ensures |d| <= |s| && AllDigits(d)
  {
    if s == "" || !IsDigit(s[|s| - 1]) then "" else TrailingDigits(s[..|s| - 1]) + [s[|s| - 1]]
  }

  /** The pattern :chunk:(\d+)$; the file's id and count play no part in it. */
  function ParseChunkIndex(blobId: string): Option<nat> {
    var digits := TrailingDigits(blobId);
    var front := blobId[..|blobId| - |digits|];
    if digits != "" && |front| >= 7 && front[|front| - 7..] == ":chunk:" then Some(Value(digits)) else None
  }

  /** Rows without an index are passed over. */
  function Indexed(rows: seq<ChunkRow>): (r: seq<ChunkRow>)
    ensures forall row <- r :: row.Index().Some?
  {
    if rows == [] then []
    else if rows[0].Index().Some? then [rows[0]] + Indexed(rows[1..])
    else Indexed(rows[1..])
  }

  /** Puts x before every row with the same or a larger index. */
  function InsertByIndex(x: ChunkRow, sorted: seq<ChunkRow>): (r: seq<ChunkRow>)
    requires x.Index().Some? && forall row <- sorted :: row.Index().Some?
    ensures forall row <- r :: row == x || row in sorted
  {
    if sorted == [] then [x]
    else if x.Index().value <= sorted[0].Index().value then [x] + sorted
    else [sorted[0]] + InsertByIndex(x, sorted[1..])
  }

  /** A stable sort by index. */
  function SortByIndex(rows: seq<ChunkRow>): (r: seq<ChunkRow>)
    requires forall row <- rows :: row.Index().Some?
    ensures forall row <- r :: row in rows
  {
    if rows == [] then [] else InsertByIndex(rows[0], SortByIndex(rows[1..]))
  }

  function OrderedRows(rows: seq<ChunkRow>): seq<ChunkRow> { SortByIndex(Indexed(rows)) }

  /** getOrderedChunks: the loop skips rows without an index, the sort follows. */
  method GetOrderedChunks(rows: seq<ChunkRow>) returns (chunks: seq<ChunkRow>)
    ensures chunks == OrderedRows(rows)
  {
    chunks := [];
    for i := 0 to |rows|
      invariant chunks + Indexed(rows[i..]) == Indexed(rows)
      invariant forall row <- chunks :: row.Index().Some?
    {
      if rows[i].Index().Some? {
        chunks := chunks + [rows[i]];
      }
    }
    assert rows[|rows|..] == [] && chunks == Indexed(rows);
    chunks := SortByIndex(chunks);
  }

  /** How many rows have this index. */
  function Count(rows: seq<ChunkRow>, i: nat): nat {
    if rows == [] then 0 else (if rows[0].Index() == Some(i) then 1 else 0) + Count(rows[1..], i)
  }

  ghost predicate Ascending(rows: seq<ChunkRow>) {
    && (forall row <- rows :: row.Index().Some?)
    && forall a, b :: 0 <= a < b < |rows| ==> rows[a].Index().value <= rows[b].Index().value
  }

  lemma {:induction false} InsertCounts(x: ChunkRow, sorted: seq<ChunkRow>, i: nat)
    requires x.Index().Some? && forall row <- sorted :: row.Index().Some?
    ensures Count(InsertByIndex(x, sorted), i) == Count(sorted, i) + if x.Index() == Some(i) then 1 else 0
  {
    if sorted != [] && x.Index().value > sorted[0].Index().value {
      InsertCounts(x, sorted[1..], i);
    }
  }

  lemma {:induction false} InsertAscends(x: ChunkRow, sorted: seq<ChunkRow>)
    requires x.Index().Some? && Ascending(sorted)
    ensures Ascending(InsertByIndex(x, sorted))
  {
    hide ParseChunkIndex;
    if sorted != [] && x.Index().value > sorted[0].Index().value {
      var rest := InsertByIndex(x, sorted[1..]);
      InsertAscends(x, sorted[1..]);
      assert forall row <- rest :: row == x || row in sorted[1..];
      hide InsertByIndex;
      PrependAscends(sorted[0], rest);
    } else {
      PrependAscends(x, sorted);
    }
  }

  lemma PrependAscends(x: ChunkRow, rest: seq<ChunkRow>)
    requires x.Index().Some? && Ascending(rest)
    requires forall row <- rest :: x.Index().value <= row.Index().value
    ensures Ascending([x] + rest)
  {
    hide ParseChunkIndex;
  }

  lemma {:induction false} SortAscends(rows: seq<ChunkRow>, i: nat)
    requires forall row <- rows :: row.Index().Some?
    ensures Ascending(SortByIndex(rows)) && Count(SortByIndex(rows), i) == Count(rows, i)
  {
    if rows != [] {
      SortAscends(rows[1..], i);
      InsertAscends(rows[0], SortByIndex(rows[1..]));
      InsertCounts(rows[0], SortByIndex(rows[1..]), i);
    }
  }

  lemma {:induction false} IndexedCounts(rows: seq<ChunkRow>, i: nat)
    ensures Count(Indexed(rows), i) == Count(rows, i)
  {
    if rows != [] {
      IndexedCounts(rows[1..], i);
    }
  }

  /** The rows carry the indices from, from + 1, ... in this order, and there are n of them. */
  predicate Consecutive(rows: seq<ChunkRow>, from: nat, n: nat) {
    |rows| == n && forall k :: 0 <= k < n ==> rows[k].Index() == Some(from + k)
  }

  /** Each of these indices is carried by exactly one row, and no other index by any. */
  ghost predicate OnceEach(rows: seq<ChunkRow>, from: nat, n: nat) {
    forall i: nat :: Count(rows, i) == if from <= i < from + n then 1 else 0
  }

  lemma {:induction false} CountsMember(rows: seq<ChunkRow>, k: nat)
    requires k < |rows| && rows[k].Index().Some?
    ensures Count(rows, rows[k].Index().value) >= 1
  {
    if k > 0 {
      CountsMember(rows[1..], k - 1);
    }
  }

  lemma {:induction false} MemberCounted(rows: seq<ChunkRow>, i: nat) returns (k: nat)
    requires Count(rows, i) >= 1
    ensures k < |rows| && rows[k].Index() == Some(i)
  {
    if rows[0].Index() == Some(i) {
      k := 0;
    } else {
      k := MemberCounted(rows[1..], i);
      k := k + 1;
    }
  }

  lemma {:induction false} ConsecutiveIsOnceEach(rows: seq<ChunkRow>, from: nat, n: nat)
    requires Consecutive(rows, from, n)
    ensures OnceEach(rows, from, n)
    decreases n
  {
    if n > 0 {
      ConsecutiveIsOnceEach(rows[1..], from + 1, n - 1);
    }
  }

  /** The first of ascending rows carries the least index, and the rest the others. */
  lemma FirstIsLeast(rows: seq<ChunkRow>, from: nat, n: nat)
    requires rows != [] && Ascending(rows) && OnceEach(rows, from, n)
    ensures n > 0 && rows[0].Index() == Some(from)
  {
    hide ParseChunkIndex;
    CountsMember(rows, 0);
    assert Count(rows, rows[0].Index().value) >= 1;
    var k := MemberCounted(rows, from);
  }

  lemma {:induction false} OnceEachIsConsecutive(rows: seq<ChunkRow>, from: nat, n: nat)
    requires Ascending(rows) && OnceEach(rows, from, n)
    ensures Consecutive(rows, from, n)
    decreases n
  {
    hide ParseChunkIndex;
    if rows != [] {
      FirstIsLeast(rows, from, n);
      forall i: nat ensures Count(rows[1..], i) == if from + 1 <= i < from + n then 1 else 0 {
        assert Count(rows, i) == if from <= i < from + n then 1 else 0;
      }
      hide Count;
      OnceEachIsConsecutive(rows[1..], from + 1, n - 1);
    } else {
      assert Count(rows, from) == if n > 0 then 1 else 0;
    }
  }

  /**
   The handler serves the chunks 0 to n - 1 in order exactly if each of these indices has one row
   and no other index has any: a missing, a surplus and a repeated index all go unnoticed.
   */
  lemma {:induction false} StreamServesFileIff(rows: seq<ChunkRow>, n: nat)
    ensures Consecutive(OrderedRows(rows), 0, n) <==> OnceEach(rows, 0, n)
  {
    var served := OrderedRows(rows);
    forall i: nat ensures Ascending(served) && Count(served, i) == Count(rows, i) {
      SortAscends(Indexed(rows), i);
      IndexedCounts(rows, i);
    }
    assert Count(served, 0) == Count(rows, 0);
    if Consecutive(served, 0, n) {
      ConsecutiveIsOnceEach(served, 0, n);
      forall i: nat ensures Count(rows, i) == if i < n then 1 else 0 {
        assert Count(served, i) == Count(rows, i);
      }
    }
    if OnceEach(rows, 0, n) {
      forall i: nat ensures Count(served, i) == if i < n then 1 else 0 {
        assert Count(served, i) == Count(rows, i);
      }
      OnceEachIsConsecutive(served, 0, n);
    }
  }

  function Contents(rows: seq<ChunkRow>): seq<Bytes> {
    seq(|rows|, k requires 0 <= k < |rows| => rows[k].bytes)
  }

  lemma {:induction false} SortedRowsAreRows(rows: seq<ChunkRow>)
    ensures forall row <- OrderedRows(rows) :: row in rows
  {
    IndexedAreRows(rows);
  }

  lemma {:induction false} IndexedAreRows(rows: seq<ChunkRow>)
    ensures forall row <- Indexed(rows) :: row in rows
  {
    if rows != [] {
      IndexedAreRows(rows[1..]);
    }
  }

  /** In that case, if every row holds its chunk, what is served is the file's own chunk list. */
  lemma {:induction false} StreamServesBytes(rows: seq<ChunkRow>, plain: seq<Bytes>)
    requires forall row <- rows :: row.Index().Some? && row.Index().value < |plain| ==>
      row.bytes == plain[row.Index().value]
    requires OnceEach(rows, 0, |plain|)
    ensures Contents(OrderedRows(rows)) == plain
  {
    StreamServesFileIff(rows, |plain|);
    SortedRowsAreRows(rows);
    var served := OrderedRows(rows);
    forall k | 0 <= k < |plain| ensures served[k].bytes == plain[k] {
      assert served[k] in rows && served[k].Index() == Some(k);
    }
  }

  // ----------------------------------------------------------------- three inputs

  lemma OneDigit(c: char)
    requires IsDigit(c)
    ensures AllDigits([c]) && Value([c]) == c as int - '0' as int
    ensures AllDigits(['0', c]) && Value(['0', c]) == c as int - '0' as int
  {
    assert [c][..0] == "" && ['0', c][..1] == ['0'] && ['0'][..0] == "";
    assert Value("") == 0;
  }

  /** The ids f:chunk:0, f:chunk:1 and f:chunk:2, and one that repeats index 0. */
  lemma SomeIds()
    ensures ParseChunkIndex("f:chunk:0") == Some(0) && ParseChunkIndex("f:chunk:00") == Some(0)
    ensures ParseChunkIndex("f:chunk:1") == Some(1) && ParseChunkIndex("f:chunk:2") == Some(2)
  {
    hide ParseChunkIndex, Value;
    OneDigit('0');
    OneDigit('1');
    OneDigit('2');
    ParsesTo("f", "0");
    ParsesTo("f", "00");
    ParsesTo("f", "1");
    ParsesTo("f", "2");
    assert "f" + ":chunk:" + "0" == "f:chunk:0" && "f" + ":chunk:" + "00" == "f:chunk:00";
    assert "f" + ":chunk:" + "1" == "f:chunk:1" && "f" + ":chunk:" + "2" == "f:chunk:2";
  }

  lemma TwoRows(x: ChunkRow, y: ChunkRow)
    requires x.Index().Some? && y.Index().Some? && x.Index().value <= y.Index().value
    ensures OrderedRows([x, y]) == [x, y]
  {
    hide ParseChunkIndex;
    assert [x, y][1..] == [y] && [y][1..] == [];
    assert Indexed([]) == [] && Indexed([y]) == [y] && Indexed([x, y]) == [x, y];
    assert SortByIndex([]) == [] && SortByIndex([y]) == [y];
  }

  /** Chunk 1 of 3 has no row: the file is served without it. */
  lemma MissingRowIsSkipped(a: Bytes, c: Bytes)
    ensures Contents(OrderedRows([ChunkRow("f:chunk:0", a), ChunkRow("f:chunk:2", c)])) == [a, c]
  {
    SomeIds();
    hide ParseChunkIndex, OrderedRows;
    TwoRows(ChunkRow("f:chunk:0", a), ChunkRow("f:chunk:2", c));
  }

  /** A row beyond the only chunk of the file: the file is served too long. */
  lemma SurplusRowIsServed(a: Bytes, b: Bytes)
    ensures Contents(OrderedRows([ChunkRow("f:chunk:0", a), ChunkRow("f:chunk:1", b)])) == [a, b]
  {
    SomeIds();
    hide ParseChunkIndex, OrderedRows;
    TwoRows(ChunkRow("f:chunk:0", a), ChunkRow("f:chunk:1", b));
  }

  /** Two ids with one index: both rows are served. */
  lemma RepeatedIndexIsServedTwice(a: Bytes, b: Bytes)
    ensures Contents(OrderedRows([ChunkRow("f:chunk:0", a), ChunkRow("f:chunk:00", b)])) == [a, b]
  {
    SomeIds();
    hide ParseChunkIndex, OrderedRows;
    TwoRows(ChunkRow("f:chunk:0", a), ChunkRow("f:chunk:00", b));
  }

  /** Any prefix before :chunk: and the digits is accepted. */
  lemma ParsesTo(prefix: string, digits: string)
    requires digits != "" && AllDigits(digits)
    ensures ParseChunkIndex(prefix + ":chunk:" + digits) == Some(Value(digits))
  {
    var front := prefix + ":chunk:";
    DigitsAtEnd(front, digits);
    assert (front + digits)[..|front|] == front;
    assert front[|front| - 7..] == ":chunk:";
  }

  lemma {:induction false} TrailingDigitsAreTheEnd(s: string)
    ensures s == s[..|s| - |TrailingDigits(s)|] + TrailingDigits(s)
  {
    if s != "" && IsDigit(s[|s| - 1]) {
      var n := |s| - 1;
      TrailingDigitsAreTheEnd(s[..n]);
      assert s == s[..n] + [s[n]];
      assert s[..n][..n - |TrailingDigits(s[..n])|] == s[..n - |TrailingDigits(s[..n])|];
    }
  }

  /** Exactly the ids that end in :chunk: and a number carry an index, which is that number. */
  lemma ParsesIff(blobId: string, i: nat)
    ensures ParseChunkIndex(blobId) == Some(i) <==>
      exists prefix: string, digits: string ::
        digits != "" && AllDigits(digits) && Value(digits) == i && blobId == prefix + ":chunk:" + digits
  {
    hide Value;
    if ParseChunkIndex(blobId) == Some(i) {
      var digits := TrailingDigits(blobId);
      var front := blobId[..|blobId| - |digits|];
      TrailingDigitsAreTheEnd(blobId);
      assert front == front[..|front| - 7] + ":chunk:";
      assert blobId == front[..|front| - 7] + ":chunk:" + digits;
    }
    if prefix: string, digits: string :|
      digits != "" && AllDigits(digits) && Value(digits) == i && blobId == prefix + ":chunk:" + digits
    {
      ParsesTo(prefix, digits);
    }
  }

  lemma {:induction false} DigitsAtEnd(front: string, digits: string)
    requires front != "" && !IsDigit(front[|front| - 1]) && AllDigits(digits)
    ensures TrailingDigits(front + digits) == digits
  {
    if digits == "" {
      assert front + digits == front;
    } else {
      var n := |digits| - 1;
      assert IsDigit(digits[n]);
      assert (front + digits)[..|front| + n] == front + digits[..n];
      DigitsAtEnd(front, digits[..n]);
    }
  }
}
