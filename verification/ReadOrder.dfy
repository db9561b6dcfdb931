/** The order in which the copies of a blob are tried by a read. */
module ReadOrder {
  import opened Basics
  import opened PlacementRows

  /** Read preference: a smaller score is tried earlier; None never serves. */
  function Score(row: Row): Option<nat> {
    var roleBonus := if row.role == Primary then 0 else 1;
    match row.status
    case Active => Some(roleBonus)
    case Modified => Some(4 + roleBonus)
    case _ => None
  }

  function Servable(rows: seq<Row>): seq<Row> {
    if rows == [] then []
    else if Score(rows[0]).Some? then [rows[0]] + Servable(rows[1..])
    else Servable(rows[1..])
  }

  /** Insertion that puts x before every element with the same or a larger score. */
  function InsertByScore(x: Row, sorted: seq<Row>): seq<Row>
    requires Score(x).Some? && forall r <- sorted :: Score(r).Some?
  {
    if sorted == [] then [x]
    else if Score(x).value <= Score(sorted[0]).value then [x] + sorted
    else [sorted[0]] + InsertByScore(x, sorted[1..])
  }

  lemma {:induction false} InsertKeepsScores(x: Row, sorted: seq<Row>)
    requires Score(x).Some? && forall r <- sorted :: Score(r).Some?
    ensures multiset(InsertByScore(x, sorted)) == multiset{x} + multiset(sorted)
    ensures forall r <- InsertByScore(x, sorted) :: Score(r).Some?
  {
    if sorted != [] {
      assert sorted == [sorted[0]] + sorted[1..];
      if Score(x).value > Score(sorted[0]).value {
        InsertKeepsScores(x, sorted[1..]);
      }
    }
    forall r | r in InsertByScore(x, sorted) ensures Score(r).Some? {
      assert r in multiset(InsertByScore(x, sorted));
    }
  }

  /** A stable sort by score. */
  function SortByScore(rows: seq<Row>): (sorted: seq<Row>)
    requires forall r <- rows :: Score(r).Some?
    ensures forall r <- sorted :: Score(r).Some?
  {
    if rows == [] then []
    else
      var rest := SortByScore(rows[1..]);
      InsertKeepsScores(rows[0], rest);
      InsertByScore(rows[0], rest)
  }

  lemma ServableOnly(rows: seq<Row>)
    ensures forall r <- Servable(rows) :: Score(r).Some? && r in rows
  {
  }

  /** Filter to servable rows, then sort by score. */
  function OrderPlacementsForRead(rows: seq<Row>): seq<Row> {
    ServableOnly(rows);
    SortByScore(Servable(rows))
  }

  /** The rows of one score, in their given order. */
  function Tier(rows: seq<Row>, score: nat): seq<Row> {
    if rows == [] then []
    else if Score(rows[0]) == Some(score) then [rows[0]] + Tier(rows[1..], score)
    else Tier(rows[1..], score)
  }

  /** The documented order: ACTIVE primary, ACTIVE replica, MODIFIED primary, MODIFIED replica. */
  function DocumentedOrder(rows: seq<Row>): seq<Row> {
    Tier(rows, 0) + (Tier(rows, 1) + (Tier(rows, 4) + Tier(rows, 5)))
  }

  lemma TierScores(rows: seq<Row>, score: nat)
    ensures forall r <- Tier(rows, score) :: Score(r) == Some(score) && r in rows
  {
  }

  /** x may stand before every row of rest. */
  ghost predicate NoLater(x: Row, rest: seq<Row>) {
    Score(x).Some? && forall r <- rest :: Score(r).Some? && Score(x).value <= Score(r).value
  }

  ghost predicate Sorted(rows: seq<Row>) {
    rows == [] || (NoLater(rows[0], rows[1..]) && Sorted(rows[1..]))
  }

  lemma {:induction false} SortedScores(rows: seq<Row>)
    requires Sorted(rows)
    ensures forall r <- rows :: Score(r).Some?
  {
  }

  lemma TierOfCons(x: Row, rest: seq<Row>, score: nat)
    ensures Tier([x] + rest, score) == if Score(x) == Some(score) then [x] + Tier(rest, score) else Tier(rest, score)
  {
  }

  /** Insertion puts x first within its own tier. */
  lemma {:induction false} InsertIntoTier(x: Row, sorted: seq<Row>, score: nat)
    requires Score(x).Some? && forall r <- sorted :: Score(r).Some?
    ensures Tier(InsertByScore(x, sorted), score)
         == if Score(x) == Some(score) then [x] + Tier(sorted, score) else Tier(sorted, score)
  {
    if sorted != [] && Score(x).value > Score(sorted[0]).value {
      InsertIntoTier(x, sorted[1..], score);
      assert sorted == [sorted[0]] + sorted[1..];
      TierOfCons(sorted[0], sorted[1..], score);
      TierOfCons(sorted[0], InsertByScore(x, sorted[1..]), score);
    } else {
      TierOfCons(x, sorted, score);
    }
  }

  /** Insertion keeps the order. */
  lemma {:induction false} InsertIntoSorted(x: Row, sorted: seq<Row>)
    requires Score(x).Some? && Sorted(sorted) && forall r <- sorted :: Score(r).Some?
    ensures Sorted(InsertByScore(x, sorted))
  {
    if sorted != [] && Score(x).value > Score(sorted[0]).value {
      var y, rest := sorted[0], InsertByScore(x, sorted[1..]);
      InsertIntoSorted(x, sorted[1..]);
      InsertKeepsScores(x, sorted[1..]);
      forall r | r in rest ensures Score(y).value <= Score(r).value {
        assert r in multiset(rest);
        assert r == x || r in sorted[1..];
      }
    }
  }

  lemma {:induction false} SortIsStable(rows: seq<Row>, score: nat)
    requires forall r <- rows :: Score(r).Some?
    ensures Sorted(SortByScore(rows)) && Tier(SortByScore(rows), score) == Tier(rows, score)
  {
    if rows != [] {
      SortIsStable(rows[1..], score);
      SortedScores(SortByScore(rows[1..]));
      InsertIntoSorted(rows[0], SortByScore(rows[1..]));
      InsertIntoTier(rows[0], SortByScore(rows[1..]), score);
    }
  }

  lemma NoSmallerTier(rows: seq<Row>, score: nat)
    requires forall r <- rows :: Score(r).Some? && score < Score(r).value
    ensures Tier(rows, score) == []
  {
  }

  /** x in front of four groups belongs to the first one that may be preceded by nothing. */
  lemma InFront(x: Row, a: seq<Row>, b: seq<Row>, c: seq<Row>, d: seq<Row>)
    ensures [x] + (a + (b + (c + d))) == ([x] + a) + (b + (c + d))
    ensures a == [] ==> [x] + (a + (b + (c + d))) == a + (([x] + b) + (c + d))
    ensures a == [] && b == [] ==> [x] + (a + (b + (c + d))) == a + (b + (([x] + c) + d))
    ensures a == [] && b == [] && c == [] ==> [x] + (a + (b + (c + d))) == a + (b + (c + ([x] + d)))
  {
    if a == [] {
      assert a + (b + (c + d)) == b + (c + d);
      if b == [] {
        assert b + (c + d) == c + d;
      }
    }
  }

  lemma NoTierBefore(x: Row, rest: seq<Row>, score: nat)
    requires NoLater(x, rest)
    ensures Score(x).value > score ==> Tier(rest, score) == []
  {
    if Score(x).value > score {
      NoSmallerTier(rest, score);
    }
  }

  /** A sorted list is the concatenation of its tiers. */
  lemma {:induction false} SortedIsTiered(rows: seq<Row>)
    requires Sorted(rows)
    ensures rows == DocumentedOrder(rows)
  {
    if rows != [] {
      var x, tail := rows[0], rows[1..];
      SortedIsTiered(tail);
      assert rows == [x] + tail && Score(x).value in {0, 1, 4, 5};
      NoTierBefore(x, tail, 0);
      NoTierBefore(x, tail, 1);
      NoTierBefore(x, tail, 4);
      TierOfCons(x, tail, 0);
      TierOfCons(x, tail, 1);
      TierOfCons(x, tail, 4);
      TierOfCons(x, tail, 5);
      hide Tier, Sorted, Score;
      InFront(x, Tier(tail, 0), Tier(tail, 1), Tier(tail, 4), Tier(tail, 5));
    }
  }

  lemma {:induction false} TierOfServable(rows: seq<Row>, score: nat)
    ensures Tier(Servable(rows), score) == Tier(rows, score)
  {
    if rows != [] {
      TierOfServable(rows[1..], score);
      if Score(rows[0]).Some? {
        assert Servable(rows)[1..] == Servable(rows[1..]);
      }
    }
  }

  /** The filter-and-sort is exactly the documented order, ties in their given order. */
  lemma ReadOrderIsDocumented(rows: seq<Row>)
    ensures OrderPlacementsForRead(rows) == DocumentedOrder(rows)
  {
    ServableOnly(rows);
    forall score: nat ensures Tier(OrderPlacementsForRead(rows), score) == Tier(rows, score) {
      SortIsStable(Servable(rows), score);
      TierOfServable(rows, score);
    }
    SortIsStable(Servable(rows), 0);
    SortedIsTiered(OrderPlacementsForRead(rows));
    SortIsStable(Servable(rows), 0);
  }

  lemma {:induction false} TierComplete(rows: seq<Row>, r: Row)
    requires r in rows && Score(r).Some?
    ensures r in Tier(rows, Score(r).value)
  {
    if r != rows[0] {
      TierComplete(rows[1..], r);
    }
  }

  /** Exactly the readable rows are candidates: PENDING, MISSING and DELETING never serve. */
  lemma ReadOrderServesReadable(rows: seq<Row>, r: Row)
    ensures r in OrderPlacementsForRead(rows) <==> r in rows && r.Readable()
  {
    ReadOrderIsDocumented(rows);
    TierScores(rows, 0); TierScores(rows, 1); TierScores(rows, 4); TierScores(rows, 5);
    if r in rows && r.Readable() {
      TierComplete(rows, r);
    }
  }
}
