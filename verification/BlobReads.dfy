/** Fail-over reads: the first readable copy serves, copies found to be gone are parked. */
module BlobReads {
  import opened Basics
  import opened PlacementRows
  import opened ReadOrder

  /** What a provider answers to one get. */
  datatype Answer = Got(bytes: Bytes) | NotFound | Failed

  /** Rows the read passed over as gone: the later conditional MISSING update is issued for each. */
  function Parked(candidates: seq<Row>, get: Row -> Answer): seq<RowId> {
    if candidates == [] then []
    else if get(candidates[0]).NotFound? then [candidates[0].id] + Parked(candidates[1..], get)
    else Parked(candidates[1..], get)
  }

  /** The first `tried` candidates failed; the next one served, or there was none left. */
  ghost predicate ServedAt(candidates: seq<Row>, get: Row -> Answer, tried: nat, result: Result<Bytes, Answer>) {
    && tried <= |candidates|
    && (forall j :: 0 <= j < tried ==> !get(candidates[j]).Got?)
    && (tried < |candidates| ==> get(candidates[tried]).Got? && result == Ok(get(candidates[tried]).bytes))
    && (tried == |candidates| > 0 ==> result == Err(get(candidates[tried - 1])))
  }

  lemma ParkedSnoc(candidates: seq<Row>, get: Row -> Answer, k: nat)
    requires k < |candidates|
    ensures Parked(candidates[..k + 1], get)
         == Parked(candidates[..k], get) + (if get(candidates[k]).NotFound? then [candidates[k].id] else [])
  {
    if k == 0 {
      assert candidates[..1] == [candidates[0]];
    } else {
      assert candidates[..k + 1][1..] == candidates[1..][..k];
      assert candidates[..k][1..] == candidates[1..][..k - 1];
      ParkedSnoc(candidates[1..], get, k - 1);
    }
  }

  /**
   Tries the candidates in order. With no candidate at all the legacy mirror
   coordinates of the blob record are the only source.
   */
  method ReadBlobBytes(rows: seq<Row>, get: Row -> Answer, legacyMirror: Answer)
    returns (result: Result<Bytes, Answer>, parked: seq<RowId>, tried: nat)
    ensures ServedAt(DocumentedOrder(rows), get, tried, result)
    ensures parked == Parked(DocumentedOrder(rows)[..tried], get)
    ensures DocumentedOrder(rows) == []
      ==> result == if legacyMirror.Got? then Ok(legacyMirror.bytes) else Err(legacyMirror)
  {
    var candidates := OrderPlacementsForRead(rows);
    ReadOrderIsDocumented(rows);
    var lastError := Failed;
    parked := [];
    tried := 0;
    while tried < |candidates|
      invariant tried <= |candidates|
      invariant parked == Parked(candidates[..tried], get)
      invariant forall j :: 0 <= j < tried ==> !get(candidates[j]).Got?
      invariant tried > 0 ==> lastError == get(candidates[tried - 1])
    {
      var answer := get(candidates[tried]);
      if answer.Got? {
        return Ok(answer.bytes), parked, tried;
      }
      lastError := answer;
      ParkedSnoc(candidates, get, tried);
      if answer.NotFound? {
        parked := parked + [candidates[tried].id];
      }
      tried := tried + 1;
    }
    if |candidates| > 0 {
      return Err(lastError), parked, tried;
    }
    result := if legacyMirror.Got? then Ok(legacyMirror.bytes) else Err(legacyMirror);
  }

  /** A blob with a readable row is unreadable exactly when every readable row's provider fails. */
  lemma FailsOnlyWhenEveryCopyFails(rows: seq<Row>, get: Row -> Answer, tried: nat, result: Result<Bytes, Answer>)
    requires ServedAt(DocumentedOrder(rows), get, tried, result)
    requires exists r :: r in rows && r.Readable()
    ensures result.Err? <==> forall r <- rows :: r.Readable() ==> !get(r).Got?
  {
    var candidates := DocumentedOrder(rows);
    ReadOrderIsDocumented(rows);
    forall r ensures r in candidates <==> r in rows && r.Readable() {
      ReadOrderServesReadable(rows, r);
    }
    if tried < |candidates| {
      assert candidates[tried] in candidates;
    }
  }

  /** An ACTIVE copy that answers is never beaten by a MODIFIED one. */
  lemma ActiveServesBeforeModified(rows: seq<Row>, i: nat, j: nat)
    requires i < j < |DocumentedOrder(rows)|
    ensures DocumentedOrder(rows)[j].status == Active ==> DocumentedOrder(rows)[i].status == Active
    ensures DocumentedOrder(rows)[j].status == DocumentedOrder(rows)[i].status
      && DocumentedOrder(rows)[j].role == Primary
      ==> DocumentedOrder(rows)[i].role == Primary
  {
    ReadOrderIsDocumented(rows);
    ServableOnly(rows);
    SortIsStable(Servable(rows), 0);
    SortedPairs(DocumentedOrder(rows), i, j);
  }

  lemma {:induction false} SortedPairs(rows: seq<Row>, i: nat, j: nat)
    requires Sorted(rows) && i < j < |rows|
    ensures Score(rows[i]).Some? && Score(rows[j]).Some? && Score(rows[i]).value <= Score(rows[j]).value
  {
    if i > 0 {
      SortedPairs(rows[1..], i - 1, j - 1);
    } else {
      assert rows[j] in rows[1..];
    }
  }
}
