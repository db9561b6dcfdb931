/** Where the outcome of a queue entry comes from: one sweep worker, run through the placement protocol. */
module SweepOutcomes {
  import opened Basics
  import opened PlacementRows
  import opened ReadOrder
  import opened Placement
  import opened PlacementInvariant
  import opened PlacementEffects
  import ReplicationQueue

  /** What the sources of a worker answer; a source without coordinates never does. */
  function Answer(source: Option<Handle>, get: Handle -> Option<Bytes>): Option<Bytes> {
    if source.Some? then get(source.value) else None
  }

  function FirstAnswer(sources: seq<Option<Handle>>, get: Handle -> Option<Bytes>): Option<Bytes> {
    if sources == [] then None
    else if Answer(sources[0], get).Some? then Answer(sources[0], get)
    else FirstAnswer(sources[1..], get)
  }

  /** The first source that answers decides: its bytes match the stored hash, or the attempt fails. */
  predicate Readable(sources: seq<Option<Handle>>, get: Handle -> Option<Bytes>, hash: Digest) {
    FirstAnswer(sources, get).Some? && Sha256(FirstAnswer(sources, get).value) == hash
  }

  function PhaseAfterReads(sources: seq<Option<Handle>>, get: Handle -> Option<Bytes>, hash: Digest): Phase {
    if Readable(sources, get, hash) then Dropping(FirstAnswer(sources, get).value) else Failing
  }

  lemma {:induction false} ReadsEnd(s: State, w: WorkerId, get: Handle -> Option<Bytes>) returns (run: seq<Step>)
    requires w in s.workers && s.workers[w].phase.Reading?
    ensures Valid(s, run)
    ensures var phase := PhaseAfterReads(s.workers[w].phase.sources, get, s.workers[w].hash);
      Final(s, run) == SetPhase(s, w, phase)
    decreases |s.workers[w].phase.sources|
  {
    var sources := s.workers[w].phase.sources;
    var answer := if sources == [] then None else Answer(sources[0], get);
    var t := TryRead(s, w, answer);
    assert Enabled(s, ReadSource(w, answer)) && Apply(s, ReadSource(w, answer)) == t;
    ReadOnce(s, w, get);
    hide Enabled, Apply, TryRead;
    var rest: seq<Step> := [];
    if sources != [] && answer.None? {
      rest := ReadsEnd(t, w, get);
      SetPhaseTwice(s, w, Reading(sources[1..]), PhaseAfterReads(sources, get, s.workers[w].hash));
    }
    run := [ReadSource(w, answer)] + rest;
    assert run[1..] == rest;
  }

  /** One get: the phase it leads to is the last one, or the next source's turn. */
  lemma ReadOnce(s: State, w: WorkerId, get: Handle -> Option<Bytes>)
    requires w in s.workers && s.workers[w].phase.Reading?
    ensures var sources, hash := s.workers[w].phase.sources, s.workers[w].hash;
      var answer := if sources == [] then None else Answer(sources[0], get);
      && (sources == [] || answer.Some? ==>
        TryRead(s, w, answer) == SetPhase(s, w, PhaseAfterReads(sources, get, hash)))
      && (sources != [] && answer.None? ==>
        && TryRead(s, w, answer) == SetPhase(s, w, Reading(sources[1..]))
        && PhaseAfterReads(sources, get, hash) == PhaseAfterReads(sources[1..], get, hash))
  {
  }

  lemma SetPhaseTwice(s: State, w: WorkerId, a: Phase, b: Phase)
    requires w in s.workers
    ensures SetPhase(SetPhase(s, w, a), w, b) == SetPhase(s, w, b)
  {
    assert s.workers[w := s.workers[w].(phase := a)][w := s.workers[w].(phase := b)]
        == s.workers[w := s.workers[w].(phase := b)];
  }

  /** The failed attempt is counted and nothing else changes. */
  function Recorded(s: State, r: RowId): State
    requires r in s.rows
  {
    s.(rows := s.rows[r := s.rows[r].(attempts := s.rows[r].attempts + 1)])
  }

  lemma FailToEnd(s: State, t: State, w: WorkerId, r: RowId) returns (run: seq<Step>)
    requires r in s.rows && w !in s.workers && r !in s.inFlight && w in t.workers && t.workers[w].phase.Failing?
    requires t.workers[w].snap.id == r
    requires t == s.(workers := s.workers[w := t.workers[w]], inFlight := s.inFlight + {r})
    ensures Valid(t, run) && Final(t, run) == Recorded(s, r)
  {
    run := [RecordFailure(w, true)];
    var u := Apply(t, run[0]);
    assert u.workers == s.workers && u.inFlight == s.inFlight;
    assert run[1..] == [] && Valid(u, run[1..]) && Final(u, run[1..]) == u;
  }

  /**
   One uninterrupted sweep worker, whatever its sources answer: the row is replicated exactly if
   the first answer in read order, the legacy record last, matches the stored hash; otherwise
   the attempt is counted and every other part of the state is as before.
   */
  lemma SweepOutcome(s: State, w: WorkerId, r: RowId, siblings: seq<Row>, get: Handle -> Option<Bytes>)
    returns (run: seq<Step>)
    requires RowsOwn(s) && Enabled(s, Snapshot(w, r, None)) && r !in s.inFlight && SiblingList(s, siblings, s.rows[r])
    ensures Valid(s, run)
    ensures var transport := s.transports[s.rows[r].blob];
      var sources := Handles(OrderPlacementsForRead(siblings)) + [transport.Mirror()];
      if Readable(sources, get, transport.hash)
      then Replicated(s, Final(s, run), w, r, FirstAnswer(sources, get).value)
      else Final(s, run) == Recorded(s, r)
  {
    var transport := s.transports[s.rows[r].blob];
    var sources := Handles(OrderPlacementsForRead(siblings)) + [transport.Mirror()];
    var first := EnterAndList(s, w, r, siblings);
    var t := Final(s, first);
    assert s.rows[r].id == r && s.rows[r].Queued() && s.rows[r].blob in s.transports && w !in s.workers;
    hide RowsOwn, Enabled, Apply, SiblingList, OrderPlacementsForRead, Replicated, FirstAnswer, Handles, Valid, Final,
      Recorded;
    var rest := OutcomeOfReads(s, t, w, r, sources, get, transport.hash);
    Joined(s, first, rest);
    run := first + rest;
  }

  /** From the first read on, seen from the state s before the worker entered. */
  lemma OutcomeOfReads(
    s: State, t: State, w: WorkerId, r: RowId, sources: seq<Option<Handle>>, get: Handle -> Option<Bytes>, hash: Digest)
    returns (run: seq<Step>)
    requires r in s.rows && s.rows[r].id == r && s.rows[r].Queued() && s.rows[r].blob in s.transports
    requires w !in s.workers && r !in s.inFlight && w in t.workers && t.workers[w].snap == s.rows[r]
    requires t == s.(workers := s.workers[w := t.workers[w]], inFlight := s.inFlight + {r})
    requires t.workers[w].phase == Reading(sources) && t.workers[w].hash == hash
    ensures Valid(t, run)
    ensures if Readable(sources, get, hash)
      then Replicated(s, Final(t, run), w, r, FirstAnswer(sources, get).value)
      else Final(t, run) == Recorded(s, r)
  {
    hide Enabled, Apply, Replicated, FirstAnswer, Valid, Final, Recorded;
    var tries := ReadsEnd(t, w, get);
    var u := Final(t, tries);
    assert u.workers == s.workers[w := u.workers[w]];
    var last: seq<Step>;
    if Readable(sources, get, hash) {
      last := DropToEnd(u, w, r, FirstAnswer(sources, get).value);
      SameOutcome(s, u, Final(u, last), w, r, FirstAnswer(sources, get).value);
    } else {
      last := FailToEnd(s, u, w, r);
    }
    Joined(t, tries, last);
    run := tries + last;
  }

  predicate SameRow(row: Row, e: ReplicationQueue.Entry) {
    row.id == e.id && row.status == e.status && row.attempts == e.attempts
  }

  /** So the queue's entry moves as its sweep says, with the oracle's answer read off the sources. */
  lemma QueueFollowsProtocol(
    s: State, w: WorkerId, r: RowId, siblings: seq<Row>, get: Handle -> Option<Bytes>,
    e: ReplicationQueue.Entry, now: nat)
    returns (run: seq<Step>)
    requires RowsOwn(s) && Enabled(s, Snapshot(w, r, None)) && r !in s.inFlight && SiblingList(s, siblings, s.rows[r])
    requires SameRow(s.rows[r], e)
    ensures Valid(s, run) && r in Final(s, run).rows
    ensures var transport := s.transports[s.rows[r].blob];
      var sources := Handles(OrderPlacementsForRead(siblings)) + [transport.Mirror()];
      SameRow(Final(s, run).rows[r], ReplicationQueue.Processed(e, now, Readable(sources, get, transport.hash)))
  {
    run := SweepOutcome(s, w, r, siblings, get);
    assert r in s.rows && s.rows[r].blob in s.transports;
    hide Enabled, Apply, SiblingList, OrderPlacementsForRead, FirstAnswer, Valid, Final, RowsOwn;
  }
}
