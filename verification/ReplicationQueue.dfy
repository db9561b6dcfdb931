/** The replication queue: sweeps, retry backoff, and how fast the queue drains. */
module ReplicationQueue {
  import opened Basics
  import opened PlacementRows

  const MAX_ATTEMPTS := 8
  const SWEEP_BATCH_SIZE := 50
  const BACKOFF_CAP_MS := 21_600_000

  datatype Entry = Entry(id: RowId, status: Status, attempts: nat, nextAttemptAt: Option<nat>)
  {
    /** Queued with attempts left: due now or at some later time. */
    predicate Eligible() { (status == Pending || status == Missing) && attempts < MAX_ATTEMPTS }

    predicate Due(now: nat) { Eligible() && (nextAttemptAt.None? || nextAttemptAt.value <= now) }
  }

  function Pow2(n: nat): nat { if n == 0 then 1 else 2 * Pow2(n - 1) }

  function BackoffMs(attempts: nat): nat { Min(Pow2(attempts) * 30_000, BACKOFF_CAP_MS) }

  /** What one processPlacement call leaves of the row. */
  function Processed(e: Entry, now: nat, ok: bool): Entry {
    if ok then e.(status := Active, attempts := 0, nextAttemptAt := None)
    else e.(attempts := e.attempts + 1, nextAttemptAt := Some(now + BackoffMs(e.attempts + 1)))
  }

  type Outcomes = RowId -> bool

  /** The table (in createdAt order) after its first `budget` due rows were processed. */
  function Sweep(table: seq<Entry>, now: nat, budget: nat, ok: Outcomes): seq<Entry> {
    if table == [] || budget == 0 then table
    else if table[0].Due(now)
    then [Processed(table[0], now, ok(table[0].id))] + Sweep(table[1..], now, budget - 1, ok)
    else [table[0]] + Sweep(table[1..], now, budget, ok)
  }

  /** How many rows such a sweep processes. */
  function Touched(table: seq<Entry>, now: nat, budget: nat): nat {
    if table == [] || budget == 0 then 0
    else if table[0].Due(now) then 1 + Touched(table[1..], now, budget - 1)
    else Touched(table[1..], now, budget)
  }

  /** How many of the processed rows become ACTIVE. */
  function Activations(table: seq<Entry>, now: nat, budget: nat, ok: Outcomes): nat {
    if table == [] || budget == 0 then 0
    else if table[0].Due(now) then (if ok(table[0].id) then 1 else 0) + Activations(table[1..], now, budget - 1, ok)
    else Activations(table[1..], now, budget, ok)
  }

  // ------------------------------------------------------------ the sweep loop

  /** Positions of the first `budget` due rows, counted from `base`. */
  function DuePositions(table: seq<Entry>, now: nat, budget: nat, base: nat): seq<nat> {
    if table == [] || budget == 0 then []
    else if table[0].Due(now) then [base] + DuePositions(table[1..], now, budget - 1, base + 1)
    else DuePositions(table[1..], now, budget, base + 1)
  }

  lemma PositionsBounds(table: seq<Entry>, now: nat, budget: nat, base: nat)
    ensures var d := DuePositions(table, now, budget, base);
      && |d| == Touched(table, now, budget) <= budget
      && forall k :: 0 <= k < |d| ==> base <= d[k] < base + |table| && table[d[k] - base].Due(now)
  {
  }

  lemma UpdateBehind(x: Entry, rest: seq<Entry>, i: nat, y: Entry)
    requires i < |rest|
    ensures ([x] + rest)[i + 1 := y] == [x] + rest[i := y]
  {
  }

  /** One more unit of budget processes exactly the next due row, at position p. */
  lemma {:induction false} OneMore(table: seq<Entry>, now: nat, budget: nat, k: nat, base: nat, ok: Outcomes, p: nat)
    requires k < budget && k < |DuePositions(table, now, budget, base)|
      && base + p == DuePositions(table, now, budget, base)[k]
    ensures |Sweep(table, now, k, ok)| == |table| && p < |table| && Sweep(table, now, k, ok)[p] == table[p]
    ensures Sweep(table, now, k + 1, ok) == Sweep(table, now, k, ok)[p := Processed(table[p], now, ok(table[p].id))]
    ensures Activations(table, now, k + 1, ok) == Activations(table, now, k, ok) + (if ok(table[p].id) then 1 else 0)
  {
    var rest := table[1..];
    if table[0].Due(now) && k == 0 {
      assert Sweep(rest, now, 0, ok) == rest && Activations(rest, now, 0, ok) == 0;
      assert table == [table[0]] + rest;
    } else {
      var spent := if table[0].Due(now) then 1 else 0;
      NextPosition(table, now, budget, k, base, p);
      hide DuePositions, Sweep, Activations;
      OneMore(rest, now, budget - spent, k - spent, base + 1, ok, p - 1);
      var x := if table[0].Due(now) then Processed(table[0], now, ok(table[0].id)) else table[0];
      NextSweep(table, now, k, ok);
      NextSweep(table, now, k + 1, ok);
      UpdateBehind(x, Sweep(rest, now, k - spent, ok), p - 1, Processed(rest[p - 1], now, ok(rest[p - 1].id)));
    }
  }

  /** Behind the head the k-th due position is the next one of the rest. */
  lemma NextPosition(table: seq<Entry>, now: nat, budget: nat, k: nat, base: nat, p: nat)
    requires k < budget && k < |DuePositions(table, now, budget, base)|
      && base + p == DuePositions(table, now, budget, base)[k]
    requires table != [] && (table[0].Due(now) ==> k > 0)
    ensures var spent, rest := if table[0].Due(now) then 1 else 0, table[1..];
      && p > 0 && k - spent < |DuePositions(rest, now, budget - spent, base + 1)|
      && base + p == DuePositions(rest, now, budget - spent, base + 1)[k - spent]
  {
    PositionsBounds(table[1..], now, budget - (if table[0].Due(now) then 1 else 0), base + 1);
  }

  lemma NextSweep(table: seq<Entry>, now: nat, k: nat, ok: Outcomes)
    requires table != [] && (table[0].Due(now) ==> k > 0)
    ensures var spent := if table[0].Due(now) then 1 else 0;
      var x := if table[0].Due(now) then Processed(table[0], now, ok(table[0].id)) else table[0];
      && Sweep(table, now, k, ok) == [x] + Sweep(table[1..], now, k - spent, ok)
      && Activations(table, now, k, ok)
         == (if spent == 1 && ok(table[0].id) then 1 else 0) + Activations(table[1..], now, k - spent, ok)
  {
  }

  lemma BudgetBeyondDue(table: seq<Entry>, now: nat, budget: nat, ok: Outcomes)
    ensures Sweep(table, now, Touched(table, now, budget), ok) == Sweep(table, now, budget, ok)
    ensures Activations(table, now, Touched(table, now, budget), ok) == Activations(table, now, budget, ok)
  {
  }

  class Queue {
    /** Placement rows in createdAt order. */
    var table: seq<Entry>

    constructor (table: seq<Entry>)
      ensures this.table == table
    {
      this.table := table;
    }

    /** The due rows a sweep fetches: oldest first, at most one batch. */
    method FetchDue(now: nat) returns (due: seq<nat>)
      ensures due == DuePositions(table, now, SWEEP_BATCH_SIZE, 0)
    {
      due := [];
      var i := 0;
      while i < |table| && |due| < SWEEP_BATCH_SIZE
        invariant i <= |table| && |due| <= SWEEP_BATCH_SIZE
        invariant DuePositions(table, now, SWEEP_BATCH_SIZE, 0)
               == due + DuePositions(table[i..], now, SWEEP_BATCH_SIZE - |due|, i)
      {
        if table[i].Due(now) {
          due := due + [i];
        }
        i := i + 1;
      }
    }

    /**
     One sweep. Workers claim the fetched rows one by one through a shared cursor;
     `ok` says which of the copies can be written.
     */
    method RunSweep(now: nat, ok: Outcomes) returns (activated: nat)
      modifies this
      ensures table == Sweep(old(table), now, SWEEP_BATCH_SIZE, ok)
      ensures activated == Activations(old(table), now, SWEEP_BATCH_SIZE, ok)
    {
      var due := FetchDue(now);
      ghost var start := table;
      PositionsBounds(start, now, SWEEP_BATCH_SIZE, 0);
      activated := 0;
      var cursor := 0;
      while cursor < |due|
        invariant 0 <= cursor <= |due|
        invariant table == Sweep(start, now, cursor, ok) && |table| == |start|
        invariant activated == Activations(start, now, cursor, ok)
      {
        var index := due[cursor];
        OneMore(start, now, SWEEP_BATCH_SIZE, cursor, 0, ok, index);
        var row := table[index];
        table := table[index := Processed(row, now, ok(row.id))];
        if ok(row.id) {
          activated := activated + 1;
        }
        cursor := cursor + 1;
      }
      BudgetBeyondDue(start, now, SWEEP_BATCH_SIZE, ok);
    }
  }

  // ----------------------------------------------------------- draining the queue

  datatype SweepEvent = SweepEvent(now: nat, ok: Outcomes)

  function Sweeps(table: seq<Entry>, events: seq<SweepEvent>): seq<Entry>
    decreases |events|
  {
    if events == [] then table
    else Sweeps(Sweep(table, events[0].now, SWEEP_BATCH_SIZE, events[0].ok), events[1..])
  }

  function TotalTouched(table: seq<Entry>, events: seq<SweepEvent>): nat
    decreases |events|
  {
    if events == [] then 0 else
      var after := Sweep(table, events[0].now, SWEEP_BATCH_SIZE, events[0].ok);
      Touched(table, events[0].now, SWEEP_BATCH_SIZE) + TotalTouched(after, events[1..])
  }

  /** The rows that are due at time `last`. */
  function DueCount(table: seq<Entry>, last: nat): nat {
    if table == [] then 0 else (if table[0].Due(last) then 1 else 0) + DueCount(table[1..], last)
  }

  ghost predicate FaultFree(events: seq<SweepEvent>) {
    forall i, r :: 0 <= i < |events| ==> events[i].ok(r)
  }

  predicate Monotone(events: seq<SweepEvent>) {
    forall i, j :: 0 <= i < j < |events| ==> events[i].now <= events[j].now
  }

  /** A fault-free sweep activates a due row, or a whole budget of rows before it that are due by time `last`. */
  lemma {:induction false} SweepProgress(table: seq<Entry>, now: nat, budget: nat, ok: Outcomes, p: nat, last: nat)
    requires p < |table| && table[p].Due(now) && now <= last && forall r :: ok(r)
    ensures |Sweep(table, now, budget, ok)| == |table|
    ensures var after := Sweep(table, now, budget, ok);
      || after[p].status == Active
      || (after[p] == table[p] && DueCount(after[..p], last) + budget <= DueCount(table[..p], last))
  {
    SweepLength(table, now, budget, ok);
    var after := Sweep(table, now, budget, ok);
    if budget > 0 && p > 0 {
      var spent := if table[0].Due(now) then 1 else 0;
      SweepProgress(table[1..], now, budget - spent, ok, p - 1, last);
      assert table[..p][1..] == table[1..][..p - 1];
      assert after[1..] == Sweep(table[1..], now, budget - spent, ok);
      assert after[..p][1..] == after[1..][..p - 1];
    }
  }

  lemma SweepLength(table: seq<Entry>, now: nat, budget: nat, ok: Outcomes)
    ensures |Sweep(table, now, budget, ok)| == |table|
  {
  }

  lemma {:induction false} ActiveStays(table: seq<Entry>, events: seq<SweepEvent>, p: nat)
    requires p < |table| && table[p].status == Active
    ensures |Sweeps(table, events)| == |table| && Sweeps(table, events)[p] == table[p]
    decreases |events|
  {
    if events != [] {
      SweepLength(table, events[0].now, SWEEP_BATCH_SIZE, events[0].ok);
      NotDueStays(table, events[0].now, SWEEP_BATCH_SIZE, events[0].ok, p);
      ActiveStays(Sweep(table, events[0].now, SWEEP_BATCH_SIZE, events[0].ok), events[1..], p);
    }
  }

  lemma {:induction false} NotDueStays(table: seq<Entry>, now: nat, budget: nat, ok: Outcomes, p: nat)
    requires p < |table| && !table[p].Due(now)
    ensures p < |Sweep(table, now, budget, ok)| && Sweep(table, now, budget, ok)[p] == table[p]
  {
    if budget > 0 && p > 0 {
      NotDueStays(table[1..], now, if table[0].Due(now) then budget - 1 else budget, ok, p - 1);
    }
  }

  function LastTime(events: seq<SweepEvent>): nat
    requires events != []
  {
    events[|events| - 1].now
  }

  /**
   Bounded waiting: a due row with k rows before it that are due by the last of m fault-free
   sweeps is ACTIVE after them if 50 m > k, even when older rows become due in between.
   */
  lemma {:induction false} DueRowIsActivated(table: seq<Entry>, events: seq<SweepEvent>, p: nat)
    requires p < |table| && FaultFree(events) && Monotone(events)
    requires events != [] && table[p].Due(events[0].now)
    requires SWEEP_BATCH_SIZE * |events| > DueCount(table[..p], LastTime(events))
    ensures |Sweeps(table, events)| == |table| && Sweeps(table, events)[p].status == Active
    decreases |events|
  {
    var first, rest, last := events[0], events[1..], LastTime(events);
    var after := Sweep(table, first.now, SWEEP_BATCH_SIZE, first.ok);
    assert forall r :: first.ok(r);
    assert first.now <= last;
    SweepProgress(table, first.now, SWEEP_BATCH_SIZE, first.ok, p, last);
    if after[p].status == Active {
      ActiveStays(after, rest, p);
    } else {
      assert rest != [];
      assert first.now <= rest[0].now && LastTime(rest) == last;
      DueRowIsActivated(after, rest, p);
    }
  }

  lemma {:induction false} PrefixCount(table: seq<Entry>, p: nat, last: nat)
    requires p < |table| && table[p].Due(last)
    ensures DueCount(table[..p], last) + 1 <= DueCount(table, last)
  {
    if p > 0 {
      PrefixCount(table[1..], p - 1, last);
      assert table[..p][1..] == table[1..][..p - 1];
    }
  }

  /** n rows due by the last of ceil(n / 50) fault-free sweeps: those due at the first one are all ACTIVE. */
  lemma {:induction false} QueueDrains(table: seq<Entry>, events: seq<SweepEvent>, p: nat)
    requires p < |table| && FaultFree(events) && Monotone(events) && events != [] && table[p].Due(events[0].now)
    requires |events| == (DueCount(table, LastTime(events)) + SWEEP_BATCH_SIZE - 1) / SWEEP_BATCH_SIZE
    ensures |Sweeps(table, events)| == |table| && Sweeps(table, events)[p].status == Active
  {
    assert events[0].now <= LastTime(events);
    PrefixCount(table, p, LastTime(events));
    DueRowIsActivated(table, events, p);
  }

  /** A failed row is left alone until its backoff is over, and then tried again unless it was its eighth attempt. */
  lemma FailedRowWaits(e: Entry, now: nat, later: nat)
    requires e.Due(now)
    ensures Processed(e, now, false).Due(later)
      <==> e.attempts + 1 < MAX_ATTEMPTS && later >= now + Pow2(e.attempts + 1) * 30_000
  {
    CapReachedIff(e.attempts + 1);
  }

  /** So no sweep before that time touches it, wherever it stands in the table. */
  lemma {:induction false} SweepsSkipWaitingRow(table: seq<Entry>, events: seq<SweepEvent>, p: nat, until: nat)
    requires p < |table| && table[p].nextAttemptAt.Some? && table[p].nextAttemptAt.value >= until
    requires forall i :: 0 <= i < |events| ==> events[i].now < until
    ensures |Sweeps(table, events)| == |table| && Sweeps(table, events)[p] == table[p]
    decreases |events|
  {
    if events != [] {
      SweepLength(table, events[0].now, SWEEP_BATCH_SIZE, events[0].ok);
      NotDueStays(table, events[0].now, SWEEP_BATCH_SIZE, events[0].ok, p);
      SweepsSkipWaitingRow(Sweep(table, events[0].now, SWEEP_BATCH_SIZE, events[0].ok), events[1..], p, until);
    }
  }

  /** A row whose copy was written leaves the queue with a clean record; a failed one stays what it was. */
  lemma ProcessedRow(e: Entry, now: nat, ok: bool)
    ensures Processed(e, now, ok).id == e.id && (Processed(e, now, ok).status == Active <==> ok || e.status == Active)
    ensures ok ==> Processed(e, now, ok).attempts == 0 && Processed(e, now, ok).nextAttemptAt == None
    ensures !ok ==> Processed(e, now, ok).status == e.status && Processed(e, now, ok).attempts == e.attempts + 1
  {
  }

  // ------------------------------------------------------- retries are bounded

  /** Attempts the queue may still spend. */
  function AttemptsLeft(table: seq<Entry>): nat {
    if table == [] then 0
    else (if table[0].Eligible() then MAX_ATTEMPTS - table[0].attempts else 0) + AttemptsLeft(table[1..])
  }

  lemma {:induction false} SweepSpends(table: seq<Entry>, now: nat, budget: nat, ok: Outcomes)
    ensures AttemptsLeft(Sweep(table, now, budget, ok)) + Touched(table, now, budget) <= AttemptsLeft(table)
  {
    if table != [] && budget > 0 {
      SweepSpends(table[1..], now, if table[0].Due(now) then budget - 1 else budget, ok);
      var after := Sweep(table, now, budget, ok);
      assert after[1..] == Sweep(table[1..], now, if table[0].Due(now) then budget - 1 else budget, ok);
    }
  }

  /** Whatever fails, all further sweeps together process at most the attempts left at the start. */
  lemma {:induction false} SweepsAreBounded(table: seq<Entry>, events: seq<SweepEvent>)
    ensures AttemptsLeft(Sweeps(table, events)) + TotalTouched(table, events) <= AttemptsLeft(table)
    decreases |events|
  {
    if events != [] {
      SweepSpends(table, events[0].now, SWEEP_BATCH_SIZE, events[0].ok);
      SweepsAreBounded(Sweep(table, events[0].now, SWEEP_BATCH_SIZE, events[0].ok), events[1..]);
    }
  }

  /** Whatever fails, a sweep processes a due row, or spends a whole budget of attempts on rows before it. */
  lemma {:induction false} SweepSpendsBefore(table: seq<Entry>, now: nat, budget: nat, ok: Outcomes, p: nat)
    requires p < |table| && table[p].Due(now)
    ensures |Sweep(table, now, budget, ok)| == |table|
    ensures var after := Sweep(table, now, budget, ok);
      || after[p] == Processed(table[p], now, ok(table[p].id))
      || (after[p] == table[p] && AttemptsLeft(after[..p]) + budget <= AttemptsLeft(table[..p]))
  {
    SweepLength(table, now, budget, ok);
    var after := Sweep(table, now, budget, ok);
    if budget > 0 && p > 0 {
      var spent := if table[0].Due(now) then 1 else 0;
      SweepSpendsBefore(table[1..], now, budget - spent, ok, p - 1);
      assert table[..p][1..] == table[1..][..p - 1];
      assert after[1..] == Sweep(table[1..], now, budget - spent, ok);
      assert after[..p][1..] == after[1..][..p - 1];
    }
  }

  /**
   A due row whose own copy can be written is ACTIVE after m sweeps if 50 m exceeds the attempts
   left to the rows before it, however many of those fail and come back.
   */
  lemma {:induction false} WritableRowIsActivated(table: seq<Entry>, events: seq<SweepEvent>, p: nat)
    requires p < |table| && Monotone(events) && forall i :: 0 <= i < |events| ==> events[i].ok(table[p].id)
    requires events != [] && table[p].Due(events[0].now)
    requires SWEEP_BATCH_SIZE * |events| > AttemptsLeft(table[..p])
    ensures |Sweeps(table, events)| == |table| && Sweeps(table, events)[p].status == Active
    decreases |events|
  {
    var first, rest := events[0], events[1..];
    var after := Sweep(table, first.now, SWEEP_BATCH_SIZE, first.ok);
    SweepSpendsBefore(table, first.now, SWEEP_BATCH_SIZE, first.ok, p);
    if after[p].status == Active {
      ActiveStays(after, rest, p);
    } else {
      assert rest != [];
      assert first.now <= rest[0].now;
      WritableRowIsActivated(after, rest, p);
    }
  }

  lemma Pow2Monotone(a: nat, b: nat)
    requires a <= b
    ensures 1 <= Pow2(a) <= Pow2(b)
    decreases b
  {
    if a < b {
      Pow2Monotone(a, b - 1);
    }
  }

  /** The six-hour cap is in effect from the tenth failure on. */
  lemma {:induction false} CapReachedIff(attempts: nat)
    ensures BackoffMs(attempts) == BACKOFF_CAP_MS <==> attempts >= 10
    ensures attempts < 10 ==> BackoffMs(attempts) == Pow2(attempts) * 30_000 < BACKOFF_CAP_MS
  {
    assert Pow2(9) == 512 && Pow2(10) == 1024 by {
      assert Pow2(3) == 8;
      assert Pow2(6) == 64;
      assert Pow2(9) == 512;
    }
    if attempts < 10 {
      Pow2Monotone(attempts, 9);
    } else {
      Pow2Monotone(10, attempts);
    }
  }

  /** So a swept row, which has fewer than 8 attempts, never waits the capped time. */
  lemma {:induction false} SweptRowNeverCapped(e: Entry, now: nat)
    requires e.Due(now)
    ensures Processed(e, now, false).nextAttemptAt == Some(now + Pow2(e.attempts + 1) * 30_000)
    ensures Processed(e, now, false).nextAttemptAt.value < now + BACKOFF_CAP_MS
  {
    CapReachedIff(e.attempts + 1);
  }
}
