/**
 The resumable upload: a pool of workers takes chunks from one iterator, each chunk
 is sent with retries, and a failed pass is repeated after asking the server which
 chunks it already holds.
 */
module ResumableUpload {
  import opened Basics
  import opened Chunker

  const CHUNK_MAX_ATTEMPTS := 4
  const RESUME_MAX_ATTEMPTS := 3

  datatype Worker =
    | Idle
    | Holding(index: nat)                 // took a chunk, nothing decided yet
    | Sending(index: nat, attempt: nat)   // about to PUT for the (attempt + 1)-th time in this pass
    | Ended                               // next() answered done
    | Broken(definitive: bool)

  datatype Phase = Running | Succeeded | GaveUp

  datatype State = State(
    sizes: seq<nat>,          // plaintext size of each chunk
    done: map<nat, bool>,     // doneChunks: whether the chunk's blob record is non-null
    serverHas: set<nat>,      // serverHasChunks
    stored: set<nat>,         // chunk rows on the server
    uploadedBytes: nat,
    uploadedBlobs: nat,
    pass: nat,
    pos: nat,                 // chunks the iterator has handed out in this pass
    iterDone: bool,           // the iterator threw or ran out: next() answers done from now on
    workers: seq<Worker>,
    phase: Phase,
    // history
    puts: seq<nat>,           // PUT requests sent for each chunk
    acked: set<nat>)          // chunks whose PUT was acknowledged to this client

  datatype PutOutcome = Acked | LostAck | Failed | Definitive

  datatype Step =
    | Take(worker: nat)
    | TakeThrows(worker: nat)
    | Decide(worker: nat)
    | Put(worker: nat, outcome: PutOutcome)
    | StoredLate(index: nat)
    | EndPass(statusKnown: bool)
    | Abort

  function Start(sizes: seq<nat>, concurrency: nat): State {
    State(sizes, map[], {}, {}, 0, 0, 1, 0, false, FreshWorkers(Min(concurrency, |sizes|)), Running,
      seq(|sizes|, _ => 0), {})
  }

  function FreshWorkers(n: int): seq<Worker>
    requires n >= 0
  {
    seq(n, _ => Idle)
  }

  function SetWorker(s: State, w: nat, worker: Worker): State
    requires w < |s.workers|
  {
    s.(workers := s.workers[w := worker])
  }

  /** doneChunks.set and the two progress counters. */
  function MarkDone(s: State, i: nat, record: bool): State
    requires i < |s.sizes|
  {
    s.(done := s.done[i := record], uploadedBytes := s.uploadedBytes + s.sizes[i], uploadedBlobs := s.uploadedBlobs + 1)
  }

  /** uploadChunk up to its first await: skip a done chunk, skip a stored one without a record, or send. */
  function Decided(s: State, w: nat): State
    requires w < |s.workers| && s.workers[w].Holding? && s.workers[w].index < |s.sizes|
  {
    var i := s.workers[w].index;
    if i in s.done then SetWorker(s, w, Idle)
    else if i in s.serverHas then SetWorker(MarkDone(s, i, false), w, Idle)
    else SetWorker(s, w, Sending(i, 0))
  }

  /** One attempt of withChunkRetry. */
  function Sent(s: State, w: nat, outcome: PutOutcome): State
    requires w < |s.workers| && s.workers[w].Sending? && s.workers[w].index < |s.sizes| == |s.puts|
  {
    var i, k := s.workers[w].index, s.workers[w].attempt;
    var t := s.(puts := s.puts[i := s.puts[i] + 1]);
    var landed := if outcome == Acked || outcome == LostAck then t.(stored := t.stored + {i}) else t;
    if outcome == Acked then SetWorker(MarkDone(landed, i, true).(acked := s.acked + {i}), w, Idle)
    else if outcome == Definitive then SetWorker(landed, w, Broken(true))
    else if k == CHUNK_MAX_ATTEMPTS - 1 then SetWorker(landed, w, Broken(false))
    else SetWorker(landed, w, Sending(i, k + 1))
  }

  predicate Settled(s: State) {
    forall w :: 0 <= w < |s.workers| ==> s.workers[w].Ended? || s.workers[w].Broken?
  }

  /** The first rejected worker in order, whose reason decides what happens. */
  function FirstFailure(workers: seq<Worker>): Option<Worker> {
    if workers == [] then None
    else if workers[0].Broken? then Some(workers[0])
    else FirstFailure(workers[1..])
  }

  /** The next pass: a fresh iterator and fresh workers, what is done stays done. */
  function Restarted(s: State, statusKnown: bool): State {
    var known := if statusKnown then s.stored else s.serverHas;
    s.(serverHas := known, pass := s.pass + 1, pos := 0, iterDone := false, workers := FreshWorkers(|s.workers|))
  }

  /** After allSettled: leave the loop, give up, or reconcile with the server and start over. */
  function PassEnded(s: State, statusKnown: bool): State {
    var failure := FirstFailure(s.workers);
    if failure.None? then s.(phase := Succeeded)
    else if failure.value.Broken? && (failure.value.definitive || s.pass >= RESUME_MAX_ATTEMPTS)
    then s.(phase := GaveUp)
    else Restarted(s, statusKnown)
  }

  predicate Enabled(s: State, step: Step) {
    && s.phase == Running
    && match step
       case Take(w) => w < |s.workers| && s.workers[w].Idle?
       case TakeThrows(w) => w < |s.workers| && s.workers[w].Idle? && !s.iterDone
       case Decide(w) => w < |s.workers| && s.workers[w].Holding? && s.workers[w].index < |s.sizes|
       case Put(w, _) => w < |s.workers| && s.workers[w].Sending? && s.workers[w].index < |s.sizes| == |s.puts|
       case StoredLate(i) => i < |s.puts| && s.puts[i] > 0
       case EndPass(_) => Settled(s)
       case Abort => true
  }

  function Apply(s: State, step: Step): State
    requires Enabled(s, step)
  {
    match step
    case Take(w) =>
      if s.pos < |s.sizes| && !s.iterDone then SetWorker(s.(pos := s.pos + 1), w, Holding(s.pos))
      else SetWorker(s.(iterDone := true), w, Ended)
    case TakeThrows(w) => SetWorker(s.(iterDone := true), w, Broken(false))
    case Decide(w) => Decided(s, w)
    case Put(w, outcome) => Sent(s, w, outcome)
    case StoredLate(i) => s.(stored := s.stored + {i})
    case EndPass(statusKnown) => PassEnded(s, statusKnown)
    case Abort => s.(phase := GaveUp)
  }

  predicate Valid(s: State, run: seq<Step>)
    decreases |run|
  {
    run == [] || (Enabled(s, run[0]) && Valid(Apply(s, run[0]), run[1..]))
  }

  function Final(s: State, run: seq<Step>): State
    requires Valid(s, run)
    decreases |run|
  {
    if run == [] then s else Final(Apply(s, run[0]), run[1..])
  }

  // -------------------------------------------------------------- invariant

  /** Total size of the done chunks below index k. */
  function DoneBytes(sizes: seq<nat>, done: set<nat>, k: nat): nat
    requires k <= |sizes|
  {
    if k == 0 then 0 else DoneBytes(sizes, done, k - 1) + (if k - 1 in done then sizes[k - 1] else 0)
  }

  predicate Carries(worker: Worker) { worker.Holding? || worker.Sending? }

  predicate CountersExact(s: State) {
    && s.uploadedBytes == DoneBytes(s.sizes, s.done.Keys, |s.sizes|)
    && s.uploadedBlobs == |s.done|
  }

  predicate ServerAgrees(s: State) {
    && (forall i <- s.done :: i < |s.sizes| && i in s.stored)
    && s.serverHas <= s.stored
    && s.acked <= s.done.Keys
    && forall i <- s.done :: s.done[i] <==> i in s.acked
  }

  /** Workers carry chunks already handed out; one ends only when the iterator is done. */
  predicate InRange(s: State) {
    && s.pos <= |s.sizes|
    && (forall worker <- s.workers :: Carries(worker) ==> worker.index < s.pos)
    && (forall worker <- s.workers :: worker.Ended? ==> s.iterDone)
  }

  /** The iterator is done at the end of the file, or earlier if it threw at some worker. */
  ghost predicate IteratorHonest(s: State) {
    s.iterDone ==> s.pos == |s.sizes| || exists worker <- s.workers :: worker.Broken?
  }

  predicate Apart(s: State) {
    forall v, w :: 0 <= v < w < |s.workers| && Carries(s.workers[v]) && Carries(s.workers[w]) ==>
      s.workers[v].index != s.workers[w].index
  }

  predicate SendsPending(s: State) {
    forall worker <- s.workers :: worker.Sending? ==> worker.index !in s.done && worker.attempt < CHUNK_MAX_ATTEMPTS
  }

  /** Each handed-out chunk is done or carried by a worker, unless some worker broke. */
  ghost predicate NothingForgotten(s: State) {
    (forall worker <- s.workers :: !worker.Broken?) ==>
      forall i :: 0 <= i < s.pos ==> i in s.done || exists worker <- s.workers :: Carries(worker) && worker.index == i
  }

  /** Requests a worker's chunk may have cost so far. */
  function Budget(s: State, worker: Worker): int
    requires Carries(worker)
  {
    CHUNK_MAX_ATTEMPTS * (s.pass - 1) + (if worker.Sending? then worker.attempt else 0)
  }

  predicate PutsBounded(s: State) {
    && |s.puts| == |s.sizes|
    && (forall i :: 0 <= i < |s.puts| ==> s.puts[i] <= CHUNK_MAX_ATTEMPTS * s.pass)
    && (forall i :: s.pos <= i < |s.puts| ==> s.puts[i] <= CHUNK_MAX_ATTEMPTS * (s.pass - 1))
  }

  predicate PutsHeld(s: State) {
    forall worker <- s.workers :: Carries(worker) && worker.index < |s.puts| ==>
      s.puts[worker.index] <= Budget(s, worker)
  }

  ghost predicate Complete(s: State) {
    && 1 <= s.pass <= RESUME_MAX_ATTEMPTS
    && (|s.workers| == 0 ==> |s.sizes| == 0)
    && (s.phase == Succeeded ==> forall i :: 0 <= i < |s.sizes| ==> i in s.done)
  }

  ghost predicate Inv(s: State) {
    && CountersExact(s) && ServerAgrees(s)
    && InRange(s) && IteratorHonest(s) && Apart(s) && SendsPending(s) && NothingForgotten(s)
    && PutsBounded(s) && PutsHeld(s) && Complete(s)
  }

  lemma DoneBytesAdd(sizes: seq<nat>, done: set<nat>, i: nat, k: nat)
    requires i < |sizes| && i !in done && k <= |sizes|
    ensures DoneBytes(sizes, done + {i}, k) == DoneBytes(sizes, done, k) + (if i < k then sizes[i] else 0)
  {
  }

  lemma MarkKeepsCounters(s: State, i: nat, record: bool)
    requires CountersExact(s) && i < |s.sizes| && i !in s.done
    ensures CountersExact(MarkDone(s, i, record))
  {
    DoneBytesAdd(s.sizes, s.done.Keys, i, |s.sizes|);
    assert MarkDone(s, i, record).done.Keys == s.done.Keys + {i};
    assert s.done[i := record] - {i} == s.done;
  }

  /** Replacing one worker: each remaining one was there before, at its own place. */
  lemma OneReplaced(before: seq<Worker>, w: nat, worker: Worker)
    requires w < |before|
    ensures forall x <- before[w := worker] :: x == worker || x in before
    ensures forall x <- before :: x == before[w] || x in before[w := worker]
    ensures worker in before[w := worker]
  {
    var now := before[w := worker];
    assert now[w] == worker;
    forall x <- before | x != before[w] ensures x in now {
      var v :| 0 <= v < |before| && before[v] == x;
      assert now[v] == x;
    }
  }

  /** NothingForgotten survives when the one changed worker keeps its chunk, finishes it or breaks. */
  lemma KeepNothingForgotten(s: State, t: State, w: nat, worker: Worker)
    requires NothingForgotten(s) && w < |s.workers| && t.pos == s.pos && !s.workers[w].Broken?
    requires t.workers == s.workers[w := worker] && s.done.Keys <= t.done.Keys
    requires Carries(s.workers[w]) ==>
      worker.Broken? || s.workers[w].index in t.done || (Carries(worker) && worker.index == s.workers[w].index)
    ensures NothingForgotten(t)
  {
    OneReplaced(s.workers, w, worker);
  }

  lemma KeepIteratorHonest(s: State, t: State, w: nat, worker: Worker)
    requires IteratorHonest(s) && w < |s.workers| && !s.workers[w].Broken?
    requires t.workers == s.workers[w := worker] && t.pos == s.pos && t.sizes == s.sizes
    requires t.iterDone ==> s.iterDone || worker.Broken? || t.pos == |t.sizes|
    ensures IteratorHonest(t)
  {
    OneReplaced(s.workers, w, worker);
  }

  /** One worker changes, and keeps its chunk or lets go of it. */
  predicate LetsGo(s: State, t: State, w: nat, worker: Worker) {
    && w < |s.workers| && t.workers == s.workers[w := worker] && t.pos == s.pos && t.sizes == s.sizes
    && (s.iterDone || worker.Ended? ==> t.iterDone)
    && (Carries(worker) ==> Carries(s.workers[w]) && worker.index == s.workers[w].index)
    && (worker.Sending? ==> worker.index !in t.done && worker.attempt < CHUNK_MAX_ATTEMPTS)
    && forall i <- t.done :: i in s.done || (Carries(s.workers[w]) && i == s.workers[w].index)
  }

  lemma LetGoInRange(s: State, t: State, w: nat, worker: Worker)
    requires InRange(s) && LetsGo(s, t, w, worker)
    ensures InRange(t)
  {
    OneReplaced(s.workers, w, worker);
    assert s.workers[w] in s.workers;
  }

  lemma LetGoApart(s: State, t: State, w: nat, worker: Worker)
    requires Apart(s) && LetsGo(s, t, w, worker)
    ensures Apart(t)
  {
  }

  lemma LetGoPending(s: State, t: State, w: nat, worker: Worker)
    requires Apart(s) && SendsPending(s) && LetsGo(s, t, w, worker)
    ensures SendsPending(t)
  {
    forall x | x in t.workers && x.Sending? ensures x.index !in t.done && x.attempt < CHUNK_MAX_ATTEMPTS {
      var v :| 0 <= v < |t.workers| && t.workers[v] == x;
      if v != w {
        assert s.workers[v] == x && x in s.workers;
      }
    }
  }

  lemma LetGo(s: State, t: State, w: nat, worker: Worker)
    requires InRange(s) && Apart(s) && SendsPending(s) && LetsGo(s, t, w, worker)
    ensures InRange(t) && Apart(t) && SendsPending(t)
  {
    hide InRange, Apart, SendsPending, LetsGo;
    LetGoInRange(s, t, w, worker);
    LetGoApart(s, t, w, worker);
    LetGoPending(s, t, w, worker);
  }

  /** The request counts stay, and so does every chunk's budget. */
  lemma PutsStay(s: State, t: State, w: nat, worker: Worker)
    requires PutsBounded(s) && PutsHeld(s) && w < |s.workers| && t.workers == s.workers[w := worker]
    requires t.puts == s.puts && t.sizes == s.sizes && t.pos == s.pos && t.pass == s.pass
    requires Carries(worker) ==> worker.index < |s.puts| && s.puts[worker.index] <= Budget(t, worker)
    ensures PutsBounded(t) && PutsHeld(t)
  {
    OneReplaced(s.workers, w, worker);
  }

  lemma TakeKeeps(s: State, w: nat)
    requires Inv(s) && Enabled(s, Take(w))
    ensures Inv(Apply(s, Take(w)))
  {
    hide NothingForgotten, IteratorHonest, DoneBytes, PutsBounded, PutsHeld, InRange, Apart, SendsPending;
    if s.pos < |s.sizes| && !s.iterDone {
      TakenPlaces(s, w);
      TakenPuts(s, w);
      TakeKeepsNothingForgotten(s, w);
      IteratorRuns(SetWorker(s.(pos := s.pos + 1), w, Holding(s.pos)));
    } else {
      var t := Apply(s, Take(w));
      AtEnd(s);
      LetGo(s, t, w, Ended);
      PutsStay(s, t, w, Ended);
      KeepNothingForgotten(s, t, w, Ended);
      KeepIteratorHonest(s, t, w, Ended);
    }
  }

  lemma IteratorRuns(s: State)
    requires !s.iterDone
    ensures IteratorHonest(s)
  {
  }

  lemma AtEnd(s: State)
    requires InRange(s)
    ensures s.pos <= |s.sizes|
  {
  }

  lemma TakenPlaces(s: State, w: nat)
    requires InRange(s) && Apart(s) && SendsPending(s) && w < |s.workers| && s.pos < |s.sizes| && !s.iterDone
    ensures var t := SetWorker(s.(pos := s.pos + 1), w, Holding(s.pos)); InRange(t) && Apart(t) && SendsPending(t)
  {
    OneReplaced(s.workers, w, Holding(s.pos));
    forall v | 0 <= v < |s.workers| && Carries(s.workers[v]) ensures s.workers[v].index < s.pos {
      assert s.workers[v] in s.workers;
    }
  }

  lemma TakenPuts(s: State, w: nat)
    requires PutsBounded(s) && PutsHeld(s) && w < |s.workers| && s.pos < |s.sizes|
    ensures var t := SetWorker(s.(pos := s.pos + 1), w, Holding(s.pos)); PutsBounded(t) && PutsHeld(t)
  {
    OneReplaced(s.workers, w, Holding(s.pos));
  }

  lemma TakeKeepsNothingForgotten(s: State, w: nat)
    requires NothingForgotten(s) && w < |s.workers| && s.workers[w].Idle?
    ensures NothingForgotten(SetWorker(s.(pos := s.pos + 1), w, Holding(s.pos)))
  {
    OneReplaced(s.workers, w, Holding(s.pos));
  }

  lemma BreakKeeps(s: State, w: nat)
    requires Inv(s) && Enabled(s, TakeThrows(w))
    ensures Inv(Apply(s, TakeThrows(w)))
  {
    hide NothingForgotten, IteratorHonest, DoneBytes, PutsBounded, PutsHeld, InRange, Apart, SendsPending;
    var t := Apply(s, TakeThrows(w));
    LetGo(s, t, w, Broken(false));
    PutsStay(s, t, w, Broken(false));
    KeepNothingForgotten(s, t, w, Broken(false));
    KeepIteratorHonest(s, t, w, Broken(false));
  }

  lemma DecideKeeps(s: State, w: nat)
    requires Inv(s) && Enabled(s, Decide(w))
    ensures Inv(Apply(s, Decide(w)))
  {
    hide NothingForgotten, IteratorHonest, DoneBytes, PutsBounded, PutsHeld, InRange, Apart, SendsPending;
    var i, t := s.workers[w].index, Apply(s, Decide(w));
    DecideKeepsWorkers(s, w);
    DecideKeepsPuts(s, w);
    KeepNothingForgotten(s, t, w, t.workers[w]);
    KeepIteratorHonest(s, t, w, t.workers[w]);
    if i !in s.done && i in s.serverHas {
      MarkKeepsCounters(s, i, false);
    }
  }

  lemma DecideKeepsWorkers(s: State, w: nat)
    requires InRange(s) && Apart(s) && SendsPending(s) && Enabled(s, Decide(w))
    ensures InRange(Decided(s, w)) && Apart(Decided(s, w)) && SendsPending(Decided(s, w))
  {
    hide InRange, Apart, SendsPending;
    LetGo(s, Decided(s, w), w, Decided(s, w).workers[w]);
  }

  lemma DecideKeepsPuts(s: State, w: nat)
    requires PutsBounded(s) && PutsHeld(s) && InRange(s) && Enabled(s, Decide(w))
    ensures PutsBounded(Decided(s, w)) && PutsHeld(Decided(s, w))
  {
    assert s.workers[w] in s.workers && s.puts[s.workers[w].index] <= Budget(s, s.workers[w]);
    hide InRange, PutsBounded, PutsHeld;
    PutsStay(s, Decided(s, w), w, Decided(s, w).workers[w]);
  }

  lemma AckKeeps(s: State, w: nat)
    requires Inv(s) && Enabled(s, Put(w, Acked))
    ensures Inv(Apply(s, Put(w, Acked)))
  {
    hide NothingForgotten, IteratorHonest, DoneBytes, PutsBounded, PutsHeld, InRange, Apart, SendsPending;
    AckKeepsWorkers(s, w);
    AckKeepsPuts(s, w);
    var i, t := s.workers[w].index, Apply(s, Put(w, Acked));
    assert i !in s.done;
    KeepNothingForgotten(s, t, w, Idle);
    KeepIteratorHonest(s, t, w, Idle);
    MarkKeepsCounters(s, i, true);
  }

  lemma AckKeepsWorkers(s: State, w: nat)
    requires InRange(s) && Apart(s) && SendsPending(s) && Enabled(s, Put(w, Acked))
    ensures InRange(Sent(s, w, Acked)) && Apart(Sent(s, w, Acked)) && SendsPending(Sent(s, w, Acked))
    ensures s.workers[w].index !in s.done
  {
    assert s.workers[w] in s.workers && s.workers[w].index !in s.done;
    hide InRange, Apart, SendsPending;
    LetGo(s, Sent(s, w, Acked), w, Idle);
  }

  /** One request more for the chunk worker w sends, within its budget. */
  lemma OneMorePut(s: State, t: State, w: nat)
    requires PutsBounded(s) && PutsHeld(s) && InRange(s) && SendsPending(s) && s.pass >= 1
    requires w < |s.workers| && s.workers[w].Sending? && s.workers[w].index < |s.puts|
    requires t.puts == s.puts[s.workers[w].index := s.puts[s.workers[w].index] + 1]
    requires t.sizes == s.sizes && t.pos == s.pos && t.pass == s.pass
    ensures PutsBounded(t) && t.puts[s.workers[w].index] <= Budget(s, s.workers[w]) + 1
  {
    assert s.workers[w] in s.workers;
  }

  /** The other workers' chunks cost what they did, and this worker's next attempt is accounted for. */
  lemma OthersPuts(s: State, t: State, w: nat, worker: Worker)
    requires PutsHeld(s) && Apart(s) && w < |s.workers| && s.workers[w].Sending? && s.workers[w].index < |s.puts|
    requires t.workers == s.workers[w := worker] && t.pass == s.pass
    requires t.puts == s.puts[s.workers[w].index := s.puts[s.workers[w].index] + 1]
    requires Carries(worker) ==> worker.index < |t.puts| && t.puts[worker.index] <= Budget(t, worker)
    ensures PutsHeld(t)
  {
    forall x | x in t.workers && Carries(x) && x.index < |t.puts| ensures t.puts[x.index] <= Budget(t, x) {
      var v :| 0 <= v < |t.workers| && t.workers[v] == x;
      if v != w {
        assert s.workers[v] == x && x in s.workers && x.index != s.workers[w].index;
      }
    }
  }

  lemma AckKeepsPuts(s: State, w: nat)
    requires PutsBounded(s) && PutsHeld(s) && InRange(s) && Apart(s) && SendsPending(s) && s.pass >= 1
    requires Enabled(s, Put(w, Acked))
    ensures PutsBounded(Sent(s, w, Acked)) && PutsHeld(Sent(s, w, Acked))
  {
    hide PutsBounded, PutsHeld, InRange, Apart, SendsPending;
    OneMorePut(s, Sent(s, w, Acked), w);
    OthersPuts(s, Sent(s, w, Acked), w, Idle);
  }

  /** An attempt that is not acknowledged spends one request of its chunk's budget, and changes no progress. */
  lemma FailedAttemptKeepsPuts(s: State, w: nat, outcome: PutOutcome)
    requires PutsBounded(s) && PutsHeld(s) && InRange(s) && Apart(s) && SendsPending(s) && s.pass >= 1
    requires Enabled(s, Put(w, outcome)) && outcome != Acked
    ensures PutsBounded(Sent(s, w, outcome)) && PutsHeld(Sent(s, w, outcome))
  {
    hide PutsBounded, PutsHeld, InRange, Apart, SendsPending;
    var t := Sent(s, w, outcome);
    OneMorePut(s, t, w);
    OthersPuts(s, t, w, t.workers[w]);
  }

  lemma FailedAttemptKeepsWorkers(s: State, w: nat, outcome: PutOutcome)
    requires InRange(s) && Apart(s) && SendsPending(s) && Enabled(s, Put(w, outcome)) && outcome != Acked
    ensures InRange(Sent(s, w, outcome)) && Apart(Sent(s, w, outcome)) && SendsPending(Sent(s, w, outcome))
  {
    assert s.workers[w] in s.workers && s.workers[w].index !in s.done && s.workers[w].attempt < CHUNK_MAX_ATTEMPTS;
    hide InRange, Apart, SendsPending;
    LetGo(s, Sent(s, w, outcome), w, Sent(s, w, outcome).workers[w]);
  }

  lemma FailedAttemptKeeps(s: State, w: nat, outcome: PutOutcome)
    requires Inv(s) && Enabled(s, Put(w, outcome)) && outcome != Acked
    ensures Inv(Apply(s, Put(w, outcome)))
  {
    hide NothingForgotten, IteratorHonest, DoneBytes, PutsBounded, PutsHeld, InRange, Apart, SendsPending;
    var t := Apply(s, Put(w, outcome));
    KeepNothingForgotten(s, t, w, t.workers[w]);
    KeepIteratorHonest(s, t, w, t.workers[w]);
    FailedAttemptKeepsWorkers(s, w, outcome);
    FailedAttemptKeepsPuts(s, w, outcome);
  }

  lemma {:induction false} NoFailureMeansEnded(workers: seq<Worker>)
    requires FirstFailure(workers).None?
    ensures forall w :: 0 <= w < |workers| ==> !workers[w].Broken?
  {
    if workers != [] {
      NoFailureMeansEnded(workers[1..]);
      forall w | 0 < w < |workers| ensures !workers[w].Broken? { assert workers[w] == workers[1..][w - 1]; }
    }
  }

  lemma FailureIsBroken(workers: seq<Worker>)
    ensures FirstFailure(workers).Some? ==> FirstFailure(workers).value.Broken?
  {
  }

  lemma EndKeeps(s: State, statusKnown: bool)
    requires Inv(s) && Enabled(s, EndPass(statusKnown))
    ensures Inv(Apply(s, EndPass(statusKnown)))
  {
    hide Inv, Restarted, Settled;
    FailureIsBroken(s.workers);
    var failure := FirstFailure(s.workers);
    if failure.None? {
      SucceedKeeps(s);
    } else if failure.value.definitive || s.pass >= RESUME_MAX_ATTEMPTS {
      GiveUpKeeps(s);
    } else {
      RestartKeeps(s, statusKnown);
    }
  }

  lemma SucceedKeeps(s: State)
    requires Inv(s) && Settled(s) && FirstFailure(s.workers).None?
    ensures Inv(s.(phase := Succeeded))
  {
    AllSettledMeansDone(s);
  }

  lemma GiveUpKeeps(s: State)
    requires Inv(s)
    ensures Inv(s.(phase := GaveUp))
  {
  }

  lemma RestartKeeps(s: State, statusKnown: bool)
    requires Inv(s) && s.phase == Running && s.pass < RESUME_MAX_ATTEMPTS
    ensures Inv(Restarted(s, statusKnown))
  {
    hide DoneBytes;
  }

  lemma AllSettledMeansDone(s: State)
    requires Settled(s) && FirstFailure(s.workers).None? && NothingForgotten(s) && InRange(s) && Complete(s)
    requires IteratorHonest(s)
    ensures forall i :: 0 <= i < |s.sizes| ==> i in s.done
  {
    NoFailureMeansEnded(s.workers);
    if |s.workers| > 0 {
      assert s.workers[0].Ended?;
    }
    assert forall worker <- s.workers :: !worker.Broken? && !Carries(worker);
  }

  lemma StartOk(sizes: seq<nat>, concurrency: nat)
    requires concurrency > 0
    ensures Inv(Start(sizes, concurrency))
  {
    NoneDone(sizes, |sizes|);
    assert Start(sizes, concurrency).done.Keys == {};
  }

  lemma NoneDone(sizes: seq<nat>, k: nat)
    requires k <= |sizes|
    ensures DoneBytes(sizes, {}, k) == 0
  {
  }

  lemma {:induction false} RunKeeps(s: State, run: seq<Step>)
    requires Inv(s) && Valid(s, run)
    ensures Inv(Final(s, run)) && Final(s, run).sizes == s.sizes
    decreases |run|
  {
    hide Inv;
    if run != [] {
      match run[0] {
        case Take(w) => TakeKeeps(s, w);
        case TakeThrows(w) => BreakKeeps(s, w);
        case Decide(w) => DecideKeeps(s, w);
        case Put(w, Acked) => AckKeeps(s, w);
        case Put(w, outcome) => FailedAttemptKeeps(s, w, outcome);
        case EndPass(statusKnown) => EndKeeps(s, statusKnown);
        case Abort => GiveUpKeeps(s);
        case StoredLate(i) => StoredLateKeeps(s, i);
      }
      SizesStay(s, run[0]);
      RunKeeps(Apply(s, run[0]), run[1..]);
    }
  }

  lemma StoredLateKeeps(s: State, i: nat)
    requires Inv(s)
    ensures Inv(s.(stored := s.stored + {i}))
  {
  }

  lemma SizesStay(s: State, step: Step)
    requires Enabled(s, step)
    ensures Apply(s, step).sizes == s.sizes
  {
  }

  // ---------------------------------------------------------------- theorems

  /** Progress counters equal the sum and the number of the done chunks, each of which has a server row. */
  lemma {:induction false} ProgressIsExact(sizes: seq<nat>, concurrency: nat, run: seq<Step>)
    requires concurrency > 0 && Valid(Start(sizes, concurrency), run)
    ensures var s := Final(Start(sizes, concurrency), run);
      && s.sizes == sizes
      && s.uploadedBytes == DoneBytes(sizes, s.done.Keys, |sizes|)
      && s.uploadedBlobs == |s.done|
      && s.done.Keys <= s.stored
  {
    StartOk(sizes, concurrency);
    RunKeeps(Start(sizes, concurrency), run);
  }

  /** No chunk is PUT more than twelve times, and a done chunk is never PUT again. */
  lemma {:induction false} PutsAreBounded(sizes: seq<nat>, concurrency: nat, run: seq<Step>, i: nat)
    requires concurrency > 0 && Valid(Start(sizes, concurrency), run) && i < |sizes|
    ensures var s := Final(Start(sizes, concurrency), run);
      && |s.puts| == |sizes| && s.puts[i] <= 12
      && (i in s.done ==> forall worker <- s.workers :: worker.Sending? ==> worker.index != i)
  {
    StartOk(sizes, concurrency);
    RunKeeps(Start(sizes, concurrency), run);
  }

  lemma AllDone(sizes: seq<nat>, done: set<nat>, k: nat)
    requires k <= |sizes| && forall i :: 0 <= i < k ==> i in done
    ensures DoneBytes(sizes, done, k) == Total(sizes, k)
  {
  }

  function Total(sizes: seq<nat>, k: nat): nat
    requires k <= |sizes|
  {
    if k == 0 then 0 else Total(sizes, k - 1) + sizes[k - 1]
  }

  lemma {:induction false} ChunkSizesTotal(pieces: seq<Bytes>, sizes: seq<nat>, k: nat)
    requires k <= |pieces| == |sizes| && forall i :: 0 <= i < |sizes| ==> sizes[i] == |pieces[i]|
    ensures Total(sizes, k) == |Flatten(pieces[..k])|
  {
    if k > 0 {
      ChunkSizesTotal(pieces, sizes, k - 1);
      assert pieces[..k] == pieces[..k - 1] + [pieces[k - 1]];
      FlattenSnoc(pieces[..k - 1], pieces[k - 1]);
    }
  }

  /** Leaving the loop means exactly the file's chunks are done, and every byte of the file is counted. */
  lemma {:induction false} SuccessIsComplete(
    file: Bytes, chunkSize: nat, sizes: seq<nat>, concurrency: nat, run: seq<Step>)
    requires chunkSize > 0 && concurrency > 0
    requires |sizes| == |Chunks(file, chunkSize)| && forall i :: 0 <= i < |sizes| ==>
      sizes[i] == |Chunks(file, chunkSize)[i]|
    requires Valid(Start(sizes, concurrency), run) && Final(Start(sizes, concurrency), run).phase == Succeeded
    ensures var s := Final(Start(sizes, concurrency), run);
      && (forall i: nat :: i in s.done <==> i < CalculateChunkCount(|file|, chunkSize))
      && s.uploadedBytes == |file|
  {
    StartOk(sizes, concurrency);
    RunKeeps(Start(sizes, concurrency), run);
    var s := Final(Start(sizes, concurrency), run);
    ChunkCountMatches(file, chunkSize);
    FlattenChunks(file, chunkSize);
    AllDone(sizes, s.done.Keys, |sizes|);
    ChunkSizesTotal(Chunks(file, chunkSize), sizes, |sizes|);
    assert Chunks(file, chunkSize)[..|sizes|] == Chunks(file, chunkSize);
  }

  // ------------------------------------------------------------ retries and passes

  /**
   What one PUT leads to: done exactly if it was acknowledged, over exactly if the answer is definitive
   or the fourth attempt of this pass failed, and otherwise sent again.
   */
  lemma {:induction false} RetriesIff(sizes: seq<nat>, concurrency: nat, run: seq<Step>, w: nat, outcome: PutOutcome)
    requires concurrency > 0 && Valid(Start(sizes, concurrency), run)
    requires Enabled(Final(Start(sizes, concurrency), run), Put(w, outcome))
    ensures var s := Final(Start(sizes, concurrency), run);
      var t, i, k := Apply(s, Put(w, outcome)), s.workers[w].index, s.workers[w].attempt;
      && |t.workers| == |s.workers| && (forall v :: 0 <= v < |s.workers| && v != w ==> t.workers[v] == s.workers[v])
      && k < CHUNK_MAX_ATTEMPTS && t.puts[i] == s.puts[i] + 1
      && t.stored == s.stored + (if outcome == Acked || outcome == LostAck then {i} else {})
      && (i in t.done <==> outcome == Acked) && (i in t.acked <==> outcome == Acked || i in s.acked)
      && (t.workers[w] == Idle <==> outcome == Acked)
      && (t.workers[w] == Broken(true) <==> outcome == Definitive)
      && (t.workers[w] == Broken(false) <==> (outcome == Failed || outcome == LostAck) && k + 1 == CHUNK_MAX_ATTEMPTS)
      && (t.workers[w] == Sending(i, k + 1)
          <==> (outcome == Failed || outcome == LostAck) && k + 1 < CHUNK_MAX_ATTEMPTS)
  {
    StartOk(sizes, concurrency);
    RunKeeps(Start(sizes, concurrency), run);
    var s := Final(Start(sizes, concurrency), run);
    assert s.workers[w] in s.workers;
    hide Inv, Valid, Final, CountersExact, InRange, Apart, NothingForgotten, PutsBounded, PutsHeld, Complete;
  }

  /** Worker w is the first one that broke. */
  predicate FirstBroken(workers: seq<Worker>, w: nat) {
    w < |workers| && workers[w].Broken? && forall v :: 0 <= v < w ==> !workers[v].Broken?
  }

  lemma {:induction false} FirstFailureIs(workers: seq<Worker>, w: nat)
    requires FirstBroken(workers, w)
    ensures FirstFailure(workers) == Some(workers[w])
  {
    if w > 0 {
      assert !workers[0].Broken?;
      FirstFailureIs(workers[1..], w - 1);
    }
  }

  lemma {:induction false} NoneBroken(workers: seq<Worker>)
    requires forall v :: 0 <= v < |workers| ==> !workers[v].Broken?
    ensures FirstFailure(workers).None?
  {
    if workers != [] {
      NoneBroken(workers[1..]);
    }
  }

  /** A pass without failures completes the upload. */
  lemma CleanPassSucceeds(s: State, statusKnown: bool)
    requires Enabled(s, EndPass(statusKnown)) && forall v :: 0 <= v < |s.workers| ==> !s.workers[v].Broken?
    ensures Apply(s, EndPass(statusKnown)) == s.(phase := Succeeded)
  {
    NoneBroken(s.workers);
  }

  /**
   A pass with failures: the first worker's decides. A definitive one, or the third pass, ends the upload
   at once; any other starts a fresh pass that knows what the server holds and forgets nothing that was done.
   */
  lemma FailedPassEnds(s: State, statusKnown: bool, w: nat)
    requires Enabled(s, EndPass(statusKnown)) && FirstBroken(s.workers, w)
    ensures var t := Apply(s, EndPass(statusKnown));
      && (s.workers[w].definitive || s.pass >= RESUME_MAX_ATTEMPTS <==> t.phase == GaveUp)
      && (t.phase == GaveUp ==> t == s.(phase := GaveUp))
      && (t.phase != GaveUp ==>
        && t.phase == Running && t.pass == s.pass + 1 && t.pos == 0 && !t.iterDone && |t.workers| == |s.workers|
        && (forall v :: 0 <= v < |t.workers| ==> t.workers[v] == Idle)
        && t.serverHas == (if statusKnown then s.stored else s.serverHas)
        && t.done == s.done && t.stored == s.stored && t.puts == s.puts && t.acked == s.acked
        && t.uploadedBytes == s.uploadedBytes && t.uploadedBlobs == s.uploadedBlobs)
  {
    FirstFailureIs(s.workers, w);
  }

  /** A chunk is sent exactly if it is neither done nor known to be stored; a known one is done without a record. */
  lemma DecidesIff(s: State, w: nat)
    requires Enabled(s, Decide(w))
    ensures var t, i := Apply(s, Decide(w)), s.workers[w].index;
      && (t.workers[w] == Sending(i, 0) <==> i !in s.done && i !in s.serverHas)
      && (t.workers[w] == Idle <==> i in s.done || i in s.serverHas)
      && (i in s.done ==> t.done == s.done)
      && (i !in s.done && i in s.serverHas ==> t.done == s.done[i := false])
      && (i !in s.done && i !in s.serverHas ==> t.done == s.done)
      && t.stored == s.stored && t.puts == s.puts && t.acked == s.acked
  {
  }

  /** The server holds no chunk that was never sent. */
  predicate SentFirst(s: State) { forall i <- s.stored :: i < |s.puts| && s.puts[i] > 0 }

  lemma StepSendsFirst(s: State, step: Step)
    requires Enabled(s, step) && SentFirst(s)
    ensures SentFirst(Apply(s, step))
  {
    match step
    case Put(w, outcome) =>
    case EndPass(statusKnown) =>
    case Decide(w) =>
    case _ =>
  }

  lemma {:induction false} StoredMeansSent(s: State, run: seq<Step>)
    requires SentFirst(s) && Valid(s, run)
    ensures SentFirst(Final(s, run))
    decreases |run|
  {
    if run != [] {
      StepSendsFirst(s, run[0]);
      hide SentFirst, Apply, Enabled;
      StoredMeansSent(Apply(s, run[0]), run[1..]);
    }
  }

  /** A request whose answer was lost may still store its chunk; the next status answer then knows it. */
  lemma LateStoreIsKnown(s: State, i: nat)
    requires Enabled(s, StoredLate(i))
    ensures var t := Apply(s, StoredLate(i)); t == s.(stored := t.stored) && i in Restarted(t, true).serverHas
    ensures Apply(s, StoredLate(i)).stored <= s.stored + {i}
  {
  }

  /** The iterator hands out the chunks in order, each once, and none after it threw or ended. */
  lemma TakesInOrder(s: State, w: nat, v: nat)
    requires Enabled(s, Take(w))
    ensures var t := Apply(s, Take(w));
      && (t.workers[w] == Holding(s.pos) && t.pos == s.pos + 1 <==> !s.iterDone && s.pos < |s.sizes|)
      && (t.workers[w] == Ended && t.pos == s.pos && t.iterDone <==> s.iterDone || s.pos >= |s.sizes|)
    ensures !s.iterDone && v < |s.workers| && v != w && s.workers[v].Idle? ==>
      var t := Apply(s, TakeThrows(w)); Enabled(t, Take(v)) && Apply(t, Take(v)).workers[v] == Ended
  {
  }

  /** An aborted upload, like a finished one, takes no further step. */
  lemma OverIsOver(s: State, step: Step)
    ensures Enabled(s, Abort) ==> Apply(s, Abort) == s.(phase := GaveUp)
    ensures s.phase != Running ==> !Enabled(s, step)
  {
  }

  /** Nothing hangs: an upload that is still running can go on without anybody giving up. */
  lemma {:induction false} RunningGoesOn(sizes: seq<nat>, concurrency: nat, run: seq<Step>)
    requires concurrency > 0 && Valid(Start(sizes, concurrency), run)
    requires Final(Start(sizes, concurrency), run).phase == Running
    ensures exists step :: Enabled(Final(Start(sizes, concurrency), run), step) && !step.Abort? && !step.StoredLate?
  {
    StartOk(sizes, concurrency);
    RunKeeps(Start(sizes, concurrency), run);
    var s := Final(Start(sizes, concurrency), run);
    if Settled(s) {
      assert Enabled(s, EndPass(true));
    } else {
      var w :| 0 <= w < |s.workers| && !s.workers[w].Ended? && !s.workers[w].Broken?;
      assert s.workers[w] in s.workers;
      if s.workers[w].Idle? {
        assert Enabled(s, Take(w));
      } else if s.workers[w].Holding? {
        assert Enabled(s, Decide(w));
      } else {
        assert Enabled(s, Put(w, Acked));
      }
    }
  }

  // ------------------------------------------------------------------ commit

  /**
   commitManifest looks for the last chunk among the records the client sends: those of done chunks that
   are non-null.
   */
  predicate ManifestFound(s: State) {
    |s.sizes| > 0 && |s.sizes| - 1 in s.done && s.done[|s.sizes| - 1]
  }

  /** A completed upload commits exactly when the file is non-empty and the last chunk's PUT was acknowledged. */
  lemma {:induction false} CommitAcceptedIff(sizes: seq<nat>, concurrency: nat, run: seq<Step>)
    requires concurrency > 0 && Valid(Start(sizes, concurrency), run)
    requires Final(Start(sizes, concurrency), run).phase == Succeeded
    ensures var s := Final(Start(sizes, concurrency), run); ManifestFound(s) <==> |sizes| > 0 && |sizes| - 1 in s.acked
  {
    StartOk(sizes, concurrency);
    RunKeeps(Start(sizes, concurrency), run);
  }

  lemma {:induction false} Snoc(s: State, run: seq<Step>, step: Step)
    requires Valid(s, run) && Enabled(Final(s, run), step)
    ensures Valid(s, run + [step]) && Final(s, run + [step]) == Apply(Final(s, run), step)
    decreases |run|
  {
    hide Enabled, Apply;
    if run == [] {
      assert run + [step] == [step] && [step][1..] == [];
    } else {
      assert (run + [step])[1..] == run[1..] + [step];
      Snoc(Apply(s, run[0]), run[1..], step);
    }
  }

  /** One chunk, stored at once, but no acknowledgement arrives: the second pass completes and cannot commit. */
  lemma LostAckCannotCommit() returns (run: seq<Step>)
    ensures Valid(Start([5], 2), run)
    ensures var s := Final(Start([5], 2), run); s.phase == Succeeded && !ManifestFound(s) && s.stored == {0}
  {
    run := FirstPassLost();
    var s := Final(Start([5], 2), run);
    assert FirstFailure(s.workers) == Some(Broken(false));
    Snoc(Start([5], 2), run, EndPass(true));
    run := run + [EndPass(true)];
    s := Final(Start([5], 2), run);
    assert s.workers == [Idle];
    Snoc(Start([5], 2), run, Take(0));
    run := run + [Take(0)];
    Snoc(Start([5], 2), run, Decide(0));
    run := run + [Decide(0)];
    Snoc(Start([5], 2), run, Take(0));
    run := run + [Take(0)];
    s := Final(Start([5], 2), run);
    assert s.workers == [Ended];
    assert FirstFailure(s.workers) == None by { assert s.workers[1..] == []; }
    Snoc(Start([5], 2), run, EndPass(true));
    run := run + [EndPass(true)];
  }

  lemma FirstPassLost() returns (run: seq<Step>)
    ensures Valid(Start([5], 2), run)
    ensures var s := Final(Start([5], 2), run);
      && s.phase == Running && s.workers == [Broken(false)] && s.stored == {0} && s.done == map[] && s.pass == 1
      && s.sizes == [5] && |s.puts| == 1
  {
    run := [];
    assert Final(Start([5], 2), run).workers == [Idle];
    Snoc(Start([5], 2), run, Take(0));
    run := run + [Take(0)];
    Snoc(Start([5], 2), run, Decide(0));
    run := run + [Decide(0)];
    Snoc(Start([5], 2), run, Put(0, LostAck));
    run := run + [Put(0, LostAck)];
    Snoc(Start([5], 2), run, Put(0, LostAck));
    run := run + [Put(0, LostAck)];
    Snoc(Start([5], 2), run, Put(0, LostAck));
    run := run + [Put(0, LostAck)];
    Snoc(Start([5], 2), run, Put(0, LostAck));
    run := run + [Put(0, LostAck)];
  }
}
