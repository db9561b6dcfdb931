/**
 The universal upload engine: a pool of workers over a shared task index, and the
 streaming variant that keeps a queue of running uploads while it pulls chunks.
 */
module UploadEngine {
  import opened Basics

  // ------------------------------------------------------------------ runPool

  datatype Worker = Free | Busy(task: nat) | Ended | Threw

  /** `started` counts how often each task was begun. */
  datatype Pool = Pool(tasks: nat, nextIdx: nat, results: set<nat>, workers: seq<Worker>, started: seq<nat>)

  datatype PoolStep =
    | Take(worker: nat)
    | Abort(worker: nat)                 // signal.throwIfAborted
    | Complete(worker: nat, ok: bool)

  function StartPool(tasks: nat, concurrency: nat): Pool {
    Pool(tasks, 0, {}, seq(Min(concurrency, tasks) as nat, _ => Free), seq(tasks, _ => 0))
  }

  predicate PoolEnabled(p: Pool, step: PoolStep) {
    step.worker < |p.workers| && p.nextIdx <= p.tasks == |p.started| &&
    match step
    case Complete(w, _) => p.workers[w].Busy?
    case _ => p.workers[step.worker].Free?
  }

  function PoolApply(p: Pool, step: PoolStep): Pool
    requires PoolEnabled(p, step)
  {
    match step
    case Abort(w) => p.(workers := p.workers[w := Threw])
    case Take(w) =>
      if p.nextIdx >= p.tasks then p.(workers := p.workers[w := Ended])
      else p.(nextIdx := p.nextIdx + 1, workers := p.workers[w := Busy(p.nextIdx)],
              started := p.started[p.nextIdx := p.started[p.nextIdx] + 1])
    case Complete(w, ok) =>
      if ok then p.(results := p.results + {p.workers[w].task}, workers := p.workers[w := Free])
      else p.(workers := p.workers[w := Threw])
  }

  predicate PoolValid(p: Pool, run: seq<PoolStep>)
    decreases |run|
  {
    run == [] || (PoolEnabled(p, run[0]) && PoolValid(PoolApply(p, run[0]), run[1..]))
  }

  function PoolFinal(p: Pool, run: seq<PoolStep>): Pool
    requires PoolValid(p, run)
    decreases |run|
  {
    if run == [] then p else PoolFinal(PoolApply(p, run[0]), run[1..])
  }

  /** Each task below the shared index was begun once, no other one at all. */
  predicate StartedOnce(p: Pool) {
    && p.nextIdx <= p.tasks == |p.started|
    && forall i :: 0 <= i < p.tasks ==> p.started[i] == if i < p.nextIdx then 1 else 0
  }

  predicate WorkersApart(p: Pool) {
    && (forall w :: 0 <= w < |p.workers| && p.workers[w].Busy? ==>
      p.workers[w].task < p.nextIdx && p.workers[w].task !in p.results)
    && (forall v, w :: 0 <= v < w < |p.workers| && p.workers[v].Busy? && p.workers[w].Busy? ==>
      p.workers[v].task != p.workers[w].task)
    && (forall w :: 0 <= w < |p.workers| && p.workers[w].Ended? ==> p.nextIdx == p.tasks)
    && forall i <- p.results :: i < p.nextIdx
  }

  /** Unless a worker threw, every task begun has its result or is running. */
  ghost predicate NoneLost(p: Pool) {
    (exists w :: 0 <= w < |p.workers| && p.workers[w].Threw?)
    || forall i :: 0 <= i < p.nextIdx ==> i in p.results || exists w :: 0 <= w < |p.workers| && p.workers[w] == Busy(i)
  }

  ghost predicate PoolInv(p: Pool) {
    StartedOnce(p) && WorkersApart(p) && NoneLost(p) && (|p.workers| == 0 ==> p.tasks == 0)
  }

  lemma SwapKeepsNoneLost(p: Pool, q: Pool, w: nat)
    requires NoneLost(p) && w < |p.workers| == |q.workers|
    requires !p.workers[w].Threw? && q.workers == p.workers[w := q.workers[w]]
    requires p.results <= q.results && q.nextIdx <= p.nextIdx + 1
    requires q.workers[w].Threw? || !p.workers[w].Busy? || p.workers[w].task in q.results
    requires q.nextIdx == p.nextIdx + 1 ==> q.workers[w] == Busy(p.nextIdx)
    ensures NoneLost(q)
  {
    if v :| 0 <= v < |p.workers| && p.workers[v].Threw? {
      assert q.workers[v].Threw?;
    } else if q.workers[w].Threw? {
    } else {
      forall i | 0 <= i < q.nextIdx && i !in q.results
        ensures exists v :: 0 <= v < |q.workers| && q.workers[v] == Busy(i)
      {
        if i < p.nextIdx {
          var v :| 0 <= v < |p.workers| && p.workers[v] == Busy(i);
          assert q.workers[v] == Busy(i);
        } else {
          assert q.workers[w] == Busy(i);
        }
      }
    }
  }

  lemma PoolStepKeeps(p: Pool, step: PoolStep)
    requires PoolInv(p) && PoolEnabled(p, step)
    ensures PoolInv(PoolApply(p, step)) && |PoolApply(p, step).workers| == |p.workers|
      && PoolApply(p, step).tasks == p.tasks
  {
    SwapKeepsNoneLost(p, PoolApply(p, step), step.worker);
    hide NoneLost;
  }

  lemma {:induction false} PoolRunKeeps(p: Pool, run: seq<PoolStep>)
    requires PoolInv(p) && PoolValid(p, run)
    ensures PoolInv(PoolFinal(p, run)) && |PoolFinal(p, run).workers| == |p.workers|
      && PoolFinal(p, run).tasks == p.tasks
    decreases |run|
  {
    if run != [] {
      PoolStepKeeps(p, run[0]);
      hide PoolInv;
      PoolRunKeeps(PoolApply(p, run[0]), run[1..]);
    }
  }

  /**
   No task is begun twice, at most `concurrency` run at once, and when every worker ended each task was
   begun once and has its result.
   */
  lemma {:induction false} PoolRunsEachTaskOnce(tasks: nat, concurrency: nat, run: seq<PoolStep>)
    requires concurrency > 0 && PoolValid(StartPool(tasks, concurrency), run)
    ensures var p := PoolFinal(StartPool(tasks, concurrency), run);
      && |p.workers| <= concurrency && |p.started| == tasks
      && (forall i :: 0 <= i < tasks ==> p.started[i] <= 1)
      && ((forall w :: 0 <= w < |p.workers| ==> p.workers[w].Ended?) ==>
            forall i :: 0 <= i < tasks ==> p.started[i] == 1 && i in p.results)
  {
    PoolRunKeeps(StartPool(tasks, concurrency), run);
    var p := PoolFinal(StartPool(tasks, concurrency), run);
    if |p.workers| > 0 && forall w :: 0 <= w < |p.workers| ==> p.workers[w].Ended? {
      assert p.workers[0].Ended?;
      forall i | 0 <= i < tasks ensures i in p.results {
      }
    }
  }

  /** Steps the pool can still take: two for each task not begun, one for each running, one for each worker to end. */
  function PoolWork(p: Pool): nat {
    3 * (if p.nextIdx <= p.tasks then p.tasks - p.nextIdx else 0) + WorkersWork(p.workers)
  }

  function WorkersWork(workers: seq<Worker>): nat {
    if workers == [] then 0
    else
      var last := workers[|workers| - 1];
      WorkersWork(workers[..|workers| - 1]) + (if last.Busy? then 2 else if last.Free? then 1 else 0)
  }

  lemma {:induction false} OneWorkerLess(workers: seq<Worker>, w: nat, next: Worker)
    requires w < |workers|
    ensures WorkersWork(workers[w := next]) - WorkersWork([next]) == WorkersWork(workers) - WorkersWork([workers[w]])
  {
    var last := |workers| - 1;
    if w < last {
      OneWorkerLess(workers[..last], w, next);
      assert workers[w := next][..last] == workers[..last][w := next];
    } else {
      assert workers[w := next][..last] == workers[..last];
    }
  }

  lemma PoolStepWorks(p: Pool, step: PoolStep)
    requires PoolEnabled(p, step)
    ensures PoolWork(PoolApply(p, step)) < PoolWork(p)
  {
    OneWorkerLess(p.workers, step.worker, PoolApply(p, step).workers[step.worker]);
  }

  lemma {:induction false} PoolIsBounded(p: Pool, run: seq<PoolStep>)
    requires PoolInv(p) && PoolValid(p, run)
    ensures |run| + PoolWork(PoolFinal(p, run)) <= PoolWork(p)
    decreases |run|
  {
    if run != [] {
      PoolStepKeeps(p, run[0]);
      PoolStepWorks(p, run[0]);
      hide PoolInv, PoolWork;
      PoolIsBounded(PoolApply(p, run[0]), run[1..]);
    }
  }

  ghost predicate PoolStuck(p: Pool) { forall step :: !PoolEnabled(p, step) }

  /** The pool ends: it takes boundedly many steps, and when none is left every worker has ended or thrown. */
  lemma {:induction false} PoolEnds(tasks: nat, concurrency: nat, run: seq<PoolStep>)
    requires concurrency > 0 && PoolValid(StartPool(tasks, concurrency), run)
    ensures |run| <= PoolWork(StartPool(tasks, concurrency))
    ensures var p := PoolFinal(StartPool(tasks, concurrency), run);
      PoolStuck(p) ==> forall w :: 0 <= w < |p.workers| ==> p.workers[w].Ended? || p.workers[w].Threw?
  {
    PoolIsBounded(StartPool(tasks, concurrency), run);
    PoolRunKeeps(StartPool(tasks, concurrency), run);
    var p := PoolFinal(StartPool(tasks, concurrency), run);
    forall w | 0 <= w < |p.workers| && !p.workers[w].Ended? && !p.workers[w].Threw? ensures !PoolStuck(p) {
      assert PoolEnabled(p, if p.workers[w].Busy? then Complete(w, true) else Take(w));
    }
  }

  /** A failing task throws in its worker, and nothing else does but an abort. */
  lemma ThrowsIff(p: Pool, step: PoolStep, w: nat)
    requires PoolEnabled(p, step) && w < |p.workers|
    ensures PoolApply(p, step).workers[w].Threw?
      <==> p.workers[w].Threw? || (w == step.worker && (step.Abort? || (step.Complete? && !step.ok)))
  {
  }

  // ------------------------------------------------------------- uploadStream

  datatype Phase =
    | Pulling                       // awaiting the next chunk of the iterator
    | Racing(entrants: set<nat>)    // awaiting Promise.race, a chunk in hand
    | Resuming                      // the race was won, the chunk in hand not started yet
    | Draining                      // awaiting Promise.all
    | Resolved
    | Rejected

  datatype Stream = Stream(
    concurrency: nat,
    queue: set<nat>,          // running uploads
    begun: nat,               // chunks whose upload was started
    stored: set<nat>,
    failed: set<nat>,
    phase: Phase)

  datatype Step = Yield | IteratorThrows | IteratorEnds | Settle(chunk: nat, ok: bool) | Resume

  function StartStream(concurrency: nat): Stream {
    Stream(concurrency, {}, 0, {}, {}, Pulling)
  }

  function Begin(s: Stream): Stream {
    s.(queue := s.queue + {s.begun}, begun := s.begun + 1, phase := Pulling)
  }

  /** An upload settles: it leaves the queue before anyone awaiting it hears of it. */
  function Settled(s: Stream, j: nat, ok: bool): Stream {
    var t := s.(queue := s.queue - {j}, stored := if ok then s.stored + {j} else s.stored,
                failed := if ok then s.failed else s.failed + {j});
    if !Awaited(s, j) then t
    else if !ok then t.(phase := Rejected)
    else if s.phase.Racing? then t.(phase := Resuming)
    else if t.queue == {} then t.(phase := Resolved) else t
  }

  /** The race or the final wait of this moment includes upload j. */
  predicate Awaited(s: Stream, j: nat) {
    s.phase.Draining? || (s.phase.Racing? && j in s.phase.entrants)
  }

  predicate Enabled(s: Stream, step: Step) {
    match step
    case Yield => s.phase.Pulling?
    case IteratorThrows => s.phase.Pulling?
    case IteratorEnds => s.phase.Pulling?
    case Settle(j, _) => j in s.queue
    case Resume => s.phase.Resuming?
  }

  function Apply(s: Stream, step: Step): Stream {
    match step
    case Yield => if |s.queue| >= s.concurrency then s.(phase := Racing(s.queue)) else Begin(s)
    case IteratorThrows => s.(phase := Rejected)
    case IteratorEnds => s.(phase := if s.queue == {} then Resolved else Draining)
    case Settle(j, ok) => Settled(s, j, ok)
    case Resume => Begin(s)
  }

  predicate Valid(s: Stream, run: seq<Step>)
    decreases |run|
  {
    run == [] || (Enabled(s, run[0]) && Valid(Apply(s, run[0]), run[1..]))
  }

  function Final(s: Stream, run: seq<Step>): Stream
    decreases |run|
  {
    if run == [] then s else Final(Apply(s, run[0]), run[1..])
  }

  /** Running, stored and failed uploads are apart and together all that were begun. */
  predicate Accounted(s: Stream) {
    && (forall i :: 0 <= i < s.begun ==> i in s.queue || i in s.stored || i in s.failed)
    && (forall i <- s.queue :: i < s.begun && i !in s.stored && i !in s.failed)
    && (forall i <- s.stored :: i < s.begun && i !in s.failed)
    && forall i <- s.failed :: i < s.begun
  }

  predicate QueueBounded(s: Stream) {
    && |s.queue| <= s.concurrency
    && (s.phase.Resuming? ==> |s.queue| < s.concurrency)
    && (s.phase.Racing? ==> s.queue == s.phase.entrants && s.queue != {})
    && (s.phase.Draining? ==> s.queue != {})
    && (s.phase.Resolved? ==> s.queue == {})
  }

  predicate Inv(s: Stream) { Accounted(s) && QueueBounded(s) && s.concurrency > 0 }

  lemma StepKeeps(s: Stream, step: Step)
    requires Inv(s) && Enabled(s, step)
    ensures Inv(Apply(s, step)) && Apply(s, step).concurrency == s.concurrency
  {
    if step.Settle? {
      SettleKeeps(s, step.chunk, step.ok);
    }
  }

  lemma SettleKeeps(s: Stream, j: nat, ok: bool)
    requires Inv(s) && j in s.queue
    ensures Inv(Settled(s, j, ok))
  {
    assert |s.queue - {j}| == |s.queue| - 1;
  }

  lemma {:induction false} RunKeeps(s: Stream, run: seq<Step>)
    requires Inv(s) && Valid(s, run)
    ensures Inv(Final(s, run)) && Final(s, run).concurrency == s.concurrency
    decreases |run|
  {
    if run != [] {
      StepKeeps(s, run[0]);
      hide Inv;
      RunKeeps(Apply(s, run[0]), run[1..]);
    }
  }

  /** At most `concurrency` uploads run at once, and every chunk begun is running, stored or failed. */
  lemma {:induction false} StreamIsBounded(concurrency: nat, run: seq<Step>)
    requires concurrency > 0 && Valid(StartStream(concurrency), run)
    ensures |Final(StartStream(concurrency), run).queue| <= concurrency
      && Accounted(Final(StartStream(concurrency), run))
  {
    RunKeeps(StartStream(concurrency), run);
  }

  // ------------------------------------------------------------ what failures do

  predicate Fails(step: Step) { step.Settle? && !step.ok }

  /** The failure of an upload that neither a race nor the final wait is waiting for. */
  predicate Unheard(s: Stream, step: Step) { Fails(step) && !Awaited(s, step.chunk) }

  /** A throwing iterator, or a failure that a race or the final wait is waiting for. */
  predicate Heard(s: Stream, step: Step) { step.IteratorThrows? || (Fails(step) && Awaited(s, step.chunk)) }

  ghost predicate HasUnheard(s: Stream, run: seq<Step>) {
    exists k :: 0 <= k < |run| && Unheard(Final(s, run[..k]), run[k])
  }

  ghost predicate HasHeard(s: Stream, run: seq<Step>) {
    exists k :: 0 <= k < |run| && Heard(Final(s, run[..k]), run[k])
  }

  lemma FinalOfPrefix(s: Stream, run: seq<Step>, k: nat)
    requires 0 < k <= |run|
    ensures Final(s, run[..k]) == Final(Apply(s, run[0]), run[1..][..k - 1])
  {
    assert run[..k][1..] == run[1..][..k - 1];
  }

  lemma FirstOrLater(s: Stream, run: seq<Step>)
    requires run != []
    ensures HasUnheard(s, run) <==> Unheard(s, run[0]) || HasUnheard(Apply(s, run[0]), run[1..])
    ensures HasHeard(s, run) <==> Heard(s, run[0]) || HasHeard(Apply(s, run[0]), run[1..])
  {
    var t := Apply(s, run[0]);
    assert Final(s, run[..0]) == s;
    forall k | 0 < k < |run|
      ensures Final(s, run[..k]) == Final(t, run[1..][..k - 1]) && run[k] == run[1..][k - 1]
    {
      FinalOfPrefix(s, run, k);
    }
    hide Unheard, Heard, Final, Apply;
    if k :| 0 <= k < |run[1..]| && Unheard(Final(t, run[1..][..k]), run[1..][k]) {
      assert Unheard(Final(s, run[..k + 1]), run[k + 1]);
    }
    if k :| 0 <= k < |run[1..]| && Heard(Final(t, run[1..][..k]), run[1..][k]) {
      assert Heard(Final(s, run[..k + 1]), run[k + 1]);
    }
  }

  lemma StepOutcome(s: Stream, step: Step)
    requires Enabled(s, step)
    ensures Apply(s, step).phase.Rejected? <==> s.phase.Rejected? || Heard(s, step)
    ensures Apply(s, step).failed != {} <==> s.failed != {} || Fails(step)
  {
    if Fails(step) {
      assert step.chunk in Apply(s, step).failed;
    }
  }

  lemma {:induction false} RunOutcome(s: Stream, run: seq<Step>)
    requires Valid(s, run)
    ensures Final(s, run).phase.Rejected? <==> s.phase.Rejected? || HasHeard(s, run)
    ensures HasUnheard(s, run) || s.failed != {} ==> Final(s, run).failed != {}
    ensures Final(s, run).failed != {} ==> s.failed != {} || HasUnheard(s, run) || HasHeard(s, run)
    decreases |run|
  {
    if run != [] {
      StepOutcome(s, run[0]);
      FirstOrLater(s, run);
      RunOutcome(Apply(s, run[0]), run[1..]);
    }
  }

  /**
   A resolved uploadStream has stored every chunk exactly when the run has no step at which an
   upload fails while no race that it entered and no final wait is pending.
   */
  lemma {:induction false} ResolvedMeansStoredIff(concurrency: nat, run: seq<Step>)
    requires concurrency > 0 && Valid(StartStream(concurrency), run)
      && Final(StartStream(concurrency), run).phase.Resolved?
    ensures var s := Final(StartStream(concurrency), run);
      (forall i :: 0 <= i < s.begun ==> i in s.stored) <==> !HasUnheard(StartStream(concurrency), run)
  {
    RunKeeps(StartStream(concurrency), run);
    RunOutcome(StartStream(concurrency), run);
    var s := Final(StartStream(concurrency), run);
    hide HasUnheard, HasHeard, Final, Valid;
    if i :| i in s.failed {
      assert i < s.begun && i !in s.stored;
    }
  }

  /** It rejects exactly when the iterator threw or an upload failed while it was being awaited. */
  lemma {:induction false} RejectedIff(concurrency: nat, run: seq<Step>)
    requires Valid(StartStream(concurrency), run)
    ensures Final(StartStream(concurrency), run).phase.Rejected? <==> HasHeard(StartStream(concurrency), run)
  {
    RunOutcome(StartStream(concurrency), run);
  }

  // ------------------------------------------------------------- it comes to an end

  ghost predicate CanStep(s: Stream) { exists step :: Enabled(s, step) }

  /** Nothing hangs: a stream in which nothing can happen any more has resolved or rejected. */
  lemma {:induction false} StuckMeansOver(concurrency: nat, run: seq<Step>)
    requires concurrency > 0 && Valid(StartStream(concurrency), run)
    ensures var s := Final(StartStream(concurrency), run); CanStep(s) || s.phase.Resolved? || s.phase.Rejected?
  {
    RunKeeps(StartStream(concurrency), run);
    var s := Final(StartStream(concurrency), run);
    match s.phase
    case Pulling => assert Enabled(s, IteratorEnds);
    case Resuming => assert Enabled(s, Resume);
    case Racing(_) => var j :| j in s.queue; assert Enabled(s, Settle(j, true));
    case Draining => var j :| j in s.queue; assert Enabled(s, Settle(j, true));
    case Resolved =>
    case Rejected =>
  }

  lemma AfterTheEnd(s: Stream, step: Step)
    requires Enabled(s, step) && (s.phase.Draining? || s.phase.Resolved? || s.phase.Rejected? || step.IteratorEnds?)
    ensures var t := Apply(s, step); t.phase.Draining? || t.phase.Resolved? || t.phase.Rejected?
  {
  }

  lemma {:induction false} EndedPhase(s: Stream, run: seq<Step>)
    requires Valid(s, run)
    requires IteratorEnds in run || s.phase.Draining? || s.phase.Resolved? || s.phase.Rejected?
    ensures var t := Final(s, run); t.phase.Draining? || t.phase.Resolved? || t.phase.Rejected?
    decreases |run|
  {
    if run != [] {
      if s.phase.Draining? || s.phase.Resolved? || s.phase.Rejected? || run[0].IteratorEnds? {
        AfterTheEnd(s, run[0]);
      }
      EndedPhase(Apply(s, run[0]), run[1..]);
    }
  }

  /**
   Once the iterator has ended, and nothing was heard to fail, the stream resolves exactly when
   every upload it began has settled.
   */
  lemma {:induction false} ResolvesIff(concurrency: nat, run: seq<Step>)
    requires concurrency > 0 && Valid(StartStream(concurrency), run)
    requires IteratorEnds in run && !HasHeard(StartStream(concurrency), run)
    ensures var s := Final(StartStream(concurrency), run);
      s.phase.Resolved? <==> forall i :: 0 <= i < s.begun ==> i in s.stored || i in s.failed
  {
    RunKeeps(StartStream(concurrency), run);
    RunOutcome(StartStream(concurrency), run);
    EndedPhase(StartStream(concurrency), run);
    var s := Final(StartStream(concurrency), run);
    hide HasHeard, HasUnheard, Valid, Final;
    if s.phase.Draining? {
      var j :| j in s.queue;
      assert j < s.begun && j !in s.stored && j !in s.failed;
    }
  }

  /** The chunks the iterator handed out. */
  function Yields(run: seq<Step>): nat {
    if run == [] then 0 else (if run[0].Yield? then 1 else 0) + Yields(run[1..])
  }

  /** The chunk in hand whose upload has not begun. */
  function InHand(phase: Phase): nat { if phase.Racing? || phase.Resuming? then 1 else 0 }

  /** Settlements, resumptions and an end that are still to come. */
  function StreamWork(s: Stream): nat {
    |s.queue| + match s.phase case Pulling => 1 case Racing(_) => 3 case Resuming => 3 case Draining => 0
                case Resolved => 0 case Rejected => 0
  }

  lemma StepProgress(s: Stream, step: Step)
    requires Inv(s) && Enabled(s, step)
    ensures var t := Apply(s, step);
      && (t.phase.Rejected? || t.begun + InHand(t.phase) == s.begun + InHand(s.phase) + (if step.Yield? then 1 else 0))
      && 1 + StreamWork(t) <= StreamWork(s) + (if step.Yield? then 3 else 0)
  {
    if step.Settle? {
      assert |s.queue - {step.chunk}| == |s.queue| - 1;
    }
  }

  /** Every chunk handed out gets its upload, unless the stream rejects, and the stream takes boundedly many steps. */
  lemma {:induction false} RunProgress(s: Stream, run: seq<Step>)
    requires Inv(s) && Valid(s, run)
    ensures var t := Final(s, run);
      && (t.phase.Rejected? || t.begun + InHand(t.phase) == s.begun + InHand(s.phase) + Yields(run))
      && |run| + StreamWork(t) <= StreamWork(s) + 3 * Yields(run)
    decreases |run|
  {
    if run != [] {
      StepProgress(s, run[0]);
      StepKeeps(s, run[0]);
      if Apply(s, run[0]).phase.Rejected? { RejectedStays(Apply(s, run[0]), run[1..]); }
      hide Inv, StreamWork, InHand, Apply;
      RunProgress(Apply(s, run[0]), run[1..]);
    }
  }

  lemma {:induction false} RejectedStays(s: Stream, run: seq<Step>)
    requires Valid(s, run) && s.phase.Rejected?
    ensures Final(s, run).phase.Rejected?
    decreases |run|
  {
    if run != [] {
      RejectedStays(Apply(s, run[0]), run[1..]);
    }
  }

  /**
   Every chunk the iterator handed out is begun, but for the one in hand while the queue is full, unless the stream
   rejects; and n chunks take at most 3 n + 1 steps in all.
   */
  lemma {:induction false} EveryChunkIsBegun(concurrency: nat, run: seq<Step>)
    requires concurrency > 0 && Valid(StartStream(concurrency), run)
    ensures var s := Final(StartStream(concurrency), run);
      s.phase.Rejected? || s.begun + InHand(s.phase) == Yields(run)
    ensures |run| <= 3 * Yields(run) + 1
  {
    RunProgress(StartStream(concurrency), run);
  }

  /** A settled upload is stored exactly if it succeeded, and leaves the queue. */
  lemma SettlesIff(s: Stream, j: nat, ok: bool)
    requires Inv(s) && Enabled(s, Settle(j, ok))
    ensures var t := Apply(s, Settle(j, ok));
      && (j in t.stored <==> ok) && (j in t.failed <==> !ok) && j !in t.queue
      && forall i :: i != j ==>
        && (i in t.stored <==> i in s.stored) && (i in t.failed <==> i in s.failed) && (i in t.queue <==> i in s.queue)
  {
  }

  /**
   The upload of the only chunk fails while the iterator is being asked for the next one: success
   is reported. A promise that fails with nobody waiting raises an unhandled rejection, which browsers
   and service workers only log; Node, unless configured otherwise, ends the process instead.
   */
  lemma FailureCanGoUnheard(concurrency: nat) returns (run: seq<Step>)
    requires concurrency > 0
    ensures Valid(StartStream(concurrency), run)
    ensures var s := Final(StartStream(concurrency), run);
      s.phase.Resolved? && s.begun == 1 && s.failed == {0} && s.stored == {}
  {
    run := [Yield, Settle(0, false), IteratorEnds];
    var s := StartStream(concurrency);
    var s1 := Apply(s, Yield);
    var s2 := Apply(s1, Settle(0, false));
    assert run[1..] == [Settle(0, false), IteratorEnds] && run[1..][1..] == [IteratorEnds] && run[1..][1..][1..] == [];
    assert s1.queue == {0} && s2.queue == {} && s2.phase.Pulling?;
    assert Final(s2, [IteratorEnds]) == Apply(s2, IteratorEnds) by { assert [IteratorEnds][1..] == []; }
    assert Valid(s2, [IteratorEnds]) by { assert [IteratorEnds][1..] == []; }
    assert Valid(s1, run[1..]) && Final(s1, run[1..]) == Apply(s2, IteratorEnds);
  }
}
