/**
 The lock around the shared chunk iterator: a flag and a queue of wake-ups. A woken
 worker tests the flag again, so a worker that arrives in between may overtake it.
 */
module IteratorMutex {
  import opened Basics

  type Worker = nat

  datatype Phase =
    | Outside
    | Queued   // awaiting its wake-up
    | Woken    // wake-up resolved, flag not tested again yet
    | Inside   // inside chunkIter.next

  datatype State = State(iterLocked: bool, iterWaiters: seq<Worker>, phase: map<Worker, Phase>)

  function PhaseOf(s: State, w: Worker): Phase {
    if w in s.phase then s.phase[w] else Outside
  }

  /** A worker outside or just woken tests the flag. */
  function Tested(s: State, w: Worker): State {
    if s.iterLocked then s.(iterWaiters := s.iterWaiters + [w], phase := s.phase[w := Queued])
    else s.(iterLocked := true, phase := s.phase[w := Inside])
  }

  /** The finally branch, whether next() returned or threw: unlock, then wake the first waiter. */
  function Released(s: State, w: Worker): State {
    var freed := s.(iterLocked := false, phase := s.phase[w := Outside]);
    if s.iterWaiters == [] then freed
    else freed.(iterWaiters := s.iterWaiters[1..], phase := freed.phase[s.iterWaiters[0] := Woken])
  }

  class Lock {
    var iterLocked: bool
    var iterWaiters: seq<Worker>
    ghost var phase: map<Worker, Phase>

    ghost function View(): State
      reads this
    {
      State(iterLocked, iterWaiters, phase)
    }

    constructor ()
      ensures View() == Initial && Inv(View())
    {
      iterLocked, iterWaiters, phase := false, [], map[];
    }

    /** One test of the loop guard; `entered` is false when the caller now waits. */
    method Test(w: Worker) returns (entered: bool)
      requires Inv(View()) && (PhaseOf(View(), w).Outside? || PhaseOf(View(), w).Woken?)
      modifies this
      ensures Inv(View()) && View() == Tested(old(View()), w)
      ensures entered == !old(iterLocked)
    {
      TestKeeps(View(), w);
      if iterLocked {
        iterWaiters := iterWaiters + [w];
        phase := phase[w := Queued];
        return false;
      }
      iterLocked := true;
      phase := phase[w := Inside];
      entered := true;
    }

    method Release(w: Worker) returns (woken: Option<Worker>)
      requires Inv(View()) && PhaseOf(View(), w).Inside?
      modifies this
      ensures Inv(View()) && View() == Released(old(View()), w)
      ensures woken == if old(iterWaiters) == [] then None else Some(old(iterWaiters)[0])
    {
      ReleaseKeeps(View(), w);
      iterLocked := false;
      phase := phase[w := Outside];
      woken := None;
      if iterWaiters != [] {
        woken := Some(iterWaiters[0]);
        phase := phase[iterWaiters[0] := Woken];
        iterWaiters := iterWaiters[1..];
      }
    }
  }

  const Initial := State(false, [], map[])

  // -------------------------------------------------------------- invariant

  ghost predicate Exclusive(s: State) {
    && (forall v, w :: PhaseOf(s, v).Inside? && PhaseOf(s, w).Inside? ==> v == w)
    && (s.iterLocked <==> exists w :: PhaseOf(s, w).Inside?)
  }

  ghost predicate QueueExact(s: State) {
    && (forall w :: w in s.iterWaiters <==> PhaseOf(s, w).Queued?)
    && forall i, j :: 0 <= i < j < |s.iterWaiters| ==> s.iterWaiters[i] != s.iterWaiters[j]
  }

  /** No lost wake-up: while the lock is free and workers wait, one of them has been woken already. */
  ghost predicate WakeUpPending(s: State) {
    !s.iterLocked && s.iterWaiters != [] ==> exists w :: PhaseOf(s, w).Woken?
  }

  ghost predicate Inv(s: State) { Exclusive(s) && QueueExact(s) && WakeUpPending(s) }

  lemma TestKeeps(s: State, w: Worker)
    requires Inv(s) && (PhaseOf(s, w).Outside? || PhaseOf(s, w).Woken?)
    ensures Inv(Tested(s, w))
  {
    var t := Tested(s, w);
    assert forall v :: v != w ==> PhaseOf(t, v) == PhaseOf(s, v);
    if s.iterLocked {
      var v :| PhaseOf(s, v).Inside?;
      assert PhaseOf(t, v).Inside?;
    } else {
      assert forall v :: !PhaseOf(s, v).Inside?;
      assert PhaseOf(t, w).Inside?;
    }
  }

  lemma ReleaseKeeps(s: State, w: Worker)
    requires Inv(s) && PhaseOf(s, w).Inside?
    ensures Inv(Released(s, w))
  {
    var t := Released(s, w);
    assert forall v :: PhaseOf(t, v).Inside? ==> PhaseOf(s, v).Inside? && v != w;
    if s.iterWaiters != [] {
      assert s.iterWaiters[0] in s.iterWaiters && s.iterWaiters == [s.iterWaiters[0]] + s.iterWaiters[1..];
      assert PhaseOf(t, s.iterWaiters[0]).Woken?;
      forall v ensures v in t.iterWaiters <==> PhaseOf(t, v).Queued? {
        assert v in s.iterWaiters <==> v == s.iterWaiters[0] || v in t.iterWaiters;
      }
    }
  }

  datatype Step = Test(worker: Worker) | Release(worker: Worker)

  predicate Enabled(s: State, step: Step) {
    match step
    case Test(w) => PhaseOf(s, w).Outside? || PhaseOf(s, w).Woken?
    case Release(w) => PhaseOf(s, w).Inside?
  }

  function Apply(s: State, step: Step): State {
    match step
    case Test(w) => Tested(s, w)
    case Release(w) => Released(s, w)
  }

  predicate Valid(s: State, run: seq<Step>)
    decreases |run|
  {
    run == [] || (Enabled(s, run[0]) && Valid(Apply(s, run[0]), run[1..]))
  }

  function Final(s: State, run: seq<Step>): State
    decreases |run|
  {
    if run == [] then s else Final(Apply(s, run[0]), run[1..])
  }

  lemma {:induction false} RunKeeps(s: State, run: seq<Step>)
    requires Inv(s) && Valid(s, run)
    ensures Inv(Final(s, run))
    decreases |run|
  {
    if run != [] {
      match run[0] {
        case Test(w) => TestKeeps(s, w);
        case Release(w) => ReleaseKeeps(s, w);
      }
      RunKeeps(Apply(s, run[0]), run[1..]);
    }
  }

  /** At most one worker is inside chunkIter.next, in every interleaving. */
  lemma {:induction false} MutualExclusion(run: seq<Step>, v: Worker, w: Worker)
    requires Valid(Initial, run) && PhaseOf(Final(Initial, run), v).Inside? && PhaseOf(Final(Initial, run), w).Inside?
    ensures v == w
  {
    assert Inv(Initial);
    RunKeeps(Initial, run);
  }

  /** No worker is stranded: as long as one is queued, another is inside or about to test the flag again. */
  lemma {:induction false} NobodyStranded(run: seq<Step>, w: Worker)
    requires Valid(Initial, run) && PhaseOf(Final(Initial, run), w).Queued?
    ensures exists v :: PhaseOf(Final(Initial, run), v).Inside? || PhaseOf(Final(Initial, run), v).Woken?
  {
    assert Inv(Initial);
    RunKeeps(Initial, run);
    assert w in Final(Initial, run).iterWaiters;
  }

  /** A test enters exactly if nobody is inside, and queues up behind the others otherwise. */
  lemma {:induction false} EntersIff(run: seq<Step>, w: Worker)
    requires Valid(Initial, run) && Enabled(Final(Initial, run), Test(w))
    ensures var s := Final(Initial, run);
      var t := Apply(s, Test(w));
      && (PhaseOf(t, w).Inside? <==> forall v :: !PhaseOf(s, v).Inside?)
      && (PhaseOf(t, w).Queued? <==> exists v :: PhaseOf(s, v).Inside?)
      && t.iterWaiters == s.iterWaiters + (if PhaseOf(t, w).Queued? then [w] else [])
      && forall v :: v != w ==> PhaseOf(t, v) == PhaseOf(s, v)
  {
    assert Inv(Initial);
    RunKeeps(Initial, run);
  }

  /** A release leaves the lock free and wakes the first worker in the queue, and only that one. */
  lemma {:induction false} ReleaseWakesFirst(run: seq<Step>, w: Worker)
    requires Valid(Initial, run) && Enabled(Final(Initial, run), Release(w))
    ensures var s := Final(Initial, run);
      var t := Apply(s, Release(w));
      && (forall v :: !PhaseOf(t, v).Inside?) && PhaseOf(t, w).Outside?
      && t.iterWaiters == (if s.iterWaiters == [] then [] else s.iterWaiters[1..])
      && forall v :: v != w ==>
        PhaseOf(t, v) == if s.iterWaiters != [] && v == s.iterWaiters[0] then Woken else PhaseOf(s, v)
  {
    assert Inv(Initial);
    RunKeeps(Initial, run);
    var s := Final(Initial, run);
    ReleaseKeeps(s, w);
    assert s.iterWaiters != [] ==> s.iterWaiters[0] in s.iterWaiters;
  }

  function Releases(run: seq<Step>): nat {
    if run == [] then 0 else (if run[0].Release? then 1 else 0) + Releases(run[1..])
  }

  /** Wake-ups come in the order of arrival: a release moves each queued worker one place forward, past nobody. */
  lemma {:induction false} WaitsItsTurn(s: State, run: seq<Step>, w: Worker, i: nat)
    requires Inv(s) && Valid(s, run) && i < |s.iterWaiters| && s.iterWaiters[i] == w && Releases(run) <= i
    ensures var t := Final(s, run); i - Releases(run) < |t.iterWaiters| && t.iterWaiters[i - Releases(run)] == w
    decreases |run|
  {
    if run != [] {
      match run[0] {
        case Test(v) => TestKeeps(s, v);
        case Release(v) => ReleaseKeeps(s, v);
      }
      hide Inv;
      WaitsItsTurn(Apply(s, run[0]), run[1..], w, if run[0].Release? then i - 1 else i);
    }
  }
}
