/** Claims and in-flight counts of the Discord senders are exact over all interleavings of uploads. */
module SenderAccounting {
  import opened Basics
  import opened DiscordSenders

  // -------------------------------------------------------------- invariant

  /** Uploads between claim and unclaim of one sender. */
  function Holding(s: State, id: SenderId): set<UploadId> {
    set u <- s.uploads | s.uploads[u].sender == id
  }

  /** Uploads with a request to this sender outstanding. */
  function Outstanding(s: State, id: SenderId): set<UploadId> {
    set u <- s.uploads | s.uploads[u].sender == id && s.uploads[u].phase.Fetching?
  }

  ghost predicate ClaimsExact(s: State) {
    && (forall id :: ActiveOf(s.claims, id) == |Holding(s, id)| <= MAX_CONCURRENT_PER_SENDER)
    && forall id <- s.claims :: s.claims[id] > 0
  }

  ghost predicate InFlightExact(s: State) {
    forall id :: InFlightOf(s.inFlight, id) == |Outstanding(s, id)|
  }

  predicate UploadOk(up: Upload) {
    && (up.kind == Bot ==> !up.relay)
    && match up.phase
       case Ready(k) => up.requests == k <= MAX_RETRIES
       case Fetching(k) => up.requests == k + 1 <= MAX_RETRIES + 1
       case Unwinding => up.requests <= MAX_RETRIES + 1
  }

  predicate UploadsOk(s: State) { forall u <- s.uploads :: UploadOk(s.uploads[u]) }

  ghost predicate Inv(s: State) { ClaimsExact(s) && InFlightExact(s) && UploadsOk(s) }

  /** An upload that moves on keeps its claim. */
  lemma MoveKeepsClaims(s: State, t: State, u: UploadId)
    requires ClaimsExact(s) && u in s.uploads && t.claims == s.claims
    requires exists up: Upload :: up.sender == s.uploads[u].sender && t.uploads == s.uploads[u := up]
    ensures ClaimsExact(t)
  {
    forall id ensures Holding(t, id) == Holding(s, id) {
    }
  }

  lemma SelectKeeps(s: State, u: UploadId, id: SenderId, kind: Kind, relay: bool)
    requires Inv(s) && Enabled(s, Select(u, id, kind, relay))
    ensures Inv(Apply(s, Select(u, id, kind, relay)))
  {
    var t := Apply(s, Select(u, id, kind, relay));
    assert Holding(t, id) == Holding(s, id) + {u};
    forall x | x != id ensures Holding(t, x) == Holding(s, x) {
    }
    forall x ensures Outstanding(t, x) == Outstanding(s, x) {
    }
  }

  lemma FinishKeeps(s: State, u: UploadId)
    requires Inv(s) && Enabled(s, Finish(u))
    ensures Inv(Apply(s, Finish(u)))
  {
    var t, id := Apply(s, Finish(u)), s.uploads[u].sender;
    assert u in Holding(s, id);
    assert Holding(t, id) == Holding(s, id) - {u};
    forall x | x != id ensures Holding(t, x) == Holding(s, x) {
    }
    forall x ensures Outstanding(t, x) == Outstanding(s, x) {
    }
  }

  lemma AttemptKeepsInFlight(s: State, u: UploadId)
    requires InFlightExact(s) && Enabled(s, Attempt(u))
    ensures InFlightExact(Apply(s, Attempt(u)))
  {
    var t, id := Apply(s, Attempt(u)), s.uploads[u].sender;
    assert Outstanding(t, id) == Outstanding(s, id) + {u};
    forall x | x != id ensures Outstanding(t, x) == Outstanding(s, x) {
    }
  }

  /** Both ends of a request return exactly what its start reserved. */
  lemma RequestEndKeepsInFlight(s: State, t: State, u: UploadId, up: Upload)
    requires InFlightExact(s) && u in s.uploads && s.uploads[u].phase.Fetching?
    requires !up.phase.Fetching? && up.sender == s.uploads[u].sender
    requires t.uploads == s.uploads[u := up] && t.inFlight == Released(s.inFlight, up.sender)
    ensures InFlightExact(t)
  {
    var id := up.sender;
    assert u in Outstanding(s, id);
    assert Outstanding(t, id) == Outstanding(s, id) - {u};
    forall x | x != id ensures Outstanding(t, x) == Outstanding(s, x) {
    }
  }

  lemma StepKeeps(s: State, step: Step)
    requires Inv(s) && Enabled(s, step)
    ensures Inv(Apply(s, step))
  {
    var t := Apply(s, step);
    match step
    case Select(u, id, kind, relay) => SelectKeeps(s, u, id, kind, relay);
    case Finish(u) => FinishKeeps(s, u);
    case Attempt(u) =>
      MoveKeepsClaims(s, t, u);
      AttemptKeepsInFlight(s, u);
    case NetworkFailure(u, failure) =>
      MoveKeepsClaims(s, t, u);
      RequestEndKeepsInFlight(s, t, u, AfterFailure(s.uploads[u], failure));
    case Response(u, reply) =>
      MoveKeepsClaims(s, t, u);
      RequestEndKeepsInFlight(s, t, u, AfterReply(s.uploads[u], reply));
  }

  lemma {:induction false} RunKeeps(s: State, run: seq<Step>)
    requires Inv(s) && Valid(s, run)
    ensures Inv(Final(s, run))
    decreases |run|
  {
    if run != [] {
      StepKeeps(s, run[0]);
      hide Inv;
      RunKeeps(Apply(s, run[0]), run[1..]);
    }
  }

  lemma InitialOk()
    ensures Inv(Initial)
  {
    assert forall id :: Holding(Initial, id) == {} && Outstanding(Initial, id) == {};
  }

  // ---------------------------------------------------------------- theorems

  /** s is a state of some interleaving. */
  ghost predicate Reached(s: State) {
    exists run :: Valid(Initial, run) && Final(Initial, run) == s
  }

  lemma ReachedKeeps(s: State)
    requires Reached(s)
    ensures Inv(s)
  {
    var run :| Valid(Initial, run) && Final(Initial, run) == s;
    InitialOk();
    RunKeeps(Initial, run);
  }

  /**
   In every run both counters are exact, no sender carries more than two uploads, no upload makes more
   than four requests.
   */
  lemma AccountingIsExact(s: State, id: SenderId)
    requires Reached(s)
    ensures ActiveOf(s.claims, id) == |Holding(s, id)| <= 2 && InFlightOf(s.inFlight, id) == |Outstanding(s, id)|
    ensures forall u <- s.uploads :: s.uploads[u].requests <= 4
  {
    ReachedKeeps(s);
  }

  /** When every upload has returned or thrown, nothing stays claimed or in flight. */
  lemma NothingLeftBehind(s: State)
    requires Reached(s) && s.uploads == map[]
    ensures s.claims == map[] && forall id :: InFlightOf(s.inFlight, id) == 0
  {
    ReachedKeeps(s);
    assert forall id :: Holding(s, id) == {} && Outstanding(s, id) == {};
    assert s.claims.Keys == {} by {
      forall id ensures id !in s.claims {
        assert ActiveOf(s.claims, id) == 0;
      }
    }
  }

  /** Neither fallback is ever taken: unclaim finds an entry, and release a positive count. */
  lemma ReturnsAreMatched(s: State, step: Step)
    requires Reached(s) && Enabled(s, step) && !step.Select?
    ensures var id := s.uploads[step.upload].sender;
      && (step.Finish? ==> id in s.claims && s.claims[id] > 0)
      && (step.NetworkFailure? || step.Response? ==> id in s.inFlight && s.inFlight[id] > 0)
  {
    ReachedKeeps(s);
    var id := s.uploads[step.upload].sender;
    if step.Finish? {
      assert step.upload in Holding(s, id);
      assert ActiveOf(s.claims, id) == |Holding(s, id)|;
    }
    if step.NetworkFailure? || step.Response? {
      assert step.upload in Outstanding(s, id);
      assert InFlightOf(s.inFlight, id) == |Outstanding(s, id)|;
    }
  }

  /** An answer leads to another request exactly when it is a 429 or a server error and fewer than four were made. */
  lemma RetriesIff(s: State, u: UploadId, reply: Reply)
    requires Reached(s) && Enabled(s, Response(u, reply))
    ensures Enabled(Apply(s, Response(u, reply)), Attempt(u))
      <==> (reply.TooManyRequests? || reply.ServerError?) && s.uploads[u].requests < 4
  {
    ReachedKeeps(s);
    assert UploadOk(s.uploads[u]);
  }

  /** A network failure does while attempts are left, except that a bot gives up on anything but a timeout. */
  lemma FailureRetriesIff(s: State, u: UploadId, failure: Failure)
    requires Reached(s) && Enabled(s, NetworkFailure(u, failure))
    ensures Enabled(Apply(s, NetworkFailure(u, failure)), Attempt(u))
      <==> s.uploads[u].requests < 4 && (s.uploads[u].kind == Bot ==> failure == Timeout)
  {
    ReachedKeeps(s);
    assert UploadOk(s.uploads[u]);
  }

  /** A dead relay leads to a direct request exactly when the failure was not on the last attempt. */
  lemma RelayFallsBackIff(s: State, u: UploadId, failure: Failure)
    requires Reached(s) && Enabled(s, NetworkFailure(u, failure)) && s.uploads[u].relay
    ensures var t := Apply(s, NetworkFailure(u, failure));
      Enabled(t, Attempt(u)) && Apply(t, Attempt(u)).uploads[u].directs == s.uploads[u].directs + 1
      <==> s.uploads[u].requests < 4
  {
    ReachedKeeps(s);
    assert UploadOk(s.uploads[u]);
  }

  lemma {:induction false} Snoc(s: State, run: seq<Step>, step: Step)
    requires Valid(s, run) && Enabled(Final(s, run), step)
    ensures Valid(s, run + [step]) && Final(s, run + [step]) == Apply(Final(s, run), step)
    decreases |run|
  {
    hide Enabled, Apply;
    if run == [] {
      assert run + [step] == [step] && [step][1..] == [];
    } else {
      assert (run + [step])[1..] == run[1..] + [step];
      Snoc(Apply(s, run[0]), run[1..], step);
    }
  }

  /** One more request through the relay, answered with 429. */
  lemma ThrottledOnce(run0: seq<Step>, k: nat) returns (run: seq<Step>)
    requires k < 3 && Valid(Initial, run0)
    requires Final(Initial, run0).uploads == map[0 := Upload(5, Webhook, true, Ready(k), k, 0)]
    ensures Valid(Initial, run)
      && Final(Initial, run).uploads == map[0 := Upload(5, Webhook, true, Ready(k + 1), k + 1, 0)]
  {
    Snoc(Initial, run0, Attempt(0));
    run := run0 + [Attempt(0)];
    Snoc(Initial, run, Response(0, TooManyRequests));
    run := run + [Response(0, TooManyRequests)];
  }

  /** Three 429 answers, then an unreachable relay: the upload fails without one direct request. */
  lemma DeadRelayCanFailTheUpload() returns (run: seq<Step>)
    ensures Valid(Initial, run)
    ensures Final(Initial, run).uploads == map[0 := Upload(5, Webhook, false, Unwinding, 4, 0)]
  {
    run := [Select(0, 5, Webhook, true)];
    assert run[1..] == [];
    assert Final(Initial, run) == Apply(Initial, run[0]);
    run := ThrottledOnce(run, 0);
    run := ThrottledOnce(run, 1);
    run := ThrottledOnce(run, 2);
    run := LastRelayAttempt(run);
  }

  lemma LastRelayAttempt(run0: seq<Step>) returns (run: seq<Step>)
    requires Valid(Initial, run0)
    requires Final(Initial, run0).uploads == map[0 := Upload(5, Webhook, true, Ready(3), 3, 0)]
    ensures Valid(Initial, run) && Final(Initial, run).uploads == map[0 := Upload(5, Webhook, false, Unwinding, 4, 0)]
  {
    Snoc(Initial, run0, Attempt(0));
    run := run0 + [Attempt(0)];
    Snoc(Initial, run, NetworkFailure(0, Unreachable));
    run := run + [NetworkFailure(0, Unreachable)];
  }
}
