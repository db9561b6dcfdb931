/** Telegram uploads are exclusive and paced over all interleavings. */
module TelegramPacing {
  import opened Basics
  import opened TelegramLimiter

  // -------------------------------------------------------------- invariant

  predicate Exclusive(s: State) {
    forall u, v :: u in s.uploads && v in s.uploads && s.uploads[u].bot == s.uploads[v].bot ==> u == v
  }

  predicate Holds(s: State, b: BotId) {
    exists u :: u in s.uploads && s.uploads[u].bot == b
  }

  function Load(phase: Phase): nat {
    if phase.Fetching? then 2 else 1
  }

  /** A bot's count is one for the upload holding it, and one more while its request is outstanding. */
  ghost predicate LoadExact(s: State) {
    && (forall u <- s.uploads :: Lookup(s.senders, s.uploads[u].bot).inFlight == Load(s.uploads[u].phase))
    && (forall b :: !Holds(s, b) ==> Lookup(s.senders, b).inFlight == 0)
  }

  predicate SendsBlock(s: State) {
    forall e <- s.sent :: e.at <= s.clock && e.at + s.interval <= Lookup(s.senders, e.bot).nextAllowedAt
  }

  /** An upload that may still record a send was selected after the pause following every earlier one. */
  predicate Cleared(s: State) {
    forall u <- s.uploads :: s.uploads[u].started <= s.clock && (!s.uploads[u].phase.Unwinding? ==>
      forall e <- s.sent :: e.bot == s.uploads[u].bot ==> e.at + s.interval <= s.uploads[u].started)
  }

  predicate Paced(sent: seq<Send>, interval: nat) {
    forall i, j :: 0 <= i < j < |sent| && sent[i].bot == sent[j].bot ==> sent[i].at + interval <= sent[j].at
  }

  predicate RequestsExact(s: State) {
    forall u <- s.uploads ::
      var up := s.uploads[u];
      match up.phase
      case Ready(k) => up.requests == k <= MAX_RETRIES
      case Fetching(k) => up.requests == k + 1 <= MAX_RETRIES + 1
      case Parsing(k) => up.requests == k + 1 <= MAX_RETRIES + 1
      case Unwinding => up.requests <= MAX_RETRIES + 1
  }

  ghost predicate Inv(s: State) {
    Exclusive(s) && LoadExact(s) && SendsBlock(s) && Cleared(s) && Paced(s.sent, s.interval) && RequestsExact(s)
  }

  /** A bot stays held while its upload stays. */
  lemma HoldsStays(s: State, t: State, b: BotId)
    requires Holds(s, b)
    requires forall u <- s.uploads :: s.uploads[u].bot == b ==> u in t.uploads && t.uploads[u].bot == b
    ensures Holds(t, b)
  {
  }

  lemma SelectKeepsLoad(s: State, u: UploadId, b: BotId)
    requires Exclusive(s) && LoadExact(s) && Enabled(s, Select(u, b))
    ensures Exclusive(Apply(s, Select(u, b))) && LoadExact(Apply(s, Select(u, b)))
  {
    var t := Apply(s, Select(u, b));
    assert !Holds(s, b);
    assert t.uploads[u].bot == b && Holds(t, b);
    forall x | Holds(s, x) ensures Holds(t, x) { HoldsStays(s, t, x); }
  }

  lemma SelectKeeps(s: State, u: UploadId, b: BotId)
    requires Inv(s) && Enabled(s, Select(u, b))
    ensures Inv(Apply(s, Select(u, b)))
  {
    SelectKeepsLoad(s, u, b);
    hide LoadExact;
  }

  /** Steps of an upload that keep it alive: the load follows its phase, every other bot stays. */
  lemma MoveKeepsLoad(s: State, u: UploadId, senders: Senders, up: Upload)
    requires Exclusive(s) && LoadExact(s) && u in s.uploads && up.bot == s.uploads[u].bot
    requires Lookup(senders, up.bot).inFlight == Load(up.phase)
    requires forall b :: b != up.bot ==> Lookup(senders, b).inFlight == Lookup(s.senders, b).inFlight
    ensures Exclusive(Moved(s, u, senders, up)) && LoadExact(Moved(s, u, senders, up))
  {
    var t := Moved(s, u, senders, up);
    assert Holds(t, up.bot) by { assert u in t.uploads; }
    forall b | Holds(s, b) ensures Holds(t, b) { HoldsStays(s, t, b); }
  }

  /** Pauses only grow and the upload has not gone back before its send. */
  lemma MoveKeepsTimes(s: State, u: UploadId, senders: Senders, up: Upload)
    requires SendsBlock(s) && Cleared(s) && u in s.uploads
    requires up.bot == s.uploads[u].bot && up.started == s.uploads[u].started && !s.uploads[u].phase.Unwinding?
    requires forall b :: Lookup(senders, b).nextAllowedAt >= Lookup(s.senders, b).nextAllowedAt
    ensures SendsBlock(Moved(s, u, senders, up)) && Cleared(Moved(s, u, senders, up))
  {
  }

  lemma FinishKeepsLoad(s: State, u: UploadId)
    requires Exclusive(s) && LoadExact(s) && Enabled(s, Finish(u))
    ensures Exclusive(Apply(s, Finish(u))) && LoadExact(Apply(s, Finish(u)))
  {
    var t, b := Apply(s, Finish(u)), s.uploads[u].bot;
    forall x | Holds(s, x) && x != b ensures Holds(t, x) { HoldsStays(s, t, x); }
  }

  lemma FinishKeeps(s: State, u: UploadId)
    requires Inv(s) && Enabled(s, Finish(u))
    ensures Inv(Apply(s, Finish(u)))
  {
    FinishKeepsLoad(s, u);
    hide LoadExact;
  }

  lemma AcceptKeepsTimes(s: State, u: UploadId, reply: Reply)
    requires Exclusive(s) && SendsBlock(s) && Cleared(s) && Paced(s.sent, s.interval)
    requires Enabled(s, Parse(u, reply)) && reply.Accepted?
    ensures var t := Apply(s, Parse(u, reply)); SendsBlock(t) && Cleared(t) && Paced(t.sent, t.interval)
  {
    AcceptedBlocks(s, u, reply);
    AcceptedIsCleared(s, u, reply);
    AcceptedIsPaced(s, u, reply);
    hide Exclusive, SendsBlock, Cleared, Paced, Apply, Enabled;
  }

  lemma AcceptedBlocks(s: State, u: UploadId, reply: Reply)
    requires Exclusive(s) && SendsBlock(s) && Cleared(s) && Enabled(s, Parse(u, reply)) && reply.Accepted?
    ensures SendsBlock(Apply(s, Parse(u, reply)))
  {
  }

  lemma AcceptedIsCleared(s: State, u: UploadId, reply: Reply)
    requires Exclusive(s) && SendsBlock(s) && Cleared(s) && Enabled(s, Parse(u, reply)) && reply.Accepted?
    ensures Cleared(Apply(s, Parse(u, reply)))
  {
  }

  lemma AcceptedIsPaced(s: State, u: UploadId, reply: Reply)
    requires SendsBlock(s) && Cleared(s) && Paced(s.sent, s.interval)
    requires Enabled(s, Parse(u, reply)) && reply.Accepted?
    ensures var t := Apply(s, Parse(u, reply)); Paced(t.sent, t.interval)
  {
  }

  lemma ParseKeeps(s: State, u: UploadId, reply: Reply)
    requires Inv(s) && Enabled(s, Parse(u, reply))
    ensures Inv(Apply(s, Parse(u, reply)))
  {
    ParseKeepsLoad(s, u, reply);
    ParseKeepsRequests(s, u, reply);
    if reply.Accepted? {
      AcceptKeepsTimes(s, u, reply);
    } else {
      OtherReplyKeepsTimes(s, u, reply);
    }
    hide LoadExact, Exclusive, SendsBlock, Cleared, Paced, RequestsExact, Apply, Enabled;
  }

  /** Apart from a recorded send, an answer moves one upload and its bot's entry. */
  lemma ParseMoves(s: State, u: UploadId, reply: Reply)
    requires Enabled(s, Parse(u, reply))
    ensures var t := Apply(s, Parse(u, reply));
      && u in t.uploads && t.(sent := s.sent) == Moved(s, u, t.senders, t.uploads[u])
      && (!reply.Accepted? ==> t.sent == s.sent)
  {
  }

  lemma ParseKeepsRequests(s: State, u: UploadId, reply: Reply)
    requires RequestsExact(s) && Enabled(s, Parse(u, reply))
    ensures RequestsExact(Apply(s, Parse(u, reply)))
  {
  }

  lemma ParseKeepsLoad(s: State, u: UploadId, reply: Reply)
    requires Exclusive(s) && LoadExact(s) && Enabled(s, Parse(u, reply))
    ensures Exclusive(Apply(s, Parse(u, reply))) && LoadExact(Apply(s, Parse(u, reply)))
  {
    var t := Apply(s, Parse(u, reply));
    ParseMoves(s, u, reply);
    MoveKeepsLoad(s, u, t.senders, t.uploads[u]);
    hide LoadExact, Exclusive, Apply, Enabled;
    LoadIgnoresHistory(t, s.sent);
  }

  lemma OtherReplyKeepsTimes(s: State, u: UploadId, reply: Reply)
    requires SendsBlock(s) && Cleared(s) && Paced(s.sent, s.interval) && Enabled(s, Parse(u, reply)) && !reply.Accepted?
    ensures var t := Apply(s, Parse(u, reply)); SendsBlock(t) && Cleared(t) && Paced(t.sent, t.interval)
  {
    var t := Apply(s, Parse(u, reply));
    ParseMoves(s, u, reply);
    assert t == Moved(s, u, t.senders, t.uploads[u]) && t.interval == s.interval;
    hide SendsBlock, Cleared, Paced;
    MoveKeepsTimes(s, u, t.senders, t.uploads[u]);
  }

  lemma LoadIgnoresHistory(s: State, sent: seq<Send>)
    requires Exclusive(s.(sent := sent)) && LoadExact(s.(sent := sent))
    ensures Exclusive(s) && LoadExact(s)
  {
    assert forall b :: Holds(s.(sent := sent), b) == Holds(s, b);
  }

  lemma FetchKeepsRequests(s: State, step: Step)
    requires RequestsExact(s) && Enabled(s, step) && (step.Attempt? || step.NetworkFailure? || step.Response?)
    ensures RequestsExact(Apply(s, step))
  {
  }

  lemma FetchKeepsLoad(s: State, step: Step)
    requires Exclusive(s) && LoadExact(s) && Enabled(s, step)
      && (step.Attempt? || step.NetworkFailure? || step.Response?)
    ensures Exclusive(Apply(s, step)) && LoadExact(Apply(s, step))
  {
    var u, t := step.upload, Apply(s, step);
    MoveKeepsLoad(s, u, t.senders, t.uploads[u]);
  }

  /** Reserving, a failed fetch and an arriving response. */
  lemma FetchKeeps(s: State, step: Step)
    requires Inv(s) && Enabled(s, step) && (step.Attempt? || step.NetworkFailure? || step.Response?)
    ensures Inv(Apply(s, step))
  {
    hide Paced, SendsBlock, Cleared;
    var u, t := step.upload, Apply(s, step);
    assert t == Moved(s, u, t.senders, t.uploads[u]);
    MoveKeepsTimes(s, u, t.senders, t.uploads[u]);
    FetchKeepsLoad(s, step);
    FetchKeepsRequests(s, step);
    hide LoadExact, Exclusive, RequestsExact;
  }

  lemma PenaltyKeeps(s: State, b: BotId, ms: nat)
    requires Inv(s)
    ensures Inv(s.(senders := Penalized(s.senders, b, s.clock, ms)))
  {
    var t := s.(senders := Penalized(s.senders, b, s.clock, ms));
    assert forall x :: Holds(t, x) == Holds(s, x);
  }

  lemma TickKeeps(s: State, elapsed: nat)
    requires Inv(s)
    ensures Inv(s.(clock := s.clock + elapsed))
  {
    assert forall x :: Holds(s.(clock := s.clock + elapsed), x) == Holds(s, x);
  }

  lemma {:induction false} RunKeeps(s: State, run: seq<Step>)
    requires Inv(s) && Valid(s, run)
    ensures Inv(Final(s, run)) && Final(s, run).interval == s.interval
    decreases |run|
  {
    hide Inv;
    if run != [] {
      match run[0] {
        case Select(u, b) => SelectKeeps(s, u, b);
        case Parse(u, reply) => ParseKeeps(s, u, reply);
        case Finish(u) => FinishKeeps(s, u);
        case ReadLimited(b, ms) => PenaltyKeeps(s, b, ms);
        case Tick(elapsed) => TickKeeps(s, elapsed);
        case _ => FetchKeeps(s, run[0]);
      }
      RunKeeps(Apply(s, run[0]), run[1..]);
    }
  }

  // ---------------------------------------------------------------- theorems

  /**
   At most one upload holds a bot, its count is exact and at most two, and no upload sends more than
   four requests.
   */
  lemma {:induction false} SendersAreExclusive(interval: nat, run: seq<Step>)
    requires Valid(Initial(interval), run)
    ensures var s := Final(Initial(interval), run); Exclusive(s) && LoadExact(s)
    ensures var s := Final(Initial(interval), run);
      forall b :: Lookup(s.senders, b).inFlight <= 2
    ensures var s := Final(Initial(interval), run);
      forall u <- s.uploads :: s.uploads[u].requests <= 4
  {
    RunKeeps(Initial(interval), run);
    var s := Final(Initial(interval), run);
    forall b ensures Lookup(s.senders, b).inFlight <= 2 {
      if Holds(s, b) {
        var u :| u in s.uploads && s.uploads[u].bot == b;
      }
    }
  }

  /** The clamp at zero is never used: every release finds a count of at least one. */
  lemma {:induction false} ReleaseNeverClamps(interval: nat, run: seq<Step>, step: Step)
    requires Valid(Initial(interval), run) && Enabled(Final(Initial(interval), run), step)
    requires step.NetworkFailure? || step.Response? || step.Finish?
    ensures var s := Final(Initial(interval), run); Lookup(s.senders, s.uploads[step.upload].bot).inFlight >= 1
  {
    RunKeeps(Initial(interval), run);
  }

  /** An answer leads to another request exactly when it is a 429 or a server error and fewer than four were made. */
  lemma {:induction false} RetriesIff(interval: nat, run: seq<Step>, u: UploadId, reply: Reply)
    requires Valid(Initial(interval), run) && Enabled(Final(Initial(interval), run), Parse(u, reply))
    ensures var s := Final(Initial(interval), run);
      Enabled(Apply(s, Parse(u, reply)), Attempt(u))
      <==> (reply.TooManyRequests? || reply.ServerError?) && s.uploads[u].requests < 4
  {
    RunKeeps(Initial(interval), run);
    var s := Final(Initial(interval), run);
    assert s.uploads[u].phase.Parsing? && s.uploads[u].requests == s.uploads[u].phase.attempt + 1;
  }

  /** The messages accepted in a run: which bot's, and when. */
  function AcceptedSends(s: State, run: seq<Step>): seq<Send>
    requires Valid(s, run)
    decreases |run|
  {
    if run == [] then []
    else
      (if run[0].Parse? && run[0].reply.Accepted? then [Send(s.uploads[run[0].upload].bot, s.clock)] else [])
      + AcceptedSends(Apply(s, run[0]), run[1..])
  }

  /** The record holds exactly the accepted messages, in order. */
  lemma {:induction false} SentIsExact(s: State, run: seq<Step>)
    requires Valid(s, run)
    ensures Final(s, run).sent == s.sent + AcceptedSends(s, run)
    decreases |run|
  {
    if run != [] {
      SentIsExact(Apply(s, run[0]), run[1..]);
    }
  }

  /** Accepted messages of one bot are at least the minimum interval apart. */
  lemma {:induction false} AcceptedSendsArePaced(interval: nat, run: seq<Step>)
    requires Valid(Initial(interval), run)
    ensures Paced(AcceptedSends(Initial(interval), run), interval)
  {
    SentIsExact(Initial(interval), run);
    SendsArePaced(interval, run);
    assert Final(Initial(interval), run).sent == AcceptedSends(Initial(interval), run);
  }

  /** Recorded sends of one bot are at least the minimum interval apart. */
  lemma {:induction false} SendsArePaced(interval: nat, run: seq<Step>)
    requires Valid(Initial(interval), run)
    ensures Paced(Final(Initial(interval), run).sent, interval)
  {
    RunKeeps(Initial(interval), run);
  }

  /** Sends of bot b recorded between a and a + length. */
  function CountWithin(sent: seq<Send>, b: BotId, a: Time, length: nat): nat {
    if sent == [] then 0
    else
      var e := sent[|sent| - 1];
      CountWithin(sent[..|sent| - 1], b, a, length) + (if e.bot == b && a <= e.at <= a + length then 1 else 0)
  }

  /** The last of c spaced sends in the window lies at least c - 1 intervals after its start. */
  lemma {:induction false} LastIsLate(sent: seq<Send>, b: BotId, a: Time, length: nat, interval: nat) returns (k: nat)
    requires Paced(sent, interval) && CountWithin(sent, b, a, length) > 0
    ensures k < |sent| && sent[k].bot == b && sent[k].at <= a + length
    ensures a + (CountWithin(sent, b, a, length) - 1) * interval <= sent[k].at
  {
    var n := |sent| - 1;
    var before := CountWithin(sent[..n], b, a, length);
    if sent[n].bot == b && a <= sent[n].at <= a + length {
      k := n;
      if before > 0 {
        var j := LastIsLate(sent[..n], b, a, length, interval);
        assert before * interval == (before - 1) * interval + interval;
      }
    } else {
      k := LastIsLate(sent[..n], b, a, length, interval);
    }
  }

  /** Any interval of the given length holds at most length / interval + 1 sends of one bot. */
  lemma {:induction false} WindowBound(interval: nat, run: seq<Step>, b: BotId, a: Time, length: nat)
    requires interval > 0 && Valid(Initial(interval), run)
    ensures CountWithin(Final(Initial(interval), run).sent, b, a, length) <= length / interval + 1
  {
    SendsArePaced(interval, run);
    var sent := Final(Initial(interval), run).sent;
    var c := CountWithin(sent, b, a, length);
    if c > 0 {
      var k := LastIsLate(sent, b, a, length, interval);
      AtMostQuotient(c - 1, length, interval);
    }
  }

  // ----------------------------------------------------------- 429 penalties

  /** A successful send overwrites a longer penalty. */
  predicate Shortens(s: State, step: Step, b: BotId, until: Time)
    requires Enabled(s, step)
  {
    step.Parse? && step.reply.Accepted? && s.uploads[step.upload].bot == b && s.clock + s.interval < until
  }

  /** A step keeps a bot's penalty exactly when it does not record a send that ends its pause earlier. */
  lemma PenaltyKeptIff(s: State, step: Step, b: BotId, until: Time)
    requires Enabled(s, step) && Lookup(s.senders, b).nextAllowedAt >= until
    ensures Lookup(Apply(s, step).senders, b).nextAllowedAt >= until <==> !Shortens(s, step, b, until)
  {
  }

  predicate NeverShortened(s: State, run: seq<Step>, b: BotId, until: Time)
    requires Valid(s, run)
    decreases |run|
  {
    run == [] || (!Shortens(s, run[0], b, until) && NeverShortened(Apply(s, run[0]), run[1..], b, until))
  }

  /** While no send overwrites it, a penalized bot cannot be selected before the penalty ends. */
  lemma {:induction false} PenaltyHolds(s: State, run: seq<Step>, b: BotId, until: Time)
    requires Valid(s, run) && Lookup(s.senders, b).nextAllowedAt >= until && NeverShortened(s, run, b, until)
    ensures CanUse(Final(s, run).senders, b, Final(s, run).clock) ==> Final(s, run).clock >= until
    decreases |run|
  {
    if run != [] {
      PenaltyKeptIff(s, run[0], b, until);
      hide Apply;
      PenaltyHolds(Apply(s, run[0]), run[1..], b, until);
    }
  }

  /** The wait that a 429 answer, to an upload's request or to another call, asks of this bot. */
  function WaitAsked(s: State, step: Step, b: BotId): Option<nat>
    requires Enabled(s, step)
  {
    match step
    case ReadLimited(c, ms) => if c == b then Some(ms) else None
    case Parse(u, TooManyRequests(ms)) => if s.uploads[u].bot == b then Some(ms) else None
    case _ => None
  }

  /** This bot's message was accepted. */
  predicate AcceptedOn(s: State, step: Step, b: BotId)
    requires Enabled(s, step)
  {
    step.Parse? && step.reply.Accepted? && s.uploads[step.upload].bot == b
  }

  /** A step changes pauses only by a recorded send or a 429, and only of its own bot. */
  lemma PauseChanges(s: State, step: Step, b: BotId)
    requires Enabled(s, step)
    ensures var was, now := Lookup(s.senders, b).nextAllowedAt, Lookup(Apply(s, step).senders, b).nextAllowedAt;
      && (WaitAsked(s, step, b).Some? ==> now == Max(was, s.clock + WaitAsked(s, step, b).value))
      && (AcceptedOn(s, step, b) ==> now == s.clock + s.interval)
      && (WaitAsked(s, step, b).None? && !AcceptedOn(s, step, b) ==> now == was)
  {
  }

  /** After a 429 answer, and without a send that shortens it, the bot is not selected before the wait is over. */
  lemma {:induction false} LimitedBotRests(s: State, step: Step, run: seq<Step>, b: BotId, ms: nat)
    requires Enabled(s, step) && WaitAsked(s, step, b) == Some(ms)
    requires Valid(Apply(s, step), run) && NeverShortened(Apply(s, step), run, b, s.clock + ms)
    ensures var t := Final(Apply(s, step), run);
      forall u :: Enabled(t, Select(u, b)) ==> t.clock >= s.clock + ms
  {
    PauseChanges(s, step, b);
    PenaltyHolds(Apply(s, step), run, b, s.clock + ms);
  }

  /** A bot nobody holds can be selected as soon as its pause is over. */
  lemma {:induction false} RestedBotIsSelectable(interval: nat, run: seq<Step>, u: UploadId, b: BotId)
    requires Valid(Initial(interval), run)
    ensures var s := Final(Initial(interval), run);
      u !in s.uploads ==>
        (Enabled(s, Select(u, b)) <==> !Holds(s, b) && s.clock >= Lookup(s.senders, b).nextAllowedAt)
  {
    RunKeeps(Initial(interval), run);
  }

  /** A lost request is made again exactly while fewer than four were made. */
  lemma {:induction false} FailureRetriesIff(interval: nat, run: seq<Step>, u: UploadId)
    requires Valid(Initial(interval), run) && Enabled(Final(Initial(interval), run), NetworkFailure(u))
    ensures var s := Final(Initial(interval), run);
      Enabled(Apply(s, NetworkFailure(u)), Attempt(u)) <==> s.uploads[u].requests < 4
  {
    RunKeeps(Initial(interval), run);
    var s := Final(Initial(interval), run);
    assert s.uploads[u].phase.Fetching? && s.uploads[u].requests == s.uploads[u].phase.attempt + 1;
  }

  /** Every upload can go on until it has ended, and ending frees its bot. */
  lemma {:induction false} UploadsEnd(interval: nat, run: seq<Step>, u: UploadId)
    requires Valid(Initial(interval), run) && u in Final(Initial(interval), run).uploads
    ensures var s := Final(Initial(interval), run);
      && (Enabled(s, Attempt(u)) || Enabled(s, NetworkFailure(u)) || Enabled(s, Parse(u, OtherError))
          || Enabled(s, Finish(u)))
      && (Enabled(s, Finish(u)) ==>
          u !in Apply(s, Finish(u)).uploads && !Holds(Apply(s, Finish(u)), s.uploads[u].bot))
  {
    RunKeeps(Initial(interval), run);
  }

  lemma {:induction false} Snoc(s: State, run: seq<Step>, step: Step)
    requires Valid(s, run) && Enabled(Final(s, run), step)
    ensures Valid(s, run + [step]) && Final(s, run + [step]) == Apply(Final(s, run), step)
    decreases |run|
  {
    hide Enabled, Apply;
    if run == [] {
      assert run + [step] == [step] && [step][1..] == [];
    } else {
      assert (run + [step])[1..] == run[1..] + [step];
      Snoc(Apply(s, run[0]), run[1..], step);
    }
  }

  /** A read is told to wait thirty seconds while an upload is in flight; its success frees the bot after 1.1. */
  lemma PenaltyCanBeShortened() returns (run: seq<Step>)
    ensures Valid(Initial(1100), run)
    ensures var s := Final(Initial(1100), run);
      ReadLimited(7, 30000) in run && s.clock == 1100 && CanUse(s.senders, 7, s.clock)
  {
    var s := Initial(1100);
    run := [Select(0, 7)];
    assert Final(s, run) == Apply(s, Select(0, 7)) by { assert run[1..] == []; }
    Snoc(s, run, Attempt(0));
    run := run + [Attempt(0)];
    Snoc(s, run, ReadLimited(7, 30000));
    run := run + [ReadLimited(7, 30000)];
    run := FinishShort(run);
  }

  lemma FinishShort(run0: seq<Step>) returns (run: seq<Step>)
    requires Valid(Initial(1100), run0) && ReadLimited(7, 30000) in run0
    requires var s := Final(Initial(1100), run0);
      && s.interval == 1100 && s.clock == 0 && s.uploads == map[0 := Upload(7, Fetching(0), 0, 1)]
      && s.senders == map[7 := Sender(30000, 2)]
    ensures Valid(Initial(1100), run) && ReadLimited(7, 30000) in run
    ensures var s := Final(Initial(1100), run); s.clock == 1100 && CanUse(s.senders, 7, s.clock)
  {
    var s := Initial(1100);
    Snoc(s, run0, Response(0));
    run := run0 + [Response(0)];
    Snoc(s, run, Parse(0, Accepted(true)));
    run := run + [Parse(0, Accepted(true))];
    Snoc(s, run, Finish(0));
    run := run + [Finish(0)];
    Snoc(s, run, Tick(1100));
    run := run + [Tick(1100)];
  }
}
