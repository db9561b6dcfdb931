/**
 Telegram sends: the rate limiter's per-bot record, the selection that reserves a
 bot, and the retry loop of one document upload, over every interleaving of uploads.
 Times are milliseconds of a clock that never goes back.
 */
module TelegramLimiter {
  import opened Basics

  type BotId = nat
  type UploadId = nat
  type Time = nat

  const MAX_IN_FLIGHT_PER_SENDER := 1
  const MAX_RETRIES := 3

  datatype Sender = Sender(nextAllowedAt: Time, inFlight: nat)

  type Senders = map<BotId, Sender>

  function Lookup(senders: Senders, id: BotId): Sender {
    if id in senders then senders[id] else Sender(0, 0)
  }

  predicate CanUse(senders: Senders, id: BotId, now: Time) {
    now >= Lookup(senders, id).nextAllowedAt && Lookup(senders, id).inFlight < MAX_IN_FLIGHT_PER_SENDER
  }

  function Reserved(senders: Senders, id: BotId): Senders {
    var s := Lookup(senders, id);
    senders[id := s.(inFlight := s.inFlight + 1)]
  }

  function Released(senders: Senders, id: BotId): Senders {
    var s := Lookup(senders, id);
    senders[id := s.(inFlight := if s.inFlight == 0 then 0 else s.inFlight - 1)]
  }

  function SentAt(senders: Senders, id: BotId, now: Time, interval: nat): Senders {
    senders[id := Lookup(senders, id).(nextAllowedAt := now + interval)]
  }

  function Penalized(senders: Senders, id: BotId, now: Time, retryAfterMs: nat): Senders {
    var s := Lookup(senders, id);
    senders[id := s.(nextAllowedAt := Max(s.nextAllowedAt, now + retryAfterMs))]
  }

  lemma ReserveAgrees(a: Senders, b: Senders, id: BotId)
    requires forall x :: Lookup(a, x) == Lookup(b, x)
    ensures forall x :: Lookup(Reserved(a, id), x) == Lookup(Reserved(b, id), x)
  {
    forall x ensures Lookup(Reserved(a, id), x) == Lookup(Reserved(b, id), x) {
      assert Lookup(a, x) == Lookup(b, x) && Lookup(a, id) == Lookup(b, id);
    }
  }

  class TelegramRateLimiter {
    var senders: Senders
    const minSendIntervalMs: nat

    constructor (minSendIntervalMs: nat)
      ensures senders == map[] && this.minSendIntervalMs == minSendIntervalMs
    {
      senders := map[];
      this.minSendIntervalMs := minSendIntervalMs;
    }

    /** The lookup creates a missing record; no other bot's record, and no value, changes. */
    method State(id: BotId) returns (s: Sender)
      modifies this
      ensures s == Lookup(old(senders), id) && senders == old(senders)[id := s]
    {
      if id !in senders {
        senders := senders[id := Sender(0, 0)];
      }
      s := senders[id];
      assert senders == old(senders)[id := s];
    }

    method Usable(id: BotId, now: Time) returns (ok: bool)
      modifies this
      ensures ok == CanUse(old(senders), id, now)
      ensures forall b :: Lookup(senders, b) == Lookup(old(senders), b)
    {
      var s := State(id);
      ok := now >= s.nextAllowedAt && s.inFlight < MAX_IN_FLIGHT_PER_SENDER;
    }

    method Reserve(id: BotId)
      modifies this
      ensures senders == Reserved(old(senders), id)
    {
      var s := State(id);
      senders := senders[id := s.(inFlight := s.inFlight + 1)];
    }

    method Release(id: BotId)
      modifies this
      ensures senders == Released(old(senders), id)
    {
      var s := State(id);
      senders := senders[id := s.(inFlight := Max(0, s.inFlight - 1))];
    }

    method RecordSent(id: BotId, now: Time)
      modifies this
      ensures senders == SentAt(old(senders), id, now, minSendIntervalMs)
    {
      var s := State(id);
      senders := senders[id := s.(nextAllowedAt := now + minSendIntervalMs)];
    }

    method RecordRetryAfter(id: BotId, now: Time, retryAfterMs: nat)
      modifies this
      ensures senders == Penalized(old(senders), id, now, retryAfterMs)
    {
      var s := State(id);
      senders := senders[id := s.(nextAllowedAt := Max(s.nextAllowedAt, now + retryAfterMs))];
    }
  }

  /** Selection: scan the bots from the round-robin position and reserve the first usable one. */
  class Transport {
    const limiter: TelegramRateLimiter
    const bots: seq<BotId>
    var roundRobinIndex: nat

    constructor (limiter: TelegramRateLimiter, bots: seq<BotId>)
      ensures this.limiter == limiter && this.bots == bots && roundRobinIndex == 0
    {
      this.limiter, this.bots, roundRobinIndex := limiter, bots, 0;
    }

    /** One pass of the polling loop; None sends the caller to sleep and try again. */
    method SelectOnce(now: Time) returns (picked: Option<BotId>)
      modifies this, limiter
      ensures picked.None? ==>
        && (forall b <- bots :: !CanUse(old(limiter.senders), b, now))
        && (forall b :: Lookup(limiter.senders, b) == Lookup(old(limiter.senders), b))
        && roundRobinIndex == old(roundRobinIndex)
      ensures picked.Some? ==>
        exists i: nat :: i < |bots|
          && PickedAt(old(limiter.senders), now, old(roundRobinIndex), i, picked.value, roundRobinIndex)
      ensures picked.Some? ==>
        forall b :: Lookup(limiter.senders, b) == Lookup(Reserved(old(limiter.senders), picked.value), b)
    {
      var i := 0;
      while i < |bots|
        invariant 0 <= i <= |bots| && roundRobinIndex == old(roundRobinIndex)
        invariant forall b :: Lookup(limiter.senders, b) == Lookup(old(limiter.senders), b)
        invariant forall j :: 0 <= j < i ==>
          !CanUse(old(limiter.senders), bots[Circular(|bots|, roundRobinIndex, j)], now)
      {
        var idx := Circular(|bots|, roundRobinIndex, i);
        var ok := limiter.Usable(bots[idx], now);
        if ok {
          roundRobinIndex := (idx + 1) % |bots|;
          ReserveAgrees(limiter.senders, old(limiter.senders), bots[idx]);
          limiter.Reserve(bots[idx]);
          assert PickedAt(old(limiter.senders), now, old(roundRobinIndex), i, bots[idx], roundRobinIndex);
          return Some(bots[idx]);
        }
        i := i + 1;
      }
      forall b | b in bots ensures !CanUse(old(limiter.senders), b, now) {
        var k :| 0 <= k < |bots| && bots[k] == b;
        var j := Reaches(|bots|, roundRobinIndex, k);
      }
      picked := None;
    }

    /** `bot` stands i places after the round-robin position, is usable, and nothing before it is. */
    ghost predicate PickedAt(senders: Senders, now: Time, start: nat, i: nat, bot: BotId, next: nat)
      requires |bots| > 0
    {
      && bot == bots[Circular(|bots|, start, i)] && CanUse(senders, bot, now)
      && next == (Circular(|bots|, start, i) + 1) % |bots|
      && forall j :: 0 <= j < i ==> !CanUse(senders, bots[Circular(|bots|, start, j)], now)
    }
  }

  // -------------------------------------------------------------- the system

  datatype Phase =
    | Ready(attempt: nat)      // before reserving for this attempt
    | Fetching(attempt: nat)   // request outstanding
    | Parsing(attempt: nat)    // response arrived, body not read yet
    | Unwinding                // returned or threw; the finally branch comes next

  datatype Upload = Upload(bot: BotId, phase: Phase, started: Time, requests: nat)

  datatype Reply =
    | Accepted(hasFileId: bool)
    | TooManyRequests(retryAfterMs: nat)
    | TooLarge
    | Unauthorized
    | ServerError
    | OtherError

  datatype Send = Send(bot: BotId, at: Time)

  datatype State = State(
    interval: nat,
    senders: Senders,
    clock: Time,
    uploads: map<UploadId, Upload>,
    sent: seq<Send>)                 // history: recorded sends, in order

  datatype Step =
    | Select(upload: UploadId, bot: BotId)
    | Attempt(upload: UploadId)
    | NetworkFailure(upload: UploadId)
    | Response(upload: UploadId)
    | Parse(upload: UploadId, reply: Reply)
    | Finish(upload: UploadId)
    | ReadLimited(bot: BotId, retryAfterMs: nat)   // a 429 on getFile or deleteMessage
    | Tick(elapsed: nat)

  /** What one answer makes the retry loop do next. */
  function AfterReply(attempt: nat, reply: Reply): Phase {
    match reply
    case TooManyRequests(_) => if attempt < MAX_RETRIES then Ready(attempt + 1) else Unwinding
    case ServerError => if attempt < MAX_RETRIES then Ready(attempt + 1) else Unwinding
    case _ => Unwinding
  }

  function AfterFailure(attempt: nat): Phase {
    if attempt < MAX_RETRIES then Ready(attempt + 1) else Unwinding
  }

  predicate Enabled(s: State, step: Step) {
    match step
    case Select(u, b) => u !in s.uploads && CanUse(s.senders, b, s.clock)
    case Attempt(u) => u in s.uploads && s.uploads[u].phase.Ready?
    case NetworkFailure(u) => u in s.uploads && s.uploads[u].phase.Fetching?
    case Response(u) => u in s.uploads && s.uploads[u].phase.Fetching?
    case Parse(u, _) => u in s.uploads && s.uploads[u].phase.Parsing?
    case Finish(u) => u in s.uploads && s.uploads[u].phase.Unwinding?
    case ReadLimited(_, _) => true
    case Tick(_) => true
  }

  function Moved(s: State, u: UploadId, senders: Senders, upload: Upload): State {
    s.(senders := senders, uploads := s.uploads[u := upload])
  }

  function Apply(s: State, step: Step): State
    requires Enabled(s, step)
  {
    match step
    case Select(u, b) => Moved(s, u, Reserved(s.senders, b), Upload(b, Ready(0), s.clock, 0))
    case Attempt(u) =>
      var up := s.uploads[u];
      Moved(s, u, Reserved(s.senders, up.bot), up.(phase := Fetching(up.phase.attempt), requests := up.requests + 1))
    case NetworkFailure(u) =>
      var up := s.uploads[u];
      Moved(s, u, Released(s.senders, up.bot), up.(phase := AfterFailure(up.phase.attempt)))
    case Response(u) =>
      var up := s.uploads[u];
      Moved(s, u, Released(s.senders, up.bot), up.(phase := Parsing(up.phase.attempt)))
    case Parse(u, reply) =>
      var up := s.uploads[u];
      var next := up.(phase := AfterReply(up.phase.attempt, reply));
      (match reply
       case Accepted(_) =>
         Moved(s, u, SentAt(s.senders, up.bot, s.clock, s.interval), next).(sent := s.sent + [Send(up.bot, s.clock)])
       case TooManyRequests(ms) => Moved(s, u, Penalized(s.senders, up.bot, s.clock, ms), next)
       case _ => Moved(s, u, s.senders, next))
    case Finish(u) => s.(senders := Released(s.senders, s.uploads[u].bot), uploads := s.uploads - {u})
    case ReadLimited(b, ms) => s.(senders := Penalized(s.senders, b, s.clock, ms))
    case Tick(elapsed) => s.(clock := s.clock + elapsed)
  }

  predicate Valid(s: State, run: seq<Step>)
    decreases |run|
  {
    run == [] || (Enabled(s, run[0]) && Valid(Apply(s, run[0]), run[1..]))
  }

  function Final(s: State, run: seq<Step>): State
    requires Valid(s, run)
    decreases |run|
  {
    if run == [] then s else Final(Apply(s, run[0]), run[1..])
  }

  function Initial(interval: nat): State {
    State(interval, map[], 0, map[], [])
  }
}
