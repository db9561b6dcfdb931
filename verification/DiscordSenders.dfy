/**
 Discord uploads: the claim held from selection to the finally branch, the limiter's
 in-flight count held during one request, and the retry loops of the webhook and the
 bot uploader with their relay fallback, over every interleaving of uploads.
 */
module DiscordSenders {
  import opened Basics

  type SenderId = nat
  type UploadId = nat

  const MAX_CONCURRENT_PER_SENDER := 2
  const MAX_RETRIES := 3

  // --------------------------------------------------------- the claim table

  type Claims = map<SenderId, nat>

  function ActiveOf(claims: Claims, id: SenderId): nat {
    if id in claims then claims[id] else 0
  }

  predicate HasCapacity(claims: Claims, id: SenderId) {
    ActiveOf(claims, id) < MAX_CONCURRENT_PER_SENDER
  }

  function Claimed(claims: Claims, id: SenderId): Claims {
    claims[id := ActiveOf(claims, id) + 1]
  }

  /** A missing entry counts as one, and the last claim removes the entry. */
  function Unclaimed(claims: Claims, id: SenderId): Claims {
    var n := if id in claims then claims[id] else 1;
    if n <= 1 then claims - {id} else claims[id := n - 1]
  }

  class SenderTable {
    var senderActiveUploads: Claims

    constructor ()
      ensures senderActiveUploads == map[]
    {
      senderActiveUploads := map[];
    }

    method ClaimSender(id: SenderId)
      modifies this
      ensures senderActiveUploads == Claimed(old(senderActiveUploads), id)
    {
      var n := if id in senderActiveUploads then senderActiveUploads[id] else 0;
      senderActiveUploads := senderActiveUploads[id := n + 1];
    }

    method UnclaimSender(id: SenderId)
      modifies this
      ensures senderActiveUploads == Unclaimed(old(senderActiveUploads), id)
    {
      var n := if id in senderActiveUploads then senderActiveUploads[id] else 1;
      if n <= 1 {
        senderActiveUploads := senderActiveUploads - {id};
      } else {
        senderActiveUploads := senderActiveUploads[id := n - 1];
      }
    }
  }

  // -------------------------------------------------------------- the system

  datatype Kind = Webhook | Bot

  datatype Phase =
    | Ready(attempt: nat)
    | Fetching(attempt: nat)
    | Unwinding                 // the uploader returned or threw

  /** `relay`: relayBaseUrl is still set; requests and directs are history. */
  datatype Upload = Upload(sender: SenderId, kind: Kind, relay: bool, phase: Phase, requests: nat, directs: nat)

  datatype Reply = Success | TooManyRequests | TooLarge | Unauthorized | ServerError | OtherError

  /** Timeouts are aborts; the bot uploader gives up on every other network error. */
  datatype Failure = Timeout | Unreachable

  datatype State = State(claims: Claims, inFlight: map<SenderId, nat>, uploads: map<UploadId, Upload>)

  datatype Step =
    | Select(upload: UploadId, sender: SenderId, kind: Kind, relay: bool)
    | Attempt(upload: UploadId)
    | NetworkFailure(upload: UploadId, failure: Failure)
    | Response(upload: UploadId, reply: Reply)
    | Finish(upload: UploadId)

  const Initial := State(map[], map[], map[])

  function InFlightOf(inFlight: map<SenderId, nat>, id: SenderId): nat {
    if id in inFlight then inFlight[id] else 0
  }

  function Reserved(inFlight: map<SenderId, nat>, id: SenderId): map<SenderId, nat> {
    inFlight[id := InFlightOf(inFlight, id) + 1]
  }

  /** The limiter ignores an unknown sender and never goes below zero. */
  function Released(inFlight: map<SenderId, nat>, id: SenderId): map<SenderId, nat> {
    if id !in inFlight then inFlight
    else inFlight[id := if inFlight[id] == 0 then 0 else inFlight[id] - 1]
  }

  function Next(attempt: nat): Phase {
    if attempt < MAX_RETRIES then Ready(attempt + 1) else Unwinding
  }

  /** A failed relay attempt is spent and the relay dropped; a bot retries only after a timeout. */
  function AfterFailure(up: Upload, failure: Failure): Upload
    requires up.phase.Fetching?
  {
    match up.kind
    case Webhook => up.(relay := false, phase := Next(up.phase.attempt))
    case Bot => up.(phase := if failure == Timeout then Next(up.phase.attempt) else Unwinding)
  }

  function AfterReply(up: Upload, reply: Reply): Upload
    requires up.phase.Fetching?
  {
    match reply
    case TooManyRequests => up.(phase := Next(up.phase.attempt))
    case ServerError => up.(phase := Next(up.phase.attempt))
    case _ => up.(phase := Unwinding)
  }

  predicate Enabled(s: State, step: Step) {
    match step
    case Select(u, id, kind, relay) => u !in s.uploads && HasCapacity(s.claims, id) && (relay ==> kind == Webhook)
    case Attempt(u) => u in s.uploads && s.uploads[u].phase.Ready?
    case NetworkFailure(u, _) => u in s.uploads && s.uploads[u].phase.Fetching?
    case Response(u, _) => u in s.uploads && s.uploads[u].phase.Fetching?
    case Finish(u) => u in s.uploads && s.uploads[u].phase.Unwinding?
  }

  function Sending(up: Upload): Upload
    requires up.phase.Ready?
  {
    up.(phase := Fetching(up.phase.attempt), requests := up.requests + 1,
      directs := up.directs + if up.relay then 0 else 1)
  }

  function Apply(s: State, step: Step): State
    requires Enabled(s, step)
  {
    match step
    case Select(u, id, kind, relay) =>
      s.(claims := Claimed(s.claims, id), uploads := s.uploads[u := Upload(id, kind, relay, Ready(0), 0, 0)])
    case Attempt(u) =>
      s.(inFlight := Reserved(s.inFlight, s.uploads[u].sender), uploads := s.uploads[u := Sending(s.uploads[u])])
    case NetworkFailure(u, failure) =>
      s.(inFlight := Released(s.inFlight, s.uploads[u].sender),
        uploads := s.uploads[u := AfterFailure(s.uploads[u], failure)])
    case Response(u, reply) =>
      s.(inFlight := Released(s.inFlight, s.uploads[u].sender),
        uploads := s.uploads[u := AfterReply(s.uploads[u], reply)])
    case Finish(u) =>
      s.(claims := Unclaimed(s.claims, s.uploads[u].sender), uploads := s.uploads - {u})
  }

  predicate Valid(s: State, run: seq<Step>)
    decreases |run|
  {
    run == [] || (Enabled(s, run[0]) && Valid(Apply(s, run[0]), run[1..]))
  }

  function Final(s: State, run: seq<Step>): State
    requires Valid(s, run)
    decreases |run|
  {
    if run == [] then s else Final(Apply(s, run[0]), run[1..])
  }
}
