/**
 The Discord rate limiter: per-sender windows, the sliding window of error times and
 the round-robin pick. Times are milliseconds of a clock that never goes back.
 */
module WebhookRateLimiter {
  import opened Basics

  type Id = nat
  type Time = nat

  const WEBHOOK_RATE_LIMIT_DEFAULT := 120
  const CLOUDFLARE_ERROR_THRESHOLD := 8000
  const CLOUDFLARE_WINDOW_MS := 600000

  datatype WebhookState = WebhookState(remaining: int, resetAt: Time, inFlight: nat)

  type Webhooks = map<Id, WebhookState>

  function Lookup(webhooks: Webhooks, id: Id): WebhookState {
    if id in webhooks then webhooks[id] else WebhookState(WEBHOOK_RATE_LIMIT_DEFAULT, 0, 0)
  }

  predicate Usable(webhooks: Webhooks, id: Id, now: Time) {
    id !in webhooks || now >= webhooks[id].resetAt || webhooks[id].remaining - webhooks[id].inFlight > 0
  }

  /** The headers of an answer: requests left in the window, and milliseconds until it ends, if given. */
  function Responded(webhooks: Webhooks, id: Id, remaining: Option<int>, resetAfter: Option<nat>, now: Time): Webhooks {
    var state := Lookup(webhooks, id);
    webhooks[id := state.(
      remaining := if remaining.Some? then remaining.value else state.remaining,
      resetAt := if resetAfter.Some? then now + resetAfter.value else state.resetAt)]
  }

  function Reserved(webhooks: Webhooks, id: Id): Webhooks {
    var state := Lookup(webhooks, id);
    webhooks[id := state.(inFlight := state.inFlight + 1)]
  }

  /** An unknown sender stays unknown, and the count is clamped at zero. */
  function Released(webhooks: Webhooks, id: Id): Webhooks {
    if id !in webhooks then webhooks
    else webhooks[id := webhooks[id].(inFlight := if webhooks[id].inFlight == 0 then 0 else webhooks[id].inFlight - 1)]
  }

  function ReservedTimes(webhooks: Webhooks, id: Id, k: nat): Webhooks {
    if k == 0 then webhooks else Reserved(ReservedTimes(webhooks, id, k - 1), id)
  }

  lemma {:induction false} ReservesCount(webhooks: Webhooks, id: Id, k: nat)
    ensures var state := Lookup(webhooks, id);
      Lookup(ReservedTimes(webhooks, id, k), id) == state.(inFlight := state.inFlight + k)
    ensures k > 0 ==> id in ReservedTimes(webhooks, id, k)
    ensures forall other :: other != id ==>
      && (other in ReservedTimes(webhooks, id, k) <==> other in webhooks)
      && Lookup(ReservedTimes(webhooks, id, k), other) == Lookup(webhooks, other)
  {
    if k > 0 {
      ReservesCount(webhooks, id, k - 1);
    }
  }

  /**
   What an answer allows: until its window ends exactly `remaining` requests, counting those in flight;
   afterwards any number. Other senders do not notice.
   */
  lemma AnswerAllows(webhooks: Webhooks, id: Id, remaining: nat, resetAfter: nat, now: Time, k: nat, later: Time)
    ensures var t := ReservedTimes(Responded(webhooks, id, Some(remaining), Some(resetAfter), now), id, k);
      && (Usable(t, id, later) <==> later >= now + resetAfter || Lookup(webhooks, id).inFlight + k < remaining)
      && forall other :: other != id ==> (Usable(t, other, later) <==> Usable(webhooks, other, later))
  {
    ReservesCount(Responded(webhooks, id, Some(remaining), Some(resetAfter), now), id, k);
  }

  /** A sender nothing is known about can be used, and so can one whose window has ended, whatever is in flight. */
  lemma NewAndRestedAreUsable(webhooks: Webhooks, id: Id, now: Time, k: nat)
    ensures Lookup(webhooks, id).resetAt <= now ==> Usable(ReservedTimes(webhooks, id, k), id, now)
    ensures id !in webhooks ==> Usable(ReservedTimes(webhooks, id, k), id, now)
  {
    ReservesCount(webhooks, id, k);
  }

  /** A release gives back what a reservation took. */
  lemma ReleaseUndoesReserve(webhooks: Webhooks, id: Id, other: Id, now: Time)
    ensures Lookup(Released(Reserved(webhooks, id), id), other) == Lookup(webhooks, other)
    ensures Usable(Released(Reserved(webhooks, id), id), other, now) <==> Usable(webhooks, other, now)
  {
  }

  /** The times after the cutoff, in order. */
  function Newer(times: seq<Time>, cutoff: int): (r: seq<Time>)
    ensures |r| <= |times|
  {
    if times == [] then []
    else
      var rest := Newer(times[..|times| - 1], cutoff);
      if times[|times| - 1] > cutoff then rest + [times[|times| - 1]] else rest
  }

  /** Filtering twice is filtering by the later cutoff. */
  lemma {:induction false} NewerTwice(times: seq<Time>, early: int, late: int)
    requires early <= late
    ensures Newer(Newer(times, early), late) == Newer(times, late)
  {
    if times != [] {
      var init, last := times[..|times| - 1], times[|times| - 1];
      NewerTwice(init, early, late);
      if last > early {
        assert Newer(times, early)[..|Newer(times, early)| - 1] == Newer(init, early);
      }
    }
  }

  lemma {:induction false} NewerSnoc(times: seq<Time>, t: Time, cutoff: int)
    ensures Newer(times + [t], cutoff) == if t > cutoff then Newer(times, cutoff) + [t] else Newer(times, cutoff)
  {
    assert (times + [t])[..|times|] == times;
  }

  /** Errors inside the window ending now, counted over everything ever recorded. */
  function ErrorsInWindow(history: seq<Time>, now: Time): nat {
    |Newer(history, now - CLOUDFLARE_WINDOW_MS)|
  }

  function UsableIds(webhooks: Webhooks, ids: seq<Id>, now: Time): set<Id> {
    set id <- ids | Usable(webhooks, id, now)
  }

  class Limiter {
    var webhooks: Webhooks
    var errorTimestamps: seq<Time>
    var roundRobinIndex: nat
    var cloudflareBlockedUntil: Time

    ghost var history: seq<Time>   // every error ever recorded
    ghost var clock: Time          // latest time seen
    ghost var evictedUpTo: int     // latest cutoff applied

    ghost predicate Valid()
      reads this
    {
      && errorTimestamps == Newer(history, evictedUpTo)
      && evictedUpTo <= clock - CLOUDFLARE_WINDOW_MS
    }

    constructor ()
      ensures Valid() && history == [] && webhooks == map[] && clock == 0 && roundRobinIndex == 0
    {
      webhooks, errorTimestamps, roundRobinIndex, cloudflareBlockedUntil := map[], [], 0, 0;
      history, clock, evictedUpTo := [], 0, -CLOUDFLARE_WINDOW_MS;
    }

    method RecordError(statusCode: int, now: Time)
      requires Valid() && clock <= now
      modifies this
      ensures Valid() && clock == now && webhooks == old(webhooks) && roundRobinIndex == old(roundRobinIndex)
      ensures history == old(history) + if statusCode in {401, 403, 429} then [now] else []
    {
      if statusCode == 401 || statusCode == 403 || statusCode == 429 {
        NewerSnoc(history, now, evictedUpTo);
        errorTimestamps := errorTimestamps + [now];
        history := history + [now];
      }
      clock := now;
    }

    /** An IP-level block is kept apart and touches no sender; otherwise the sender is closed until then. */
    method RecordThrottle(id: Id, retryAfterMs: nat, cloudflareBlocked: bool, now: Time)
      requires Valid() && clock <= now
      modifies this
      ensures Valid() && clock == now && history == old(history) && roundRobinIndex == old(roundRobinIndex)
      ensures cloudflareBlocked ==>
        webhooks == old(webhooks) && cloudflareBlockedUntil == Max(old(cloudflareBlockedUntil), now + retryAfterMs)
      ensures !cloudflareBlocked ==>
        && cloudflareBlockedUntil == old(cloudflareBlockedUntil)
        && (forall t: Time :: Usable(webhooks, id, t)
             <==> t >= Max(Lookup(old(webhooks), id).resetAt, now + retryAfterMs))
        && (forall other: Id, t: Time :: other != id ==> Usable(webhooks, other, t) == Usable(old(webhooks), other, t))
        && Lookup(webhooks, id).inFlight == Lookup(old(webhooks), id).inFlight
    {
      clock := now;
      var until := now + retryAfterMs;
      if cloudflareBlocked {
        cloudflareBlockedUntil := Max(cloudflareBlockedUntil, until);
        return;
      }
      var state := Lookup(webhooks, id);
      webhooks := webhooks[id := state.(remaining := 0, resetAt := Max(state.resetAt, until))];
    }

    method RecordResponse(id: Id, remaining: Option<int>, resetAfter: Option<nat>, now: Time)
      requires Valid() && clock <= now
      modifies this
      ensures Valid() && clock == now && history == old(history) && roundRobinIndex == old(roundRobinIndex)
      ensures webhooks == Responded(old(webhooks), id, remaining, resetAfter, now)
      ensures cloudflareBlockedUntil == old(cloudflareBlockedUntil)
    {
      clock := now;
      var state := Lookup(webhooks, id);
      if remaining.Some? {
        state := state.(remaining := remaining.value);
      }
      if resetAfter.Some? {
        state := state.(resetAt := now + resetAfter.value);
      }
      webhooks := webhooks[id := state];
    }

    method Reserve(id: Id)
      requires Valid()
      modifies this`webhooks
      ensures Valid() && webhooks == Reserved(old(webhooks), id)
    {
      var state := Lookup(webhooks, id);
      webhooks := webhooks[id := state.(inFlight := state.inFlight + 1)];
    }

    method Release(id: Id)
      requires Valid()
      modifies this`webhooks
      ensures Valid() && webhooks == Released(old(webhooks), id)
    {
      if id !in webhooks {
        return;
      }
      webhooks := webhooks[id := webhooks[id].(inFlight := Max(0, webhooks[id].inFlight - 1))];
    }

    method IsGlobalSafe(now: Time) returns (safe: bool)
      requires Valid() && clock <= now
      modifies this
      ensures Valid() && clock == now && history == old(history)
      ensures webhooks == old(webhooks) && roundRobinIndex == old(roundRobinIndex)
      ensures safe <==> ErrorsInWindow(history, now) < CLOUDFLARE_ERROR_THRESHOLD
    {
      var cutoff := now - CLOUDFLARE_WINDOW_MS;
      NewerTwice(history, evictedUpTo, cutoff);
      hide Newer;
      errorTimestamps := Newer(errorTimestamps, cutoff);
      clock, evictedUpTo := now, cutoff;
      safe := |errorTimestamps| < CLOUDFLARE_ERROR_THRESHOLD;
    }

    method GetBestWebhook(ids: seq<Id>, now: Time) returns (best: Option<Id>)
      requires Valid() && clock <= now
      modifies this
      ensures Valid() && clock == now && history == old(history) && webhooks == old(webhooks)
      ensures best.None? <==>
        || ErrorsInWindow(history, now) >= CLOUDFLARE_ERROR_THRESHOLD
        || forall id <- ids :: !Usable(webhooks, id, now)
      ensures best.None? ==> roundRobinIndex == old(roundRobinIndex)
      ensures best.Some? ==>
        var picked := Pick(ids, UsableIds(webhooks, ids, now), old(roundRobinIndex));
        picked.Some? && best.value == ids[picked.value] && roundRobinIndex == (picked.value + 1) % |ids|
    {
      var safe := IsGlobalSafe(now);
      if !safe {
        return None;
      }
      ghost var usable := UsableIds(webhooks, ids, now);
      for i := 0 to |ids|
        invariant roundRobinIndex == old(roundRobinIndex)
        invariant Valid() && clock == now && history == old(history) && webhooks == old(webhooks)
        invariant forall j :: 0 <= j < i ==> !Usable(webhooks, ids[Circular(|ids|, roundRobinIndex, j)], now)
        invariant Pick(ids, usable, roundRobinIndex) == Scan(ids, usable, roundRobinIndex + i, |ids| - i)
      {
        var idx := Circular(|ids|, roundRobinIndex, i);
        if Usable(webhooks, ids[idx], now) {
          roundRobinIndex := (idx + 1) % |ids|;
          assert ids[idx] in ids;
          return Some(ids[idx]);
        }
      }
      forall id | id in ids ensures !Usable(webhooks, id, now) {
        var k :| 0 <= k < |ids| && ids[k] == id;
        var j := Reaches(|ids|, roundRobinIndex, k);
      }
      best := None;
    }
  }

  // ------------------------------------------------------------ round robin

  /** First usable position among `steps` positions counted from a, wrapping around. */
  function Scan(ids: seq<Id>, usable: set<Id>, a: nat, steps: nat): (r: Option<nat>)
    requires steps <= |ids|
    ensures r.Some? ==> r.value < |ids| && ids[r.value] in usable
    decreases steps
  {
    if steps == 0 then None
    else if ids[a % |ids|] in usable then Some(a % |ids|)
    else Scan(ids, usable, a + 1, steps - 1)
  }

  function Pick(ids: seq<Id>, usable: set<Id>, roundRobinIndex: nat): Option<nat> {
    Scan(ids, usable, roundRobinIndex, |ids|)
  }

  /** Positions returned by k consecutive picks while the usable set stays the same. */
  function Picks(ids: seq<Id>, usable: set<Id>, roundRobinIndex: nat, k: nat): seq<nat>
    decreases k
  {
    if k == 0 then []
    else
      var picked := Pick(ids, usable, roundRobinIndex);
      if picked.None? then []
      else [picked.value] + Picks(ids, usable, (picked.value + 1) % |ids|, k - 1)
  }

  /** The usable positions met while counting from a up to b. */
  function UsableFrom(ids: seq<Id>, usable: set<Id>, a: nat, b: nat): seq<nat>
    requires |ids| > 0
    decreases b - a
  {
    if a >= b then []
    else (if ids[a % |ids|] in usable then [a % |ids|] else []) + UsableFrom(ids, usable, a + 1, b)
  }

  lemma ModStep(a: nat, b: nat, n: nat)
    requires n > 0 && a % n == b % n
    ensures (a + 1) % n == (b + 1) % n
  {
    var qa, qb, r := a / n, b / n, a % n;
    assert a == qa * n + r && b == qb * n + r;
    if r + 1 < n {
      DivUnique(a + 1, n, qa, r + 1);
      DivUnique(b + 1, n, qb, r + 1);
    } else {
      assert (qa + 1) * n == qa * n + n && (qb + 1) * n == qb * n + n;
      DivUnique(a + 1, n, qa + 1, 0);
      DivUnique(b + 1, n, qb + 1, 0);
    }
  }

  lemma {:induction false} ScanPeriodic(ids: seq<Id>, usable: set<Id>, a: nat, b: nat, steps: nat)
    requires 0 < |ids| && steps <= |ids| && a % |ids| == b % |ids|
    ensures Scan(ids, usable, a, steps) == Scan(ids, usable, b, steps)
    decreases steps
  {
    if steps > 0 {
      ModStep(a, b, |ids|);
      ScanPeriodic(ids, usable, a + 1, b + 1, steps - 1);
    }
  }

  lemma {:induction false} ScanExtends(ids: seq<Id>, usable: set<Id>, a: nat, steps: nat, more: nat)
    requires steps <= more <= |ids| && Scan(ids, usable, a, steps).Some?
    ensures Scan(ids, usable, a, more) == Scan(ids, usable, a, steps)
    decreases steps
  {
    if ids[a % |ids|] !in usable {
      ScanExtends(ids, usable, a + 1, steps - 1, more - 1);
    }
  }

  lemma {:induction false} ScanFinds(ids: seq<Id>, usable: set<Id>, a: nat, b: nat)
    requires 0 < |ids| && a <= b <= a + |ids| && UsableFrom(ids, usable, a, b) != []
    ensures Scan(ids, usable, a, b - a).Some?
    decreases b - a
  {
    if ids[a % |ids|] !in usable {
      ScanFinds(ids, usable, a + 1, b);
    }
  }

  lemma {:induction false} PicksPeriodic(ids: seq<Id>, usable: set<Id>, a: nat, b: nat, k: nat)
    requires 0 < |ids| && a % |ids| == b % |ids|
    ensures Picks(ids, usable, a, k) == Picks(ids, usable, b, k)
  {
    ScanPeriodic(ids, usable, a, b, |ids|);
  }

  lemma StepOver(ids: seq<Id>, usable: set<Id>, a: nat, b: nat)
    requires 0 < |ids| && a < b && ids[a % |ids|] !in usable
    ensures Scan(ids, usable, a, |ids|) == Scan(ids, usable, a + 1, |ids| - 1)
    ensures UsableFrom(ids, usable, a, b) == UsableFrom(ids, usable, a + 1, b)
  {
  }

  lemma {:induction false} PickSkipsUnusable(ids: seq<Id>, usable: set<Id>, a: nat, b: nat)
    requires 0 < |ids| && a < b <= a + |ids| && ids[a % |ids|] !in usable && UsableFrom(ids, usable, a, b) != []
    ensures Pick(ids, usable, a) == Pick(ids, usable, a + 1)
  {
    StepOver(ids, usable, a, b);
    hide UsableFrom, Scan;
    ScanFinds(ids, usable, a + 1, b);
    ScanExtends(ids, usable, a + 1, b - a - 1, |ids| - 1);
    ScanExtends(ids, usable, a + 1, b - a - 1, |ids|);
  }

  lemma SkipUnusable(ids: seq<Id>, usable: set<Id>, a: nat, b: nat, k: nat)
    requires 0 < |ids| && a < b <= a + |ids| && ids[a % |ids|] !in usable && UsableFrom(ids, usable, a, b) != []
    ensures Picks(ids, usable, a, k) == Picks(ids, usable, a + 1, k)
  {
    PickSkipsUnusable(ids, usable, a, b);
    hide UsableFrom, Scan;
  }

  /** Consecutive picks list the usable positions in counting order. */
  lemma {:induction false} PicksEnumerate(ids: seq<Id>, usable: set<Id>, a: nat, b: nat)
    requires 0 < |ids| && a <= b <= a + |ids|
    ensures Picks(ids, usable, a, |UsableFrom(ids, usable, a, b)|) == UsableFrom(ids, usable, a, b)
    decreases b - a
  {
    var listed := UsableFrom(ids, usable, a, b);
    if listed != [] {
      PicksEnumerate(ids, usable, a + 1, b);
      if ids[a % |ids|] in usable {
        ModOfMod(a, |ids|);
        PicksPeriodic(ids, usable, (a % |ids| + 1) % |ids|, a + 1, |listed| - 1);
      } else {
        SkipUnusable(ids, usable, a, b, |listed|);
      }
    }
  }

  lemma ModOfMod(a: nat, n: nat)
    requires n > 0
    ensures ((a % n + 1) % n) % n == (a + 1) % n
  {
    DivUnique(a % n, n, 0, a % n);
    ModStep(a % n, a, n);
    DivUnique((a + 1) % n, n, 0, (a + 1) % n);
  }

  lemma ModApart(a: nat, k: nat, n: nat)
    requires a < k < a + n
    ensures a % n != k % n
  {
    var qa, qk := a / n, k / n;
    assert a == qa * n + a % n && k == qk * n + k % n;
    if a % n == k % n {
      assert k - a == (qk - qa) * n;
      MulMonotone(qk - qa, 0, n);
      MulMonotone(1, qk - qa, n);
    }
  }

  /** What UsableFrom lists: the residues of the usable places between a and b. */
  lemma {:induction false} ListedIff(ids: seq<Id>, usable: set<Id>, a: nat, b: nat, p: nat)
    requires 0 < |ids|
    ensures p in UsableFrom(ids, usable, a, b)
      <==> exists k :: a <= k < b && Residue(k, |ids|) == p && ids[Residue(k, |ids|)] in usable
    decreases b - a
  {
    if a < b {
      ListedIff(ids, usable, a + 1, b, p);
      assert Residue(a, |ids|) == a % |ids|;
    }
  }

  function Residue(k: int, n: nat): (r: nat)
    requires n > 0
    ensures r < n
  {
    k % n
  }

  lemma NotListedAgain(ids: seq<Id>, usable: set<Id>, a: nat, b: nat)
    requires 0 < |ids| && a < b <= a + |ids|
    ensures a % |ids| !in UsableFrom(ids, usable, a + 1, b)
  {
    ListedIff(ids, usable, a + 1, b, a % |ids|);
    forall k | a + 1 <= k < b ensures Residue(k, |ids|) != a % |ids| {
      ModApart(a, k, |ids|);
    }
  }

  lemma {:induction false} ListedOnce(ids: seq<Id>, usable: set<Id>, a: nat, b: nat)
    requires 0 < |ids| && a <= b <= a + |ids|
    ensures var listed := UsableFrom(ids, usable, a, b);
      forall i, j :: 0 <= i < j < |listed| ==> listed[i] != listed[j]
    decreases b - a
  {
    if a < b {
      var rest := UsableFrom(ids, usable, a + 1, b);
      assert UsableFrom(ids, usable, a, b) == rest || UsableFrom(ids, usable, a, b) == [a % |ids|] + rest;
      hide UsableFrom;
      ListedOnce(ids, usable, a + 1, b);
      NotListedAgain(ids, usable, a, b);
    }
  }

  lemma {:induction false} AllListed(ids: seq<Id>, usable: set<Id>, a: nat, b: nat)
    requires 0 < |ids| && a <= b
    ensures (forall id <- ids :: id in usable) ==> |UsableFrom(ids, usable, a, b)| == b - a
    decreases b - a
  {
    if a < b {
      AllListed(ids, usable, a + 1, b);
      assert ids[a % |ids|] in ids;
    }
  }

  predicate Distinct(ids: seq<Id>) {
    forall i, j :: 0 <= i < j < |ids| ==> ids[i] != ids[j]
  }

  /** A round of picks over distinct ids returns every usable id exactly once, and nothing else. */
  lemma RoundIsFair(ids: seq<Id>, usable: set<Id>, roundRobinIndex: nat) returns (m: nat)
    requires 0 < |ids| && Distinct(ids)
    ensures var picks := Picks(ids, usable, roundRobinIndex, m);
      && |picks| == m
      && (forall k :: 0 <= k < m ==> picks[k] < |ids| && ids[picks[k]] in usable)
      && (forall j, k :: 0 <= j < k < m ==> ids[picks[j]] != ids[picks[k]])
      && (forall p :: 0 <= p < |ids| && ids[p] in usable ==> p in picks)
    ensures (forall id <- ids :: id in usable) ==> m == |ids|
  {
    hide UsableFrom, Picks, Scan;
    var n := |ids|;
    var listed := UsableFrom(ids, usable, roundRobinIndex, roundRobinIndex + n);
    m := |listed|;
    AllListed(ids, usable, roundRobinIndex, roundRobinIndex + n);
    PicksEnumerate(ids, usable, roundRobinIndex, roundRobinIndex + n);
    ListedOnce(ids, usable, roundRobinIndex, roundRobinIndex + n);
    forall k | 0 <= k < m ensures listed[k] < n && ids[listed[k]] in usable {
      ListedIff(ids, usable, roundRobinIndex, roundRobinIndex + n, listed[k]);
    }
    forall p | 0 <= p < n && ids[p] in usable ensures p in listed {
      var j := Reaches(n, roundRobinIndex, p);
      assert Residue(roundRobinIndex + j, n) == p;
      ListedIff(ids, usable, roundRobinIndex, roundRobinIndex + n, p);
    }
  }
}
