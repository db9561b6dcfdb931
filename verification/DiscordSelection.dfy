/** Choosing the Discord sender of one upload: direct webhooks, then bots, then relay webhooks. */
module DiscordSelection {
  import opened Basics
  import opened WebhookGroups
  import opened DiscordSenders

  type Candidate = Grouped<SenderId>

  datatype Selected = DirectWebhook(candidate: Candidate) | BotSender(id: SenderId) | RelayWebhook(candidate: Candidate)

  function SenderOf(selected: Selected): SenderId {
    match selected
    case BotSender(id) => id
    case _ => selected.candidate.webhook
  }

  datatype Cursors = Cursors(userGroup: nat, server: nat)

  /** JavaScript's remainder keeps the sign of the dividend. */
  function JsMod(a: int, n: nat): int
    requires n > 0
  {
    if a >= 0 then a % n else -((-a) % n)
  }

  function Score(c: Candidate, cursors: Cursors, userGroupsCount: nat): int
    requires userGroupsCount > 0
  {
    var userDistance := JsMod(c.userGroupIndex - cursors.userGroup + userGroupsCount, userGroupsCount);
    var serverDistance := JsMod(c.serverGroupIndex - cursors.server + 32, 32);
    userDistance * 10000 + serverDistance * 100 + c.indexWithinServerGroup
  }

  /** What the limiter and the claim table allow at this moment. */
  predicate Available(usable: set<SenderId>, claims: Claims, id: SenderId) {
    id in usable && HasCapacity(claims, id)
  }

  predicate Eligible(c: Candidate, viaRelay: bool, relayIds: set<SenderId>, usable: set<SenderId>, claims: Claims) {
    (c.webhook in relayIds) == viaRelay && Available(usable, claims, c.webhook)
  }

  class Selector {
    var cursors: Cursors
    var sharedBotRoundRobinIndex: nat

    const senders: SenderTable
    const groupedWebhooks: seq<Candidate>
    const bots: seq<SenderId>
    const relayIds: set<SenderId>
    const userGroupsCount: nat

    constructor (senders: SenderTable, groupedWebhooks: seq<Candidate>, bots: seq<SenderId>, relayIds: set<SenderId>,
        userGroupsCount: nat)
      ensures cursors == Cursors(0, 0) && sharedBotRoundRobinIndex == 0
    {
      cursors, sharedBotRoundRobinIndex := Cursors(0, 0), 0;
      this.senders := senders;
      this.groupedWebhooks, this.bots, this.relayIds := groupedWebhooks, bots, relayIds;
      this.userGroupsCount := userGroupsCount;
    }

    predicate HasEligible(viaRelay: bool, usable: set<SenderId>, claims: Claims) {
      exists k :: 0 <= k < |groupedWebhooks| && Eligible(groupedWebhooks[k], viaRelay, relayIds, usable, claims)
    }

    /** The first eligible candidate of least score: what a stable sort puts in front. */
    predicate FirstOfLeastScore(k: nat, viaRelay: bool, usable: set<SenderId>, claims: Claims, at: Cursors)
      requires k < |groupedWebhooks| && userGroupsCount > 0
    {
      && Eligible(groupedWebhooks[k], viaRelay, relayIds, usable, claims)
      && forall j :: 0 <= j < |groupedWebhooks| && Eligible(groupedWebhooks[j], viaRelay, relayIds, usable, claims) ==>
           Score(groupedWebhooks[k], at, userGroupsCount) + (if j < k then 1 else 0)
           <= Score(groupedWebhooks[j], at, userGroupsCount)
    }

    method LeastScored(viaRelay: bool, usable: set<SenderId>) returns (best: Option<nat>)
      requires userGroupsCount > 0
      ensures best.None? <==> !HasEligible(viaRelay, usable, senders.senderActiveUploads)
      ensures best.Some? ==> best.value < |groupedWebhooks|
      ensures best.Some? ==> FirstOfLeastScore(best.value, viaRelay, usable, senders.senderActiveUploads, cursors)
    {
      best := None;
      for i := 0 to |groupedWebhooks|
        invariant best.None? ==>
          forall j :: 0 <= j < i ==>
            !Eligible(groupedWebhooks[j], viaRelay, relayIds, usable, senders.senderActiveUploads)
        invariant best.Some? ==>
          && best.value < i
          && Eligible(groupedWebhooks[best.value], viaRelay, relayIds, usable, senders.senderActiveUploads)
          && forall j | 0 <= j < i
               && Eligible(groupedWebhooks[j], viaRelay, relayIds, usable, senders.senderActiveUploads) ::
               Score(groupedWebhooks[best.value], cursors, userGroupsCount) + (if j < best.value then 1 else 0)
               <= Score(groupedWebhooks[j], cursors, userGroupsCount)
      {
        var c := groupedWebhooks[i];
        if (c.webhook in relayIds) == viaRelay && c.webhook in usable
          && HasCapacity(senders.senderActiveUploads, c.webhook) {
          if best.None?
            || Score(c, cursors, userGroupsCount) < Score(groupedWebhooks[best.value], cursors, userGroupsCount) {
            best := Some(i);
          }
        }
      }
    }

    /** First available bot, counting up from the round-robin position. */
    ghost predicate FirstBot(i: nat, usable: set<SenderId>, claims: Claims, start: nat)
      requires |bots| > 0
    {
      && Available(usable, claims, bots[Circular(|bots|, start, i)])
      && forall j :: 0 <= j < i ==> !Available(usable, claims, bots[Circular(|bots|, start, j)])
    }

    method NextBot(usable: set<SenderId>) returns (found: Option<nat>)
      ensures found.None? <==> forall b <- bots :: !Available(usable, senders.senderActiveUploads, b)
      ensures found.Some? ==> found.value < |bots|
      ensures found.Some? ==> FirstBot(found.value, usable, senders.senderActiveUploads, sharedBotRoundRobinIndex)
    {
      for i := 0 to |bots|
        invariant forall j :: 0 <= j < i ==>
          !Available(usable, senders.senderActiveUploads, bots[Circular(|bots|, sharedBotRoundRobinIndex, j)])
      {
        var bot := bots[Circular(|bots|, sharedBotRoundRobinIndex, i)];
        if bot in usable && HasCapacity(senders.senderActiveUploads, bot) {
          assert bot in bots && Available(usable, senders.senderActiveUploads, bot);
          return Some(i);
        }
      }
      forall b | b in bots ensures !Available(usable, senders.senderActiveUploads, b) {
        var k :| 0 <= k < |bots| && bots[k] == b;
        var j := Reaches(|bots|, sharedBotRoundRobinIndex, k);
      }
      found := None;
    }

    method AdvanceGroupCursors(selected: Candidate)
      requires exists k :: 0 <= k < |groupedWebhooks| && groupedWebhooks[k] == selected
      modifies this`cursors
      ensures cursors == Advanced(groupedWebhooks, selected)
    {
      cursors := Advanced(groupedWebhooks, selected);
    }

    /** One pass of the polling loop; None sends the caller to sleep and try again. */
    method SelectOnce(usable: set<SenderId>) returns (selected: Option<Selected>)
      requires userGroupsCount > 0
      modifies this, senders
      ensures selected.None? <==>
        && !HasEligible(false, usable, old(senders.senderActiveUploads))
        && !HasEligible(true, usable, old(senders.senderActiveUploads))
        && forall b <- bots :: !Available(usable, old(senders.senderActiveUploads), b)
      ensures (exists c <- groupedWebhooks ::
          && c.webhook !in relayIds && c.webhook in usable
          && ActiveOf(old(senders.senderActiveUploads), c.webhook) < 2)
        <==> selected.Some? && selected.value.DirectWebhook?
      ensures selected.Some? ==>
        && SenderOf(selected.value) in usable
        && ActiveOf(old(senders.senderActiveUploads), SenderOf(selected.value)) < 2
      ensures selected.Some? && selected.value.DirectWebhook? ==> selected.value.candidate.webhook !in relayIds
      ensures selected.Some? && selected.value.RelayWebhook? ==> selected.value.candidate.webhook in relayIds
      ensures selected.None? ==>
        senders.senderActiveUploads == old(senders.senderActiveUploads) && cursors == old(cursors)
      ensures selected.Some? ==>
        && Available(usable, old(senders.senderActiveUploads), SenderOf(selected.value))
        && senders.senderActiveUploads == Claimed(old(senders.senderActiveUploads), SenderOf(selected.value))
      ensures selected.Some? && selected.value.DirectWebhook? ==>
        exists k: nat :: k < |groupedWebhooks| && groupedWebhooks[k] == selected.value.candidate
          && FirstOfLeastScore(k, false, usable, old(senders.senderActiveUploads), old(cursors))
      ensures selected.Some? && selected.value.BotSender? ==>
        && !HasEligible(false, usable, old(senders.senderActiveUploads))
        && cursors == old(cursors)
        && exists i: nat :: i < |bots|
             && FirstBot(i, usable, old(senders.senderActiveUploads), old(sharedBotRoundRobinIndex))
             && selected.value.id == bots[Circular(|bots|, old(sharedBotRoundRobinIndex), i)]
             && sharedBotRoundRobinIndex == (Circular(|bots|, old(sharedBotRoundRobinIndex), i) + 1) % |bots|
      ensures selected.Some? && selected.value.RelayWebhook? ==>
        && !HasEligible(false, usable, old(senders.senderActiveUploads))
        && (forall b <- bots :: !Available(usable, old(senders.senderActiveUploads), b))
        && exists k: nat :: k < |groupedWebhooks| && groupedWebhooks[k] == selected.value.candidate
             && FirstOfLeastScore(k, true, usable, old(senders.senderActiveUploads), old(cursors))
      ensures selected.Some? && !selected.value.BotSender? ==>
        cursors == Advanced(groupedWebhooks, selected.value.candidate)
    {
      var direct := LeastScored(false, usable);
      if direct.Some? {
        var c := groupedWebhooks[direct.value];
        AdvanceGroupCursors(c);
        senders.ClaimSender(c.webhook);
        return Some(DirectWebhook(c));
      }
      var bot := NextBot(usable);
      if bot.Some? {
        var idx := Circular(|bots|, sharedBotRoundRobinIndex, bot.value);
        sharedBotRoundRobinIndex := (idx + 1) % |bots|;
        senders.ClaimSender(bots[idx]);
        return Some(BotSender(bots[idx]));
      }
      var relay := LeastScored(true, usable);
      if relay.Some? {
        var c := groupedWebhooks[relay.value];
        AdvanceGroupCursors(c);
        senders.ClaimSender(c.webhook);
        return Some(RelayWebhook(c));
      }
      selected := None;
    }
  }

  function UserGroupTotal(grouped: seq<Candidate>): nat {
    if grouped == [] then 0 else Max(UserGroupTotal(grouped[1..]), grouped[0].userGroupIndex + 1)
  }

  function ServerGroupTotal(grouped: seq<Candidate>, user: nat): nat {
    if grouped == [] then 0
    else
      var rest := ServerGroupTotal(grouped[1..], user);
      if grouped[0].userGroupIndex == user then Max(rest, grouped[0].serverGroupIndex + 1) else rest
  }

  function Advanced(grouped: seq<Candidate>, selected: Candidate): Cursors {
    var users := Max(1, UserGroupTotal(grouped));
    var servers := ServerGroupTotal(grouped, selected.userGroupIndex);
    Cursors((selected.userGroupIndex + 1) % users, if servers > 0 then (selected.serverGroupIndex + 1) % servers else 0)
  }
}
