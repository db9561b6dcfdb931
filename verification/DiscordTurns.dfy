/**
 What the score of a webhook means for the turns of the groups: when it is the cyclic order
 after the cursors, and when a crowded group or a long list of servers breaks it.
 */
module DiscordTurns {
  import opened Basics
  import opened WebhookGroups
  import opened DiscordSenders
  import opened DiscordSelection

  // ------------------------------------------------------- places within a group

  lemma {:induction false} NoMembers<T>(grouped: seq<Grouped<T>>, u: nat, s: nat)
    requires forall c <- grouped :: !InGroup(c, u, s)
    ensures GroupSize(grouped, u, s) == 0
  {
    if grouped != [] {
      NoMembers(grouped[..|grouped| - 1], u, s);
    }
  }

  lemma GaplessPrefix<T>(grouped: seq<Grouped<T>>, n: nat)
    requires Gapless(grouped) && n <= |grouped|
    ensures Gapless(grouped[..n])
  {
    forall k | 0 < k < n ensures Follows(grouped[..n][k - 1], grouped[..n][k]) {
      assert Follows(grouped[k - 1], grouped[k]);
    }
  }

  /** A webhook's index is the number of webhooks of its group listed before it. */
  lemma {:induction false} IndexCountsEarlier<T>(grouped: seq<Grouped<T>>, p: nat)
    requires Gapless(grouped) && p < |grouped|
    ensures var c := grouped[p];
      c.indexWithinServerGroup == GroupSize(grouped[..p], c.userGroupIndex, c.serverGroupIndex)
  {
    var c := grouped[p];
    var u, s := c.userGroupIndex, c.serverGroupIndex;
    if p > 0 && InGroup(grouped[p - 1], u, s) {
      assert Follows(grouped[p - 1], c);
      IndexCountsEarlier(grouped, p - 1);
      assert grouped[..p][..p - 1] == grouped[..p - 1];
    } else {
      if p > 0 { assert Follows(grouped[p - 1], c); }
      forall b | b in grouped[..p] ensures !InGroup(b, u, s) {
        var i :| 0 <= i < p && grouped[i] == b;
        CoordinatesAscend(grouped, i, p);
      }
      NoMembers(grouped[..p], u, s);
    }
  }

  lemma {:induction false} SizeGrows<T>(grouped: seq<Grouped<T>>, n: nat, u: nat, s: nat)
    requires n <= |grouped|
    ensures GroupSize(grouped[..n], u, s) <= GroupSize(grouped, u, s)
    decreases |grouped| - n
  {
    if n < |grouped| {
      assert grouped[..n + 1][..n] == grouped[..n];
      SizeGrows(grouped, n + 1, u, s);
    } else {
      assert grouped[..n] == grouped;
    }
  }

  lemma IndexBelowSize<T>(grouped: seq<Grouped<T>>, c: Grouped<T>)
    requires Gapless(grouped) && c in grouped
    ensures c.indexWithinServerGroup < GroupSize(grouped, c.userGroupIndex, c.serverGroupIndex)
  {
    var p :| 0 <= p < |grouped| && grouped[p] == c;
    IndexCountsEarlier(grouped, p);
    assert grouped[..p + 1][..p] == grouped[..p];
    SizeGrows(grouped, p + 1, c.userGroupIndex, c.serverGroupIndex);
  }

  /** Every index below the size is some webhook's. */
  lemma {:induction false} MemberAt<T>(grouped: seq<Grouped<T>>, u: nat, s: nat, i: nat) returns (c: Grouped<T>)
    requires Gapless(grouped) && i < GroupSize(grouped, u, s)
    ensures c in grouped && InGroup(c, u, s) && c.indexWithinServerGroup == i
  {
    var last := |grouped| - 1;
    IndexCountsEarlier(grouped, last);
    if InGroup(grouped[last], u, s) && grouped[last].indexWithinServerGroup == i {
      c := grouped[last];
    } else {
      GaplessPrefix(grouped, last);
      c := MemberAt(grouped[..last], u, s, i);
    }
  }

  // ------------------------------------------------------------- groups in turn

  /** What the score adds for a webhook's groups, before its index. */
  function UserDistance(u: nat, at: Cursors, n: nat): int
    requires n > 0
  {
    JsMod(u - at.userGroup + n, n)
  }

  function ServerDistance(s: nat, at: Cursors): int { JsMod(s - at.server + 32, 32) }

  function Base(u: nat, s: nat, at: Cursors, n: nat): int
    requires n > 0
  {
    10000 * UserDistance(u, at, n) + 100 * ServerDistance(s, at)
  }

  lemma ScoreSplits(c: Candidate, at: Cursors, n: nat)
    requires n > 0
    ensures Score(c, at, n) == Base(c.userGroupIndex, c.serverGroupIndex, at, n) + c.indexWithinServerGroup
  {
  }

  /** Every webhook of the first server group scores below every webhook of the second. */
  ghost predicate AllBelow(grouped: seq<Candidate>, ua: nat, sa: nat, ub: nat, sb: nat, at: Cursors, n: nat)
    requires n > 0
  {
    forall a <- grouped, b <- grouped :: InGroup(a, ua, sa) && InGroup(b, ub, sb) ==> Score(a, at, n) < Score(b, at, n)
  }

  /** That is so exactly if the first group is no larger than the distance between the groups' bases. */
  lemma GroupBelowIff(grouped: seq<Candidate>, ua: nat, sa: nat, ub: nat, sb: nat, at: Cursors, n: nat)
    requires n > 0 && Gapless(grouped) && GroupSize(grouped, ua, sa) > 0 && GroupSize(grouped, ub, sb) > 0
    ensures AllBelow(grouped, ua, sa, ub, sb, at, n)
       <==> GroupSize(grouped, ua, sa) <= Base(ub, sb, at, n) - Base(ua, sa, at, n)
  {
    var last := MemberAt(grouped, ua, sa, GroupSize(grouped, ua, sa) - 1);
    var first := MemberAt(grouped, ub, sb, 0);
    ScoreSplits(last, at, n);
    ScoreSplits(first, at, n);
    hide Score, Base, Gapless, GroupSize;
    if GroupSize(grouped, ua, sa) <= Base(ub, sb, at, n) - Base(ua, sa, at, n) {
      forall a, b | a in grouped && b in grouped && InGroup(a, ua, sa) && InGroup(b, ub, sb)
        ensures Score(a, at, n) < Score(b, at, n)
      {
        IndexBelowSize(grouped, a);
        ScoreSplits(a, at, n);
        ScoreSplits(b, at, n);
      }
    }
  }

  /** Within a user group: a server group keeps its turn before a later one iff it has at most 100 webhooks a step. */
  lemma ServerTurnIff(grouped: seq<Candidate>, u: nat, sa: nat, sb: nat, at: Cursors, n: nat)
    requires n > 0 && Gapless(grouped) && GroupSize(grouped, u, sa) > 0 && GroupSize(grouped, u, sb) > 0
    ensures AllBelow(grouped, u, sa, u, sb, at, n)
       <==> GroupSize(grouped, u, sa) <= 100 * (ServerDistance(sb, at) - ServerDistance(sa, at))
  {
    GroupBelowIff(grouped, u, sa, u, sb, at, n);
    hide AllBelow;
  }

  ghost predicate UserBelow(grouped: seq<Candidate>, ua: nat, ub: nat, at: Cursors, n: nat)
    requires n > 0
  {
    forall a <- grouped, b <- grouped :: a.userGroupIndex == ua && b.userGroupIndex == ub ==>
      Score(a, at, n) < Score(b, at, n)
  }

  /** No server group of ua reaches past the nearest server group of ub. */
  ghost predicate UserTurnFits(grouped: seq<Candidate>, ua: nat, ub: nat, at: Cursors, n: nat)
    requires n > 0
  {
    forall sa: nat, sb: nat :: GroupSize(grouped, ua, sa) > 0 && GroupSize(grouped, ub, sb) > 0 ==>
      GroupSize(grouped, ua, sa) + 100 * ServerDistance(sa, at)
        <= 10000 * (UserDistance(ub, at, n) - UserDistance(ua, at, n)) + 100 * ServerDistance(sb, at)
  }

  /** A user group keeps its turn before another exactly under this bound on its server groups. */
  lemma UserTurnIff(grouped: seq<Candidate>, ua: nat, ub: nat, at: Cursors, n: nat)
    requires n > 0 && Gapless(grouped)
    ensures UserBelow(grouped, ua, ub, at, n) <==> UserTurnFits(grouped, ua, ub, at, n)
  {
    if UserBelow(grouped, ua, ub, at, n) {
      forall sa: nat, sb: nat | GroupSize(grouped, ua, sa) > 0 && GroupSize(grouped, ub, sb) > 0
        ensures GroupSize(grouped, ua, sa) <= Base(ub, sb, at, n) - Base(ua, sa, at, n)
      {
        GroupBelowIff(grouped, ua, sa, ub, sb, at, n);
      }
    }
    if UserTurnFits(grouped, ua, ub, at, n) {
      forall a, b | a in grouped && b in grouped && a.userGroupIndex == ua && b.userGroupIndex == ub
        ensures Score(a, at, n) < Score(b, at, n)
      {
        IndexBelowSize(grouped, a);
        IndexBelowSize(grouped, b);
        GroupBelowIff(grouped, ua, a.serverGroupIndex, ub, b.serverGroupIndex, at, n);
      }
    }
  }

  // --------------------------------------------------------- the order of a listing

  /** The group that comes first after the cursors, user groups before server groups. */
  predicate CloserGroup(a: Candidate, b: Candidate, at: Cursors, n: nat)
    requires n > 0
  {
    var da, db := UserDistance(a.userGroupIndex, at, n), UserDistance(b.userGroupIndex, at, n);
    da < db || (da == db && ServerDistance(a.serverGroupIndex, at) < ServerDistance(b.serverGroupIndex, at))
  }

  predicate SamePlace(a: Candidate, b: Candidate, at: Cursors, n: nat)
    requires n > 0
  {
    && UserDistance(a.userGroupIndex, at, n) == UserDistance(b.userGroupIndex, at, n)
    && ServerDistance(a.serverGroupIndex, at) == ServerDistance(b.serverGroupIndex, at)
  }

  predicate Closer(a: Candidate, b: Candidate, at: Cursors, n: nat)
    requires n > 0
  {
    CloserGroup(a, b, at, n) || (SamePlace(a, b, at, n) && a.indexWithinServerGroup < b.indexWithinServerGroup)
  }

  ghost predicate ScoresByTurn(grouped: seq<Candidate>, at: Cursors, n: nat)
    requires n > 0
  {
    forall a <- grouped, b <- grouped :: Score(a, at, n) < Score(b, at, n) <==> Closer(a, b, at, n)
  }

  ghost predicate GroupsFit(grouped: seq<Candidate>, at: Cursors, n: nat)
    requires n > 0
  {
    forall a <- grouped, b <- grouped :: CloserGroup(a, b, at, n) ==>
      GroupSize(grouped, a.userGroupIndex, a.serverGroupIndex)
        <= Base(b.userGroupIndex, b.serverGroupIndex, at, n) - Base(a.userGroupIndex, a.serverGroupIndex, at, n)
  }

  /** The scores of a listing follow the turns exactly if every group fits in front of the groups after it. */
  lemma ScoreIsTurnOrderIff(grouped: seq<Candidate>, at: Cursors, n: nat)
    requires n > 0 && Gapless(grouped)
    ensures ScoresByTurn(grouped, at, n) <==> GroupsFit(grouped, at, n)
  {
    if ScoresByTurn(grouped, at, n) {
      forall a, b | a in grouped && b in grouped && CloserGroup(a, b, at, n)
        ensures GroupSize(grouped, a.userGroupIndex, a.serverGroupIndex)
          <= Base(b.userGroupIndex, b.serverGroupIndex, at, n) - Base(a.userGroupIndex, a.serverGroupIndex, at, n)
      {
        IndexBelowSize(grouped, a);
        IndexBelowSize(grouped, b);
        TurnsPutBelow(grouped, a, b, at, n);
        GroupBelowIff(grouped, a.userGroupIndex, a.serverGroupIndex, b.userGroupIndex, b.serverGroupIndex, at, n);
      }
    }
    if GroupsFit(grouped, at, n) {
      forall a, b | a in grouped && b in grouped ensures Score(a, at, n) < Score(b, at, n) <==> Closer(a, b, at, n) {
        FitPutsCloserFirst(grouped, a, b, at, n);
        FitPutsCloserFirst(grouped, b, a, at, n);
        ScoreSplits(a, at, n);
        ScoreSplits(b, at, n);
      }
    }
  }

  lemma TurnsPutBelow(grouped: seq<Candidate>, a: Candidate, b: Candidate, at: Cursors, n: nat)
    requires n > 0 && ScoresByTurn(grouped, at, n) && CloserGroup(a, b, at, n)
    ensures AllBelow(grouped, a.userGroupIndex, a.serverGroupIndex, b.userGroupIndex, b.serverGroupIndex, at, n)
  {
    hide Score, ServerDistance, UserDistance;
  }

  lemma FitPutsCloserFirst(grouped: seq<Candidate>, a: Candidate, b: Candidate, at: Cursors, n: nat)
    requires n > 0 && Gapless(grouped) && GroupsFit(grouped, at, n) && a in grouped && b in grouped
    ensures CloserGroup(a, b, at, n) ==> Score(a, at, n) < Score(b, at, n)
  {
    IndexBelowSize(grouped, a);
    ScoreSplits(a, at, n);
    ScoreSplits(b, at, n);
    hide Score, Base, Gapless, GroupSize, CloserGroup;
  }

  // ------------------------------------------------------------------ wrap-around

  /** How many groups of n are served before this one, counting on from the cursor. */
  function Turn(index: nat, cursor: nat, n: nat): int {
    if index >= cursor then index - cursor else index + n - cursor
  }

  lemma DistanceWithin(index: nat, cursor: nat, n: nat)
    requires index < n && cursor < n
    ensures JsMod(index - cursor + n, n) == Turn(index, cursor, n)
  {
    if index >= cursor {
      DivUnique(index - cursor + n, n, 1, index - cursor);
    } else {
      DivUnique(index - cursor + n, n, 0, index - cursor + n);
    }
  }

  /** The remainder keeps the sign: a server group more than 32 before the cursor may go ahead of the cursor's own. */
  lemma GroupJumpsAheadIff(s: nat, at: Cursors)
    ensures ServerDistance(at.server, at) == 0
    ensures ServerDistance(s, at) < 0 <==> s + 32 < at.server && (at.server - s) % 32 != 0
  {
    var behind := at.server - s - 32;
    if behind > 0 {
      DivUnique(at.server - s, 32, behind / 32 + 1, behind % 32);
    }
  }

  /** The fixed modulus 32 orders the server groups of a user group by turn exactly if there are at most 32. */
  lemma ServerTurnsIff(count: nat, at: Cursors)
    requires at.server < count
    ensures (forall s: nat, t: nat | s < count && t < count ::
        ServerDistance(s, at) < ServerDistance(t, at) <==> Turn(s, at.server, count) < Turn(t, at.server, count))
      <==> count <= 32
  {
    if count <= 32 {
      forall s: nat | s < count ensures ServerDistance(s, at) == Turn(s, at.server, 32) {
        DistanceWithin(s, at.server, 32);
      }
    } else {
      var s: nat := if at.server < 32 then 0 else at.server - 32;
      var t := s + 32;
      assert ServerDistance(s, at) == ServerDistance(t, at) by {
        var d := s - at.server + 32;
        assert 0 < d <= 32 || d == 0;
        DivUnique(d + 32, 32, d / 32 + 1, d % 32);
      }
      assert Turn(s, at.server, count) != Turn(t, at.server, count);
    }
  }

  // -------------------------------------------------------------------- selection

  /**
   The user group under the cursor is served whenever it can be, provided its server groups fit
   in front of every other user group's; the cursor then moves past it.
   */
  lemma CursorGroupGoesFirst(
    selector: Selector, k: nat, j: nat, viaRelay: bool, usable: set<SenderId>, claims: Claims, at: Cursors)
    requires k < |selector.groupedWebhooks| && j < |selector.groupedWebhooks| && selector.userGroupsCount > 0
    requires selector.FirstOfLeastScore(k, viaRelay, usable, claims, at) && Gapless(selector.groupedWebhooks)
    requires forall c <- selector.groupedWebhooks ::
      || c.userGroupIndex == at.userGroup
      || UserTurnFits(selector.groupedWebhooks, at.userGroup, c.userGroupIndex, at, selector.userGroupsCount)
    requires Eligible(selector.groupedWebhooks[j], viaRelay, selector.relayIds, usable, claims)
    requires selector.groupedWebhooks[j].userGroupIndex == at.userGroup
    ensures selector.groupedWebhooks[k].userGroupIndex == at.userGroup
    ensures Advanced(selector.groupedWebhooks, selector.groupedWebhooks[k]).userGroup
      == if exists c <- selector.groupedWebhooks :: c.userGroupIndex == at.userGroup + 1 then at.userGroup + 1 else 0
  {
    hide Score, Advanced, ServerGroupTotal, UserGroupTotal, UserTurnFits, Gapless;
    var ck, cj := selector.groupedWebhooks[k], selector.groupedWebhooks[j];
    assert ck in selector.groupedWebhooks && cj in selector.groupedWebhooks;
    if ck.userGroupIndex != at.userGroup {
      UserTurnIff(selector.groupedWebhooks, at.userGroup, ck.userGroupIndex, at, selector.userGroupsCount);
      assert false;
    }
    UserCursorMoves(selector.groupedWebhooks, ck);
  }

  lemma {:induction false} UserTotalReached(grouped: seq<Candidate>, u: nat)
    ensures UserGroupTotal(grouped) > u <==> exists c <- grouped :: c.userGroupIndex >= u
  {
    if grouped != [] {
      UserTotalReached(grouped[1..], u);
      assert grouped == [grouped[0]] + grouped[1..];
    }
  }

  /** The user cursor moves to the next user group, and from the last to the first. */
  lemma UserCursorMoves(grouped: seq<Candidate>, c: Candidate)
    requires Gapless(grouped) && c in grouped
    ensures var u := c.userGroupIndex;
      Advanced(grouped, c).userGroup == if exists d <- grouped :: d.userGroupIndex == u + 1 then u + 1 else 0
  {
    var u, n := c.userGroupIndex, UserGroupTotal(grouped);
    UserTotalReached(grouped, u);
    UserTotalReached(grouped, u + 1);
    if n > u + 1 {
      var d :| d in grouped && d.userGroupIndex >= u + 1;
      var p :| 0 <= p < |grouped| && grouped[p] == d;
      var k := NoUserGroupSkipped(grouped[..p + 1], u + 1);
      assert grouped[k] in grouped;
      DivUnique(u + 1, n, 0, u + 1);
    } else {
      DivUnique(n, n, 1, 0);
    }
  }

  lemma {:induction false} TotalReached(grouped: seq<Candidate>, u: nat, t: nat)
    ensures ServerGroupTotal(grouped, u) > t <==>
      exists c <- grouped :: c.userGroupIndex == u && c.serverGroupIndex >= t
  {
    if grouped != [] {
      TotalReached(grouped[1..], u, t);
      assert grouped == [grouped[0]] + grouped[1..];
    }
  }

  /** Between two server groups of a user group no index is left out. */
  lemma {:induction false} NoServerSkipped(grouped: seq<Candidate>, p: nat, t: nat)
    requires Gapless(grouped) && p < |grouped| && t <= grouped[p].serverGroupIndex
    ensures exists c <- grouped :: InGroup(c, grouped[p].userGroupIndex, t)
    decreases p
  {
    if grouped[p].serverGroupIndex == t {
      assert InGroup(grouped[p], grouped[p].userGroupIndex, t) && grouped[p] in grouped;
    } else if p > 0 {
      assert Follows(grouped[p - 1], grouped[p]);
      NoServerSkipped(grouped, p - 1, t);
    }
  }

  /** The server cursor moves to the next server group of the chosen user group, and from the last to the first. */
  lemma ServerCursorMoves(grouped: seq<Candidate>, c: Candidate)
    requires Gapless(grouped) && c in grouped
    ensures var u, s := c.userGroupIndex, c.serverGroupIndex;
      Advanced(grouped, c).server == if exists d <- grouped :: InGroup(d, u, s + 1) then s + 1 else 0
  {
    var u, s, n := c.userGroupIndex, c.serverGroupIndex, ServerGroupTotal(grouped, c.userGroupIndex);
    TotalReached(grouped, u, s);
    TotalReached(grouped, u, s + 1);
    assert n > s;
    if n > s + 1 {
      var d :| d in grouped && d.userGroupIndex == u && d.serverGroupIndex >= s + 1;
      var p :| 0 <= p < |grouped| && grouped[p] == d;
      NoServerSkipped(grouped, p, s + 1);
      DivUnique(s + 1, n, 0, s + 1);
    } else {
      DivUnique(n, n, 1, 0);
    }
  }

  // ----------------------------------------------------------------- a real listing

  /** With one user group the webhooks are split evenly over the configured servers. */
  lemma OneUserGroupSizes(n: nat, servers: nat, s: nat)
    requires 1 <= servers <= n && s < servers
    ensures ConfiguredSize(n, 1, servers, 0, s) == SplitSize(n, servers, s)
  {
    assert UserGroupCount(n, 1) == 1;
    assert SplitSize(n, 1, 0) == n;
    RoundsBack(servers, n);
    assert ServerGroupCount(n, n, servers) == servers;
    hide SplitSize;
  }

  lemma RoundsBack(k: nat, n: nat)
    requires n > 0
    ensures RoundedQuotient(k * n, n) == k
  {
    assert 2 * (k * n) + n == k * (2 * n) + n;
    DivUnique(2 * (k * n) + n, 2 * n, k, n);
  }

  lemma FirstShare(n: nat, g: nat)
    requires g > 0
    ensures SplitSize(n, g, 0) <= 100 <==> n <= 100 * g
  {
    var q, m := n / g, n % g;
    assert n == g * q + m;
    if q <= 99 {
      MulMonotone(q, 99, g);
      assert q * g == g * q && 99 * g + g == 100 * g;
    } else if q >= 101 {
      MulMonotone(101, q, g);
      assert q * g == g * q;
    }
  }

  /**
   The listing of one user group on two or more servers: at the initial cursors the first
   server keeps its turn before the second exactly up to 100 webhooks for each server.
   */
  method SingleUserListing(webhooks: seq<SenderId>, servers: nat) returns (grouped: seq<Candidate>)
    requires 2 <= servers <= |webhooks|
    ensures Webhooks(grouped) == webhooks && Gapless(grouped)
    ensures AllBelow(grouped, 0, 0, 0, 1, Cursors(0, 0), 1) <==> |webhooks| <= 100 * servers
  {
    grouped := BuildGroupedWebhooks(webhooks, 1, servers);
    OneUserGroupSizes(|webhooks|, servers, 0);
    OneUserGroupSizes(|webhooks|, servers, 1);
    SharesNonEmpty(|webhooks|, servers);
    ServerTurnIff(grouped, 0, 0, 1, Cursors(0, 0), 1);
    FirstShare(|webhooks|, servers);
  }

  lemma SharesNonEmpty(n: nat, g: nat)
    requires 0 < g <= n
    ensures SplitSize(n, g, 0) > 0 && SplitSize(n, g, 1) > 0
  {
    WebhookGroups.SizesFit(n, g);
  }

  /** On 204 webhooks and two servers, a webhook of the first server scores worse than one of the second. */
  method CrowdedListing(webhooks: seq<SenderId>)
    returns (grouped: seq<Candidate>, ghost a: Candidate, ghost b: Candidate)
    requires |webhooks| == 204
    ensures Webhooks(grouped) == webhooks && Gapless(grouped)
    ensures a in grouped && b in grouped && CloserGroup(a, b, Cursors(0, 0), 1)
    ensures Score(b, Cursors(0, 0), 1) < Score(a, Cursors(0, 0), 1)
  {
    grouped := BuildGroupedWebhooks(webhooks, 1, 2);
    OneUserGroupSizes(204, 2, 0);
    OneUserGroupSizes(204, 2, 1);
    a := MemberAt(grouped, 0, 0, 101);
    b := MemberAt(grouped, 0, 1, 0);
  }

  /** On 33 webhooks and 33 servers, the webhooks of the first and the last server score alike. */
  method WrappedListing(webhooks: seq<SenderId>)
    returns (grouped: seq<Candidate>, ghost a: Candidate, ghost b: Candidate)
    requires |webhooks| == 33
    ensures Webhooks(grouped) == webhooks && Gapless(grouped)
    ensures a in grouped && b in grouped && InGroup(a, 0, 0) && InGroup(b, 0, 32)
    ensures Turn(0, 0, 33) < Turn(32, 0, 33) && Score(a, Cursors(0, 0), 1) == Score(b, Cursors(0, 0), 1)
  {
    grouped := BuildGroupedWebhooks(webhooks, 1, 33);
    OneUserGroupSizes(33, 33, 0);
    OneUserGroupSizes(33, 33, 32);
    a := MemberAt(grouped, 0, 0, 0);
    b := MemberAt(grouped, 0, 32, 0);
  }
}
