/** Splitting the configured webhooks into user groups and server groups. */
module WebhookGroups {
  import opened Basics

  function SafeGroupCount(n: nat, groupCount: int): nat {
    if n == 0 then 1 else Max(1, Min(groupCount, n))
  }

  /** The size of group i when n items are split into g groups: the first n mod g groups take one more. */
  function SplitSize(n: nat, g: nat, i: nat): nat
    requires g > 0
  {
    n / g + (if i < n % g then 1 else 0)
  }

  /** An order-preserving split into `count` non-empty groups, longer ones first, sizes differing by at most one. */
  ghost predicate EvenSplit<T(!new)>(items: seq<T>, groups: seq<seq<T>>, count: nat) {
    && |groups| == count
    && Flatten(groups) == items
    && (forall k :: 0 <= k < |groups| ==> |groups[k]| > 0)
    && forall i, j :: 0 <= i < j < |groups| ==> |groups[j]| <= |groups[i]| <= |groups[j]| + 1
  }

  function NonEmpty<T>(groups: seq<seq<T>>): seq<seq<T>> {
    if groups == [] then []
    else (if groups[0] == [] then [] else [groups[0]]) + NonEmpty(groups[1..])
  }

  lemma {:induction false} AllNonEmpty<T>(groups: seq<seq<T>>)
    requires forall k :: 0 <= k < |groups| ==> |groups[k]| > 0
    ensures NonEmpty(groups) == groups
  {
    if groups != [] {
      assert groups == [groups[0]] + groups[1..];
      AllNonEmpty(groups[1..]);
    }
  }

  method PartitionSequential<T(!new)>(items: seq<T>, groupCount: int) returns (groups: seq<seq<T>>)
    ensures EvenSplit(items, groups, if items == [] then 0 else SafeGroupCount(|items|, groupCount))
    ensures forall k :: 0 <= k < |groups| ==> |groups[k]| == SplitSize(|items|, |groups|, k)
  {
    hide Flatten, NonEmpty;
    EmptyGroups<T>();
    var safe := SafeGroupCount(|items|, groupCount);
    var baseSize, remainder := |items| / safe, |items| % safe;
    SizesFit(|items|, safe);
    groups := [];
    var offset := 0;
    for i := 0 to safe
      invariant |groups| == i && 0 <= offset == i * baseSize + Min(i, remainder) <= |items|
      invariant Flatten(groups) == items[..offset]
      invariant forall k :: 0 <= k < i ==> |groups[k]| == baseSize + (if k < remainder then 1 else 0)
    {
      var size := baseSize + (if i < remainder then 1 else 0);
      NextFits(|items|, safe, i);
      FlattenSnoc(groups, items[offset..offset + size]);
      assert items[..offset] + items[offset..offset + size] == items[..offset + size];
      groups := groups + [items[offset..offset + size]];
      offset := offset + size;
    }
    assert offset == |items| && items[..offset] == items;
    if items == [] {
      assert groups == [[]];
    } else {
      SizesMakeSplit(items, groups, safe);
      AllNonEmpty(groups);
    }
    groups := NonEmpty(groups);
  }

  lemma EmptyGroups<T>()
    ensures Flatten<T>([]) == [] && NonEmpty<T>([]) == [] && NonEmpty<T>([[]]) == []
  {
    var one: seq<seq<T>> := [[]];
    assert one[1..] == [];
  }

  lemma SizesMakeSplit<T(!new)>(items: seq<T>, groups: seq<seq<T>>, g: nat)
    requires 0 < g <= |items| && |groups| == g && Flatten(groups) == items
    requires forall k :: 0 <= k < g ==> |groups[k]| == SplitSize(|items|, g, k)
    ensures EvenSplit(items, groups, g)
  {
    SizesFit(|items|, g);
    hide Flatten;
  }

  lemma SizesFit(n: nat, g: nat)
    requires g > 0
    ensures n == g * (n / g) + n % g && (n >= g ==> n / g >= 1)
  {
    AtMostQuotient(if n >= g then 1 else 0, n, g);
  }

  lemma NextFits(n: nat, g: nat, i: nat)
    requires i < g
    ensures (i + 1) * (n / g) == i * (n / g) + n / g
    ensures (i + 1) * (n / g) + Min(i + 1, n % g) <= n
  {
    SizesFit(n, g);
    MulMonotone(i + 1, g, n / g);
  }

  // ------------------------------------------------------ the split is unique

  /** Groups of sizes between lo and hi cover between lo and hi times their number of items. */
  lemma {:induction false} FlattenSize<T>(groups: seq<seq<T>>, lo: nat, hi: nat)
    requires forall k :: 0 <= k < |groups| ==> lo <= |groups[k]| <= hi
    ensures |groups| * lo <= |Flatten(groups)| <= |groups| * hi
  {
    if groups != [] {
      var rest := groups[1..];
      FlattenSize(rest, lo, hi);
      assert |Flatten(groups)| == |groups[0]| + |Flatten(rest)|;
      AddOne(|rest|, lo);
      AddOne(|rest|, hi);
    }
  }

  lemma AddOne(k: nat, d: nat)
    ensures (k + 1) * d == k * d + d
  {
  }

  /** The first group has the rounded-up share. */
  lemma FirstSize<T(!new)>(items: seq<T>, groups: seq<seq<T>>, count: nat)
    requires EvenSplit(items, groups, count) && count > 0
    ensures |groups[0]| == (|items| + count - 1) / count
  {
    var f, rest := |groups[0]|, groups[1..];
    forall k | 0 <= k < |rest| ensures f - 1 <= |rest[k]| <= f {
      assert rest[k] == groups[k + 1];
    }
    FlattenSize(rest, f - 1, f);
    assert |items| == f + |Flatten(rest)|;
    RoundedUp(|items|, count, f);
  }

  lemma RoundedUp(n: nat, count: nat, f: nat)
    requires count > 0 && f > 0 && f + (count - 1) * (f - 1) <= n <= f + (count - 1) * f
    ensures (n + count - 1) / count == f
  {
    AddOne(count - 1, f);
    AddOne(count - 1, f - 1);
    assert count * (f - 1) == count * f - count;
    assert count * f == f * count;
    DivUnique(n + count - 1, count, f, n + count - 1 - f * count);
  }

  lemma TailSplit<T(!new)>(items: seq<T>, groups: seq<seq<T>>, count: nat)
    requires EvenSplit(items, groups, count) && count > 0
    ensures |groups[0]| <= |items| && groups[0] == items[..|groups[0]|]
    ensures EvenSplit(items[|groups[0]|..], groups[1..], count - 1)
  {
    assert items == groups[0] + Flatten(groups[1..]);
    forall k | 0 <= k < |groups[1..]| ensures |groups[1..][k]| > 0 {
      assert groups[1..][k] == groups[k + 1];
    }
  }

  /** The properties determine the groups. */
  lemma {:induction false} SplitIsUnique<T(!new)>(items: seq<T>, a: seq<seq<T>>, b: seq<seq<T>>, count: nat)
    requires EvenSplit(items, a, count) && EvenSplit(items, b, count)
    ensures a == b
    decreases count
  {
    if count > 0 {
      FirstSize(items, a, count);
      FirstSize(items, b, count);
      TailSplit(items, a, count);
      TailSplit(items, b, count);
      SplitIsUnique(items[|a[0]|..], a[1..], b[1..], count - 1);
      assert a == [a[0]] + a[1..] && b == [b[0]] + b[1..];
    }
  }

  // ------------------------------------------------------------------ groups

  datatype Grouped<+T> = Grouped(webhook: T, userGroupIndex: nat, serverGroupIndex: nat, indexWithinServerGroup: nat)

  function Webhooks<T>(grouped: seq<Grouped<T>>): (r: seq<T>)
    ensures |r| == |grouped|
  {
    seq(|grouped|, i requires 0 <= i < |grouped| => grouped[i].webhook)
  }

  predicate Before<T>(a: Grouped<T>, b: Grouped<T>) {
    || a.userGroupIndex < b.userGroupIndex
    || (a.userGroupIndex == b.userGroupIndex && a.serverGroupIndex < b.serverGroupIndex)
    || (a.userGroupIndex == b.userGroupIndex && a.serverGroupIndex == b.serverGroupIndex
        && a.indexWithinServerGroup < b.indexWithinServerGroup)
  }

  /**
   The next webhook of the same server group, the first of the next server group, or the first of the
   next user group.
   */
  predicate Follows<T>(a: Grouped<T>, b: Grouped<T>) {
    var first := b.indexWithinServerGroup == 0;
    || (b.userGroupIndex == a.userGroupIndex && b.serverGroupIndex == a.serverGroupIndex
        && b.indexWithinServerGroup == a.indexWithinServerGroup + 1)
    || (b.userGroupIndex == a.userGroupIndex && b.serverGroupIndex == a.serverGroupIndex + 1 && first)
    || (b.userGroupIndex == a.userGroupIndex + 1 && b.serverGroupIndex == 0 && first)
  }

  predicate Gapless<T>(grouped: seq<Grouped<T>>) {
    && (grouped != [] ==>
      grouped[0].userGroupIndex == grouped[0].serverGroupIndex == grouped[0].indexWithinServerGroup == 0)
    && forall k :: 0 < k < |grouped| ==> Follows(grouped[k - 1], grouped[k])
  }

  /** Math.round of a quotient of naturals: half rounds up. */
  function RoundedQuotient(a: nat, b: nat): nat
    requires b > 0
  {
    (2 * a + b) / (2 * b)
  }

  function ClampedCount(configured: nat, webhookCount: nat): int {
    Max(1, Min(configured, Max(1, webhookCount)))
  }

  predicate InGroup<T>(c: Grouped<T>, u: nat, s: nat) { c.userGroupIndex == u && c.serverGroupIndex == s }

  /** How many webhooks stand in server group s of user group u. */
  function GroupSize<T>(grouped: seq<Grouped<T>>, u: nat, s: nat): nat {
    if grouped == [] then 0
    else
      var last := |grouped| - 1;
      GroupSize(grouped[..last], u, s) + (if InGroup(grouped[last], u, s) then 1 else 0)
  }

  function UserGroupCount(n: nat, userGroupsCfg: nat): nat {
    if n == 0 then 0 else SafeGroupCount(n, ClampedCount(userGroupsCfg, n))
  }

  /** A user group of `size` of the n webhooks gets its share of the configured servers, rounded. */
  function ServerGroupCount(n: nat, size: nat, serversCfg: nat): nat {
    SafeGroupCount(size, Max(1, RoundedQuotient(ClampedCount(serversCfg, n) * size, Max(1, n))))
  }

  /** The size of server group s of user group u that n webhooks get under this configuration. */
  function ConfiguredSize(n: nat, userGroupsCfg: nat, serversCfg: nat, u: nat, s: nat): nat {
    var users := UserGroupCount(n, userGroupsCfg);
    if u >= users then 0
    else
      var size := SplitSize(n, users, u);
      var servers := ServerGroupCount(n, size, serversCfg);
      if s >= servers then 0 else SplitSize(size, servers, s)
  }

  /** Append one server group's webhooks with their coordinates. */
  method AppendServerGroup<T(!new)>(grouped: seq<Grouped<T>>, serverGroup: seq<T>, u: nat, s: nat)
    returns (r: seq<Grouped<T>>)
    requires Gapless(grouped) && |serverGroup| > 0
    requires grouped == [] ==> u == 0 && s == 0
    requires grouped != [] ==> Follows(grouped[|grouped| - 1], Grouped(serverGroup[0], u, s, 0))
    ensures Gapless(r) && Webhooks(r) == Webhooks(grouped) + serverGroup && r != []
    ensures r[|r| - 1].userGroupIndex == u && r[|r| - 1].serverGroupIndex == s
    ensures forall v: nat, t: nat ::
      GroupSize(r, v, t) == GroupSize(grouped, v, t) + (if v == u && t == s then |serverGroup| else 0)
  {
    hide GroupSize, Gapless, Follows;
    r := grouped;
    for i := 0 to |serverGroup|
      invariant |r| == |grouped| + i && Gapless(r) && Webhooks(r) == Webhooks(grouped) + serverGroup[..i]
      invariant i == 0 ==> r == grouped
      invariant i > 0 ==> r[|r| - 1] == Grouped(serverGroup[i - 1], u, s, i - 1)
      invariant forall v: nat, t: nat ::
        GroupSize(r, v, t) == GroupSize(grouped, v, t) + (if v == u && t == s then i else 0)
    {
      var next := Grouped(serverGroup[i], u, s, i);
      WebhooksSnoc(r, next);
      SizesSnoc(r, next);
      GaplessSnoc(r, next);
      assert serverGroup[..i + 1] == serverGroup[..i] + [serverGroup[i]];
      r := r + [next];
    }
    assert serverGroup[..|serverGroup|] == serverGroup;
  }

  lemma WebhooksSnoc<T>(grouped: seq<Grouped<T>>, next: Grouped<T>)
    ensures Webhooks(grouped + [next]) == Webhooks(grouped) + [next.webhook]
  {
  }

  lemma SizesSnoc<T>(grouped: seq<Grouped<T>>, next: Grouped<T>)
    ensures forall u: nat, s: nat ::
      GroupSize(grouped + [next], u, s) == GroupSize(grouped, u, s) + (if InGroup(next, u, s) then 1 else 0)
  {
    assert (grouped + [next])[..|grouped|] == grouped;
  }

  lemma GaplessSnoc<T>(grouped: seq<Grouped<T>>, next: Grouped<T>)
    requires Gapless(grouped)
    requires grouped == [] ==> next.userGroupIndex == next.serverGroupIndex == next.indexWithinServerGroup == 0
    requires grouped != [] ==> Follows(grouped[|grouped| - 1], next)
    ensures Gapless(grouped + [next])
  {
  }

  method AppendUserGroup<T(!new)>(grouped: seq<Grouped<T>>, userGroup: seq<T>, serverCount: int, u: nat)
    returns (r: seq<Grouped<T>>)
    requires Gapless(grouped) && |userGroup| > 0
    requires grouped == [] ==> u == 0
    requires grouped != [] ==> grouped[|grouped| - 1].userGroupIndex + 1 == u
    ensures Gapless(r) && Webhooks(r) == Webhooks(grouped) + userGroup && r != []
    ensures r[|r| - 1].userGroupIndex == u
    ensures r[|r| - 1].serverGroupIndex + 1 == SafeGroupCount(|userGroup|, serverCount)
    ensures var servers := SafeGroupCount(|userGroup|, serverCount);
      forall v: nat, t: nat ::
        GroupSize(r, v, t) == GroupSize(grouped, v, t)
          + (if v == u && t < servers then SplitSize(|userGroup|, servers, t) else 0)
  {
    hide GroupSize, Gapless, Webhooks, SplitSize;
    var serverGroups := PartitionSequential(userGroup, serverCount);
    r := grouped;
    for s := 0 to |serverGroups|
      invariant Gapless(r) && Webhooks(r) == Webhooks(grouped) + Flatten(serverGroups[..s])
      invariant s == 0 ==> r == grouped
      invariant s > 0 ==> r != [] && r[|r| - 1].userGroupIndex == u && r[|r| - 1].serverGroupIndex == s - 1
      invariant forall v: nat, t: nat ::
        GroupSize(r, v, t) == GroupSize(grouped, v, t) + (if v == u && t < s then |serverGroups[t]| else 0)
    {
      assert serverGroups[..s + 1] == serverGroups[..s] + [serverGroups[s]];
      FlattenSnoc(serverGroups[..s], serverGroups[s]);
      r := AppendServerGroup(r, serverGroups[s], u, s);
    }
    assert serverGroups[..|serverGroups|] == serverGroups;
  }

  lemma EmptyListing<T>()
    ensures Gapless<T>([]) && forall u: nat, s: nat :: GroupSize<T>([], u, s) == 0
  {
  }

  /** Every configured webhook exactly once, in order, under gapless coordinates, in groups of the configured sizes. */
  method BuildGroupedWebhooks<T(!new)>(webhooks: seq<T>, userGroupsCfg: nat, serversCfg: nat)
    returns (grouped: seq<Grouped<T>>)
    ensures Webhooks(grouped) == webhooks && Gapless(grouped)
    ensures webhooks != [] ==>
      grouped[|grouped| - 1].userGroupIndex + 1 == UserGroupCount(|webhooks|, userGroupsCfg)
    ensures forall u: nat, s: nat ::
      GroupSize(grouped, u, s) == ConfiguredSize(|webhooks|, userGroupsCfg, serversCfg, u, s)
  {
    hide GroupSize, Gapless, RoundedQuotient, SplitSize;
    EmptyListing<T>();
    var userGroups := PartitionSequential(webhooks, ClampedCount(userGroupsCfg, |webhooks|));
    var totalServers: nat := ClampedCount(serversCfg, |webhooks|);
    grouped := [];
    for u := 0 to |userGroups|
      invariant Gapless(grouped) && Webhooks(grouped) == Flatten(userGroups[..u])
      invariant u == 0 ==> grouped == []
      invariant u > 0 ==> grouped != [] && grouped[|grouped| - 1].userGroupIndex == u - 1
      invariant forall v: nat, s: nat ::
        GroupSize(grouped, v, s) == if v < u then ConfiguredSize(|webhooks|, userGroupsCfg, serversCfg, v, s) else 0
    {
      var share := RoundedQuotient(totalServers * |userGroups[u]|, Max(1, |webhooks|));
      assert userGroups[..u + 1] == userGroups[..u] + [userGroups[u]];
      FlattenSnoc(userGroups[..u], userGroups[u]);
      grouped := AppendUserGroup(grouped, userGroups[u], Max(1, share), u);
    }
    assert userGroups[..|userGroups|] == userGroups;
  }

  /** Gapless coordinates are listed in order, so no two webhooks share one. */
  lemma {:induction false} CoordinatesAscend<T>(grouped: seq<Grouped<T>>, i: nat, j: nat)
    requires Gapless(grouped) && i < j < |grouped|
    ensures Before(grouped[i], grouped[j])
    decreases j - i
  {
    assert Follows(grouped[j - 1], grouped[j]);
    if i < j - 1 {
      CoordinatesAscend(grouped, i, j - 1);
    }
  }

  /** Every user group index up to the last one is used: the cursors' counts are the numbers of groups. */
  lemma {:induction false} NoUserGroupSkipped<T>(grouped: seq<Grouped<T>>, u: nat) returns (k: nat)
    requires Gapless(grouped) && grouped != [] && u <= grouped[|grouped| - 1].userGroupIndex
    ensures k < |grouped| && grouped[k].userGroupIndex == u
    decreases |grouped|
  {
    var last := |grouped| - 1;
    if grouped[last].userGroupIndex == u {
      k := last;
    } else if last > 0 {
      assert Follows(grouped[last - 1], grouped[last]);
      k := NoUserGroupSkipped(grouped[..last], u);
    }
  }
}
