/**
 The per-IP limiter: a counting window that opens with the first request after the
 previous one ended, and a cleanup pass. Times are milliseconds of a clock that never goes back.
 */
module IpRateLimit {
  import opened Basics

  type Time = nat

  datatype PolicyName = Blob | Auth

  datatype Policy = Policy(windowMs: nat, maxRequests: nat)

  function PolicyOf(name: PolicyName): (p: Policy)
    ensures p.windowMs > 1000 && p.maxRequests > 0
  {
    match name
    case Blob => Policy(60000, 300)
    case Auth => Policy(60000, 10)
  }

  datatype Key = Key(policy: PolicyName, ip: nat)

  datatype Entry = Entry(count: nat, resetAt: Time)

  type Limits = map<Key, Entry>

  /** An entry whose window has not ended. */
  function Live(limits: Limits, key: Key, now: Time): Option<Entry> {
    if key in limits && now < limits[key].resetAt then Some(limits[key]) else None
  }

  function Allowed(limits: Limits, key: Key, now: Time): bool {
    var live := Live(limits, key, now);
    live.None? || live.value.count + 1 <= PolicyOf(key.policy).maxRequests
  }

  function Counted(limits: Limits, key: Key, now: Time): Limits {
    var live := Live(limits, key, now);
    if live.None? then limits[key := Entry(1, now + PolicyOf(key.policy).windowMs)]
    else limits[key := live.value.(count := live.value.count + 1)]
  }

  function Cleaned(limits: Limits, now: Time): Limits {
    map key <- limits | now < limits[key].resetAt :: limits[key]
  }

  class Limiter {
    var limits: Limits

    constructor ()
      ensures limits == map[]
    {
      limits := map[];
    }

    method CheckRateLimit(ip: nat, policyName: PolicyName, now: Time) returns (allowed: bool, retryAfter: nat)
      modifies this
      ensures limits == Counted(old(limits), Key(policyName, ip), now)
      ensures allowed == Allowed(old(limits), Key(policyName, ip), now)
      ensures !allowed ==>
        var left := limits[Key(policyName, ip)].resetAt - now; (retryAfter - 1) * 1000 < left <= retryAfter * 1000
    {
      var policy, key := PolicyOf(policyName), Key(policyName, ip);
      retryAfter := 0;
      if key !in limits || now >= limits[key].resetAt {
        limits := limits[key := Entry(1, now + policy.windowMs)];
        return true, 0;
      }
      limits := limits[key := limits[key].(count := limits[key].count + 1)];
      if limits[key].count > policy.maxRequests {
        retryAfter := (limits[key].resetAt - now + 999) / 1000;
        return false, retryAfter;
      }
      allowed := true;
    }

    /** The timer's pass over all entries. */
    method Cleanup(now: Time)
      modifies this
      ensures limits == Cleaned(old(limits), now)
    {
      var keys := limits.Keys;
      while keys != {}
        invariant keys <= old(limits).Keys
        invariant limits == map key <- old(limits) | key in keys || now < old(limits)[key].resetAt :: old(limits)[key]
        decreases keys
      {
        var key :| key in keys;
        if now >= limits[key].resetAt {
          limits := limits - {key};
        }
        keys := keys - {key};
      }
    }
  }

  // ------------------------------------------------------------ event sequences

  datatype Event = Request(key: Key, at: Time) | Cleanup(at: Time)

  /** A request let through, with the start of the window it was counted in. */
  datatype Admission = Admission(key: Key, at: Time, start: int)

  datatype State = State(limits: Limits, clock: Time, admitted: seq<Admission>)

  const Initial := State(map[], 0, [])

  predicate Enabled(s: State, e: Event) { s.clock <= e.at }

  function Apply(s: State, e: Event): State {
    match e
    case Cleanup(at) => s.(limits := Cleaned(s.limits, at), clock := at)
    case Request(key, at) =>
      var t := s.(limits := Counted(s.limits, key, at), clock := at);
      if !Allowed(s.limits, key, at) then t
      else t.(admitted := s.admitted + [Admission(key, at, t.limits[key].resetAt - PolicyOf(key.policy).windowMs)])
  }

  predicate Valid(s: State, run: seq<Event>)
    decreases |run|
  {
    run == [] || (Enabled(s, run[0]) && Valid(Apply(s, run[0]), run[1..]))
  }

  function Final(s: State, run: seq<Event>): State
    decreases |run|
  {
    if run == [] then s else Final(Apply(s, run[0]), run[1..])
  }

  // -------------------------------------------------------------- invariant

  /** Indices of the admissions counted in the window of `key` that starts at `start`. */
  function InWindow(admitted: seq<Admission>, key: Key, start: int): set<nat> {
    set i: nat | i < |admitted| && admitted[i].key == key && admitted[i].start == start
  }

  /** Indices of the admissions of `key` with from <= at < until. */
  function Within(admitted: seq<Admission>, key: Key, from: int, until: int): set<nat> {
    set i: nat | i < |admitted| && admitted[i].key == key && from <= admitted[i].at < until
  }

  function Window(key: Key): nat { PolicyOf(key.policy).windowMs }

  function Most(key: Key): nat { PolicyOf(key.policy).maxRequests }

  /** The request that opened a window was admitted in it. */
  predicate Opened(admitted: seq<Admission>, key: Key, start: int) {
    exists o <- admitted :: o.key == key && o.start == o.at == start
  }

  predicate Inside(s: State, key: Key) {
    forall a <- s.admitted :: a.key == key ==> a.start <= a.at <= s.clock && a.at < a.start + Window(key)
  }

  predicate AllOpened(s: State, key: Key) {
    forall a <- s.admitted :: a.key == key ==> Opened(s.admitted, key, a.start)
  }

  predicate Disjoint(admitted: seq<Admission>, key: Key) {
    forall a, b :: a in admitted && b in admitted && a.key == key && b.key == key && a.start < b.start ==>
      a.start + Window(key) <= b.start
  }

  ghost predicate CountsOk(s: State, key: Key) {
    forall start :: |InWindow(s.admitted, key, start)| <= Most(key)
  }

  /** Every window has ended, unless it is the entry's own. */
  predicate PastEnded(s: State, key: Key) {
    forall a <- s.admitted :: a.key == key ==>
      a.start + Window(key) <= s.clock || (key in s.limits && s.limits[key].resetAt == a.start + Window(key))
  }

  /** The entry counts at least the admissions of its own window, which an admitted request opened. */
  predicate EntryOk(s: State, key: Key) {
    key in s.limits ==>
      var start := s.limits[key].resetAt - Window(key);
      && start <= s.clock && |InWindow(s.admitted, key, start)| <= s.limits[key].count
      && (s.clock < s.limits[key].resetAt ==> Opened(s.admitted, key, start))
  }

  predicate WindowsOk(s: State, key: Key) {
    Inside(s, key) && AllOpened(s, key) && Disjoint(s.admitted, key)
  }

  ghost predicate Inv(s: State, key: Key) {
    WindowsOk(s, key) && CountsOk(s, key) && PastEnded(s, key) && EntryOk(s, key)
  }

  /** Steps that leave the key's entry and admissions alone, or only count. */
  lemma QuietKeeps(s: State, t: State, key: Key)
    requires Inv(s, key) && t.admitted == s.admitted && s.clock <= t.clock
    requires key in t.limits ==>
      key in s.limits && t.limits[key].resetAt == s.limits[key].resetAt && t.limits[key].count >= s.limits[key].count
    requires key in s.limits && key !in t.limits ==> s.limits[key].resetAt <= t.clock
    ensures Inv(t, key)
  {
  }

  lemma InWindowSnoc(admitted: seq<Admission>, a: Admission, key: Key, start: int)
    ensures |InWindow(admitted + [a], key, start)|
      == |InWindow(admitted, key, start)| + if a.key == key && a.start == start then 1 else 0
  {
    var before, after := InWindow(admitted, key, start), InWindow(admitted + [a], key, start);
    assert after == if a.key == key && a.start == start then before + {|admitted|} else before;
  }

  lemma OpenedStays(admitted: seq<Admission>, a: Admission, key: Key, start: int)
    ensures Opened(admitted, key, start) ==> Opened(admitted + [a], key, start)
  {
  }

  lemma AllOpenedStays(s: State, t: State, a: Admission, key: Key)
    requires AllOpened(s, key) && t.admitted == s.admitted + [a]
    requires a.key == key ==> Opened(t.admitted, key, a.start)
    ensures AllOpened(t, key)
  {
    forall b | b in s.admitted && b.key == key ensures Opened(t.admitted, key, b.start) {
      OpenedStays(s.admitted, a, key, b.start);
    }
  }

  lemma OtherKeepsWindows(s: State, t: State, a: Admission, key: Key)
    requires WindowsOk(s, key) && t.admitted == s.admitted + [a] && a.key != key && s.clock <= t.clock
    ensures WindowsOk(t, key)
  {
    AllOpenedStays(s, t, a, key);
    hide AllOpened;
  }

  lemma OtherKeepsCounts(s: State, t: State, a: Admission, key: Key)
    requires CountsOk(s, key) && t.admitted == s.admitted + [a] && a.key != key
    ensures CountsOk(t, key)
  {
    forall start ensures |InWindow(t.admitted, key, start)| == |InWindow(s.admitted, key, start)| {
      InWindowSnoc(s.admitted, a, key, start);
    }
  }

  lemma OtherKeepsEntry(s: State, t: State, a: Admission, key: Key)
    requires EntryOk(s, key) && t.admitted == s.admitted + [a] && a.key != key && s.clock <= t.clock
    requires (key in t.limits) == (key in s.limits) && (key in s.limits ==> t.limits[key] == s.limits[key])
    ensures EntryOk(t, key)
  {
    if key in s.limits {
      InWindowSnoc(s.admitted, a, key, s.limits[key].resetAt - Window(key));
      OpenedStays(s.admitted, a, key, s.limits[key].resetAt - Window(key));
    }
    hide InWindow, Opened;
  }

  /** An admission for another key changes nothing for this one. */
  lemma OtherAdmissionKeeps(s: State, t: State, a: Admission, key: Key)
    requires Inv(s, key) && t.admitted == s.admitted + [a] && a.key != key && s.clock <= t.clock
    requires (key in t.limits) == (key in s.limits) && (key in s.limits ==> t.limits[key] == s.limits[key])
    ensures Inv(t, key)
  {
    hide WindowsOk, CountsOk, EntryOk;
    OtherKeepsWindows(s, t, a, key);
    OtherKeepsCounts(s, t, a, key);
    OtherKeepsEntry(s, t, a, key);
  }

  /** One more admission in a window that starts after every earlier one, or in the latest of them. */
  lemma AdmissionKeepsWindows(s: State, t: State, a: Admission)
    requires WindowsOk(s, a.key) && t.admitted == s.admitted + [a] && s.clock <= t.clock == a.at
    requires a.start <= a.at < a.start + Window(a.key)
    requires a.start == a.at || Opened(s.admitted, a.key, a.start)
    requires forall b <- s.admitted :: b.key == a.key ==> b.start + Window(a.key) <= a.start || b.start == a.start
    ensures WindowsOk(t, a.key)
  {
    assert a in t.admitted;
    OpenedStays(s.admitted, a, a.key, a.start);
    AllOpenedStays(s, t, a, a.key);
    hide AllOpened, Opened;
  }

  /** A request that finds no live entry opens a window after every earlier one. */
  lemma OpeningKeeps(s: State, key: Key, at: Time)
    requires Inv(s, key) && s.clock <= at && Live(s.limits, key, at).None?
    ensures Inv(Apply(s, Request(key, at)), key)
  {
    var t, a := Apply(s, Request(key, at)), Admission(key, at, at);
    assert t.admitted == s.admitted + [a] && t.limits[key] == Entry(1, at + Window(key));
    assert forall b <- s.admitted :: b.key == key ==> b.start + Window(key) <= at;
    AdmissionKeepsWindows(s, t, a);
    assert InWindow(s.admitted, key, at) == {};
    OneMoreCounted(s, t, a);
    assert a in t.admitted;
    hide WindowsOk, InWindow;
  }

  lemma OneMoreCounted(s: State, t: State, a: Admission)
    requires CountsOk(s, a.key) && t.admitted == s.admitted + [a]
      && |InWindow(s.admitted, a.key, a.start)| < Most(a.key)
    ensures CountsOk(t, a.key) && |InWindow(t.admitted, a.key, a.start)| == |InWindow(s.admitted, a.key, a.start)| + 1
  {
    forall start ensures |InWindow(t.admitted, a.key, start)| <= Most(a.key) {
      InWindowSnoc(s.admitted, a, a.key, start);
    }
    InWindowSnoc(s.admitted, a, a.key, a.start);
  }

  /** Seen from a live window, every other window has ended before it opened. */
  lemma LiveIsLatest(s: State, key: Key)
    requires WindowsOk(s, key) && PastEnded(s, key) && EntryOk(s, key)
    requires key in s.limits && s.clock < s.limits[key].resetAt
    ensures var start := s.limits[key].resetAt - Window(key);
      forall b <- s.admitted :: b.key == key ==> b.start + Window(key) <= start || b.start == start
  {
    var start := s.limits[key].resetAt - Window(key);
    var o :| o in s.admitted && o.key == key && o.start == o.at == start;
    forall b | b in s.admitted && b.key == key && b.start != start ensures b.start + Window(key) <= start {
      assert b.start + Window(key) <= s.clock;
    }
  }

  /** A request admitted into a live window: the entry's count leaves room for it. */
  lemma AdmittedKeeps(s: State, key: Key, at: Time)
    requires Inv(s, key) && s.clock <= at && Live(s.limits, key, at).Some? && Allowed(s.limits, key, at)
    ensures Inv(Apply(s, Request(key, at)), key)
  {
    var t, opening := Apply(s, Request(key, at)), s.limits[key].resetAt - Window(key);
    var a := Admission(key, at, opening);
    assert t.admitted == s.admitted + [a] && t.limits[key] == s.limits[key].(count := s.limits[key].count + 1);
    LiveIsLatest(s, key);
    AdmissionKeepsWindows(s, t, a);
    OneMoreCounted(s, t, a);
    OpenedStays(s.admitted, a, key, opening);
    hide WindowsOk, CountsOk, InWindow, Opened;
  }

  lemma {:induction false} RunKeeps(s: State, run: seq<Event>, key: Key)
    requires Inv(s, key) && Valid(s, run)
    ensures Inv(Final(s, run), key)
    decreases |run|
  {
    hide Inv;
    if run != [] {
      var e, t := run[0], Apply(s, run[0]);
      if e.Cleanup? || !Allowed(s.limits, e.key, e.at) {
        QuietKeeps(s, t, key);
      } else if e.key != key {
        OtherAdmissionKeeps(s, t, t.admitted[|s.admitted|], key);
      } else if Live(s.limits, key, e.at).None? {
        OpeningKeeps(s, key, e.at);
      } else {
        AdmittedKeeps(s, key, e.at);
      }
      RunKeeps(t, run[1..], key);
    }
  }

  lemma InitialOk(key: Key)
    ensures Inv(Initial, key)
  {
    assert forall start :: InWindow([], key, start) == {};
  }

  // ---------------------------------------------------------------- theorems

  /** Each window admits at most the policy's maximum. */
  lemma {:induction false} WindowBound(run: seq<Event>, key: Key, start: int)
    requires Valid(Initial, run)
    ensures |InWindow(Final(Initial, run).admitted, key, start)| <= PolicyOf(key.policy).maxRequests
  {
    InitialOk(key);
    RunKeeps(Initial, run, key);
  }

  /** Any half-open interval of one window's length admits at most twice the maximum, less one. */
  lemma {:induction false} IntervalBound(run: seq<Event>, key: Key, from: int)
    requires Valid(Initial, run)
    ensures |Within(Final(Initial, run).admitted, key, from, from + Window(key))|
      <= 2 * PolicyOf(key.policy).maxRequests - 1
  {
    InitialOk(key);
    RunKeeps(Initial, run, key);
    SplitInterval(Final(Initial, run), key, from);
  }

  lemma SubsetSize(a: set<nat>, b: set<nat>)
    requires a <= b
    ensures |a| <= |b|
  {
    if a != {} {
      var x :| x in a;
      SubsetSize(a - {x}, b - {x});
    }
  }

  /** Of a window that starts before the interval, the opening request is outside it. */
  lemma EarlierPart(s: State, key: Key, from: int, i: nat)
    requires Inv(s, key) && i < |s.admitted| && s.admitted[i].key == key && s.admitted[i].start < from
    ensures |InWindow(s.admitted, key, s.admitted[i].start) * Within(s.admitted, key, from, from + Window(key))|
      <= Most(key) - 1
  {
    var start := s.admitted[i].start;
    assert s.admitted[i] in s.admitted;
    var o :| o in s.admitted && o.key == key && o.start == o.at == start;
    var j :| 0 <= j < |s.admitted| && s.admitted[j] == o;
    var whole := InWindow(s.admitted, key, start);
    var part := whole * Within(s.admitted, key, from, from + Window(key));
    assert j in whole && j !in part;
    SubsetSize(part, whole - {j});
  }

  /** The admissions of the interval belong to at most one window starting before it and one starting inside. */
  lemma SplitInterval(s: State, key: Key, from: int)
    requires Inv(s, key)
    ensures |Within(s.admitted, key, from, from + Window(key))| <= 2 * Most(key) - 1
  {
    hide Inv;
    var inside := Within(s.admitted, key, from, from + Window(key));
    var early := set i <- inside | s.admitted[i].start < from;
    EarlySize(s, key, from, early);
    LateSize(s, key, from, inside - early);
    assert inside == early + (inside - early);
  }

  lemma EarlySize(s: State, key: Key, from: int, early: set<nat>)
    requires Inv(s, key)
    requires early <= Within(s.admitted, key, from, from + Window(key))
    requires forall i <- early :: s.admitted[i].start < from
    ensures |early| <= Most(key) - 1
  {
    if i :| i in early {
      EarlierPart(s, key, from, i);
      var part := InWindow(s.admitted, key, s.admitted[i].start) * Within(s.admitted, key, from, from + Window(key));
      forall k | k in early ensures k in part {
        SameWindow(s, key, i, k);
      }
      SubsetSize(early, part);
    }
  }

  lemma LateSize(s: State, key: Key, from: int, late: set<nat>)
    requires Inv(s, key)
    requires late <= Within(s.admitted, key, from, from + Window(key))
    requires forall i <- late :: s.admitted[i].start >= from
    ensures |late| <= Most(key)
  {
    if i :| i in late {
      var whole := InWindow(s.admitted, key, s.admitted[i].start);
      forall k | k in late ensures k in whole {
        SameWindow(s, key, i, k);
      }
      SubsetSize(late, whole);
    }
  }

  /** Two windows whose starts are less than one length apart are the same. */
  lemma SameWindow(s: State, key: Key, i: nat, k: nat)
    requires WindowsOk(s, key) && i < |s.admitted| && k < |s.admitted| && s.admitted[i].key == s.admitted[k].key == key
    requires s.admitted[i].start - Window(key) < s.admitted[k].start < s.admitted[i].start + Window(key)
    ensures s.admitted[i].start == s.admitted[k].start
  {
    assert s.admitted[i] in s.admitted && s.admitted[k] in s.admitted;
  }

  // --------------------------------------------------------- the bound is met

  lemma {:induction false} Snoc(s: State, run: seq<Event>, e: Event)
    requires Valid(s, run) && Enabled(Final(s, run), e)
    ensures Valid(s, run + [e]) && Final(s, run + [e]) == Apply(Final(s, run), e)
    decreases |run|
  {
    hide Enabled, Apply;
    if run == [] {
      assert run + [e] == [e] && [e][1..] == [];
    } else {
      assert (run + [e])[1..] == run[1..] + [e];
      Snoc(Apply(s, run[0]), run[1..], e);
    }
  }

  lemma WithinSnoc(admitted: seq<Admission>, a: Admission, key: Key, from: int, until: int)
    ensures |Within(admitted + [a], key, from, until)|
      == |Within(admitted, key, from, until)| + if a.key == key && from <= a.at < until then 1 else 0
  {
    var before, after := Within(admitted, key, from, until), Within(admitted + [a], key, from, until);
    assert after == if a.key == key && from <= a.at < until then before + {|admitted|} else before;
  }

  /** k further requests in a live window with room for them. */
  lemma {:induction false} FillWindow(run0: seq<Event>, key: Key, at: Time, k: nat, from: int, until: int)
    returns (run: seq<Event>)
    requires Valid(Initial, run0) && Final(Initial, run0).clock <= at && from <= at < until
    requires var s := Final(Initial, run0);
      key in s.limits && at < s.limits[key].resetAt && s.limits[key].count + k <= Most(key)
    ensures Valid(Initial, run)
    ensures var s, t := Final(Initial, run0), Final(Initial, run);
      && t.clock <= at && key in t.limits && t.limits[key] == s.limits[key].(count := s.limits[key].count + k)
      && |Within(t.admitted, key, from, until)| == |Within(s.admitted, key, from, until)| + k
    decreases k
  {
    if k == 0 {
      run := run0;
    } else {
      var before := FillWindow(run0, key, at, k - 1, from, until);
      var s := Final(Initial, before);
      Snoc(Initial, before, Request(key, at));
      run := before + [Request(key, at)];
      var t := Final(Initial, run);
      WithinSnoc(s.admitted, t.admitted[|s.admitted|], key, from, until);
    }
  }

  /** A request that finds the last window over. */
  lemma OpenWindow(run0: seq<Event>, key: Key, at: Time, from: int, until: int) returns (run: seq<Event>)
    requires Valid(Initial, run0) && Final(Initial, run0).clock <= at
    requires Live(Final(Initial, run0).limits, key, at).None?
    ensures Valid(Initial, run)
    ensures var s, t := Final(Initial, run0), Final(Initial, run);
      && t.clock == at && key in t.limits && t.limits[key] == Entry(1, at + Window(key))
      && |Within(t.admitted, key, from, until)| 
        == |Within(s.admitted, key, from, until)| + if from <= at < until then 1 else 0
  {
    Snoc(Initial, run0, Request(key, at));
    run := run0 + [Request(key, at)];
    var s, t := Final(Initial, run0), Final(Initial, run);
    WithinSnoc(s.admitted, t.admitted[|s.admitted|], key, from, until);
  }

  /** One request, the rest of its window at the last moment, then a full window: the bound is reached. */
  lemma IntervalBoundIsTight(key: Key) returns (run: seq<Event>)
    ensures Valid(Initial, run)
    ensures |Within(Final(Initial, run).admitted, key, Window(key) - 1, 2 * Window(key) - 1)| == 2 * Most(key) - 1
  {
    var w := Window(key);
    var from, until := w - 1, 2 * w - 1;
    assert Within([], key, from, until) == {};
    run := OpenWindow([], key, 0, from, until);
    run := FillWindow(run, key, w - 1, Most(key) - 1, from, until);
    run := OpenWindow(run, key, w, from, until);
    run := FillWindow(run, key, w, Most(key) - 1, from, until);
  }

  // --------------------------------------------------------- cleanup is invisible

  /** The answers to the requests of a run, in order. */
  function Decisions(limits: Limits, run: seq<Event>): seq<bool>
    decreases |run|
  {
    if run == [] then []
    else
      match run[0]
      case Cleanup(at) => Decisions(Cleaned(limits, at), run[1..])
      case Request(key, at) => [Allowed(limits, key, at)] + Decisions(Counted(limits, key, at), run[1..])
  }

  function RequestsOnly(run: seq<Event>): seq<Event> {
    if run == [] then [] else (if run[0].Request? then [run[0]] else []) + RequestsOnly(run[1..])
  }

  predicate Ordered(run: seq<Event>, clock: Time) {
    run == [] || (clock <= run[0].at && Ordered(run[1..], run[0].at))
  }

  /** Two tables with the same live entries, now and later. */
  ghost predicate Alike(a: Limits, b: Limits, now: Time) {
    forall key: Key, t: Time :: now <= t ==> Live(a, key, t) == Live(b, key, t)
  }

  lemma CleanedAlike(a: Limits, b: Limits, now: Time, at: Time)
    requires Alike(a, b, now) && now <= at
    ensures Alike(Cleaned(a, at), b, at)
  {
    forall key: Key, t: Time | at <= t ensures Live(Cleaned(a, at), key, t) == Live(b, key, t) {
      assert Live(a, key, t) == Live(b, key, t);
    }
  }

  lemma CountedAlike(a: Limits, b: Limits, now: Time, key: Key, at: Time)
    requires Alike(a, b, now) && now <= at
    ensures Allowed(a, key, at) == Allowed(b, key, at)
    ensures Alike(Counted(a, key, at), Counted(b, key, at), at)
  {
    assert Live(a, key, at) == Live(b, key, at);
    forall k: Key, t: Time | at <= t ensures Live(Counted(a, key, at), k, t) == Live(Counted(b, key, at), k, t) {
      assert Live(a, k, t) == Live(b, k, t);
    }
  }

  lemma {:induction false} AlikeDecide(a: Limits, b: Limits, now: Time, run: seq<Event>)
    requires Alike(a, b, now) && Ordered(run, now)
    ensures Decisions(a, run) == Decisions(b, RequestsOnly(run))
    decreases |run|
  {
    if run != [] {
      match run[0] {
        case Cleanup(at) =>
          CleanedAlike(a, b, now, at);
          AlikeDecide(Cleaned(a, at), b, at, run[1..]);
          assert RequestsOnly(run) == RequestsOnly(run[1..]);
        case Request(key, at) =>
          CountedAlike(a, b, now, key, at);
          AlikeDecide(Counted(a, key, at), Counted(b, key, at), at, run[1..]);
          assert RequestsOnly(run)[1..] == RequestsOnly(run[1..]);
      }
    }
  }

  /** Cleanup passes at any moments change no decision. */
  lemma {:induction false} CleanupIsInvisible(run: seq<Event>)
    requires Ordered(run, 0)
    ensures Decisions(map[], run) == Decisions(map[], RequestsOnly(run))
  {
    AlikeDecide(map[], map[], 0, run);
  }

  /** A cleanup pass leaves exactly the entries whose window has not ended, as they were. */
  lemma CleanupIsExact(s: State, at: Time, key: Key)
    requires Enabled(s, Cleanup(at))
    ensures var t := Apply(s, Cleanup(at));
      && (key in t.limits <==> Live(s.limits, key, at).Some?)
      && (key in t.limits ==> Some(t.limits[key]) == Live(s.limits, key, at))
      && t.admitted == s.admitted && t.clock == at
  {
  }
}
