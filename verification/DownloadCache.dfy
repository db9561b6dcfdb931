/** What the download engine's cache keeps over all interleavings of gets, prefetches, evictions and registrations. */
module DownloadCache {
  import opened Basics
  import opened DownloadEngine

  // ------------------------------------------------------------ all interleavings

  datatype Step =
    | Register(cfg: StreamConfig)
    | Unregister(file: FileId)
    | BeginGet(file: FileId, index: nat)
    | Settle(fetch: FetchId, fetched: bool)
    | Finish(fetch: FetchId)
    | Prefetch(file: FileId, current: nat)
    | Evict(file: FileId, current: nat)

  function Apply(w: World, s: State, step: Step): State {
    match step
    case Register(cfg) => Registered(s, cfg)
    case Unregister(file) => Unregistered(s, file)
    case BeginGet(file, index) => BegunGet(s, file, index)
    case Settle(f, fetched) => Settled(w, s, f, fetched)
    case Finish(f) => Finished(s, f)
    case Prefetch(file, current) => Prefetched(s, file, current)
    case Evict(file, current) => Evicted(s, file, current)
  }

  function Run(w: World, s: State, steps: seq<Step>): State
    decreases |steps|
  {
    if steps == [] then s else Run(w, Apply(w, s, steps[0]), steps[1..])
  }

  /** The bytes a chunk must have under a configuration. */
  predicate IsPlaintext(w: World, cfg: StreamConfig, index: nat, bytes: Bytes) {
    w.decrypt(cfg.fek, w.stored(cfg.fileId, index)) == Some(bytes)
  }

  predicate RegistrationsOk(s: State) {
    && s.streams.Keys == s.maps.Keys
    && (forall reg <- s.history :: reg < s.nextReg)
    && (forall f <- s.fetches :: f < s.nextFetch)
    && (forall file <- s.streams :: s.maps[file] in s.history && s.history[s.maps[file]] == s.streams[file])
    && forall file <- s.streams :: s.streams[file].fileId == file
  }

  predicate CachesOk(w: World, s: State) {
    forall slot <- s.caches :: slot.reg in s.history && IsPlaintext(w, s.history[slot.reg], slot.index, s.caches[slot])
  }

  predicate FetchOk(w: World, s: State, f: FetchId, fetch: Fetch) {
    && fetch.reg in s.history
    && fetch.file == s.history[fetch.reg].fileId && fetch.key == s.history[fetch.reg].fek
    && (fetch.outcome.Done? ==> IsPlaintext(w, s.history[fetch.reg], fetch.index, fetch.outcome.bytes))
    && (fetch.finished ==> !fetch.outcome.Running?)
    && (!fetch.finished ==> Slot(fetch.reg, fetch.index) in s.inflight && s.inflight[Slot(fetch.reg, fetch.index)] == f)
  }

  predicate FetchesOk(w: World, s: State) {
    && (forall f <- s.fetches :: FetchOk(w, s, f, s.fetches[f]))
    && forall slot <- s.inflight ::
      var f := s.inflight[slot];
      f in s.fetches && Slot(s.fetches[f].reg, s.fetches[f].index) == slot && !s.fetches[f].finished
  }

  predicate Inv(w: World, s: State) {
    RegistrationsOk(s) && CachesOk(w, s) && FetchesOk(w, s)
  }

  lemma RegisterKeeps(w: World, s: State, cfg: StreamConfig)
    requires Inv(w, s)
    ensures Inv(w, Registered(s, cfg))
  {
    var t := Registered(s, cfg);
    forall f | f in t.fetches ensures FetchOk(w, t, f, t.fetches[f]) { assert FetchOk(w, s, f, s.fetches[f]); }
  }

  lemma BeginKeeps(w: World, s: State, file: FileId, index: nat)
    requires Inv(w, s)
    ensures Inv(w, BegunGet(s, file, index))
  {
    var t := BegunGet(s, file, index);
    forall f | f in t.fetches ensures FetchOk(w, t, f, t.fetches[f]) {
      if f in s.fetches { assert FetchOk(w, s, f, s.fetches[f]); }
    }
  }

  lemma SettleKeeps(w: World, s: State, f: FetchId, fetched: bool)
    requires Inv(w, s)
    ensures Inv(w, Settled(w, s, f, fetched))
  {
    var t := Settled(w, s, f, fetched);
    forall g | g in t.fetches ensures FetchOk(w, t, g, t.fetches[g]) { assert FetchOk(w, s, g, s.fetches[g]); }
  }

  lemma FinishKeeps(w: World, s: State, f: FetchId)
    requires Inv(w, s)
    ensures Inv(w, Finished(s, f))
  {
    var t := Finished(s, f);
    if t != s {
      assert FetchOk(w, s, f, s.fetches[f]);
      forall g | g in t.fetches ensures FetchOk(w, t, g, t.fetches[g]) { assert FetchOk(w, s, g, s.fetches[g]); }
    }
  }

  lemma {:induction false} PrefetchKeeps(w: World, s: State, file: FileId, ci: nat, limit: nat)
    requires Inv(w, s)
    ensures Inv(w, PrefetchedFrom(s, file, ci, limit))
    decreases limit - ci
  {
    if ci < limit {
      BeginKeeps(w, s, file, ci);
      PrefetchKeeps(w, BegunGet(s, file, ci), file, ci + 1, limit);
    }
  }

  lemma EvictKeeps(w: World, s: State, file: FileId, current: nat)
    requires Inv(w, s)
    ensures Inv(w, Evicted(s, file, current))
  {
    var t := Evicted(s, file, current);
    forall f | f in t.fetches ensures FetchOk(w, t, f, t.fetches[f]) { assert FetchOk(w, s, f, s.fetches[f]); }
  }

  lemma UnregisterKeeps(w: World, s: State, file: FileId)
    requires Inv(w, s)
    ensures Inv(w, Unregistered(s, file))
  {
    var t := Unregistered(s, file);
    forall f | f in t.fetches ensures FetchOk(w, t, f, t.fetches[f]) { assert FetchOk(w, s, f, s.fetches[f]); }
  }

  lemma StepKeeps(w: World, s: State, step: Step)
    requires Inv(w, s)
    ensures Inv(w, Apply(w, s, step))
  {
    hide Inv;
    match step
    case Register(cfg) => RegisterKeeps(w, s, cfg);
    case Unregister(file) => UnregisterKeeps(w, s, file);
    case BeginGet(file, index) => BeginKeeps(w, s, file, index);
    case Settle(f, fetched) => SettleKeeps(w, s, f, fetched);
    case Finish(f) => FinishKeeps(w, s, f);
    case Prefetch(file, current) =>
      if file in s.streams { PrefetchKeeps(w, s, file, current + 1, PrefetchLimit(s, file, current)); }
    case Evict(file, current) => EvictKeeps(w, s, file, current);
  }

  lemma {:induction false} RunKeeps(w: World, s: State, steps: seq<Step>)
    requires Inv(w, s)
    ensures Inv(w, Run(w, s, steps))
    decreases |steps|
  {
    if steps != [] {
      StepKeeps(w, s, steps[0]);
      RunKeeps(w, Apply(w, s, steps[0]), steps[1..]);
    }
  }

  // ---------------------------------------------------------------- theorems

  /** s is a state of some interleaving. */
  ghost predicate Reached(w: World, s: State) {
    exists steps :: Run(w, Initial, steps) == s
  }

  lemma ReachedKeeps(w: World, s: State)
    requires Reached(w, s)
    ensures Inv(w, s)
  {
    var steps :| Run(w, Initial, steps) == s;
    assert Inv(w, Initial);
    RunKeeps(w, Initial, steps);
  }

  /** Transparency: a hit returns the chunk's plaintext under the configuration registered now. */
  lemma HitIsPlaintext(w: World, s: State, file: FileId, index: nat)
    requires Reached(w, s) && Answer(s, file, index).Hit?
    ensures file in s.streams && IsPlaintext(w, s.streams[file], index, Answer(s, file, index).bytes)
  {
    ReachedKeeps(w, s);
  }

  /** A join or a start awaits a fetch of that very chunk under the configuration registered now. */
  lemma AwaitedFetchIsOwn(w: World, s: State, file: FileId, index: nat)
    requires Reached(w, s) && (Answer(s, file, index).Joined? || Answer(s, file, index).Started?)
    ensures var t, f := BegunGet(s, file, index), Answer(s, file, index).fetch;
      && file in s.streams && file in s.maps && f in t.fetches && !t.fetches[f].finished
      && t.fetches[f].reg == s.maps[file] && t.fetches[f].index == index
      && t.fetches[f].key == s.streams[file].fek && t.fetches[f].file == file
  {
    ReachedKeeps(w, s);
    if Answer(s, file, index).Joined? {
      assert FetchOk(w, s, Answer(s, file, index).fetch, s.fetches[Answer(s, file, index).fetch]);
    }
  }

  /** Whatever a fetch ends with is its chunk's plaintext under the registration that started it. */
  lemma FetchedIsPlaintext(w: World, s: State, f: FetchId)
    requires Reached(w, s) && f in s.fetches && s.fetches[f].outcome.Done?
    ensures var fetch := s.fetches[f];
      fetch.reg in s.history && IsPlaintext(w, s.history[fetch.reg], fetch.index, fetch.outcome.bytes)
  {
    ReachedKeeps(w, s);
    assert FetchOk(w, s, f, s.fetches[f]);
  }

  /** Deduplication: one unfinished fetch for a chunk within a registration. */
  lemma OneFetchPerChunk(w: World, s: State, f: FetchId, g: FetchId)
    requires Reached(w, s) && f in s.fetches && g in s.fetches && !s.fetches[f].finished && !s.fetches[g].finished
    requires s.fetches[f].reg == s.fetches[g].reg && s.fetches[f].index == s.fetches[g].index
    ensures f == g
  {
    ReachedKeeps(w, s);
    assert FetchOk(w, s, f, s.fetches[f]) && FetchOk(w, s, g, s.fetches[g]);
  }

  /** A fetch whose file was registered again meanwhile finishes without touching the new registration's maps. */
  lemma LateFinishStaysOut(w: World, s: State, f: FetchId, file: FileId, slot: Slot)
    requires Reached(w, s) && f in s.fetches && s.fetches[f].file == file && file in s.maps
      && s.fetches[f].reg != s.maps[file]
    requires slot.reg == s.maps[file]
    ensures var t := Finished(s, f);
      && t.maps == s.maps
      && (slot in t.caches <==> slot in s.caches) && (slot in t.caches ==> t.caches[slot] == s.caches[slot])
      && (slot in t.inflight <==> slot in s.inflight) && (slot in t.inflight ==> t.inflight[slot] == s.inflight[slot])
  {
  }

  // ------------------------------------------------------- what a get ends with

  /** What the first answer to fetch f in these steps is, if there is one. */
  function FirstSettle(steps: seq<Step>, f: FetchId): Option<bool> {
    if steps == [] then None
    else if steps[0].Settle? && steps[0].fetch == f then Some(steps[0].fetched)
    else FirstSettle(steps[1..], f)
  }

  /** The bytes of a chunk under a configuration, if its key opens what is stored. */
  function Plaintext(w: World, cfg: StreamConfig, index: nat): Option<Bytes> {
    w.decrypt(cfg.fek, w.stored(cfg.fileId, index))
  }

  function OutcomeOf(fetched: bool, plain: Option<Bytes>): Outcome {
    if !fetched || plain.None? then Failed else Done(plain.value)
  }

  predicate SameFetch(a: Fetch, b: Fetch) { a.reg == b.reg && a.index == b.index && a.file == b.file && a.key == b.key }

  /** No step but its own answer settles a fetch, and nothing changes it afterwards. */
  lemma StepOutcome(w: World, s: State, step: Step, f: FetchId)
    requires Inv(w, s) && f in s.fetches
    ensures var t := Apply(w, s, step);
      && f in t.fetches && SameFetch(t.fetches[f], s.fetches[f])
      && t.fetches[f].outcome ==
           if s.fetches[f].outcome.Running? && step.Settle? && step.fetch == f
           then OutcomeOf(step.fetched, Plaintext(w, s.history[s.fetches[f].reg], s.fetches[f].index))
           else s.fetches[f].outcome
    ensures s.fetches[f].reg in s.history && s.fetches[f].reg in Apply(w, s, step).history
    ensures Apply(w, s, step).history[s.fetches[f].reg] == s.history[s.fetches[f].reg]
  {
    assert FetchOk(w, s, f, s.fetches[f]) && s.fetches[f].reg < s.nextReg;
    hide Inv;
    if step.Prefetch? {
      PrefetchSpares(w, s, step.file, step.current, f);
      hide Prefetched;
    } else {
      hide Prefetched, PrefetchedFrom;
    }
  }

  lemma PrefetchSpares(w: World, s: State, file: FileId, current: nat, f: FetchId)
    requires Inv(w, s) && f in s.fetches
    ensures var t := Prefetched(s, file, current);
      f in t.fetches && t.fetches[f] == s.fetches[f] && t.history == s.history
  {
    if file in s.streams {
      StartsExactly(w, s, file, current + 1, PrefetchLimit(s, file, current));
      PrefetchKeepsHistory(s, file, current + 1, PrefetchLimit(s, file, current));
      hide Inv, PrefetchedFrom;
    }
  }

  lemma {:induction false} PrefetchKeepsHistory(s: State, file: FileId, ci: nat, limit: nat)
    ensures PrefetchedFrom(s, file, ci, limit).history == s.history
    decreases limit - ci
  {
    if ci < limit {
      PrefetchKeepsHistory(BegunGet(s, file, ci), file, ci + 1, limit);
    }
  }

  lemma {:induction false} FetchOutcome(w: World, s: State, steps: seq<Step>, f: FetchId)
    requires Inv(w, s) && f in s.fetches && s.fetches[f].reg in s.history
    ensures var t, fetch, first := Run(w, s, steps), s.fetches[f], FirstSettle(steps, f);
      && f in t.fetches && SameFetch(t.fetches[f], fetch)
      && t.fetches[f].outcome ==
           if !fetch.outcome.Running? || first.None? then fetch.outcome
           else OutcomeOf(first.value, Plaintext(w, s.history[fetch.reg], fetch.index))
    decreases |steps|
  {
    if steps != [] {
      StepOutcome(w, s, steps[0], f);
      StepKeeps(w, s, steps[0]);
      hide Inv, Apply, Plaintext;
      FetchOutcome(w, Apply(w, s, steps[0]), steps[1..], f);
    }
  }

  /**
   A get that starts a fetch ends, whatever else happens meanwhile, with the chunk's plaintext under
   the configuration of its start exactly if the source answered and the key opened the answer,
   and with a failure otherwise.
   */
  lemma GetEndsWith(w: World, s: State, file: FileId, index: nat, steps: seq<Step>)
    requires Reached(w, s) && Answer(s, file, index).Started?
    ensures var f, t := Answer(s, file, index).fetch, Run(w, Apply(w, s, BeginGet(file, index)), steps);
      && file in s.streams && file in s.maps
      && f in t.fetches && t.fetches[f].reg == s.maps[file] && t.fetches[f].index == index
      && t.fetches[f].outcome ==
           if FirstSettle(steps, f).None? then Running
           else OutcomeOf(FirstSettle(steps, f).value, Plaintext(w, s.streams[file], index))
  {
    ReachedKeeps(w, s);
    BeginKeeps(w, s, file, index);
    var t := BegunGet(s, file, index);
    assert t.history == s.history && s.history[s.maps[file]] == s.streams[file];
    hide Inv, Plaintext;
    FetchOutcome(w, t, steps, Answer(s, file, index).fetch);
  }

  /** After the await the plaintext is a hit for the registration's file; after a failure nobody joins the fetch. */
  lemma FinishDelivers(w: World, s: State, f: FetchId, file: FileId)
    requires Reached(w, s) && f in s.fetches && !s.fetches[f].finished && !s.fetches[f].outcome.Running?
    requires file in s.maps && s.maps[file] == s.fetches[f].reg
    ensures var t, index := Apply(w, s, Finish(f)), s.fetches[f].index;
      if s.fetches[f].outcome.Done? then Answer(t, file, index) == Hit(s.fetches[f].outcome.bytes)
      else Answer(t, file, index).Started? || (Answer(t, file, index).Hit? && Answer(s, file, index).Hit?)
  {
    ReachedKeeps(w, s);
  }

  /** The steps that take a cached chunk away: registering its file anew, dropping it, or leaving it far behind. */
  predicate Forgets(s: State, step: Step, file: FileId, index: nat) {
    match step
    case Register(cfg) => cfg.fileId == file
    case Unregister(f) => f == file
    case Evict(f, current) => f == file && file in s.streams && index + s.streams[file].chunksBehind < current
    case _ => false
  }

  lemma SlotStays(w: World, s: State, step: Step, slot: Slot, p: Bytes)
    requires Inv(w, s) && slot in s.caches && s.caches[slot] == p && step.Finish?
    ensures slot in Apply(w, s, step).caches && Apply(w, s, step).caches[slot] == p
  {
    if step.fetch in s.fetches {
      assert FetchOk(w, s, step.fetch, s.fetches[step.fetch]);
    }
  }

  /** A hit stays the same hit exactly until one of these steps. */
  lemma HitStaysIff(w: World, s: State, step: Step, file: FileId, index: nat)
    requires Inv(w, s) && Answer(s, file, index).Hit?
    ensures Answer(Apply(w, s, step), file, index) == Answer(s, file, index) <==> !Forgets(s, step, file, index)
  {
    var slot := Slot(s.maps[file], index);
    if step.Finish? {
      SlotStays(w, s, step, slot, s.caches[slot]);
    } else if step.Prefetch? && step.file in s.streams {
      StartsExactly(w, s, step.file, step.current + 1, PrefetchLimit(s, step.file, step.current));
      hide PrefetchedFrom;
    }
  }

  ghost predicate NeverForgets(w: World, s: State, steps: seq<Step>, file: FileId, index: nat)
    decreases |steps|
  {
    steps == []
    || (!Forgets(s, steps[0], file, index) && NeverForgets(w, Apply(w, s, steps[0]), steps[1..], file, index))
  }

  /** Over whole runs: until eviction or a new registration every get of the chunk is that hit. */
  lemma {:induction false} HitLasts(w: World, s: State, steps: seq<Step>, file: FileId, index: nat)
    requires Inv(w, s) && Answer(s, file, index).Hit? && NeverForgets(w, s, steps, file, index)
    ensures Answer(Run(w, s, steps), file, index) == Answer(s, file, index)
    decreases |steps|
  {
    if steps != [] {
      HitStaysIff(w, s, steps[0], file, index);
      StepKeeps(w, s, steps[0]);
      hide Inv, Apply, Answer;
      HitLasts(w, Apply(w, s, steps[0]), steps[1..], file, index);
    }
  }

  /** A file that was registered starts afresh, one that was dropped is refused, and other files do not notice. */
  lemma RegistrationAnswers(w: World, s: State, cfg: StreamConfig, file: FileId, index: nat)
    requires Reached(w, s)
    ensures Answer(Apply(w, s, Register(cfg)), file, index)
      == if file == cfg.fileId then Started(s.nextFetch) else Answer(s, file, index)
    ensures Answer(Apply(w, s, Unregister(cfg.fileId)), file, index)
      == if file == cfg.fileId then NotRegistered else Answer(s, file, index)
  {
    ReachedKeeps(w, s);
    forall slot | slot in s.inflight ensures slot.reg in s.history {
      assert FetchOk(w, s, s.inflight[slot], s.fetches[s.inflight[slot]]);
    }
    assert s.streams.Keys == s.maps.Keys;
    assert forall slot :: slot in s.caches || slot in s.inflight ==> slot.reg < s.nextReg;
    hide Inv, Reached;
  }

  // -------------------------------------------------------- prefetch and eviction

  /** A get puts its chunk in flight unless it is cached. */
  lemma BeginStarts(w: World, s: State, file: FileId, ci: nat)
    requires Inv(w, s) && file in s.streams
    ensures var t := BegunGet(s, file, ci);
      && t.maps == s.maps && t.streams == s.streams && t.caches == s.caches
      && (forall f <- s.fetches :: f in t.fetches && t.fetches[f] == s.fetches[f])
      && forall slot :: slot in t.inflight <==>
           slot in s.inflight || (slot == Slot(s.maps[file], ci) && slot !in s.caches)
  {
  }

  /** A chunk of the registration between two indices. */
  predicate Ahead(slot: Slot, reg: Registration, ci: nat, limit: nat) { slot.reg == reg && ci <= slot.index < limit }

  lemma AheadStep(reg: Registration, ci: nat, limit: nat)
    requires ci < limit
    ensures forall slot :: Ahead(slot, reg, ci, limit) <==> slot == Slot(reg, ci) || Ahead(slot, reg, ci + 1, limit)
  {
  }

  lemma PrefetchStep(s: State, file: FileId, ci: nat, limit: nat)
    requires file in s.streams && ci < limit
    ensures PrefetchedFrom(s, file, ci, limit) == PrefetchedFrom(BegunGet(s, file, ci), file, ci + 1, limit)
  {
  }

  /** Fetches are started for exactly the chunks from ci to limit that are neither cached nor in flight. */
  lemma {:induction false} StartsExactly(w: World, s: State, file: FileId, ci: nat, limit: nat)
    requires Inv(w, s) && file in s.streams
    ensures var t := PrefetchedFrom(s, file, ci, limit);
      && t.maps == s.maps && t.streams == s.streams && t.caches == s.caches
      && (forall f <- s.fetches :: f in t.fetches && t.fetches[f] == s.fetches[f])
      && forall slot :: slot in t.inflight <==>
           slot in s.inflight || (Ahead(slot, s.maps[file], ci, limit) && slot !in s.caches)
    decreases limit - ci
  {
    if ci < limit {
      AheadStep(s.maps[file], ci, limit);
      hide Ahead;
      BeginKeeps(w, s, file, ci);
      BeginStarts(w, s, file, ci);
      PrefetchStep(s, file, ci, limit);
      hide Inv, BegunGet, PrefetchedFrom;
      StartsExactly(w, BegunGet(s, file, ci), file, ci + 1, limit);
    }
  }

  /**
   A prefetch starts fetches for exactly the chunksAhead chunks behind the current one that exist and are
   neither cached nor in flight; nothing running is disturbed.
   */
  lemma PrefetchIsExact(w: World, s: State, file: FileId, current: nat, slot: Slot)
    requires Reached(w, s) && file in s.streams
    ensures var cfg, t := s.streams[file], Apply(w, s, Prefetch(file, current));
      && file in s.maps
      && (slot in t.inflight <==>
            slot in s.inflight || (slot.reg == s.maps[file] && slot !in s.caches
              && current < slot.index <= current + cfg.chunksAhead && slot.index < cfg.chunkCount))
      && t.caches == s.caches && forall f <- s.fetches :: f in t.fetches && t.fetches[f] == s.fetches[f]
  {
    ReachedKeeps(w, s);
    StartsExactly(w, s, file, current + 1, PrefetchLimit(s, file, current));
  }

  /** Eviction drops exactly the chunks more than chunksBehind before the position, in this file's maps only. */
  lemma EvictionIsExact(w: World, s: State, file: FileId, current: nat, slot: Slot)
    requires Reached(w, s) && file in s.streams
    ensures var t := Apply(w, s, Evict(file, current));
      && file in s.maps
      && (slot in t.caches
          <==> slot in s.caches && !(slot.reg == s.maps[file] && slot.index + s.streams[file].chunksBehind < current))
      && (slot in t.caches ==> t.caches[slot] == s.caches[slot])
  {
    ReachedKeeps(w, s);
  }
}
