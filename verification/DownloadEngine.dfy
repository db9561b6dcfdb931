/**
 The download engine's chunk cache across awaits. The inner Map objects that
 register() creates for a file are identified by a registration number: a fetch
 that was started keeps writing to the maps it captured, also after the file was
 registered again.
 */
module DownloadEngine {
  import opened Basics

  type FileId = nat
  type Registration = nat
  type FetchId = nat
  type Key = nat

  /** An entry of the inner maps of one registration. */
  datatype Slot = Slot(reg: Registration, index: nat)

  datatype StreamConfig = StreamConfig(fileId: FileId, fek: Key, chunkCount: nat, chunksAhead: nat, chunksBehind: nat)

  /** Where encrypted chunks come from, and how a key opens them. */
  datatype World = World(stored: (FileId, nat) -> Bytes, decrypt: (Key, Bytes) -> Option<Bytes>)

  datatype Outcome = Running | Done(bytes: Bytes) | Failed

  /** One fetchAndDecrypt promise with the maps and the key its caller captured. */
  datatype Fetch = Fetch(reg: Registration, index: nat, file: FileId, key: Key, outcome: Outcome, finished: bool)

  datatype State = State(
    streams: map<FileId, StreamConfig>,
    maps: map<FileId, Registration>,             // chunkCache and fetching: the file's current maps
    caches: map<Slot, Bytes>,                    // all inner cache maps, flattened
    inflight: map<Slot, FetchId>,                // all inner in-flight maps, flattened
    fetches: map<FetchId, Fetch>,
    nextReg: Registration,
    nextFetch: FetchId,
    history: map<Registration, StreamConfig>)    // which configuration each registration had

  datatype GetResult = Hit(bytes: Bytes) | Joined(fetch: FetchId) | Started(fetch: FetchId) | NotRegistered

  // ------------------------------------------------------------- transitions

  function Registered(s: State, cfg: StreamConfig): State {
    s.(streams := s.streams[cfg.fileId := cfg], maps := s.maps[cfg.fileId := s.nextReg],
       history := s.history[s.nextReg := cfg], nextReg := s.nextReg + 1)
  }

  function Unregistered(s: State, file: FileId): State {
    s.(streams := s.streams - {file}, maps := s.maps - {file})
  }

  /** The synchronous part of getDecryptedChunk: cache, then join, then a new fetch. */
  function Answer(s: State, file: FileId, index: nat): GetResult {
    if file in s.maps && Slot(s.maps[file], index) in s.caches then Hit(s.caches[Slot(s.maps[file], index)])
    else if file in s.maps && Slot(s.maps[file], index) in s.inflight then Joined(s.inflight[Slot(s.maps[file], index)])
    else if file !in s.streams then NotRegistered
    else Started(s.nextFetch)
  }

  function BegunGet(s: State, file: FileId, index: nat): State {
    if !Answer(s, file, index).Started? || file !in s.maps then s
    else
      var reg := s.maps[file];
      s.(inflight := s.inflight[Slot(reg, index) := s.nextFetch],
         fetches := s.fetches[s.nextFetch := Fetch(reg, index, file, s.streams[file].fek, Running, false)],
         nextFetch := s.nextFetch + 1)
  }

  /** The fetch answers, and what it fetched decrypts or not. */
  function Settled(w: World, s: State, f: FetchId, fetched: bool): State {
    if f !in s.fetches || !s.fetches[f].outcome.Running? then s
    else
      var fetch := s.fetches[f];
      var plain := w.decrypt(fetch.key, w.stored(fetch.file, fetch.index));
      s.(fetches := s.fetches[f := fetch.(outcome := if fetched && plain.Some? then Done(plain.value) else Failed)])
  }

  /** The rest of getDecryptedChunk after its promise settled: cache the bytes, leave the in-flight map. */
  function Finished(s: State, f: FetchId): State {
    if f !in s.fetches || s.fetches[f].finished || s.fetches[f].outcome.Running? then s
    else
      var fetch := s.fetches[f];
      var slot := Slot(fetch.reg, fetch.index);
      s.(caches := if fetch.outcome.Done? then s.caches[slot := fetch.outcome.bytes] else s.caches,
         inflight := s.inflight - {slot},
         fetches := s.fetches[f := fetch.(finished := true)])
  }

  function PrefetchedFrom(s: State, file: FileId, ci: nat, limit: nat): State
    decreases limit - ci
  {
    if ci >= limit then s else PrefetchedFrom(BegunGet(s, file, ci), file, ci + 1, limit)
  }

  function PrefetchLimit(s: State, file: FileId, current: nat): nat
    requires file in s.streams
  {
    Min(current + s.streams[file].chunksAhead + 1, s.streams[file].chunkCount)
  }

  function Prefetched(s: State, file: FileId, current: nat): State {
    if file !in s.streams then s else PrefetchedFrom(s, file, current + 1, PrefetchLimit(s, file, current))
  }

  /** The entries of one registration from an index on, and those of all others. */
  function KeepFrom(caches: map<Slot, Bytes>, reg: Registration, evictBefore: int): map<Slot, Bytes> {
    map slot | slot in caches && (slot.reg != reg || slot.index >= evictBefore) :: caches[slot]
  }

  function Evicted(s: State, file: FileId, current: nat): State {
    if file !in s.streams || file !in s.maps then s
    else
      s.(caches := KeepFrom(s.caches, s.maps[file], current - s.streams[file].chunksBehind))
  }

  const Initial := State(map[], map[], map[], map[], map[], 0, 0, map[])

  // ------------------------------------------------------------------- engine

  class Engine {
    var streams: map<FileId, StreamConfig>
    var maps: map<FileId, Registration>
    var caches: map<Slot, Bytes>
    var inflight: map<Slot, FetchId>
    var fetches: map<FetchId, Fetch>
    var nextReg: Registration
    var nextFetch: FetchId
    ghost var history: map<Registration, StreamConfig>

    ghost function View(): State
      reads this
    {
      State(streams, maps, caches, inflight, fetches, nextReg, nextFetch, history)
    }

    /** register() and unregister() keep configurations and maps in step. */
    ghost predicate Valid()
      reads this
    {
      streams.Keys == maps.Keys
    }

    constructor ()
      ensures View() == Initial && Valid()
    {
      streams, maps, caches, inflight, fetches := map[], map[], map[], map[], map[];
      nextReg, nextFetch, history := 0, 0, map[];
    }

    method Register(cfg: StreamConfig)
      requires Valid()
      modifies this
      ensures Valid() && View() == Registered(old(View()), cfg)
    {
      streams := streams[cfg.fileId := cfg];
      maps := maps[cfg.fileId := nextReg];
      history := history[nextReg := cfg];
      nextReg := nextReg + 1;
    }

    method Unregister(file: FileId)
      requires Valid()
      modifies this
      ensures Valid() && View() == Unregistered(old(View()), file)
    {
      streams := streams - {file};
      maps := maps - {file};
    }

    /** Up to the await: a hit returns at once, a join awaits the running fetch, otherwise a fetch is started. */
    method BeginGet(file: FileId, index: nat) returns (r: GetResult)
      requires Valid()
      modifies this
      ensures Valid() && r == Answer(old(View()), file, index)
      ensures View() == BegunGet(old(View()), file, index)
    {
      if file in maps && Slot(maps[file], index) in caches {
        return Hit(caches[Slot(maps[file], index)]);
      }
      if file in maps && Slot(maps[file], index) in inflight {
        return Joined(inflight[Slot(maps[file], index)]);
      }
      if file !in streams {
        return NotRegistered;
      }
      r := Started(nextFetch);
      var reg := maps[file];
      fetches := fetches[nextFetch := Fetch(reg, index, file, streams[file].fek, Running, false)];
      inflight := inflight[Slot(reg, index) := nextFetch];
      nextFetch := nextFetch + 1;
    }

    /** The provider answered a running fetch. */
    method Settle(w: World, f: FetchId, fetched: bool)
      requires Valid() && f in fetches && fetches[f].outcome.Running?
      modifies this
      ensures Valid() && View() == Settled(w, old(View()), f, fetched)
    {
      var fetch := fetches[f];
      var outcome := Failed;
      if fetched {
        var plain := w.decrypt(fetch.key, w.stored(fetch.file, fetch.index));
        if plain.Some? {
          outcome := Done(plain.value);
        }
      }
      fetches := fetches[f := fetch.(outcome := outcome)];
    }

    /** After the await: cache what came back, and leave the in-flight map in every case. */
    method FinishGet(f: FetchId) returns (r: Outcome)
      requires Valid() && f in fetches && !fetches[f].finished && !fetches[f].outcome.Running?
      modifies this
      ensures Valid() && r == old(fetches[f].outcome) && View() == Finished(old(View()), f)
    {
      var fetch := fetches[f];
      if fetch.outcome.Done? {
        caches := caches[Slot(fetch.reg, fetch.index) := fetch.outcome.bytes];
      }
      inflight := inflight - {Slot(fetch.reg, fetch.index)};
      fetches := fetches[f := fetch.(finished := true)];
      r := fetch.outcome;
    }

    /** Starts background fetches for the chunks ahead that are neither cached nor in flight. */
    method SchedulePrefetch(file: FileId, currentChunk: nat)
      requires Valid()
      modifies this
      ensures Valid() && View() == Prefetched(old(View()), file, currentChunk)
    {
      if file !in streams {
        return;
      }
      var limit := Min(currentChunk + streams[file].chunksAhead + 1, streams[file].chunkCount);
      var ci := currentChunk + 1;
      while ci < limit
        invariant Valid()
        invariant PrefetchedFrom(View(), file, ci, limit) == Prefetched(old(View()), file, currentChunk)
      {
        if file in maps && Slot(maps[file], ci) !in caches && Slot(maps[file], ci) !in inflight {
          var _ := BeginGet(file, ci);
        }
        ci := ci + 1;
      }
    }

    /** Drops cached chunks that lie too far behind. */
    method ScheduleEviction(file: FileId, currentChunk: nat)
      requires Valid()
      modifies this
      ensures Valid() && View() == Evicted(old(View()), file, currentChunk)
    {
      if file !in streams || file !in maps {
        return;
      }
      caches := DropBefore(caches, maps[file], currentChunk - streams[file].chunksBehind);
    }
  }

  /** Deletes, key by key, the entries of one inner cache map that lie before an index. */
  method DropBefore(caches: map<Slot, Bytes>, reg: Registration, evictBefore: int) returns (rest: map<Slot, Bytes>)
    ensures rest == KeepFrom(caches, reg, evictBefore)
  {
    rest := caches;
    var keys := set slot | slot in caches && slot.reg == reg;
    while keys != {}
      invariant forall slot <- keys :: slot in caches && slot.reg == reg
      invariant forall slot ::
        slot in rest <==> slot in caches && (slot.reg != reg || slot in keys || slot.index >= evictBefore)
      invariant forall slot <- rest :: rest[slot] == caches[slot]
      decreases |keys|
    {
      var key :| key in keys;
      if key.index < evictBefore {
        rest := rest - {key};
      }
      keys := keys - {key};
    }
  }
}
