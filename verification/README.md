# DiscorDrive protocols in Dafny

DiscorDrive stores files as encrypted chunks on message services (Discord, Telegram) and keeps a
database of where each copy is. This project models the parts of it whose correctness depends on
interleavings, arithmetic over byte ranges, or state carried between calls, and proves what they keep.

- **Placement and replication** (`Placement*.dfy`, `ReadOrder.dfy`, `BlobReads.dfy`, `ReplicationQueue.dfy`,
  `SweepOutcomes.dfy`). A step
  system with one step per database statement or transaction and one per provider call. Workers act on
  the row snapshot they were given; provider and database calls may succeed, fail, or take effect and
  still report failure. The invariant ranges over all workers and uploads in flight.
- **Chunk, encrypt, store, read** (`Chunker.dfy`, `ServerCrypto.dfy`, `Slices.dfy`, `SharePull.dfy`,
  `RangeReaders.dfy`, `ChunkRows.dfy`, `HttpRange.dfy`, `PlacedFiles.dfy`). The streaming chunker, the
  IV/tag framing over an abstract AEAD cipher, and three range readers, each proved to return
  `file[start..end + 1]`, hence equal to each other.
- **Download engine** (`DownloadEngine.dfy`, `DownloadCache.dfy`). The decrypted-chunk cache with in-flight deduplication,
  prefetch, eviction and re-registration across awaits.
- **Uploads** (`ResumableUpload.dfy`, `IteratorMutex.dfy`, `UploadEngine.dfy`). The resumable upload with
  its worker pool and whole-pass resume, the lock around the chunk iterator, and the universal engine's
  pool and streaming queue.
- **Senders and limiters** (`DiscordSenders.dfy`, `SenderAccounting.dfy`, `DiscordSelection.dfy`, `DiscordTurns.dfy`,
  `WebhookGroups.dfy`, `WebhookRateLimiter.dfy`, `TelegramLimiter.dfy`, `TelegramPacing.dfy`, `IpRateLimit.dfy`).
- **Folders** (`FolderForest.dfy`, `FolderStore.dfy`). Moving, recursive deletion and paths.

Objects that the source updates in place are classes whose methods are tied to functions on values; the
step systems and the theorems over all runs are stated with those functions. `Basics.dfy` holds shared
vocabulary.

## What the proofs found

These are places where the code does not do what its comments or callers expect. Each has a lemma with a
concrete run or input, and a lemma stating exactly when the code does meet the expectation.

- A health report can move a MISSING primary row back to ACTIVE after a worker has deleted the copy it
  names (`HealthCanReviveDeletedPrimary`). The report is harmless exactly if it says MISSING or the copies
  of the blob's parked primary rows still exist (`HealthIsSafeIff`), and over whole runs without loss or
  purge a serving row's copy is gone exactly if some worker deleted it as its snapshot's old copy
  (`ActiveRowExists`); replica rows are never affected (`ActiveReplicaExists`).
- A re-upload that commits while a worker holds the first upload's bytes leaves an ACTIVE replica of the
  first upload (`ReuploadCanLeaveStaleReplica`, `ActivationIsCurrentIff`).
- A re-upload when no replicas are configured any more leaves the earlier ACTIVE replicas serving the first
  upload (`UnconfiguredReplicaStaysStale`, `CommitServesNewIff`). These two are the only causes: over whole runs
  the serving rows hold the latest upload exactly if neither happens (`AlwaysLatestIff`, `LatestSinceCommitIff`).
- A resumed upload that skipped its last chunk because only the acknowledgement was lost completes and
  cannot commit, and neither can an empty file (`LostAckCannotCommit`, `CommitAcceptedIff`).
- `uploadStream` resolves although a chunk failed when the failure falls between two waits
  (`FailureCanGoUnheard`, `ResolvedMeansStoredIff`). The promise that failed then has no handler: browsers and
  service workers only log that, while Node by default ends the process, so there the caller sees no result.
- The comment that a dead relay degrades to a direct upload does not hold on the last attempt
  (`DeadRelayCanFailTheUpload`, `RelayFallsBackIff`).
- A successful Telegram send overwrites a longer 429 penalty (`PenaltyCanBeShortened`, `PenaltyKeptIff`).
- Both range handlers look at the first element of a range set only, compare the unit with regard to case, and
  serve units that end in "bytes"; the stream handler also rejects suffix ranges, and the share handler answers
  `bytes=-` with the whole file (`ShareFollowsRfcIff`, `StreamFollowsRfcIff`, `ShareOnInvalid`; on real headers
  `SecondRangeIsMissed`, `CapitalUnitIsRefused`, `UnknownUnitIsServed`, `SuffixIsRefused`,
  `EmptyElementHidesRange`, `NoNumbersIsTheWholeFile`).
- The stream handler serves whatever chunk rows exist: too short a file when a row is missing, too long a one
  when there is a surplus or repeated index (`MissingRowIsSkipped`, `SurplusRowIsServed`,
  `RepeatedIndexIsServedTwice`; exactly when it serves the file: `StreamServesFileIff`).
- The share page's stream hangs on empty chunks inside the window, which the upload route accepts
  (`TwoEmptyChunksStall`; exactly when: `ReadShareRange`, `NeverStallsIff`, `MayFinishIff`).
- Webhook scores do not follow the groups' turns when a group is larger than the gap to a later one
  (`ScoreIsTurnOrderIff`, `ServerTurnIff`, `UserTurnIff`; `SingleUserListing` and `CrowdedListing` for real
  configurations), or when a user group has more than 32 server groups (`ServerTurnsIff`, `WrappedListing`,
  `GroupJumpsAheadIff`).
- The move check is exact for the state in which the update runs (`MoveKeepsForestIff`), but the check runs
  earlier, and two interleaved moves can make a cycle (`InterleavedMovesCanCycle`).

## Assumptions

- Providers are message-style: every successful put has a fresh handle. A provider may lose a copy, may
  answer a read with any bytes, and may lose the acknowledgement of a put.
- Each database statement and each transaction is one atomic step. The unique key (blob, provider, role)
  and the cascade from transport to placement are those of `packages/database/prisma/schema.prisma:162-183`.
- The stored hash identifies the bytes it was computed from, and is present.
- The AEAD law: opening succeeds exactly on what sealing produced, sealing keeps the length, tags have 16 bytes.
- Clocks never go back; seconds and fractions in retry headers are natural numbers of milliseconds.
- A `ReadableStream` pulls as the Streams Standard says: again after an enqueued piece, and after a pull that
  enqueued nothing only for a read that came in since that pull began.
- JavaScript runs between awaits without interruption, and its array sort is stable.

## Model

| member | source | states |
|---|---|---|
| ReadOrder.ReadOrderIsDocumented | apps/api/src/storage/provider.ts:331-347 | The filter by finite score and the stable sort give ACTIVE primaries, ACTIVE replicas, MODIFIED primaries, MODIFIED replicas, ties in their given order |
| ReadOrder.ReadOrderServesReadable | apps/api/src/storage/provider.ts:337-347 | A row is a read candidate exactly when it is ACTIVE or MODIFIED; PENDING, MISSING and DELETING never serve |
| ReadOrder.SortIsStable | apps/api/src/storage/provider.ts:344-346 | Sorting by score keeps the rows of each score in their order |
| BlobReads.ReadBlobBytes | apps/api/src/handlers/blob.ts:84-110 | The loop serves the first candidate in documented order that answers, reports the last error when none does, parks exactly the candidates answered with not-found before that, and uses the legacy mirror only without candidates |
| BlobReads.FailsOnlyWhenEveryCopyFails | apps/api/src/handlers/blob.ts:84-110 | A blob with a readable row is unreadable if and only if every readable row's provider fails |
| BlobReads.ActiveServesBeforeModified | apps/api/src/storage/provider.ts:331-347 | In candidate order nothing ACTIVE comes after something MODIFIED, and within a status no primary after a replica |
| PlacementFrames.WorkerStepShape | apps/api/src/storage/replication-worker.ts:99-202 | A worker step adds and removes no row or transport, moves only its own worker with its guard entry, and adds a copy only by its put |
| PlacementFrames.StepHistory | apps/api/src/storage/replication-worker.ts:99-202 | No step rewrites what an earlier put stored; only provider losses, purge listings and health reports extend the recorded exceptions |
| PlacementSafety.StepKeeps | apps/api/src/storage/replication-worker.ts:99-202 | Every step of uploads, workers, reads, health reports and purges keeps the invariant over all workers in flight |
| PlacementSafety.DropKeeps | apps/api/src/storage/replication-worker.ts:116-123 | Deleting the snapshot's old copy keeps the invariant: no row that serves reads names that copy |
| PlacementSafety.PutKeeps | apps/api/src/storage/replication-worker.ts:125-125 | A put, acknowledged or not, keeps the invariant: the new copy belongs to this worker alone |
| PlacementInvariant.ActivateKeeps | apps/api/src/storage/replication-worker.ts:127-159 | The conditional update keeps the invariant whether it matches, matches nothing, fails, or loses its acknowledgement |
| PlacementSafety.CleanKeeps | apps/api/src/storage/replication-worker.ts:144-158 | The orphan cleanup keeps the invariant: it deletes no copy a row names |
| PlacementInvariant.CommitKeeps | apps/api/src/handlers/blob.ts:381-428 | The upload transaction (transport, other providers' primaries, own primary, replica re-queue and creation) keeps the invariant |
| PlacementReplicas.CommitQueuesEveryKind | apps/api/src/handlers/blob.ts:381-428 | In every reachable state the transaction leaves one ACTIVE primary with the new copy and no other, exactly one replica row for each configured kind, new ones PENDING without copy or attempts and for configured kinds only, served and parked replicas queued anew with their coordinates, every other row untouched, and the record with the new hash and kind |
| PlacementReplicas.ManifestQueuesEveryKind | apps/api/src/resolvers/files.ts:213-227 | A manifest commit adds such a row for each configured kind that has none, exactly one for each kind, and changes nothing else |
| PlacementReplicas.EnsureQueuesEveryKind | apps/api/src/handlers/blob.ts:416-425 | createMany with skipDuplicates: after it every listed kind has its row, and each new row is fresh and of a listed kind that had none |
| PlacementSafety.HealthKeeps | apps/api/src/resolvers/files.ts:738-762 | A health report keeps the invariant, with the primaries it takes out of MISSING recorded as revived |
| PlacementSafety.PurgeListKeeps | apps/api/src/resolvers/files.ts:334-378 | Listing a purge's targets keeps the invariant, and every target is a copy stored for that blob |
| PlacementSafety.RunKeeps | apps/api/src/storage/replication-worker.ts:99-246 | The invariant holds in every state of every run |
| PlacementSafety.ReadableRowsNameCopies | apps/api/src/storage/replication-worker.ts:99-159 | In every run each readable row names a copy that exists, was lost by its provider, was listed by a purge, or (primary) was revived by a health report |
| PlacementSafety.ActiveReplicaExists | apps/api/src/storage/replication-worker.ts:99-159 | In every interleaving without provider loss and purge of the blob, every ACTIVE replica row names a copy that exists |
| PlacementSafety.UnrevivedRowExists | apps/api/src/storage/replication-worker.ts:99-159 | The same for every ACTIVE row when no health report takes a primary of the blob out of MISSING |
| PlacementDrops.HealthIsSafeIff | apps/api/src/resolvers/files.ts:738-762 | A health report keeps every readable row of the blob naming an existing copy if and only if it says MISSING or the copies of the parked primary rows still exist |
| PlacementDrops.HealthSetsVerdict | apps/api/src/resolvers/files.ts:750-758 | A report gives exactly the blob's ACTIVE, MODIFIED and MISSING primary rows its verdict |
| PlacementDrops.StepAccounts | apps/api/src/storage/replication-worker.ts:116-158 | Whatever step comes, a copy of the blob that no worker drops as its snapshot's old copy still exists, or is one that no row names and nobody is going to publish |
| PlacementDrops.ActiveRowExists | apps/api/src/storage/replication-worker.ts:99-159 | In every run without provider loss and purge of the blob, whatever health reports say, the copy behind an ACTIVE or MODIFIED row exists if and only if no worker deleted it as the old copy of its snapshot |
| PlacementSafety.RowsHoldAcceptedUploads | apps/api/src/storage/replication-worker.ts:104-142 | Every copy a row names was stored for its blob and holds the bytes of some committed upload of it |
| PlacementSafety.OneUploadMeansEqualCopies | apps/api/src/storage/replication-worker.ts:104-142 | When all committed uploads of a blob had the same bytes, all copies its rows name are byte-identical |
| PlacementReads.ReadReturnsUpload | apps/api/src/handlers/blob.ts:84-110 | After any run, a read of the blob's rows returns bytes of a committed upload, and returns some if and only if a readable row's provider answers |
| PlacementReads.EveryCopyReturnsTheUpload | apps/api/src/handlers/blob.ts:84-110 | When all committed uploads had the same bytes, the read returns these bytes whichever copy serves, as soon as one readable row's provider answers |
| PlacementReads.EveryCopyDecryptsAlike | apps/api/src/handlers/blob.ts:84-110 | When every committed ciphertext decrypts to one plaintext, whatever its IV, every read that returns anything decrypts to it, and it returns something if and only if a readable row's provider answers |
| PlacementReads.ReadFailsIffAllDropped | apps/api/src/handlers/blob.ts:84-110 | Without loss or purge and with providers that answer for what they hold, the read fails if and only if workers deleted the copy behind every readable row |
| PlacementReads.ReplicaKeepsBlobReadable | apps/api/src/handlers/blob.ts:84-110 | Under the same conditions one ACTIVE replica row makes the read succeed |
| PlacementReads.ParkingMovesGoneRows | apps/api/src/handlers/blob.ts:95-102 | The conditional updates a read issues for the copies it found gone are all enabled and move exactly those rows to MISSING |
| PlacementRuns.HealthCanReviveDeletedPrimary | apps/api/src/resolvers/files.ts:750-758 | A run without loss or purge ends with an ACTIVE primary row whose copy is gone |
| PlacementRuns.ActivationIsCurrentIff | apps/api/src/storage/replication-worker.ts:104-142 | A matching update publishes the blob's current bytes if and only if the hash in the worker's snapshot is still the stored hash |
| PlacementRuns.ReuploadCanLeaveStaleReplica | apps/api/src/handlers/blob.ts:406-426 | A run ends with an ACTIVE primary of the second upload and an ACTIVE replica of the first |
| PlacementEffects.WriteThroughReplicates | apps/api/src/storage/replication-worker.ts:99-202 | Uninterrupted, a write-through with the uploaded bytes makes its row ACTIVE with a fresh copy of them, deletes the old copy, resets the attempts, releases the guard and changes nothing else |
| PlacementEffects.SweepReplicates | apps/api/src/storage/replication-worker.ts:60-202 | The same for a sweep's worker whenever some source in read order, the legacy mirror last, answers with bytes of the stored hash and the ones before it fail; a healed Discord primary also refreshes the legacy mirror |
| PlacementEffects.CommitServesNewIff | apps/api/src/handlers/blob.ts:381-428 | After the upload transaction every row that serves reads names the new copy if and only if replicas are configured or the blob had no readable replica row |
| PlacementRuns.UnconfiguredReplicaStaysStale | apps/api/src/handlers/blob.ts:406-427 | A run without configured replicas at the second upload ends with an ACTIVE replica of the first |
| PlacementEffects.PurgeRemovesNamedCopies | apps/api/src/resolvers/files.ts:334-387 | An uninterrupted purge whose deletes succeed removes exactly the copies the blob's rows name, its rows and its transport |
| PlacementEffects.LegacyPurgeRemovesMirror | apps/api/src/resolvers/files.ts:334-387 | For a blob without rows it removes exactly the copy its legacy record names |
| PlacementSteps.CopiesConserved | apps/api/src/storage/replication-worker.ts:113-158 | Conservation over all steps: a copy exists afterwards if and only if it is the one a put just stored, refused puts storing nothing, or it existed and neither a deletion that took effect nor a loss took it; each stored copy holds the bytes given for its blob |
| PlacementSteps.ActivationIff | apps/api/src/storage/replication-worker.ts:127-159 | The conditional update makes the row ACTIVE with the new copy and no attempts if and only if the database took it and the row is still PENDING or MISSING; an acknowledged update that took nothing, and nothing else, sends the worker to delete its copy, and one that took a primary to the legacy record |
| PlacementSteps.HealedRecord | apps/api/src/storage/replication-worker.ts:162-175 | A healed primary leaves the blob's legacy record with the provider and the new copy, which is no copy unless the provider is Discord, and with its hash; no other record changes |
| PlacementSteps.FailureCounts | apps/api/src/storage/replication-worker.ts:186-202 | A recorded failure adds one attempt to the worker's row, if it is still there, and changes nothing else of any row |
| PlacementSteps.UploadPutOutcome | apps/api/src/handlers/blob.ts:344-357 | An upload request is pending with its copy if and only if its put was acknowledged; a refused put changes nothing |
| PlacementSteps.WorkerStepNearer | apps/api/src/storage/replication-worker.ts:99-202 | Every statement of a worker brings it nearer to its end in one well-founded order, each source being tried once |
| PlacementSteps.WorkerCanGoOn | apps/api/src/storage/replication-worker.ts:99-202 | In every state with consistent row ids each worker has a statement to take, so that no worker waits for another |
| PlacementFreshness.StepServes | apps/api/src/storage/replication-worker.ts:127-142 | When the serving and primary rows hold the latest upload, exactly two kinds of step put a row in service that does not: a matching update under another upload's hash, and a commit without replica kinds over a replica that serves other bytes |
| PlacementFreshness.AlwaysLatestIff | apps/api/src/handlers/blob.ts:381-428 | Over every run the rows that serve a blob hold its latest upload all along if and only if the run has no such step |
| PlacementFreshness.LatestSinceCommitIff | apps/api/src/handlers/blob.ts:381-428 | The same from any commit on, whatever happened before it, including the commit itself |
| PlacementFreshness.LatestIsRead | apps/api/src/handlers/blob.ts:84-110 | In such a state a read that returns anything returns the latest upload, whichever copy serves |
| PlacementPurge.PurgeCommitPurges | apps/api/src/resolvers/files.ts:382-386 | Without an upload of the blob in flight the purge transaction leaves no row, no transport and no pending upload of it |
| PlacementPurge.StepStaysPurged | apps/api/src/storage/replication-worker.ts:127-159 | No step other than a new upload of the blob brings a row of it back |
| PlacementPurge.PurgedStays | apps/api/src/storage/replication-worker.ts:127-159 | The same over every run |
| PlacementPurge.StepLeaksNothing | apps/api/src/storage/replication-worker.ts:125-158 | After the purge a fault-free step leaves no copy of the blob that no worker is going to delete |
| PlacementPurge.PurgedLeaksNothing | apps/api/src/storage/replication-worker.ts:125-158 | The same over every fault-free run: the leaked copies are among those leaked before the transaction |
| PlacementPurge.QuiescentAfterPurge | apps/api/src/storage/replication-worker.ts:144-158 | Once the blob's workers are done, each copy of it that still exists had been leaked before the transaction |
| PlacementPurge.GuardIsExact | apps/api/src/storage/replication-worker.ts:57-58 | In every run at most one worker is inside processPlacement for a row, and the guard set holds exactly the rows of such workers |
| ReplicationQueue.Queue.FetchDue | apps/api/src/storage/replication-worker.ts:206-215 | The fetched rows are the first fifty due rows in creation order |
| ReplicationQueue.Queue.RunSweep | apps/api/src/storage/replication-worker.ts:217-230 | The shared-cursor loop processes exactly the fetched rows, once each, and returns the number activated |
| ReplicationQueue.DueRowIsActivated | apps/api/src/storage/replication-worker.ts:204-230 | A due row with k rows before it that are due by the last of m fault-free sweeps is ACTIVE after them if 50 m > k, even when older rows become due meanwhile |
| ReplicationQueue.QueueDrains | apps/api/src/storage/replication-worker.ts:204-230 | Every row due at the first of ceil(n / 50) fault-free sweeps is ACTIVE after them, n counting the rows due by the last one |
| ReplicationQueue.WritableRowIsActivated | apps/api/src/storage/replication-worker.ts:204-230 | A due row whose own copy can be written is ACTIVE after m sweeps if 50 m exceeds the attempts left to the rows before it, however many of those fail and come back |
| ReplicationQueue.FailedRowWaits | apps/api/src/storage/replication-worker.ts:183-198 | A failed row is due again if and only if fewer than eight attempts were made and its backoff is over |
| ReplicationQueue.SweepsSkipWaitingRow | apps/api/src/storage/replication-worker.ts:206-215 | No sweep before that time touches it |
| ReplicationQueue.ProcessedRow | apps/api/src/storage/replication-worker.ts:127-198 | A written row is ACTIVE with a clean record; a failed one keeps its status and counts the attempt |
| SweepOutcomes.SweepOutcome | apps/api/src/storage/replication-worker.ts:60-202 | An uninterrupted sweep worker, whatever its sources answer: the row is replicated if and only if the first answer in read order, the legacy record last, matches the stored hash; otherwise its attempt is counted and nothing else changes |
| SweepOutcomes.QueueFollowsProtocol | apps/api/src/storage/replication-worker.ts:60-202 | The row's queue entry moves exactly as the sweep function says, success being that first answer's hash check |
| ReplicationQueue.SweepsAreBounded | apps/api/src/storage/replication-worker.ts:17-28 | Whatever fails, all further sweeps together process at most the sum of 8 - attemptCount over the queued rows |
| ReplicationQueue.CapReachedIff | apps/api/src/storage/replication-worker.ts:26-28 | The six-hour cap applies if and only if there were at least ten attempts |
| ReplicationQueue.SweptRowNeverCapped | apps/api/src/storage/replication-worker.ts:206-212 | A row a sweep picks up never waits the capped time after failing |
| Chunker.ChunkFileStream | packages/processing/src/chunker.ts:5-56 | For any read boundaries the yielded buffers are the simple cut of the whole input, as many as calculateChunkCount says, distinct, and unchanged after their yield |
| Chunker.ChunkCountMatches | packages/processing/src/chunker.ts:58-64 | The simple cut has exactly ceil(n / chunkSize) chunks |
| Chunker.ChunkAt | packages/processing/src/chunker.ts:5-56 | Chunk k is input[k * size .. min((k + 1) * size, n)] |
| Chunker.FlattenChunks | packages/processing/src/chunker.ts:5-56 | The chunks join to the input |
| Chunker.RegularIsChunks | packages/processing/src/chunker.ts:5-56 | Full pieces with at most one shorter non-empty piece at the end are that cut: there is no other one |
| Chunker.SegmentationIrrelevant | packages/processing/src/chunker.ts:21-46 | Equal bytes give equal chunks, however they were read |
| ServerCrypto.DecryptsIffEncrypted | apps/api/src/storage/server-crypto.ts:44-67 | Decryption yields p exactly on an encryption of p under the leading twelve bytes |
| ServerCrypto.RoundTrip | apps/api/src/storage/server-crypto.ts:44-72 | Decrypting an encryption gives the plaintext back, and plaintextSizeFor recovers its size from the stored size |
| ServerCrypto.Framing | apps/api/src/storage/server-crypto.ts:44-67 | What is stored is the twelve bytes of the IV, the ciphertext and the sixteen bytes of the tag in this order; exactly inputs of fewer than 28 bytes are refused as too short |
| ServerCrypto.AnnouncedSize | apps/api/src/storage/server-crypto.ts:54-72 | Whatever decrypts has the plaintext size its stored length announces |
| Slices.CutExtends | apps/api/src/handlers/share-page.ts:314-316 | Cutting chunk i extends the covered part of the window by exactly that chunk's share |
| RangeReaders.GetShareChunks | apps/api/src/handlers/share-page.ts:262-283 | Succeeds if and only if every index has a row, otherwise names the first missing one; sizes and running offsets describe the chunks |
| SharePull.ShareStream.Pull | apps/api/src/handlers/share-page.ts:304-322 | One pull closes past the window, aborts on a failed read, and otherwise enqueues the chunk's share when it is non-empty |
| RangeReaders.PullMakesProgressIff | apps/api/src/handlers/share-page.ts:304-322 | Inside the window a pull enqueues a non-empty piece if and only if the chunk is non-empty |
| RangeReaders.ReadShareRange | apps/api/src/handlers/share-page.ts:299-324 | For any timing of the consumer's reads, the stream closes if and only if no needed read fails and no empty chunk is pulled for a read that was pending before; then the pieces are exactly file[start..end + 1] with the declared length, otherwise a proper prefix |
| RangeReaders.NeverStallsIff | apps/api/src/handlers/share-page.ts:304-322 | No timing makes the stream hang if and only if the window has no empty chunk |
| RangeReaders.MayFinishIff | apps/api/src/handlers/share-page.ts:304-322 | Some timing gets through if and only if the window has no two empty chunks in a row |
| RangeReaders.TwoEmptyChunksStall | apps/api/src/handlers/share-page.ts:304-322 | Chunks of sizes 1, 0, 0 and 1 hang a whole-file response whatever the timing |
| RangeReaders.ReadEmptyShare | apps/api/src/handlers/share-page.ts:299-308 | On an empty file, whose window runs from 0 to -1, the first pull closes the stream |
| RangeReaders.PrefixOffsets | apps/api/src/handlers/stream.ts:113-119 | The running sums are the plaintext offsets of the chunks |
| RangeReaders.FindSpan | apps/api/src/handlers/stream.ts:139-145 | The first index is the chunk that holds the first byte of the window, the last index the one that holds the last byte |
| RangeReaders.SpanIs | apps/api/src/handlers/stream.ts:139-145 | The chunks between these two are exactly those that reach into the window or lie empty inside it |
| RangeReaders.SpliceRange | apps/api/src/handlers/stream.ts:139-183 | It answers if and only if every read in the span succeeds, and then with file[start..end + 1] |
| RangeReaders.Join | apps/api/src/handlers/stream.ts:177-183 | The buffer filled piece by piece is the concatenation of the pieces |
| RangeReaders.GetByteRange | packages/stream-engine/src/download.ts:75-117 | Floor division over uniform chunks with a shorter last one answers if and only if every chunk in the span is read, and then with file[start..end + 1], in the one-chunk and the assembling branch |
| RangeReaders.AssembleChunks | packages/stream-engine/src/download.ts:100-116 | Filling the result buffer through the written counter ends if and only if every chunk in the span is read, and then with file[start..end + 1] |
| RangeReaders.FloorPicksChunk | packages/stream-engine/src/download.ts:84-86 | The chunk floor division picks exists and contains the position |
| RangeReaders.StoredFileIsReadable | apps/api/src/storage/server-crypto.ts:45-72 | Cut, encrypt and store: stored sizes describe the chunks, every fetched chunk decrypts to its own piece, and the pieces join to the file |
| RangeReaders.ReadThreeWays | apps/api/src/handlers/stream.ts:139-183 | From the stored bytes the pull stream, the spliced buffer and the floor-division assembly give one and the same file[start..end + 1] |
| PlacedFiles.PlacedFileIsReadable | apps/api/src/handlers/blob.ts:84-110 | After any run whose committed ciphertexts of chunk i all hold piece i, reading and decrypting chunk i succeeds if and only if a readable copy of it answers, and gives piece i |
| PlacedFiles.ReadPlacedFile | apps/api/src/handlers/stream.ts:139-183 | Then all three readers serve the window if and only if every chunk in it has a readable copy that answers, and all three serve file[start..end + 1] |
| ChunkRows.GetOrderedChunks | apps/api/src/handlers/stream.ts:35-66 | The rows whose blob id carries an index, stably sorted by it, however many and whichever they are |
| ChunkRows.ParsesIff | apps/api/src/handlers/stream.ts:35-38 | Exactly the ids that end in :chunk: and a number carry an index, which is that number |
| ChunkRows.StreamServesFileIff | apps/api/src/handlers/stream.ts:39-66 | The chunks 0 to n - 1 are served in order if and only if each of these indices has exactly one row and no other index has any |
| ChunkRows.StreamServesBytes | apps/api/src/handlers/stream.ts:39-66 | In that case, if every row holds its chunk, what is served is the file's own chunk list |
| ChunkRows.MissingRowIsSkipped | apps/api/src/handlers/stream.ts:39-66 | Rows 0 and 2 of three chunks: the file is served without chunk 1 |
| ChunkRows.SurplusRowIsServed | apps/api/src/handlers/stream.ts:39-66 | Rows 0 and 1 of a one-chunk file: both are served |
| ChunkRows.RepeatedIndexIsServedTwice | apps/api/src/handlers/stream.ts:35-38 | The ids f:chunk:0 and f:chunk:00 carry one index and both are served |
| HttpRange.ResolveShareRange | apps/api/src/handlers/share-page.ts:350-369 | The whole file is served if and only if there is no header or an empty one, whatever the file's size; the unanchored pattern and the reassigned bounds resolve any other header to the range function that is compared with RFC 9110 |
| HttpRange.ResolveStreamRange | apps/api/src/handlers/stream.ts:123-137 | The same for the stream handler |
| HttpRange.ServedRangesAreWindows | apps/api/src/handlers/share-page.ts:364-372 | Every served range satisfies start <= end < total |
| HttpRange.ExecOnHeader | apps/api/src/handlers/share-page.ts:355-355 | On a header of any unit and any range set, with empty elements and white space as a recipient must read them, the pattern captures the first element if it is a range and the unit ends in "bytes", and nothing otherwise |
| HttpRange.ShareFollowsRfcIff | apps/api/src/handlers/share-page.ts:354-369 | On every header of valid byte ranges, with any unit, number of ranges, empty elements and white space, the share handler answers as section 14 of RFC 9110 allows if and only if the unit is written "bytes" and its first element is a range that a part of the file satisfies, or no range in bytes is satisfiable |
| HttpRange.StreamFollowsRfcIff | apps/api/src/handlers/stream.ts:127-137 | The same for the stream handler, whose first range must not be a suffix range either |
| HttpRange.OtherUnitsAreNotIgnored | apps/api/src/handlers/share-page.ts:354-369 | A header with another unit, whatever follows it, is never ignored by either handler as RFC 9110 asks |
| HttpRange.SecondRangeIsMissed | apps/api/src/handlers/share-page.ts:354-369 | bytes=20-,0-4 of ten bytes gets 416 from both handlers although its second range is satisfiable |
| HttpRange.CapitalUnitIsRefused | apps/api/src/handlers/share-page.ts:354-369 | Bytes=0-4 gets 416 from both |
| HttpRange.UnknownUnitIsServed | apps/api/src/handlers/share-page.ts:354-369 | xbytes=0-4 gets five bytes from both |
| HttpRange.SuffixIsRefused | apps/api/src/handlers/stream.ts:127-137 | bytes=-5 gets 416 from the stream handler and the last five bytes from the share handler |
| HttpRange.EmptyElementHidesRange | apps/api/src/handlers/share-page.ts:354-369 | bytes=,0-4 gets 416 from both |
| HttpRange.NoNumbersIsTheWholeFile | apps/api/src/handlers/share-page.ts:354-369 | bytes=- gets the whole file as a part from the share handler and 416 from the stream handler |
| HttpRange.ShareOnInvalid | apps/api/src/handlers/share-page.ts:354-369 | Invalid headers get 416, except that "bytes=-" gets the whole file |
| DownloadEngine.Engine.BeginGet | packages/stream-engine/src/download.ts:39-59 | Up to its await a get hits the cache, joins the running fetch, fails on an unregistered file, or starts and registers one fetch |
| DownloadEngine.Engine.FinishGet | packages/stream-engine/src/download.ts:61-67 | After the await the fetch caches its bytes in the maps of its own registration and leaves the in-flight map in every case |
| DownloadEngine.Engine.SchedulePrefetch | packages/stream-engine/src/download.ts:185-200 | The loop starts fetches for the chunks ahead that are neither cached nor in flight |
| DownloadEngine.Engine.ScheduleEviction | packages/stream-engine/src/download.ts:202-215 | The key-by-key deletion drops the chunks before the bound in this file's map only |
| DownloadCache.HitIsPlaintext | packages/stream-engine/src/download.ts:44-47 | In every interleaving a hit returns the chunk's plaintext under the configuration registered now |
| DownloadCache.AwaitedFetchIsOwn | packages/stream-engine/src/download.ts:49-59 | A joined or started fetch is an unfinished fetch of that chunk under the configuration registered now |
| DownloadCache.GetEndsWith | packages/stream-engine/src/download.ts:49-67 | A get that starts a fetch ends, whatever happens meanwhile, with the chunk's plaintext under the configuration of its start if and only if the source answered and the key opened the answer, and with a failure otherwise |
| DownloadCache.FinishDelivers | packages/stream-engine/src/download.ts:61-67 | After the await the plaintext is a hit; after a failure the next get starts afresh instead of joining |
| DownloadCache.HitStaysIff | packages/stream-engine/src/download.ts:39-47 | A hit stays that hit at a step if and only if the step does not register or drop its file or evict its chunk |
| DownloadCache.HitLasts | packages/stream-engine/src/download.ts:39-47 | The same over whole runs |
| DownloadCache.RegistrationAnswers | packages/stream-engine/src/download.ts:18-28 | A newly registered file starts afresh, a dropped one is refused, and no other file notices |
| DownloadCache.FetchedIsPlaintext | packages/stream-engine/src/download.ts:168-183 | Whatever a fetch ends with is its chunk's plaintext under the registration that started it |
| DownloadCache.OneFetchPerChunk | packages/stream-engine/src/download.ts:49-59 | At most one unfinished fetch for a chunk within a registration |
| DownloadCache.LateFinishStaysOut | packages/stream-engine/src/download.ts:18-28 | A fetch that finishes after its file was registered again changes nothing in the new registration's maps |
| DownloadCache.PrefetchIsExact | packages/stream-engine/src/download.ts:185-200 | A prefetch starts fetches for exactly the next chunksAhead existing chunks that are neither cached nor in flight, and disturbs no running fetch |
| DownloadCache.EvictionIsExact | packages/stream-engine/src/download.ts:202-215 | A cached chunk goes if and only if it is this file's and more than chunksBehind before the position |
| IteratorMutex.Lock.Test | apps/frontend/src/lib/upload.ts:319-323 | One test of the loop guard takes the free lock or queues the caller, and keeps the lock invariant |
| IteratorMutex.Lock.Release | apps/frontend/src/lib/upload.ts:326-329 | The finally branch frees the lock, wakes the first waiter if there is one, and keeps the lock invariant |
| IteratorMutex.MutualExclusion | apps/frontend/src/lib/upload.ts:318-330 | In every interleaving at most one worker is inside chunkIter.next |
| IteratorMutex.NobodyStranded | apps/frontend/src/lib/upload.ts:318-330 | While a worker is queued another one is inside or woken and about to test again, even when newcomers overtake or next throws |
| IteratorMutex.EntersIff | apps/frontend/src/lib/upload.ts:319-323 | A test enters if and only if nobody is inside, and queues up behind the others otherwise |
| IteratorMutex.ReleaseWakesFirst | apps/frontend/src/lib/upload.ts:326-329 | A release leaves nobody inside and wakes exactly the first worker in the queue |
| IteratorMutex.WaitsItsTurn | apps/frontend/src/lib/upload.ts:318-330 | Each release brings a queued worker one place forward, and nobody overtakes it in the queue |
| ResumableUpload.RunKeeps | apps/frontend/src/lib/upload.ts:242-383 | Steps of all workers, failures, iterator errors that end the other workers early, lost acknowledgements and pass changes in any order keep the upload invariant |
| ResumableUpload.ProgressIsExact | apps/frontend/src/lib/upload.ts:282-290 | uploadedBytes and uploadedBlobs are the sum and the number of the done chunks, each of which has a server row |
| ResumableUpload.PutsAreBounded | apps/frontend/src/lib/upload.ts:63-77 | No chunk is PUT more than twelve times, and no worker is about to PUT a done chunk |
| ResumableUpload.RetriesIff | apps/frontend/src/lib/upload.ts:63-90 | A PUT is done if and only if it was acknowledged, over for this pass if and only if the answer was definitive or the fourth attempt failed, and otherwise sent again |
| ResumableUpload.DecidesIff | apps/frontend/src/lib/upload.ts:246-290 | A chunk is sent if and only if it is neither done nor known to be stored; a known one is done without a record |
| ResumableUpload.TakesInOrder | apps/frontend/src/lib/upload.ts:318-335 | Chunks are handed out in order, and none after the iterator threw or ended |
| ResumableUpload.CleanPassSucceeds | apps/frontend/src/lib/upload.ts:351-356 | A pass without failures completes the upload |
| ResumableUpload.FailedPassEnds | apps/frontend/src/lib/upload.ts:351-383 | Otherwise the first failed worker decides: a definitive failure or the third pass ends the upload at once, any other starts a fresh pass that knows what the server reported and forgets nothing done |
| ResumableUpload.StoredMeansSent | apps/frontend/src/lib/upload.ts:63-90 | The server holds no chunk that was never sent |
| ResumableUpload.RunningGoesOn | apps/frontend/src/lib/upload.ts:242-383 | An upload that is still running can always go on |
| ResumableUpload.SuccessIsComplete | apps/frontend/src/lib/upload.ts:351-383 | Leaving the resume loop means exactly the indices below the chunk count are done and uploadedBytes is the file size |
| ResumableUpload.CommitAcceptedIff | apps/api/src/resolvers/files.ts:176-177 | A completed upload finds its manifest blob if and only if the file is non-empty and the last chunk's PUT was acknowledged to this client |
| ResumableUpload.LostAckCannotCommit | apps/frontend/src/lib/upload.ts:385-395 | A run in which the only chunk is stored, no acknowledgement arrives, the second pass succeeds and the commit is refused |
| UploadEngine.PoolRunsEachTaskOnce | packages/stream-engine/src/upload.ts:143-165 | runPool begins no task twice, runs at most `concurrency` at once, and when every worker ended each task was begun once and has its result |
| UploadEngine.PoolEnds | packages/stream-engine/src/upload.ts:143-165 | The pool takes boundedly many steps, and when none is left every worker has ended or thrown |
| UploadEngine.ThrowsIff | packages/stream-engine/src/upload.ts:143-165 | A worker throws if and only if its task fails or the signal aborts |
| UploadEngine.StreamIsBounded | packages/stream-engine/src/upload.ts:66-99 | uploadStream has at most `concurrency` uploads running, and each chunk begun is running, stored or failed |
| UploadEngine.ResolvedMeansStoredIff | packages/stream-engine/src/upload.ts:68-102 | A resolved uploadStream stored every chunk if and only if its run has no step at which an upload fails while neither a race it entered nor the final wait is pending |
| UploadEngine.RejectedIff | packages/stream-engine/src/upload.ts:68-102 | It rejects if and only if its run has a step at which the iterator throws or an upload fails while such a race or the final wait is pending |
| UploadEngine.StuckMeansOver | packages/stream-engine/src/upload.ts:66-102 | A stream in which nothing can happen any more has resolved or rejected |
| UploadEngine.ResolvesIff | packages/stream-engine/src/upload.ts:102-102 | After the iterator ended, and with no failure heard, it has resolved if and only if every upload begun has settled |
| UploadEngine.EveryChunkIsBegun | packages/stream-engine/src/upload.ts:68-100 | Unless it rejects, every chunk handed out is begun but the one in hand while the queue is full, and n chunks take at most 3 n + 1 steps |
| UploadEngine.SettlesIff | packages/stream-engine/src/upload.ts:80-98 | A settled upload is stored if and only if it succeeded, failed otherwise, and leaves the queue |
| UploadEngine.FailureCanGoUnheard | packages/stream-engine/src/upload.ts:94-98 | A run of any concurrency that resolves with its only chunk failed (where an unhandled rejection does not end the process) |
| TelegramLimiter.TelegramRateLimiter.Usable | packages/telegram-client/src/rate-limiter.ts:31-34 | Usable means past the pause with nothing in flight, and asking changes no bot's state |
| TelegramLimiter.TelegramRateLimiter.Release | packages/telegram-client/src/rate-limiter.ts:40-43 | The count goes down by one, clamped at zero |
| TelegramLimiter.TelegramRateLimiter.RecordSent | packages/telegram-client/src/rate-limiter.ts:45-48 | The bot's pause ends one minimum interval after the send, even if it ended later before |
| TelegramLimiter.TelegramRateLimiter.RecordRetryAfter | packages/telegram-client/src/rate-limiter.ts:50-54 | The pause is extended, never shortened |
| TelegramLimiter.Transport.SelectOnce | apps/api/src/storage/telegram-blobs.ts:53-66 | A scan reserves the first usable bot from the round-robin position and moves the position behind it, or changes nothing when no bot is usable |
| TelegramPacing.RunKeeps | packages/telegram-client/src/client.ts:67-143 | Selections, retry loops, finally branches and limited reads in any order keep the invariant |
| TelegramPacing.SendersAreExclusive | apps/api/src/storage/telegram-blobs.ts:49-100 | In every run at most one upload holds a bot, the bot's count is one or two for its upload and zero otherwise, and no upload makes more than four requests |
| TelegramPacing.ReleaseNeverClamps | packages/telegram-client/src/rate-limiter.ts:40-43 | Every release finds a count of at least one |
| TelegramPacing.RetriesIff | packages/telegram-client/src/client.ts:108-142 | An answer leads to another request if and only if it is a 429 or a server error and fewer than four requests were made |
| TelegramPacing.FailureRetriesIff | packages/telegram-client/src/client.ts:67-107 | A lost request is made again if and only if fewer than four were made |
| TelegramPacing.UploadsEnd | packages/telegram-client/src/client.ts:67-143 | Every upload can go on until it ends, and ending frees its bot |
| TelegramPacing.RestedBotIsSelectable | packages/telegram-client/src/rate-limiter.ts:31-34 | A bot can be selected if and only if no upload holds it and its pause is over |
| TelegramPacing.SendsArePaced | packages/telegram-client/src/rate-limiter.ts:45-48 | Recorded sends of one bot are at least the minimum interval apart |
| TelegramPacing.SentIsExact | packages/telegram-client/src/client.ts:108-109 | The record of sends holds exactly the accepted messages of the run, in order |
| TelegramPacing.AcceptedSendsArePaced | packages/telegram-client/src/rate-limiter.ts:45-48 | So accepted messages of one bot are at least the minimum interval apart |
| TelegramPacing.WindowBound | packages/telegram-client/src/rate-limiter.ts:45-48 | Any interval of length L holds at most floor(L / interval) + 1 recorded sends of one bot |
| TelegramPacing.PenaltyKeptIff | packages/telegram-client/src/rate-limiter.ts:45-54 | A step keeps a bot's 429 penalty if and only if it does not record a send whose pause ends earlier |
| TelegramPacing.PenaltyHolds | packages/telegram-client/src/rate-limiter.ts:31-54 | Without such a send a penalized bot cannot be selected before the penalty ends |
| TelegramPacing.PauseChanges | packages/telegram-client/src/rate-limiter.ts:45-54 | After a 429, to an upload or to another call, the bot's pause ends at the later of its old end and the wait asked for; after an accepted message one interval on; at no other step, and no other bot's pause changes |
| TelegramPacing.LimitedBotRests | packages/telegram-client/src/client.ts:126-130 | After a 429 answer and without a shortening send, no upload can select the bot before the wait is over |
| TelegramPacing.PenaltyCanBeShortened | packages/telegram-client/src/client.ts:108-109 | A run in which a thirty-second penalty ends after 1.1 seconds |
| DiscordSenders.SenderTable.ClaimSender | apps/api/src/storage/discord-blobs.ts:33-35 | One more active upload for this sender, others unchanged |
| DiscordSenders.SenderTable.UnclaimSender | apps/api/src/storage/discord-blobs.ts:37-41 | One fewer, the entry removed with the last one |
| SenderAccounting.StepKeeps | packages/discord-client/src/uploader.ts:56-171 | Every step of selection, both retry loops and the finally branches keeps both counters exact |
| SenderAccounting.AccountingIsExact | apps/api/src/storage/discord-blobs.ts:26-41 | In every run a sender's active count is the number of uploads between claim and unclaim and at most two, its in-flight count is the number of outstanding requests, and no upload makes more than four |
| SenderAccounting.NothingLeftBehind | packages/discord-client/src/uploader.ts:56-171 | When every upload has returned or thrown, nothing stays claimed or in flight |
| SenderAccounting.ReturnsAreMatched | packages/discord-client/src/bot.ts:23-82 | Unclaim always finds an entry and release a positive count: neither fallback is used |
| SenderAccounting.RetriesIff | packages/discord-client/src/uploader.ts:119-168 | An answer leads to another request if and only if it is a 429 or a server error and fewer than four requests were made |
| SenderAccounting.FailureRetriesIff | packages/discord-client/src/bot.ts:40-48 | A network failure leads to another request if and only if fewer than four were made and, for a bot, it was a timeout |
| SenderAccounting.RelayFallsBackIff | packages/discord-client/src/uploader.ts:96-113 | An unreachable relay leads to a direct request if and only if an attempt is left |
| SenderAccounting.DeadRelayCanFailTheUpload | packages/discord-client/src/uploader.ts:96-113 | A run that fails with four requests, none of them direct |
| DiscordSelection.Selector.SelectOnce | apps/api/src/storage/discord-blobs.ts:205-243 | A direct webhook is chosen if and only if some webhook off the relay is usable with fewer than two active uploads, a relay webhook only when no bot is available either, a bot only when no direct webhook is; the chosen webhook is the first of least score, the chosen bot the first from the round-robin position; exactly it is claimed; None exactly when nothing is available |
| DiscordSelection.Selector.LeastScored | apps/api/src/storage/discord-blobs.ts:207-213 | Filter, sort and take the first: the first eligible candidate of least score |
| DiscordTurns.IndexCountsEarlier | apps/api/src/storage/discord-blobs.ts:147-151 | A webhook's index is the number of webhooks of its server group listed before it |
| DiscordTurns.GroupBelowIff | apps/api/src/storage/discord-blobs.ts:158-163 | For any two server groups of a listing, every webhook of the first scores below every webhook of the second if and only if the first group's size is at most the difference of what the score adds for the groups |
| DiscordTurns.ServerTurnIff | apps/api/src/storage/discord-blobs.ts:158-163 | Within a user group: if and only if the size is at most 100 times the difference of the server distances |
| DiscordTurns.UserTurnIff | apps/api/src/storage/discord-blobs.ts:158-163 | A user group's webhooks all score below another's if and only if none of its server groups reaches past the nearest server group of the other |
| DiscordTurns.ScoreIsTurnOrderIff | apps/api/src/storage/discord-blobs.ts:158-163 | The scores order a whole listing by user group, server group and index from the cursors if and only if every group fits in front of every group after it |
| DiscordTurns.ServerTurnsIff | apps/api/src/storage/discord-blobs.ts:161-161 | For a cursor within the user group, the fixed modulus 32 puts its server groups in cyclic order if and only if there are at most 32 |
| DiscordTurns.GroupJumpsAheadIff | apps/api/src/storage/discord-blobs.ts:161-161 | Because the remainder keeps its sign, a server group is put ahead of the cursor's own by a negative distance if and only if it lies more than 32 before the cursor and not by a multiple of 32 |
| DiscordTurns.SingleUserListing | apps/api/src/storage/discord-blobs.ts:137-163 | In the listing built for one user group on two or more servers, the first server keeps its turn before the second at the initial cursors if and only if there are at most 100 webhooks for each server |
| DiscordTurns.CrowdedListing | apps/api/src/storage/discord-blobs.ts:137-163 | The listing built for 204 webhooks on two servers holds a webhook whose turn is earlier and whose score is worse |
| DiscordTurns.WrappedListing | apps/api/src/storage/discord-blobs.ts:137-163 | In the listing built for 33 webhooks on 33 servers the first and the last server's webhooks score alike |
| DiscordTurns.CursorGroupGoesFirst | apps/api/src/storage/discord-blobs.ts:165-176 | The user group under the cursor, if its server groups fit in front of every other user group's, is served whenever it has an eligible webhook, and the cursor then moves to the next group |
| DiscordTurns.UserCursorMoves | apps/api/src/storage/discord-blobs.ts:165-176 | The user cursor moves to the next user group, and to the first after the last one |
| DiscordTurns.ServerCursorMoves | apps/api/src/storage/discord-blobs.ts:165-176 | The server cursor moves to the next server group of the chosen user group, and to the first after the last one |
| WebhookGroups.PartitionSequential | apps/api/src/storage/discord-blobs.ts:114-128 | An order-preserving split into min(max(1, groupCount), n) non-empty groups, longer ones first, of the stated sizes, which differ by at most one |
| WebhookGroups.SplitIsUnique | apps/api/src/storage/discord-blobs.ts:114-128 | There is only one such split |
| WebhookGroups.BuildGroupedWebhooks | apps/api/src/storage/discord-blobs.ts:137-156 | Every configured webhook is listed exactly once, in order, under gapless coordinates, over the configured number of user groups, and every server group has exactly the size the configuration gives it |
| WebhookGroups.CoordinatesAscend | apps/api/src/storage/discord-blobs.ts:137-156 | Coordinates strictly ascend, so no two webhooks share one |
| WebhookGroups.NoUserGroupSkipped | apps/api/src/storage/discord-blobs.ts:165-176 | Every user group index up to the last is used, so the cursors' largest index plus one is the number of groups |
| WebhookRateLimiter.Limiter.RecordError | packages/discord-client/src/rate-limiter.ts:45-49 | The unpruned history grows exactly by the 401, 403 and 429 answers |
| WebhookRateLimiter.Limiter.RecordThrottle | packages/discord-client/src/rate-limiter.ts:59-75 | A throttled sender is usable again exactly from the later of its old window end and the wait asked for, and no other sender changes; an IP-level block changes no sender |
| WebhookRateLimiter.Limiter.RecordResponse | packages/discord-client/src/rate-limiter.ts:21-43 | The headers that are given replace the sender's remaining count and window end |
| WebhookRateLimiter.Limiter.Reserve | packages/discord-client/src/rate-limiter.ts:96-105 | One more request of this sender in flight |
| WebhookRateLimiter.Limiter.Release | packages/discord-client/src/rate-limiter.ts:107-112 | One fewer, clamped at zero; an unknown sender stays unknown |
| WebhookRateLimiter.AnswerAllows | packages/discord-client/src/rate-limiter.ts:84-94 | After an answer the sender is usable until its window ends for exactly the remaining requests, counting those in flight, and afterwards for any number |
| WebhookRateLimiter.NewAndRestedAreUsable | packages/discord-client/src/rate-limiter.ts:84-94 | An unknown sender is usable, and so is one whose window has ended, whatever is in flight |
| WebhookRateLimiter.ReleaseUndoesReserve | packages/discord-client/src/rate-limiter.ts:96-112 | A release gives back what a reservation took, for every sender |
| WebhookRateLimiter.Limiter.IsGlobalSafe | packages/discord-client/src/rate-limiter.ts:128-133 | Safe if and only if fewer than 8000 of all errors ever recorded lie in the last ten minutes, whatever was evicted before |
| WebhookRateLimiter.Limiter.GetBestWebhook | packages/discord-client/src/rate-limiter.ts:139-154 | Null if and only if unsafe or nothing is usable; otherwise the first usable id from the round-robin position, which moves behind it |
| WebhookRateLimiter.NewerTwice | packages/discord-client/src/rate-limiter.ts:129-131 | Evicting by an earlier cutoff first does not change what a later cutoff keeps |
| WebhookRateLimiter.PicksEnumerate | packages/discord-client/src/rate-limiter.ts:143-151 | Consecutive picks list the usable positions in counting order |
| WebhookRateLimiter.RoundIsFair | packages/discord-client/src/rate-limiter.ts:143-151 | Over distinct ids with m of them usable, m consecutive picks return each usable id exactly once; all n when all are usable |
| IpRateLimit.Limiter.CheckRateLimit | apps/api/src/middleware/rate-limit.ts:25-48 | Decision and new table, and a refused request is told the remaining time rounded up to whole seconds |
| IpRateLimit.Limiter.Cleanup | apps/api/src/middleware/rate-limit.ts:59-66 | The pass removes exactly the entries whose window has ended |
| IpRateLimit.WindowBound | apps/api/src/middleware/rate-limit.ts:25-48 | In every event sequence each window admits at most maxRequests |
| IpRateLimit.IntervalBound | apps/api/src/middleware/rate-limit.ts:25-48 | Any half-open interval of one window's length admits at most 2 * maxRequests - 1 |
| IpRateLimit.IntervalBoundIsTight | apps/api/src/middleware/rate-limit.ts:25-48 | For both policies some sequence reaches that bound |
| IpRateLimit.CleanupIsInvisible | apps/api/src/middleware/rate-limit.ts:59-66 | Cleanup passes at any moments change no decision |
| IpRateLimit.CleanupIsExact | apps/api/src/middleware/rate-limit.ts:59-66 | A cleanup step leaves exactly the entries whose window has not ended, as they were |
| FolderForest.MoveKeepsForestIff | apps/api/src/resolvers/folders.ts:126-152 | A move keeps the owner-closed forest if and only if the target does not lie in the moved subtree |
| FolderForest.InterleavedMovesCanCycle | apps/api/src/resolvers/folders.ts:126-152 | Two moves whose checks both ran first leave two folders inside each other |
| FolderForest.SubtreeSplits | apps/api/src/resolvers/folders.ts:154-167 | A subtree is its top and the subtrees of the children, which is what both recursions rely on |
| FolderForest.SubtreeOutside | apps/api/src/resolvers/folders.ts:163-167 | Deleting a sibling's subtree leaves the next child's subtree as it was |
| FolderStore.Store.CreateFolder | apps/api/src/resolvers/folders.ts:90-112 | Refused exactly under a parent that is not the owner's; otherwise adds the folder and keeps the forest |
| FolderStore.Store.MoveFolder | apps/api/src/resolvers/folders.ts:126-152 | Refused for exactly one of four reasons, the last being a target inside the moved subtree; otherwise only the parent pointer changes; the forest is kept |
| FolderStore.MoveIsAllowedIff | apps/api/src/resolvers/folders.ts:126-152 | In a forest a move goes through if and only if folder and target are the owner's and the folders remain a forest |
| FolderStore.MoveRefusalNames | apps/api/src/resolvers/folders.ts:126-152 | Which of the four refusals is given, for each of them exactly when |
| FolderStore.Store.LiesBelow | apps/api/src/resolvers/folders.ts:140-148 | The ancestor walk ends and finds the moved folder if and only if the target lies below it |
| FolderStore.Store.SoftDeleteFilesInTree | apps/api/src/resolvers/folders.ts:154-161 | Exactly the owner's live files in the subtree are marked deleted |
| FolderStore.Store.DeleteFolderTree | apps/api/src/resolvers/folders.ts:163-167 | Exactly the subtree's folders go, and exactly the files in them lose their parent |
| FolderStore.Store.DeleteFolder | apps/api/src/resolvers/folders.ts:169-175 | Removes exactly the subtree's folders, soft-deletes exactly the owner's live files in it, clears the parent of every file in it, changes nothing else and keeps the forest |
| FolderStore.Store.GetFolderPath | apps/api/src/resolvers/folders.ts:185-202 | Ends on any data, cyclic or not; the path lists distinct folders of the owner, each above the next, and goes no higher only for a stated reason |
| FolderStore.PathReachesRoot | apps/api/src/resolvers/folders.ts:185-202 | In a forest the path runs from the folder's root down to it |
| FolderStore.SubtreeIsOwners | apps/api/src/resolvers/folders.ts:154-175 | All folders moved or deleted along with a folder of the owner are the owner's |
| FolderStore.DeletionSpares | apps/api/src/resolvers/folders.ts:169-175 | Deleting folders leaves every file in an existing folder or at the top and with its owner, leaves files outside untouched, and takes out of view exactly the owner's live files inside |
| FolderStore.RowGoneKeepsForest | packages/database/prisma/schema.prisma:220-220 | Deleting one folder row, with or without children, keeps the forest: its children become roots and no other folder changes |

## Left out

- The LOCAL provider, which overwrites and deletes one deterministic path: the placement results need fresh handles.
- Placement rows without a stored hash, and commitManifest creating transports and primaries from client-supplied coordinates: only its replica rows for known blobs are modelled. When a late PUT has moved the blob to another provider, that creation can add a second primary row, so the invariant's "at most one primary row for a blob", and the results about primaries that rest on it, hold for the modelled steps only.
- Owner checks on blobs, sessions, tokens, share permissions and anonymous workspaces: single-branch guards.
- The thumbnail pipeline, previews and shares that a purge also removes.
- Choice of the primary pool (`getPrimaryPool`): uploads may use any provider.
- ReplicationQueue.Queue.RunSweep: processes the fetched rows one after the other at one time, while the source runs a few workers; concurrent processing of rows is covered by the step system of `Placement.dfy`.
- BlobReads.ReadBlobBytes: the parking update itself is a step of `Placement.dfy`; here only which rows are parked is stated, and `PlacementReads.ParkingMovesGoneRows` says what the updates do.
- TelegramPacing.SendsArePaced: speaks of recorded sends; a message that arrives although its request failed is not recorded by the source either.
- DiscordSelection.Selector.LeastScored: a stable sort followed by taking the first element is modelled as the search for the first least element.
- DownloadCache.FetchedIsPlaintext: a source may fail but does not return different stored bytes for one chunk.
- FolderStore.Store.SoftDeleteFilesInTree: later timestamps are only known not to precede the call.
- UploadEngine.StreamIsBounded: a concurrency of zero, for which the source waits forever, is excluded.
- Sleeping, backoff delays other than the replication backoff, telemetry and logging.
- createFullStream and downloadAll of the download engine, per-chunk retry of the universal upload engine.
- DiscordReplicaPool's sender selection, bot and webhook downloads and deletions, and waitForAvailable.
- Range numbers too large for an exact double, and response headers other than lengths and ranges.
- Folder statistics, renaming, and anonymous folders.
