# wordjuicer client core in Dafny

wordjuicer is a browser application that turns audio files into text through a hosted
speech-to-text provider (OpenAI, Groq or Hugging Face) or a local Whisper model. This project
models the part of the client that is plain logic:

- the chunk, retry and merge pipeline of `transcribeAudio`, and the normalisation of each
  provider's response (`transcription.dfy`);
- the result cache with its size and age bounds and the hex file hash (`cache.dfy`);
- the generic retry engine with exponential backoff and jitter (`retry.dfy`);
- the provider health table and the preferred-provider ranking (`health.dfy`);
- the submission queue and its drain step (`queue.dfy`);
- the small zustand stores: progress, local model, API keys, offline mode, notifications and
  history (`progress.dfy`, `localmodel.dfy`, `apikeys.dfy`, `offline.dfy`,
  `notifications.dfy`, `history.dfy`);
- the history statistics and the not-initialised guard of the database (`db.dfy`);
- the formatters, the `cn` class-name helper and the upload validator (`formatters.dfy`,
  `cn.dfy`, `upload.dfy`).

Shared modules:

- `Results` holds `Option` and `Result`.
- `Text` holds the string built-ins the code relies on: `join`, `split`, `trim`, `includes`,
  `toLowerCase`, `toString(radix)` and `padStart`.
- `Lists` holds `filter` and counting.
- `Powers` holds powers of two.
- `Domain` holds providers, segments and files.

Every store action is a pure function from the old state, plus what the outside world
answered, to the new state. Network answers, clocks, random numbers, ids, the SHA-256
digest and the Whisper pipeline are parameters. Where a store also emits notifications, they
are returned as a list.

## Model

| member | source | states |
|---|---|---|
| Transcription.CreateChunks | src/utils/transcription.ts:6-20 | chunk `i` is `[i·5 MiB, min((i+1)·5 MiB, size))`. There are `ceil(size / 5 MiB)` chunks. No chunk is empty, consecutive chunks meet, the first starts at 0 and the last ends at the file size. An empty file has no chunks. |
| Transcription.ChunksPartitionFile | src/utils/transcription.ts:10-20 | every byte of the file lies in exactly one chunk, and no chunk reaches past the end |
| Transcription.CountFromBounds | src/utils/transcription.ts:10-20 | `k` ranges of 5 MiB that are just enough for the file are exactly `ceil(size / 5 MiB)` |
| Transcription.LayoutShape | src/utils/transcription.ts:10-20 | a layout of the `createChunks` shape has non-empty, adjacent chunks spanning `[0, size)` |
| Transcription.ErrorMessage | src/utils/transcription.ts:140-145 | the message of a non-ok response is `error.message` when non-empty, else the `error` string when non-empty, else "Failed to transcribe audio (status)". An unparseable body gives "Failed to parse error response". The message is never empty. |
| Transcription.Normalize | src/utils/transcription.ts:153-197 | Hugging Face reads `chunks`, then `segments`, both trimmed, else one zero-time segment. The other providers read `segments` untrimmed, else none. Non-empty text always comes with at least one timestamp. Missing text is rebuilt from the timestamp texts joined by spaces. |
| Transcription.PerformTranscription | src/utils/transcription.ts:86-145 | an unknown provider fails with "Invalid provider" before any request. Otherwise the call succeeds exactly when the response was ok. A non-ok response fails with its error message, and a success is the normalised body. |
| Transcription.RetryFrom | src/utils/transcription.ts:38-59 | reference definition of the retry loop from a given attempt. It always ends within the three attempts. |
| Transcription.RunChunk | src/utils/transcription.ts:38-59 | 1 to 3 requests are made. Every request before the last failed with "Model too busy". The result is that of the last request, and a final error is either not "busy" or from the third attempt. Wait `k` is `5000·2^k` ms, and each wait comes with its "Model busy" notice. The loop agrees with `RetryFrom`. |
| Transcription.RunChunks | src/utils/transcription.ts:34-61 | the chunks are tried in order and the first failing chunk stops the loop with its error. Otherwise every chunk gives one result. |
| Transcription.TranscribeAudio | src/utils/transcription.ts:22-74 | a missing, empty or unvalidated key fails with the settings message before any chunk and posts nothing. Chunks are processed in order, each through the retry loop. On success there is one result per chunk and the outcome is their merge. On failure the error is the first failing chunk's, and no later chunk was attempted. The notices are the "Model busy" notices of each chunk reached, chunk by chunk. |
| Transcription.Merge | src/utils/transcription.ts:64-73 | every segment text survives in chunk order. No chunks give an empty transcript, and a single chunk comes back exactly as transcribed. For more chunks the text is given by `Transcription.MergeTextAppend`. |
| Transcription.MergeTextAppend | src/utils/transcription.ts:65 | the merged text is the chunk texts joined by one space, in chunk order: one more chunk adds a space and that chunk's text at the end |
| Transcription.MergeKeepsTexts | src/utils/transcription.ts:64-73 | the merged timestamps carry every chunk's segment texts, unchanged and in chunk order |
| Transcription.MergeSegmentsAppend | src/utils/transcription.ts:66-72 | one more chunk appends its segments shifted by that chunk's offset `i·MaxChunkSize` |
| Transcription.MergeMonotone | src/utils/transcription.ts:66-72 | when each chunk's times are ordered and lie within one chunk length, the merged times are ordered and start no earlier than the first offset |
| Domain.ProviderTagRoundTrip | src/utils/transcription.ts:86-129 | each provider's tag is read back as that provider by the provider switch |
| Cache.AddItem | src/utils/cache.ts:64-87 | the new entry is written with `createdAt = now`. Below capacity no other key changes. At capacity exactly the oldest entry (first among equals) is dropped, even when the key is already present, and the size does not grow. |
| Cache.VictimIsOldest | src/utils/cache.ts:67-71 | the evicted entry has a `createdAt` no later than that of any stored entry |
| Cache.AddItemBounded | src/utils/cache.ts:64-87 | a cache within its bound stays within it after `addItem` |
| Cache.Put | src/utils/cache.ts:74-85 | the object spread writes `key` and leaves every other key's value and the keys' uniqueness intact |
| Cache.Delete | src/utils/cache.ts:104-110 | deleting removes only `key`. The size drops by one exactly when the key was present. |
| Cache.OldestIndex | src/utils/cache.ts:68-70 | element 0 of the stable ascending sort by `createdAt`: minimal, and strictly older than everything before it |
| Cache.GetItem | src/utils/cache.ts:89-102 | an absent key gives nothing and changes nothing. A stored item is returned unchanged exactly when `now - createdAt <= maxAge`. Otherwise it is removed and nothing is returned. |
| Cache.RemoveItem | src/utils/cache.ts:104-110 | only `key` disappears and the bounds stay |
| Cache.Clear | src/utils/cache.ts:112-114 | no key is left |
| Cache.Prune | src/utils/cache.ts:116-127 | keeps exactly the entries with `now - createdAt <= maxAge`, unchanged |
| Cache.GetItemAgreesWithPrune | src/utils/cache.ts:96-98 | `getItem` uses the same age boundary as `prune`: it answers what a prune at that instant would keep |
| Cache.PruneIdempotent | src/utils/cache.ts:116-127 | pruning twice at the same instant is pruning once |
| Cache.ByteHexDigits | src/utils/cache.ts:34 | a byte is written as its high and low lower-case hex digit, zero-padded to two characters |
| Cache.HexEncode | src/utils/cache.ts:33-34 | two hex digits per digest byte, in byte order |
| Cache.HexRoundTrip | src/utils/cache.ts:33-34 | two lower-case hex digits per byte, in byte order, and decoding the hex gives the digest back |
| Cache.CreateFileHash | src/utils/cache.ts:30-35 | the hash holds two lower-case hex digits per digest byte, high digit first, in byte order. It is twice as long as the digest and decodes to it. |
| Retry.Resolve | src/utils/retry.ts:50 | each field not supplied takes the `DEFAULT_CONFIG` value, `shouldRetry` included, and each supplied field wins |
| Retry.ShouldRetry | src/utils/retry.ts:19-26 | a message is retried exactly when one of the listed substrings occurs at some position of its lower-cased text |
| Retry.ServiceConfigsResolved | src/utils/retry.ts:94-125 | OpenAI gets 3 tries / 1000 ms, Groq 4 / 2000 and Hugging Face 5 / 3000. All of them get the default 10000 ms cap. |
| Retry.TimeoutAlwaysRetried | src/utils/retry.ts:19-26 | every provider's predicate and the default one retry a message mentioning "timeout" in any letter case |
| Retry.ExponentialMonotone | src/utils/retry.ts:33-37 | the pre-jitter delay `min(maxDelay, baseDelay·2^(attempt-1))` never falls as attempts grow and never exceeds the cap |
| Retry.CalculateDelay | src/utils/retry.ts:33-41 | the delay is at least `baseDelay`. With a non-negative exponential part `e` it lies in `[0.75·e, max(baseDelay, 1.25·e)]`. |
| Retry.Jittered | src/utils/retry.ts:38-39 | the jitter moves the delay by at most a quarter either way |
| Retry.Round | src/utils/retry.ts:69 | `Math.round` gives the integer within half of the value, halves going up |
| Retry.WithRetry | src/utils/retry.ts:46-77 | for any `shouldRetry` predicate: at least one call is made, and at most `maxRetries` when that is above one (exactly one otherwise). The result is the last call's. Every earlier call failed with an error the predicate accepts. A final error is not accepted or hit the limit. The waits are `calculateDelay` of attempts 1, 2, …, each announced by its retry notice. |
| Health.InitialHealthUnknown | src/utils/healthCheck.ts:32-51 | every provider starts `unknown` with latency 0 |
| Health.Set | src/utils/healthCheck.ts:119-125 | writes one provider's entry and leaves the others |
| Health.ApplyPatch | src/utils/healthCheck.ts:122-124 | each given field overwrites, each missing field keeps its value, and the service stays |
| Health.ApplyProbes | src/utils/healthCheck.ts:62-110 | providers not probed keep their entries, `isChecking` is untouched, and there is at most one notice per probe |
| Health.UpdateHealth | src/utils/healthCheck.ts:117-127 | only the named provider's entry changes, by the patch |
| Health.UpdateHealthEmpty | src/utils/healthCheck.ts:117-127 | an empty patch changes nothing |
| Health.UpdateHealthIdempotent | src/utils/healthCheck.ts:117-127 | the same patch twice is the patch once |
| Health.UpdatesCommute | src/utils/healthCheck.ts:62-110 | patches to different providers commute, so the concurrent probes may finish in any order |
| Health.Classify | src/utils/healthCheck.ts:78-81 | ok under 1000 ms is operational, ok at 1000 ms or more is degraded, not ok is down (each an iff) |
| Health.ProbePatch | src/utils/healthCheck.ts:83-88 | a probe records its latency and finish time. A response records its classification, and an error "HTTP status" when not ok. A thrown probe records down with its message or "Unknown error". |
| Health.ProbeNotice | src/utils/healthCheck.ts:91-109 | no notice exactly for an operational response. A slow one gets a warning, a failing one an error, and a thrown probe an error with its message. |
| Health.ServicesToCheck | src/utils/healthCheck.ts:60 | a check probes only the named service when one is given and every provider otherwise, and no provider is probed twice |
| Health.ApplyProbesPatches | src/utils/healthCheck.ts:62-110 | each probed provider ends patched with its own probe |
| Health.CheckHealth | src/utils/healthCheck.ts:57-115 | `isChecking` is false when done, and providers not checked are untouched |
| Health.CheckHealthOutcome | src/utils/healthCheck.ts:62-110 | a checked provider ends with its probe's latency, time and status (down when the probe threw) |
| Health.Fastest | src/utils/healthCheck.ts:131-145 | the chosen provider has the status and no provider of that status is faster. Nothing is chosen when none has it. |
| Health.FastestFirstOfTies | src/utils/healthCheck.ts:131-145 | among equally fast providers the first in table order wins, as the stable sort makes it |
| Health.GetPreferredService | src/utils/healthCheck.ts:129-149 | operational if any provider is. Otherwise degraded if any is. Otherwise the configured provider. |
| Health.PreferredIsFastest | src/utils/healthCheck.ts:129-149 | the preferred provider is the fastest of its class |
| Health.UnhealthyOnlyAsFallback | src/utils/healthCheck.ts:131-148 | an unknown or down provider is returned only as the configured fallback |
| Health.InitialPrefersConfigured | src/utils/healthCheck.ts:32-51 | before any probe the configured provider is preferred |
| Health.AvoidAfterProbe | src/utils/healthCheck.ts:169-173 | right after a probe, a provider is to be avoided exactly when the probe failed or took over 5000 ms |
| Health.ShouldAvoidService | src/utils/healthCheck.ts:169-173 | a down provider is avoided, a degraded one exactly when slower than 5000 ms, and an operational or unknown one never |
| Health.PreferredAvoidedOnlyWithoutOperational | src/utils/healthCheck.ts:129-173 | the preferred provider is one to avoid only when no provider is operational |
| Queue.AddItem | src/utils/queue.ts:45-61 | one `queued` item is appended and the old items are untouched. Processing is started exactly when it was not running. |
| Queue.AddItemCounts | src/utils/queue.ts:45-55 | the queued count goes up by one and the other counts stay |
| Queue.AddItemKeepsIdsUnique | src/utils/queue.ts:38-55 | adding an item whose id is not yet in the list keeps the ids distinct, which the drain relies on |
| Queue.RemoveItem | src/utils/queue.ts:63-67 | the items kept are exactly those with another id |
| Queue.RemoveItemKeepsOrder | src/utils/queue.ts:63-67 | removal keeps the survivors in order |
| Queue.ClearQueue | src/utils/queue.ts:69-73 | exactly the `processing` items survive |
| Queue.ClearQueueCounts | src/utils/queue.ts:69-73 | after clearing, nothing is queued, completed or failed, the processing count is unchanged, and clearing again changes nothing |
| Queue.GetQueueStatus | src/utils/queue.ts:165-174 | `total` is the number of items and the sum of the four status counts |
| Queue.StatusPartition | src/utils/queue.ts:165-174 | the four status counts add up to the length |
| Queue.FirstQueued | src/utils/queue.ts:86 | the first queued item in list order, or none when nothing is queued |
| Queue.MapByUniqueId | src/utils/queue.ts:92-95 | with distinct ids the `map` rewrites one item only |
| Queue.DrainStep | src/utils/queue.ts:83-158 | the loop exits exactly when nothing is queued, and a step keeps the list length |
| Queue.DrainStepChangesOnlyNext | src/utils/queue.ts:86-150 | a step changes only the first queued item. It ends `completed` with the result, or `error` with the message, and both times are recorded. |
| Queue.DrainStepShrinksQueue | src/utils/queue.ts:83-158 | each step takes exactly one item out of `queued` and keeps ids distinct |
| Queue.Drained | src/utils/queue.ts:89-150 | a queued item after its pass `p` (the number of queued items before it): `startedAt` is the clock at reading `2p` and `completedAt` at reading `2p + 1`. A successful transcription gives `completed` with the result; a failure gives `error` with the message. Id, file and `addedAt` are kept. |
| Queue.DrainAdvances | src/utils/queue.ts:84-157 | with the queued items before position `m` drained, the next pass drains the first queued item at or after `m`, moves to the next pass number, and adds that item's notification |
| Queue.DrainStepAt | src/utils/queue.ts:86-157 | the drain step at the clock readings of the current pass is exactly that drain of the next queued item, with its success or error notification |
| Queue.DrainEnds | src/utils/queue.ts:86-87 | when no item is queued the loop has drained every originally queued item and sent every notification |
| Queue.WaitingIsFilter | src/utils/queue.ts:86 | the items the loop takes, in the order it takes them, are the queued items in list order |
| Queue.DrainAll | src/utils/queue.ts:84-159 | the loop ends with nothing queued. Every originally queued item is `Drained` at its own pass, every other item is unchanged, and the notifications are one per queued item, in list order. |
| Queue.ProcessQueue | src/utils/queue.ts:75-163 | a call while processing does nothing. Otherwise each formerly queued item ends `completed` with its result or `error` with its message, at its pass's clock readings. Every other item is unchanged, nothing stays queued, and `isProcessing` is false. The notifications are exactly one per formerly queued item, in list order: "Transcription completed: name" or "Failed to transcribe name: message". |
| Queue.AsWrittenNeverDrains | src/utils/queue.ts:76-86 | with the snapshot, every pass re-selects the same item (see Findings) |
| Queue.AsWrittenCounterexample | src/utils/queue.ts:76-86 | one queued item is transcribed three times in three passes as written, but drained in one step when the current list is used |
| Progress.Initialize | src/utils/progress.ts:30-39 | both statuses become `processing` with progress 0, no error, and the file name in the message |
| Progress.InitializeUsesOnlyName | src/utils/progress.ts:30-39 | the result depends on the file name alone: size, chunk count and provider are ignored |
| Progress.Reset | src/utils/progress.ts:42-47 | back to `idle`, progress 0, no message, no error |
| Progress.ResetIdempotent | src/utils/progress.ts:26-47 | reset equals the initial state, and resetting twice is resetting once |
| Progress.Merge | src/utils/progress.ts:50-54 | the supplied fields of the update overwrite, the others stay |
| Progress.UpdateCurrentChunk | src/utils/progress.ts:50-54 | only `currentChunk` changes, by the merge |
| Progress.UpdateCurrentChunkLaws | src/utils/progress.ts:50-54 | an empty update changes nothing, and the same update twice is the update once |
| Progress.UpdateChunk | src/utils/progress.ts:57-61 | only `currentChunk` changes, by the merge |
| Progress.UpdateChunkIgnoresIndex | src/utils/progress.ts:57-61 | `updateChunk(i, u)` is `updateCurrentChunk(u)` for every index |
| Progress.SetStatus | src/utils/progress.ts:64-69 | both statuses and the error are set, and progress and message stay |
| Progress.SetStatusIsUpdate | src/utils/progress.ts:64-69 | `setStatus` is a chunk update of status and error plus the top-level status |
| LocalModel.InitializeLocalModel | src/utils/localModel.ts:45-72 | it passes through `downloading` first and never `initializing`, then reaches `ready` exactly on success. The factory is called only when the model is not cached. The cache gains the model only on a successful load. A failure leaves the cache and reports "Failed to initialize local model". |
| LocalModel.InitializeTwiceLoadsOnce | src/utils/localModel.ts:45-72 | a second initialisation of the same model calls no factory and succeeds |
| LocalModel.RunLocalTranscription | src/utils/localModel.ts:77-103 | an uncached model fails. Success is exactly a cached model whose run returned chunks, giving its text and one timestamp per chunk (time `timestamp[0]`, text unchanged). Every failure reads "Failed to transcribe audio using local model". |
| LocalModel.RunAfterInitialize | src/utils/localModel.ts:45-103 | after a successful initialisation, a run fails only when the pipeline throws or returns no chunks |
| LocalModel.RunBeforeInitializeFails | src/utils/localModel.ts:77-85 | from the initial state every run fails |
| ApiKeys.GetStoredKeys | src/store/apiKeyStore.ts:26-47 | a user key beats the build-time key of the same provider. A missing entry gives the build-time keys, and unparseable JSON gives no keys. |
| ApiKeys.StoreKeys | src/store/apiKeyStore.ts:49-60 | exactly the non-empty keys that differ from the provider's build-time key are written, unchanged |
| ApiKeys.StoreThenGet | src/store/apiKeyStore.ts:26-60 | storing and reading back returns every non-empty key |
| ApiKeys.EnvKeysNotStored | src/store/apiKeyStore.ts:49-60 | a build-time key is never copied into storage |
| ApiKeys.ValidateApiKey | src/store/apiKeyStore.ts:62-101 | Hugging Face is valid on 200 or 401, the others on a 2xx, and a thrown fetch is invalid (each an iff) |
| ApiKeys.ValidationRulesDiffer | src/store/apiKeyStore.ts:62-101 | the rules differ exactly on 401 and on the 2xx codes other than 200, and Groq and OpenAI agree |
| ApiKeys.InitialKeys | src/store/apiKeyStore.ts:104-109 | no key and Groq selected |
| ApiKeys.SetApiKey | src/store/apiKeyStore.ts:111-154 | a valid key is installed and validated and stored unless it equals the build-time key. An invalid key clears key and validation and leaves storage. Either way validation ends, and an info notice is followed by success or error. |
| ApiKeys.ValidKeyIsRemembered | src/store/apiKeyStore.ts:111-154 | a validated user key is read back from storage for its provider |
| ApiKeys.EnvKeyLeavesStoredKey | src/store/apiKeyStore.ts:123-131 | accepting the build-time key writes nothing, so an older stored user key still wins on the next read |
| ApiKeys.SwitchProvider | src/store/apiKeyStore.ts:156-165 | the provider switches and the remembered key is installed as validated, or none |
| ApiKeys.SetProvider | src/store/apiKeyStore.ts:156-176 | after switching, a remembered key is re-validated through `setApiKey`. Without one the switch is all. |
| ApiKeys.ClearApiKey | src/store/apiKeyStore.ts:178-197 | no effect when the key is missing or the build-time one. Otherwise the stored key is removed and the build-time key (or none) takes its place, validated exactly when present. |
| ApiKeys.ClearForgetsUserKey | src/store/apiKeyStore.ts:178-197 | after clearing, storage yields the build-time key or none |
| ApiKeys.ClearIdempotent | src/store/apiKeyStore.ts:178-197 | clearing twice is clearing once |
| ApiKeys.InitializeFromStorage | src/store/apiKeyStore.ts:199-208 | without a remembered key nothing changes and nothing is posted. Otherwise `setApiKey` runs on it with its notices: a valid answer installs it validated, an invalid one clears key and validation. The provider stays, and the remembered key is still read back. |
| ApiKeys.InitializeIdempotent | src/store/apiKeyStore.ts:199-208 | initialising a second time, with the same validation answer, changes nothing more |
| ApiKeys.RestoreSame | src/store/apiKeyStore.ts:26-60 | writing back what was just read, with one key set to the value it had, writes the same entry |
| Offline.InitialOffline | src/store/offlineStore.ts:22-26 | all three flags are false and progress is 0 |
| Offline.SetOfflineMode | src/store/offlineStore.ts:28-36 | sets the flag and changes no other field. The cache message is posted exactly when enabling with a service worker. |
| Offline.SetPWAInstalled | src/store/offlineStore.ts:38 | changes only its own field |
| Offline.SetModelDownloaded | src/store/offlineStore.ts:40 | changes only its own field |
| Offline.SetDownloadProgress | src/store/offlineStore.ts:42 | changes only its own field |
| Offline.SettersCommute | src/store/offlineStore.ts:38-42 | the setters can be applied in either order |
| Offline.OfflineModeCommutes | src/store/offlineStore.ts:28-42 | the offline switch commutes with each of the other setters, and switching twice to the same value is switching once |
| Offline.CheckPWAStatus | src/store/offlineStore.ts:44-49 | installed exactly when standalone or opened from an Android app, and nothing else changes |
| Offline.SyncModelState | src/store/offlineStore.ts:51-57 | `ready` gives (true, 100) and any other state (false, 0). The other fields stay. |
| Offline.SyncModelStateLaws | src/store/offlineStore.ts:51-57 | syncing twice is syncing once, and a sync overrides any progress set by hand |
| Offline.Partialize | src/store/offlineStore.ts:61-66 | the four persisted fields are copied |
| Offline.PartializeIgnoresSupport | src/store/offlineStore.ts:61-66 | browser support is not persisted |
| Offline.Rehydrate | src/store/offlineStore.ts:67-73 | the offline switch is restored and browser support is re-probed |
| Offline.RehydrateRecomputes | src/store/offlineStore.ts:61-73 | after a restart only the offline switch keeps its saved value. The other fields are recomputed. |
| Notifications.Add | src/store/notificationStore.ts:14-24 | one entry with the fresh id and time goes in front, and the older ones follow in order |
| Notifications.Remove | src/store/notificationStore.ts:26-29 | exactly the entries with another id remain |
| Notifications.RemoveAbsent | src/store/notificationStore.ts:26-29 | removing an unknown id changes nothing |
| Notifications.RemoveUndoesAdd | src/store/notificationStore.ts:14-29 | removing a just-added notification restores the list |
| Notifications.RemoveKeepsOrder | src/store/notificationStore.ts:26-29 | survivors keep their order |
| Notifications.ClearAll | src/store/notificationStore.ts:31 | the list is empty, so no old notification survives |
| Notifications.ClearAllForgets | src/store/notificationStore.ts:14-31 | an add or a removal just before a clear makes no difference, and removing from a cleared list keeps it cleared |
| History.AddTranscription | src/store/transcriptionStore.ts:51-56 | after the database write the record goes in front, and a failed write leaves the list |
| History.RemoveTranscription | src/store/transcriptionStore.ts:58-63 | after the delete exactly the records with another id remain, and a failed delete leaves the list |
| History.RemoveKeepsOrder | src/store/transcriptionStore.ts:58-63 | survivors keep their order |
| History.RemoveUndoesAdd | src/store/transcriptionStore.ts:51-63 | removing a just-added record with a fresh id restores the list |
| History.ImportData | src/store/transcriptionStore.ts:36-44 | the list is replaced wholesale only when `transcriptions` is present, and otherwise nothing happens |
| History.ImportIdempotent | src/store/transcriptionStore.ts:36-44 | importing twice is importing once |
| History.ResetData | src/store/transcriptionStore.ts:46-49 | the list becomes empty after the database is cleared |
| History.LoadTranscriptions | src/store/transcriptionStore.ts:67-70 | the list becomes the database contents. Before the database is opened the read is rejected. |
| Db.PerformTransaction | src/db/index.ts:79-101 | before `init` every operation rejects with "Database not initialized", and afterwards it runs on the records |
| Db.GetStats | src/db/index.ts:65-77 | the total is the record count and the duration is the sum of durations. Completed-today never exceeds the total. Before `init` it rejects. |
| Db.SumDurationsAppend | src/db/index.ts:72 | the total duration adds up over a split of the records |
| Db.UncountedRecordsDoNotCount | src/db/index.ts:73-75 | a failed record or one before today adds to the total and duration but not to completed-today |
| Db.CompletedTodayCounts | src/db/index.ts:73-75 | a completed record dated today raises completed-today by one |
| Formatters.FormatDuration | src/utils/formatters.ts:6-19 | zero is written "0s", and for whole non-negative seconds reading the `Nh Nm Ns` text back gives the number |
| Formatters.PositiveRoundTrip | src/utils/formatters.ts:9-18 | the pieces of a positive whole number of seconds, joined by spaces, read back as that number |
| Formatters.PiecesValue | src/utils/formatters.ts:13-16 | the pieces written are worth hours·3600 + minutes·60 + seconds |
| Formatters.PiecesWithoutSpaces | src/utils/formatters.ts:13-18 | no piece contains the separator |
| Formatters.WholeComponents | src/utils/formatters.ts:9-11 | for whole seconds the three components are `n/3600`, `(n mod 3600)/60` and `n mod 60` |
| Formatters.ZeroDuration | src/utils/formatters.ts:7 | zero is written "0s" |
| Formatters.HourExample | src/utils/formatters.ts:13-18 | 3600 is written "1h" |
| Formatters.MixedExample | src/utils/formatters.ts:4-18 | 9015 is written "2h 30m 15s" |
| Formatters.ClockFields | src/utils/formatters.ts:27-30 | hours below 24, minutes and seconds below 60 |
| Formatters.Pad2Digits | src/utils/formatters.ts:28-30 | a field below 100 is two digits with its value |
| Formatters.ClockText | src/utils/formatters.ts:31 | `HH:MM:SS`, each field's digits having that field's value |
| Formatters.FormatTimestamp | src/utils/formatters.ts:26-32 | a valid date gives `HH:MM:SS` with hours below 24 and minutes and seconds below 60. An invalid date gives "NaN:NaN:NaN". |
| Formatters.TimestampRoundTrip | src/utils/formatters.ts:26-32 | within a day, reading `HH:MM:SS` back gives the seconds |
| Formatters.TimestampWrapsDaily | src/utils/formatters.ts:26-32 | times a day apart format the same: the hour wraps modulo 24 |
| Formatters.DivideThousands | src/utils/formatters.ts:27-30 | within a day the UTC fields of whole seconds are hours, minutes of the hour and seconds of the minute |
| Formatters.TimestampExample | src/utils/formatters.ts:24-31 | 9015 is written "02:30:15" |
| Cn.KeptClasses | src/utils/cn.ts:3 | the kept classes are non-empty, every truthy argument is among them, and they come only from the arguments |
| Cn.KeptAppend | src/utils/cn.ts:3 | the kept classes keep the arguments' order |
| Cn.ClassNames | src/utils/cn.ts:2-4 | all-falsy arguments give "". The length is the kept classes plus one space between each pair. |
| Cn.SingleClass | src/utils/cn.ts:2-4 | a lone non-empty class comes back unchanged |
| Cn.FalsyIgnored | src/utils/cn.ts:3 | a falsy argument anywhere changes nothing |
| Cn.SplitRecoversClasses | src/utils/cn.ts:2-4 | splitting the result on spaces gives the kept classes back, in order, when none contains a space |
| Upload.HandleFileSelect | src/components/Transcribe.tsx:23-51 | no file does nothing. A file is enqueued exactly when it is audio and at most 100 MiB, followed by an info notice. A rejected file gives one error notice, "not audio" when the type is wrong and "too large" otherwise. |
| Upload.SingleFileEffects | src/components/Transcribe.tsx:23-51 | one file queues itself when acceptable and nothing otherwise, with exactly one notice |
| Upload.HandleFiles | src/components/Transcribe.tsx:63-77 | over a dropped or chosen list, exactly the acceptable files are queued, each once, in order, and every file produces exactly one notice |
| Upload.SizeLimitInclusive | src/components/Transcribe.tsx:36 | exactly 100 MiB is accepted and one byte more is not |
| Upload.TypeCheckedFirst | src/components/Transcribe.tsx:27-42 | a file that fails both checks is reported as not audio |

## Left out

- Network I/O: the `fetch` calls of `performTranscription`, `validateApiKey` and `checkHealth` are inputs (status, parsed body, latency, finish time).
- Timers: the waits of both retry loops, the five-second probe abort, the five-minute health interval and the five-minute queue clean-up (src/utils/queue.ts:132-136). The waits are returned as lists instead, next to the notices posted before them.
- Floating point: JavaScript numbers are `real` (exact) or `int`. `NaN` is not represented. `formatTimestamp` takes an out-of-range date as "NaN:NaN:NaN".
- Transcription.ChunkOffset: the offset `i·(MAX_CHUNK_SIZE/file.size)·file.size` is taken as the exact `i·MaxChunkSize`. That is a byte count used as seconds, as in the source. Floating-point rounding of the quotient is not modelled.
- Text.ToLower and Text.Trim: lower-casing covers ASCII letters only, and trimming covers ASCII and a few Unicode spaces. JavaScript's full Unicode tables are not modelled.
- Cache.AddItem: requires `maxItems > 0`. The store never changes the bound from 100. With a bound of 0 and an empty cache, the source's `[0][0]` would throw.
- The `crypto.subtle.digest` hash, `crypto.randomUUID`, `Date.now()`, `Math.random()` and the `@xenova/transformers` pipeline are parameters.
- `createRetryWrapper` (src/utils/retry.ts:82-89) is a one-line closure over `withRetry` and is left out.
- The zustand `persist` mechanics and the storage back ends are left out. The API key entry in session storage is part of the key state. The persisted subset of the offline store is modelled by `Offline.Partialize`.
- IndexedDB: `store.add`, `delete`, `getAll` and `clear` belong to the browser. The database is its list of records, and `init` only moves it from not-initialised to opened.
- `exportData` (src/store/transcriptionStore.ts:19-34) builds a file download and is left out.
- Notification ordering across the concurrent probes of `checkHealth` is fixed to table order. `Health.UpdatesCommute` shows the table itself does not depend on it.
- The `warning` notification kind sent by the health monitor is outside the declared `Notification` type. It is kept as a fourth kind.
- The model download progress events and `modelStateChange` events of src/utils/localModel.ts are left out. The sequence of states is returned instead.
- src/store/offlineStore.ts:3 imports `checkBrowserSupport`, which src/utils/localModel.ts does not define. Browser support is therefore an input of the offline store.
- The queue's call into the history store after a completed item is left out. Queue and history are modelled separately.
- Queue.ProcessQueue: requires the queued ids to be distinct. `createId` (src/utils/queue.ts:38) joins `Date.now()` with nine random base-36 characters, so a clash is unlikely but not ruled out. With two equal ids the `map` at src/utils/queue.ts:89-95 rewrites both items in one pass, and the model does not describe that run. `Queue.AddItemKeepsIdsUnique` shows that adding a fresh id keeps the ids distinct.
- ApiKeys.EnvKeyLeavesStoredKey: this states the source's behaviour as written. Accepting the build-time key does not overwrite an older stored user key, so that key wins on the next read.
- The React components other than the upload validator, the service workers and the build tooling are left out.

## Findings

| source | as written | input that shows it | evidently intended | confidence | as-written member | corrected member |
|---|---|---|---|---|---|---|
| src/utils/queue.ts:76-86 | `processQueue` takes `get()` once before the loop and selects the next queued item from that snapshot on every pass, while the updates go to the live list. | One queued item: after the first pass it is `completed` in the store, but the snapshot still shows it `queued`, so every pass transcribes it again and the loop never exits. | Each pass selects the first queued item of the current list, so each item is transcribed once and the loop ends when nothing is queued. | not executed | Queue.AsWrittenCounterexample | Queue.ProcessQueue |
