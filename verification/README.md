# Verified models of Fumox

Fumox collects proxy lists, stores them, health-checks them and serves cached renderings. This
project models its stateful cores in Dafny and proves what they promise, over every input, every
run or every interleaving. Code that changes state is modelled as classes, loops and state
machines; code that computes is modelled as functions.

`dafny verify dfyconfig.toml` checks everything.

| file | what it models |
|---|---|
| `Prelude`, `Schemes`, `ClaimSets` | shared vocabulary; a claim set whose guards release at once or later |
| `CacheProtocol`, `CacheProofs`, `CacheTheorems`, `CacheTraces`, `Caches` | the generation-guarded processed cache: interleaving machine, invariant, theorems, counterexample runs, and the cache layer itself |
| `ProxyRows`, `ProbeEffects`, `ProbeCycle`, `ProbeTheorems`, `ProbeDaemon` | row transitions, what each verdict does to a row field by field, the five passes of a probe cycle, run-level theorems, and the daemon's lanes and tunnel batch |
| `EngineGuard`, `EngineBackoff` | the mid-batch abort guard, the engine backoff, one delay check with retries |
| `Escaping`, `Spelling`, `Fingerprint` | the pre-image of the deduplication fingerprint, and which spellings of a feed mean the same |
| `AddressPolicy`, `AddressPick` | address vetting, the per-host cap, and the three readers of one resolver answer |
| `Fetcher` | retries around redirects around a capped body |
| `Scheduler`, `SchedulerProtocol` | when a source is due; sweeps, refreshes, in-flight marks and permits |
| `ConfigTree`, `ConfigEditor` | reading and writing the settings document; sessions on the file |
| `HostReject` | the warn registry of the export's host gate |
| `GeoBackfill` | the cursor loop over rows missing geo facts |

## What the proofs found

Properties that are false as one would first state them, with the exact condition under which
they hold.

1. Cached entries are scanned before inline claims, as two accesses
   (`crates/fumox-server/src/cache.rs:219-239`). A leader that stores and leaves between the two
   keeps a pre-change entry for a whole freshness window. `CacheTraces.ScanOrderDecides`: with
   everything else in order, that scan order is the only unsafe one; one atomic scan, or claims
   first, is safe. For the order as written the cache is coherent exactly when, besides the
   obligations below, no inline claim that names the source is dropped between the two accesses
   unless the first has found its key (`ClaimOutlivesScan` in `CacheTraces.ObligationsAreExact`).
2. Whatever the scan, the cache needs three obligations of its callers, each of them
   (`CacheTraces.ObligationsAreExact`): an inline claim covers the sources of its rendering, a
   revalidation reads its generation while an entry is present that nobody is about to remove, and
   a change of one source's rows leaves the named sources of every key alone. The callers miss
   them at the edges: the claim's sources are looked up before the claim
   (`crates/fumox-server/src/serve.rs:645-650`), and a profile's entry names only its enabled
   members, so enabling a source is not seen. A caller can check that an entry is present, but not
   that nobody is about to remove it: that half is a condition on the run.
3. The engine backoff caps the next wait and never the first, so the waits are
   `min(initial * 2^k, max)` throughout if and only if `initial <= max`
   (`EngineBackoff.WaitsAreCappedDoublings`).
4. The rules labelled 192.0.0.0/24 and 192.0.2.0/24 compare two octets and refuse all of
   192.0.0.0/16 and 192.2.0.0/16 (`AddressPolicy.RefusedBlocksAreExact`).
5. Two truthy spellings of the insecure toggle count as two pairs, although the comment at
   `crates/fumox-core/src/fingerprint.rs:199-208` promises a single flag. Replacing the toggles of
   an entry by a single one that is on leaves its fingerprint's pre-image alone if and only if
   exactly one of them is on (`Fingerprint.OneFlagIffOneIsOn`).
6. The registry of the host gate is documented to emit at most 64 warns per window
   (`crates/fumox-server/src/alive_export.rs:117-120`), but a warn about a host it already tracks
   is not counted. At every point of every run, the least bound on the warns of the window that
   opens next is 64 plus the hosts tracked then (`HostReject.NextWindowBound`). So 64 is kept if and
   only if nothing is tracked as the window opens, which is the case for the first window only
   (`HostReject.SixtyFourIffNothingTracked`); the largest number any window can have, 1088, occurs
   (`HostReject.BoundIsAttained`).
7. A cycle charges a row once only if nobody starts it over in between: the server is another
   process, and a reset between two lanes lets one row take a ladder step and a counter step in
   one cycle. That is possible exactly for rows due for a ladder check whose scheme is neither tuic
   nor mieru (`ProbeTheorems.ChargedTwiceIffDue`); each of the two is still taken at most once
   (`ProbeTheorems.OneChargePerCycle`).
8. The fetch skips its request when the row is fresh, as "the second, row-fresh guard" after the
   sweep's check (`crates/fumox-server/src/ingest.rs:99-109`), but the row is the one the sweep
   read. A source nobody forces is left alone for its interval after every success in every run
   (`SchedulerProtocol.IntervalIsKept`); with one forced refresh between a sweep's decision and its
   task the source is fetched twice within it (`SchedulerProtocol.RefreshIsNotNoticed`).

## Model

| member | source | states |
|---|---|---|
| CacheTheorems.QuiescentEntriesAreCurrent | crates/fumox-server/src/cache.rs:165-244 | For every scan, in every interleaving of renders, revalidations, invalidations and commits that meets what the scan needs, once no invalidation and no put is outstanding, every cached entry shows the present composition and the present rows of every source it names. |
| CacheTheorems.OldRenderingIsDoomed | crates/fumox-server/src/cache.rs:165-183 | When every invalidation of a source has gone past a key, an older rendering naming that source can only sit there under a put between its insert and its second check that is bound to remove it. |
| CacheTheorems.DoomedPutRemoves | crates/fumox-server/src/cache.rs:176-189 | A put that lost its generation stays lost in every continuation of every run: the generation never comes back, no step of another task takes it on or spares it, its own next step is always possible, and its third own step empties its key. |
| CacheTheorems.GenerationCountsBumps | crates/fumox-server/src/cache.rs:193-209 | In every run a key's generation grows by exactly the number of its completed bumps, whoever made them. |
| CacheTheorems.CheckPassesIffNoBump | crates/fumox-server/src/cache.rs:171-173 | A put passes its first check if and only if no bump of its key completed since its claim read the generation. |
| CacheTheorems.InvalidationIsNarrow | crates/fumox-server/src/cache.rs:218-244 | In every run an invalidation never bumps a key that none of its accesses found naming its source: neither its entry when the entries were scanned nor its claim when the claims were, in one access or two, in any order, however long its removals take. |
| CacheTheorems.EveryClaimHasOneOwner | crates/fumox-server/src/cache.rs:260-408 | In every reachable state, for any callers, each claimed key has exactly one owner: a live guard or one deferred removal. |
| CacheTheorems.DeferredRemovalHitsItsOwnClaim | crates/fumox-server/src/cache.rs:358-408 | A deferred removal never clears the claim of a newer holder. |
| CacheProofs.CoherentRun | crates/fumox-server/src/cache.rs:165-318 | The coherence invariant holds along every run that meets the obligations its scan needs, for all three scans. |
| CacheTraces.ScanOrderDecides | crates/fumox-server/src/cache.rs:219-239 | Under the three obligations of the callers a stale entry can survive at rest if and only if entries are scanned before claims as two accesses. |
| CacheTraces.ObligationsAreExact | crates/fumox-server/src/cache.rs:218-318 | For every scan no stale entry survives if and only if all obligations that scan needs are kept: the three of the callers, and for entries scanned first that no claim slips between the two accesses; dropping any one admits a concrete stale run. |
| CacheTraces.EntryAboutToGoDoesNotAnchor | crates/fumox-server/src/cache.rs:260-273 | Under any scan a revalidation claimed while the entry is present but already bumped for removal can store a stale entry: presence alone is not enough. |
| CacheLayer.Caches.BumpGeneration | crates/fumox-server/src/cache.rs:204-209 | Raises one key's generation by one and touches nothing else. |
| CacheLayer.Caches.ProcessedPutGuarded | crates/fumox-server/src/cache.rs:165-183 | Stores exactly when the generation matched and no bump arrived before the second check; otherwise the key ends up empty and superseded once more. |
| CacheLayer.Caches.InvalidateProcessedForSource | crates/fumox-server/src/cache.rs:218-244 | Afterwards exactly those entries are left, unchanged, that do not name the source and whose key has no inline claim naming it; a key's generation grows by one for a named entry and by one for a naming claim. On the state of the interleavings the call is the scan and the removals of that invalidation, a legal run for every scan, so the coherence invariant is kept. |
| CacheLayer.Caches.BeginInlineRender | crates/fumox-server/src/cache.rs:299-318 | On the state of the interleavings the call performs the claim and the generation read of its task, after which that task is the one leader of the key and ownership still holds; it returns nothing exactly when another task leads, and then changes nothing. |
| CacheLayer.Caches.TryStartRevalidate | crates/fumox-server/src/cache.rs:260-273 | The same for the background revalidation: claim, generation read, one revalidation per key, ownership kept. |
| CacheLayer.DrainAgreesWithLoop | crates/fumox-server/src/cache.rs:240-243 | Uninterrupted, the interleaving machine's bump-and-remove steps have the effect of the cache layer's loop, whatever the scan. |
| BumpLock.LockedBumpsAllCount | crates/fumox-server/src/cache.rs:204-209 | Under the lock, any interleaving of any bumpers loses no bump. |
| BumpLock.UnlockedBumpIsLost | crates/fumox-server/src/cache.rs:199-203 | Without the lock two bumps of one key can raise its generation by one only. |
| ProbeTheorems.OneChargePerCycle | crates/fumox-probe/src/main.rs:213-256 | For any lane selections and outcomes, and whatever the rest of the program does to the row within and between the lanes, a cycle puts at most one step on its fail counter and at most one on its ladder, both only if an edit took it from quarantine or removal back to unknown in between; the counter grows by no more than its steps, and a row new in quarantine got there by a step that brought it to the limit. |
| ProbeTheorems.AtMostOneCharge | crates/fumox-probe/src/main.rs:240-393 | Undisturbed, one proxy takes at most one charge along its five passes, on the counter or on the ladder and never both, and its row shows exactly the charge it got. |
| ProbeTheorems.ResetBetweenLanesChargesTwice | crates/fumox-core/src/repo/proxies.rs:1048-1052 | Every row that is due for a ladder check and whose scheme a regular lane takes has a cycle, with a reset in the middle, that charges it on the ladder and on the counter. |
| ProbeTheorems.ChargedTwiceIffDue | crates/fumox-probe/src/main.rs:213-256 | Those are all: a cycle among other writers can charge a row twice if and only if the row is due at its start and its scheme is neither tuic nor mieru. |
| ProxyRows.EditedShape | crates/fumox-core/src/repo/proxies.rs:1048-1534 | Any number of edits by the rest of the program (reset, revival, retirement, relinking, journal retention) leave a row's lifecycle alone, start it over or end it; none raises the counter, quarantines a row or promotes it. |
| ProxyRows.EditEffect | crates/fumox-core/src/repo/proxies.rs:1048-1534 | What each of those edits leaves of the row's fields: clean and unknown, removed with counter and block kept, or nothing but the link or the journal changed. |
| ProxyRows.EditRules | crates/fumox-core/src/repo/proxies.rs:1048-1534 | Which rows each of them takes. |
| ProbeTheorems.DaemonCycleIsATurn | crates/fumox-probe/src/main.rs:240-256 | A cycle of the daemon among writers that edit a row at will is a turn of the runs the theorems are about, and an undisturbed one when nobody else writes. |
| ProbeTheorems.QuarantineTakesFailLimitCycles | crates/fumox-probe/src/main.rs:213-256 | In every run of cycles and edits by the rest of the program, between cycles and in the middle of one, a proxy with a clean counter is not quarantined before `max(1, fail_limit)` cycles. |
| ProbeTheorems.FailLimitIsExact | crates/fumox-core/src/repo/proxies.rs:2018-2110 | Failing every check, it is quarantined by exactly the `max(1, fail_limit)`-th failure. |
| ProbeTheorems.ReadyMeansVerified | crates/fumox-probe/src/main.rs:1240-1289 | Over every such run `ready` implies that the newest tunnel attempt succeeded (or, where old journal rows are pruned, that none is left). |
| ProbeTheorems.EngineFaultsAreNotCharged | crates/fumox-probe/src/main.rs:1409-1444 | A run whose only failures are engine faults never raises the counter, never moves the ladder or its due time, and neither quarantines nor removes; without a success it leaves all of them exactly alone. |
| ProbeTheorems.TunnelVerdictsOwnTheBlock | crates/fumox-core/src/repo/proxies.rs:1942-2154 | The block on direct checks is set by exactly the unsuccessful verdicts of the tunnel batch and lifted by exactly a tunnel success. |
| ProbeTheorems.TunnelFailureOutweighsDirectChecks | crates/fumox-probe/src/main.rs:502-513 | Over every run, from a failed or unanswered tunnel attempt until the tunnel answers or the ladder revives the proxy, no queue or sample check judges it and its counter is never lowered. |
| ProbeTheorems.QuarantineStartsTheWalk | crates/fumox-core/src/repo/proxies.rs:2018-2110 | Every undisturbed cycle that takes a row into quarantine leaves it on the first rung, with the second chance at least the configured minimum away: the premise of the walk. |
| ProbeTheorems.LadderWalk | crates/fumox-probe/src/main.rs:657-970 | Over a run of cycles without a success, `n` failed rechecks leave a proxy at step `n`, due no earlier than quarantine time, minimum second chance and the delays walked; the one after the last delay removes it, no earlier than all of them. |
| ProbeTheorems.RemovedExactlyAfterLastStep | crates/fumox-core/src/repo/proxies.rs:2165-2214 | With `n` configured delays a proxy is removed if and only if `n + 1` rechecks have failed, and `n + 1 - step` counts the ones it has left. |
| ProbeTheorems.SuccessResetsTheWalk | crates/fumox-core/src/repo/proxies.rs:1942-1985 | A successful recheck clears ladder and counter, and a quarantine later in the same cycle starts from the first step. |
| ProbeCycle.TaskOrderIsImmaterial | crates/fumox-probe/src/main.rs:327-393 | The verdicts of one lane may land in any order: the pool ends up the same. |
| ProbeCycle.LaneMovesEachRowOnce | crates/fumox-probe/src/main.rs:327-393 | A lane moves each row by that row's own verdict alone, and rows without one not at all. |
| ProbeCycle.CycleMovesRow | crates/fumox-probe/src/main.rs:240-256 | A cycle moves each proxy along five legal passes, and the hand-offs keep the queue from the sample and the sample from the tunnel batch. |
| ProbeEffects.TunnelVerdictEffect | crates/fumox-core/src/repo/proxies.rs:1942-2214 | What the three verdicts of a tunnel lane do to a row, field by field: passed is ready, counter, block and ladder cleared; failed is one step on the counter and the block, or one on the ladder, with quarantine and removal at their ends; an engine fault costs `ready` and blocks direct checks. |
| ProbeEffects.DirectVerdictEffect | crates/fumox-core/src/repo/proxies.rs:1942-2214 | The same for direct checks: a success keeps `ready` and the block, and forgives the counter only on a recheck or when the newest failure did not go through the tunnel. |
| ProbeEffects.SelectorsByRow | crates/fumox-core/src/repo/proxies.rs:1766-1940 | Which lanes may take a row, read off its status, scheme, block, link and due time: a partition by row that agrees with the five selectors. |
| ProbeDaemon.Daemon.RunT1Checks | crates/fumox-probe/src/main.rs:327-393 | Refused rows fail at once and the rest run as tasks in any order; every row with an address passes if and only if its host is vetted and the connect succeeds, with the effect on its fields spelled out, no other row changes, and the lane reports exactly the rows it judged. |
| ProbeDaemon.Daemon.ReviveQuarantined | crates/fumox-probe/src/main.rs:657-780 | Within the backoff nothing happens. Outside it every due row passes if and only if it is vetted, in the config, and the engine is up and answers; a refused row, one outside the config and one whose tunnel failed take a ladder step; an engine that does not answer charges none. The engine's next retry time is given for every case. |
| ProbeDaemon.Daemon.ProbeT2Batch | crates/fumox-probe/src/main.rs:1045-1360 | Outside the backoff every supported, uncovered candidate gets one verdict, told from its answers alone: answered is `ready` with counter, block and ladder cleared; refused, outside the config, a failed tunnel, or silence while the engine answers pings is one more failure, at the limit quarantine; an outage, silence without a ping, or starting after three silent rows with no word in between costs nothing but `ready`. No other row changes, `checked + aborted + skipped` is the number of rows, and the engine backs off exactly for an outage or such a stretch. |
| ProbeDaemon.Daemon.RunTunnelTasks | crates/fumox-probe/src/main.rs:1190-1354 | Tasks come to the guard in some order of all of them; every due row moves as its answers say, exactly those that start after a dead stretch are aborted unasked, the others count as checked, and the engine backs off exactly when there is such a stretch. |
| ProbeDaemon.CutOnlyAfterStreak | crates/fumox-probe/src/main.rs:1205-1212 | A row is aborted if and only if it starts when `MEOW_ABORT_THRESHOLD` unanswered rows have come to the guard in a row; a batch without such a streak aborts none. |
| ProbeDaemon.StreakMeansDeadStretch | crates/fumox-probe/src/main.rs:1205-1334 | The guard sees a streak if and only if three rows that came to it were silent, request and ping alike, and no row between the first and the last of them got an answer about its proxy. |
| ProbeDaemon.CutMeansFoundAborted | crates/fumox-probe/src/main.rs:1205-1212 | Aborted are exactly the rows that started only after such a stretch of the rows before them. |
| ProbeDaemon.Daemon.RunThroughEngine | crates/fumox-probe/src/main.rs:1120-1354 | The vetted rows of a batch: an outage at ping or reload time faults them all and backs off once; otherwise the engine counts as recovered, the rows outside the config are settled and the others race; every due row moves as its answers say. |
| ProbeDaemon.Daemon.ContactEngine | crates/fumox-probe/src/main.rs:1213-1334 | One request: passed if and only if it was answered, an engine fault if and only if request and ping stayed silent, else the proxy's failure; an answer about the proxy ends the streak, silence adds to it and backs off exactly when it completes the first one. |
| ProbeDaemon.Daemon.SkipUnserializable | crates/fumox-probe/src/main.rs:1175-1189 | Exactly the rows the generated config does not hold fail without reaching the engine. |
| ProbeDaemon.Daemon.VetBatch | crates/fumox-probe/src/main.rs:1092-1120 | Exactly the refused rows fail before anything reaches the engine; the others form the batch in their order. |
| ProbeDaemon.Daemon.FaultAll | crates/fumox-probe/src/main.rs:1439-1444 | An outage at ping or reload time journals every row of the batch unverified. |
| ProbeDaemon.Daemon.ProbeRevivals | crates/fumox-probe/src/main.rs:584-590 | The revival lane is a legal lane run that takes, of the rows looked at, the due hysteria2 ones and moves each as its answers say. |
| ProbeDaemon.Daemon.ProbeRechecks | crates/fumox-probe/src/main.rs:590-648 | So is the direct recheck lane, over the other due rows with an address. |
| ProbeDaemon.Daemon.ProbeTunnels | crates/fumox-probe/src/main.rs:1045-1060 | So is the tunnel batch, which takes no row the sample judged. |
| ProbeDaemon.EachDueRowIsJournaledOnce | crates/fumox-probe/src/main.rs:1045-1360 | Each row of a batch gets exactly one journal row of the batch's kind, with the verdict it settled; no other row is touched. |
| ProbeDaemon.Daemon.ProbeQueuedChecks | crates/fumox-probe/src/main.rs:283-297 | The queue lane claims exactly the linked, unblocked, unknown rows of a scheme with direct checks, judged or not, and moves those with an address as the connect says. |
| ProbeDaemon.Daemon.ProbeT1Sample | crates/fumox-probe/src/main.rs:304-321 | The sample skips the queue's claims, takes what is left of the rows its selector may take, and hands on exactly the rows it judged. |
| ProbeDaemon.Daemon.RunCycle | crates/fumox-probe/src/main.rs:240-256 | For whatever the queries look at, the world answers and other writers do to the pool between the lanes, the lanes in their order perform a legal cycle, so every theorem about cycles holds of the daemon; and in each lane exactly the rows it takes move, each as the answers about it say. |
| EngineGuard.CrossesAtMostOnce | crates/fumox-probe/src/main.rs:69-89 | In every interleaving of the two accesses of `record_failure` with the others, it returns true at most once, and only after `threshold` failures in a row in counter order. |
| EngineGuard.AtRestAbortedIffStreak | crates/fumox-probe/src/main.rs:69-89 | Once no call is half way, the batch is aborted if and only if the counter saw such a streak: none is overlooked. |
| EngineGuard.AbortIsSticky | crates/fumox-probe/src/main.rs:72-89 | Nothing clears the flag and no later part of the run crosses again. |
| EngineGuard.CallsBegin | crates/fumox-probe/src/main.rs:69-89 | The guard keeps nobody out: after any run every task may report a recovery, and every task that is not half way a failure. |
| EngineGuard.CallsEnd | crates/fumox-probe/src/main.rs:69-89 | And it lets everybody finish: one more access of each half-way task brings it to rest. |
| EngineGuard.StreakGrows | crates/fumox-probe/src/main.rs:72-84 | A log gains a streak exactly with the failure that brings the trailing count to the threshold. |
| EngineGuard.BatchGuard.RecordFailure | crates/fumox-probe/src/main.rs:72-78 | True for exactly the one failure that completes the first streak. |
| EngineGuard.BatchGuard.RecordRecovered | crates/fumox-probe/src/main.rs:82-84 | Ends the streak and leaves the flag alone. |
| EngineBackoff.WaitsAreCappedDoublings | crates/fumox-probe/src/main.rs:127-142 | Every wait of an outage is `min(initial * 2^k, max)`, despite 64-bit saturation, if and only if `initial <= max`. |
| EngineBackoff.LaterWaitsAreCapped | crates/fumox-probe/src/main.rs:127-134 | From the second wait on the formula holds for every configuration. |
| EngineBackoff.Engine.Backoff | crates/fumox-probe/src/main.rs:127-134 | The n-th backoff since the engine last answered waits the n-th wait from now, saturating. |
| EngineBackoff.Engine.Recovered | crates/fumox-probe/src/main.rs:137-142 | Starts the sequence of waits over and opens the window. |
| EngineBackoff.CheckDelayWithRetry | crates/fumox-probe/src/meow.rs:182-253 | The first verdict among the first `attempts` responses decides and nothing is asked after it: a delay out of a JSON 2xx, or the proxy's failure out of a JSON 4xx, 503 or 504; the check is unavailable exactly when every response is neither; one pause between requests. |
| EngineBackoff.VerdictOfStatus | crates/fumox-probe/src/meow.rs:182-228 | What one response means, both ways: measured, blamed on the proxy, or neither. |
| Fingerprint.PreimageIdentifiesServer | crates/fumox-core/src/fingerprint.rs:129-174 | Two pre-images are equal if and only if scheme, port and credential are equal, the hosts are one DNS name (alike byte by byte up to letter case once trailing dots are off), and every pair of field and value is said equally often, an insecure switch saying one thing whenever it is on. |
| Fingerprint.NormalForm | crates/fumox-core/src/fingerprint.rs:143-149 | The normal form of a host is as long as the host without its trailing dots, and byte by byte the host's own, but with 32 added to 'A' to 'Z'. |
| Fingerprint.HostsAgree | crates/fumox-core/src/fingerprint.rs:143-149 | Two hosts have one normal form if and only if they are alike in that sense. |
| Fingerprint.CanonicalMeans | crates/fumox-core/src/fingerprint.rs:151-217 | Normalization keeps exactly what a parameter says: nothing for a key that does not count or a switch that is off, one pair for a switch that is on, and else the value under the name of its field. |
| Fingerprint.ToggleMeaning | crates/fumox-core/src/models.rs:254-266 | A toggle is on if and only if it is one of four words, in any letter case, between Unicode white space. |
| Fingerprint.KeysThatCount | crates/fumox-core/src/fingerprint.rs:23-84 | The lists hold exactly the 35 counted keys and the four insecure switches. |
| Fingerprint.EncodingIsInjective | crates/fumox-core/src/fingerprint.rs:129-141 | The bytes fed to the hash determine every normalized part, and the pairs up to their order; and conversely. |
| Escaping.UnescapeEscape | crates/fumox-core/src/fingerprint.rs:184-197 | Escaping loses nothing: unescaping an escaped value gives it back, for every byte string. |
| Escaping.EscapeIsFree | crates/fumox-core/src/fingerprint.rs:175-197 | An escaped field contains none of the separators. |
| Escaping.EscapedForm | crates/fumox-core/src/fingerprint.rs:184-197 | Exactly the bytes from `!` to `~` other than the percent sign and the separators stand for themselves; every other byte is a percent sign and its two hexadecimal digits. |
| Escaping.SplitAt | crates/fumox-core/src/fingerprint.rs:129-141 | A field without the separator can be read back from the front of the pre-image. |
| Escaping.DecimalIsInjective | crates/fumox-core/src/fingerprint.rs:135-135 | The port's digits determine the port. |
| Fingerprint.JoinIsInjective | crates/fumox-core/src/fingerprint.rs:168-173 | The joined parameter text determines the list of pairs. |
| Fingerprint.SortedIsUnique | crates/fumox-core/src/fingerprint.rs:167-167 | A multiset of pairs has one sorted listing in the byte order of key, then value. |
| Fingerprint.AdvertisementsCollapse | crates/fumox-core/src/fingerprint.rs:14-17 | Display name, parameter order, and the spelling of the host, in letter case and trailing dots, do not change the pre-image. |
| Fingerprint.ExtraParamMatters | crates/fumox-core/src/fingerprint.rs:154-166 | One more parameter leaves the pre-image alone if and only if it says nothing: a key that does not count, or an insecure switch that is off. |
| Fingerprint.ClashAndUriCollapse | crates/fumox-core/src/fingerprint.rs:86-121 | The Clash and the URI spelling of a field, per scheme and in any letter case, are interchangeable, and only with equal values. |
| Fingerprint.InsecureSpellings | crates/fumox-core/src/fingerprint.rs:209-215 | All truthy spellings of the insecure toggle are interchangeable, and two of them count twice. |
| Fingerprint.OneFlagIffOneIsOn | crates/fumox-core/src/fingerprint.rs:199-215 | Replacing all insecure toggles of an entry by a single truthy one leaves the pre-image alone if and only if exactly one of them is truthy. |
| Fingerprint.HostSpellings | crates/fumox-core/src/fingerprint.rs:143-149 | A host in any letter case with any number of dots behind it has one normal form, which is a spelling of it and normalizes to itself. |
| Fingerprint.FeedHasher | crates/fumox-core/src/fingerprint.rs:129-141 | Feeding the hasher field by field, with the byte loop of the escape, yields the pre-image. |
| AddressPolicy.RefusedBlocksAreExact | crates/fumox-core/src/ssrf.rs:292-324 | An IPv4 address is refused if and only if it lies in a documented block or in 192.0.0.0/16 or 192.2.0.0/16, as prefixes of the 32-bit address. |
| AddressPolicy.WiderThanLabelled | crates/fumox-core/src/ssrf.rs:318-319 | Two concrete public addresses are refused though no documented block holds them. |
| AddressPolicy.FormsShareTheVerdict | crates/fumox-core/src/ssrf.rs:90-162 | The mapped, compatible, NAT64 and 6to4 forms of every IPv4 address, the last with any suffix, are accepted exactly when the address itself is. |
| AddressPolicy.RefusedV6IsExact | crates/fumox-core/src/ssrf.rs:96-150 | An IPv6 address is refused if and only if it is multicast, link-local, unique-local or site-local or stands for a refused IPv4 address. |
| AddressPolicy.PolicyIsExact | crates/fumox-core/src/ssrf.rs:90-150 | Unless private addresses are allowed, accepted are exactly the addresses in no refused block and no internal range that stand for none that is. |
| AddressPick.CapVetted | crates/fumox-core/src/ssrf.rs:223-265 | Keeps `min(n, 4)` addresses in resolver order, among them the first of each family, and apart from those two the earliest. |
| AddressPick.CapIsDetermined | crates/fumox-core/src/ssrf.rs:211-222 | That promise leaves no choice: two lists that meet it are equal. |
| AddressPick.VetResolvedAddrs | crates/fumox-core/src/ssrf.rs:193-209 | Succeeds exactly on a non-empty, fully accepted answer, names the first refused address otherwise, and returns the capped distinct addresses. |
| AddressPick.SelectionPicksTheSame | crates/fumox-core/src/ssrf.rs:211-222 | Any order-preserving selection that holds the first address of each family picks the same address as the whole list, for every family. |
| AddressPick.ReadersAgree | crates/fumox-core/src/ssrf.rs:17-33 | Picking from the capped list, from the raw answer and through the fetcher's filter give one address for every family, for `Any` also the geo resolver's; the list is duplicate-free and `min(distinct, 4)` long. |
| AddressPick.DedupCounts | crates/fumox-core/src/ssrf.rs:198-204 | The deduplicated list has one entry per distinct address. |
| AddressPick.FetcherDialsVetted | crates/fumox-server/src/fetcher.rs:453-495 | The address the fetcher hands out is in the answer, of the requested family and accepted. |
| AddressPick.FetcherIsNoStricter | crates/fumox-server/src/fetcher.rs:476-492 | On an answer the probe accepts, the fetcher finds an address if and only if there is one of the family. |
| Fetcher.Client.Fetch | crates/fumox-server/src/fetcher.rs:165-200 | Against any server and resolver at most `(min(max_retries, 16) + 1) * 6` requests; the log grows by exactly the requests of the attempts, each attempt is the one the world's answers determine from the counts where the one before it stopped, every attempt but the last failed recoverably, a recoverable failure is returned only when the retries are used up, and the sleeps are exactly `min(base * 2^i, 60 s)`. |
| Fetcher.Client.FetchOnce | crates/fumox-server/src/fetcher.rs:213-334 | At most six linked exchanges, each to the address vetted from the lookup made for that hop's host, with the source's headers exactly where scheme, host and port are those of the configured URL, and the server's reply to that very request; and the outcome the last reply determines, or 508 for one redirect too many, 414 for a text too long, a permanent network failure for an unusable one, 403 for a refused host. |
| Fetcher.Client.Hop | crates/fumox-server/src/fetcher.rs:249-288 | One request: a lookup of its own for that host, vetted; it is sent if and only if the policy leaves an address, with the headers if and only if it goes to the configured scheme, host and port, and the exchange records lookup, address and the server's reply. |
| Fetcher.AttemptIsDetermined | crates/fumox-server/src/fetcher.rs:213-334 | For any server and resolver that contract leaves no choice: the requests of an attempt and its outcome are determined. |
| Fetcher.Conclude | crates/fumox-server/src/fetcher.rs:285-331 | A reply that is not followed: none is a recoverable network failure, server faults and 408 and 429 are worth another try, a redirect without a usable location and every other status outside 2xx are final, and a 2xx comes to what its body comes to. |
| Fetcher.NoRequestEscapes | crates/fumox-server/src/fetcher.rs:213-334 | Wherever redirects lead, every request of an attempt is a web request to an accepted address out of a lookup of its own host, no two share a lookup, and a request carries headers if and only if the job has them and it goes to the configured URL's scheme, host and port, a missing port standing for 443 under https and for 80 otherwise. |
| Fetcher.RetriedForTransientFaults | crates/fumox-server/src/fetcher.rs:285-331 | An attempt is worth another if and only if its last request got no reply, a status from 500 on, 408 or 429, or a good reply whose body broke off within the limit. |
| Fetcher.BackoffIsCappedDoubling | crates/fumox-server/src/fetcher.rs:202-211 | The saturating computation equals the true doubling capped at 60 s for every base and attempt. |
| Fetcher.ReadBody | crates/fumox-server/src/fetcher.rs:311-330 | The body is returned if and only if every chunk arrives and it fits the cap, and is then their concatenation; otherwise the first chunk that overflows or breaks decides. |
| Scheduler.SixRowsSuffice | crates/fumox-server/src/scheduler.rs:58-79 | Reading the newest rows of the journal gives the delay of the full history, for every history, if and only if at least six are read. |
| Scheduler.DueMeansMayBeFetched | crates/fumox-server/src/scheduler.rs:89-126 | A sweep takes a source, reading eight journal rows or none, if and only if by the whole journal its interval has run out or it never succeeded, and its newest attempt succeeded, precedes its last edit, or lies 60 seconds doubled by each failure in a row, an hour at most, in the past. |
| Scheduler.SpanIsLinear | crates/fumox-server/src/scheduler.rs:73-79 | Backoffs of `n >= 6` failures in a row add up to at least `3720 + 3600 * (n - 6)` seconds. |
| Scheduler.TailTakes | crates/fumox-server/src/scheduler.rs:58-111 | The newest `m` of `n` failures in a row, spaced as the due rule spaces them, span the backoffs earned in between: hours from the sixth failure on. |
| Scheduler.FailureHistory | crates/fumox-server/src/scheduler.rs:116-126 | Counts exactly the failures before the newest success, from the newest row on. |
| SchedulerProtocol.SchedulerState.AcquireSource | crates/fumox-server/src/scheduler.rs:152-161 | On the state of the interleavings the call performs the task's acquisition: the caller becomes the one task of the source between mark and drop, or, exactly when a mark has an owner already, ends; ownership is kept. |
| SchedulerProtocol.SchedulerState.DropGuard | crates/fumox-server/src/scheduler.rs:191-206 | The drop removes the mark at once or leaves the removal to a task, as the protocol's two steps, and every other owner keeps its mark. |
| SchedulerProtocol.SchedulerState.RemoveLater | crates/fumox-server/src/scheduler.rs:200-205 | The removal left behind takes its own mark by name and leaves every other owner's. |
| SchedulerProtocol.OneIngestPerSource | crates/fumox-server/src/scheduler.rs:587-635 | In every interleaving each mark has exactly one owner, at most one task per source is between its mark and its drop, and at most `max(1, max_concurrency)` ingests run. |
| SchedulerProtocol.DeferredRemovalHitsItsOwnMark | crates/fumox-server/src/scheduler.rs:191-206 | A deferred removal clears the mark its own task left and leaves every other owner its mark. |
| SchedulerProtocol.DeadSourceIsPaced | crates/fumox-server/src/scheduler.rs:505-576 | In every interleaving of sweeps, tasks, outcomes of any kind and refreshes of other sources, the newest `m` of a source's `n` failures in a row since its newest success, if none precedes its last edit, span at least the backoffs earned in between: all of them at least `3720 + 3600 * (n - 6)` seconds, and from the sixth on an hour each. |
| SchedulerProtocol.IntervalIsKept | crates/fumox-server/src/scheduler.rs:89-111 | In every such run from a start, no attempt on the source begins within its interval of the success known at the start or of any success since. |
| SchedulerProtocol.SweepTakes | crates/fumox-server/src/scheduler.rs:505-545 | A sweep that begins may take a set of known sources if and only if each has its interval behind it, or never succeeded, and its newest attempt does not hold it back. |
| SchedulerProtocol.RefreshIsNotNoticed | crates/fumox-server/src/ingest.rs:99-119 | A concrete run in which a forced refresh between a sweep's decision and its task makes the source be fetched twice within its interval. |
| SchedulerProtocol.AttemptsArePaced | crates/fumox-server/src/scheduler.rs:505-576 | In every such run each attempt starts no sooner after the one before than the failures in a row so far demand, unless the source was edited since, and no sooner after a success than its interval. |
| SchedulerProtocol.FreshStartIsPaced | crates/fumox-server/src/scheduler.rs:392-475 | Every start meets the premises, whatever failures the journal records: the attempts of this run are spaced, and those of earlier runs as far as they were. |
| ConfigTree.WriteThenRead | crates/fumox-core/src/config_writer.rs:148-186 | After a successful write reading the path gives the value, and every path neither above nor below it reads as before. |
| ConfigTree.LookupAfterPut | crates/fumox-core/src/config_writer.rs:148-186 | Below a written path one reads into the written value; beside it, what was there. |
| ConfigTree.PutFailsIffBlocked | crates/fumox-core/src/config_writer.rs:330-345 | A write fails if and only if some present item on the way is not a section, which a caller can see by reading. |
| ConfigTree.LastWriteWins | crates/fumox-core/src/config_writer.rs:164-186 | A second write to the same path gives the document the second alone would give. |
| ConfigTree.UnrelatedWritesCommute | crates/fumox-core/src/config_writer.rs:164-186 | Writes to prefix-incomparable paths commute. |
| ConfigTree.ShapeMeansSegments | crates/fumox-core/src/config_writer.rs:165-174 | The four shape checks reject exactly the keys with an empty segment, so the check on the segments never fires. |
| ConfigTree.SplitIsTheOnlyReading | crates/fumox-core/src/config_writer.rs:150-172 | A dotted key names one path: the only list of segments without a dot that dots join to it. |
| ConfigTree.ReadsThroughBothTables | crates/fumox-core/src/config_writer.rs:148-154 | Reading goes through sections and inline tables alike and through nothing else. |
| ConfigEditor.EditableConfig.Get | crates/fumox-core/src/config_writer.rs:148-154 | The walk returns the item at the path, through sections and inline tables. |
| ConfigEditor.EditableConfig.Set | crates/fumox-core/src/config_writer.rs:164-186 | Writes the value and reports which of the two errors applies, exactly; on either error the whole document is as before, although sections are created on the way down. |
| ConfigEditor.LockedSessionsAreSerial | crates/fumox-core/src/config_writer.rs:117-134 | However lock-holding sessions interleave, the file is the edits of each session up to its last save, applied in the order the sessions loaded; a saved edit is never lost. |
| ConfigEditor.LockDecides | crates/fumox-core/src/config_writer.rs:76-134 | Every run of sessions keeps all saved edits if and only if sessions hold the lock. |
| ConfigEditor.UnlockedSaveLosesAnEdit | crates/fumox-core/src/config_writer.rs:76-84 | Without the lock, for any document and any two edits, overlapping sessions that both save and close leave only the second edit in the file, although both were saved. |
| HostReject.BoundsHoldThroughout | crates/fumox-server/src/alive_export.rs:144-205 | Over every call sequence at most 1024 hosts are tracked, no window warns about more than 64 new hosts, and suppressed rejections equal the totals of all summaries plus the current counter. |
| HostReject.WarnsPerWindow | crates/fumox-server/src/alive_export.rs:117-205 | Over every call sequence a window, open or closed, warns again at most once about each host tracked when it opened, so about at most 64 plus that many, 1088 at most. |
| HostReject.NextWindowBound | crates/fumox-server/src/alive_export.rs:117-205 | At every point of every run, `n` bounds the warns of the window that opens next, however it fills, if and only if `n` is at least 64 plus the number of hosts tracked then. |
| HostReject.EveryOpeningOvershoots | crates/fumox-server/src/alive_export.rs:117-205 | From every reachable registry a legal continuation fills the next window with a warn about each tracked host and 64 more. |
| HostReject.SixtyFourIffNothingTracked | crates/fumox-server/src/alive_export.rs:117-120 | The next window keeps the documented 64 if and only if nothing is tracked as it opens, and that is so exactly before the first call. |
| HostReject.BoundIsAttained | crates/fumox-server/src/alive_export.rs:104-120 | A legal run emits 1088 warns in one window, the tracking limit plus 64: `WarnsPerWindow` cannot be improved. |
| HostReject.WarnsAreApart | crates/fumox-server/src/alive_export.rs:178-185 | Two warns about a host not evicted in between are at least one window apart. |
| HostReject.SummaryNamesTheFirst | crates/fumox-server/src/alive_export.rs:144-166 | The name kept for the summary is always that of the window's first suppressed host. |
| HostReject.HostRejectLog.RollTo | crates/fumox-server/src/alive_export.rs:144-166 | A window that has elapsed is closed with a summary exactly when it suppressed something. |
| HostReject.HostRejectLog.ShouldWarn | crates/fumox-server/src/alive_export.rs:176-205 | The method performs one step of that registry, evicting some least recently inserted host when full. |
| GeoBackfill.Backfill.RunBackfill | crates/fumox-server/src/geo_backfill.rs:113-181 | Terminates whatever the world does. The log holds a prefix of the initially missing rows in id order; each row was asked about under its own host by a lookup of its own unless the clock said otherwise, its stamp is that lookup's answer, exactly the non-empty stamps were written and exactly the writes that went through are stored and counted; the rows end up as before plus exactly those; and the pass stops short exactly at the first page the clock or a failed listing keeps it from. |
| GeoBackfill.Backfill.ExaminePage | crates/fumox-server/src/geo_backfill.rs:130-178 | One page extends the walk over the initial listing by exactly its rows; a short page is the last. |
| GeoBackfill.Backfill.StoreOne | crates/fumox-server/src/geo_backfill.rs:162-175 | A missing or empty stamp is not written; any other is, once, to its own row, and counted exactly when the write went through. |
| GeoBackfill.EachMissingRowOnce | crates/fumox-server/src/geo_backfill.rs:107-181 | After a complete pass within the budget a row was asked about if and only if it was missing a fact at the start, then exactly once and under its own host, and a stored stamp is what that lookup answered. |
| GeoBackfill.PassIsDetermined | crates/fumox-server/src/geo_backfill.rs:113-181 | The contract of the pass leaves no choice: for a world and a listing there is one log. |
| GeoBackfill.CursorSkipsThePage | crates/fumox-core/src/repo/proxies.rs:417-437 | Moving the cursor to the last listed row grows it and leaves exactly the rest of the listing. |
| GeoBackfill.ListingMembers | crates/fumox-core/src/repo/proxies.rs:417-437 | Listed are exactly the rows past the cursor that lack some fact of the loaded databases. |

## Left out

- The processed and generation maps are unbounded: capacity and idle eviction of the cache library are not part of this model, nor a put's final read that eviction could empty.
- Cancellation of a request between a put's insert and its second check, or of an invalidation between two of its steps, does not occur: every started put and invalidation runs on.
- The plain `processed_put` used by the exports, and waking the waiters of an inline render, are not modelled; neither is any liveness or fairness.
- "Stale" is about rows and compositions changed by ingest or by edits; probe status changes invalidate nothing and are not versions.
- CacheLayer.Caches.ProcessedPutGuarded: interference between the insert and the second check is a number of bumps; the full interleavings are those of `CacheProtocol`.
- Database errors, panics of check tasks and rows with an unparsable scheme beyond "not dialable" are not modelled; a cycle that returns an error is not a cycle here.
- ProbeTheorems.OneChargePerCycle: the proxy keeps its row; a row purged in the middle of a cycle has no verdicts left to get.
- ProbeDaemon.Daemon.RunCycle: other writers act between the lanes; what they do while a lane runs is in the cycle theorems, not in the daemon's methods.
- ProbeTheorems.LadderWalk: the ladder step is read with the row when the verdict is applied, not when the row was selected; the two agree because a row is judged once per lane. Hours of the second chance are seconds without 64-bit overflow.
- Which rows a selector's window, order and limit pick is arbitrary; only its filter is modelled. No claim is made that every `alive` row eventually gets a tunnel check: a row the sample covers in every cycle is skipped in every cycle.
- ProbeDaemon.Daemon.ProbeT2Batch: tasks settle one after the other in any order, with an arbitrary choice of which had started before the abort; the finer interleaving of the guard's accesses is `EngineGuard`. The configuration file, the memory stamp, pinned addresses and journal texts are left out, as is a failure to generate or write that file.
- Latencies, timestamps of checks other than those of failures and ladder, and the heartbeat and retention loops are left out; pruning of the journal appears as an edit.
- The hash over the pre-image and its hexadecimal form are not modelled. Sorting is a sorted permutation, which is unique, not the library's in-place routine.
- Text is a sequence of UTF-8 bytes. White space at the ends of a toggle is recognized by its byte sequences.
- Name resolution, timeouts, connections, TLS and HTTP are arbitrary answers. URL parsing, joining and the recognition of address literals are arbitrary functions; redaction of URLs in logs is left out.
- Fetcher.Client.Fetch: a client that cannot be built is a request without a reply.
- Fetcher.Client.Hop: lookups are numbered to tell them apart; an address literal in a URL uses up a number without asking anyone.
- Scheme and host of an origin are compared as parsed; the parser already lower-cases them.
- Teredo and IPv4-translated addresses pass the policy, as its documentation says; nothing is claimed about them beyond that the exact theorem accepts them.
- SchedulerProtocol.DeadSourceIsPaced: assumes an intact journal, a clock that does not run backwards, no forced refresh of that source and no edit of it during the run (an edit or outage before the run is covered); the recorded error class that makes a sweep read the journal is the outcome of its newest row.
- SchedulerProtocol.IntervalIsKept: the stamp of a success is written with its journal row, and the skip of a fresh row may happen or not.
- Retention sweeps, events and their order, and startup from the command line are left out.
- ConfigEditor.EditableConfig.Set: the document is a value replaced at each step where the program mutates through a reference; comments, blank lines and key order are left out.
- Saving is all or nothing: the temporary file, its mode, the rename and its fallback are left out, and so is a crash between them.
- HostReject.HostRejectLog.ShouldWarn: the poisoned-lock path and the log lines themselves are left out.
- GeoBackfill.Backfill.RunBackfill: lookups of one page are asked in order; how many are in flight at once is left out. Rows are changed by no one else during the pass.
- Parsers, pipelines, output formats, administration pages, migrations and the command line are left out: mapping code and plumbing with only easy members.
