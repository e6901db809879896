# A verified model of the CryptoAttack dashboard's event pipeline

The repository receives crypto-market alerts over a socket, keeps them in an in-memory store that
browsers follow over server-sent events, writes them to Postgres through a durable queue, scores
coins from the stored events by rules, and labels past signals with what the price did next. This
project models the parts of that pipeline that hold state, run concurrently or transform data, and
proves what they promise over every input, run or interleaving.

Check everything with `dafny verify dfyconfig.toml` (Dafny 4.11).

| files | component |
|---|---|
| `ScoreModel`, `ScoreEngine`, `ScoreEvidence`, `ScoreMonotone`, `ScoreOrder`, `ScoreDominant`, `ScorePrefetch`, `ScoreShape`, `ScoreConfidence`, `PriceAlerts` | the score engine: its functions, its loops, and theorems about whole runs of scoring |
| `DurableQueue`, `DurableQueueSafety` | the durable ingestion queue as steps between awaits, and its invariants over every interleaving |
| `EventStore`, `EventLog`, `EventClock` | the in-memory store, what it shows of what it kept, and what its duplicate index keeps under any clock |
| `SseHub`, `BrowserCopy` | the event stream, the browser's reducer, and their agreement with the store |
| `CanonicalJson`, `Decimals`, `EventRepository`, `IngestionHistory`, `IngestionRuns` | the canonical payload form, the ingestion transaction, and its idempotence and bookkeeping over runs |
| `WorkerPool` | the bounded worker pool over every order of answers |
| `Subscriptions`, `SubscriptionSafety` | the upstream subscription list and the subscribe protocol of one endpoint |
| `ScoreRepository`, `ScoreHistory`, `ScoreWorker` | score snapshots against the current row, and the worker that writes them |
| `Backtest` | bucketing, written once in TypeScript and once in SQL |
| `ForwardReturns` | price lookups and forward-return labels |
| `ReplayRawLog`, `ReplayProperties` | seeding the store from the raw log, against a two-pass specification |
| `Numbers`, `Sequences`, `Wrappers` | shared rounding, sequence lemmas, optional values |

Code that updates an object is a class whose methods are proved to move its abstract value (`View()`)
by a step function; code that loops is a method with invariants; lemmas about the step functions then
speak about all runs. Numbers are exact reals, instants integer milliseconds. Library functions the
proofs need facts about (`0.5 ** x`, `log10`, `log2`, upper-casing, trimming, hashing) are parameters
with just those facts; `ScoreModel.EnvExists` shows the facts assumed for scoring are consistent.

Where code and its promises part, the code is modelled, the exact condition proved and a run given
that shows the difference: a stopped or draining queue can reopen (`RefusalIsLeft`, `StoppedReopens`,
`DrainReopens`), the dominant signal can depend on row order (`DominantSignalOrder`,
`RowOrderShows`), cleanup can show if the clock runs back (`FirstDifference`,
`CleanupShowsAfterClockStepsBack`), a page ignores a stored event whose id it still shows
(`PageInStepExactly`, `RepeatBreaksAgreement`), an out-of-order score can leave the current row apart
from its newest snapshot (`LabelsAgreeExactly`, `LateArrivalBreaksLabels`), the two bucket
expressions differ and printed ranges overlap unless the size divides 100 (`StartsAgree`,
`RangesApartExactly`), a non-positive future price falls outside its own label's extremes
(`ReturnEnclosed`, `ZeroFutureEscapes`), and the replay measures its hour from the last event in the
file (`OnePassIsTwoPasses`, `LaterTimeFirst`).

## Model

| member | source | states |
|---|---|---|
| ScoreMonotone.ScoresNeverRise | apps/server/src/scoring/scoreEngine.ts:21-50 | Scoring later, or from fewer of the same rows in any order, never raises any bull or bear score, through decay, dropping, bursts, rounding and saturation; every side score lies in [0, 100]. Rows must have arrived by the earlier instant. |
| ScoreOrder.ScoresIgnoreRowOrder | apps/server/src/scoring/scoreEngine.ts:21-57 | Permuting the source rows changes no side score, net score, confidence, regime, event count or evidence count of any (coin, window) result. |
| ScoreDominant.DominantSignalOrder | apps/server/src/scoring/scoreEngine.ts:312-315 | The dominant signal of a result is the same for every order of the source rows exactly when, if row evidence attains the largest contribution, all rows holding such evidence have the same first maximal rule, and otherwise all rows feeding a strongest burst group have the same rule for their first such group. |
| ScoreDominant.RowOrderShows | apps/server/src/scoring/scoreEngine.ts:312-315 | A rise and a fall of two per cent under the default price rules: the two orders of the two rows give different dominant signals. |
| ScorePrefetch.ScoresUseOnlyFetchedRows | apps/server/src/scoring/scoreWorker.ts:151-176 | No look-ahead: scoring only the requested coins' rows between the widest window's start and the scoring instant gives identical results, evidence included. |
| ScorePrefetch.FeedFilteredScores | apps/server/src/db/scoreRepository.ts:316-375 | Also leaving out rows whose feed no rule names keeps the evidence, the dominant signal, the side scores and the counts of every result. |
| ScorePrefetch.PrefetchIsLossless | apps/server/src/scoring/scoreWorker.ts:164-176 | Whatever order the repository returns the rows of the worker's query in, side scores and counts equal those of scoring every stored row. |
| ScoreEngine.CalculateScores | apps/server/src/scoring/scoreEngine.ts:21-35 | The nested loops over coins and windows return, in order, the score of each coin in each selected window, as the functions of ScoreModel define it. |
| ScoreEngine.BuildEvidence | apps/server/src/scoring/scoreEngine.ts:84-129 | The loops over rows and rules push exactly the evidence of each applicable, positively contributing pair, rows outermost. |
| ScoreEngine.GroupRowsByCoin | apps/server/src/scoring/scoreEngine.ts:324-331 | The map built row by row holds, for each coin, that coin's rows in order, renamed to upper case, and nothing for other coins. |
| ScoreEngine.BuildBurstEvidence | apps/server/src/scoring/scoreEngine.ts:186-223 | The grouping map and the loop over it give one burst for each (side, rule, feed) group with enough distinct events, in order of first occurrence. |
| ScoreEvidence.BurstKeepsSide | apps/server/src/scoring/scoreEngine.ts:190-198 | The side read back from a group key by splitting at colons is the side of the grouped evidence, even when the rule key contains colons. |
| ScoreDominant.StrongestComesFirst | apps/server/src/scoring/scoreEngine.ts:312-315 | The head of the stable descending sort: everything before it weighs less and nothing after it weighs more. |
| ScoreShape.NetIsExact | apps/server/src/scoring/scoreEngine.ts:48-50 | The net score is exactly bull minus bear: rounding the difference of two rounded scores changes nothing. |
| ScoreShape.LargerValueWeighsMore | apps/server/src/scoring/scoreEngine.ts:238-250 | A larger amount or percentage never weighs less, whatever its sign, and a missing one weighs least. |
| ScoreShape.HigherRankWeighsMore | apps/server/src/scoring/scoreEngine.ts:91 | A lower place in a ranking never weighs more; first place weighs in full. |
| ScoreShape.SpotPressureMirrored | apps/server/src/scoring/scoreEngine.ts:131-184 | Sell pressure is buy pressure with the buy and sell volumes exchanged. |
| ScoreShape.BuyPressureGrows | apps/server/src/scoring/scoreEngine.ts:84-162 | More buying against the same selling never lowers the decayed, capped and rounded contribution to buy pressure, although it moves share, total and volume at once. |
| ScoreShape.RegimeMirrored | apps/server/src/scoring/scoreEngine.ts:294-310 | Exchanging bull and bear scores exchanges the bullish and bearish regimes and no others. |
| ScoreShape.RegimeMeans | apps/server/src/scoring/scoreEngine.ts:294-310 | Bullish is called exactly with evidence, confidence of at least 25, a lead of at least 15 and no conflict: one side below 25 or below 45 percent of the other. |
| ScoreConfidence.ScoreConfidenceFalls | apps/server/src/scoring/scoreEngine.ts:37-57 | Scoring the same rows later, while none of them arrives or ages out of the window, does not raise the confidence of the result, unless the penalty for conflict between its side scores has come to be smaller. |
| ScoreConfidence.UnconflictedConfidenceFalls | apps/server/src/scoring/scoreEngine.ts:37-57 | Scoring the same rows later, while none arrives or ages out, never raises the confidence of a result whose side scores do not conflict at the earlier instant. |
| ScoreConfidence.ConfidenceCanRise | apps/server/src/scoring/scoreEngine.ts:265-300 | A rise and a fall of four per cent under the default configuration: scored while fresh they conflict and give confidence 0, scored half an hour later they no longer do and give 42. |
| ScoreConfidence.ConfidenceFallsWithAge | apps/server/src/scoring/scoreEngine.ts:265-288 | Later, from evidence that is no more and of no new feed, rule or exchange, confidence is no higher unless the conflict penalty is smaller: through median age, recency bonus, stale penalty, counts and caps. |
| ScoreShape.ConfidenceBounded | apps/server/src/scoring/scoreEngine.ts:265-288 | Confidence lies in [0, 100], and is zero without evidence. |
| DurableQueueSafety.OneDrainerAlways | apps/server/src/db/durableIngestion.ts:76-94 | After every interleaving of enqueue, stop and the drainer's steps: at most one drainer and one job in flight, a non-empty queue has a live drainer, and the depth limit holds. |
| DurableQueueSafety.JobsConserved | apps/server/src/db/durableIngestion.ts:121-181 | Every accepted job is in exactly one place: written, failed, queued, being written, or dropped at shutdown; the counters say the same. |
| DurableQueueSafety.WritesStartInOrder | apps/server/src/db/durableIngestion.ts:147-152 | Jobs are first written in the order of acceptance, ahead of everything still queued. |
| DurableQueueSafety.RetriesBoundedAlways | apps/server/src/db/durableIngestion.ts:183-195 | In every interleaving each job has made some number m of retries, at most maxRetries: it was written m or m + 1 times and has slept exactly the delays of those m retries, at most base * (2^m - 1) and at most m * max. |
| DurableQueueSafety.TotalDelayBounded | apps/server/src/db/durableIngestion.ts:282-285 | The delays of the first retries add up to no more than the geometric and the linear bound. |
| DurableQueueSafety.DelaysGrow | apps/server/src/db/durableIngestion.ts:282-285 | Delays never shrink from one attempt to the next and never exceed the maximum. |
| DurableQueueSafety.EnqueueAccepts | apps/server/src/db/durableIngestion.ts:76-94 | A job is refused exactly while draining or stopped or when the queue is full, and a refusal leaves the queue alone. |
| DurableQueueSafety.RefusalIsLeft | apps/server/src/db/durableIngestion.ts:165-171 | Draining and stopped, the two states that refuse jobs, are left together exactly by a write failing for good; otherwise a stopped queue stays stopped and a draining one drains on until its stop returns. |
| DurableQueueSafety.DrainReopens | apps/server/src/db/durableIngestion.ts:121-171 | A run in which the write in flight fails while stop is still waiting, and the queue being drained accepts jobs again. |
| DurableQueueSafety.StoppedReopens | apps/server/src/db/durableIngestion.ts:121-171 | A run in which the write in flight at shutdown fails afterwards, and the stopped queue accepts a job again. |
| DurableQueue.DurableIngestionQueue.Enqueue | apps/server/src/db/durableIngestion.ts:76-94 | The new state is that of the protocol step, and the result tells whether the job was accepted. |
| DurableQueue.DurableIngestionQueue.Stop | apps/server/src/db/durableIngestion.ts:121-124 | Stop up to its wait: draining, with a drainer started if none runs. |
| DurableQueue.DurableIngestionQueue.FinishStop | apps/server/src/db/durableIngestion.ts:130-138 | Stop after its wait: what is left is counted as dropped and the state is stopped. |
| DurableQueue.DurableIngestionQueue.OnWritten | apps/server/src/db/durableIngestion.ts:155-164 | A write that succeeds is counted, a degraded queue recovers, and the drainer takes the next job or ends. |
| DurableQueue.DurableIngestionQueue.OnWriteError | apps/server/src/db/durableIngestion.ts:165-192 | A write that fails either sleeps for its retry or gives the job up and records it. |
| DurableQueue.DurableIngestionQueue.OnSlept | apps/server/src/db/durableIngestion.ts:190-193 | After its sleep the job is written again, with the attempt count it had. |
| DurableQueue.DurableIngestionQueue.OnRecorded | apps/server/src/db/durableIngestion.ts:172-176 | Once the failure is recorded the job is out of flight and the drainer goes on or ends. |
| EventClock.CleanupInvisible | apps/server/src/events/eventStore.ts:43-54 | Under a clock that does not run back, the store with lazy cleanup stores and rejects exactly as one that never cleans: an event is rejected exactly when its id was stored less than the TTL ago, and all visible state is equal. |
| EventClock.FirstDifference | apps/server/src/events/eventStore.ts:43-54 | Under any clock, while what is stored has not differed yet: the next arrival is treated differently exactly when a cleaning pass over a large index ran, since its id was last stored, at or after the stored expiry, and the clock now reads less than that expiry. |
| EventClock.CleanupShowsExactly | apps/server/src/events/eventStore.ts:155-161 | Under any clock, a run with cleanup stores what a run without it stores exactly when no arrival came before an expiry that had already been swept. |
| EventClock.StoredExactly | apps/server/src/events/eventStore.ts:43-54 | Under any clock, an arrival is stored exactly when its id was never stored, was swept since it last was, or has reached its expiry. |
| EventClock.CleanupShowsAfterClockStepsBack | apps/server/src/events/eventStore.ts:155-161 | For every buffer size and TTL a run in which, after a step back of the clock, cleanup lets a repeat through within the TTL. |
| EventClock.StoredIdsApart | apps/server/src/events/eventStore.ts:43-54 | Any two events the store kept under one id are at least the TTL apart exactly when no arrival came before an expiry that had already been swept; a clock that does not run back never does that. |
| EventClock.KeptIsLog | apps/server/src/events/eventStore.ts:43-54 | On the same condition, and only then, the store keeps exactly what the plain rule keeps: an event unless its id was kept less than the TTL ago. |
| EventLog.BuffersRefineLog | apps/server/src/events/eventStore.ts:35-73 | After any run, whatever the clock, each feed buffer is the newest part of what that feed kept, received = stored + deduplicated, stored is the sum over feeds, and the latency samples are the last 100. |
| EventLog.EventsReadLog | apps/server/src/events/eventStore.ts:113-121 | After any run, whatever the clock, reading a feed returns the newest events it kept, as many as asked for within 1 and the buffer size. |
| EventStore.EventStore.AddEvent | apps/server/src/events/eventStore.ts:43-73 | The object's new state is that of the specified step, and the result tells whether the event was stored. |
| EventStore.EventStore.AddEvents | apps/server/src/events/eventStore.ts:35-41 | The state after adding one by one, and exactly the stored ones returned in order. |
| EventStore.EventStore.CleanupDedupe | apps/server/src/events/eventStore.ts:155-161 | Once the index is large, exactly the expired entries go. |
| BrowserCopy.EveryPageInStep | apps/server/src/http/sse.ts:72-106 | Over every run of events, connections, failures and disconnections: each connected page that has read its wire agrees with the server on the common part of every feed, stored, byFeed, last event time, latest latency and sample count, as long as no stored event repeats a recent id of its feed. |
| BrowserCopy.LaggingPageShowsThePast | apps/server/src/http/sse.ts:133-149 | A page that has read only part of its wire agrees with the server as it was then, and the rest of the wire is a continuation. |
| BrowserCopy.PageInStepExactly | apps/web/src/App.tsx:462-491 | Over every run: a connected page that has read its wire agrees with the server exactly when no event stored since it connected was already on the page when it was stored. |
| BrowserCopy.StaysInAgreement | apps/web/src/App.tsx:462-491 | One stored event keeps page and server in agreement exactly when the page does not already show its id. |
| BrowserCopy.RepeatBreaksAgreement | apps/web/src/App.tsx:462-491 | A run for every configuration in which an id stored again after its TTL leaves the server with two stored events and the connected page with one. |
| BrowserCopy.SnapshotInStep | apps/server/src/events/eventStore.ts:80-97 | A fresh snapshot agrees with the store it was taken from. |
| BrowserCopy.WiresOnlyGrow | apps/server/src/http/sse.ts:84-92 | A wire still open was open before and has only been appended to; client ids are never reused. |
| SseHub.SseHub.HandleStream | apps/server/src/http/sse.ts:72-106 | The new client gets the next id and a stream that opens with the snapshot; if writing breaks it is not kept. |
| SseHub.SseHub.Broadcast | apps/server/src/http/sse.ts:133-149 | Every client gets the message once, except those whose connection is broken, which are dropped. |
| SseHub.SseHub.OnStoreEvent | apps/server/src/http/sse.ts:47-49 | An event the store kept goes to every client as long as the hub listens, and to none after. |
| SseHub.SseHub.OnClientClose | apps/server/src/http/sse.ts:103-105 | Closing a stream removes that client and no other. |
| SseHub.SseHub.Close | apps/server/src/http/sse.ts:108-117 | The hub stops listening and keeps no client. |
| IngestionHistory.IngestedTwice | apps/server/src/db/eventRepository.ts:60-99 | Ingesting an input again right after is accepted and leaves every table as it is, even if the input writes one row several times. |
| IngestionHistory.RetryIsHarmless | apps/server/src/db/eventRepository.ts:60-99 | Retrying a write of unknown outcome any number of times leaves the database as after one. |
| IngestionRuns.DatabaseFollowsCommits | apps/server/src/db/eventRepository.ts:118-267 | After any run of attempts: each raw, event and entry key owns exactly one data row, filed under the first time ever committed for it; a raw row holds every column of the last committed input with its key, but for the provider, which is that of the first; an event row shows the last committed version and points, like its key, at the raw event of the last committed input that carried it; an entry exists exactly if some committed version of its event had it, and its row shows the last of those; failed attempts left no trace. |
| IngestionHistory.CommuteOrAbsorb | apps/server/src/db/eventRepository.ts:187-267 | Of two upserts of one row the later wins; upserts of different rows commute. |
| IngestionHistory.EntryKeyReadsBack | apps/server/src/db/eventRepository.ts:276 | Different (event id, index) pairs never share an entry key, even when ids contain colons and digits. |
| IngestionHistory.KeyOrderIgnored | apps/server/src/db/eventRepository.ts:106-116 | A payload delivered again with its keys in another order gets the same idempotency key and hash. |
| IngestionHistory.HashedKeysTellPayloadsApart | apps/server/src/db/eventRepository.ts:106-116 | Without an id, and barring hash collisions, two payloads share a key exactly when they differ only in key order. |
| EventRepository.Repository.IngestRawEvent | apps/server/src/db/eventRepository.ts:60-99 | All or nothing: the call succeeds exactly when every query is answered and no unique index is violated; otherwise the database is untouched. |
| EventRepository.UpsertEvents | apps/server/src/db/eventRepository.ts:75-83 | The loops over events and entries apply the upserts in order, failing at whichever query the connection dies on. |
| CanonicalJson.SameForm | apps/server/src/db/eventRepository.ts:508-516 | On trees, two values have one canonical form exactly when they differ only in the order of object keys, at any depth; arrays stay ordered. |
| CanonicalJson.StabilizeTwice | apps/server/src/db/eventRepository.ts:508-516 | Canonicalising a canonical form changes nothing. |
| CanonicalJson.ArrangeSorts | apps/server/src/db/eventRepository.ts:514-515 | Sorting keys as text and rebuilding the object enumerates them in one total order, index keys first by value, and loses no field. |
| WorkerPool.ResultsInInputOrder | apps/server/src/exchanges/spotPerformance.ts:874-889 | In every interleaving of answers, once all workers are done the results are the mapped items in input order. |
| WorkerPool.CalledOnceInOrder | apps/server/src/exchanges/spotPerformance.ts:878-884 | The mapper is called on each index at most once, in input order. |
| WorkerPool.OutstandingAlwaysBounded | apps/server/src/exchanges/spotPerformance.ts:886-887 | Never more calls outstanding than max(1, concurrency), nor than items. |
| WorkerPool.AnswersBounded | apps/server/src/exchanges/spotPerformance.ts:878-887 | Each answer brings the end exactly one nearer, so the pool ends after at most as many answers as items. |
| WorkerPool.NeverStalls | apps/server/src/exchanges/spotPerformance.ts:878-887 | Unless it is over or a call failed, some call is outstanding. |
| WorkerPool.MapWithConcurrency | apps/server/src/exchanges/spotPerformance.ts:874-889 | For any scheduling it returns the sequential map, and rejects exactly when some item's call rejects. |
| SubscriptionSafety.PassesPerGeneration | apps/server/src/cryptoattack/client.ts:84-147 | After every sequence of socket events: each generation has exactly one connect pass, and at most one unforced connected pass more than it had reconnect notices. |
| SubscriptionSafety.FramesOnlyWhileConnected | apps/server/src/cryptoattack/client.ts:104-129 | No frame goes out in a step that leaves the socket disconnected. |
| SubscriptionSafety.AttemptsCountPasses | apps/server/src/cryptoattack/client.ts:117-140 | Every subscription's attempts equals the number of passes, and each pass has sent every payload in order, for both endpoints under every configuration. |
| SubscriptionSafety.ConfiguredKeysDistinct | apps/server/src/cryptoattack/subscriptions.ts:16-64 | Under every flag setting no endpoint subscribes to one key twice. |
| Subscriptions.EndpointClient.DoSubscribeAll | apps/server/src/cryptoattack/client.ts:104-141 | The guards and the loop of a pass leave exactly the state the protocol step specifies. |
| Subscriptions.EndpointClient.OnConnectEvent | apps/server/src/cryptoattack/client.ts:149-162 | A connect starts a new generation and makes its connect pass. |
| Subscriptions.EndpointClient.OnDisconnect | apps/server/src/cryptoattack/client.ts:191-203 | A disconnect forgets both generation marks. |
| Subscriptions.EndpointClient.OnConnectedEvent | apps/server/src/cryptoattack/client.ts:164-175 | The server's greeting allows an unforced pass if the generation had none. |
| Subscriptions.EndpointClient.OnConnectError | apps/server/src/cryptoattack/client.ts:186-189 | A connect error only clears the server-connected flag. |
| Subscriptions.EndpointClient.OnReconnect | apps/server/src/cryptoattack/client.ts:209-212 | A reconnect notice allows one more unforced pass. |
| Subscriptions.EndpointClient.OnRefreshTimer | apps/server/src/cryptoattack/client.ts:143-147 | A tick of a live timer forces a pass while connected. |
| Subscriptions.EndpointClient.StopEndpoint | apps/server/src/cryptoattack/client.ts:70-76 | Stopping disconnects and ends the refresh timer. |
| ScoreHistory.CurrentFollowsSnapshot | apps/server/src/db/scoreRepository.ts:409-440 | If a key's results arrive in order of time, its current row carries the labels of its newest snapshot, and net, side and confidence scores are within (skips since) times their threshold of it. |
| ScoreHistory.LabelsAgreeExactly | apps/server/src/db/scoreRepository.ts:409-463 | After any run of writes the labels of a key's current row are those of its newest snapshot exactly when the write that stored that snapshot did not come, with other labels, before the current row of that moment. |
| ScoreHistory.OutOfOrderWrite | apps/server/src/db/scoreRepository.ts:453-463 | A write breaks the agreement of labels exactly when it is older than the current row but not than the newest snapshot, and carries other labels; the newest snapshot is taken not to be later than the current row. |
| ScoreHistory.RunSettles | apps/server/src/db/scoreRepository.ts:409-440 | That holds after every run: a key with a current row has a newest snapshot, no later than that row, and other keys have none. |
| ScoreHistory.LateArrivalBreaksLabels | apps/server/src/db/scoreRepository.ts:409-463 | Three writes from empty tables, the last of another regime for an instant between the first two: the labels agree after two and no longer after three. |
| ScoreRepository.Repository.WriteScores | apps/server/src/db/scoreRepository.ts:409-440 | All results are written in one transaction and counted; if beginning, any result or committing fails nothing is, and writing no results cannot fail. |
| ScoreWorker.WorkerConsistent | apps/server/src/scoring/scoreWorker.ts:144-212 | In every interleaving of triggers, runs and failures: processed = written + skipped = results committed, the tables hold exactly the committed writes, and the pending set stays within its bound. |
| ScoreWorker.WorkerKeepsCurrentFollowing | apps/server/src/scoring/scoreWorker.ts:144-181 | In every interleaving in which each run that begins is for an instant no earlier than those begun before, what the worker leaves in a current row follows the newest snapshot; calls refused because a run is under way do not matter. |
| ScoreWorker.ClockKeepsCurrentFollowing | apps/server/src/scoring/scoreWorker.ts:144-181 | A clock that does not run back between runs is enough for that, and for committed results to be in order of time, unless a run is asked for an instant of its own. |
| ScoreWorker.ScoresStamped | apps/server/src/scoring/scoreEngine.ts:21-57 | Every result carries the instant the scores are for. |
| ScoreWorker.ScoreWorker.EnqueueEvents | apps/server/src/scoring/scoreWorker.ts:128-142 | Coins are added in order while there is room; the call is accepted exactly when some coin was pending or found room. |
| ScoreWorker.ScoreWorker.OnConfigEnsured | apps/server/src/scoring/scoreWorker.ts:154-162 | The run takes the given coins or empties the pending set; coins beyond the batch are not put back. |
| ScoreWorker.ScoreWorker.BeginRun | apps/server/src/scoring/scoreWorker.ts:144-146 | A run begins exactly when the worker is enabled and no run is under way. |
| ScoreWorker.ScoreWorker.OnScoresWritten | apps/server/src/scoring/scoreWorker.ts:164-186 | The run computes the scores of its coins at its instant from the rows read, writes them, adds its counts and is over. |
| ScoreWorker.ScoreWorker.OnRunFailed | apps/server/src/scoring/scoreWorker.ts:201-211 | A failed run only counts the failure; processed, written and skipped stay. |
| Backtest.StartsAgree | apps/server/src/db/backtestRepository.ts:272-275 | The SQL and the TypeScript bucket start agree on every real score exactly when the bucket size divides 100. |
| Backtest.StartsAgreeAt | apps/server/src/backtest/metrics.ts:87-91 | For any size, the exact scores on which the two agree. |
| Backtest.InOneBucket | apps/server/src/backtest/metrics.ts:58-74 | Every sample lies in exactly one bucket. |
| Backtest.InPrintedRange | apps/server/src/backtest/metrics.ts:58-74 | A score from 0 to 100 lies in the printed range of its bucket, half-open except at 100. |
| Backtest.RangesApartExactly | apps/server/src/backtest/metrics.ts:68-91 | The printed ranges of different buckets are disjoint exactly when the size divides 100 or is at least 100; otherwise the last bucket starts inside the one before. |
| Backtest.BucketsAddUp | apps/server/src/backtest/metrics.ts:31-74 | Total, ready, pending and unlabelled counts, gains, losses, and sums of returns and scores over the buckets add up to those of the overall summary, averages and rates multiplied out. |
| Backtest.BucketBacktestSamples | apps/server/src/backtest/metrics.ts:58-74 | Ascending buckets, one for each start that occurs, each summarising exactly the samples that start there. |
| Backtest.SummarizeBacktestSamples | apps/server/src/backtest/metrics.ts:31-56 | Computed by a loop over statuses, filters, maps, counts and averages: total, ready, pending and unlabelled counts, gains, losses and the sums behind the average return and score are sums over the samples one by one; StatusesCounted and MedianSplits say what the other parts mean. |
| Backtest.MedianSplits | apps/server/src/backtest/metrics.ts:98-107 | At most half of the values lie below the median and at most half above it. |
| Backtest.StatusesCounted | apps/server/src/backtest/metrics.ts:31-33 | The status table counts each status and lists exactly those that occur. |
| ForwardReturns.ReadyEncloses | apps/server/src/db/marketDataRepository.ts:281-331 | A ready label's extremes enclose zero and the return of every positive tick between its ends, and each is attained by one of them. |
| ForwardReturns.ReturnEnclosed | apps/server/src/db/forwardReturns.ts:17-37 | A ready label's own return lies between its extremes exactly when the future price is positive. |
| ForwardReturns.ZeroFutureEscapes | apps/server/src/db/forwardReturns.ts:17-37 | Two ticks, the later one at price zero, give a ready label whose return of -100 lies below both extremes. |
| ForwardReturns.RetryKeepsBase | apps/server/src/db/marketDataRepository.ts:298-301 | Writing the base tick's time back into the row does not let the base drift when the label is computed again. |
| ForwardReturns.FindNearestPrice | apps/server/src/db/marketDataRepository.ts:358-377 | The tick found is within reach and none in reach is nearer; none is found exactly when none is in reach. |
| ForwardReturns.ComputeDueForwardReturns | apps/server/src/db/marketDataRepository.ts:281-331 | Each due row gets its label or the error label, and scanned = ready + missing base + missing future + errors. |
| ReplayProperties.OnePassIsTwoPasses | apps/server/src/events/replayRawLog.ts:41-76 | For a feed that is still empty, the one backward pass selects the events within an hour of the newest exactly when none is within an hour of the last one in the file but not of the newest. |
| ReplayProperties.LaterTimeFirst | apps/server/src/events/replayRawLog.ts:41-76 | A log of two lines whose earlier one carries the later time: the pass keeps both events, two passes keep one. |
| ReplayProperties.OrderedLogSelection | apps/server/src/events/replayRawLog.ts:41-76 | In a log whose times do not decrease, each empty feed gets exactly its events within an hour of its newest. |
| ReplayProperties.ReplayOrdersSelection | apps/server/src/events/replayRawLog.ts:58-79 | What reaches the store is, for each empty routed feed, its selection in stable order of time, and nothing for any other feed. |
| ReplayProperties.BuffersAfterReplay | apps/server/src/events/replayRawLog.ts:78-79 | Afterwards each feed that was empty shows newest first what the store kept; feeds that held events are unchanged. |
| ReplayRawLog.ReplayLatestRawEventsFromLog | apps/server/src/events/replayRawLog.ts:26-81 | The backward loop leaves the store in the specified state, counts every line and every unreadable line, and reports how many events were stored. |

## Left out

- Floating point: arithmetic is over exact reals, so results that differ only by rounding errors, NaN and infinities are not modelled; `round2`/`round4` are `floor(x*k+0.5)/k`.
- Text: strings are compared by character, which equals the code-unit order of JavaScript outside the astral planes; case folding and trimming are parameters.
- Hashes, evidence keys, reason texts and payload extras of the score engine: identifiers and prose that no other computation reads. The confidence of a result may change under the feed filter, through the median age and the parser penalty; only side scores, evidence, counts and the dominant signal are claimed there.
- Score evidence rows in the database are only counted, not stored; the ranking columns of snapshots are not written by this code.
- ScoreConfidence.ScoreConfidenceFalls: rows that age out are excluded, because dropping them can lower the median age, a parser penalty or a conflict and so raise the confidence.
- DurableQueueSafety.OneDrainerAlways: callbacks are taken not to throw, and whether a drain finishes before its deadline is not claimed (the deadline may pass at any step).
- Timestamps of the queue, the endpoint and the worker, their status objects, timers and averages of durations.
- BrowserCopy.EveryPageInStep: the averages of latency differ by design (a running rounded mean against a mean of 100 samples); the page's pause, its initial fetch and its filters are not modelled, and reading a wire is taken to be in order.
- EventStore: reading all feeds at once (a merge by time), connection statuses and the emitter are left out.
- ScoreRepository.Repository.WriteScores: a commit that fails is taken not to have taken effect.
- IngestionHistory.IngestedTwice: last-seen and inserted-at columns are not modelled; generated ids are fresh numbers, drawn only when a key row is inserted. Columns that are copied unread are one `rest` field.
- CanonicalJson: values are finite trees, so the marker for repeated objects never appears; printing the canonical form is part of the abstract hash.
- WorkerPool: `chunkArray` and the single-flight cache of provider results are not modelled.
- Subscriptions: log lines, notes and feed keys of a subscription; the payload is a map of texts.
- ScoreWorker: coin extraction, the debounce and interval timers and the running average; a failed run loses the coins it took, as in the code. The callback of a finished run, which the code calls inside the run, is taken not to throw.
- ForwardReturns: symbol normalisation, the selection of due rows and retries across runs; an update that throws inside the error handler ends the run and is not modelled.
- Backtest: the SQL of samples, separation and rule queries; only the bucket expression is modelled.
- ReplayRawLog: parsing and normalising a line are given; a log that cannot be read replays nothing.
- Event parsing, routing, HTTP, authentication, configuration, migrations, the React components and the socket transport are not modelled.
