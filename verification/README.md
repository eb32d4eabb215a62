# Here's What's Happening: a verified model

This project models the stateful and arithmetic core of the event service and
proves what that core is relied on for. Each file is one component:

| file | component |
|---|---|
| `RateLimit.dfy` | the in-process token-bucket limiter and its middleware |
| `RateLimitRuns.dfy` | runs of the Allow/Record protocol: the forgetting map refines one that never forgets, and a bound on admissions |
| `RateLimitTightness.dfy` | the exact concurrency at which both guarantees stop holding |
| `IngestStore.dfy` | the tables the ingest consumers write and what each SQL statement does to a row |
| `IngestPlans.dfy` | the statements each message stands for |
| `IngestRows.dfy` | what the tables hold after a message, row by row, in terms of the message alone |
| `IngestHandlers.dfy` | the message handlers, statement by statement, against plan and rows |
| `IngestReferences.dfy` | foreign keys that no transaction protects |
| `IngestDelivery.dfy` | crashes, redelivery, and at-least-once delivery as once-per-message handling |
| `PosterJobs.dfy` | the poster-job statements, the request handler and the end of a generation |
| `PosterProtocol.dfy` | the claim protocol as a state machine with unfenced status writes |
| `Calendar.dfy` | keyset pagination over tables that change between requests |
| `Cursor.dfy` | the opaque page token |
| `Scorer.dfy` | artist folding, cosine similarity, match score |
| `MatchRun.dfy` | the stamp-and-prune match run |
| `Fusion.dfy` | Reciprocal Rank Fusion and the search handler around it |
| `Ical.dfy` | the iCalendar writer and a reader for what it writes |
| `EnrichmentCache.dfy` | the gate in front of the paid enrichment workflows |
| `PosterKeys.dfy` | the length-prefixed poster key and the job id |
| `Common.dfy`, `Digits.dfy`, `Instants.dfy` | shared wrappers, numerals, calendar fields |

What the source does by changing state is a class or a method here, proved
against a function of the old state; the theorems are about those functions.
Main operations are also described a second time in plain terms, column by
column and figure by figure, without the functions they are proved against.
SQL statements are functions on one row, written from the conflict rule in the
query text. `hide` statements only keep definitions away from the solver.

## Results worth knowing

- **Rate limiter.** A bucket that has been idle for two windows is dropped on
  the grounds that it must be full. With an allowance for negative balances
  this is true exactly when at most `limit + 1` requests of one key are between
  Allow and Record at once. Both guarantees (same decisions as a limiter that
  never drops a bucket; at most `limit + rate*T + k - 1` admissions in a span T)
  hold up to that number, and for every limit of at least 1 and every larger
  number there is a run that breaks both; a limit of zero admits nothing. When
  the hard cap evicts the key itself, the decisions are those of a limiter
  restarted at that point, and each eviction costs at most `limit + k - 1`
  further admissions. The comment at `internal/ratelimit/memory.go:138-140`
  states the fact without the condition; the model follows the code.
- **Ingest.** With nothing in between, redelivery heals every crash. Against any
  other statements in between it does so exactly when every section that is not `ok` is blank. The enrichment
  workflows send such sections blank; the consumer does not enforce it.
- **References.** The order of the statements alone keeps every event's venue
  and artist, every section's artist and every association's event on file, at
  every point a crash can leave the tables.
- **Poster jobs.** One live generation per job and no lost poster, each exactly
  when a generation's deadline plus clock skew is within `stalePendingAfter`.
  With the deployed constants that leaves 40 seconds for fetching credentials
  and skew; the six-minute context alone would not be enough.
- **Retry-After.** Waiting out the limiter's own estimate is enough exactly
  when the deficit fits in one window. The header says whole seconds, and
  waiting those is enough exactly when the deficit fits in the window rounded
  up to whole seconds: the same condition when the window is whole seconds, as
  every deployed one is, and a milder one otherwise.
- **Search.** An id found by both legs precedes every id found by one exactly
  for candidate lists of at most 61 ids; the service fetches 50.
- **Enrichment cache.** Two paid runs of one workflow for one performer are a
  TTL apart, whatever else goes on, exactly when the earlier call's write and
  the later call's read succeed and no call between them replaces the entry
  without having read it. So a list of cache failures is harmless exactly when
  every call but the first can read and every call but the last can write, and
  the same condition is exact for the bound on the number of runs.
- **iCalendar.** The feed can be read back exactly when no UID and no URL holds
  a CRLF, the two values written unescaped.

## Model

| member | source | states |
|---|---|---|
| RateLimit.CapIsKept | internal/ratelimit/memory.go:61-82 | whatever the clock, keys and eviction choice, no call leaves more than hardBucketCap buckets |
| RateLimit.AdvertisedWaitAdmits | internal/ratelimit/memory.go:89-116 | a denied client that waits retryAfter is admitted if and only if the deficit is at most one window's refill; one that waits the header's whole seconds, if and only if it is at most the refill of the window rounded up to whole seconds |
| RateLimit.EstimatedWait | internal/ratelimit/memory.go:98-115 | retryAfter is the time the deficit takes to refill, capped at the window |
| RateLimit.RoundedUp | internal/http/middleware/ratelimit.go:169-174 | the header is the least whole number of seconds that is at least one and at least the wait |
| RateLimit.WholeSecondWindow | internal/http/middleware/ratelimit.go:169-174 | for a window of whole seconds the two conditions are one |
| RateLimit.HalfSecondWindow | internal/http/middleware/ratelimit.go:169-174 | a window of half a second and a deficit beyond it: the estimate is too short, the header is not |
| RateLimit.Memory.constructor | internal/ratelimit/memory.go:44-57 | a new limiter has no buckets |
| RateLimit.Memory.MakeRoom | internal/ratelimit/memory.go:61-82 | below 10,000 buckets, or 50,000 within a window of the last sweep, nothing goes; otherwise exactly the idle ones, and at the cap, if that frees nothing, a quarter of the rest, none seen later than any kept |
| RateLimit.Memory.BucketLocked | internal/ratelimit/memory.go:61-82 | the key's bucket is kept or created full, and marked seen |
| RateLimit.Memory.Allow | internal/ratelimit/memory.go:89-116 | allowed exactly if the key's own limiter, or a new full one, holds a token; none is spent |
| RateLimit.Memory.Record | internal/ratelimit/memory.go:127-136 | one token is spent unconditionally, so the balance may go negative |
| RateLimit.Memory.SweepLocked | internal/ratelimit/memory.go:147-158 | exactly the buckets last seen more than two windows ago go, and their number is returned |
| RateLimit.Memory.Sweep | internal/ratelimit/memory.go:141-145 | the public sweep is SweepLocked |
| RateLimit.Memory.EvictOldestLocked | internal/ratelimit/memory.go:164-187 | n buckets go, none seen later than any bucket kept |
| RateLimit.SortedByLastSeen | internal/ratelimit/memory.go:164-187 | every key once, oldest first |
| RateLimit.FirstsAreOldest | internal/ratelimit/memory.go:164-187 | the first n of that list are n oldest keys |
| RateLimit.Meanwhile | internal/ratelimit/memory.go:61-158 | any sequence of checks, debits and sweeps by other requests acts on the map one after the other |
| RateLimit.LimitEvery | internal/http/middleware/ratelimit.go:95-108 | let in exactly if the limiter consulted holds a token, and every request let through costs one |
| RateLimit.RateLimitOnSuccess | internal/http/middleware/ratelimit.go:120-146 | let in exactly if the limiter consulted holds a token; an answer that is written and outside 200 to 299 leaves that limiter as the gate left it, any other costs one token; in between other requests may do what they like |
| RateLimit.DebitCostsOne | internal/ratelimit/memory.go:127-136 | a debit after the gate costs one token even if the idle bucket is swept in between |
| RateLimitRuns.IdleIsFull | internal/ratelimit/memory.go:138-158 | two idle windows refill any balance down to -limit |
| RateLimitRuns.StepKeepsInv | internal/ratelimit/memory.go:61-136 | every operation of any key keeps the simulation and the potential, and gives the ideal answer |
| RateLimitRuns.EvictionIsARestart | internal/ratelimit/memory.go:61-187 | over every run with at most limit+1 requests in flight, evictions included, the decisions are those of a limiter restarted at each eviction of the key and otherwise never dropped |
| RateLimitRuns.SweepingIsInvisible | internal/ratelimit/memory.go:61-158 | without eviction of the key, those of a limiter that never drops a bucket |
| RateLimitRuns.AdmissionsWithEvictions | internal/http/middleware/ratelimit.go:95-146 | in any span of any run, requests admitted and not abandoned number at most limit + rate*T + k - 1, and limit + k - 1 more per eviction of the key in the span |
| RateLimitRuns.AdmissionsAreBounded | internal/http/middleware/ratelimit.go:95-146 | without eviction of the key, at most limit + rate*T + k - 1 |
| RateLimitRuns.AnswerDecides | internal/http/middleware/ratelimit.go:131-145 | a written answer outside 200 to 299 gives the request up, any other records it |
| RateLimitRuns.ServedIsARun | internal/http/middleware/ratelimit.go:120-146 | the middleware's effect on the map is that of the run: check, others, record or abandonment |
| RateLimitRuns.SuccessesAreBounded | internal/http/middleware/ratelimit.go:110-146 | in any span, requests let in and answered with success number at most limit + rate*T + k - 1, and limit + k - 1 more per eviction |
| RateLimitRuns.SerialRequestsGetTwiceTheLimit | internal/http/middleware/ratelimit.go:95-146 | served one at a time, at most twice the limit in any one window |
| RateLimitTightness.OneMoreInFlightIsTooMany | internal/ratelimit/memory.go:138-158 | for every limit of at least 1 and every allowance above limit+1, a run in which the sweep forgives a debt: decisions differ and the bound is exceeded |
| RateLimitRuns.ZeroLimitIsIdle | internal/ratelimit/memory.go:89-116 | a limit of zero admits nothing, so a run needs no allowance |
| RateLimitTightness.InFlightAllowanceIsExact | internal/ratelimit/memory.go:61-158 | each of the two guarantees holds over all runs if and only if the limit is zero or the allowance is at most limit+1 |
| IngestStore.Database.ExecArtist | internal/store/artists.sql.go:114-131 | last write wins on the normalized name |
| IngestStore.Database.ExecSection | internal/store/artists.sql.go:160-267 | status and reason always move, the payload only on ok |
| IngestStore.Database.ExecVenue | internal/store/venues.sql.go:87-99 | last write wins per city and normalized name |
| IngestStore.Database.ExecEvent | internal/store/events.sql.go:270-299 | every column is overwritten except headline artist and segment, which keep the stored value when none is sent; an archived event comes back |
| IngestStore.Database.ExecPerformer | internal/store/event_associations.sql.go:48-52 | the first of two names with one normalized form stays |
| IngestStore.Database.ExecGenre | internal/store/event_associations.sql.go:32-36 | a genre is attached once |
| IngestStore.Database.ExecDeletePerformers | internal/store/event_associations.sql.go:23-25 | all performers of the event go |
| IngestStore.Database.ExecDeleteGenres | internal/store/event_associations.sql.go:14-16 | all genres of the event go |
| IngestStore.Database.ExecDeleteInterests | internal/store/user_spotify_tokens.sql.go:132-165 | all interests of one kind of the user go |
| IngestStore.Database.ExecInterest | internal/store/user_spotify_tokens.sql.go:62-69 | the later duplicate wins |
| IngestHandlers.ApplyEnrichment | internal/ingest/enrichment.go:33-145 | artist, then the valid sections, stopping at the first failure; the artist returned is the one the event will refer to |
| IngestHandlers.ReplacePerformers | internal/ingest/events.go:98-113 | delete, then insert the non-empty names in order |
| IngestHandlers.ReplaceGenres | internal/ingest/events.go:115-139 | delete, then insert the known slugs in order |
| IngestHandlers.HandleMessage | internal/ingest/events.go:53-142 | runs a prefix of the message's plan; when it succeeds the artist, section, venue, event, performer and genre rows hold what the message says and no other row has changed; an unknown source writes nothing |
| IngestHandlers.ReplaceInterests | internal/ingest/interests.go:57-161 | when it succeeds each of the four kinds holds the message's items, the last of each normal form standing with its weight in figures, and nothing else has changed |
| IngestHandlers.Handle | internal/ingest/events.go:37-51 | success means the body is stored: a malformed one changes nothing, a broken enrichment block is dropped and the event kept |
| IngestRows.PerformersHeld | internal/ingest/events.go:102-113 | the rows are the non-empty names, each normal form under the first name that has it |
| IngestRows.GenresHeld | internal/ingest/events.go:119-139 | the rows are the known slugs: a tag's alias, or the tag itself when it has none |
| IngestRows.ItemsHeld | internal/ingest/interests.go:62-73 | the last item of each normal form stands |
| IngestRows.WeightsInFigures | internal/ingest/interests.go:155-161 | artists fall evenly from 1.0 at rank 1 to 0.6 at rank 50, genres by 0.02 a rank to 0.1 at rank 46 |
| IngestRows.PlanStoresMessage | internal/ingest/events.go:53-142 | the row facts of a message, from the statements it stands for |
| IngestRows.PlanStoresInterests | internal/ingest/interests.go:57-129 | the row facts of an interest message; no replacement disturbs another |
| IngestReferences.MessageIsOrdered | internal/ingest/enrichment.go:28-32 | artist before its sections and the event, venue before the event, event before its performers and genres |
| IngestReferences.CrashLeavesNoDanglingReference | internal/ingest/events.go:53-142 | if every reference is good, it still is after any prefix of any message |
| IngestReferences.HistoryLeavesNoDanglingReference | internal/ingest/consumer.go:72-108 | and after any history of complete and crashed deliveries |
| IngestDelivery.ApplyAllAt | internal/ingest/events.go:53-142 | a list of statements acts on each row as its own statements alone |
| IngestDelivery.RedeliveryHeals | internal/ingest/enrichment.go:28-32 | a crashed prefix followed by the whole plan leaves the same tables as the plan alone, whatever the sections hold |
| IngestDelivery.CrashErasure | internal/ingest/events.go:53-142 | a crashed prefix, then anything sound, then the whole plan leaves the same tables as without the crash |
| IngestDelivery.BodyHeals | internal/ingest/enrichment.go:28-145 | every plan of either queue treats each row in a way that heals |
| IngestDelivery.HealsIffBlank | internal/ingest/enrichment.go:28-145 | redelivery heals every crash against any sound statements if and only if the body's non-ok sections are blank |
| IngestDelivery.StalePayloadSurvives | internal/store/artists.sql.go:160-267 | the counterexample: a crashed attempt plants a payload under a failed section and redelivery keeps it |
| IngestDelivery.HandleOne | internal/ingest/consumer.go:97-108 | the message is deleted only after its plan ran to the end, and then its rows hold what it says |
| IngestDelivery.DeliveryIsOncePerMessage | internal/ingest/consumer.go:72-108 | any history of attempts leaves the tables of the history with each body attempted once, at its last completion |
| IngestDelivery.DrainedQueueHandledOnce | internal/ingest/consumer.go:72-108 | once the queue has drained, the tables are those of handling each message exactly once, and no message is missing |
| IngestDelivery.SettledCoversAll | internal/ingest/consumer.go:97-108 | every body ever attempted is in the settled history |
| IngestDelivery.LastOk | internal/store/artists.sql.go:160-174 | the most recent ok upsert among the first n |
| IngestDelivery.SectionHistory | internal/store/artists.sql.go:160-267 | over any history the stored payload is that of the most recent ok upsert, or of the first when none was ok; status and reason are the latest |
| IngestDelivery.EventHistory | internal/store/events.sql.go:286-294 | headline artist and segment are the most recent that were not NULL |
| PosterJobs.PosterTable.ClaimPosterJob | internal/store/poster_jobs.sql.go:14-30 | a new job is always won; an existing one by its owner exactly if failed, pending and stale, or ready and forced; the row a win leaves, column by column; a loss changes nothing |
| PosterJobs.PosterTable.MarkPosterJobReady | internal/store/poster_jobs.sql.go:148-153 | the row with that id, whoever claimed it since, becomes ready with its artifact and no failure |
| PosterJobs.PosterTable.MarkPosterJobFailed | internal/store/poster_jobs.sql.go:131-135 | the row with that id, whoever claimed it since, becomes failed with stage and reason |
| PosterJobs.ValidateFields | internal/http/handlers/posters.go:67-88 | accepts exactly trimmed, non-empty, bounded fields |
| PosterJobs.CreatePoster | internal/http/handlers/posters.go:99-148 | status code, claim and whether this request owns the generation, for every request, also when the claim fails or its answer is lost |
| PosterJobs.FinishGeneration | internal/http/handlers/posters.go:155-208 | one status write: which field of the outcome lands in which column, in each of the four cases |
| PosterJobs.ValidKeyMeans | internal/poster/presign.go:42-50 | which artifact keys are accepted, character by character |
| PosterProtocol.WinnerIsAlone | internal/http/handlers/posters.go:122-147 | whoever wins a claim finds no goroutine still working on the job |
| PosterProtocol.StepKeepsInv | internal/http/handlers/posters.go:99-208 | each live goroutine owns the row its own claim wrote, and ready rows can be presigned |
| PosterProtocol.PosterSafety | internal/http/handlers/posters.go:99-208 | in every reachable state: one live generation per job, no finished poster overwritten except by its owner's forced claim |
| PosterProtocol.RequestWinsIff | internal/store/poster_jobs.sql.go:14-30 | in every reachable state: the first request wins; after that only the owner's, exactly if the row is failed, pending and stale, or ready and forced; a request that does not win changes nothing |
| PosterProtocol.LandingFills | internal/http/handlers/posters.go:155-208 | in every reachable state a goroutine that lands fills its own row and no other |
| PosterProtocol.FailureCanBeRetried | internal/http/handlers/posters.go:183-199 | after a generation lands a failure its owner's next request wins |
| PosterProtocol.StrandedJobIsReclaimed | internal/http/handlers/posters.go:23-26 | a job pending for longer than the bound is won by its owner's next request |
| PosterProtocol.LateDeadlineClobbers | internal/store/poster_jobs.sql.go:131-153 | past the bound, a run in which two goroutines live at once and the late one overwrites a finished poster |
| PosterProtocol.SafeIffTimely | internal/http/handlers/posters.go:23-36 | each safety property holds over all runs if and only if deadline plus skew is within the bound |
| PosterProtocol.DeployedTimeouts | internal/http/handlers/posters.go:23-36 | the deployed constants are safe if and only if credentials plus skew take at most 40 s; the context timeout alone is unsafe |
| Calendar.Ascending | internal/store/calendar.sql.go:300-337 | ORDER BY starts_at, id: every selected key once, increasing |
| Calendar.BuildPage | internal/http/handlers/calendar.go:220-240 | at most 20 rows are the page; of more, the first 20, with the last of them as cursor |
| Calendar.PageSplits | internal/http/handlers/calendar.go:221-240 | a page serves exactly the selected keys up to its cursor, and no cursor means nothing is left |
| Calendar.WalkIsIncreasing | internal/store/calendar.sql.go:300-337 | whatever happens to the tables between requests, served keys strictly increase |
| Calendar.StableRowsServedExactlyOnce | internal/http/handlers/calendar.go:196-240 | a finished walk served every row that stayed put exactly once |
| Calendar.ServedRowsWereThere | internal/store/calendar.sql.go:14-65 | every key served was shown in some snapshot of the walk |
| Calendar.StillTableIsServedWhole | internal/http/handlers/calendar.go:281-345 | on a fixed table the pages concatenate to the whole sorted, filtered list, and the walk ends |
| Calendar.TokensCarryTheWalk | internal/http/handlers/calendar.go:143-157 | with a lossless codec the walk by tokens is the walk above |
| Calendar.StartsAtBounds | internal/http/handlers/calendar.go:82-94 | with starts_at every key served starts strictly after it, and on a fixed table all such events are served |
| Calendar.CursorBounds | internal/http/handlers/calendar.go:62-73 | with a cursor every key served comes after its row, and on a fixed table all such events are served |
| Calendar.NoBounds | internal/http/handlers/calendar.go:143-157 | with neither, on a fixed table the whole feed is served |
| Calendar.BadParametersServeNothing | internal/http/handlers/calendar.go:143-157 | with both, or with one that does not decode, no page is served |
| Calendar.ParameterErrors | internal/http/handlers/calendar.go:62-94 | 422 for both at once, 400 for one that does not decode, no other error |
| Calendar.UserFeedShows | internal/store/calendar.sql.go:300-335 | matched, not archived, not over, and of the segment asked for or of none |
| Calendar.CityFeedShows | internal/store/calendar.sql.go:28-62 | the same for the city's venues, or the one asked for |
| Calendar.CursorsCarryTheWalk | internal/http/handlers/cursor.go:28-53 | the service's own tokens carry the walk for years 0 to 9999 |
| CursorCodec.Base64RoundTrip | internal/http/handlers/cursor.go:28-41 | unpadded base64url loses no byte string |
| CursorCodec.SymbolsAreTheAlphabet | internal/http/handlers/cursor.go:28-31 | the alphabet is the URL-safe one of section 5 of RFC 4648 |
| CursorCodec.FractionRoundTrip | internal/http/handlers/cursor.go:28-31 | nanoseconds survive trailing-zero trimming |
| CursorCodec.InstantRoundTrip | internal/http/handlers/cursor.go:28-47 | every instant of years 0 to 9999 survives |
| CursorCodec.UuidString | internal/http/handlers/calendar.go:384-400 | the dashed-hex loop writes each byte's digits at its place |
| CursorCodec.UuidRoundTrip | internal/http/handlers/calendar.go:384-400 | every 16-byte id survives |
| CursorCodec.CursorRoundTrip | internal/http/handlers/cursor.go:28-53 | decoding an encoded cursor gives back instant and id |
| Scorer.FoldDeduped | internal/matcher/fold.go:7-21 | the loop computes the fold |
| Scorer.FoldPrecedence | internal/matcher/fold.go:7-21 | for every key the fold has base's item, else extra's |
| Scorer.ArtistsFoldByPrecedence | internal/matcher/match_step.go:150-184 | no artist twice, each with the item of its highest-precedence list |
| Scorer.FileInterests | internal/matcher/match_step.go:140-176 | every interest lands in its user's list of its kind, in order |
| Scorer.OfKindMembers | internal/matcher/match_step.go:155-175 | a list of a kind holds exactly the user's rows of that kind |
| Scorer.LoadUsers | internal/matcher/match_step.go:110-190 | one profile per user, in order, with its own embedding, threshold and interest lists |
| Scorer.EmbedderAgreesWithScorer | internal/matcher/user_embedder.go:77-90 | the embedder's artist list is the scorer's mapped to display values |
| Scorer.CosineSimilarity | internal/matcher/scorer.go:68-82 | the loop computes dot over norms, zero on mismatched, empty or zero vectors |
| Scorer.CauchySchwarz | internal/matcher/scorer.go:68-82 | for vectors of any length, zero vectors included |
| Scorer.CosineInRange | internal/matcher/scorer.go:68-82 | cosine lies in [-1, 1], and a non-zero vector is at 1 from itself |
| Scorer.ComputeScore | internal/matcher/scorer.go:7-66 | each field in terms of the profiles: the total is wString times the string score plus wEmbedding times the embedding score; the string score is the clamped worth of performing artists and matching genres over stringMax; the embedding score is 0, 1/2 or half of one plus the cosine, 1 for equal vectors; who and what matched |
| Scorer.OneMoreInterest | internal/matcher/scorer.go:15-37 | one more artist adds weight times the artist factor if it performs, one more tag weight times the genre factor if the event has it, else nothing |
| Scorer.FactorsAreForTheirOwn | internal/matcher/scorer.go:15-37 | without a performing artist the artist factor does not matter, without a matching genre or tag the genre factor does not |
| Scorer.CosineTimesNorms | internal/matcher/scorer.go:68-82 | cosine times both norms is the dot product |
| Scorer.ScoreInRange | internal/matcher/scorer.go:43-57 | both parts lie in [0, 1], the total in [0, wString + wEmbedding] |
| MatchRun.MatchTable.UpsertUserEventMatch | internal/store/user_event_match.sql.go:46-53 | the pair's row is replaced |
| MatchRun.MatchTable.DeleteStaleMatchesForUsers | internal/store/user_event_match.sql.go:30-34 | exactly the users' rows stamped before the cutoff go |
| MatchRun.MatchTable.DeleteObsoleteMatches | internal/store/user_event_match.sql.go:14-21 | exactly the rows of archived or past events go |
| MatchRun.Run | internal/matcher/match_step.go:41-108 | the nested loops stamp exactly the pairs over the threshold, then prune and clean up |
| MatchRun.RunLeavesExactlyTheMatches | internal/matcher/match_step.go:41-108 | processed users keep exactly the matching pairs of events not obsolete; other users lose only obsolete rows |
| MatchRun.StampedEventsAreUpcoming | internal/store/events.sql.go:185-190 | loaded and not obsolete is the same as upcoming |
| MatchRun.MatchedIffUpcomingAndOver | internal/matcher/match_step.go:41-108 | after a run, a processed user is matched with an event if and only if it is not archived, not over, and its score exceeds the user's own threshold, or the default for one who has none |
| MatchRun.OneByOneScores | internal/matcher/match_step.go:41-108 | runs for one user after another leave the specified pairs and scores |
| MatchRun.BatchEqualsOneByOne | internal/matcher/match_step.go:31-108 | one run over all users leaves the same scores as a run per user, in any order |
| Fusion.RankingIsUnique | internal/http/handlers/fusion.go:60-75 | only one list of the fused ids obeys the comparison |
| Fusion.FuseRRF | internal/http/handlers/fusion.go:25-75 | the first min(limit, n) of the n ids found, none for a negative limit, in the ranking by score, then first appearance |
| Fusion.ScoreInFigures | internal/http/handlers/fusion.go:35-51 | a score is 1/(61 + position) summed over the legs that hold the id |
| Fusion.FusedIsUnique | internal/http/handlers/fusion.go:22-24 | no two lists meet that description, so map order cannot show |
| Fusion.SortEntries | internal/http/handlers/fusion.go:55-68 | the entries in the comparison's order |
| Fusion.BothLegsBeatOne | internal/http/handlers/fusion.go:35-58 | up to 61 candidates a leg, two legs beat one |
| Fusion.SixtyTwoTies | internal/http/handlers/fusion.go:11 | with 62 a tie goes the other way |
| Fusion.BothLegsFirstIff | internal/http/handlers/search.go:33-36 | the guarantee holds for lists of at most n if and only if n <= 61 |
| Fusion.FusionKeepsAgreedOrder | internal/http/handlers/fusion.go:35-75 | an id ahead in every leg that holds the other is ahead in the result |
| Fusion.LexicalAlone | internal/http/handlers/search.go:250-255 | an empty semantic leg gives the first min(limit, n) of the lexical list |
| Fusion.ResultsFor | internal/http/handlers/search.go:240-248 | every id renders, in order |
| Fusion.ApplySemanticLeg | internal/http/handlers/search.go:175-237 | without a semantic leg the first ten lexical rows, with one the fused list of at most ten, every id rendered by a row of a leg |
| Ical.PassesEscapeEachCharacter | internal/ical/calendar.go:80-88 | the four passes equal one escape per character |
| Ical.EscapeRoundTrip | internal/ical/calendar.go:80-88 | unescaping inverts it, and escaped text holds no LF |
| Ical.StampRoundTrip | internal/ical/calendar.go:38-47 | a written UTC time is read back to the second |
| Ical.LocationText | internal/ical/calendar.go:67-78 | name before address, a comma only between two |
| Ical.SplitFirstLine | internal/ical/calendar.go:26-29 | splitting at CRLF finds each written line |
| Ical.Builder.WriteLine | internal/ical/calendar.go:26-29 | one more content line |
| Ical.Builder.WriteEvent | internal/ical/calendar.go:40-62 | an event's lines, absent values omitted |
| Ical.FormatCalendar | internal/ical/calendar.go:24-65 | the text of the whole property list |
| Ical.CalendarComesBack | internal/ical/calendar.go:24-65 | a reader that insists on the seven header lines recovers name, UIDs, times, titles, locations, URLs and descriptions |
| Ical.CalendarComesBackIff | internal/ical/calendar.go:24-65 | it does so if and only if no UID and no URL holds a CRLF |
| EnrichmentCache.Cache.EnrichEvent | lambda/mastra-handler/src/enrichment.ts:160-313 | the gate, the three workflows and the single write, for every event, cache state and failure |
| EnrichmentCache.SkippedEventsPassThrough | lambda/mastra-handler/src/enrichment.ts:162-173 | no performer, or sports, arts-theatre or miscellaneous: the event as it came, the cache untouched |
| EnrichmentCache.GateInFull | lambda/mastra-handler/src/enrichment.ts:175-313 | for any other event, workflow by workflow: what is served, what is paid for, what is written, and what is left alone |
| EnrichmentCache.TtlsInFigures | lambda/mastra-handler/src/enrichment-cache.ts:24-39 | the lifetime of each outcome of each workflow in milliseconds |
| EnrichmentCache.Cache.Read | lambda/mastra-handler/src/enrichment-cache.ts:208-210 | a lookup under the object key |
| EnrichmentCache.Cache.Write | lambda/mastra-handler/src/enrichment-cache.ts:212-214 | the entry under the object key is replaced |
| EnrichmentCache.EnrichmentOnlyAdds | lambda/mastra-handler/src/enrichment.ts:160-313 | stripping the enrichment gives back the event, and an enriched message is complete |
| EnrichmentCache.GuardHolds | lambda/mastra-handler/src/enrichment.ts:123-131 | after a run, a call that does not replace the entry unread leaves a record at least as young, and a call that reads and runs again comes a whole TTL later |
| EnrichmentCache.RunsAreSpaced | lambda/mastra-handler/src/enrichment-cache.ts:24-39 | two runs of a workflow for a performer are at least the earlier outcome's TTL apart if the earlier call writes, the later reads and no call about the performer between them writes unread |
| EnrichmentCache.RunsAreBounded | lambda/mastra-handler/src/enrichment-cache.ts:103-107 | at most one run more than the six-hour periods the history spans, if among the calls about the performer earlier ones write and later ones read |
| EnrichmentCache.UnsafePairPaysTwice | lambda/mastra-handler/src/enrichment.ts:175-184 | for any other failures, a history in which both calls pay for the same workflow at one instant |
| EnrichmentCache.PairIsApartIff | lambda/mastra-handler/src/enrichment.ts:286-307 | two calls are kept apart in every history with given failures if and only if the earlier can write, the later can read and none between writes unread |
| EnrichmentCache.SpacedIffEnough | lambda/mastra-handler/src/enrichment.ts:160-313 | all runs are spaced, and their number bounded, in every history with given failures if and only if every call but the first can read and every call but the last can write |
| EnrichmentCache.ServedResultsAreYoung | lambda/mastra-handler/src/enrichment.ts:123-131 | whatever fails, each result served was paid for by this call or by one for the same performer less than its TTL ago |
| PosterKeys.FieldsComeBack | lambda/mastra-handler/src/poster-sink.ts:79-85 | the length-prefixed text is uniquely decodable, for any number of fields |
| PosterKeys.DigestInputText | lambda/mastra-handler/src/poster-sink.ts:84-85 | each field after its length and a colon |
| PosterKeys.DigestInputIsInjective | lambda/mastra-handler/src/poster-sink.ts:83-92 | equal digest inputs mean equal normalized fields |
| PosterKeys.JobID | internal/poster/client.go:176-190 | the hash of the hashes of user, performer, venue and date, in that order, in hexadecimal |
| PosterKeys.JobIDsAreUnambiguous | internal/poster/client.go:168-190 | equal job ids mean equal normalized keys or a hash collision |
| PosterKeys.SeparatorsCollide | internal/poster/client.go:171-175 | whatever the separator, joining is not injective |

## Left out

- Clocks, limiter library: a new limiter is taken to be full, `TokensAt` and a
  one-token reservation as documented for `golang.org/x/time/rate`; readings do
  not go back at lock acquisition in a run.
- Floating point: tokens, weights, scores and the fusion constants are reals;
  nanosecond truncation of the retry delay is not modelled.
- IngestDelivery.CrashErasure: ignores timestamps, and other writers act between attempts, not inside one; two workers on the same event are not coordinated by the code either.
- Surrogate ids: rows are keyed by their natural keys, so a foreign key is the key it points to.
- The event's embedding column and the re-match that follows an interest message are not part of ingest here.
- Statement failures other than running out of budget are the same as running out at that statement.
- Poster status writes that commit after their own timeout, and workers of
  another deployment version, are not modelled.
- The lookup of a finished poster job.
- PosterProtocol.DeployedTimeouts: the clock skew between API host and database and the time to fetch credentials are parameters.
- Calendar: the SQL engine is a set comprehension, `event_over_at` an arbitrary
  value per event; parsing of segment and venue parameters is left out.
- CursorCodec.CursorRoundTrip: the decoder of the source also accepts time offsets, other UUID spellings and line breaks inside base64, which no encoder of the service writes.
- Calendar.CursorsCarryTheWalk: the conversion between a database timestamp and its calendar fields is a parameter.
- MatchRun.BatchEqualsOneByOne: runs do not overlap; the source does not coordinate them.
- Scorer.ScoreInRange: a StringMax of zero, which the source would divide by, is excluded.
- Matched genres are a set here; the source lists them in no particular order.
- The order Go's sort gives equally old buckets is left open (any n oldest).
- Ical.CalendarComesBackIff: the venue's two halves come back joined, and times to the second; lines are not folded at 75 octets by the writer, so the reader does not unfold.
- EnrichmentCache.RunsAreSpaced: calls are serial and the clock does not go back; two concurrent invocations may both pay.
- S3 storage, JSON and schema validation of cache entries: an entry that fails
  validation is a read or write that failed.
- PosterKeys.JobIDsAreUnambiguous: SHA-256 is any function to 32 bytes, and normalization any function.
- The readable slugs and the truncation of the poster key's digest, which make
  the final object key unique only up to collisions.
- HTTP, queues, external APIs, LLM workflows, login, configuration and the UI.
