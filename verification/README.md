# Verification of the ev-metrics verifier, missing-range index, DA lookups and endpoint labels

This project models the part of ev-metrics that decides which blocks count as missing from the DA
layer, and proves what its metrics mean. It has four parts that share one lemma about printed numbers.

**Missing-range index** (`Ranges.dfy`, `Slices.dfy`, `MissingIndex.dfy`, `Decimal.dfy`, `Uint64.dfy`).
`Index` is a class with range objects on the heap, one sorted slice of them per blob type, two gauges
keyed by the printed range id and a total gauge. Recording a height has four outcomes (merge both
sides, extend left, extend right, new range) and so has removing one (delete, shrink at either end,
split). Each is proved to be a splice of the list of values, and one lemma about splices gives the set
that results, the normal form and the gauges. Heights are of a newtype with Go's uint64 range, so every
`+ 1` and `- 1` at a range boundary carries a proof that it does not wrap. Slices are headers on
backing arrays that append and its overlapping copies change in place. Ownership is tracked: no range
object is in two lists or twice in one, and no two lists share a backing array.

**Verifier** (`Verifier*.dfy`, `VerifyBlock.dfy`, `HeaderStream.dfy`, `Backfill.dfy`, `RunIndex.dfy`,
`Sums.dfy`).
`Verifier.dfy` is a step machine over the main loop and its pending send, backfill tasks, the queue of
capacity `2 * workers`, workers, delayed re-queue timers, retry rounds, the cooldown re-queue and
cancellation. An attempt is split into its start, the block query, the header part, the data part and
its end, and failures are recorded one by one, so that other workers interleave between them. RPC
answers, scheduling and select choices are inputs of a step; several jobs may exist for one height, and
headers of the same height may differ. Lineage numbers, round numbers, attempt counts per round and
the lists of received headers, outcomes, rounds, given-up jobs and enqueued and skipped heights are
bookkeeping on which no step branches. All conservation laws are instances of one lemma,
`VerifierFlow.Flow`: a step takes at most one job out of one place and puts at most one into another.
`VerifierCoverage.dfy` follows single heights from the header stream through backfills, queue, workers
and timers to a verified round. `VerifierOutcomes.dfy` traces every recorded outcome to the
answers behind it. `VerifyBlock.dfy` has `verifyBlock`, `verifyAttempt` and `onVerified` in
imperative form on a job object and on the heap index, proved equal to an uninterrupted run of the
machine's steps; `RunIndex.dfy` joins runs of the machine to the index.

**DA lookups** (`TtlCache.dfy`, `SharedFetch.dfy`, `CachedAnswers.dfy`, `DeliveredAnswers.dfy`). The
swept time-to-live map as a class, and a step machine over concurrent callers, a clock, running fetches,
two caches and cancellation.

**Endpoint labels** (`Endpoints.dfy`).

## Conditions and exceptions

- The code differs from its comment: `internal/clients/celestia/client.go:87` says a fetch runs once per
  key across concurrent callers. The code keeps two fetches of one key from running at the same time
  (`OneFlightPerRequest`), but a caller that missed the cache may start one later.
  `FetchesAgainExactly` says for every run when it does so although the answer is cached by then: exactly
  when no call of that key is running and one stored an answer between the miss and the join whose time
  to live has not passed. `SecondFetchPossible` is such a run with two concurrent callers.
- Gap detection in `ExportMetrics` reads `lastHeight == 0` as "none seen" and adds 1 to it in uint64
  arithmetic. Heights are overlooked exactly when a header jumps above height 1 while only height 0 was
  seen (`GapCoverage`). A backfill fails to start above everything before it exactly when a nonzero height
  follows height 2^64 - 1 (`BackfillsStartAbove`), and it really takes in a height received or
  backfilled before exactly when, moreover, an earlier height is below that one or it is not the first to
  follow (`RevisitsExactly`). Two backfills overlap exactly when such a height is above the start of an earlier
  backfill (`BackfillsDisjoint`); `WrapOverlap` is such a stream.
- The total gauge of missing blocks is a uint64 sum: it is the number of missing heights if and only if not
  every uint64 height is missing; then it reads 0 (`WrappedTotalExact`).
- Go's clock readings are monotonic, and with a monotone clock the sweep of the caches is invisible
  (`SweepInvisible`). For any clock, `SweepShowsExactly` says which lookups it changes: those at or before
  the expiry of the key's last put when a later put found that entry expired.
  `SweepVisibleIfClockGoesBack` shows that such a run exists for a clock that goes back, which the source's
  clock does not. After a put no expired entry remains exactly when the time to live is not negative
  (`NoneExpiredAfterPut`).

## Model

| member | source | states |
|---|---|---|
| MissingIndex.Index.RecordMissingBlock | pkg/metrics/metrics.go:460-529 | The list of the blob type gains exactly the given height and stays sorted, disjoint and never adjacent; every other type's list is unchanged; totals follow, and the labels of both gauges are the strings "start-end" of the listed ranges with those bounds as values; range objects and backing arrays are changed in place and none becomes shared; no boundary arithmetic wraps |
| MissingIndex.Index.RemoveVerifiedBlock | pkg/metrics/metrics.go:532-601 | The list of the blob type loses exactly the given height, with the same guarantees; an untracked height leaves the set of the type as it is |
| Slices.Copy | pkg/metrics/metrics.go:498 | copy moves a stretch of an array as if it were read before anything is written, also onto itself |
| Slices.Append | pkg/metrics/metrics.go:498 | append(s, t...) holds the elements of both as they were before; it stays in s's backing array exactly when the capacity suffices and is in a fresh one otherwise |
| Slices.Erase | pkg/metrics/metrics.go:561 | append(s[:i], s[i+1:]...) holds s without element i, in the same backing array |
| Slices.Insert | pkg/metrics/metrics.go:526 | The nested append holds s with the new element at i: the tail is saved before it is written over, with and without a move to a new array |
| MissingIndex.Index.EraseElement | pkg/metrics/metrics.go:498 | Takes one object out of a type's slice in place; no other slice changes and no backing array becomes shared |
| MissingIndex.Index.InsertElement | pkg/metrics/metrics.go:525-528 | Puts one object into a type's slice, in place or in a fresh array; no other slice changes and no backing array becomes shared |
| MissingIndex.Index.FindRangeIndex | pkg/metrics/metrics.go:617-629 | Binary search: everything before the returned index ends below the height, and the range at it ends at or above the height |
| MissingIndex.Index.RecordTotalMissingBlocks | pkg/metrics/metrics.go:450-457 | The total gauge of one type becomes the wrapped sum of its range sizes; other totals stay |
| MissingIndex.Index.UpdateRange | pkg/metrics/metrics.go:603-607 | Under the one label that reads "start-end" both gauges now show that start and that end, and nothing else changes |
| MissingIndex.Index.DeleteRange | pkg/metrics/metrics.go:609-613 | The label that reads "start-end" is gone from both gauges, and nothing else changes |
| MissingIndex.Index.Place | pkg/metrics/metrics.go:481-528 | The four ways of adding an untracked height exchange the neighbours it meets for the one joined range, in the list and in both gauges |
| MissingIndex.Index.TakeOut | pkg/metrics/metrics.go:557-600 | The four ways of taking a height out of its range exchange that range for what is left of it, in the list and in both gauges |
| MissingIndex.Index.MergeBoth | pkg/metrics/metrics.go:485-499 | The left range object absorbs the right one; both old labels go, one new label comes |
| MissingIndex.Index.Split | pkg/metrics/metrics.go:582-600 | One range object becomes two with the height between them missing, each under its own label |
| MissingIndex.DropMirrors | pkg/metrics/metrics.go:609-613 | Deleting one range's label leaves every other range published: a delete never hits another label |
| MissingIndex.ExchangeSound | pkg/metrics/metrics.go:460-601 | Exchanging a fitting part of one list together with its labels keeps all lists well formed and all gauges exact mirrors, for every blob type |
| MissingIndex.SoundLabels | pkg/metrics/metrics.go:603-634 | For every blob type the labels of both gauges are exactly the strings "start-end", in decimal without leading zeros, of the listed ranges, each with its own start and end as values |
| MissingIndex.OtherTypeUntouched | pkg/metrics/metrics.go:460-601 | Any deletions and publications for one blob type leave another type's gauges an exact mirror of its list |
| Ranges.CanonicalForm | pkg/metrics/metrics.go:460-601 | Two well-formed range lists that stand for the same set of heights are equal |
| Ranges.InsertIdempotent | pkg/metrics/metrics.go:475-479 | Recording a height twice gives the identical list |
| Ranges.InsertThenRemove | pkg/metrics/metrics.go:460-601 | Recording and then removing an untracked height gives back the identical list |
| Ranges.UpdatesCommute | pkg/metrics/metrics.go:460-601 | A record and a removal of different heights give the same list in either order |
| Ranges.InsertAt | pkg/metrics/metrics.go:481-528 | All four insert outcomes add exactly the height and keep the normal form |
| Ranges.RemoveFrom | pkg/metrics/metrics.go:557-600 | All four removal outcomes take away exactly the height and keep the normal form |
| Ranges.SpliceCovers | pkg/metrics/metrics.go:460-601 | A splice exchanges exactly the heights of the old middle for those of the new one |
| Ranges.CountIsCardinality | pkg/metrics/metrics.go:450-457 | The sum of the range sizes is the number of heights in the set |
| Ranges.WrappedTotalExact | pkg/metrics/metrics.go:450-457 | The uint64 total is the number of missing heights if and only if not every uint64 height is missing; otherwise it is 0 |
| Ranges.RangeIdInjective | pkg/metrics/metrics.go:632-634 | Different ranges print to different ids |
| Ranges.RangeIdReads | pkg/metrics/metrics.go:632-634 | A string is the id of a range if and only if it is two decimal numbers without leading zeros around a '-' that stand for its start and its end |
| Decimal.DecRoundTrip | pkg/metrics/metrics.go:632-634 | Reading the decimal form of a number gives the number back |
| Decimal.DecOfValue | pkg/metrics/metrics.go:632-634 | Printing the number a digit string without leading zeros stands for gives that string back |
| Decimal.DecInjective | pkg/metrics/metrics.go:632-634 | Decimal printing is injective |
| Decimal.SplitUnique | pkg/metrics/metrics.go:632-634 | A string splits at its first separator in one way only |
| Decimal.HexInjective | internal/clients/celestia/client.go:135 | Hexadecimal printing of bytes is injective |
| HeaderStream.FollowHeaders | pkg/exporters/verifier/verifier.go:188-201 | The main loop's lastHeight and backfill intervals, for any stream of uint64 heights |
| HeaderStream.GapCoverage | pkg/exporters/verifier/verifier.go:194-201 | At every point of a stream everything from the first height to lastHeight was received live or lies in a backfill interval, if and only if no jump is made while lastHeight is 0 |
| HeaderStream.BackfillsStartAbove | pkg/exporters/verifier/verifier.go:194-201 | Every backfill starts above all heights received or backfilled before, late and repeated headers included, if and only if no nonzero header follows height 2^64 - 1 |
| HeaderStream.RevisitsExactly | pkg/exporters/verifier/verifier.go:194-201 | The gap that height n opens holds a height received or backfilled before if and only if height n follows height 2^64 - 1 and an earlier height is below it or it is not the first to follow |
| HeaderStream.BackfillsDisjoint | pkg/exporters/verifier/verifier.go:194-201 | The backfill intervals of any stream are pairwise disjoint if and only if no height that follows height 2^64 - 1 is above the start of an earlier backfill |
| HeaderStream.BackfillsAscend | pkg/exporters/verifier/verifier.go:194-201 | When no nonzero height follows height 2^64 - 1 the backfill intervals moreover come in ascending order |
| HeaderStream.WrapOverlap | pkg/exporters/verifier/verifier.go:194-201 | A stream at the uint64 limit that backfills height 0 twice |
| Backfill.RunBackfill | pkg/exporters/verifier/verifier.go:244-268 | The loop ends and nothing wraps; it enqueues, in ascending order of height, exactly the fetched headers of its window up to where it stopped, each as it came; skipped counts the failed fetches; gap size = dropped + enqueued + skipped + not reached; it stops early only on cancellation |
| Backfill.NewestInOrder | pkg/exporters/verifier/verifier.go:242-268 | With no fetch error and no cancellation it enqueues exactly the fetched headers of the newest min(gap, 1000) heights, in ascending order |
| Backfill.Reconnect | pkg/exporters/verifier/verifier.go:217-240 | The first wait is the initial one and each further one twice the last, capped at 60 s, in closed form the initial wait doubled k times; it returns a subscription exactly when some attempt before cancellation succeeds, and at the first such attempt |
| VerifierFlow.Flow | pkg/exporters/verifier/verifier.go:203-210 | Every step changes the weight of all jobs, counted in any way, by exactly the one job it takes and the one it puts |
| VerifierLaws.StretchRecords | pkg/exporters/verifier/verifier.go:321-362 | Each stretch of verifyBlock balances outcomes recorded, rounds completed, parts already recorded on the job and the in-flight gauge |
| VerifierLaws.StretchKeepsOwing | pkg/exporters/verifier/verifier.go:347-361 | A job stops owing a blob only by recording it as verified, and a recorded failure leaves a job that still owes it |
| VerifierSafety.MissingIsLastFailure | pkg/exporters/verifier/verifier.go:298-308 | Replaying any outcomes, a height is missing if and only if its last outcome for that type was a failure |
| VerifierSafety.LatestIsHighest | pkg/metrics/metrics.go:436-447 | The DA height gauge is the highest DA height of a verified outcome |
| VerifierSafety.InvariantKept | pkg/exporters/verifier/verifier.go:106-431 | Every step of the exporter keeps all ledgers at once |
| VerifierSafety.InvariantHolds | pkg/exporters/verifier/verifier.go:106-431 | All ledgers hold after any run from the start |
| VerifierOutcomes.HistoryExactly | pkg/exporters/verifier/verifier.go:347-431 | Over every run an outcome is in the history if and only if some step recorded it: verified exactly for a blob still pending that is submitted, has a known DA block time and matches (or is empty data), under the DA height reported for that blob; failed exactly for a blob still pending when its job is out of retries |
| VerifierOutcomes.ResultFromFetch | pkg/exporters/verifier/verifier.go:376-428 | A worker judges a blob by the block result that ev-node answered in the same attempt of its job |
| VerifierOutcomes.VerifiedTraced | pkg/exporters/verifier/verifier.go:369-431 | Behind each verified outcome of every run stand ev-node's block result and a confirming DA answer of one attempt of one job, and the published DA height is the one that result gives for that blob |
| VerifierTheorems.NoMissingBlockForgotten | pkg/exporters/verifier/verifier.go:321-362 | In every reachable state each missing height of each type has the very job that recorded its last failure, past that record and still owing the blob; until cancellation it is in the queue, in a timer or with a worker, whatever duplicate jobs there are |
| VerifierTheorems.NothingLeftNothingMissing | pkg/exporters/verifier/verifier.go:347-361 | Before cancellation, when no job is left both missing sets are empty |
| VerifierTheorems.MissingMatchesHistory | pkg/exporters/verifier/verifier.go:298-308 | In every reachable state the missing set is the set of heights whose last recorded outcome was a failure |
| VerifierTheorems.JobConservation | pkg/exporters/verifier/verifier.go:271-362 | Each lineage is counted once among main loop, backfills, queue, workers, timers, jobs given up after cancellation and verified rounds; the queue holds at most 2 * workers; the in-flight gauge is the number of jobs whose start is set |
| VerifierTheorems.OnePlacePerLineage | pkg/exporters/verifier/verifier.go:271-362 | No lineage is in two places |
| VerifierTheorems.QueueIsFifo | pkg/exporters/verifier/verifier.go:115-126 | Over every run the jobs sent to the queue are those taken from it, in that order, followed by those in it |
| VerifierTheorems.AttemptAccounting | README.md:170-178 | In every reachable state the attempts counter of a type is the completed rounds that require it plus the unfinished rounds that have recorded it, and the failures counter counts the failed outcomes |
| VerifierTheorems.ExactlyOncePerRound | README.md:170-178 | A completed round has one header outcome, one data outcome if its block has transactions and no data outcome otherwise |
| VerifierTheorems.AtMostOnceSoFar | pkg/exporters/verifier/verifier.go:414-430 | An unfinished round has recorded one outcome for each part it is through with and none for the others |
| VerifierTheorems.RoundOver | pkg/exporters/verifier/verifier.go:342-361 | A completed round is completed once and no job is left in it |
| VerifierTheorems.RoundBounds | pkg/exporters/verifier/verifier.go:347-361 | A round begins at most max(1, number of retry intervals) attempts; a waiting retry has an unverified required part and waits for its own interval; a fresh job waits for the cooldown |
| VerifierTheorems.RoundOnlyAdvances | pkg/exporters/verifier/verifier.go:331-361 | Over any run from any reachable state, a job found again is in a later round, or in the same round with attempt and tries not lower and every verified part still verified |
| VerifierTheorems.BackfillAccounting | pkg/exporters/verifier/verifier.go:194-268 | The backfills started are those the received stream calls for; each accounts for every height of its gap; both backfill counters are the sums over them |
| VerifierCoverage.BackfillEnqueuesInOrder | pkg/exporters/verifier/verifier.go:242-268 | In every reachable state with an honest node each backfill has enqueued the heights of its window that it did not skip, once each and ascending; one that skipped none and is through has enqueued exactly the newest min(gap, 1000) |
| VerifierProgress.WhoCanMove | pkg/exporters/verifier/verifier.go:115 | The main loop, a backfill and a timer can send a ready job if and only if fewer than 2 * workers jobs are queued; a busy worker can always go on; an idle one can take from a queue that is not empty |
| VerifierProgress.NoDeadlock | pkg/exporters/verifier/verifier.go:271-296 | Uncancelled with a worker, any reachable state with a live job or unfinished backfill has an enabled step that is not a new header, a subscription change or cancellation |
| VerifierProgress.FavourableRunsEnd | pkg/exporters/verifier/verifier.go:252-362 | From a reachable state, runs of such steps with favourable answers are bounded, however they interleave |
| VerifierProgress.CanDrain | pkg/exporters/verifier/verifier.go:252-362 | From any reachable uncancelled state such a run leads to no work and nothing missing |
| VerifierCoverage.NoHeightOverlooked | pkg/exporters/verifier/verifier.go:149-362 | After any run with an honest node and no jump from height 0, every height from the first received up to lastHeight has a job or a verified round, was dropped or skipped by a backfill, or is still ahead of one |
| VerifierCoverage.DrainedMeansVerified | pkg/exporters/verifier/verifier.go:149-362 | Before cancellation, with nothing left to do, every such height has a verified completed round unless the backfill cap dropped it or its header fetch failed |
| VerifierCoverage.TracksStay | pkg/exporters/verifier/verifier.go:271-362 | A height that has a job or a verified round keeps one through every step, and a new job gives its height one |
| VerifierCoverage.NoHeaderLost | pkg/exporters/verifier/verifier.go:203-268 | Over every run each header that came in by subscription or backfill has a job or a verified round of exactly that header, transactions flag included, also next to other headers of its height |
| VerifierCoverage.JobsHaveHeaders | pkg/exporters/verifier/verifier.go:203-268 | Over every run every job, wherever it is, has a header that came in |
| VerifyBlock.RunVerifyBlock | pkg/exporters/verifier/verifier.go:321-362 | The code does to the metrics and hands to enqueueAfter exactly what an uninterrupted run of the step machine does |
| VerifyBlock.GiveUp | pkg/exporters/verifier/verifier.go:353-361 | Exhausted retries: the same for the failure records, the in-flight gauge and the cooldown re-queue |
| VerifyBlock.VerifyAttempt | pkg/exporters/verifier/verifier.go:369-431 | One attempt updates done flags and metrics as the machine's stretches do, and reports completeness truthfully |
| VerifyBlock.VerifyPart | pkg/exporters/verifier/verifier.go:382-412 | A blob counts as verified if and only if its own reported DA height is not 0, the DA block time is known and the blob matches or is empty data; then and only then one verified outcome is published, under that DA height |
| VerifyBlock.SoloIsARun | pkg/exporters/verifier/verifier.go:321-362 | That uninterrupted run is a run of the step machine in which only this worker moves |
| VerifyBlock.Metrics.OnVerifiedCall | pkg/exporters/verifier/verifier.go:298-308 | Publishing one outcome on counters and heap index has the effect the machine gives it on counters and sets |
| VerifyBlock.Metrics.RecordSubmissionAttempt | pkg/metrics/metrics.go:416-433 | Attempts of that type rise by one, failures by one unless successful; every other type and the DA heights stay |
| VerifyBlock.Metrics.RecordSubmissionDaHeight | pkg/metrics/metrics.go:436-447 | The DA height of a known type becomes the higher of the two; everything else stays |
| RunIndex.PublishHistory | pkg/exporters/verifier/verifier.go:298-308 | Recording any outcomes one after the other leaves a valid index with exactly the replayed counters and sets |
| RunIndex.PublishRun | pkg/exporters/verifier/verifier.go:298-308 | From a reachable state to the heap index: publishing its outcomes lists for each type exactly the heights whose last outcome was a failure, with the exact total unless the set is full and with gauges showing exactly the listed ranges |
| RunIndex.IndexFollowsRun | pkg/metrics/metrics.go:450-601 | After any run the index lists for each type exactly the heights whose last outcome was a failure, the total is the size of that set unless it is full, and the gauges show exactly the listed ranges |
| RunIndex.InterleavingInvisible | pkg/metrics/metrics.go:460-601 | Runs that agree on the last outcomes publish the identical list, however their workers interleaved |
| TtlCache.Cache.Get | internal/clients/celestia/client.go:61-70 | Serves an entry up to and including its expiry instant |
| TtlCache.Cache.Put | internal/clients/celestia/client.go:72-85 | Deletes exactly the expired entries and inserts the new one |
| TtlCache.SweepInvisible | internal/clients/celestia/client.go:72-85 | With a monotone clock any run of puts and gets answers as on a map that never deletes |
| TtlCache.SweepShowsExactly | internal/clients/celestia/client.go:61-85 | For any clock, lookups with and without the sweep differ if and only if a put after the key's last put found that entry expired and the lookup is not past its expiry |
| TtlCache.SweepVisibleIfClockGoesBack | internal/clients/celestia/client.go:72-85 | Such a run, with a clock going back |
| TtlCache.NoneExpiredAfterPut | internal/clients/celestia/client.go:72-85 | Right after a put no expired entry remains, if and only if the time to live is not negative |
| SharedFetch.FlightKeyInjective | internal/clients/celestia/client.go:130-135 | Equal singleflight keys are equal requests, within and across the two kinds of lookup |
| SharedFetch.InvHolds | internal/clients/celestia/client.go:61-165 | After any run caches hold only published, non-empty content, and every flight and every caller has a result true for its own key |
| DeliveredAnswers.ReturnYields | internal/clients/celestia/client.go:148-165 | A blob list and a block time become the flight's result as they are, "blob: not found" becomes the empty list, any other answer a failure |
| DeliveredAnswers.AnswerDelivered | internal/clients/celestia/client.go:87-102 | Over every run each caller that waits on a flight the node answered, early or late, returns exactly that answer, the fetch error exactly for a failure; only one whose own context is done may return that instead |
| DeliveredAnswers.LookupsAreTrue | internal/clients/celestia/client.go:124-146 | In any run what a caller returns is its own cancellation, the DA content of its key from the cache, or exactly what the node answered to a fetch of its key; so a non-empty value is the DA content, an empty list is the node's own, and the type assertion on the shared group never fails |
| DeliveredAnswers.LookAnswers | internal/clients/celestia/client.go:131-133 | In any run a lookup returns the DA content at once and starts nothing if and only if the cache still serves its key |
| DeliveredAnswers.NoCallerStuck | internal/clients/celestia/client.go:90-102 | In any run a caller that has not returned can go on, or the call it waits on can |
| CachedAnswers.StoredIsServed | internal/clients/celestia/client.go:135-140 | In any run, storing a non-empty success makes it the cached answer for its key through every further run until the time to live has passed, whatever other stores sweep and whoever stores that key again; an empty or failed result leaves both caches as they were |
| CachedAnswers.ServedExactly | internal/clients/celestia/client.go:61-85 | After a miss, through any run, the key is served at an instant if and only if some step since stored an answer for it whose time to live has not passed by then |
| CachedAnswers.FetchesAgainExactly | internal/clients/celestia/client.go:87-102 | Over every run, a caller that missed starts a fetch of an answer cached by then if and only if no call of its key is running and one stored an answer since the miss that is still served |
| SharedFetch.OneFlightPerRequest | internal/clients/celestia/client.go:90-102 | At most one fetch per request is running, and a waiting caller has one coming |
| SharedFetch.CancellationInvisible | internal/clients/celestia/client.go:87-102 | Taking a caller's cancellation and return out of any run leaves a run with the same caches, flights and results for everyone else |
| SharedFetch.SecondFetchPossible | internal/clients/celestia/client.go:87-102 | A run in which two concurrent callers of one key cause two fetches |
| Endpoints.RedactedPlain | pkg/utils/endpoint.go:15-34 | No redacted form holds '#', and hand-stripped ones hold no '/', '?' or '@' either |
| Endpoints.KeepsHostOnly | pkg/utils/endpoint.go:18-25 | An endpoint without a scheme is reduced to its host and port, whatever its userinfo and whatever follows the authority |
| Endpoints.KeepsOriginOnly | pkg/utils/endpoint.go:27-31 | An endpoint with a scheme is reduced to scheme, "://", host and port, whatever its userinfo and whatever follows the authority, for any parser that finds that scheme and host in it |
| Endpoints.NeverEchoed | pkg/utils/endpoint.go:27-31 | An endpoint with "://" gives "invalid-endpoint" unless the parser finds a scheme and a host, and then nothing but those two |
| Endpoints.LabelsDistinct | pkg/utils/endpoint.go:36-48 | Equal labels stand at equal positions |
| Endpoints.RedactEndpoints | pkg/utils/endpoint.go:38-48 | One label a position, in order: the redacted form itself, with "#" and the position in decimal exactly when that form occurred before; all labels differ |

## Left out

- Prometheus, HTTP, WebSocket, gRPC and JSON plumbing: gauges are maps, RPC answers are inputs. Gauge values are exact integers; float64 rounding above 2^53 is not modelled.
- Zero workers: allowed by the step machine, but the progress theorems need one worker, as nothing could take a job otherwise.
- Several chain ids sharing one Metrics: one chain id is fixed.
- Blob verification and protobuf unwrapping: an oracle that answers match, no match or error.
- Real time of timers and of the 30 s attempt timeout: a timer fires at some point after it is set and every attempt finishes. Timestamps, durations and block-time histograms are left out.
- Waiting timers, workers and backfills are chosen in any order; fairness of the Go scheduler is not modelled.
- Go slices: how far append over-allocates is the runtime's choice, so any capacity that suffices is allowed; nil and empty slices are not told apart where the source does not.
- The helper methods Place, TakeOut, MergeBoth, Move, Resize, Add, Discard, Erase, Insert, Split, Pick and SliceOf regroup statements of the two source methods; they are not source functions.
- Atomicity: onVerified takes the metrics lock once per metrics call; here one outcome is published in one step. Likewise sending to the queue and counting a backfilled block are one step, and so are starting a backfill and moving lastHeight.
- Pre-initialisation of counters to 0, the queue length gauge, SetSubscriptionUp, submission durations, SLO thresholds and CheckHealth: single assignments.
- A node that answers a backfill request with a header of another height: allowed by the step machine; only the theorems of VerifierCoverage about heights assume that it does not (through `Config.honestNode`).
- Backfill.Reconnect: durations are unbounded integers, so overflow of int64 by an initial wait of centuries is not modelled; the node's answers and the moment of cancellation are inputs.
- Namespace parsing in GetBlobsAtHeight: a failure there returns before any state is touched.
- singleflight: taken as documented (one running call per key, its result delivered to all waiters); its panics and Forget are not modelled. The bound on the detached fetch is one of the ways a fetch fails.
- Endpoints.RedactedPlain: url.Parse is any function that fails or returns a scheme and host without '#', as the authority of a URL ends there (section 3.2 of RFC 3986).
- RedactError and CategorizeError search message texts that other libraries choose, and the balance, drift and JSON-RPC exporters feed other metrics: none of them touches the state modelled here.
