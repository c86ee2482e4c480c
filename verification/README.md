# AutoMana: verified models of its algorithms and protocols

AutoMana is a FastAPI, Celery and Postgres application around trading-card prices. This
project models the parts of it that hold a real algorithm or protocol, and proves what they
are meant to guarantee. `dafny verify dfyconfig.toml` checks all of it.

| file | what it models |
|---|---|
| TokenBucket.dfy | the rate limiter: refill, grant and wait, and what any run of calls can get out of it |
| TierSchedule.dfy, Sorting.dfy | the tiered refresh: which slice of the sorted work-list is due in which slot of which day |
| ServiceChain.dfy | the two executors of a chain of services, Celery's and the command line's, and exactly when they agree |
| IncrementalLoad.dfy | the chains of a refresh day, run on the Celery executor: what is fetched, and what the load then stages |
| SearchQuery.dfy | the dynamic card search: parallel numbered condition lists and the four queries made of them |
| PriceCache.dfy | the read-through price cache under Redis failures and a changing view |
| StreamBridge.dfy | the thread-to-async bridge over a bounded queue |
| BeatPurge.dfy | the start-up purge of stale beat messages, alone and among other workers |
| StepParser.dfy | the command line's step parser |
| MetricsBuffer.dfy | the metrics buffer and its buckets, with who owns a bucket after a flush |
| ServiceManager.dfy | one service call over a pooled connection, with every failure it can meet |
| PasswordReset.dfy | password-reset tokens and the sessions a reset ends |
| TokenRefresh.dfy | the browser's single-flight token refresh |

Code that changes state is a class whose methods are proved against functions on values;
the lemmas are about those functions, over whole runs. Exceptions, clocks, random draws and
failures of other systems are parameters.

Where the code does something other than one would expect, the model follows the code and a
lemma says so, exactly:

- A negative request to the token bucket lifts its level above the capacity
  (`InRangeIffRequestNotNegative`); the window bound holds all the same.
- The load recomputes what is due, from lists it reads anew, not what was fetched. It stages
  what was fetched that day iff every fetched pair is still due and every due pair with an
  older file was fetched (`StagedAreTheFetchedIff`). Both halves can fail: a due pair that the
  API failed to serve is staged from an older file (`AStaleFileIsStaged`), and a pair that left
  the list after its slot ran is not staged (`ADroppedPrintIsNotStaged`).
- LREM goes by value, so of byte-identical messages the purge keeps the last one, not the
  first (`PurgeByPosition`). The four slots of tier 1 share a fingerprint, so queued messages
  of different slots count as duplicates (`OneSlotIsLost`).
- The client's timeout is overridden before the `try`, so a failing SET leaves it on the
  connection for whoever gets that next (`ConfigIsTheLastLeak`).
- A request deletes tokens that expire strictly after now, a reset accepts those that expire
  exactly now; in that instant an old and a new token are usable together
  (`NewerTokenOutlivesTheReset`).

## Model

| member | source | states |
|---|---|---|
| TokenBucket.WindowBound | src/automana/core/utils/rate_limits.py:12-30 | in every run, from any grant i to any later grant j, the tokens granted total at most capacity + rate * (t_j - t_i), whatever the sizes of the requests |
| TokenBucket.SinceGrant | src/automana/core/utils/rate_limits.py:15-27 | the tokens granted since grant i plus the level now never exceed one full bucket plus what accrued since grant i |
| TokenBucket.LevelNeverNegative | src/automana/core/utils/rate_limits.py:19-26 | the level is never negative after any run, and `updated_at` is the last clock reading |
| TokenBucket.LevelWithinCapacity | src/automana/core/utils/rate_limits.py:19-26 | with no negative request the level stays at most capacity over any run |
| TokenBucket.InRangeIffRequestNotNegative | src/automana/core/utils/rate_limits.py:19-26 | a turn keeps every in-range level in range exactly when the request is not negative; a negative request overfills the bucket |
| TokenBucket.PollBudget | src/automana/core/utils/rate_limits.py:15-27 | one turn hands out and leaves behind no more than a full bucket, and no more than it found plus what accrued |
| TokenBucket.MetIffCovered | src/automana/core/utils/rate_limits.py:19-25 | a request is met iff it fits the capacity and is covered by the level found plus rate times the elapsed time |
| TokenBucket.PollTakesExactly | src/automana/core/utils/rate_limits.py:15-27 | a met request takes out exactly what it asked for, and a denied one nothing, from a bucket refilled to at most its capacity |
| TokenBucket.RequestsAdd | src/automana/core/utils/rate_limits.py:12-27 | requests that arrive together are one request: whenever their sum is met, so are both one after the other, and the same level is left |
| TokenBucket.GrantedAndLeft | src/automana/core/utils/rate_limits.py:12-27 | over any run in which no refill overflows nothing is lost: what is left plus what was granted is what was found plus what the rate produced |
| TokenBucket.RefillTwice | src/automana/core/utils/rate_limits.py:19-23 | refilling at two instants equals refilling once at the later one |
| TokenBucket.DeniedPollsLeaveNoTrace | src/automana/core/utils/rate_limits.py:14-30 | any number of denied turns leaves the level of one refill over the whole time, and a run grants nothing iff that single refill never suffices at any of its turns |
| TokenBucket.WaitIsEarliest | src/automana/core/utils/rate_limits.py:29-30 | the computed sleep ends at exactly the earliest instant at which the request can be met |
| TokenBucket.GrantableIffFits | src/automana/core/utils/rate_limits.py:19-29 | a request can ever be met iff it is at most the capacity |
| TokenBucket.DeniedAtMostOnce | src/automana/core/utils/rate_limits.py:14-30 | if sleeping never returns early, a request that fits is denied at most once |
| TokenBucket.OnlyTheLastLookCounts | src/automana/core/utils/rate_limits.py:14-30 | a call whose earlier turns were denied leaves the bucket as if only its last turn had happened |
| TokenBucket.AsyncTokenBucket.constructor | src/automana/core/utils/rate_limits.py:5-10 | a new bucket is full, its clock is now and its run is empty, whatever rate and capacity; with neither negative it is valid |
| TokenBucket.AsyncTokenBucket.Look | src/automana/core/utils/rate_limits.py:15-27 | one turn of the loop: the verdict and the new level are those of refill-then-take |
| TokenBucket.AsyncTokenBucket.LookUntilGranted | src/automana/core/utils/rate_limits.py:14-30 | the loop alone: which turn ends it, and the level that leaves |
| TokenBucket.AsyncTokenBucket.Acquire | src/automana/core/utils/rate_limits.py:12-30 | the call returns at the first clock reading at which one refill of the level found on entry suffices, takes the tokens then, and otherwise leaves that refill; with rate zero a denied call fails with a division by zero; and if sleeping never returns early, a request that fits is granted by the second turn at the latest |
| TokenBucket.AsyncTokenBucket.RateLimit | src/automana/core/utils/rate_limits.py:12-30 | the window bound for whatever sequence of calls brought the object to its present state |
| TierSchedule.WindowOf | src/automana/worker/tasks/pipelines.py:376-377 | every tier spreads its list over at least one day and one slot a day |
| TierSchedule.RankIsNameOrder | src/automana/worker/tasks/pipelines.py:371-375 | the rank used for sorting is the string order of the market names |
| TierSchedule.PairKeyIsTupleOrder | src/automana/worker/tasks/pipelines.py:391-392 | the sort key orders pairs as Python orders (print id, market name) tuples and is injective |
| TierSchedule.WorkListCount | src/automana/worker/tasks/pipelines.py:388-393 | the work-list holds a pair as often as its print id is listed, for exactly the tier's markets |
| TierSchedule.WorkListIgnoresOrder | src/automana/worker/tasks/pipelines.py:388-393 | the same ids in any order give the same work-list, so different days cut the same list |
| TierSchedule.WorkListIsTheSortedPairs | src/automana/worker/tasks/pipelines.py:391-392 | the work-list is any list of the tier's pairs, sorted: sorting the ids first makes no difference |
| Sorting.SortByIsSort | src/automana/worker/tasks/pipelines.py:391-392 | sorting permutes and orders |
| Sorting.SortIgnoresOrder | src/automana/worker/tasks/pipelines.py:391-392 | sorting by an injective key depends only on the multiset sorted |
| TierSchedule.SliceSize | src/automana/worker/tasks/pipelines.py:403-408 | no slice is shorter than the regular size, nor longer by more than total_slots - 1 |
| TierSchedule.TicksAreWrapped | src/automana/worker/tasks/pipelines.py:405-408 | the slices of k consecutive slots are one stretch of the work-list that wraps past its end |
| TierSchedule.WindowIsTicks | src/automana/worker/tasks/pipelines.py:396-408 | what all slots of window_days consecutive days compute, one after the other, are the slices of total_slots consecutive slots |
| TierSchedule.FullRound | src/automana/worker/tasks/pipelines.py:405-408 | total_slots consecutive slots partition the work-list, wherever they start |
| TierSchedule.ExactlyOncePerWindow | src/automana/worker/tasks/pipelines.py:377-408 | running every slot of window_days consecutive days from any day, before or after the epoch, refreshes each pair of the tier exactly as often as its id is listed, if the list stays the same over the window: once for distinct ids |
| TierSchedule.SameSliceIffSamePhase | src/automana/worker/tasks/pipelines.py:404-405 | two (day, slot) combinations choose the same slice iff the slots are equal and the days differ by a multiple of window_days |
| TierSchedule.SlicesDisjoint | src/automana/worker/tasks/pipelines.py:403-408 | different slices of a duplicate-free work-list share no pair |
| TierSchedule.ReturnsExactlyEachWindow | src/automana/worker/tasks/pipelines.py:396-408 | with distinct ids and a list that stays the same, a pair due in a slot is due again in exactly that slot of every window_days-th day and at no other time |
| TierSchedule.SlotOfPosition | src/automana/worker/tasks/pipelines.py:377-408 | the pair at position i of the work-list is refreshed in slot `slot` of day `day` if, and with distinct ids only if, the slot's count since the epoch modulo 28, 14 or 30 is i divided by the part size, the last part taking the remainder |
| TierSchedule.TierCovers | src/automana/worker/tasks/pipelines.py:371-375 | tier 1 covers all four markets of each listed id, tier 2 tcg and cardmarket, tier 3 tcg |
| ServiceChain.RunSteps | src/automana/tools/run_service.py:136-159 | the command line's loop makes the calls and leaves the world that the recursive definition of the accumulated-results chain says |
| ServiceChain.CliArguments | src/automana/tools/run_service.py:136-159 | on the command line a step gets exactly the parameters it accepts: its own explicit ones, otherwise the value that the latest earlier step to return the name returned; the services run one after the other, each on the world the one before left, up to the first that is unknown or raises |
| ServiceChain.CeleryArguments | src/automana/worker/main.py:57-108 | in a Celery chain likewise, but explicit arguments of earlier steps reach later ones, too: the latest earlier step that returned or was given the name decides, its result before what it was given |
| ServiceChain.ExecutorsAgree | src/automana/worker/main.py:57-64 | if each earlier explicit argument that is also a parameter of a step is supplied again by that step, the Celery chain and the command line call every service with the same arguments and get the same results |
| ServiceChain.AgreeIffResupplied | src/automana/tools/run_service.py:141-159 | that condition is exact: the two executors agree for every behaviour of the services iff it holds |
| ServiceChain.DisagreeFrom | src/automana/tools/run_service.py:141-159 | without the condition, services that do nothing already receive different arguments |
| IncrementalLoad.GroupPairsByMarket | src/automana/worker/tasks/pipelines.py:411-416 | grouping keeps each market's ids in list order and makes no empty group |
| IncrementalLoad.NameOrder | src/automana/worker/tasks/pipelines.py:459 | all markets in the order of their names |
| IncrementalLoad.TierRefresh | src/automana/worker/tasks/pipelines.py:432-468 | the chain of a tier's slot: start, one fetch per market of its slice, finish; nothing when the run is active |
| IncrementalLoad.TierPlanFetchesItsSlice | src/automana/worker/tasks/pipelines.py:452-468 | executing that chain adds exactly the files of the slice's pairs that the price API serves, and finishes the run it started |
| IncrementalLoad.TierTodayIdsForMarket | src/automana/worker/tasks/pipelines.py:419-429 | the recomputed ids are the ascending ids of the market over all slots of the day, by the list this call is given and the date at each slot |
| IncrementalLoad.CollectMarketIds | src/automana/worker/tasks/pipelines.py:502-508 | the merged ids per market are those due in any tier, by the lists read for each tier and market, which may differ |
| IncrementalLoad.InDueToday | src/automana/worker/tasks/pipelines.py:419-429 | a pair is due for the load iff some tier has its market and one of the tier's slots today, cut from the list read for that tier and market, has the pair |
| IncrementalLoad.MakeLoadLinks | src/automana/worker/tasks/pipelines.py:517-533 | one bulk_load and staging pair of links per market that has ids, in order |
| IncrementalLoad.IncrementalLoad | src/automana/worker/tasks/pipelines.py:488-537 | the whole chain of the load; nothing when the run is active |
| IncrementalLoad.CycleRuns | src/automana/worker/tasks/pipelines.py:517-533 | in any inherited context one cycle stages exactly the due files of its own market, under that market's source |
| IncrementalLoad.TailRuns | src/automana/worker/tasks/pipelines.py:534-537 | the last three links leave what was staged as it is, promote all of it, and finish the run whose id the context carries |
| IncrementalLoad.LoadPlanStages | src/automana/worker/tasks/pipelines.py:510-537 | executing the load stages each due pair that has a file once, under `_MARKET_SOURCE` of its market, promotes after everything is staged, and finishes its run |
| IncrementalLoad.SourceIsName | src/automana/worker/tasks/pipelines.py:379-385 | a market's source code is its name, but for starcity |
| IncrementalLoad.LoadPlanOrder | src/automana/worker/tasks/pipelines.py:510-537 | the load's chain starts its own run, stages, retries the rejects, promotes and finishes the run, in this order |
| IncrementalLoad.SlotsFetch | src/automana/worker/tasks/pipelines.py:432-468 | whichever slots ran, in any order, each with its own list, date and answers of the API: the files grow by exactly the served pairs of their slices, and exactly their runs are finished |
| IncrementalLoad.SteadyDayFetchesWhatIsDue | src/automana/worker/tasks/pipelines.py:396-468 | on a day on which every slot ran and lists and date stayed the same, the pairs fetched are exactly those the load takes to be due and the API served |
| IncrementalLoad.DayStages | src/automana/worker/tasks/pipelines.py:411-537 | whichever slots ran, on whatever lists and dates, and whatever lists the load reads: the load stages exactly the pairs due by its own reading that have a file, fetched today or older, each once and under its market's source, all before the promotion, and every run that was started is finished |
| IncrementalLoad.StagedAreTheFetchedIff | src/automana/worker/tasks/pipelines.py:411-537 | on any such day the load stages exactly the rows of the pairs fetched that day iff every fetched pair is due by the load's own reading and every due pair with an older file was fetched |
| IncrementalLoad.SteadyDayStagesTheFetchedIff | src/automana/worker/tasks/pipelines.py:411-537 | when every slot ran and lists and date stayed the same: iff no due pair that the API failed to serve has an older file |
| IncrementalLoad.AStaleFileIsStaged | src/automana/worker/tasks/pipelines.py:488-537 | a failing day: all slots ran on steady lists, print 1 is due, nothing is served, an old file is there, and the load stages a price that nobody fetched |
| IncrementalLoad.ADroppedPrintIsNotStaged | src/automana/worker/tasks/pipelines.py:419-421 | a failing day: all slots ran, print 1 was due and fetched, the lists the load reads have lost it, and its price is not staged |
| IncrementalLoad.LeftOverIsStaged | src/automana/worker/tasks/pipelines.py:517-533 | whatever ran and was served, a pair that has a file and is due by the load's reading is staged |
| SearchQuery.Search | src/automana/core/repositories/card_catalog/card_repository.py:401-785 | the queries built by counters, two parallel lists and prefixes are the queries of the filters in force, whatever upper-casing does; LIMIT is bound to the limit and OFFSET to the offset; ORDER BY reuses the placeholder of the name condition iff a name is given and that of the oracle text condition iff that is given |
| SearchQuery.PageAndOrder | src/automana/core/repositories/card_catalog/card_repository.py:609-733 | for any filters, limit and offset, LIMIT and OFFSET have a placeholder each, bound to the limit and the offset, and ORDER BY names exactly the placeholders of the text conditions in force |
| SearchQuery.QueriesMean | src/automana/core/repositories/card_catalog/card_repository.py:599-785 | for every combination of filters and every row: the page and the count hold iff all filters hold, the promo facet under its prefix of values iff all but promo_type, the rarity facet under its own values iff all but rarity |
| SearchQuery.AllQueriesWellNumbered | src/automana/core/repositories/card_catalog/card_repository.py:722-785 | each of the four queries uses exactly the placeholders 1..n of the n values it is sent, LIMIT and OFFSET included, and ORDER BY reuses only existing ones |
| SearchQuery.OrderSlotsBound | src/automana/core/repositories/card_catalog/card_repository.py:609-632 | ORDER BY's reused placeholders are bound to the very name and oracle text that were given |
| SearchQuery.SlotsAreOneToN | src/automana/core/repositories/card_catalog/card_repository.py:416-597 | a condition list numbers its placeholders 1..n without gap or repeat, skipping the conditions that bind nothing |
| SearchQuery.RenderMeans | src/automana/core/repositories/card_catalog/card_repository.py:416-597 | under any values that start with its own, a numbered condition list holds iff every filter on it holds |
| SearchQuery.RenderPrefix | src/automana/core/repositories/card_catalog/card_repository.py:587-603 | a prefix of the condition list needs only the matching prefix of the values |
| SearchQuery.NonRarityActive | src/automana/core/repositories/card_catalog/card_repository.py:440-444 | the list without rarity is the filters in force with only the rarity filter left out |
| SearchQuery.NonRarityMeans | src/automana/core/repositories/card_catalog/card_repository.py:604 | that list holds iff all filters but rarity hold |
| SearchQuery.BeforePromoMeans | src/automana/core/repositories/card_catalog/card_repository.py:584-588 | the conditions before the snapshot hold iff all filters but promo_type hold |
| SearchQuery.Builder.Both | src/automana/core/repositories/card_catalog/card_repository.py:446-452 | a bound condition goes on both lists, each under its own number |
| SearchQuery.Builder.BothFixed | src/automana/core/repositories/card_catalog/card_repository.py:427-431 | a condition without a value goes on both lists and uses up no number |
| SearchQuery.Builder.Rarity | src/automana/core/repositories/card_catalog/card_repository.py:440-444 | rarity goes on the main list only |
| SearchQuery.Builder.Collect | src/automana/core/repositories/card_catalog/card_repository.py:401-582 | every filter but promo_type, with the placeholders ORDER BY may reuse |
| SearchQuery.Builder.Finish | src/automana/core/repositories/card_catalog/card_repository.py:584-785 | the snapshot, the promo_type filter and the slices of the values give the four queries, the page under its limit and offset |
| PriceCache.EveryRunIsFresh | src/automana/core/repositories/card_catalog/card_repository.py:286-346 | after any sequence of calls, view changes, waits and Redis failures from an empty cache, every price the next call returns was the view's projection at some instant of the last 86400 s |
| PriceCache.ReturnedPricesAreFresh | src/automana/core/repositories/card_catalog/card_repository.py:286-346 | the same for one call from any state that keeps the cache invariant |
| PriceCache.StepKeepsInv | src/automana/core/repositories/card_catalog/card_repository.py:335-343 | calls, view changes, waiting, undecodable bytes and evictions keep the cache invariant |
| PriceCache.AnsweredIds | src/automana/core/repositories/card_catalog/card_repository.py:292-346 | exactly the asked-for ids that the cache supplied or the view has are answered, with the view's projection where the view was asked and the cached price otherwise; an id in neither is absent |
| PriceCache.ReadingIsExact | src/automana/core/repositories/card_catalog/card_repository.py:292-307 | the hits are the cached prices before the first value that does not decode, if any, and then every id is asked of the view; otherwise exactly the ids that are not cached, in order; without Redis every id |
| PriceCache.RaisesIff | src/automana/core/repositories/card_catalog/card_repository.py:305-321 | the call raises iff the view was needed and its query failed |
| PriceCache.QuietViewIsAnsweredExactly | src/automana/core/repositories/card_catalog/card_repository.py:286-346 | a view unchanged for a day is answered exactly, whatever Redis does |
| PriceCache.ProjectShowsColumns | src/automana/core/repositories/card_catalog/card_repository.py:320-333 | every column that is there is shown; a missing price stays missing, missing changes read as zero and a missing spark as empty, so a row of nothing reads like the defaults of a card without a row |
| PriceCache.WrittenForADay | src/automana/core/repositories/card_catalog/card_repository.py:312-346 | an entry taken from the view and written is answered from the cache for exactly 86400 s, with the value the call returned; every other entry stays as it was, and a failed query writes nothing |
| PriceCache.RepeatAsksNothing | src/automana/core/repositories/card_catalog/card_repository.py:286-346 | the same ids asked again right away, all known to the view and written, need no query and get the same answer, whatever the state of the cache before |
| PriceCache.CardReferenceRepository.ReadCached | src/automana/core/repositories/card_catalog/card_repository.py:292-303 | the reading loop yields hits and misses in order; at the first undecodable value it keeps the hits so far and asks the view for every id |
| PriceCache.CardReferenceRepository.FetchPricesForCards | src/automana/core/repositories/card_catalog/card_repository.py:272-346 | the method returns and writes back what the specification of a call says, and fails iff the view was needed and its query failed |
| StreamBridge.EveryRunKeepsInv | src/automana/core/storage/storage.py:273-302 | in every interleaving, yielded, taken, queued, in the producer's hand and unparsed items make up the source in order; the queue keeps its bound; the sentinel is last and unique |
| StreamBridge.FinalStateIsComplete | src/automana/core/storage/storage.py:290-302 | at the end the consumer has yielded exactly what was parsed before any error and raises iff the producer failed, with that error |
| StreamBridge.SomebodyCanMove | src/automana/core/storage/storage.py:277-302 | no deadlock: while the stream has not ended, the producer or the draining consumer can take a step |
| StreamBridge.StepsCountDown | src/automana/core/storage/storage.py:277-302 | every step lowers the measure by exactly one |
| StreamBridge.EveryStreamEndsAfter4nPlus4Steps | src/automana/core/storage/storage.py:277-302 | for every source of n items, error point and queue bound, a run ends after exactly 4n + 4 steps and can go on before that |
| StreamBridge.Bridge.ParseNext | src/automana/core/storage/storage.py:277-283 | asking the parser: an item in hand, the end, or the error in its cell |
| StreamBridge.Bridge.Put | src/automana/core/storage/storage.py:281-285 | putting an item or, finally, the sentinel, when the queue has room |
| StreamBridge.Bridge.Get | src/automana/core/storage/storage.py:294-297 | taking an entry from a queue that is not empty, the sentinel ending the loop |
| StreamBridge.Bridge.Yield | src/automana/core/storage/storage.py:298 | handing the item on, then getting the next |
| StreamBridge.Bridge.Check | src/automana/core/storage/storage.py:299-300 | after the sentinel the consumer raises iff the cell holds an error |
| BeatPurge.BuildBeatFingerprints | src/automana/worker/main.py:125-135 | the set of fingerprints of the schedule's entries, and nothing else |
| BeatPurge.NamedTasksShareAFingerprint | src/automana/worker/main.py:125-152 | two entries share a fingerprint iff they name the same Celery task and, for run_service, the same non-empty path |
| BeatPurge.GroupMessages | src/automana/worker/main.py:158-164 | the snapshot's messages grouped by fingerprint in list order, each fingerprint once, in order of first occurrence |
| BeatPurge.Redis.Lrem | src/automana/worker/main.py:170 | LREM 1 removes the head-most element equal in value |
| BeatPurge.Redis.RemoveDuplicates | src/automana/worker/main.py:168-170 | one LREM for every message of a group but its first |
| BeatPurge.Redis.PurgeStaleBeatTasks | src/automana/worker/main.py:154-172 | an undisturbed purge asks for every group without its first message, and the list loses exactly that many of the head-most copies of each value |
| BeatPurge.RemoveIsDropOne | src/automana/worker/main.py:170 | LREM calls add up: their order does not matter, only how often each value was named |
| BeatPurge.PurgeLeavesOnePerFingerprint | src/automana/worker/main.py:154-172 | afterwards the multiset is the initial one minus each group's tail, every message outside the schedule is there in its original order, and each fingerprint of the snapshot has exactly one message left, equal to its first |
| BeatPurge.PurgeByPosition | src/automana/worker/main.py:168-170 | which copy survives: the last one in the list that equals the first message of its fingerprint |
| BeatPurge.Redis.OnWorkerReady | src/automana/worker/main.py:125-172 | the start-up handler: of the messages of each schedule entry (its task and, for run_service, its path) the first is left if any was queued, and of the messages of no entry all, in their order |
| BeatPurge.EveryEntryKeepsOne | src/automana/worker/main.py:125-172 | for any list: the purge keeps the first message of every entry and all messages of none, in their order |
| BeatPurge.SchedulePurge | src/automana/worker/main.py:125-172 | after the purge of a schedule, messages that do not decode and messages that no entry sends all survive, in their order, and each entry's fingerprint has one message left if any was queued, equal to the first |
| BeatPurge.OneSlotIsLost | src/automana/worker/main.py:133 | two different messages of one scheduled task never both survive: of two queued slots of tier 1, one is lost |
| BeatPurge.Balanced | src/automana/worker/main.py:156-172 | with pushes and pops of others between the LREM calls, snapshot + pushed = remaining + popped + purged, and no more is purged than was named |
| BeatPurge.ConcurrentPurgeIsSafe | src/automana/worker/main.py:156-172 | then also only beat messages are purged, per fingerprint fewer than the snapshot had, and every fingerprint of the snapshot is still queued or was taken by a worker |
| StepParser.ParseSteps | src/automana/tools/run_service.py:109-134 | the iterator loop computes the recursive parse of its tokens |
| StepParser.RoundTrip | src/automana/tools/run_service.py:109-134 | the flattened tokens of any list of steps, each argument as `--key value` or `--key=value`, parse back to those steps, when later services do not start with two dashes and keys contain no equals sign and do not start with a dash; values may be anything |
| StepParser.ParsesExactlyTheWritings | src/automana/tools/run_service.py:109-134 | every token list is such a writing, possibly followed by one flag that lacks its value: in the first case it parses to exactly those steps, in the second the parser reports that flag |
| StepParser.Readable | src/automana/tools/run_service.py:118-132 | the decomposition of a token list into written steps and a dangling flag |
| StepParser.DanglingFails | src/automana/tools/run_service.py:123-126 | a last flag without equals sign and value is reported by its key |
| MetricsBuffer.EveryRunBalances | src/automana/core/metrics/buffer.py:45-81 | over any sequence of recordings and flushes, the observations in all flushed buckets followed by the live one are, for every key, exactly those recorded, in order and each once; and no bucket is empty |
| MetricsBuffer.MetricsBuffer.ApiAccounts | src/automana/core/metrics/buffer.py:45-81 | whatever calls brought the object here, for every key: what the flushes returned, then what its live bucket holds, is what was recorded |
| MetricsBuffer.MetricsBuffer.CeleryAccounts | src/automana/core/metrics/buffer.py:51-81 | the same for Celery runs |
| MetricsBuffer.MetricsBuffer.AddApiMetric | src/automana/core/metrics/buffer.py:32-49 | the observation joins the key's bucket, made if missing; every key keeps the bucket object it had, and every other live bucket and every bucket ever flushed holds what it held |
| MetricsBuffer.MetricsBuffer.AddCeleryMetric | src/automana/core/metrics/buffer.py:51-67 | the same for Celery runs, as a success or a failure |
| MetricsBuffer.MetricsBuffer.Flush | src/automana/core/metrics/buffer.py:69-81 | returns the very bucket objects that were live, holding what the recordings amount to, and forgets them, so that nothing mutates them afterwards |
| MetricsBuffer.MetricsBuffer.Size | src/automana/core/metrics/buffer.py:89-96 | counts the keys recorded since the last flush |
| MetricsBuffer.MetricBucket.Add | src/automana/core/metrics/bucket.py:14-27 | request_count stays the number of response times, and the error and cache-hit counts those of the recorded flags |
| MetricsBuffer.CountsErrors | src/automana/core/metrics/bucket.py:14-27 | the error count of observations is the number of those that were errors |
| MetricsBuffer.CountsCacheHits | src/automana/core/metrics/bucket.py:14-27 | the cache-hit count is the number of those that came from the cache |
| MetricsBuffer.CountsSuccesses | src/automana/core/metrics/bucket.py:77-93 | likewise the success count |
| MetricsBuffer.MetricBucket.Aggregate | src/automana/core/metrics/bucket.py:38-48 | the reported counts are those of the observations, and the rates lie in [0, 1] and are exact, zero for an empty bucket |
| MetricsBuffer.CeleryMetricBucket.AddSuccess | src/automana/core/metrics/bucket.py:77-84 | a success counts as one and adds its time |
| MetricsBuffer.CeleryMetricBucket.AddFailure | src/automana/core/metrics/bucket.py:86-93 | a failure counts as one and adds its time |
| MetricsBuffer.CeleryMetricBucket.Aggregate | src/automana/core/metrics/bucket.py:102-111 | the success count and rate of the observations; successes and failures add up to all of them |
| MetricsBuffer.Rate | src/automana/core/metrics/bucket.py:43-48 | part / whole, or zero without requests |
| MetricsBuffer.Max | src/automana/core/metrics/bucket.py:52-52 | the maximum of the times, none for an empty list |
| ServiceManager.ServiceManager.UseConnection | src/automana/core/framework/service_manager.py:240-312 | what the override, the repositories, the body and the `finally` do to the client's configuration, the server's timeouts, the transaction and the database, for every combination of failures; and that the body ran under the service's own timeout on both sides |
| ServiceManager.ServiceManager.InTransaction | src/automana/core/framework/service_manager.py:68-86 | the connection is given back; the transaction takes effect as a whole iff it started and body and commit both succeeded |
| ServiceManager.ServiceManager.OnConnection | src/automana/core/framework/service_manager.py:62-66 | the connection is given back; without a transaction whatever the body wrote stays, even if it raised |
| ServiceManager.ServiceManager.Release | src/automana/core/framework/service_manager.py:84-86 | only a connection that is out can be given back, so giving back twice is impossible |
| ServiceManager.ServiceManager.ExecuteService | src/automana/core/framework/service_manager.py:182-320 | by the faults alone: a body that raises is never a success; in a transaction any failure leaves the database as it was; a call without a fault succeeds with all its writes; the body saw its own timeouts; at release the client's timeout equals that at acquisition iff the SET did not fail or asked for that same timeout, and the server's is the default iff none was set or it was taken back: by RESET, or by ending the transaction |
| ServiceManager.ServiceManager.Serve | src/automana/core/framework/service_manager.py:182-320 | over any sequence of calls on any connections of the pool: all are free again at the end, and database, client and server timeouts are those the run functions say |
| ServiceManager.ConfigIsTheLastLeak | src/automana/core/framework/service_manager.py:240-258 | after any run a connection's client timeout is that of the last call on it whose SET failed, else the original one |
| ServiceManager.ConfigSurvivesIff | src/automana/core/framework/service_manager.py:240-258 | so it is the original one iff there was no such call or the last one asked for that same timeout |
| ServiceManager.SessionSurvivesIff | src/automana/core/framework/service_manager.py:301-312 | as far as the service manager itself resets it, after any run the server's timeout is the default iff every session-wide SET that was not RESET was followed by one that was |
| ServiceManager.FailedTransactionsLeaveNoTrace | src/automana/core/framework/service_manager.py:68-86 | in any run, with other calls in between or not, the database is that of the run without the failed transactions |
| ServiceManager.FailedTransactionIs | src/automana/core/framework/service_manager.py:68-86 | failed, by the faults alone: acquisition, BEGIN, SET, the repositories, the body or COMMIT failed |
| PasswordReset.EveryRunKeepsInv | src/automana/api/services/auth/password_reset_service.py:28-76 | in every serial run with a monotone clock, two unused tokens of one user expire at least thirty minutes apart and none later than thirty minutes from now |
| PasswordReset.AtMostOnePendingToken | src/automana/api/repositories/auth/password_reset_repository.py:39-44 | a user has at most one unused token that expires strictly after now |
| PasswordReset.OneChangePerToken | src/automana/api/services/auth/password_reset_service.py:60-73 | in every run each token causes at most one password change, even if the same token were drawn again |
| PasswordReset.SpentForGood | src/automana/api/repositories/auth/password_reset_repository.py:31-44 | a used row is never deleted or replaced |
| PasswordReset.StepKeepsInv | src/automana/api/services/auth/password_reset_service.py:28-76 | every call keeps that |
| PasswordReset.AnswerTellsNothing | src/automana/api/services/auth/password_reset_service.py:28-46 | an unknown address gets the answer a known one gets, unless the token collides or the e-mail fails |
| PasswordReset.ResetDoesExactly | src/automana/api/services/auth/password_reset_service.py:53-76 | a reset is accepted iff its token exists, is unused and not past its expiry; then password, token and exactly the sessions in the active view change |
| PasswordReset.TokenWorksForThirtyMinutes | src/automana/api/services/auth/password_reset_service.py:33-68 | through any run of calls that neither presents the token nor requests another for its user, a reset with it is accepted up to exactly thirty minutes after the request and sets that user's password |
| PasswordReset.OnlyATokenChangesAPassword | src/automana/api/services/auth/password_reset_service.py:60-73 | a user's password stays the same over any run in which none of their unused, unexpired tokens is presented |
| PasswordReset.NoSessionSurvives | src/automana/api/repositories/auth/session_repository.py:123-126 | from a successful reset on, through any run of calls in which the user does not log in, the user has no active session |
| PasswordReset.OthersAreUntouched | src/automana/api/services/auth/password_reset_service.py:28-76 | a request or a reset changes passwords, tokens and sessions of one user only; a successful reset sets the password given, a refused call changes nothing |
| PasswordReset.OtherUsableTokens | src/automana/api/services/auth/password_reset_service.py:33-42 | right after a successful reset at most one other usable token exists, and only if of the two one expires and the other was issued at this very instant |
| PasswordReset.OthersExpireNowIff | src/automana/api/services/auth/password_reset_service.py:67-68 | every other usable token expires at this very instant iff not both the token just used does and another was issued at this instant |
| PasswordReset.NewerTokenOutlivesTheReset | src/automana/api/services/auth/password_reset_service.py:67-68 | the exception is reachable: a run of two requests and a reset that leaves a token usable for another thirty minutes |
| PasswordReset.Accounts.RequestReset | src/automana/api/services/auth/password_reset_service.py:28-46 | an unknown address changes nothing; otherwise the user's pending tokens go and the new one expires in thirty minutes; a collision or a failing e-mail leaves no trace |
| PasswordReset.Accounts.ResetPassword | src/automana/api/services/auth/password_reset_service.py:53-76 | a missing, used or expired token is refused and changes nothing; otherwise password, token and sessions change together |
| PasswordReset.Accounts.Create | src/automana/api/repositories/auth/password_reset_repository.py:14-21 | the row is inserted unless its hash exists |
| PasswordReset.Accounts.MarkUsed | src/automana/api/repositories/auth/password_reset_repository.py:31-37 | exactly that row becomes used |
| PasswordReset.Accounts.InvalidateForUser | src/automana/api/repositories/auth/password_reset_repository.py:39-44 | exactly the user's unused tokens that expire strictly after NOW() are deleted |
| PasswordReset.Accounts.GetByUserId | src/automana/api/repositories/auth/session_repository.py:42-44 | exactly the user's sessions in the active view |
| PasswordReset.Accounts.InvalidateSession | src/automana/api/repositories/auth/session_repository.py:65-67 | the session becomes inactive and its refresh tokens are revoked |
| PasswordReset.Accounts.InvalidateAllForUser | src/automana/api/repositories/auth/session_repository.py:123-126 | the loop deactivates exactly the user's sessions in the view |
| TokenRefresh.EveryInterleaving | src/frontend/src/lib/apiClient.ts:15-65 | for any number of callers and any interleaving: at most one refresh is on the wire, there are never more refreshes than 401 answers outside '/auth/token' paths, a caller sends at most two requests, the second with the token of the very refresh it joined, and calls on '/auth/token' paths send one and join none, and no other call ends with a 401 without having waited for a refresh, being retried iff that gave a token |
| TokenRefresh.RunsKeepInv | src/frontend/src/lib/apiClient.ts:15-65 | the single-flight invariant holds in every reachable state |
| TokenRefresh.SharedRefresh | src/frontend/src/lib/apiClient.ts:17-18 | two callers whose 401s arrive with no refresh settling in between join the same refresh |
| TokenRefresh.AuthPathsStartNoRefresh | src/frontend/src/lib/apiClient.ts:58 | an answer on an '/auth/token' path starts and joins nothing |
| TokenRefresh.NobodyIsForgotten | src/frontend/src/lib/apiClient.ts:32-36 | a caller that is not done can resume, or waits for an answer, or for a refresh that can still settle |
| TokenRefresh.EveryRunEnds | src/frontend/src/lib/apiClient.ts:51-65 | n calls make at most 5n continuations, refreshes included, in any interleaving, besides what other code does to the store |
| TokenRefresh.CallsEndWithTheirLastAnswer | src/frontend/src/lib/apiClient.ts:51-69 | a call that is done ends with the last answer it got: a failed refresh passes the 401 on, and a retry's answer is final |
| TokenRefresh.NewTokenIsUsed | src/frontend/src/lib/apiClient.ts:25-55 | the token of a refresh is in the store and is what later calls start with, until something else writes the store |
| TokenRefresh.StaysLoggedIn | src/frontend/src/lib/apiClient.ts:59-64 | the user is logged out by other code or by a caller that finds its refresh gave no token, and by nothing else |
| TokenRefresh.ResumeActs | src/frontend/src/lib/apiClient.ts:59-64 | a caller that finds no token empties the store and ends with its 401; one that finds a token sends that and leaves the store alone |
| TokenRefresh.ApiClient.AttemptTokenRefresh | src/frontend/src/lib/apiClient.ts:17-24 | joins the refresh under way or starts one |
| TokenRefresh.ApiClient.OnFirstAnswer | src/frontend/src/lib/apiClient.ts:56-59 | a 401 outside '/auth/token' waits for a refresh; any other answer ends the call |
| TokenRefresh.ApiClient.OnRefreshSettles | src/frontend/src/lib/apiClient.ts:25-34 | a truthy token is stored, and the variable is cleared in any case |
| TokenRefresh.ApiClient.OnResume | src/frontend/src/lib/apiClient.ts:59-64 | a truthy token is sent with the retry; otherwise the caller logs out |

## Left out

- TokenBucket.AsyncTokenBucket.Acquire: floating-point rounding (reals), waiting on a bucket with a negative rate or capacity, which the constructor accepts, and a call cancelled in its sleep; the lock makes calls follow one another.
- Connection failures other than the seven modelled steps: cancellation (a BaseException passes the `except Exception`), a failing release, and what asyncpg's pool does to a connection when it comes back, such as resetting session settings, except that it ends an open transaction.
- ServiceManager.ServiceManager.ExecuteService: a commit that fails is taken not to have happened, and a body that manages transactions itself is not modelled.
- ServiceManager: finding and importing the service and its storage, which fails before a connection is asked for.
- ServiceManager.ServiceManager.Serve: calls follow one another; concurrent calls use different connections, so only the order of their writes would differ.
- ServiceChain: the redelivery guard, `path` or `prev` among the keyword arguments, and Celery's delivery itself.
- IncrementalLoad: services outside these files are modelled by what their callers rely on: `bulk_load` clears the raw table and copies the wanted folders, the staging step copies the raw table; all price rows of a pair are one row, and retries of rejects and the promotion of prices do not touch what is staged. The chains of a day run one after the other and to their end: a chain that a service aborts is not modelled.
- TierSchedule.ExactlyOncePerWindow: for a list that stays the same over the window; the tier lists follow the prices and may change from day to day.
- TierSchedule.ReturnsExactlyEachWindow: likewise for a list that stays the same.
- TierSchedule: local date against UTC date in run keys, and the priority service that lists the ids.
- SearchQuery.Search: the text of the SQL, the sort whitelist, collapsing of printings, sort direction and the decoding of rows; what a condition means for a row is an uninterpreted function of its kind and its bound value.
- PriceCache: calls are instantaneous; the JSON encoding of numbers and key naming.
- StreamBridge: a consumer that stops early leaves the thread blocked by design; the join with its timeout and memory use are not modelled, nor is an exception in the thread that is not an `Exception`.
- BeatPurge: base64 and JSON decoding of messages (a message either decodes to a task name and a path or does not) and the log entry with its labels, which may collide between fingerprints.
- BeatPurge.ConcurrentPurgeIsSafe: is about any acts between the LREM calls, given as a list; the method itself runs undisturbed.
- StepParser: how click splits options from extra arguments, and value coercion, which is a parameter.
- MetricsBuffer.MetricBucket.Aggregate: the median and the 95th percentile, which rest on Python's statistics library.
- MetricsBuffer.CeleryMetricBucket.Aggregate: the median.
- MetricsBuffer: `clear`, which exists for tests, and the singleton accessor.
- PasswordReset: e-mail and hashing (a token stands for its hash), row ids, which are drawn at random and unique like the hashes, and the rest of user management.
- TokenRefresh: the shape of response bodies, the persisted store, and the stored user; every order of continuations is allowed, which includes those a browser's microtask queue rules out.
- `UserRepository.update`, thin metric queries, routers, mocks and the terminal user interface hold no algorithm.
