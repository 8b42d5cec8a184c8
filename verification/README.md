# Kringkasting, modelled in Dafny

Kringkasting turns NRK's radio catalogue into podcast feeds. It crawls an
unreliable, paged API in the background, keeps what it finds in SQLite, renders
feeds as XML and caches them. These modules model the parts of it whose
correctness is not visible in any one function, and prove what each is for.

| module | what it models |
|---|---|
| Listing, EpisodeLookups | NRK's newest-first listing in pages of 50, how it shifts, and one page's manifest lookups |
| ArchiveCrawl | the archive crawl, its checkpoint and every crash point between two durable writes |
| Refresh, RefreshRepeated | the incremental refresh, its frozen boundary and its checkpoint, and one refresh after another |
| CrawlAndRefresh | the crawl and the refreshes of one feed in any interleaving of their pages and writes |
| ManifestFailures, FanOut | when an unanswered episode is given up, and the bounded concurrent lookups |
| SeriesStore | the tables of feeds and episodes, with the in-memory data versions |
| FeedCache, LastModified, CacheFreshness | the cache as a recency list, its Last-Modified dates, and its interleavings with writers and readers |
| XmlWriter, XmlReader, XmlRoundTrip | the XML writer and a strict reader for it |
| RateLimiter | the token buckets |
| UpstreamSlots, WorkQueue, SingleFlight | the slot semaphore, the two work queues and the single-flight pattern |
| FastProbe | the cheap freshness test against the refresh decision it stands for |
| StatsBatch | dashboard counters in memory and in the store |
| RetryDeadlines | durable retry deadlines and Retry-After |

NRK, the clock, process crashes and the scheduler are an environment that makes
any choice it likes: each step takes those choices as arguments, and the
theorems hold for every sequence of them. An object the source updates in place
is a class whose methods are proved equal to a function of the old state; the
theorems are about that function, over whole runs. Goroutines are interleaved
atomic steps at the boundaries of the mutexes.

Where the code and its comments disagree, the model follows the code. Lemmas
give the inputs, and others the exact condition:

- The comment at internal/feed/cache.go:113-117 has Last-Modified move whenever
  the XML changes, and only then. Renders of one feed that overlap can break
  both halves: `LastModified.OverlappingRendersCollide` puts two bodies in one
  second, and `LastModified.EqualBodiesTurnBack` moves the date of an unchanged
  body back, which hides a later change made without any overlap.
  `LastModified.HonestIffGuarded` says when the comment holds of every answer,
  for any overlap: if and only if each render that lands meets a guard on the
  validator it saw, the one it replaces, its tag and its clock reading. Renders
  that do not overlap always do (`LastModified.SeparateIsGuarded`).
- The comment at internal/feed/refresh.go:289-292 lets the probe call nothing
  fresh that is due for a refresh. `FastProbe.FutureFetchLooksFresh` is a feed
  stamped in the future; `FastProbe.FreshHidesNothingIff` is the exact condition.
- A failed flush shows in a last-seen time when the clock went back between two
  batches (`StatsBatch.BackwardClockShowsFailure`), and exactly then
  (`StatsBatch.FlushMergedIff`).
- The comment at internal/nrk/nrk.go:55-57 gives an episode up after five
  failed requests in succession. Two lookups of one episode can overlap, and then
  the clearing after a give-up may take a later failure with it:
  `ManifestFailures.ClearingTakesAFailure` is a run without any answer in which
  the tenth failure is not given up. `ManifestFailures.InStepIff` says exactly
  when the count keeps step with the failures; fewer than five never suffice
  (`ManifestFailures.GivenUpAfterFive`).

Three more lemmas mark where the protocols end. One page of overlap is exactly
enough for the archive crawl: with 51 entries dropped during a pause it can lose
an episode for good (`ArchiveCrawl.FiftyOneDroppedLosesAnEpisode`). A refresh
leaves the listing as the next one needs it while NRK adds episodes at any time,
drops any number while no checkpoint past the first page waits, and at most one
while one does (`RefreshRepeated.EveryRefreshIsWhole`); two dropped then are too
many (`RefreshRepeated.TwoDropsUnsettle`). And until the archive is complete a
refresh relies on the crawl for the rest (`CrawlAndRefresh.TogetherWhole`,
`CrawlAndRefresh.RefreshAloneIsNotWhole`).

## Model

| member | source | states |
|---|---|---|
| Listing.DroppingShrinks | internal/crawl/backlog.go:245-250 | taking d entries off a listing shortens a known prefix by at most d, which is what one page of overlap has to absorb |
| Listing.ShiftKeeps | internal/crawl/backlog.go:245-250 | with anything put on top as well: new entries cost nothing, the prefix shrinks only by what was dropped |
| Listing.LastPageIsLast | internal/nrk/nrk.go:622-652 | exactly the pages before the last have a next link, and no later page up to it is empty |
| EpisodeLookups.FilterSkipped | internal/nrk/nrk.go:341-352 | keeps the candidates outside the skip set, in order, and nothing else |
| EpisodeLookups.Collect | internal/nrk/nrk.go:324-339 | splits candidates into playable, reported failures in listing order and a count of transient ones |
| EpisodeLookups.SelectMembers | internal/nrk/nrk.go:324-339 | an episode is in exactly the part its manifest answer puts it in |
| EpisodeLookups.RecordFailures | internal/nrk/nrk.go:324-339 | failures are recorded one durable write at a time, up to a crash |
| EpisodeLookups.LookedUp | internal/nrk/nrk.go:622-652 | a page without transient answers leaves every episode skipped, stored or recorded as failed |
| ArchiveCrawl.VisitKeeps | internal/crawl/backlog.go:194-258 | one page visit, cut short at any durable write, keeps the checkpoint true, and hands on only when all earlier pages are known |
| ArchiveCrawl.CompleteMeansCovered | internal/crawl/backlog.go:194-258 | over any runs, with failures, crashes, page limits and a listing that grows on top and loses at most a page during a pause: complete means every episode listed at the start and never dropped since is stored or failed (one dropped and listed again counts as new) |
| ArchiveCrawl.CheckpointIsSafe | internal/crawl/backlog.go:204-250 | on a still listing, everything on pages up to and including the saved checkpoint is always stored or failed, and complete means the whole listing |
| ArchiveCrawl.ExactNumberOfRuns | internal/crawl/backlog.go:194-264 | undisturbed, an archive of N pages is complete exactly from max(1, ceil((N-1)/199)) runs on |
| ArchiveCrawl.FiftyOneDroppedLosesAnEpisode | internal/crawl/backlog.go:245-250 | 51 entries dropped during a pause can lose an episode that stays listed, though the archive says complete |
| ArchiveCrawl.PageOutcome | internal/crawl/backlog.go:204-234 | episode by episode, whether or not the page is done: newly stored are exactly its wanted playable ones, if the batch can be written and the process lives to write it; newly failed are its wanted unplayable ones, all of them if it lives to record them |
| ArchiveCrawl.VisitMovesOn | internal/crawl/backlog.go:225-257 | the crawl moves on exactly when the page was listed, none of its wanted manifests is transient, and everything was written; it is complete behind the last page, and else stops with the checkpoint it had |
| ArchiveCrawl.Crawler.GetPage | internal/nrk/nrk.go:622-652 | the page at a link, or nothing when NRK fails or a later page is empty and last |
| ArchiveCrawl.Crawler.Resolve | internal/crawl/backlog.go:204-234 | playable episodes are stored in one write, and the page is done only if that worked and nothing was transient |
| ArchiveCrawl.Crawler.SaveCheckpoint | internal/crawl/backlog.go:236-257 | the checkpoint is the page just completed, or complete on the last one |
| ArchiveCrawl.Crawler.OnePage | internal/crawl/backlog.go:195-257 | one turn of the crawl loop is the visit the theorems are about |
| ArchiveCrawl.Crawler.Run | internal/crawl/backlog.go:175-264 | the loop of at most 200 pages ends in the state of the run the theorems are about, and keeps the checkpoint invariant |
| Refresh.BoundaryIsStored | internal/feed/refresh.go:170-179 | only episodes stored before the batch are in the boundary |
| Refresh.BoundaryIsNewest | internal/feed/refresh.go:170-179 | a stored episode with fewer than 50 newer stored ones is in the boundary |
| Refresh.BoundaryIsSmall | internal/feed/refresh.go:170-179 | the boundary has at most 50 episodes |
| Refresh.PageOutcome | internal/nrk/nrk.go:529-582 | episode by episode, a listed page's wanted unplayable ones are recorded and its wanted playable ones found, also when others are transient; a transient one cuts the walk short, a boundary episode or the end of the listing ends it for good |
| Refresh.FirstSave | internal/feed/refresh.go:153-186 | a round that ends before the first save changes nothing; the one that saves goes on as a resumed round would |
| Refresh.RoundKeeps | internal/feed/refresh.go:152-222 | every later round keeps the checkpoint true and the boundary frozen, and completes only when everything up to the stop page is known |
| Refresh.NothingSkipped | internal/feed/refresh.go:152-222 | over any rounds from first save to completion, with failures, early stops and crashes: every episode on pages up to the first one holding a boundary id ends up stored or failed |
| Refresh.ExactNumberOfRounds | internal/nrk/nrk.go:541-581 | undisturbed, a refresh whose stop page is b completes exactly from max(1, ceil(b/9)) rounds on |
| Refresh.Refresher.SawKnown | internal/nrk/nrk.go:529-582 | true exactly when the page holds a boundary id |
| Refresh.Refresher.Resolve | internal/nrk/nrk.go:529-582 | one page: its failures recorded, then transient, final or onward |
| Refresh.Refresher.GetNewEpisodes | internal/nrk/nrk.go:529-582 | the loop of at most ten pages ends as the walk the theorems are about, with the page to resume from |
| Refresh.Refresher.ReadNewest | internal/feed/refresh.go:170-179 | the loop over stored episodes builds that boundary |
| Refresh.Refresher.UpdateFetch | internal/feed/refresh.go:152-222 | one refresh is the round the theorems are about, and keeps the checkpoint invariant |
| RefreshRepeated.NothingMissed | internal/feed/refresh.go:168-222 | stopping early is right: if all that was listed below a boundary episode was known at the first save, a complete refresh has everything listed then and never dropped since, also past the stop page |
| RefreshRepeated.RoundQuiet | internal/feed/refresh.go:152-222 | every round, whatever fails or dies in it, keeps the region below stored episodes known down to the checkpoint; entries may be dropped freely before a walk from the first page, at most one before a walk from a later one |
| RefreshRepeated.EveryRefreshIsWhole | internal/feed/refresh.go:152-222 | over repeated refreshes, with new episodes at any time, any drops while no checkpoint past the first page waits and at most one while one does: whenever no refresh is under way nothing unknown is listed below a stored episode, and each one that completes has all that was listed at its first save and not dropped since |
| RefreshRepeated.TwoDropsUnsettle | internal/nrk/nrk.go:541-581 | from such an idle feed, three rounds, the first two as above and two entries dropped before the third: the refresh completes with an unknown episode listed below a stored one, where the next may stop |
| CrawlAndRefresh.NextKeeps | internal/feed/refresh.go:168-222 | each step of either goroutine, or of the listing, keeps what both rely on: nothing unknown below a stored episode, down to where the crawl is and the refresh has read |
| CrawlAndRefresh.TogetherWhole | internal/crawl/backlog.go:194-258 | over any interleaving of crawl and refresh, with failures, pauses and deaths anywhere: all that was listed at the last complete refresh's first save and not dropped since is known down to the crawl's checkpoint, and altogether once the archive is complete; while no refresh is under way then, nothing unknown is listed below a stored episode |
| CrawlAndRefresh.RefreshAloneIsNotWhole | internal/nrk/nrk.go:541-581 | before the archive is complete a refresh can complete with listed episodes unknown |
| CrawlAndRefresh.RoundIsItsSteps | internal/feed/refresh.go:152-222 | with nothing in between, a round's steps are the round that Refresh.Refresher.UpdateFetch is proved to make |
| CrawlAndRefresh.CrawlIsItsSteps | internal/crawl/backlog.go:194-258 | with nothing in between, a crawl's steps are the run that ArchiveCrawl.Crawler.Run is proved to make |
| CrawlAndRefresh.StartsOver | internal/crawl/backlog.go:175-264 | a crawl or a refresh that dies changes no row, and the next one starts from the saved checkpoint |
| ManifestFailures.ResolveIsItsSections | internal/nrk/nrk.go:263-308 | a lookup with nothing in between is its critical sections in order |
| ManifestFailures.VerdictByStatus | internal/nrk/nrk.go:286-307 | for an episode without failures: playable exactly for 200 with an asset; gone at once exactly for 200 without one and 400 to 499 except 408 and 429; transient, counted once, for every other status; not judged at all while requests are held back |
| ManifestFailures.EveryFifthInARow | internal/nrk/nrk.go:87-105 | lookups of one episode in a row that decide nothing: exactly every fifth is gone |
| ManifestFailures.GivenUpAfterFive | internal/nrk/nrk.go:85-105 | however lookups interleave, and even if the map is dropped, an episode without a definitive answer is given up only after at least five unanswered requests since its last answer |
| ManifestFailures.InStepIff | internal/nrk/nrk.go:85-105 | while the map is never dropped, the count is the unanswered requests in a row modulo five throughout, if and only if every clearing after a give-up lands at a multiple of five |
| ManifestFailures.GivenUpAtEveryFifth | internal/nrk/nrk.go:250-308 | then an unanswered request gives its episode up exactly at every fifth in a row |
| ManifestFailures.UndividedClearsInTime | internal/nrk/nrk.go:263-308 | clearings land so when no section of the episode comes between a give-up and its clearing |
| ManifestFailures.ClearingTakesAFailure | internal/nrk/nrk.go:85-105 | when one does come between, the tenth unanswered request in a row is not given up, the eleventh is |
| ManifestFailures.TrackedBounded | internal/nrk/nrk.go:87-99 | at most 10,000 episodes are tracked, whatever is looked up |
| ManifestFailures.Tracker.ManifestFailed | internal/nrk/nrk.go:87-99 | counting a failure in place is the counting the theorems are about |
| ManifestFailures.Tracker.ManifestSucceeded | internal/nrk/nrk.go:101-105 | an answer ends the episode's count and no other |
| ManifestFailures.Tracker.Judge | internal/nrk/nrk.go:263-308 | a lookup's verdict and its effect on the count, for every status |
| FanOut.MapsInOrder | internal/nrk/nrk.go:180-206 | in every interleaving each item is claimed at most once over the run, at most limit calls run at once, and when all workers have stopped every item has been claimed and the results are the items mapped in order |
| FanOut.WorkEnds | internal/nrk/nrk.go:180-206 | a worker that has not stopped can move, and all have stopped after exactly two moves for each item and one for each worker |
| SeriesStore.BatchSettles | internal/store/queries.go:224-248 | whatever a batch repeats, an episode ends with its last text and last known size and clip, falling back to the stored ones; other rows stay |
| SeriesStore.WritingTwiceIsOnce | internal/store/queries.go:224-248 | writing a batch again changes nothing |
| SeriesStore.NeverOrphans | internal/store/queries.go:205-222 | over any interleaving of writes and deletes, no episode is left without its feed |
| SeriesStore.CheckpointIsTheCrawls | internal/store/queries.go:169-203 | no batch or metadata write ever moves a feed's crawl checkpoint |
| SeriesStore.StoredStays | internal/store/queries.go:169-248 | an episode stays stored and its size and clip stay known until the feed is deleted |
| SeriesStore.FeedIsLastWritten | internal/store/queries.go:169-203 | over any run that does not delete it, a stored feed has the metadata of its last committed write, the last kind known, the last fetch time and the crawl's last checkpoint |
| SeriesStore.EpisodeIsLastWritten | internal/store/queries.go:224-248 | likewise an episode of it: there once a committed batch had it, with its last text, last known size and clip, and the outcome of its last video lookup |
| SeriesStore.NewFeed | internal/store/queries.go:173-203 | a first write stores the feed as given, with its crawl not begun |
| SeriesStore.DeletedIsGone | internal/store/queries.go:447-479 | a deletion takes the feed, its episodes and their failures, and nothing of any other |
| SeriesStore.GoneStaysGone | internal/store/queries.go:206-222 | whatever crawl or refresh is still under way, a deleted feed has no rows again before a new write of it |
| SeriesStore.VersionCountsChanges | internal/store/queries.go:25-46 | over any run the data version goes up by exactly the committed metadata writes, batches, deletions and changed videos |
| SeriesStore.VersionTellsContent | internal/store/queries.go:25-46 | over any run the data version never goes back, and while it stands still nothing the feed's XML shows changes |
| SeriesStore.FailuresBackOff | internal/store/queries.go:324-346 | over any run that does not delete the feed, whatever comes between: an episode's n-th recorded failure blocks it for min(2^(n-1), 30) days |
| SeriesStore.Store.DataVersion | internal/store/queries.go:39-46 | reads one more than the writes counted |
| SeriesStore.Store.InsertEpisodes | internal/store/queries.go:224-248 | the loop of upserts is the batch the theorems are about |
| SeriesStore.Store.Write | internal/store/queries.go:173-203 | a rolled-back write changes nothing and bumps nothing |
| SeriesStore.Store.Add | internal/store/queries.go:206-222 | refused for a feed that is gone |
| SeriesStore.Store.PutVideo | internal/store/video.go:105-121 | bumps the version exactly when the URL changes |
| SeriesStore.Store.RecordFailure | internal/store/queries.go:327-346 | one more attempt with its delay |
| SeriesStore.Store.Delete | internal/store/queries.go:447-479 | the feed and all its rows go, its version moves on |
| FeedCache.LongestPrefixSurvives | internal/feed/cache.go:148-154 | eviction keeps exactly the longest prefix of the recency order within both limits, never nothing |
| FeedCache.SurvivesIff | internal/feed/cache.go:148-154 | an entry survives an eviction exactly if it is the most recent, or all used since still fits with it in both limits |
| FeedCache.PeekAnswersIff | internal/feed/cache.go:78-86 | a peek answers if and only if the cache holds the feed for that origin in exactly that version, with that; the feed then counts as just used |
| FeedCache.RenderSparedIff | internal/feed/cache.go:100-111 | a render is spared if and only if the cache holds the feed for that origin in that version or a newer one |
| FeedCache.EndedAnswers | internal/feed/cache.go:126-156 | a finished render takes its feed's place and answers, unless a newer one for the same origin is there, which then answers |
| FeedCache.EndedMembers | internal/feed/cache.go:126-156 | a finished render adds at most itself, and only with a version; keys stay unique |
| FeedCache.ValidatorsKept | internal/feed/cache.go:159-164 | a landing render sets its feed's validator and keeps every other, unless there are 10,000 and its feed has none, when they are forgotten |
| FeedCache.TouchMoves | internal/feed/cache.go:68-75 | using an entry only moves it |
| FeedCache.PutFirst | internal/feed/cache.go:140-147 | inserting keeps map and list in step and bytes the sum of the bodies |
| FeedCache.CutLast | internal/feed/cache.go:148-154 | so does giving up the oldest entry |
| FeedCache.Cache.Get | internal/feed/cache.go:68-75 | map and list refine the recency list: finds the entry and moves it first |
| FeedCache.Cache.Peek | internal/feed/cache.go:78-86 | answers only for the same origin and exact version |
| FeedCache.Cache.Begin | internal/feed/cache.go:100-108 | the first critical section of a render |
| FeedCache.Cache.Remember | internal/feed/cache.go:159-164 | keeps validators past eviction, wiped when 10,000 other feeds have one |
| FeedCache.Cache.Insert | internal/feed/cache.go:140-147 | replaces the feed's entry and puts it first, with bytes kept as the sum |
| FeedCache.Cache.Trim | internal/feed/cache.go:148-154 | the eviction loop leaves that longest prefix |
| FeedCache.Cache.End | internal/feed/cache.go:129-156 | the second critical section: a newer render that landed meanwhile stays and answers |
| FeedCache.Cache.RenderFeed | internal/feed/cache.go:100-156 | a whole render without overlap, on the recency list |
| LastModified.GuardIsExact | internal/feed/cache.go:113-139 | for one render: its guard holds exactly when another tag comes with a later second than the validator it replaces, and the same tag with the same second |
| LastModified.HonestIffGuarded | internal/feed/cache.go:100-156 | over any interleaving of renders and polls, with any overlap and clock: every pair of answers of a feed is honest (changed XML later, unchanged XML in the same second) if and only if every render that lands meets its guard |
| LastModified.SeparateIsGuarded | internal/feed/cache.go:100-156 | when no feed has two renders under way, every guard is met and every pair of answers is honest |
| LastModified.ValidatorMovesForward | internal/feed/cache.go:111-139 | with every guard met a feed's validator is kept, and changes only to a later second |
| LastModified.ValidatorsBounded | internal/feed/cache.go:159-164 | over any run at most 10,000 validators are kept |
| LastModified.PollAnsweredIff | internal/feed/cache.go:78-86 | in every run a poll is answered exactly when its feed is cached for its origin in its version |
| LastModified.CachedUntilPushedOut | internal/feed/cache.go:126-156 | short of another landing render of the feed, an entry stays cached exactly until renders of other feeds leave no room for it |
| LastModified.UpToDateIsServed | internal/feed/cache.go:78-156 | until then every poll for that origin and version is answered with the render that landed |
| LastModified.ChangeMovesDate | internal/feed/cache.go:111-139 | without overlap on a feed, a later answer with other XML has a strictly later whole second, for any clock, and not modified means the same XML |
| LastModified.SameXmlKeepsDate | internal/feed/cache.go:111-139 | without overlap, XML that stays the same keeps its exact date through evictions |
| LastModified.NotModifiedIsHonest | internal/web/http.go:70-79 | with every guard met, not modified since the date of any earlier answer means the same XML |
| LastModified.UnchangedIsNotModified | internal/web/http.go:70-79 | and it is given: with the date of an earlier answer or a later one while the XML stood still, and never with a date before the feed's |
| LastModified.OverlappingRendersCollide | internal/feed/cache.go:113-139 | a run whose overlapping renders put different XML in one second |
| LastModified.EqualBodiesTurnBack | internal/feed/cache.go:113-139 | a run whose overlapping renders of the same XML move its date back, so that a later change is not seen although its own render overlaps nothing and meets its guard |
| CacheFreshness.RunKeeps | internal/store/queries.go:92-98 | in every interleaving, each cached render and each reader is bound to a version whose writes it includes |
| CacheFreshness.PeekIncludesReturnedWrites | internal/web/feeds.go:53-54 | if a write returned before a request read the version, in this process or before a restart, the XML the request gets was read after that write, in both queries |
| CacheFreshness.AskRecordsReturned | internal/store/queries.go:195-222 | a request counts as returned every write whose bump landed earlier, across any restarts |
| CacheFreshness.RenderNeverGoesBack | internal/feed/cache.go:100-156 | a render never answers with an older version than the series it was given |
| CacheFreshness.WriteIsServed | internal/feed/cache.go:78-156 | from any reachable state, undisturbed: after a write a poll is not answered, the read that follows sees that write and every earlier one in both queries, its render answers with what was read, and so is the next poll answered |
| CacheFreshness.RenderLands | internal/feed/cache.go:100-156 | a read that the cache has nothing as new as is rendered and answers; one that never came from the store leaves the cache as it was |
| CacheFreshness.RenderSpared | internal/feed/cache.go:100-111 | a read that is in the cache already, in that version or a newer one, is answered with that at once |
| CacheFreshness.UnstoredIsRendered | internal/feed/cache.go:100-156 | a feed that could not be stored is rendered all the same, and not kept |
| XmlWriter.Escaper | internal/feed/xml.go:27-35 | the replacements, plus the removal of the control and non-characters |
| XmlWriter.Builder.WriteAttrs | internal/feed/xml.go:46-54 | appends the escaped attributes |
| XmlWriter.Builder.WriteTag | internal/feed/xml.go:59-78 | appends one tag and its subtree |
| XmlWriter.Serialize | internal/feed/xml.go:82-95 | declaration, optional stylesheet and root, in that order |
| XmlRoundTrip.EscapingAt | internal/feed/xml.go:18-35 | outside its own pairs an escaper drops exactly what XML does not allow |
| XmlRoundTrip.ElementRoundTrip | internal/feed/xml.go:59-78 | reading a written tag back gives its tree, whatever follows it |
| XmlRoundTrip.DocumentRoundTrip | internal/feed/xml.go:82-95 | reading the document back gives the tree with disallowed characters dropped and empty forms identified |
| XmlRoundTrip.OutputAllowed | internal/feed/xml.go:27-95 | the whole output is made of characters XML 1.0 allows |
| RateLimiter.PruningIsInvisible | internal/web/ratelimit.go:45-114 | for scopes that refill within ten minutes, dropping idle buckets never changes a decision, over any run without a wholesale reset |
| RateLimiter.FromTheStart | internal/web/ratelimit.go:39-114 | the same for a new limiter |
| RateLimiter.RequestCosts | internal/web/ratelimit.go:82-101 | with the room it may first make: allowed exactly when both buckets hold a token; a globally refused request costs the client nothing, a client over its limit costs the shared budget nothing |
| RateLimiter.RoomIsMade | internal/web/ratelimit.go:65-80 | below 5000 clients nothing is dropped; from there on, once a minute, exactly those idle for over ten minutes, and everybody if that makes no room |
| RateLimiter.RefundUndoesRequest | internal/web/ratelimit.go:82-114 | an allowed request and its refund leave both buckets at the level they had |
| RateLimiter.RefillsAtItsRate | internal/web/ratelimit.go:45-59 | a new bucket is full, and one in use gains its rate times the time, up to its capacity |
| RateLimiter.GlobalRateBound | internal/web/ratelimit.go:61-101 | in any window allowed minus refunded requests are at most the shared burst plus rate times time, whatever buckets are dropped |
| RateLimiter.ClientsBounded | internal/web/ratelimit.go:61-80 | the client map never exceeds 5000 |
| RateLimiter.SweepsAreRare | internal/web/ratelimit.go:61-80 | over any run, n sweeps after a first one take at least n minutes |
| RateLimiter.Limiter.DropIdle | internal/web/ratelimit.go:71-75 | the loop drops exactly the buckets idle for over ten minutes |
| RateLimiter.Limiter.MakeRoomFor | internal/web/ratelimit.go:65-80 | sweeps, then resets if still full |
| RateLimiter.Limiter.AllowScoped | internal/web/ratelimit.go:45-101 | the decision and the new buckets are those of the theorems |
| RateLimiter.Limiter.RefundScoped | internal/web/ratelimit.go:105-114 | gives back to the buckets that still exist |
| UpstreamSlots.SlotsAccounted | internal/nrk/http.go:42-85 | in every reachable state the slots held are the slots counted, at most 12, with at most 64 waiting and only when all are held |
| UpstreamSlots.AcquireIff | internal/nrk/http.go:56-72 | granted exactly while fewer than 12 are held, refused exactly when 12 are held and 64 wait, and else last in line |
| UpstreamSlots.ReleaseHandsOver | internal/nrk/http.go:74-85 | the first in line gets the released slot; without one it is freed, and nobody else gains or loses one |
| UpstreamSlots.WaitsItsTurn | internal/nrk/http.go:56-85 | the waiter at position i is i - k from the front after k releases, whoever else arrives |
| UpstreamSlots.SlotAtItsRelease | internal/nrk/http.go:74-85 | it gets its slot at exactly the (i + 1)-th release |
| UpstreamSlots.Upstream.TryAcquire | internal/nrk/http.go:56-72 | granted, queued or refused, keeping the account |
| UpstreamSlots.Upstream.GiveUp | internal/nrk/http.go:74-85 | the slot goes straight to the next waiter, or is freed |
| WorkQueue.QueueIsSound | internal/crawl/backlog.go:103-157 | in every interleaving at most one worker lives, its channel is open exactly while it does, no feed is queued twice, and queued is what the queue and current feed say |
| WorkQueue.FirstInFirstOut | internal/video/worker.go:91-142 | short of shutdown, what was queued and admitted is what has begun and is queued, in order |
| WorkQueue.BeginsAtItsTurn | internal/video/worker.go:122-142 | the feed at position i begins at exactly the (i + 1)-th head of the loop, whatever is admitted or finished in between |
| WorkQueue.VideoRoundFollows | internal/video/worker.go:91-142 | each video Enqueue is followed by a round of that feed that begins after the call |
| WorkQueue.CrawlPendingOrRunning | internal/crawl/backlog.go:103-119 | an admitted crawl Enqueue leaves its feed waiting or being crawled |
| WorkQueue.ShutdownEnds | internal/video/worker.go:122-142 | after a shutdown nothing is admitted any more, and a worker ends the next time it comes to the head of its loop |
| WorkQueue.Queue.Add | internal/crawl/backlog.go:103-119 | admits a feed at most once and starts the worker when none runs |
| WorkQueue.Queue.TakeNext | internal/video/worker.go:122-142 | the head of the loop: the next feed, or the end of the worker |
| WorkQueue.Queue.Done | internal/crawl/backlog.go:150-155 | the crawler's feed may be queued again only now |
| SingleFlight.AlwaysSound | internal/feed/refresh.go:361-391 | every interleaving keeps each open call led by a live request and each listed key's call open |
| SingleFlight.OneFetchPerKey | internal/nrk/nrk.go:698-733 | at most one fetch of a key runs, and all who end with one call have one answer |
| SingleFlight.WaitersAreServed | internal/feed/chapters.go:82-107 | a waiter can wake, or its leader is alive with a step nothing blocks |
| SingleFlight.KeyIsFreeAfterwards | internal/video/worker.go:211-238 | a key is on the map exactly while its fetch is running or has just returned, panics included |
| SingleFlight.SharesTheFetch | internal/feed/refresh.go:370-389 | a request made while another holds the key waits for that one's call; made while nobody does, it fetches itself |
| SingleFlight.AnsweredAfterItsSteps | internal/feed/refresh.go:361-391 | whatever comes between, a request is answered exactly when its leader's remaining steps, at most three, and its own have been taken |
| SingleFlight.JoinersGetTheLeadersResult | internal/feed/chapters.go:82-107 | once a call has a result, every request that ends with it, at any later time, gets that |
| SingleFlight.ResultIsTheFetchs | internal/video/worker.go:211-238 | every result is the value that call's own leader's fetch returned, or the answer for a panic if it panicked |
| SingleFlight.Flight.Join | internal/feed/refresh.go:370-389 | joins the call in flight or leads a new one |
| SingleFlight.Flight.Record | internal/feed/refresh.go:376-386 | the leader records the value or the answer for a panic |
| SingleFlight.Flight.Forget | internal/feed/refresh.go:381-383 | the key is freed before anyone is woken |
| SingleFlight.Flight.Announce | internal/feed/refresh.go:384-384 | the call is closed last |
| SingleFlight.Flight.Answer | internal/feed/refresh.go:387-390 | a joiner reads the recorded result |
| FastProbe.CadenceFollowsActivity | internal/feed/refresh.go:263-280 | more recent activity never means a longer interval; hourly exactly within two days, every twelve hours up to thirty, every 72 up to 180, weekly from then on, and three hours without episodes |
| FastProbe.FreshIff | internal/feed/refresh.go:289-309 | fresh exactly if the feed is stored, its crawl is over or held back, and its refresh is held back or no refresh is under way and at most 85% of its interval has passed |
| FastProbe.ServingQueuesCrawl | internal/feed/refresh.go:348-351 | serving an incomplete archive queues its crawl, exactly unless it is held back, queued already or shutting down |
| FastProbe.HoursSinceFits | internal/feed/refresh.go:311-319 | as many whole hours as fit between the two times, either way |
| FastProbe.NewestAgrees | internal/store/queries.go:78-86 | the probe's MAX(date) is the first episode of any date-descending read |
| FastProbe.EveryJitterIff | internal/feed/refresh.go:339-346 | no draw refreshes exactly when the smallest one does not |
| FastProbe.FreshHidesNothingIff | internal/feed/refresh.go:289-309 | a fresh answer hides no refresh exactly when the retry deadline holds or the whole hours either way are inside the window; always for a feed not fetched in the future |
| FastProbe.ProbeRefinesSlowPath | internal/feed/refresh.go:293-351 | then for every jitter the slow path serves what is stored and its crawl request changes nothing |
| FastProbe.FutureFetchLooksFresh | internal/feed/refresh.go:289-309 | a feed stamped ten hours ahead is called fresh though every draw would refresh it |
| StatsBatch.FlushMergedIff | internal/stats/stats.go:267-296 | writing a returned batch merged with the pending one equals writing them in order, counts always, last-seen times exactly when the clock had not gone back |
| StatsBatch.FailuresAreInvisible | internal/app/app.go:117-127 | over any run of events and failing flushes, store and memory together are what writing each event at once would have stored |
| StatsBatch.SuccessStoresAll | internal/app/app.go:117-127 | however many flushes failed before, one that succeeds leaves exactly that in the store and nothing in memory |
| StatsBatch.LastSeenIsLatest | internal/store/activity.go:61-103 | written at once, a client is known once it asked and last seen at the latest of its times |
| StatsBatch.LastTold | internal/stats/stats.go:229-247 | and its subscribers are those it told last |
| StatsBatch.LastRequestIsLatest | internal/store/activity.go:61-103 | and a feed was last requested at the latest of its times |
| StatsBatch.CountsNeverSuffer | internal/store/activity.go:61-103 | for counters and subscriber counts even with a clock that goes back |
| StatsBatch.CountsConserved | internal/stats/stats.go:220-296 | stored plus in hand plus pending counts equal the recorded events |
| StatsBatch.BackwardClockShowsFailure | internal/stats/stats.go:278-287 | a last-seen time an hour behind after a failed flush and a clock set back |
| StatsBatch.Stats.RecordFeedRequest | internal/stats/stats.go:229-247 | latest time per feed and client, keeping a subscriber count seen earlier |
| StatsBatch.Stats.CountDay | internal/stats/stats.go:220-227 | one more for the day's counter |
| StatsBatch.Stats.TakeBatch | internal/stats/stats.go:255-265 | hands over everything and leaves nothing |
| StatsBatch.Stats.ReturnBatch | internal/stats/stats.go:267-296 | the three loops make the merge of the theorems |
| StatsBatch.Store.FlushActivity | internal/store/activity.go:61-103 | the loops of upserts make the write of the theorems |
| StatsBatch.Flush | internal/app/app.go:117-127 | one flush is take then commit, or take then put back |
| RetryDeadlines.DefersBackOff | internal/retry/retry.go:47-56 | n failures of a key in a row, whatever other keys do in between, wait min(5·2^(n-1), 1440) minutes, or until the upstream's deadline when later, capped at a day |
| RetryDeadlines.HeldBackUntil | internal/retry/retry.go:34-56 | after n failures the key may go exactly from then on, and at once when cleared |
| RetryDeadlines.LaterKeptIff | internal/retry/retry.go:58-68 | an explicit deadline leaves the later of the two exactly when the one that stood lay no more than a day off, and starts the attempts over unless a later one stands |
| RetryDeadlines.SetsKeepTheLatest | internal/retry/retry.go:58-68 | repeated explicit deadlines of a key store the maximum of the capped requests, whatever other keys do in between |
| RetryDeadlines.NeverOverADay | internal/retry/retry.go:19-73 | over any run and clock a key's deadline is its last write's, at most a day after it |
| RetryDeadlines.DigitsAreSeconds | internal/retry/retry.go:75-90 | any digit string, spaces around it, gives now + min(value·1000, a day), however many digits |
| RetryDeadlines.SecondsAreKept | internal/retry/retry.go:75-90 | a printed number of seconds, blanks and tabs around it, is a deadline that far off, or a day |
| RetryDeadlines.RetryAfterBounded | internal/retry/retry.go:77-105 | every header gives none or a moment within the coming day, a date itself exactly when it is one |
| RetryDeadlines.Retry.Ready | internal/retry/retry.go:34-45 | whether the deadline has passed, none counting as zero |
| RetryDeadlines.Retry.BackOff | internal/retry/retry.go:49-56 | writes the escalated deadline |
| RetryDeadlines.Retry.PauseUntil | internal/retry/retry.go:61-68 | writes the capped request, or leaves a later deadline |
| RetryDeadlines.Retry.Forget | internal/retry/retry.go:71-73 | removes the key's row and no other |

## Left out

- ArchiveCrawl.CompleteMeansCovered: the feed is not deleted by an admin during a crawl, and the durable writes that report nothing (checkpoint, recorded failures) succeed unless the process dies first.
- ArchiveCrawl.Crawler.Run: clip references, the after-page hook, events and the retry deadline each outcome sets are not in the state; the next run may start at any time.
- Refresh.NothingSkipped: claimed without the answer that the listing is gone, which drops the checkpoint and takes the full fetch (internal/feed/refresh.go:198-205); the full fetch, the first fetch and season feeds are not modelled.
- Refresh.Refresher.UpdateFetch: only the cheap path; the full refresh, the retry deadline of each outcome and what the metadata write stores are left out.
- RefreshRepeated.EveryRefreshIsWhole: while nobody else stores episodes, which CrawlAndRefresh.TogetherWhole allows; more than one entry dropped while a checkpoint past the first page waits is excluded, as RefreshRepeated.TwoDropsUnsettle shows it must be.
- CrawlAndRefresh.TogetherWhole: one page's request, lookups and (for the crawl) writes are one step, as in ArchiveCrawl and Refresh; entries are dropped as in RefreshRepeated, and for the crawl while it has not passed the first page, while it waits (at most one) or when it is complete.
- ManifestFailures.Tracker.Judge: one lookup with nothing between its critical sections; the theorems are about the sections of any number of lookups.
- SeriesStore.Store.Delete: the feed's activity, clients, progress, retry and chapter rows are not tables of this model.
- LastModified.HonestIffGuarded: for stored series and at most 10,000 feeds rendered, so the validator map is never wiped; one process, since a restart forgets the validators; SHA-1 is taken to be injective.
- CacheFreshness.PeekIncludesReturnedWrites: the RSS assembly is an uninterpreted function of what was read and the origin.
- CacheFreshness.WriteIsServed: for a thread nothing comes between; LastModified.UpToDateIsServed says how long a render stays served while other feeds are rendered.
- SeriesStore.VersionTellsContent: versions start over with the process, and so does the cache.
- XmlRoundTrip.DocumentRoundTrip: tag and attribute names are valid names, as they are in the program; strings are sequences of Unicode scalar values, so invalid UTF-8 is not represented; the reader normalises neither line ends nor attribute values.
- RateLimiter.PruningIsInvisible: floats are reals and the clock does not go back; a run in which 5000 active clients make it forget everybody is a different limiter by design.
- WorkQueue.VideoRoundFollows: what a round does with its feed, and a panic inside it, end the round like any other.
- SingleFlight.ResultIsTheFetchs: what each of the four places fetches, the search cache and the short memory of unknown feeds (internal/feed/refresh.go:363-369 and 392-405) are left out; Search lets the leader's panic go on after waking the others.
- FastProbe.ProbeRefinesSlowPath: floats are reals; the two paths are compared in the same state at the same instant.
- StatsBatch.FailuresAreInvisible: times are recorded in the order of the lock, with a clock that does not go back; first-requested times, the activity-since mark and pruning of old days are left out, and a batch's clients are a map instead of a list with one sighting each.
- RetryDeadlines.DigitsAreSeconds: dates in Retry-After are parsed by the environment; the integer parser is its contract, an error when the value does not fit in 64 bits.
- FeedCache.Cache.Get: the linked list of the LRU order is a sequence.
- HTTP routing, pages, the admin area, passkeys, proxy headers, chapters, user agents and date parsing: interface and library code with little state to prove.
