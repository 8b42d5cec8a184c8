/** The cheap freshness probe of the feed fast path against the slow path it
    stands in for (MetaIsFresh and fetchSeries in internal/feed/refresh.go). */
module FastProbe {
  import opened Wrappers
  import Retry = RetryDeadlines
  import Crawl = WorkQueue

  type FeedId = string

  /** Times are nanoseconds; stored ones were written to the millisecond. */
  type Time = int

  const MILLISECOND := 1_000_000
  const HOUR := 3_600_000 * MILLISECOND

  /** A stored feed; `dates` are its episodes' in no particular order. */
  datatype Series = Series(lastFetchedAt: Time, backlogComplete: bool, dates: seq<Time>)

  datatype State = State(series: map<FeedId, Series>, refreshing: set<FeedId>, retry: Retry.Table, crawl: Crawl.State)

  function Hours(d: int): real { d as real / HOUR as real }

  predicate Can(s: State, key: string, now: Time) { Retry.Can(s.retry, key, now / MILLISECOND) }

  /** SELECT MAX(date): None without rows. */
  function Newest(dates: seq<Time>): Option<Time> {
    if dates == [] then None
    else match Newest(dates[1..])
      case None => Some(dates[0])
      case Some(t) => Some(if t >= dates[0] then t else dates[0])
  }

  /** What ORDER BY date DESC may return; it leaves ties in any order. */
  predicate ReadAs(dates: seq<Time>, episodes: seq<Time>) {
    && multiset(episodes) == multiset(dates)
    && forall i, j | 0 <= i < j < |episodes| :: episodes[i] >= episodes[j]
  }

  /** The refresh interval, by the age of the newest episode. */
  function IntervalHoursFor(newest: Option<Time>, now: Time): real {
    match newest
    case None => 3.0
    case Some(t) =>
      var days := (now - t) as real / (24 * HOUR) as real;
      if days < 2.0 then 1.0 else if days < 30.0 then 12.0 else if days < 180.0 then 72.0 else 168.0
  }

  /** The probe reads no episodes, only the newest one's date. */
  predicate MetaIsFresh(s: State, id: FeedId, now: Time) {
    && id in s.series
    && var meta := s.series[id];
       && !(id in s.refreshing && Can(s, "refresh:" + id, now))
       && !(!meta.backlogComplete && Can(s, "backlog:" + id, now))
       && (!Can(s, "refresh:" + id, now)
           || Hours(now - meta.lastFetchedAt) <= IntervalHoursFor(Newest(meta.dates), now) * 0.85)
  }

  /** Whole hours between two times, floored, and never negative. */
  function HoursSince(t: Time, now: Time): real {
    Hours(if now >= t then now - t else t - now).Floor as real
  }

  function RefreshIntervalHours(episodes: seq<Time>, now: Time): real {
    if episodes == [] then IntervalHoursFor(None, now) else IntervalHoursFor(Some(episodes[0]), now)
  }

  datatype Decision = Fail | FetchFirst | Serve | Refresh

  /** fetchSeries' choice, with the episodes as read and a jitter draw in [0, 1). */
  function Decide(s: State, id: FeedId, episodes: seq<Time>, now: Time, jitter: real): Decision {
    if !Can(s, "refresh:" + id, now) then if id in s.series then Serve else Fail
    else if id !in s.series then FetchFirst
    else if id !in s.refreshing
         && HoursSince(s.series[id].lastFetchedAt, now) <= RefreshIntervalHours(episodes, now) * (0.85 + jitter * 0.3)
      then Serve
    else Refresh
  }

  /** The crawl queue after fetchSeries served what is stored. */
  function AfterServing(s: State, id: FeedId, now: Time): Crawl.State
    requires id in s.series
  {
    if s.series[id].backlogComplete then s.crawl
    else Crawl.Enqueued(s.crawl, Crawl.Crawler, id, Can(s, "backlog:" + id, now))
  }

  /** The more recently a feed published, the more often it is refreshed:
      hourly exactly while its newest episode is under two days old, weekly
      exactly from 180 days on, and never outside those bounds. */
  lemma CadenceFollowsActivity(newest: Time, older: Time, now: Time)
    requires older <= newest
    ensures 1.0 <= IntervalHoursFor(Some(newest), now) <= IntervalHoursFor(Some(older), now) <= 168.0
    ensures IntervalHoursFor(Some(newest), now) == 1.0 <==> now - newest < 48 * HOUR
    ensures IntervalHoursFor(Some(newest), now) == 168.0 <==> now - newest >= 180 * 24 * HOUR
    ensures IntervalHoursFor(Some(newest), now) == 12.0 <==> 48 * HOUR <= now - newest < 30 * 24 * HOUR
    ensures IntervalHoursFor(Some(newest), now) == 72.0 <==> 30 * 24 * HOUR <= now - newest < 180 * 24 * HOUR
    ensures IntervalHoursFor(None, now) == 3.0
  {}

  /** Whole hours: as many as fit between the two times, either way. */
  lemma HoursSinceFits(t: Time, now: Time)
    ensures var between := if t <= now then now - t else t - now;
            var hours := HoursSince(t, now).Floor;
            && hours as real == HoursSince(t, now)
            && hours * 3_600_000_000_000 <= between < (hours + 1) * 3_600_000_000_000
  {}

  /** Exactly when the probe calls a feed fresh: it is stored; its crawl is over
      or held back; and its refresh is held back, or none is under way and
      at most 85% of its interval has passed. */
  lemma FreshIff(s: State, id: FeedId, now: Time)
    ensures MetaIsFresh(s, id, now) <==>
              && id in s.series
              && (s.series[id].backlogComplete || HeldBack(s, "backlog:" + id, now))
              && (HeldBack(s, "refresh:" + id, now)
                  || (id !in s.refreshing
                      && (now - s.series[id].lastFetchedAt) as real
                         <= 0.85 * IntervalHoursFor(Newest(s.series[id].dates), now) * 3_600_000_000_000.0))
  {
    hide IntervalHoursFor, Newest;
    if id in s.series {
      var elapsed := now - s.series[id].lastFetchedAt;
      var interval := IntervalHoursFor(Newest(s.series[id].dates), now);
      assert Hours(elapsed) * 3_600_000_000_000.0 == elapsed as real;
    }
  }

  /** A deadline of the key, in Unix milliseconds, has not come yet. */
  predicate HeldBack(s: State, key: string, now: Time) {
    if key in s.retry then now / 1_000_000 < s.retry[key].nextRetryAt else now / 1_000_000 < 0
  }

  /** Serving what is stored queues the crawl of an archive that is not
      complete, unless it is held back, queued already or shutting down. */
  lemma ServingQueuesCrawl(s: State, id: FeedId, now: Time)
    requires id in s.series
    ensures var crawl := AfterServing(s, id, now);
            && (id in crawl.queued <==>
                  || id in s.crawl.queued
                  || (!s.series[id].backlogComplete && !HeldBack(s, "backlog:" + id, now) && !s.crawl.cancelled))
            && (id in crawl.queued && id !in s.crawl.queued ==> crawl.queue == s.crawl.queue + [id] && crawl.running)
            && (id !in crawl.queued || id in s.crawl.queued ==> crawl == s.crawl)
  {}

  // ---------- both paths see the same newest episode ----------

  lemma {:induction false} NewestIsMax(dates: seq<Time>)
    ensures Newest(dates).None? <==> dates == []
    ensures Newest(dates).Some? ==> Newest(dates).value in dates
    ensures forall t | t in dates :: t <= Newest(dates).value
  {
    if dates != [] {
      NewestIsMax(dates[1..]);
      assert dates == [dates[0]] + dates[1..];
    }
  }

  /** The maximum the probe selects is the date of the first episode read. */
  lemma NewestAgrees(dates: seq<Time>, episodes: seq<Time>)
    requires ReadAs(dates, episodes)
    ensures Newest(dates) == if episodes == [] then None else Some(episodes[0])
  {
    NewestIsMax(dates);
    assert forall t :: t in dates <==> t in multiset(dates);
    assert forall t :: t in episodes <==> t in multiset(episodes);
    if dates != [] {
      assert dates[0] in multiset(episodes);
      assert Newest(dates).value in episodes;
      assert episodes[0] in dates;
    }
  }

  // ---------- the probe refines the slow path ----------

  predicate Draw(jitter: real) { 0.0 <= jitter < 1.0 }

  /** When the slow path serves what is stored for every jitter draw. */
  predicate ServesForEveryJitter(s: State, id: FeedId, episodes: seq<Time>, now: Time)
    requires id in s.series
  {
    || !Can(s, "refresh:" + id, now)
    || (id !in s.refreshing
        && HoursSince(s.series[id].lastFetchedAt, now) <= RefreshIntervalHours(episodes, now) * 0.85)
  }

  /** The smallest draw decides for all of them. */
  lemma EveryJitterIff(s: State, id: FeedId, episodes: seq<Time>, now: Time)
    requires id in s.series
    ensures ServesForEveryJitter(s, id, episodes, now)
       <==> forall jitter :: Draw(jitter) ==> Decide(s, id, episodes, now, jitter) == Serve
  {
    hide HoursSince, Can;
    var interval := RefreshIntervalHours(episodes, now);
    assert Draw(0.0) && interval * (0.85 + 0.0 * 0.3) == interval * 0.85;
    forall jitter | Draw(jitter) ensures interval * 0.85 <= interval * (0.85 + jitter * 0.3) {
      assert interval * (0.85 + jitter * 0.3) == interval * 0.85 + 0.3 * (interval * jitter);
      Positive(interval, jitter);
    }
  }

  lemma Positive(a: real, b: real)
    requires a >= 0.0 && b >= 0.0
    ensures a * b >= 0.0
  {}

  lemma FlooredHours(t: Time, now: Time)
    requires t <= now
    ensures HoursSince(t, now) <= Hours(now - t)
  {}

  /** The exact condition under which a fresh answer hides no refresh: it
      always holds for a feed not fetched in the future, and for one that
      was it is that the distance in whole hours is inside the window too. */
  lemma FreshHidesNothingIff(s: State, id: FeedId, episodes: seq<Time>, now: Time)
    requires MetaIsFresh(s, id, now) && ReadAs(s.series[id].dates, episodes)
    ensures (forall jitter :: Draw(jitter) ==> Decide(s, id, episodes, now, jitter) == Serve)
       <==> || !Can(s, "refresh:" + id, now)
            || HoursSince(s.series[id].lastFetchedAt, now) <= RefreshIntervalHours(episodes, now) * 0.85
    ensures s.series[id].lastFetchedAt <= now ==>
              forall jitter :: Draw(jitter) ==> Decide(s, id, episodes, now, jitter) == Serve
  {
    hide Can, IntervalHoursFor, HoursSince, Hours;
    NewestAgrees(s.series[id].dates, episodes);
    EveryJitterIff(s, id, episodes, now);
    if s.series[id].lastFetchedAt <= now { FlooredHours(s.series[id].lastFetchedAt, now); }
  }

  /** In the same state at the same instant, a feed the probe calls fresh (and
      not fetched in the future) is one fetchSeries serves from the store
      whatever the jitter, queueing no crawl. */
  lemma ProbeRefinesSlowPath(s: State, id: FeedId, episodes: seq<Time>, now: Time, jitter: real)
    requires MetaIsFresh(s, id, now) && ReadAs(s.series[id].dates, episodes) && Draw(jitter)
    requires s.series[id].lastFetchedAt <= now
    ensures Decide(s, id, episodes, now, jitter) == Serve
    ensures AfterServing(s, id, now) == s.crawl
  {
    FreshHidesNothingIff(s, id, episodes, now);
  }

  /** A feed stamped ten hours ahead of the clock is called fresh for all
      that time, though the slow path would refresh it at any draw. */
  lemma FutureFetchLooksFresh(now: Time, id: FeedId) returns (s: State)
    ensures MetaIsFresh(s, id, now)
    ensures forall jitter :: Draw(jitter) ==> Decide(s, id, [], now, jitter) == Refresh
    ensures ReadAs(s.series[id].dates, [])
  {
    var due := map["refresh:" + id := Retry.Deadline(0, now / MILLISECOND)];
    s := State(map[id := Series(now + 10 * HOUR, true, [])], {}, due, Crawl.NEW);
  }
}
