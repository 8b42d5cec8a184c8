/** The background archive crawl (internal/crawl/backlog.go with
    GetEpisodePage in internal/nrk/nrk.go): a walk over NRK's paged listing
    whose durable checkpoint is the last completed page. */
module ArchiveCrawl {
  import opened Wrappers
  import opened Listing
  import opened Names
  import opened EpisodeLookups

  const MAX_PAGES_PER_RUN: nat := 200

  /** A listing link; 0 is the empty link, which opens the first page. */
  type Href = nat

  /** NRK's listing and one feed's rows in the database. `origin` and `drift`
      only serve the statements: origin holds the episodes listed when the
      crawl began and never dropped since, drift counts the entries dropped
      since the last completed page was fetched. */
  datatype World = World(
    listing: seq<EpisodeId>, origin: set<EpisodeId>, drift: nat,
    stored: set<EpisodeId>, failed: set<EpisodeId>,
    cursor: Option<Href>, complete: bool)
  {
    function Known(): set<EpisodeId> { stored + failed }
  }

  /** What the world around the crawler does for one page visit. */
  datatype Visit = Visit(
    added: seq<EpisodeId>,       // NRK puts these on top of the listing first
    dropped: set<EpisodeId>,     // and takes these off it
    others: set<EpisodeId>,      // other writers store these
    readable: bool,              // the stored ids can be read
    blocked: set<EpisodeId>,     // failures still under backoff
    reachable: bool,             // NRK answers the listing request
    manifests: Manifests,        // NRK's answers to the manifest lookups
    writable: bool,              // the episode batch can be written
    lifetime: Option<nat>,       // the process dies after this many durable writes of the visit
    cancelled: bool)             // shutdown arrives during the pause after the page
  {
    /** The visit's n-th durable write (from 0) is reached. */
    predicate Reaches(n: nat) { lifetime.None? || n < lifetime.value }
  }

  /** How a visit ends: with the next page's link, the end of the listing, or
      the end of the run (a pause, a shutdown or a crash). */
  datatype Step = Advance(href: Href) | Finished | Stopped

  // ---------- one page ----------

  function Observe(w: World, v: Visit): World {
    w.(listing := Shifted(w.listing, v.added, v.dropped),
       origin := w.origin - v.dropped,
       drift := w.drift + Lost(w.listing, v.dropped),
       stored := w.stored + v.others)
  }

  /** No answer, or past the first page an answer without entries or a next link. */
  function FetchPage(w: World, href: Href, v: Visit): Option<seq<EpisodeId>> {
    if !v.reachable then None
    else if href != 0 && Page(w.listing, href) == [] && !HasNext(w.listing, href) then None
    else Some(Page(w.listing, href))
  }

  function Skip(w: World, v: Visit): set<EpisodeId> { w.stored + (w.failed * v.blocked) }

  /** Looks up a page's missing episodes and stores them; true when the page is done. */
  function StorePage(w: World, wanted: seq<EpisodeId>, v: Visit): (World, bool) {
    var gone := Select(wanted, v.manifests, Gone);
    var playable := Select(wanted, v.manifests, Playable);
    var r := Recorded(v.lifetime, |gone|);
    var w1 := w.(failed := w.failed + Members(gone[..r]));
    if r < |gone| then (w1, false)
    else if playable != [] && !(v.Reaches(|gone|) && v.writable) then (w1, false)
    else
      var w2 := w1.(stored := w1.stored + Members(playable));
      (w2, Select(wanted, v.manifests, Transient) == [])
  }

  /** The durable writes a finished page has made before its checkpoint. */
  function WritesBefore(wanted: seq<EpisodeId>, v: Visit): nat {
    |Select(wanted, v.manifests, Gone)| + (if Select(wanted, v.manifests, Playable) == [] then 0 else 1)
  }

  function Checkpoint(w: World, href: Href, v: Visit, writes: nat): (World, Step) {
    if !v.Reaches(writes) then (w, Stopped)
    else if !HasNext(w.listing, href) then (w.(cursor := None, complete := true), Finished)
    else
      var w' := w.(cursor := if href == 0 then None else Some(href), complete := false, drift := 0);
      (w', if v.cancelled then Stopped else Advance(href + 1))
  }

  function VisitPage(w: World, href: Href, v: Visit): (World, Step) {
    var w1 := Observe(w, v);
    var page := FetchPage(w1, href, v);
    if !v.readable || page.None? then (w1, Stopped)
    else
      var wanted := Without(page.value, Skip(w1, v));
      var (w2, done) := StorePage(w1, wanted, v);
      if !done then (w2, Stopped) else Checkpoint(w2, href, v, WritesBefore(wanted, v))
  }

  // ---------- one run, and every run ----------

  /** The rest of a run, from its i-th page on. The script ending early is the
      process dying between two pages. */
  function CrawlFrom(w: World, href: Href, script: seq<Visit>, i: nat): World
    decreases |script| - i
  {
    if i >= |script| || i >= MAX_PAGES_PER_RUN then w
    else
      var (w', step) := VisitPage(w, href, script[i]);
      if step.Advance? then CrawlFrom(w', step.href, script, i + 1) else w'
  }

  function StartHref(w: World): Href { if w.cursor.Some? then w.cursor.value else 0 }

  function Crawl(w: World, script: seq<Visit>): World {
    if w.complete then w else CrawlFrom(w, StartHref(w), script, 0)
  }

  function CrawlAll(w: World, runs: seq<seq<Visit>>): World
    decreases |runs|
  {
    if runs == [] then w else CrawlAll(Crawl(w, runs[0]), runs[1..])
  }

  // ---------- what the listing may do ----------

  /** The listing only gains new episodes on top, and has lost at most
      `slack` entries since the last completed page was fetched. */
  ghost predicate Tolerable(w: World, href: Href, v: Visit, slack: nat) {
    && (forall id | id in v.added :: id !in w.listing)
    && (href == 0 || Observe(w, v).drift <= slack)
  }

  /** Nothing is dropped between two pages of a run, at most a page before it. */
  ghost predicate TolerableFrom(w: World, href: Href, script: seq<Visit>, i: nat)
    decreases |script| - i
  {
    i < |script| && i < MAX_PAGES_PER_RUN ==>
      && Tolerable(w, href, script[i], if i == 0 then PAGE_SIZE else 0)
      && var (w', step) := VisitPage(w, href, script[i]);
         (step.Advance? ==> TolerableFrom(w', step.href, script, i + 1))
  }

  ghost predicate TolerableAll(w: World, runs: seq<seq<Visit>>)
    decreases |runs|
  {
    runs != [] ==>
      && (!w.complete ==> TolerableFrom(w, StartHref(w), runs[0], 0))
      && TolerableAll(Crawl(w, runs[0]), runs[1..])
  }

  ghost predicate CrawlBegins(w: World) {
    w.cursor.None? && !w.complete && w.origin == Members(w.listing)
  }

  /** Every episode listed when the crawl began and still listed is stored or
      was recorded as failed. */
  ghost predicate Covered(w: World) {
    PrefixKnown(w.listing, |w.listing|, w.origin, w.Known())
  }

  /** What holds between any two durable writes. */
  ghost predicate Inv(w: World) {
    && w.origin <= Members(w.listing)
    && (w.complete ==> Covered(w))
    && (w.cursor.Some? ==>
         PrefixKnown(w.listing, PAGE_SIZE * (w.cursor.value + 1) - w.drift, w.origin, w.Known()))
  }

  /** About to visit href: with nothing more dropped than slack allows, every
      earlier page is known. */
  ghost predicate Ready(w: World, href: Href, slack: nat) {
    && Inv(w) && !w.complete
    && (href > 0 ==> PrefixKnown(w.listing, PAGE_SIZE * href + slack - w.drift, w.origin, w.Known()))
  }

  // ---------- safety ----------

  lemma ObserveKeeps(w: World, href: Href, v: Visit, slack: nat)
    requires Ready(w, href, slack) && Tolerable(w, href, v, slack)
    ensures var w' := Observe(w, v);
            Inv(w') && !w'.complete && PrefixKnown(w'.listing, PAGE_SIZE * href, w'.origin, w'.Known())
  {
    ShiftKeeps(w.listing, PAGE_SIZE * href + slack - w.drift, w.origin, w.Known(), v.added, v.dropped);
    if w.cursor.Some? {
      ShiftKeeps(w.listing, PAGE_SIZE * (w.cursor.value + 1) - w.drift, w.origin, w.Known(), v.added, v.dropped);
    }
  }

  /** Storing only adds to what is known, and a page that is done is known. */
  lemma StorePageKnows(w: World, page: seq<EpisodeId>, v: Visit)
    ensures var wanted := Without(page, Skip(w, v));
            var (w', done) := StorePage(w, wanted, v);
            && w' == w.(stored := w'.stored, failed := w'.failed)
            && w.stored <= w'.stored && w.failed <= w'.failed
            && (done ==> forall id | id in page :: id in w'.Known())
  {
    var wanted := Without(page, Skip(w, v));
    var gone := Select(wanted, v.manifests, Gone);
    if StorePage(w, wanted, v).1 {
      LookedUp(page, Skip(w, v), v.manifests);
      assert gone[..|gone|] == gone;
    }
  }

  /** Knowing more keeps every statement about the listing. */
  lemma KnowingMore(w: World, w': World)
    requires w' == w.(stored := w'.stored, failed := w'.failed)
    requires w.stored <= w'.stored && w.failed <= w'.failed
    ensures Inv(w) ==> Inv(w')
    ensures forall n | PrefixKnown(w.listing, n, w.origin, w.Known()) :: PrefixKnown(w.listing, n, w.origin, w'.Known())
  {}

  lemma VisitKeeps(w: World, href: Href, v: Visit, slack: nat)
    requires Ready(w, href, slack) && Tolerable(w, href, v, slack)
    ensures var (w', step) := VisitPage(w, href, v);
            && Inv(w')
            && (step.Advance? ==> step.href == href + 1 && Ready(w', href + 1, 0))
  {
    var w1 := Observe(w, v);
    ObserveKeeps(w, href, v, slack);
    var fetched := FetchPage(w1, href, v);
    if v.readable && fetched.Some? {
      var page := Page(w1.listing, href);
      var wanted := Without(page, Skip(w1, v));
      var (w2, done) := StorePage(w1, wanted, v);
      StorePageKnows(w1, page, v);
      KnowingMore(w1, w2);
      if done {
        PageExtends(w2.listing, href, w2.origin, w2.Known());
      }
    }
  }

  lemma {:induction false} CrawlFromKeeps(w: World, href: Href, script: seq<Visit>, i: nat)
    requires Ready(w, href, if i == 0 then PAGE_SIZE else 0) && TolerableFrom(w, href, script, i)
    ensures Inv(CrawlFrom(w, href, script, i))
    decreases |script| - i
  {
    if i < |script| && i < MAX_PAGES_PER_RUN {
      VisitKeeps(w, href, script[i], if i == 0 then PAGE_SIZE else 0);
      var (w', step) := VisitPage(w, href, script[i]);
      if step.Advance? {
        CrawlFromKeeps(w', step.href, script, i + 1);
      }
    }
  }

  lemma RunKeeps(w: World, script: seq<Visit>)
    ensures Inv(w) && !w.complete && TolerableFrom(w, StartHref(w), script, 0) ==>
              Inv(CrawlFrom(w, StartHref(w), script, 0))
  {
    if Inv(w) && !w.complete && TolerableFrom(w, StartHref(w), script, 0) {
      CrawlFromKeeps(w, StartHref(w), script, 0);
    }
  }

  lemma {:induction false} CrawlAllKeeps(w: World, runs: seq<seq<Visit>>)
    requires Inv(w) && TolerableAll(w, runs)
    ensures Inv(CrawlAll(w, runs))
    decreases |runs|
  {
    if runs != [] {
      if !w.complete {
        CrawlFromKeeps(w, StartHref(w), runs[0], 0);
      }
      CrawlAllKeeps(Crawl(w, runs[0]), runs[1..]);
    }
  }

  /** The archive is complete only when it is: over any runs, with failures,
      page limits, shutdowns and crashes anywhere, while NRK puts any number
      of episodes on top at any time and takes at most one page's worth off
      between a completed page and the next visit of it. */
  lemma CompleteMeansCovered(w: World, runs: seq<seq<Visit>>)
    requires CrawlBegins(w) && TolerableAll(w, runs)
    ensures var z := CrawlAll(w, runs);
            z.complete ==> forall id | id in z.listing && id in z.origin :: id in z.stored || id in z.failed
  {
    CrawlAllKeeps(w, runs);
    var z := CrawlAll(w, runs);
    if z.complete {
      forall id | id in z.listing && id in z.origin ensures id in z.Known() {
        var i :| 0 <= i < |z.listing| && z.listing[i] == id;
      }
    }
  }

  // ---------- what one visit leaves, episode by episode ----------

  /** On the page, not stored, and not a failure under backoff. */
  predicate Wanted(w: World, v: Visit, page: seq<EpisodeId>, id: EpisodeId) {
    id in page && id !in w.stored && id !in v.others && !(id in w.failed && id in v.blocked)
  }

  /** NRK answers with a page: the first one, or one with entries. */
  predicate Listed(v: Visit, href: Href, page: seq<EpisodeId>) {
    v.readable && v.reachable && (href == 0 || page != [])
  }

  /** How many failures of the page there are to record. */
  function Failures(w: World, v: Visit, page: seq<EpisodeId>): nat {
    |Select(Without(page, w.stored + v.others + (w.failed * v.blocked)), v.manifests, Gone)|
  }

  /** The process makes more than n durable writes. */
  predicate Outlives(v: Visit, n: nat) { v.lifetime == None || v.lifetime.value >= n + 1 }

  /** A visit records the unplayable episodes of its page and then stores the
      playable ones, and no others: every wanted one, unless the process dies
      or the write fails, whether or not the page has to be visited again. */
  lemma PageOutcome(w: World, href: Href, v: Visit, id: EpisodeId)
    ensures var page, w' := Page(Shifted(w.listing, v.added, v.dropped), href), VisitPage(w, href, v).0;
            var wanted, failures := Listed(v, href, page) && Wanted(w, v, page, id), Failures(w, v, page);
            && (id in w'.stored <==>
                  || id in w.stored || id in v.others
                  || (wanted && v.manifests(id) == Playable && v.writable && Outlives(v, failures)))
            && (id in w'.failed ==> id in w.failed || (wanted && v.manifests(id) == Gone))
            && (id in w.failed ==> id in w'.failed)
            && (wanted && v.manifests(id) == Gone && (failures == 0 || Outlives(v, failures - 1)) ==> id in w'.failed)
            && (v.lifetime == Some(0) ==> w'.failed == w.failed)
  {
    hide Select, Page, Without;
    var w1 := Observe(w, v);
    var page := Page(w1.listing, href);
    var skip := Skip(w1, v);
    var wanted := Without(page, skip);
    assert w.stored + v.others + (w.failed * v.blocked) == skip;
    NextHasEntries(w1.listing, href);
    WantedIff(w, v, page);
    SelectMembers(wanted, v.manifests, Playable);
    SelectMembers(wanted, v.manifests, Gone);
    var gone := Select(wanted, v.manifests, Gone);
    assert gone[..|gone|] == gone;
    assert forall r: nat | r <= |gone| :: id in gone[..r] ==> id in gone;
    assert id in Select(wanted, v.manifests, Playable) ==> |Select(wanted, v.manifests, Playable)| > 0;
  }

  lemma WantedIff(w: World, v: Visit, page: seq<EpisodeId>)
    ensures forall id :: id in Without(page, w.stored + v.others + (w.failed * v.blocked)) <==> Wanted(w, v, page, id)
  {
    var wanted := Without(page, w.stored + v.others + (w.failed * v.blocked));
    WithoutMembers(page, w.stored + v.others + (w.failed * v.blocked));
    assert forall id :: id in wanted <==> id in Members(wanted);
    assert forall id :: id in page <==> id in Members(page);
  }

  lemma NextHasEntries(listing: seq<EpisodeId>, href: Href)
    ensures HasNext(listing, href) ==> Page(listing, href) != []
  {}

  /** The page is done exactly when no wanted episode is transient, the playable
      ones could be written, and the process lives to save the checkpoint; then
      the crawl moves on, or is complete behind the last page. Otherwise it
      stops with the checkpoint it had. */
  lemma VisitMovesOn(w: World, href: Href, v: Visit)
    ensures var page := Page(Shifted(w.listing, v.added, v.dropped), href);
            var (w', step) := VisitPage(w, href, v);
            var stores := exists id :: Wanted(w, v, page, id) && v.manifests(id) == Playable;
            var done := && Listed(v, href, page)
                        && (forall id | Wanted(w, v, page, id) :: v.manifests(id) != Transient)
                        && (stores ==> v.writable)
                        && Outlives(v, Failures(w, v, page) + if stores then 1 else 0);
            if !done then step == Stopped && w'.cursor == w.cursor && w'.complete == w.complete
            else if !HasNext(w'.listing, href) then step == Finished && w'.complete && w'.cursor.None?
            else
              && step == (if v.cancelled then Stopped else Advance(href + 1))
              && !w'.complete && w'.cursor == if href == 0 then None else Some(href)
  {
    hide Select, Page, Without;
    var w1 := Observe(w, v);
    var page := Page(w1.listing, href);
    var skip := Skip(w1, v);
    var wanted := Without(page, skip);
    assert w.stored + v.others + (w.failed * v.blocked) == skip;
    NextHasEntries(w1.listing, href);
    WantedIff(w, v, page);
    hide Wanted;
    SomeSelected(wanted, v.manifests, Playable);
    SomeSelected(wanted, v.manifests, Transient);
  }

  // ---------- a listing that stands still ----------

  predicate Still(v: Visit) { v.added == [] && v.dropped == {} }

  ghost predicate StillRuns(runs: seq<seq<Visit>>) {
    forall r, i | 0 <= r < |runs| && 0 <= i < |runs[r]| :: Still(runs[r][i])
  }

  lemma StillObserve(w: World, v: Visit)
    requires Still(v)
    ensures Observe(w, v) == w.(stored := w.stored + v.others)
  {
    WithoutNothing(w.listing);
    assert [] + w.listing == w.listing;
  }

  lemma StillVisit(w: World, href: Href, v: Visit)
    requires Still(v) && w.drift == 0
    ensures var w' := VisitPage(w, href, v).0;
            w'.listing == w.listing && w'.origin == w.origin && w'.drift == 0
    ensures forall slack: nat :: Tolerable(w, href, v, slack)
  {
    StillObserve(w, v);
    hide Select, Without, Page;
  }

  /** Nothing about a still listing changes during a run, and any script is tolerable. */
  lemma {:induction false} StillFrom(w: World, href: Href, script: seq<Visit>, i: nat)
    requires forall j | i <= j < |script| :: Still(script[j])
    requires w.drift == 0
    ensures TolerableFrom(w, href, script, i)
    ensures var z := CrawlFrom(w, href, script, i);
            z.listing == w.listing && z.origin == w.origin && z.drift == 0
    decreases |script| - i
  {
    hide VisitPage, Tolerable;
    if i < |script| && i < MAX_PAGES_PER_RUN {
      StillVisit(w, href, script[i]);
      var (w', step) := VisitPage(w, href, script[i]);
      if step.Advance? { StillFrom(w', step.href, script, i + 1); }
    }
  }

  lemma {:induction false} StillAll(w: World, runs: seq<seq<Visit>>)
    requires StillRuns(runs) && w.drift == 0
    ensures TolerableAll(w, runs)
    ensures var z := CrawlAll(w, runs);
            z.listing == w.listing && z.origin == w.origin && z.drift == 0
    decreases |runs|
  {
    if runs != [] {
      if !w.complete {
        assert forall j | 0 <= j < |runs[0]| :: Still(runs[0][j]);
        StillFrom(w, StartHref(w), runs[0], 0);
      }
      assert StillRuns(runs[1..]) by {
        forall r, i | 0 <= r < |runs[1..]| && 0 <= i < |runs[1..][r]| ensures Still(runs[1..][r][i]) {
          assert runs[1..][r] == runs[r + 1];
        }
      }
      StillAll(Crawl(w, runs[0]), runs[1..]);
    }
  }

  /** On a listing that stands still, every page up to and including the saved
      checkpoint is stored or recorded as failed, whatever failed or crashed
      and wherever; a complete archive holds the whole listing. */
  lemma CheckpointIsSafe(w: World, runs: seq<seq<Visit>>)
    requires CrawlBegins(w) && w.drift == 0 && StillRuns(runs)
    ensures var z := CrawlAll(w, runs);
            && z.listing == w.listing
            && (z.cursor.Some? ==> forall k: nat, id | k <= z.cursor.value && id in Page(z.listing, k) ::
                  id in z.stored || id in z.failed)
            && (z.complete ==> forall id | id in z.listing :: id in z.stored || id in z.failed)
  {
    StillAll(w, runs);
    CrawlAllKeeps(w, runs);
    var z := CrawlAll(w, runs);
    assert forall id | id in z.listing :: id in Members(z.listing);
    if z.cursor.Some? { PagesKnown(z.listing, z.cursor.value, z.origin, z.Known()); }
    if z.complete { CompleteMeansCovered(w, runs); }
  }

  // ---------- progress ----------

  /** Nothing goes wrong during the visit. */
  predicate Clean(v: Visit, listing: seq<EpisodeId>) {
    && Still(v) && v.readable && v.reachable && v.writable && v.lifetime.None? && !v.cancelled
    && forall id | id in listing :: v.manifests(id) != Transient
  }

  ghost predicate CleanRun(script: seq<Visit>, listing: seq<EpisodeId>) {
    |script| >= MAX_PAGES_PER_RUN && forall i | 0 <= i < |script| :: Clean(script[i], listing)
  }

  lemma CleanVisit(w: World, href: Href, v: Visit)
    requires Clean(v, w.listing) && href <= LastPage(w.listing)
    ensures var (w', step) := VisitPage(w, href, v);
            && w'.listing == w.listing
            && if href == LastPage(w.listing) then step == Finished && w'.complete
               else step == Advance(href + 1) && !w'.complete && w'.cursor == if href == 0 then None else Some(href)
  {
    StillObserve(w, v);
    LastPageIsLast(w.listing, href);
    var w1 := Observe(w, v);
    var page := Page(w.listing, href);
    var wanted := Without(page, Skip(w1, v));
    NoTransients(page, Skip(w1, v), v.manifests);
  }

  lemma {:induction false} CleanFrom(w: World, href: Href, script: seq<Visit>, i: nat)
    requires !w.complete && i <= href <= LastPage(w.listing) && CleanRun(script, w.listing)
    requires i < MAX_PAGES_PER_RUN
    ensures var z := CrawlFrom(w, href, script, i);
            var reached := href + (MAX_PAGES_PER_RUN - 1 - i);
            && z.listing == w.listing
            && if LastPage(w.listing) <= reached then z.complete else !z.complete && z.cursor == Some(reached)
    decreases |script| - i
  {
    hide VisitPage;
    CleanVisit(w, href, script[i]);
    var (w', step) := VisitPage(w, href, script[i]);
    assert CrawlFrom(w, href, script, i) == if step.Advance? then CrawlFrom(w', step.href, script, i + 1) else w';
    if href < LastPage(w.listing) {
      if i + 1 < MAX_PAGES_PER_RUN {
        CleanFrom(w', href + 1, script, i + 1);
      } else {
        assert CrawlFrom(w', href + 1, script, i + 1) == w';
      }
    }
  }

  lemma {:induction false} CleanRunsFrom(w: World, runs: seq<seq<Visit>>)
    requires !w.complete ==> StartHref(w) <= LastPage(w.listing)
    requires forall r | 0 <= r < |runs| :: CleanRun(runs[r], w.listing)
    requires runs != []
    ensures var z := CrawlAll(w, runs);
            var reached := StartHref(w) + 199 * |runs|;
            if w.complete || LastPage(w.listing) <= reached then z.complete
            else !z.complete && z.cursor == Some(reached)
    decreases |runs|
  {
    hide VisitPage;
    var w1 := Crawl(w, runs[0]);
    if w.complete {
      if |runs| > 1 { CleanRunsFrom(w1, runs[1..]); }
    } else {
      CleanFrom(w, StartHref(w), runs[0], 0);
      assert w1 == CrawlFrom(w, StartHref(w), runs[0], 0);
      if |runs| > 1 {
        CleanRunsFrom(w1, runs[1..]);
      } else {
        assert CrawlAll(w1, runs[1..]) == w1;
      }
    }
  }

  /** Undisturbed, an archive of N = LastPage + 1 pages is complete after
      exactly max(1, ceil((N - 1) / 199)) runs: each run stops after 200 pages
      and the next one revisits the last. */
  lemma ExactNumberOfRuns(w: World, runs: seq<seq<Visit>>)
    requires CrawlBegins(w)
    requires forall r | 0 <= r < |runs| :: CleanRun(runs[r], w.listing)
    ensures CrawlAll(w, runs).complete <==> runs != [] && LastPage(w.listing) <= 199 * |runs|
  {
    if runs != [] { CleanRunsFrom(w, runs); }
  }

  // ---------- the overlap is exactly one page ----------

  /** A visit on which everything works, after NRK dropped some entries. */
  function Perfect(dropped: set<EpisodeId>): Visit {
    Visit([], dropped, {}, true, {}, true, _ => Playable, true, None, false)
  }

  lemma PerfectStore(w: World, page: seq<EpisodeId>, v: Visit)
    requires v == Perfect(v.dropped) && w.failed == {} && page != [] && (forall id | id in page :: id !in w.stored)
    ensures StorePage(w, Without(page, Skip(w, v)), v) == (w.(stored := w.stored + Members(page)), true)
  {
    assert Skip(w, v) == w.stored;
    WithoutStrangers(page, w.stored);
    AllPlayable(page, v.manifests);
    assert w.failed + Members([]) == w.failed;
  }

  lemma PerfectVisit(w: World, href: Href, dropped: set<EpisodeId>, listing: seq<EpisodeId>)
    requires w.failed == {} && Without(w.listing, dropped) == listing && Page(listing, href) != []
    requires forall id | id in Page(listing, href) :: id !in w.stored
    ensures var (w', step) := VisitPage(w, href, Perfect(dropped));
            && w'.listing == listing && w'.origin == w.origin - dropped && w'.failed == {}
            && w'.stored == w.stored + Members(Page(listing, href))
            && if HasNext(listing, href)
               then !w'.complete && w'.cursor == (if href == 0 then None else Some(href)) && w'.drift == 0
                    && step == Advance(href + 1)
               else w'.complete && step == Finished
  {
    hide StorePage, Page, HasNext, Without, Skip;
    var v := Perfect(dropped);
    var w1 := Observe(w, v);
    assert w1.listing == listing;
    assert w1.stored == w.stored;
    PerfectStore(w1, Page(listing, href), v);
  }

  lemma Unroll(w: World, href: Href, script: seq<Visit>, i: nat, w': World, step: Step)
    requires i < |script| && i < MAX_PAGES_PER_RUN && VisitPage(w, href, script[i]) == (w', step)
    ensures CrawlFrom(w, href, script, i) == if step.Advance? then CrawlFrom(w', step.href, script, i + 1) else w'
  {}

  /** A first run completes pages 0 and 1, then the process dies. */
  lemma TwoPagesThenRestart(w: World, script: seq<Visit>)
    requires w.cursor.None? && !w.complete && w.drift == 0 && w.stored == {} == w.failed
    requires script == [Perfect({}), Perfect({})]
    requires Page(w.listing, 0) != [] && Page(w.listing, 1) != [] && HasNext(w.listing, 0) && HasNext(w.listing, 1)
    requires forall id | id in Page(w.listing, 1) :: id !in Page(w.listing, 0)
    ensures Crawl(w, script)
         == w.(stored := Members(Page(w.listing, 0)) + Members(Page(w.listing, 1)), cursor := Some(1))
  {
    hide VisitPage, CrawlFrom, Perfect, Page;
    var l := w.listing;
    WithoutNothing(l);
    PerfectVisit(w, 0, {}, l);
    var w1 := VisitPage(w, 0, script[0]).0;
    PerfectVisit(w1, 1, {}, l);
    var w2 := VisitPage(w1, 1, script[1]).0;
    Unroll(w, 0, script, 0, w1, Advance(1));
    Unroll(w1, 1, script, 1, w2, Advance(2));
    RunEnds(w2, 2, script, 2);
  }

  lemma RunEnds(w: World, href: Href, script: seq<Visit>, i: nat)
    requires i >= |script| || i >= MAX_PAGES_PER_RUN
    ensures CrawlFrom(w, href, script, i) == w
  {}

  /** With the first 51 of 151 gone, the one at 100 is on page 0; before, it was on page 2. */
  lemma FiftyOneShift(l: seq<EpisodeId>, rest: seq<EpisodeId>)
    requires l == Numbered(151) && rest == l[51..]
    ensures Without(l, Members(l[..51])) == rest && Page(rest, 1) != [] && !HasNext(rest, 1)
    ensures forall id | id in Page(rest, 1) :: id !in Members(Page(l, 0)) + Members(Page(l, 1))
    ensures l[100] in rest && l[100] in Members(l) - Members(l[..51])
    ensures l[100] !in Members(Page(l, 0)) + Members(Page(l, 1)) + Members(Page(rest, 1))
  {
    hide Page;
    var dropped := Members(l[..51]);
    assert forall id | id in dropped :: |id| < 51;
    WithoutHead(l, 51, dropped);
    PageLengths(rest, 51, 1);
    PageLengths(l, 0, 0);
    PageLengths(l, 0, 1);
    PageNotEmpty(rest, 1);
    assert rest[49] == l[100] && |l[100]| == 100;
  }

  /** The second run starts after 51 entries were dropped from the top. */
  lemma RevisitedTooLate(w: World, script: seq<Visit>)
    requires var l := Numbered(151);
             w == World(l, Members(l), 0, Members(Page(l, 0)) + Members(Page(l, 1)), {}, Some(1), false)
    requires script == [Perfect(Members(w.listing[..51]))]
    ensures Observe(w, script[0]).drift == PAGE_SIZE + 1
    ensures var z := Crawl(w, script);
            var lost := w.listing[100];
            z.complete && lost in z.listing && lost in z.origin && lost !in z.stored && lost !in z.failed
  {
    hide VisitPage, CrawlFrom, Page, Members, Without, Numbered;
    var l, dropped := w.listing, Members(w.listing[..51]);
    var rest := l[51..];
    FiftyOneShift(l, rest);
    PerfectVisit(w, 1, dropped, rest);
    Unroll(w, 1, script, 0, VisitPage(w, 1, script[0]).0, Finished);
  }

  /** One entry more than a page is already too much: page 1 is complete, the
      process restarts, NRK drops 51 entries, and the episode that slides
      from page 2 past the revisited page 1 is lost for good. */
  lemma FiftyOneDroppedLosesAnEpisode() returns (w: World, runs: seq<seq<Visit>>, lost: EpisodeId)
    ensures CrawlBegins(w) && |runs| == 2 && TolerableFrom(w, 0, runs[0], 0)
    ensures |runs[1]| == 1 && Observe(Crawl(w, runs[0]), runs[1][0]).drift == PAGE_SIZE + 1
    ensures var z := CrawlAll(w, runs);
            z.complete && lost in z.listing && lost in z.origin && lost !in z.stored && lost !in z.failed
  {
    hide VisitPage, Crawl, Observe, Page;
    var l := Numbered(151);
    w := World(l, Members(l), 0, {}, {}, None, false);
    var script, last := [Perfect({}), Perfect({})], [Perfect(Members(l[..51]))];
    runs, lost := [script, last], l[100];
    PageLengths(l, 0, 0);
    PageLengths(l, 0, 1);
    PageNotEmpty(l, 0);
    PageNotEmpty(l, 1);
    TwoPagesThenRestart(w, script);
    StillFrom(w, 0, script, 0);
    var w2 := Crawl(w, script);
    RevisitedTooLate(w2, last);
    TwoRuns(w, script, last);
  }

  lemma TwoRuns(w: World, first: seq<Visit>, second: seq<Visit>)
    ensures CrawlAll(w, [first, second]) == Crawl(Crawl(w, first), second)
  {
    hide Crawl;
    var w1 := Crawl(w, first);
    assert [first, second][1..] == [second] && [second][1..] == [];
    assert CrawlAll(w1, [second]) == CrawlAll(Crawl(w1, second), []);
  }

  // ---------- the crawler itself ----------

  /** NRK's listing with one feed's rows, updated in place. */
  class Crawler {
    var listing: seq<EpisodeId>
    ghost var origin: set<EpisodeId>
    ghost var drift: nat
    var stored: set<EpisodeId>
    var failed: set<EpisodeId>
    var cursor: Option<Href>
    var complete: bool

    ghost function View(): World
      reads this
    {
      World(listing, origin, drift, stored, failed, cursor, complete)
    }

    constructor (listed: seq<EpisodeId>)
      ensures CrawlBegins(View()) && View() == World(listed, Members(listed), 0, {}, {}, None, false)
    {
      listing, origin, drift := listed, Members(listed), 0;
      stored, failed, cursor, complete := {}, {}, None, false;
    }

    /** Not the crawler's doing: NRK and the other writers move on. */
    method WorldMoves(v: Visit)
      modifies this
      ensures View() == Observe(old(View()), v)
    {
      var kept := FilterSkipped(listing, v.dropped);
      drift := drift + Lost(listing, v.dropped);
      origin := origin - v.dropped;
      listing := v.added + kept;
      stored := stored + v.others;
    }

    method GetPage(href: Href, v: Visit) returns (page: Option<seq<EpisodeId>>)
      ensures page == FetchPage(View(), href, v)
    {
      if !v.reachable {
        return None;
      }
      var episodes := Page(listing, href);
      if href != 0 && |episodes| == 0 && !HasNext(listing, href) {
        return None;
      }
      return Some(episodes);
    }

    method Resolve(wanted: seq<EpisodeId>, v: Visit) returns (done: bool)
      modifies this`stored, this`failed
      ensures (View(), done) == StorePage(old(View()), wanted, v)
    {
      var playable, gone, transient := Collect(wanted, v.manifests);
      var alive;
      failed, alive := RecordFailures(gone, failed, v.lifetime);
      if !alive {
        return false;
      }
      if |playable| > 0 {
        if !(v.Reaches(|gone|) && v.writable) {
          return false;
        }
        stored := stored + Members(playable);
      }
      assert stored == old(stored) + Members(playable);
      done := transient == 0;
    }

    method SaveCheckpoint(href: Href, v: Visit, writes: nat) returns (step: Step)
      modifies this`cursor, this`complete, this`drift
      ensures (View(), step) == Checkpoint(old(View()), href, v, writes)
    {
      if !v.Reaches(writes) {
        return Stopped;
      }
      if !HasNext(listing, href) {
        cursor, complete := None, true;
        return Finished;
      }
      // the next run starts on this same page
      cursor, complete := if href == 0 then None else Some(href), false;
      drift := 0;
      return if v.cancelled then Stopped else Advance(href + 1);
    }

    method OnePage(href: Href, v: Visit) returns (step: Step)
      modifies this
      ensures (View(), step) == VisitPage(old(View()), href, v)
    {
      WorldMoves(v);
      if !v.readable {
        return Stopped;
      }
      var skip := stored + (failed * v.blocked);
      var page := GetPage(href, v);
      if page.None? {
        return Stopped;
      }
      var wanted := FilterSkipped(page.value, skip);
      var done := Resolve(wanted, v);
      if !done {
        return Stopped;
      }
      step := SaveCheckpoint(href, v, WritesBefore(wanted, v));
    }

    /** One run of the crawl: the database ends up exactly where the script of
        outside events takes it, and what holds between runs still holds. */
    method Run(script: seq<Visit>)
      modifies this
      ensures View() == Crawl(old(View()), script)
      ensures old(Inv(View()) && TolerableFrom(View(), StartHref(View()), script, 0)) ==> Inv(View())
    {
      hide VisitPage, CrawlFrom, Inv;
      if complete {
        return;
      }
      var href: Href := if cursor.Some? then cursor.value else 0;
      var i := 0;
      ghost var start := View();
      RunKeeps(start, script);
      while i < MAX_PAGES_PER_RUN && i < |script|
        invariant i <= MAX_PAGES_PER_RUN && i <= |script|
        invariant CrawlFrom(start, StartHref(start), script, 0) == CrawlFrom(View(), href, script, i)
      {
        ghost var before := View();
        var step := OnePage(href, script[i]);
        Unroll(before, href, script, i, View(), step);
        if !step.Advance? {
          return;
        }
        href := step.href;
        i := i + 1;
      }
      RunEnds(View(), href, script, i);
    }
  }
}
