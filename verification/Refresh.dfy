/** The incremental refresh (updateFetch in internal/feed/refresh.go with
    GetNewEpisodes in internal/nrk/nrk.go): rounds of at most ten pages with a
    durable checkpoint and a stop boundary frozen before the first batch. */
module Refresh {
  import opened Wrappers
  import opened Listing
  import opened Names
  import opened EpisodeLookups

  const PAGES_PER_ROUND: nat := 10
  const STOP_BOUNDARY: nat := 50

  type Href = nat   // the 0-based page a listing link opens

  datatype Progress = Progress(cursor: Href, stop: set<EpisodeId>)

  /** NRK's listing and one feed's rows. `origin` and `drift` only serve the
      statements: origin holds the episodes listed at the first saved progress
      and never dropped since, drift counts the entries dropped since the
      checkpoint's page was fetched. */
  datatype World = World(
    listing: seq<EpisodeId>, origin: set<EpisodeId>, drift: nat,
    stored: set<EpisodeId>, failed: set<EpisodeId>, progress: Option<Progress>)
  {
    function Known(): set<EpisodeId> { stored + failed }
  }

  datatype Answer = Listed | NotFound | Failed

  /** One listing request: what happened before it, and what it brings. */
  datatype Visit = Visit(
    added: seq<EpisodeId>, dropped: set<EpisodeId>, others: set<EpisodeId>,
    answer: Answer, manifests: Manifests,
    lifetime: Option<nat>)       // the process dies after recording this many of the page's failures

  datatype Death = BeforeBoundary | BeforeBatch | BeforeCheckpoint | Never

  /** What the outside does for one round; the process dies where the pages end. */
  datatype Round = Round(
    newestFirst: seq<EpisodeId>,             // the order stored episodes are read in
    metadataDue: bool, metadataOk: bool,
    blocked: set<EpisodeId>, pages: seq<Visit>, writable: bool, death: Death)

  datatype Outcome = Interrupted | Deferred | Completed | FellBack

  // ---------- the boundary ----------

  function OnlyIn(order: seq<EpisodeId>, some: set<EpisodeId>): seq<EpisodeId> {
    if order == [] then []
    else (if order[0] in some then [order[0]] else []) + OnlyIn(order[1..], some)
  }

  /** The first 50 of the stored episodes in reading order. */
  function Boundary(order: seq<EpisodeId>, stored: set<EpisodeId>): set<EpisodeId> {
    var read := OnlyIn(order, stored);
    Members(read[..Min(STOP_BOUNDARY, |read|)])
  }

  lemma {:induction false} BoundaryIsStored(order: seq<EpisodeId>, stored: set<EpisodeId>)
    ensures Boundary(order, stored) <= stored
  {
    OnlyInMembers(order, stored);
  }

  lemma {:induction false} OnlyInMembers(order: seq<EpisodeId>, some: set<EpisodeId>)
    ensures forall id | id in OnlyIn(order, some) :: id in some
  {
    if order != [] { OnlyInMembers(order[1..], some); }
  }

  lemma {:induction false} OnlyInAppend(a: seq<EpisodeId>, b: seq<EpisodeId>, some: set<EpisodeId>)
    ensures OnlyIn(a + b, some) == OnlyIn(a, some) + OnlyIn(b, some)
  {
    if a == [] {
      assert a + b == b;
    } else {
      assert (a + b)[1..] == a[1..] + b;
      OnlyInAppend(a[1..], b, some);
    }
  }

  /** The boundary is the newest stored episodes: one listed at position i is
      in it whenever fewer than 50 stored ones are newer. */
  lemma BoundaryIsNewest(order: seq<EpisodeId>, stored: set<EpisodeId>, i: nat)
    requires i < |order| && order[i] in stored && |OnlyIn(order[..i], stored)| < 50
    ensures order[i] in Boundary(order, stored)
  {
    var (newer, rest) := (order[..i], order[i..]);
    assert order == newer + rest;
    OnlyInAppend(newer, rest, stored);
    var read, k := OnlyIn(order, stored), |OnlyIn(newer, stored)|;
    assert read[k] == order[i];
    assert read[..Min(STOP_BOUNDARY, |read|)][k] == order[i];
  }

  lemma BoundaryIsSmall(order: seq<EpisodeId>, stored: set<EpisodeId>)
    ensures |Boundary(order, stored)| <= 50
  {
    var read := OnlyIn(order, stored);
    MembersSmall(read[..Min(STOP_BOUNDARY, |read|)]);
  }

  lemma {:induction false} MembersSmall(s: seq<EpisodeId>)
    ensures |Members(s)| <= |s|
  {
    if s != [] {
      MembersSmall(s[1..]);
      assert s == [s[0]] + s[1..];
      assert Members(s) == {s[0]} + Members(s[1..]);
    }
  }

  predicate Holds(page: seq<EpisodeId>, stop: set<EpisodeId>) {
    exists id | id in page :: id in stop
  }

  /** The first page from k on that holds a boundary id, or else the last page. */
  function StopFrom(listing: seq<EpisodeId>, stop: set<EpisodeId>, k: nat): (last: nat)
    ensures k <= last
    decreases |listing| - PAGE_SIZE * k
  {
    if Holds(Page(listing, k), stop) || !HasNext(listing, k) then k else StopFrom(listing, stop, k + 1)
  }

  lemma {:induction false} StopAtMost(listing: seq<EpisodeId>, stop: set<EpisodeId>, k: nat, k': nat)
    requires k <= k' && (Holds(Page(listing, k'), stop) || !HasNext(listing, k'))
    ensures StopFrom(listing, stop, k) <= k'
    decreases k' - k
  {
    if !(Holds(Page(listing, k), stop) || !HasNext(listing, k)) {
      StopAtMost(listing, stop, k + 1, k');
    }
  }

  // ---------- one walk over at most ten pages ----------

  /** How a walk ends: the process dies, the first page fails or is gone, or
      there is a result, with the page to revisit when it stopped early and
      the entries dropped since that page was fetched. */
  datatype WalkEnd =
    | Died(w: World)
    | NoAnswer(w: World)
    | Vanished(w: World)
    | Walked(w: World, episodes: seq<EpisodeId>, resume: Option<Href>, since: nat)

  function Observe(w: World, v: Visit): World {
    w.(listing := Shifted(w.listing, v.added, v.dropped),
       origin := w.origin - v.dropped,
       drift := w.drift + Lost(w.listing, v.dropped),
       stored := w.stored + v.others)
  }

  /** One listed page: what became of it, with the playable episodes found. */
  datatype PageEnd =
    | Dead(w: World)
    | Unanswered(w: World)
    | Partial(w: World, episodes: seq<EpisodeId>)
    | Enough(w: World, episodes: seq<EpisodeId>)
    | More(w: World, episodes: seq<EpisodeId>)

  function VisitPage(w: World, skip: set<EpisodeId>, stop: set<EpisodeId>, v: Visit, href: Href): PageEnd {
    var w1 := Observe(w, v);
    if v.answer != Listed then Unanswered(w1) else ReadPage(w1, skip, stop, v, href)
  }

  /** Nothing else happens before the request. */
  predicate Alone(v: Visit) { v.added == [] && v.dropped == {} && v.others == {} }

  lemma AloneVisit(w: World, skip: set<EpisodeId>, stop: set<EpisodeId>, v: Visit, href: Href)
    requires Alone(v)
    ensures Lost(w.listing, v.dropped) == 0
    ensures VisitPage(w, skip, stop, v, href)
         == if v.answer != Listed then Unanswered(w) else ReadPage(w, skip, stop, v, href)
  {
    WithoutNothing(w.listing);
    assert [] + w.listing == w.listing;
    assert Observe(w, v) == w;
  }

  function ReadPage(w: World, skip: set<EpisodeId>, stop: set<EpisodeId>, v: Visit, href: Href): PageEnd {
    var page := Page(w.listing, href);
    var wanted := Without(page, skip);
    var gone := Select(wanted, v.manifests, Gone);
    var playable := Select(wanted, v.manifests, Playable);
    var r := Recorded(v.lifetime, |gone|);
    var w' := w.(failed := w.failed + Members(gone[..r]));
    if r < |gone| then Dead(w')
    else if Select(wanted, v.manifests, Transient) != [] then Partial(w', playable)
    else if Holds(page, stop) || !HasNext(w.listing, href) then Enough(w', playable)
    else More(w', playable)
  }

  function WalkFrom(w: World, skip: set<EpisodeId>, stop: set<EpisodeId>, pages: seq<Visit>, p: nat,
                    href: Href, previous: Href, since: nat, episodes: seq<EpisodeId>): WalkEnd
    decreases |pages| - p
  {
    if p >= PAGES_PER_ROUND then Walked(w, episodes, Some(previous), since)
    else if p >= |pages| then Died(w)
    else
      var since' := since + Lost(w.listing, pages[p].dropped);
      match VisitPage(w, skip, stop, pages[p], href)
      case Dead(w') => Died(w')
      case Unanswered(w') =>
        if p > 0 then Walked(w', episodes, Some(previous), since')
        else if pages[p].answer == NotFound then Vanished(w')
        else NoAnswer(w')
      case Partial(w', found) => Walked(w', episodes + found, Some(previous), since')
      case Enough(w', found) => Walked(w', episodes + found, None, since')
      case More(w', found) => WalkFrom(w', skip, stop, pages, p + 1, href + 1, href, 0, episodes + found)
  }

  // ---------- one round, and every round ----------

  /** Saves the boundary before anything new is stored; false when the round
      ends before it gets that far. */
  function Begin(w: World, r: Round): (World, bool) {
    if w.progress.None? && r.metadataDue && !r.metadataOk then (w, false)
    else if r.death == BeforeBoundary then (w, false)
    else if w.progress.Some? then (w, true)
    else
      (w.(progress := Some(Progress(0, Boundary(r.newestFirst, w.stored))),
          origin := Members(w.listing), drift := 0), true)
  }

  function Finish(end: WalkEnd, p: Progress, r: Round): (World, Outcome) {
    match end
    case Died(w) => (w, Interrupted)
    case NoAnswer(w) => (w, Deferred)
    case Vanished(w) => (w.(progress := None), FellBack)
    case Walked(w, episodes, resume, since) =>
      if r.death == BeforeBatch then (w, Interrupted)
      else if episodes != [] && !r.writable then (w, Deferred)
      else
        var w1 := w.(stored := w.stored + Members(episodes));
        if r.death == BeforeCheckpoint then (w1, Interrupted)
        else if resume.Some? then (w1.(progress := Some(p.(cursor := resume.value)), drift := since), Deferred)
        else (w1.(progress := None), Completed)
  }

  function OneRound(w: World, r: Round): (World, Outcome) {
    var (w1, begun) := Begin(w, r);
    if !begun then (w1, Interrupted)
    else
      var p := w1.progress.value;
      Finish(WalkFrom(w1, w.stored + (w.failed * r.blocked), p.stop, r.pages, 0, p.cursor, p.cursor, w1.drift, []),
             p, r)
  }

  /** Rounds until the refresh is complete; true when it is. */
  function RefreshAll(w: World, rounds: seq<Round>): (World, bool)
    decreases |rounds|
  {
    if rounds == [] then (w, false)
    else
      var (w', outcome) := OneRound(w, rounds[0]);
      if outcome == Completed then (w', true) else RefreshAll(w', rounds[1..])
  }

  // ---------- what the outside may do ----------

  /** NRK only puts new episodes on top, drops at most a page's worth between
      fetching the checkpoint's page and revisiting it, and nothing between
      two pages of a round; the first page is never answered as gone. */
  ghost predicate TolerableWalk(w: World, skip: set<EpisodeId>, stop: set<EpisodeId>, pages: seq<Visit>, p: nat,
                                href: Href, since: nat)
    decreases |pages| - p
  {
    p < PAGES_PER_ROUND && p < |pages| ==>
      && (forall id | id in pages[p].added :: id !in w.listing)
      && (href == 0 || since + Lost(w.listing, pages[p].dropped) <= (if p == 0 then PAGE_SIZE else 0))
      && (p == 0 ==> pages[p].answer != NotFound)
      && var end := VisitPage(w, skip, stop, pages[p], href);
         (end.More? ==> TolerableWalk(end.w, skip, stop, pages, p + 1, href + 1, 0))
  }

  ghost predicate TolerableRound(w: World, r: Round) {
    var (w1, begun) := Begin(w, r);
    begun ==> TolerableWalk(w1, w.stored + (w.failed * r.blocked), w1.progress.value.stop, r.pages, 0,
                            w1.progress.value.cursor, w1.drift)
  }

  ghost predicate TolerableAll(w: World, rounds: seq<Round>)
    decreases |rounds|
  {
    rounds != [] ==>
      && TolerableRound(w, rounds[0])
      && var (w', outcome) := OneRound(w, rounds[0]);
         (outcome != Completed ==> TolerableAll(w', rounds[1..]))
  }

  // ---------- safety ----------

  /** The pages before the checkpoint are known, up to the drift. */
  ghost predicate Inv(w: World) {
    && w.origin <= Members(w.listing)
    && (w.progress.Some? && w.progress.value.cursor > 0 ==>
         PrefixKnown(w.listing, PAGE_SIZE * (w.progress.value.cursor + 1) - w.drift, w.origin, w.Known()))
  }

  /** In the middle of a walk, with the episodes found so far still in memory. */
  ghost predicate Walking(w: World, p: nat, href: Href, previous: Href, since: nat, found: seq<EpisodeId>) {
    && Inv(w)
    && href == (if p == 0 then previous else previous + 1)
    && (href > 0 ==> PrefixKnown(w.listing, PAGE_SIZE * href + (if p == 0 then PAGE_SIZE else 0) - since, w.origin,
                                 w.Known() + Members(found)))
  }

  /** Everything before and on the first page holding a boundary id, or
      everything when no page does, is stored or recorded as failed. */
  ghost predicate Refreshed(w: World, stop: set<EpisodeId>) {
    PrefixKnown(w.listing, PAGE_SIZE * (StopFrom(w.listing, stop, 0) + 1), w.origin, w.Known())
  }

  lemma MembersConcat(a: seq<EpisodeId>, b: seq<EpisodeId>)
    ensures Members(a + b) == Members(a) + Members(b)
  {}

  /** Reading a page only records failures, and a page that is done is known. */
  lemma ReadPageKnows(w: World, skip: set<EpisodeId>, stop: set<EpisodeId>, v: Visit, href: Href)
    ensures var end := ReadPage(w, skip, stop, v, href);
            && end.w == w.(failed := end.w.failed) && w.failed <= end.w.failed
            && (end.More? || end.Enough? ==>
                  forall id | id in Page(w.listing, href) ::
                    id in skip || id in end.w.failed || id in Members(end.episodes))
  {
    var page := Page(w.listing, href);
    var gone := Select(Without(page, skip), v.manifests, Gone);
    if ReadPage(w, skip, stop, v, href).More? || ReadPage(w, skip, stop, v, href).Enough? {
      assert gone[..|gone|] == gone;
      LookedUp(page, skip, v.manifests);
    }
  }

  /** What one listing request leaves, episode by episode. The page's wanted
      unplayable episodes are recorded, all of them unless the process dies;
      its wanted playable ones are found, even if others are transient, and
      nothing is stored yet. A transient one ends the walk short, a boundary
      episode or the end of the listing ends it for good. */
  lemma PageOutcome(w: World, skip: set<EpisodeId>, stop: set<EpisodeId>, v: Visit, href: Href, id: EpisodeId)
    ensures var page, end := Page(Shifted(w.listing, v.added, v.dropped), href), VisitPage(w, skip, stop, v, href);
            var gone := |Select(Without(page, skip), v.manifests, Gone)|;
            && end.w.listing == Shifted(w.listing, v.added, v.dropped) && end.w.stored == w.stored + v.others
            && end.w.progress == w.progress && (id in w.failed ==> id in end.w.failed)
            && if v.answer != Listed then end == Unanswered(end.w) && end.w.failed == w.failed
               else
                 && (end.Dead? <==> v.lifetime.Some? && v.lifetime.value < gone)
                 && (id in end.w.failed ==> id in w.failed || (id in page && id !in skip && v.manifests(id) == Gone))
                 && (!end.Dead? ==>
                       && (end.Partial? <==> exists x :: x in page && x !in skip && v.manifests(x) == Transient)
                       && (end.Enough? ==> (exists x :: x in page && x in stop) || !HasNext(end.w.listing, href))
                       && (end.More? ==> (forall x | x in page :: x !in stop) && HasNext(end.w.listing, href))
                       && !end.Unanswered?
                       && (id in end.episodes <==> id in page && id !in skip && v.manifests(id) == Playable)
                       && (id in page && id !in skip && v.manifests(id) == Gone ==> id in end.w.failed))
  {
    hide Select, Page, Without;
    var page := Page(Shifted(w.listing, v.added, v.dropped), href);
    var wanted := Without(page, skip);
    WithoutMembers(page, skip);
    assert forall x :: x in wanted <==> x in Members(wanted);
    assert forall x :: x in page <==> x in Members(page);
    var gone := Select(wanted, v.manifests, Gone);
    assert gone[..|gone|] == gone;
    SelectMembers(wanted, v.manifests, Playable);
    SelectMembers(wanted, v.manifests, Gone);
    SomeSelected(wanted, v.manifests, Transient);
  }

  lemma VisitKeeps(w: World, skip: set<EpisodeId>, stop: set<EpisodeId>, v: Visit, p: nat, href: Href, previous: Href,
                   since: nat, found: seq<EpisodeId>)
    requires Walking(w, p, href, previous, since, found) && skip <= w.Known()
    requires forall id | id in v.added :: id !in w.listing
    requires href == 0 || since + Lost(w.listing, v.dropped) <= (if p == 0 then PAGE_SIZE else 0)
    ensures var end := VisitPage(w, skip, stop, v, href);
            var since' := since + Lost(w.listing, v.dropped);
            && Inv(end.w) && end.w.progress == w.progress && w.Known() <= end.w.Known()
            && (previous > 0 ==> PrefixKnown(end.w.listing, PAGE_SIZE * (previous + 1) - since', end.w.origin,
                                             end.w.Known() + Members(found)))
            && (end.More? || end.Enough? ==>
                 PrefixKnown(end.w.listing, PAGE_SIZE * (href + 1), end.w.origin,
                             end.w.Known() + Members(found + end.episodes)))
  {
    var slack := if p == 0 then PAGE_SIZE else 0;
    var known := w.Known() + Members(found);
    ShiftKeeps(w.listing, PAGE_SIZE * href + slack - since, w.origin, known, v.added, v.dropped);
    if w.progress.Some? {
      ShiftKeeps(w.listing, PAGE_SIZE * (w.progress.value.cursor + 1) - w.drift, w.origin, w.Known(),
                 v.added, v.dropped);
    }
    hide ReadPage, Page;
    var w1 := Observe(w, v);
    ReadPageKnows(w1, skip, stop, v, href);
    var end := VisitPage(w, skip, stop, v, href);
    if end.More? || end.Enough? {
      MembersConcat(found, end.episodes);
      PageExtends(w1.listing, href, w1.origin, end.w.Known() + Members(found + end.episodes));
    }
  }

  /** What a finished walk leaves behind: the checkpoint it proposes is safe
      once the found episodes are stored, and without one the refresh is done. */
  ghost predicate WalkSafe(end: WalkEnd, progress: Option<Progress>, stop: set<EpisodeId>) {
    && Inv(end.w) && end.w.progress == progress
    && (end.Walked? ==>
         var known := end.w.Known() + Members(end.episodes);
         if end.resume.Some? then
           end.resume.value > 0 ==>
             PrefixKnown(end.w.listing, PAGE_SIZE * (end.resume.value + 1) - end.since, end.w.origin, known)
         else
           PrefixKnown(end.w.listing, PAGE_SIZE * (StopFrom(end.w.listing, stop, 0) + 1), end.w.origin, known))
  }

  lemma {:induction false} WalkKeeps(w: World, skip: set<EpisodeId>, stop: set<EpisodeId>, pages: seq<Visit>, p: nat,
                                     href: Href, previous: Href, since: nat, found: seq<EpisodeId>)
    requires Walking(w, p, href, previous, since, found) && skip <= w.Known()
    requires TolerableWalk(w, skip, stop, pages, p, href, since)
    ensures var end := WalkFrom(w, skip, stop, pages, p, href, previous, since, found);
            WalkSafe(end, w.progress, stop) && !end.Vanished?
    decreases |pages| - p
  {
    hide VisitPage;
    if p < PAGES_PER_ROUND && p < |pages| {
      VisitKeeps(w, skip, stop, pages[p], p, href, previous, since, found);
      var end := VisitPage(w, skip, stop, pages[p], href);
      if end.Enough? {
        EnoughIsEnough(w, skip, stop, pages[p], href);
      }
      if end.More? {
        WalkKeeps(end.w, skip, stop, pages, p + 1, href + 1, href, 0, found + end.episodes);
      }
    }
  }

  lemma EnoughIsEnough(w: World, skip: set<EpisodeId>, stop: set<EpisodeId>, v: Visit, href: Href)
    ensures var end := VisitPage(w, skip, stop, v, href);
            end.Enough? ==> StopFrom(end.w.listing, stop, 0) <= href
  {
    var end := VisitPage(w, skip, stop, v, href);
    if end.Enough? {
      StopAtMost(end.w.listing, stop, 0, href);
    }
  }

  lemma RoundKeeps(w: World, r: Round)
    requires Inv(w) && w.progress.Some? && TolerableRound(w, r)
    ensures var (w', outcome) := OneRound(w, r);
            && Inv(w')
            && outcome != FellBack
            && (outcome == Completed ==> w'.progress.None? && Refreshed(w', w.progress.value.stop))
            && (outcome != Completed ==> w'.progress.Some? && w'.progress.value.stop == w.progress.value.stop)
  {
    hide WalkFrom;
    var (w1, begun) := Begin(w, r);
    if begun {
      var p, skip := w.progress.value, w.stored + (w.failed * r.blocked);
      WalkKeeps(w, skip, p.stop, r.pages, 0, p.cursor, p.cursor, w.drift, []);
      var end := WalkFrom(w, skip, p.stop, r.pages, 0, p.cursor, p.cursor, w.drift, []);
      if end.Walked? {
        var w2 := end.w.(stored := end.w.stored + Members(end.episodes));
        assert w2.Known() == end.w.Known() + Members(end.episodes);
      }
    }
  }

  lemma {:induction false} RefreshAllKeeps(w: World, rounds: seq<Round>)
    requires Inv(w) && w.progress.Some? && TolerableAll(w, rounds)
    ensures var (z, done) := RefreshAll(w, rounds);
            && Inv(z)
            && (done ==> Refreshed(z, w.progress.value.stop))
            && (!done ==> z.progress.Some? && z.progress.value.stop == w.progress.value.stop)
    decreases |rounds|
  {
    hide OneRound;
    if rounds != [] {
      RoundKeeps(w, rounds[0]);
      var (w', outcome) := OneRound(w, rounds[0]);
      if outcome != Completed {
        RefreshAllKeeps(w', rounds[1..]);
      }
    }
  }

  /** The first progress of a refresh has just been saved. */
  ghost predicate JustSaved(w: World, r: Round, w1: World) {
    && w.progress.None? && Begin(w, r) == (w1, true)
  }

  /** A round before the first saved progress changes nothing at all, and the
      round that saves it goes on exactly as a later round would from there,
      with a boundary of episodes stored before the batch. */
  lemma FirstSave(w: World, r: Round)
    requires w.progress.None?
    ensures var (w1, begun) := Begin(w, r);
            if begun then
              && OneRound(w, r) == OneRound(w1, r)
              && w1.progress.value.stop <= w.stored
              && Inv(w1) && w1.origin == Members(w.listing) && w1.stored == w.stored
            else OneRound(w, r) == (w, Interrupted)
  {
    BoundaryIsStored(r.newestFirst, w.stored);
  }

  /** Over any rounds from the first saved progress to completion, with failed
      pages, transient manifests, failed writes, early stops and restarts
      anywhere: the refresh is complete only when every episode listed at the
      first save and still listed, up to the end of the first page that holds
      a boundary id, is stored or recorded as failed. The boundary stays the
      one frozen at the first save, so no newly stored episode ever acts as it. */
  lemma NothingSkipped(w: World, first: Round, w1: World, rounds: seq<Round>)
    requires JustSaved(w, first, w1) && TolerableAll(w1, rounds)
    ensures var stop := Boundary(first.newestFirst, w.stored);
            var (z, done) := RefreshAll(w1, rounds);
            && stop <= w.stored
            && (!done ==> z.progress.Some? && z.progress.value.stop == stop)
            && (done ==> forall k: nat, id |
                  k <= StopFrom(z.listing, stop, 0) && id in Page(z.listing, k) && id in z.origin ::
                  id in z.stored || id in z.failed)
  {
    hide OneRound, RefreshAll, Page, StopFrom;
    FirstSave(w, first);
    RefreshAllKeeps(w1, rounds);
    var stop := Boundary(first.newestFirst, w.stored);
    var (z, done) := RefreshAll(w1, rounds);
    if done { PagesKnown(z.listing, StopFrom(z.listing, stop, 0), z.origin, z.Known()); }
  }

  // ---------- progress ----------

  predicate Clean(v: Visit, listing: seq<EpisodeId>) {
    && v.added == [] && v.dropped == {} && v.answer == Listed && v.lifetime.None?
    && forall id | id in listing :: v.manifests(id) != Transient
  }

  ghost predicate CleanRound(r: Round, listing: seq<EpisodeId>) {
    && r.writable && r.death == Never
    && |r.pages| >= PAGES_PER_ROUND && forall i | 0 <= i < |r.pages| :: Clean(r.pages[i], listing)
  }

  lemma CleanVisit(w: World, skip: set<EpisodeId>, stop: set<EpisodeId>, v: Visit, href: Href)
    requires Clean(v, w.listing)
    ensures var end := VisitPage(w, skip, stop, v, href);
            && (if Holds(Page(w.listing, href), stop) || !HasNext(w.listing, href) then end.Enough? else end.More?)
            && end.w.listing == w.listing && end.w.progress == w.progress
  {
    WithoutNothing(w.listing);
    assert [] + w.listing == w.listing;
    NoTransients(Page(w.listing, href), skip, v.manifests);
  }

  /** An undisturbed walk goes on until the stop page or the tenth page. */
  lemma {:induction false} CleanWalk(w: World, skip: set<EpisodeId>, stop: set<EpisodeId>, pages: seq<Visit>, p: nat,
                                     href: Href, previous: Href, since: nat, found: seq<EpisodeId>)
    requires |pages| >= PAGES_PER_ROUND && forall i | 0 <= i < |pages| :: Clean(pages[i], w.listing)
    requires p <= PAGES_PER_ROUND && href == (if p == 0 then previous else previous + 1)
    ensures var end := WalkFrom(w, skip, stop, pages, p, href, previous, since, found);
            var last := href + (PAGES_PER_ROUND - 1 - p);
            && end.Walked? && end.w.listing == w.listing && end.w.progress == w.progress
            && end.resume == if p < PAGES_PER_ROUND && StopFrom(w.listing, stop, href) <= last then None else Some(last)
    decreases PAGES_PER_ROUND - p
  {
    hide VisitPage;
    if p < PAGES_PER_ROUND {
      CleanVisit(w, skip, stop, pages[p], href);
      var end := VisitPage(w, skip, stop, pages[p], href);
      if end.More? {
        CleanWalk(end.w, skip, stop, pages, p + 1, href + 1, href, 0, found + end.episodes);
      }
    }
  }

  lemma {:induction false} CleanRounds(w: World, rounds: seq<Round>)
    requires w.progress.Some? && rounds != []
    requires forall i | 0 <= i < |rounds| :: CleanRound(rounds[i], w.listing)
    ensures var p := w.progress.value;
            var (z, done) := RefreshAll(w, rounds);
            var reached := p.cursor + 9 * |rounds|;
            && (done <==> StopFrom(w.listing, p.stop, p.cursor) <= reached)
            && (!done ==> z.progress == Some(p.(cursor := reached)))
    decreases |rounds|
  {
    hide WalkFrom, StopFrom;
    var r, p := rounds[0], w.progress.value;
    CleanWalk(w, w.stored + (w.failed * r.blocked), p.stop, r.pages, 0, p.cursor, p.cursor, w.drift, []);
    var (w', outcome) := OneRound(w, r);
    if outcome != Completed {
      StopAfter(w.listing, p.stop, p.cursor, p.cursor + 9);
      if |rounds| > 1 {
        CleanRounds(w', rounds[1..]);
      }
    }
  }

  /** Starting later, but not past the stop page, finds the same stop page. */
  lemma {:induction false} StopAfter(listing: seq<EpisodeId>, stop: set<EpisodeId>, k: nat, k': nat)
    requires k <= k' <= StopFrom(listing, stop, k)
    ensures StopFrom(listing, stop, k') == StopFrom(listing, stop, k)
    decreases k' - k
  {
    if k < k' { StopAfter(listing, stop, k + 1, k'); }
  }

  /** Undisturbed, a refresh whose stop page has index b is complete after
      exactly max(1, ceil(b / 9)) rounds: ten pages each, one of them overlap. */
  lemma ExactNumberOfRounds(w: World, first: Round, w1: World, rounds: seq<Round>)
    requires JustSaved(w, first, w1)
    requires forall i | 0 <= i < |rounds| :: CleanRound(rounds[i], w.listing)
    ensures var b := StopFrom(w.listing, Boundary(first.newestFirst, w.stored), 0);
            RefreshAll(w1, rounds).1 <==> rounds != [] && b <= 9 * |rounds|
  {
    if rounds != [] { CleanRounds(w1, rounds); }
  }

  // ---------- the refresh itself ----------

  datatype FetchedEpisodes = FetchedEpisodes(episodes: seq<EpisodeId>, resume: Option<Href>)

  datatype FetchEnd = ProcessDied | FirstPageFailed | FirstPageGone | Fetched(result: FetchedEpisodes)

  /** NRK's listing with one feed's rows, updated in place. */
  class Refresher {
    var listing: seq<EpisodeId>
    ghost var origin: set<EpisodeId>
    ghost var drift: nat
    var stored: set<EpisodeId>
    var failed: set<EpisodeId>
    var progress: Option<Progress>

    ghost function View(): World
      reads this
    {
      World(listing, origin, drift, stored, failed, progress)
    }

    constructor (listed: seq<EpisodeId>, saved: set<EpisodeId>)
      ensures View() == World(listed, Members(listed), 0, saved, {}, None)
    {
      listing, origin, drift := listed, Members(listed), 0;
      stored, failed, progress := saved, {}, None;
    }

    /** Not the refresh's doing: NRK and the other writers move on. */
    method WorldMoves(v: Visit)
      modifies this
      ensures View() == Observe(old(View()), v)
    {
      var kept := FilterSkipped(listing, v.dropped);
      drift := drift + Lost(listing, v.dropped);
      origin := origin - v.dropped;
      listing := v.added + kept;
      stored := stored + v.others;
    }

    method SawKnown(page: seq<EpisodeId>, stop: set<EpisodeId>) returns (known: bool)
      ensures known <==> Holds(page, stop)
    {
      for i := 0 to |page|
        invariant forall j | 0 <= j < i :: page[j] !in stop
      {
        if page[i] in stop {
          return true;
        }
      }
      return false;
    }

    method Resolve(skip: set<EpisodeId>, stop: set<EpisodeId>, v: Visit, href: Href)
      returns (kind: PageKind, found: seq<EpisodeId>)
      modifies this`failed
      ensures PageResult(kind, View(), found) == ReadPage(old(View()), skip, stop, v, href)
    {
      hide Page, HasNext, StopFrom;
      var page := Page(listing, href);
      var wanted := FilterSkipped(page, skip);
      var playable, gone, transient := Collect(wanted, v.manifests);
      var alive;
      failed, alive := RecordFailures(gone, failed, v.lifetime);
      if !alive {
        return Crashed, [];
      }
      if transient > 0 {
        return Hiccup, playable;
      }
      var sawKnown := SawKnown(page, stop);
      return if sawKnown || !HasNext(listing, href) then Final else Onward, playable;
    }

    method OnePage(skip: set<EpisodeId>, stop: set<EpisodeId>, v: Visit, href: Href)
      returns (kind: PageKind, found: seq<EpisodeId>)
      modifies this
      ensures PageResult(kind, View(), found) == VisitPage(old(View()), skip, stop, v, href)
    {
      hide ReadPage;
      WorldMoves(v);
      if v.answer != Listed {
        return NoListing, [];
      }
      kind, found := Resolve(skip, stop, v, href);
    }

    /** Page after page, at most ten, to one that holds a boundary id. */
    method GetNewEpisodes(skip: set<EpisodeId>, stop: set<EpisodeId>, start: Href, pages: seq<Visit>)
      returns (end: FetchEnd, ghost since: nat)
      modifies this
      ensures WalkResult(end, View(), since)
           == WalkFrom(old(View()), skip, stop, pages, 0, start, start, old(drift), [])
    {
      hide VisitPage, WalkFrom;
      var episodes: seq<EpisodeId> := [];
      var href, previous, p := start, start, 0;
      since := drift;
      ghost var w0 := View();
      while p < PAGES_PER_ROUND
        invariant p <= PAGES_PER_ROUND
        invariant WalkFrom(w0, skip, stop, pages, 0, start, start, w0.drift, [])
               == WalkFrom(View(), skip, stop, pages, p, href, previous, since, episodes)
      {
        ghost var before, since0 := View(), since;
        if p >= |pages| {
          WalkEnds(before, skip, stop, pages, p, href, previous, since, episodes);
          return ProcessDied, since;
        }
        var kind, found := OnePage(skip, stop, pages[p], href);
        Unroll(before, skip, stop, pages, p, href, previous, since, episodes, PageResult(kind, View(), found));
        since := since + Lost(before.listing, pages[p].dropped);
        match kind
        case Crashed => return ProcessDied, since;
        case NoListing =>
          if p > 0 {
            return Fetched(FetchedEpisodes(episodes, Some(previous))), since;
          }
          return if pages[p].answer == NotFound then FirstPageGone else FirstPageFailed, since;
        case Hiccup => return Fetched(FetchedEpisodes(episodes + found, Some(previous))), since;
        case Final => return Fetched(FetchedEpisodes(episodes + found, None)), since;
        case Onward =>
          episodes, previous, href, p := episodes + found, href, href + 1, p + 1;
          since := 0;
      }
      WalkEnds(View(), skip, stop, pages, p, href, previous, since, episodes);
      return Fetched(FetchedEpisodes(episodes, Some(previous))), since;
    }

    method ReadNewest(order: seq<EpisodeId>) returns (stop: set<EpisodeId>)
      ensures stop == Boundary(order, stored)
    {
      hide OnlyIn;
      var read := OnlyIn(order, stored);
      stop := {};
      var i := 0;
      while i < |read| && i < STOP_BOUNDARY
        invariant i <= |read| && i <= STOP_BOUNDARY
        invariant stop == Members(read[..i])
      {
        assert read[..i + 1] == read[..i] + [read[i]];
        MembersConcat(read[..i], [read[i]]);
        stop := stop + {read[i]};
        i := i + 1;
      }
    }

    /** One round of the refresh: the database ends up exactly where the
        outside events take it. */
    method UpdateFetch(r: Round) returns (outcome: Outcome)
      modifies this
      ensures (View(), outcome) == OneRound(old(View()), r)
      ensures old(Inv(View()) && progress.Some? && TolerableRound(View(), r)) ==> Inv(View())
    {
      hide WalkFrom, Inv, TolerableRound;
      ghost var start := View();
      if Inv(start) && progress.Some? && TolerableRound(start, r) { RoundKeeps(start, r); }
      if progress.None? && r.metadataDue && !r.metadataOk {
        return Interrupted;
      }
      if r.death == BeforeBoundary {
        return Interrupted;
      }
      var skip := stored + (failed * r.blocked);
      if progress.None? {
        var stop := ReadNewest(r.newestFirst);
        progress := Some(Progress(0, stop));
        origin, drift := Members(listing), 0;
      }
      var saved := progress.value;
      var end, since := GetNewEpisodes(skip, saved.stop, saved.cursor, r.pages);
      match end
      case ProcessDied => return Interrupted;
      case FirstPageFailed => return Deferred;
      case FirstPageGone =>
        progress := None;
        return FellBack;
      case Fetched(result) =>
        if r.death == BeforeBatch {
          return Interrupted;
        }
        if |result.episodes| > 0 && !r.writable {
          return Deferred;
        }
        stored := stored + Members(result.episodes);
        if r.death == BeforeCheckpoint {
          return Interrupted;
        }
        if result.resume.Some? {
          progress := Some(saved.(cursor := result.resume.value));
          drift := since;
          return Deferred;
        }
        progress := None;
        return Completed;
    }
  }

  datatype PageKind = Crashed | NoListing | Hiccup | Final | Onward

  function PageResult(kind: PageKind, w: World, found: seq<EpisodeId>): PageEnd {
    match kind
    case Crashed => Dead(w)
    case NoListing => Unanswered(w)
    case Hiccup => Partial(w, found)
    case Final => Enough(w, found)
    case Onward => More(w, found)
  }

  function WalkResult(end: FetchEnd, w: World, since: nat): WalkEnd {
    match end
    case ProcessDied => Died(w)
    case FirstPageFailed => NoAnswer(w)
    case FirstPageGone => Vanished(w)
    case Fetched(result) => Walked(w, result.episodes, result.resume, since)
  }

  lemma Unroll(w: World, skip: set<EpisodeId>, stop: set<EpisodeId>, pages: seq<Visit>, p: nat,
               href: Href, previous: Href, since: nat, episodes: seq<EpisodeId>, page: PageEnd)
    requires p < PAGES_PER_ROUND && p < |pages| && VisitPage(w, skip, stop, pages[p], href) == page
    ensures var since' := since + Lost(w.listing, pages[p].dropped);
            WalkFrom(w, skip, stop, pages, p, href, previous, since, episodes) ==
              match page
              case Dead(w') => Died(w')
              case Unanswered(w') =>
                if p > 0 then Walked(w', episodes, Some(previous), since')
                else if pages[p].answer == NotFound then Vanished(w')
                else NoAnswer(w')
              case Partial(w', found) => Walked(w', episodes + found, Some(previous), since')
              case Enough(w', found) => Walked(w', episodes + found, None, since')
              case More(w', found) =>
                WalkFrom(w', skip, stop, pages, p + 1, href + 1, href, 0, episodes + found)
  {}

  lemma WalkEnds(w: World, skip: set<EpisodeId>, stop: set<EpisodeId>, pages: seq<Visit>, p: nat,
                 href: Href, previous: Href, since: nat, episodes: seq<EpisodeId>)
    requires p >= PAGES_PER_ROUND || p >= |pages|
    ensures WalkFrom(w, skip, stop, pages, p, href, previous, since, episodes)
         == if p >= PAGES_PER_ROUND then Walked(w, episodes, Some(previous), since) else Died(w)
  {}
}
