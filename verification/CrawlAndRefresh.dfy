/** The archive crawl and the refreshes of one feed, page by page in any
    interleaving (internal/crawl/backlog.go and updateFetch in
    internal/feed/refresh.go): they share only the stored and the failed
    episodes, and together they leave no gap. */
module CrawlAndRefresh {
  import opened Wrappers
  import opened Listing
  import opened Names
  import opened EpisodeLookups
  import opened RefreshRepeated
  import ArchiveCrawl
  import Refresh

  type Href = nat

  /** How far the refresh goroutine of the feed has come. */
  datatype Round =
    | Idle
    | Opened(stop: set<EpisodeId>, skip: set<EpisodeId>)   // the stored episodes are read
    | Reading(skip: set<EpisodeId>, p: nat, href: Href, found: seq<EpisodeId>)
    | Storing(found: seq<EpisodeId>, resume: Option<Href>, since: nat)
    | Saving(resume: Option<Href>, since: nat)

  /** NRK's listing, the feed's rows, and the goroutines working on it. `at` is
      the page a running crawl visits next; held and drift count the entries
      dropped while the checkpoint of the crawl, or of the refresh, waits. The
      last two only serve the statements: what was listed when the refresh
      under way first saved, and when the last complete one did, each without
      the entries dropped since. */
  datatype World = World(
    listing: seq<EpisodeId>, stored: set<EpisodeId>, failed: set<EpisodeId>,
    cursor: Option<Href>, complete: bool, held: nat, at: Option<Href>,
    progress: Option<Refresh.Progress>, drift: nat, round: Round,
    origin: set<EpisodeId>, whole: set<EpisodeId>)
  {
    function Known(): set<EpisodeId> { stored + failed }

    function ForCrawl(): ArchiveCrawl.World {
      ArchiveCrawl.World(listing, {}, held, stored, failed, cursor, complete)
    }

    function ForRefresh(): Refresh.World {
      Refresh.World(listing, origin, drift, stored, failed, progress)
    }

    function StartHref(): Href { ArchiveCrawl.StartHref(ForCrawl()) }
  }

  datatype Step =
    | Moves(added: seq<EpisodeId>, dropped: set<EpisodeId>)
    | CrawlStarts
    | CrawlVisits(visit: ArchiveCrawl.Visit)
    | CrawlStops
    | RefreshOpens(newestFirst: seq<EpisodeId>, blocked: set<EpisodeId>)
    | RefreshBegins
    | RefreshReads(page: Refresh.Visit)
    | RefreshStores(writable: bool)
    | RefreshSaves
    | RefreshStops

  // ---------- the steps ----------

  function Move(w: World, added: seq<EpisodeId>, dropped: set<EpisodeId>): World {
    var lost := Lost(w.listing, dropped);
    w.(listing := Shifted(w.listing, added, dropped), origin := w.origin - dropped, whole := w.whole - dropped,
       held := w.held + lost, drift := w.drift + lost,
       round := match w.round
                case Storing(found, resume, since) => Storing(found, resume, since + lost)
                case Saving(resume, since) => Saving(resume, since + lost)
                case other => other)
  }

  function Visited(w: World, v: ArchiveCrawl.Visit): World {
    if w.at.None? then w
    else
      var (c, step) := ArchiveCrawl.VisitPage(w.ForCrawl(), w.at.value, v);
      w.(stored := c.stored, failed := c.failed, cursor := c.cursor, complete := c.complete, held := c.drift,
         at := if step.Advance? then Some(step.href) else None)
  }

  /** The boundary is saved before anything else, unless there is one. */
  function Begun(w: World): World {
    if !w.round.Opened? then w
    else if w.progress.Some? then w.(round := Reading(w.round.skip, 0, w.progress.value.cursor, []))
    else w.(progress := Some(Refresh.Progress(0, w.round.stop)), origin := Members(w.listing), drift := 0,
            round := Reading(w.round.skip, 0, 0, []))
  }

  /** The page a round resumes from when its p-th page, at href, is not done. */
  function Previous(p: nat, href: Href): Href { if p == 0 || href == 0 then href else href - 1 }

  function Read(w: World, v: Refresh.Visit): World {
    if !w.round.Reading? || w.progress.None? then w
    else
      var Reading(skip, p, href, found) := w.round;
      var previous, since := Previous(p, href), if p == 0 then w.drift else 0;
      if v.answer != Refresh.Listed then
        if p > 0 then w.(round := Storing(found, Some(previous), since))
        else if v.answer == Refresh.NotFound then w.(progress := None, round := Idle)
        else w.(round := Idle)
      else
        var end := Refresh.ReadPage(w.ForRefresh(), skip, w.progress.value.stop, v, href);
        w.(failed := end.w.failed,
           round := match end
                    case Dead(_) => Idle
                    case Unanswered(_) => Idle
                    case Partial(_, more) => Storing(found + more, Some(previous), since)
                    case Enough(_, more) => Storing(found + more, None, 0)
                    case More(_, more) =>
                      if p + 1 == Refresh.PAGES_PER_ROUND then Storing(found + more, Some(href), 0)
                      else Reading(skip, p + 1, href + 1, found + more))
  }

  function Stored(w: World, writable: bool): World {
    if !w.round.Storing? then w
    else if w.round.found != [] && !writable then w.(round := Idle)
    else w.(stored := w.stored + Members(w.round.found), round := Saving(w.round.resume, w.round.since))
  }

  function Saved(w: World): World {
    if !w.round.Saving? || w.progress.None? then w
    else if w.round.resume.Some? then
      w.(progress := Some(w.progress.value.(cursor := w.round.resume.value)), drift := w.round.since, round := Idle)
    else w.(progress := None, whole := w.origin, round := Idle)
  }

  /** One atomic step; a step its goroutine is not ready for changes nothing. */
  function Next(w: World, step: Step): World {
    match step
    case Moves(added, dropped) => Move(w, added, dropped)
    case CrawlStarts => if w.complete || w.at.Some? then w else w.(at := Some(w.StartHref()))
    case CrawlVisits(v) => Visited(w, v)
    case CrawlStops => w.(at := None)
    case RefreshOpens(newestFirst, blocked) =>
      if !w.round.Idle? then w
      else w.(round := Opened(Refresh.Boundary(newestFirst, w.stored), w.stored + (w.failed * blocked)))
    case RefreshBegins => Begun(w)
    case RefreshReads(v) => Read(w, v)
    case RefreshStores(writable) => Stored(w, writable)
    case RefreshSaves => Saved(w)
    case RefreshStops => w.(round := Idle)
  }

  function NextAll(w: World, steps: seq<Step>): World
    decreases |steps|
  {
    if steps == [] then w else NextAll(Next(w, steps[0]), steps[1..])
  }

  // ---------- what the outside may do ----------

  /** Which entries the waiting or running crawl lets go: any while it has not
      passed the first page or is complete, SPARE while its checkpoint waits. */
  ghost predicate CrawlAllows(w: World, lost: nat) {
    if w.complete then true
    else if w.at.Some? && w.at.value > w.StartHref() then lost == 0
    else w.StartHref() > 0 ==> w.held + lost <= SPARE
  }

  /** The same for the refresh. */
  ghost predicate RefreshAllows(w: World, lost: nat) {
    && (w.progress.Some? && w.progress.value.cursor > 0 ==> w.drift + lost <= SPARE)
    && match w.round
       case Reading(_, p, _, _) => p > 0 ==> lost == 0
       case Storing(_, resume, since) => resume.Some? && resume.value > 0 ==> since + lost <= SPARE
       case Saving(resume, since) => resume.Some? && resume.value > 0 ==> since + lost <= SPARE
       case _ => true
  }

  function Found(w: World): set<EpisodeId> {
    match w.round
    case Reading(_, _, _, found) => Members(found)
    case Storing(found, _, _) => Members(found)
    case _ => {}
  }

  /** NRK lists only new episodes, and drops only what both allow; the listing
      does not vanish. Moves are steps of their own. */
  ghost predicate Gentle(w: World, step: Step) {
    match step
    case Moves(added, dropped) =>
      && Distinct(added)
      && (forall id | id in added :: id !in w.listing && id !in w.stored && id !in Found(w))
      && CrawlAllows(w, Lost(w.listing, dropped)) && RefreshAllows(w, Lost(w.listing, dropped))
    case CrawlVisits(v) => ArchiveCrawl.Still(v) && v.others == {}
    case RefreshReads(v) => w.round.Reading? && w.round.p == 0 ==> v.answer != Refresh.NotFound
    case _ => true
  }

  ghost predicate GentleAll(w: World, steps: seq<Step>)
    decreases |steps|
  {
    steps != [] ==> Gentle(w, steps[0]) && GentleAll(Next(w, steps[0]), steps[1..])
  }

  // ---------- how far each has come ----------

  function Least(a: int, b: int): int { if a < b then a else b }

  /** What a waiting checkpoint still vouches for. */
  function Waiting(cursor: Href, drift: nat): int { if cursor == 0 then 0 else PAGE_SIZE * cursor + 1 - drift }

  /** Everything from here on is left to the crawl. */
  function Crawled(w: World): int {
    if w.complete then |w.listing|
    else if w.at.Some? && w.at.value > w.StartHref() then PAGE_SIZE * w.at.value
    else Waiting(w.StartHref(), w.held)
  }

  function ReadTo(w: World, cursor: Href, p: nat, href: Href): int {
    if p == 0 then Waiting(cursor, w.drift) else PAGE_SIZE * href
  }

  /** Down to where the crawl is, nothing unknown is listed below one of these. */
  ghost predicate Clear(w: World, n: int, some: set<EpisodeId>, known: set<EpisodeId>) {
    Below(w.listing, Least(Crawled(w), n), some, known)
  }

  /** A refresh has read the first n entries, with these found but not stored yet. */
  ghost predicate Upto(w: World, n: int, found: set<EpisodeId>) {
    Clear(w, n, w.stored + found, w.Known() + found) && PrefixKnown(w.listing, n, w.origin, w.Known() + found)
  }

  /** Where a round will resume, or else that it leaves only the crawl's part. */
  ghost predicate Resumes(w: World, resume: Option<Href>, since: nat, found: set<EpisodeId>) {
    match resume
    case None => Upto(w, Crawled(w), found)
    case Some(href) => (href > 0 ==> since <= SPARE) && Upto(w, Waiting(href, since), found)
  }

  ghost predicate RoundOk(w: World, cursor: Href) {
    match w.round
    case Reading(skip, p, href, found) =>
      && skip <= w.Known() && (if p == 0 then href == cursor && found == [] else href > cursor)
      && Upto(w, ReadTo(w, cursor, p, href), Members(found))
    case Storing(found, resume, since) =>
      Upto(w, Waiting(cursor, w.drift), Members(found)) && Resumes(w, resume, since, Members(found))
    case Saving(resume, since) => Resumes(w, resume, since, {})
    case Opened(stop, skip) => skip <= w.Known()
    case Idle => true
  }

  ghost predicate CrawlOk(w: World) {
    && (w.complete ==> w.at.None?)
    && (!w.complete && w.StartHref() > 0 ==> w.held <= SPARE)
    && (w.at.Some? ==> w.StartHref() <= w.at.value)
  }

  ghost predicate RefreshOk(w: World) {
    match w.progress
    case None =>
      && (w.round.Idle? || (w.round.Opened? && w.round.stop <= w.stored && w.round.skip <= w.Known()))
      && Clear(w, |w.listing|, w.stored, w.Known())
    case Some(p) =>
      && (p.cursor > 0 ==> w.drift <= SPARE)
      && p.stop <= w.stored && Clear(w, |w.listing|, p.stop, w.Known())
      && Upto(w, Waiting(p.cursor, w.drift), {})
      && RoundOk(w, p.cursor)
  }

  ghost predicate Inv(w: World) {
    && Distinct(w.listing) && w.origin <= Members(w.listing) && w.whole <= Members(w.listing)
    && CrawlOk(w) && RefreshOk(w)
    && PrefixKnown(w.listing, Crawled(w), w.whole, w.Known())
  }

  // ---------- the listing moves ----------

  lemma MovedClear(w: World, w': World, n: int, n': int, some: set<EpisodeId>, known: set<EpisodeId>,
                   added: seq<EpisodeId>, dropped: set<EpisodeId>)
    requires Clear(w, n, some, known) && (forall id | id in added :: id !in some)
    requires w'.listing == Shifted(w.listing, added, dropped)
    requires n' <= 0 || n' <= n - Lost(w.listing, dropped) + |added|
    requires Crawled(w') <= 0 || Crawled(w') <= Crawled(w) - Lost(w.listing, dropped) + |added|
    ensures Clear(w', n', some, known)
  {
    var m := Least(Crawled(w), n);
    ShiftKeepsBelow(w.listing, m, some, known, added, dropped);
  }

  lemma MovedPrefix(l: seq<EpisodeId>, n: int, n': int, origin: set<EpisodeId>, known: set<EpisodeId>,
                    added: seq<EpisodeId>, dropped: set<EpisodeId>)
    requires origin <= Members(l) && PrefixKnown(l, n, origin, known) && forall id | id in added :: id !in l
    requires n' <= 0 || n' <= n - Lost(l, dropped) || |l| <= n
    ensures PrefixKnown(Shifted(l, added, dropped), n', origin - dropped, known)
  {
    ShiftKeeps(l, n, origin, known, added, dropped);
    if |l| <= n { ShiftKeeps(l, n' + Lost(l, dropped), origin, known, added, dropped); }
  }

  lemma MovedUpto(w: World, w': World, n: int, n': int, found: set<EpisodeId>, added: seq<EpisodeId>,
                  dropped: set<EpisodeId>)
    requires Upto(w, n, found) && w.origin <= Members(w.listing)
    requires forall id | id in added :: id !in w.listing && id !in w.stored && id !in found
    requires w' == Move(w, added, dropped)
    requires n' <= 0 || n' <= n - Lost(w.listing, dropped)
          || (|w.listing| <= n && n' <= n - Lost(w.listing, dropped) + |added|)
    requires Crawled(w') <= 0 || Crawled(w') <= Crawled(w) - Lost(w.listing, dropped) + |added|
    ensures Upto(w', n', found)
  {
    hide Below, PrefixKnown;
    MovedClear(w, w', n, n', w.stored + found, w.Known() + found, added, dropped);
    MovedPrefix(w.listing, n, n', w.origin, w.Known() + found, added, dropped);
  }

  /** What a shift costs the crawl. */
  lemma MovedCrawl(w: World, added: seq<EpisodeId>, dropped: set<EpisodeId>)
    requires CrawlOk(w) && CrawlAllows(w, Lost(w.listing, dropped))
    ensures var w' := Move(w, added, dropped);
            && CrawlOk(w')
            && (|| Crawled(w') <= 0 || Crawled(w') <= Crawled(w) - Lost(w.listing, dropped)
                || (w.complete && Crawled(w) == |w.listing|
                    && Crawled(w') == |w.listing| - Lost(w.listing, dropped) + |added|))
  {}

  lemma MovedRound(w: World, cursor: Href, added: seq<EpisodeId>, dropped: set<EpisodeId>)
    requires Inv(w) && Gentle(w, Moves(added, dropped)) && w.progress.Some? && w.progress.value.cursor == cursor
    ensures RoundOk(Move(w, added, dropped), cursor)
  {
    hide Upto, Clear, PrefixKnown;
    var w', lost := Move(w, added, dropped), Lost(w.listing, dropped);
    MovedCrawl(w, added, dropped);
    match w.round
    case Reading(skip, p, href, found) =>
      MovedUpto(w, w', ReadTo(w, cursor, p, href), ReadTo(w', cursor, p, href), Members(found), added, dropped);
    case Storing(found, resume, since) =>
      MovedUpto(w, w', Waiting(cursor, w.drift), Waiting(cursor, w'.drift), Members(found), added, dropped);
      MovedResumes(w, w', resume, since, Members(found), added, dropped);
    case Saving(resume, since) => MovedResumes(w, w', resume, since, {}, added, dropped);
    case _ =>
  }

  lemma MovedResumes(w: World, w': World, resume: Option<Href>, since: nat, found: set<EpisodeId>,
                     added: seq<EpisodeId>, dropped: set<EpisodeId>)
    requires Resumes(w, resume, since, found) && w.origin <= Members(w.listing) && CrawlOk(w)
    requires forall id | id in added :: id !in w.listing && id !in w.stored && id !in found
    requires CrawlAllows(w, Lost(w.listing, dropped)) && w' == Move(w, added, dropped)
    requires resume.Some? && resume.value > 0 ==> since + Lost(w.listing, dropped) <= SPARE
    ensures Resumes(w', resume, since + Lost(w.listing, dropped), found)
  {
    hide Upto;
    MovedCrawl(w, added, dropped);
    match resume
    case None => MovedUpto(w, w', Crawled(w), Crawled(w'), found, added, dropped);
    case Some(href) =>
      MovedUpto(w, w', Waiting(href, since), Waiting(href, since + Lost(w.listing, dropped)), found, added, dropped);
  }

  lemma MovedKeeps(w: World, added: seq<EpisodeId>, dropped: set<EpisodeId>)
    requires Inv(w) && Gentle(w, Moves(added, dropped))
    ensures Inv(Move(w, added, dropped))
  {
    hide Upto, Clear, PrefixKnown, RoundOk;
    var w', l := Move(w, added, dropped), w.listing;
    MovedCrawl(w, added, dropped);
    ShiftKeepsDistinct(l, added, dropped);
    ShiftKeeps(l, 0, w.origin, {}, added, dropped);
    ShiftKeeps(l, 0, w.whole, {}, added, dropped);
    MovedPrefix(l, Crawled(w), Crawled(w'), w.whole, w.Known(), added, dropped);
    match w.progress
    case None => MovedClear(w, w', |l|, |w'.listing|, w.stored, w.Known(), added, dropped);
    case Some(p) =>
      MovedClear(w, w', |l|, |w'.listing|, p.stop, w.Known(), added, dropped);
      MovedUpto(w, w', Waiting(p.cursor, w.drift), Waiting(p.cursor, w'.drift), {}, added, dropped);
      MovedRound(w, p.cursor, added, dropped);
  }

  // ---------- the crawl ----------

  /** What a step of the crawl does to the rest: it may store episodes of its
      page, and go past a page that is known. */
  ghost predicate CrawlStep(w: World, w': World, href: Href, more: set<EpisodeId>) {
    && w' == w.(stored := w'.stored, failed := w'.failed, cursor := w'.cursor, complete := w'.complete,
                held := w'.held, at := w'.at)
    && w'.stored == w.stored + more && more <= Members(Page(w.listing, href)) && w.failed <= w'.failed
    && (Crawled(w') <= Crawled(w)
        || (&& Crawled(w) >= PAGE_SIZE * href && Crawled(w') <= PAGE_SIZE * (href + 1)
            && forall id | id in Page(w.listing, href) :: id in w'.Known()))
    && Crawled(w) <= PAGE_SIZE * href + 1
  }

  lemma CrawlClear(w: World, w': World, href: Href, more: set<EpisodeId>, n: int, n': int, some: set<EpisodeId>,
                   known: set<EpisodeId>, known': set<EpisodeId>)
    requires Distinct(w.listing) && CrawlStep(w, w', href, more) && Clear(w, n, some, known)
    requires n' <= n || (Crawled(w) <= n && n' <= Crawled(w')) || |w.listing| <= n
    requires known <= known' && w'.Known() <= known'
    ensures Clear(w', n', some + more, known') && Clear(w', n', some, known')
  {
    hide Page;
    var m := Least(Crawled(w), n);
    FoundOnPage(w.listing, href, m, some, known, more, known');
    FoundOnPage(w.listing, href, m, some, known, {}, known');
    assert some + {} == some;
  }

  lemma CrawlUpto(w: World, w': World, href: Href, more: set<EpisodeId>, n: int, n': int, found: set<EpisodeId>)
    requires Distinct(w.listing) && CrawlStep(w, w', href, more) && Upto(w, n, found)
    requires n' <= n || (n == Crawled(w) && n' == Crawled(w'))
    ensures Upto(w', n', found)
  {
    hide Below, Page;
    var known, known' := w.Known() + found, w'.Known() + found;
    CrawlClear(w, w', href, more, n, n', w.stored + found, known, known');
    assert w.stored + found + more == w'.stored + found;
    CrawlPrefix(w, w', href, more, n, n', w.origin, known, known');
  }

  lemma CrawlPrefix(w: World, w': World, href: Href, more: set<EpisodeId>, n: int, n': int, origin: set<EpisodeId>,
                    known: set<EpisodeId>, known': set<EpisodeId>)
    requires CrawlStep(w, w', href, more) && PrefixKnown(w.listing, n, origin, known)
    requires n' <= n || (n == Crawled(w) && n' == Crawled(w'))
    requires known <= known' && w'.Known() <= known'
    ensures PrefixKnown(w'.listing, n', origin, known')
  {
    if n' > n { PageExtends(w.listing, href, origin, known'); }
  }

  lemma CrawlResumes(w: World, w': World, href: Href, more: set<EpisodeId>, resume: Option<Href>, since: nat,
                     found: set<EpisodeId>)
    requires Distinct(w.listing) && CrawlStep(w, w', href, more) && Resumes(w, resume, since, found)
    ensures Resumes(w', resume, since, found)
  {
    hide Upto, CrawlStep;
    var n, n' := if resume.None? then Crawled(w) else Waiting(resume.value, since),
                 if resume.None? then Crawled(w') else Waiting(resume.value, since);
    CrawlUpto(w, w', href, more, n, n', found);
  }

  lemma CrawlKeepsRound(w: World, w': World, href: Href, more: set<EpisodeId>, cursor: Href)
    requires Distinct(w.listing) && CrawlStep(w, w', href, more) && RoundOk(w, cursor)
    ensures RoundOk(w', cursor)
  {
    hide Upto, Resumes;
    match w.round
    case Reading(skip, p, at, found) =>
      var n := ReadTo(w, cursor, p, at);
      CrawlUpto(w, w', href, more, n, n, Members(found));
    case Storing(found, resume, since) =>
      var n := Waiting(cursor, w.drift);
      CrawlUpto(w, w', href, more, n, n, Members(found));
      CrawlResumes(w, w', href, more, resume, since, Members(found));
    case Saving(resume, since) => CrawlResumes(w, w', href, more, resume, since, {});
    case _ =>
  }

  lemma CrawlKeeps(w: World, w': World, href: Href, more: set<EpisodeId>)
    requires Inv(w) && CrawlOk(w') && CrawlStep(w, w', href, more)
    ensures Inv(w')
  {
    hide Upto, Clear, RoundOk, PrefixKnown, Page;
    CrawlPrefix(w, w', href, more, Crawled(w), Crawled(w'), w.whole, w.Known(), w'.Known());
    match w.progress
    case None => CrawlClear(w, w', href, more, |w.listing|, |w.listing|, w.stored, w.Known(), w'.Known());
    case Some(p) =>
      var n := Waiting(p.cursor, w.drift);
      CrawlClear(w, w', href, more, |w.listing|, |w.listing|, p.stop, w.Known(), w'.Known());
      CrawlUpto(w, w', href, more, n, n, {});
      CrawlKeepsRound(w, w', href, more, p.cursor);
  }

  lemma VisitStep(w: World, v: ArchiveCrawl.Visit) returns (more: set<EpisodeId>)
    requires CrawlOk(w) && w.at.Some? && !w.complete && ArchiveCrawl.Still(v) && v.others == {}
    ensures CrawlOk(Visited(w, v)) && CrawlStep(w, Visited(w, v), w.at.value, more)
  {
    hide Select, Page;
    var c, href := w.ForCrawl(), w.at.value;
    ArchiveCrawl.StillObserve(c, v);
    assert c.stored + {} == c.stored;
    var page, skip := Page(w.listing, href), ArchiveCrawl.Skip(c, v);
    var wanted := Without(page, skip);
    var (c', done) := ArchiveCrawl.StorePage(c, wanted, v);
    ArchiveCrawl.StorePageKnows(c, page, v);
    StoredFrom(c, page, skip, v);
    more := Visited(w, v).stored - w.stored;
  }

  lemma StoredFrom(c: ArchiveCrawl.World, page: seq<EpisodeId>, skip: set<EpisodeId>, v: ArchiveCrawl.Visit)
    ensures ArchiveCrawl.StorePage(c, Without(page, skip), v).0.stored <= c.stored + Members(page)
  {
    var wanted := Without(page, skip);
    SelectMembers(wanted, v.manifests, Playable);
    WithoutMembers(page, skip);
    assert forall id | id in wanted :: id in Members(wanted);
  }

  // ---------- the refresh ----------

  lemma UptoLess(w: World, n: int, n': int, found: set<EpisodeId>)
    requires Upto(w, n, found) && n' <= n
    ensures Upto(w, n', found)
  {}

  /** The steps of a refresh leave the crawl alone. */
  ghost predicate RefreshStep(w: World, w': World) {
    && w'.listing == w.listing && w.stored <= w'.stored && w.failed <= w'.failed
    && w'.cursor == w.cursor && w'.complete == w.complete && w'.held == w.held && w'.at == w.at
  }

  lemma RefreshKeepsCrawl(w: World, w': World)
    requires RefreshStep(w, w') && CrawlOk(w)
    ensures CrawlOk(w') && Crawled(w') == Crawled(w)
    ensures forall n, some :: Clear(w, n, some, w.Known()) ==> Clear(w', n, some, w'.Known())
    ensures forall n, origin :: PrefixKnown(w.listing, n, origin, w.Known())
                            ==> PrefixKnown(w'.listing, n, origin, w'.Known())
  {}

  lemma OpensKeeps(w: World, newestFirst: seq<EpisodeId>, blocked: set<EpisodeId>)
    requires Inv(w)
    ensures Inv(Next(w, RefreshOpens(newestFirst, blocked)))
  {
    hide Below, PrefixKnown;
    Refresh.BoundaryIsStored(newestFirst, w.stored);
  }

  lemma BeginsKeeps(w: World)
    requires Inv(w)
    ensures Inv(Begun(w))
  {
    hide Below, PrefixKnown;
    assert Members([]) == {};
    if w.round.Opened? && w.progress.None? {
      NothingRead(Begun(w));
      FewerClear(w, |w.listing|, w.stored, w.round.stop, w.Known());
    }
  }

  lemma NothingRead(w: World)
    ensures Upto(w, 0, {})
  {}

  lemma FewerClear(w: World, n: int, some: set<EpisodeId>, few: set<EpisodeId>, known: set<EpisodeId>)
    requires Clear(w, n, some, known) && few <= some
    ensures Clear(w, n, few, known)
  {}

  /** One page read, with what was found on it. */
  lemma PageUpto(w: World, w': World, href: Href, n: int, found: seq<EpisodeId>, more: seq<EpisodeId>)
    requires Distinct(w.listing) && Upto(w, n, Members(found)) && n <= PAGE_SIZE * href + 1
    requires RefreshStep(w, w') && w'.stored == w.stored && w'.origin == w.origin
    requires Members(more) <= Members(Page(w.listing, href))
    ensures Upto(w', n, Members(found)) && Upto(w', n, Members(found + more))
    ensures PAGE_SIZE * href <= n
         && (forall id | id in Page(w.listing, href) :: id in w'.Known() + Members(found + more))
        ==> Upto(w', PAGE_SIZE * (href + 1), Members(found + more))
  {
    hide Page;
    var F, E := Members(found), Members(more);
    Refresh.MembersConcat(found, more);
    var known, known' := w.Known() + F, w'.Known() + (F + E);
    var m := Least(Crawled(w), n);
    FoundOnPage(w.listing, href, m, w.stored + F, known, {}, w'.Known() + F);
    FoundOnPage(w.listing, href, m, w.stored + F, known, E, known');
    assert w.stored + F + {} == w.stored + F && w.stored + F + E == w.stored + (F + E);
    if (forall id | id in Page(w.listing, href) :: id in known') && PAGE_SIZE * href <= n {
      PageExtends(w.listing, href, w.origin, known');
    }
  }

  /** Behind a page that holds a boundary episode only the crawl's part is unread. */
  lemma EnoughUpto(w: World, stop: set<EpisodeId>, href: Href, found: set<EpisodeId>)
    requires Upto(w, PAGE_SIZE * (href + 1), found) && Clear(w, |w.listing|, stop, w.Known())
    requires Refresh.Holds(Page(w.listing, href), stop) || !HasNext(w.listing, href)
    ensures Upto(w, Crawled(w), found)
  {
    hide Refresh.Holds, Page;
    if Refresh.Holds(Page(w.listing, href), stop) { var i := BoundaryAt(w.listing, stop, href); }
  }

  lemma ReadsKeeps(w: World, v: Refresh.Visit)
    requires Inv(w) && Gentle(w, RefreshReads(v)) && w.round.Reading? && w.progress.Some?
    ensures Inv(Read(w, v))
  {
    hide Upto, Clear, PrefixKnown, Refresh.ReadPage, Page, Refresh.Holds, HasNext;
    var Reading(skip, p, href, found) := w.round;
    var w', cursor, stop := Read(w, v), w.progress.value.cursor, w.progress.value.stop;
    var n := ReadTo(w, cursor, p, href);
    var end := Refresh.ReadPage(w.ForRefresh(), skip, stop, v, href);
    Refresh.ReadPageKnows(w.ForRefresh(), skip, stop, v, href);
    PageFound(w.ForRefresh(), skip, stop, v, href);
    RefreshKeepsCrawl(w, w');
    UptoLater(w, w', Waiting(cursor, w.drift), {});
    if !w'.round.Idle? {
      var more := if v.answer == Refresh.Listed then end.episodes else [];
      assert found + [] == found;
      PageUpto(w, w', href, n, found, more);
      UptoLess(w', n, Waiting(cursor, w.drift), Members(found + more));
      UptoLess(w', n, Waiting(Previous(p, href), if p == 0 then w.drift else 0), Members(found + more));
      if v.answer == Refresh.Listed && (end.Enough? || end.More?) {
        UptoLess(w', PAGE_SIZE * (href + 1), Waiting(href, 0), Members(found + more));
        if end.Enough? { EnoughUpto(w', stop, href, Members(found + more)); }
      }
    }
  }

  lemma UptoLater(w: World, w': World, n: int, found: set<EpisodeId>)
    requires Upto(w, n, found) && RefreshStep(w, w') && w'.stored == w.stored && w'.origin == w.origin
    ensures Upto(w', n, found)
  {}

  /** Found episodes count as stored once they are. */
  lemma StoredUpto(w: World, w': World, n: int, found: set<EpisodeId>)
    requires Upto(w, n, found) && RefreshStep(w, w') && w'.origin == w.origin
    requires w'.stored == w.stored + found && w'.failed == w.failed
    ensures Upto(w', n, {})
  {
    assert w'.stored + {} == w.stored + found;
    assert w'.Known() + {} == w.Known() + found;
  }

  lemma StoresKeeps(w: World, writable: bool)
    requires Inv(w)
    ensures Inv(Stored(w, writable))
  {
    hide Upto, Clear, PrefixKnown;
    var w' := Stored(w, writable);
    if w.round.Storing? {
      RefreshKeepsCrawl(w, w');
      if w'.round.Saving? {
        var Storing(found, resume, since) := w.round;
        var cursor := w.progress.value.cursor;
        StoredUpto(w, w', Waiting(cursor, w.drift), Members(found));
        StoredUpto(w, w', if resume.None? then Crawled(w) else Waiting(resume.value, since), Members(found));
      } else {
        UptoLater(w, w', Waiting(w.progress.value.cursor, w.drift), {});
      }
    }
  }

  lemma SavesKeeps(w: World)
    requires Inv(w)
    ensures Inv(Saved(w))
  {
    hide Below;
    assert w.stored + {} == w.stored && w.Known() + {} == w.Known();
    BelowCrawled(w);
  }

  lemma BelowCrawled(w: World)
    ensures Clear(w, Crawled(w), w.stored, w.Known()) ==> Clear(w, |w.listing|, w.stored, w.Known())
  {}

  lemma StopsKeeps(w: World)
    requires Inv(w)
    ensures Inv(Next(w, RefreshStops))
  {
    hide Below, PrefixKnown;
  }

  // ---------- every run ----------

  lemma NextKeeps(w: World, step: Step)
    requires Inv(w) && Gentle(w, step)
    ensures Inv(Next(w, step))
  {
    hide Inv, Move, Begun, Stored, Saved, Visited, Refresh.ReadPage;
    match step
    case Moves(added, dropped) => MovedKeeps(w, added, dropped);
    case CrawlStarts => CrawlTurns(w, step);
    case CrawlVisits(v) => CrawlTurns(w, step);
    case CrawlStops => CrawlTurns(w, step);
    case RefreshOpens(newestFirst, blocked) => OpensKeeps(w, newestFirst, blocked);
    case RefreshBegins => BeginsKeeps(w);
    case RefreshReads(v) => if Read(w, v) != w { ReadsKeeps(w, v); }
    case RefreshStores(writable) => StoresKeeps(w, writable);
    case RefreshSaves => SavesKeeps(w);
    case RefreshStops => StopsKeeps(w);
  }

  lemma CrawlTurns(w: World, step: Step)
    requires Inv(w) && Gentle(w, step) && (step.CrawlStarts? || step.CrawlVisits? || step.CrawlStops?)
    ensures Inv(Next(w, step))
  {
    hide RefreshOk, PrefixKnown, Page;
    var w' := Next(w, step);
    if w' != w {
      var more := {};
      if step.CrawlVisits? { more := VisitStep(w, step.visit); }
      CrawlKeeps(w, w', if w.at.Some? then w.at.value else w.StartHref(), more);
    }
  }

  lemma {:induction false} NextAllKeeps(w: World, steps: seq<Step>)
    requires Inv(w) && GentleAll(w, steps)
    ensures Inv(NextAll(w, steps))
    decreases |steps|
  {
    hide Inv, Next, Gentle;
    if steps != [] {
      NextKeeps(w, steps[0]);
      NextAllKeeps(Next(w, steps[0]), steps[1..]);
    }
  }

  /** Nobody is at work; the archive has not been crawled, or nothing unknown
      is listed below a stored episode. */
  ghost predicate Starts(w: World) {
    && Distinct(w.listing) && w.origin == {} == w.whole
    && w.cursor.None? && w.at.None? && w.progress.None? && w.round.Idle?
    && (w.complete ==> Below(w.listing, |w.listing|, w.stored, w.Known()))
  }

  /** Crawl and refresh, their pages, writes, failures, pauses and deaths in
      any order, leave no gap. All that was listed when the last complete
      refresh first saved, and never dropped since, is stored or recorded as
      failed down to the crawl's checkpoint, and altogether once the archive
      is complete. While no refresh is under way then, nothing unknown is
      listed below a stored episode, so the next one may stop early too. */
  lemma TogetherWhole(w: World, steps: seq<Step>)
    requires Starts(w) && GentleAll(w, steps)
    ensures var z := NextAll(w, steps);
            && PrefixKnown(z.listing, PAGE_SIZE * z.StartHref(), z.whole, z.Known())
            && (z.complete ==>
                  && (forall id | id in z.whole :: id in z.stored || id in z.failed)
                  && (z.progress.None? ==> Below(z.listing, |z.listing|, z.stored, z.Known())))
  {
    hide NextAll, GentleAll;
    NextAllKeeps(w, steps);
    var z := NextAll(w, steps);
    if z.complete {
      forall id | id in z.whole ensures id in z.Known() {
        var i :| 0 <= i < |z.listing| && z.listing[i] == id;
      }
    }
  }

  /** Until the archive is complete a refresh does leave the crawl its part: one
      can complete, and episodes listed at its first save still be unknown. */
  lemma RefreshAloneIsNotWhole() returns (w: World, steps: seq<Step>, id: EpisodeId)
    ensures Starts(w) && !w.complete && GentleAll(w, steps)
    ensures var z := NextAll(w, steps); z.progress.None? && id in z.whole && id in z.listing && id !in z.Known()
  {
    hide Page, Numbered, GentleAll, NextAll;
    var l := Numbered(PAGE_SIZE + 1);
    w, steps, id := Fresh(l), OneRefresh(l), l[PAGE_SIZE];
    OneRefreshEnds(l);
    OnPageOne(l, Without(Page(l, 0), {l[0]}), id);
  }

  /** Only the first episode is stored, and nobody has been at work. */
  function Fresh(l: seq<EpisodeId>): World
    requires l != []
  {
    World(l, {l[0]}, {}, None, false, 0, None, None, 0, Idle, {}, {})
  }

  function OneRefresh(l: seq<EpisodeId>): seq<Step>
    requires l != []
  {
    [RefreshOpens([l[0]], {}), RefreshBegins, RefreshReads(FINE), RefreshStores(true), RefreshSaves]
  }

  /** It stores the first page, where it finds the stored episode. */
  lemma OneRefreshEnds(l: seq<EpisodeId>)
    requires l != []
    ensures var found := Without(Page(l, 0), {l[0]});
            NextAll(Fresh(l), OneRefresh(l))
            == Fresh(l).(stored := {l[0]} + Members(found), origin := Members(l), whole := Members(l))
    ensures GentleAll(Fresh(l), OneRefresh(l))
  {
    hide Read, Page, Without, Refresh.Boundary, GentleAll, NextAll;
    var w, first, found := Fresh(l), {l[0]}, Without(Page(l, 0), {l[0]});
    var w1 := w.(round := Opened(first, first));
    var w2 := w.(progress := Some(Refresh.Progress(0, first)), origin := Members(l), round := Reading(first, 0, 0, []));
    var w3 := w2.(round := Storing(found, None, 0));
    var w4 := w2.(stored := first + Members(found), round := Saving(None, 0));
    var w5 := w4.(progress := None, whole := Members(l), round := Idle);
    NewestOnly(l[0]);
    assert first + ({} * {}) == first;
    FirstPageRead(w2, l);
    Path([w, w1, w2, w3, w4, w5], OneRefresh(l));
  }

  lemma OnPageOne(l: seq<EpisodeId>, found: seq<EpisodeId>, id: EpisodeId)
    requires l == Numbered(PAGE_SIZE + 1) && found == Without(Page(l, 0), {l[0]}) && id == l[PAGE_SIZE]
    ensures Distinct(l) && id in Members(l) && id !in {l[0]} + Members(found)
  {
    WithoutMembers(Page(l, 0), {l[0]});
    PageLengths(l, 0, 0);
  }

  /** The first page, with a boundary episode at its top. */
  lemma FirstPageRead(w: World, l: seq<EpisodeId>)
    requires w.listing == l && |l| > 0 && w.progress == Some(Refresh.Progress(0, {l[0]}))
    requires w.round == Reading({l[0]}, 0, 0, [])
    ensures Read(w, FINE) == w.(round := Storing(Without(Page(l, 0), {l[0]}), None, 0))
  {
    hide Without, Page, Refresh.ReadPage, Previous;
    FirstEnough(w.ForRefresh(), l);
    assert [] + Without(Page(l, 0), {l[0]}) == Without(Page(l, 0), {l[0]});
  }

  lemma FirstEnough(w: Refresh.World, l: seq<EpisodeId>)
    requires w.listing == l && |l| > 0
    ensures Refresh.ReadPage(w, {l[0]}, {l[0]}, FINE, 0) == Refresh.Enough(w, Without(Page(l, 0), {l[0]}))
  {
    hide Without, HasNext, Page, Refresh.Holds, Refresh.ReadPage, Refresh.VisitPage;
    FirstHolds(l);
    WithoutNothing(l);
    PlayablePage(w, {l[0]}, {l[0]}, FINE, 0, l);
    Refresh.AloneVisit(w, {l[0]}, {l[0]}, FINE, 0);
    assert w.origin - {} == w.origin;
  }

  lemma FirstHolds(l: seq<EpisodeId>)
    requires |l| > 0
    ensures Refresh.Holds(Page(l, 0), {l[0]})
  {
    assert Page(l, 0)[0] == l[0];
  }

  lemma {:induction false} Path(ws: seq<World>, steps: seq<Step>)
    requires |ws| == |steps| + 1
    requires forall i | 0 <= i < |steps| :: Gentle(ws[i], steps[i]) && Next(ws[i], steps[i]) == ws[i + 1]
    ensures NextAll(ws[0], steps) == ws[|steps|] && GentleAll(ws[0], steps)
  {
    hide Gentle, Next;
    if steps != [] {
      assert forall i | 0 <= i < |steps[1..]| :: steps[1..][i] == steps[i + 1] && ws[1..][i] == ws[i + 1];
      Path(ws[1..], steps[1..]);
    }
  }

  // ---------- a round with nothing in between ----------

  /** The steps of one round, up to where its process dies. */
  function Steps(w: World, r: Refresh.Round): seq<Step> {
    if (w.progress.None? && r.metadataDue && !r.metadataOk) || r.death == Refresh.BeforeBoundary then []
    else [RefreshOpens(r.newestFirst, r.blocked), RefreshBegins] + Reads(r.pages) + Ending(r)
  }

  function Ending(r: Refresh.Round): seq<Step> {
    if r.death == Refresh.BeforeBatch then []
    else if r.death == Refresh.BeforeCheckpoint then [RefreshStores(r.writable)]
    else [RefreshStores(r.writable), RefreshSaves]
  }

  function Reads(pages: seq<Refresh.Visit>): (steps: seq<Step>) {
    seq(|pages|, i requires 0 <= i < |pages| => RefreshReads(pages[i]))
  }

  ghost predicate AllAlone(pages: seq<Refresh.Visit>) {
    forall v | v in pages :: Refresh.Alone(v)
  }

  lemma {:induction false} NextAllConcat(w: World, a: seq<Step>, b: seq<Step>)
    ensures NextAll(w, a + b) == NextAll(NextAll(w, a), b)
    decreases |a|
  {
    if a == [] {
      assert a + b == b;
    } else {
      assert (a + b)[1..] == a[1..] + b;
      NextAllConcat(Next(w, a[0]), a[1..], b);
    }
  }

  lemma TwoSteps(w: World, a: Step, b: Step)
    ensures NextAll(w, [a]) == Next(w, a) && NextAll(w, [a, b]) == Next(Next(w, a), b)
  {
    assert [a, b][1..] == [b];
    assert NextAll(Next(w, a), [b]) == Next(Next(w, a), b);
  }

  /** Reads after the last page change nothing. */
  lemma {:induction false} NoMoreReads(w: World, pages: seq<Refresh.Visit>)
    requires !w.round.Reading?
    ensures NextAll(w, Reads(pages)) == w
  {
    if pages != [] {
      assert Reads(pages)[1..] == Reads(pages[1..]);
      NoMoreReads(w, pages[1..]);
    }
  }

  /** Where a walk leaves the world and its round. */
  predicate Leaves(z: World, end: Refresh.WalkEnd) {
    match end
    case Died(w') => z.ForRefresh() == w' && (z.round.Idle? || z.round.Reading?)
    case NoAnswer(w') => z.ForRefresh() == w' && z.round.Idle?
    case Vanished(w') => z.ForRefresh() == w'.(progress := None) && z.round.Idle?
    case Walked(w', found, resume, since) =>
      z.ForRefresh() == w' && z.round == Storing(found, resume, if resume.Some? then since else 0)
  }

  lemma ReadPageEnds(w: Refresh.World, skip: set<EpisodeId>, stop: set<EpisodeId>, v: Refresh.Visit, href: Href)
    ensures var end := Refresh.ReadPage(w, skip, stop, v, href); !end.Unanswered? && end.w == w.(failed := end.w.failed)
  {}

  lemma {:induction false} WalkIsItsReads(w: World, pages: seq<Refresh.Visit>, p: nat, previous: Href, since: nat)
    requires w.round.Reading? && w.round.p == p < Refresh.PAGES_PER_ROUND && w.progress.Some?
    requires p <= |pages| && AllAlone(pages)
    requires previous == Previous(p, w.round.href) && since == (if p == 0 then w.drift else 0)
    ensures var end := Refresh.WalkFrom(w.ForRefresh(), w.round.skip, w.progress.value.stop, pages, p, w.round.href,
                                        previous, since, w.round.found);
            Leaves(NextAll(w, Reads(pages[p..])), end) && end.w.progress == w.progress
    decreases |pages| - p
  {
    hide Refresh.ReadPage, Refresh.VisitPage, Lost;
    var Reading(skip, _, href, found) := w.round;
    var stop := w.progress.value.stop;
    if p < |pages| {
      var w' := Read(w, pages[p]);
      Refresh.AloneVisit(w.ForRefresh(), skip, stop, pages[p], href);
      ReadPageEnds(w.ForRefresh(), skip, stop, pages[p], href);
      var end := Refresh.ReadPage(w.ForRefresh(), skip, stop, pages[p], href);
      assert Reads(pages[p..])[1..] == Reads(pages[p + 1..]);
      if w'.round.Reading? {
        WalkIsItsReads(w', pages, p + 1, w.round.href, 0);
      } else {
        NoMoreReads(w', pages[p + 1..]);
        if pages[p].answer == Refresh.Listed && end.More? {
          assert Refresh.WalkFrom(end.w, skip, stop, pages, p + 1, href + 1, href, 0, found + end.episodes).Walked?;
        }
      }
    }
  }

  /** With nothing in between, the steps of a round are the round that the
      refresh's method is proved to make. */
  lemma RoundIsItsSteps(w: World, r: Refresh.Round)
    requires w.round.Idle? && AllAlone(r.pages)
    ensures var (w', outcome) := Refresh.OneRound(w.ForRefresh(), r);
            && NextAll(w, Steps(w, r)).ForRefresh() == w'
            && (outcome != Refresh.Interrupted ==> NextAll(w, Steps(w, r)).round.Idle?)
  {
    hide Refresh.WalkFrom, Refresh.Boundary;
    if Steps(w, r) != [] {
      var opening, middle := [RefreshOpens(r.newestFirst, r.blocked), RefreshBegins], Reads(r.pages);
      NextAllConcat(w, opening + middle, Ending(r));
      NextAllConcat(w, opening, middle);
      var w1 := Begun(Next(w, opening[0]));
      TwoSteps(w, opening[0], opening[1]);
      var p := w1.progress.value;
      assert r.pages[0..] == r.pages;
      WalkIsItsReads(w1, r.pages, 0, p.cursor, w1.drift);
      var end := Refresh.WalkFrom(w1.ForRefresh(), w1.round.skip, p.stop, r.pages, 0, p.cursor, p.cursor, w1.drift, []);
      EndingIsFinish(NextAll(w1, middle), r, end);
    }
  }

  lemma EndingIsFinish(z: World, r: Refresh.Round, end: Refresh.WalkEnd)
    requires Leaves(z, end) && end.w.progress.Some?
    ensures var (w', outcome) := Refresh.Finish(end, end.w.progress.value, r);
            && NextAll(z, Ending(r)).ForRefresh() == w'
            && (outcome != Refresh.Interrupted ==> NextAll(z, Ending(r)).round.Idle?)
  {
    TwoSteps(z, RefreshStores(r.writable), RefreshSaves);
  }

  /** A goroutine that dies changes no row, and the next one starts from the
      checkpoint; until then there is only the one. */
  lemma StartsOver(w: World, newestFirst: seq<EpisodeId>, blocked: set<EpisodeId>)
    ensures var (crawl, refresh) := (Next(w, CrawlStops), Next(w, RefreshStops));
            && crawl.ForCrawl() == w.ForCrawl() && refresh.ForRefresh() == w.ForRefresh()
            && (!w.complete ==> Next(crawl, CrawlStarts).at == Some(w.StartHref()))
            && Next(refresh, RefreshOpens(newestFirst, blocked)).round.Opened?
            && (w.at.Some? ==> Next(w, CrawlStarts) == w)
            && (!w.round.Idle? ==> Next(w, RefreshOpens(newestFirst, blocked)) == w)
  {}

  // ---------- a run of the crawl with nothing in between ----------

  function CrawlSteps(script: seq<ArchiveCrawl.Visit>): seq<Step> { [CrawlStarts] + Visits(script) }

  function Visits(script: seq<ArchiveCrawl.Visit>): seq<Step> {
    seq(|script|, i requires 0 <= i < |script| => CrawlVisits(script[i]))
  }

  ghost predicate AllStill(script: seq<ArchiveCrawl.Visit>) {
    forall v | v in script :: ArchiveCrawl.Still(v) && v.others == {}
  }

  lemma VisitIsOne(w: World, v: ArchiveCrawl.Visit)
    requires w.at.Some? && ArchiveCrawl.Still(v) && v.others == {}
    ensures var (c, step) := ArchiveCrawl.VisitPage(w.ForCrawl(), w.at.value, v);
            && Visited(w, v).ForCrawl() == c
            && Visited(w, v).at == if step.Advance? then Some(step.href) else None
  {
    ArchiveCrawl.StillObserve(w.ForCrawl(), v);
    hide ArchiveCrawl.Observe, ArchiveCrawl.FetchPage, Select, Without;
  }

  /** Visits after the run has ended change nothing. */
  lemma {:induction false} NoMoreVisits(w: World, script: seq<ArchiveCrawl.Visit>)
    requires w.at.None?
    ensures NextAll(w, Visits(script)) == w
  {
    if script != [] {
      assert Visits(script)[1..] == Visits(script[1..]);
      NoMoreVisits(w, script[1..]);
    }
  }

  lemma {:induction false} CrawlIsItsVisits(w: World, script: seq<ArchiveCrawl.Visit>, i: nat)
    requires w.at.Some? && i <= |script| <= ArchiveCrawl.MAX_PAGES_PER_RUN && AllStill(script)
    ensures NextAll(w, Visits(script[i..])).ForCrawl() == ArchiveCrawl.CrawlFrom(w.ForCrawl(), w.at.value, script, i)
    decreases |script| - i
  {
    hide Visited, ArchiveCrawl.VisitPage;
    if i < |script| {
      var w' := Visited(w, script[i]);
      VisitIsOne(w, script[i]);
      assert Visits(script[i..])[1..] == Visits(script[i + 1..]);
      if w'.at.Some? { CrawlIsItsVisits(w', script, i + 1); } else { NoMoreVisits(w', script[i + 1..]); }
    }
  }

  /** With nothing in between, the steps of a crawl are the run that the
      crawler's method is proved to make. */
  lemma CrawlIsItsSteps(w: World, script: seq<ArchiveCrawl.Visit>)
    requires w.at.None? && |script| <= ArchiveCrawl.MAX_PAGES_PER_RUN && AllStill(script)
    ensures NextAll(w, CrawlSteps(script)).ForCrawl() == ArchiveCrawl.Crawl(w.ForCrawl(), script)
  {
    hide Visited, ArchiveCrawl.CrawlFrom;
    assert CrawlSteps(script)[1..] == Visits(script) && script[0..] == script;
    if w.complete { NoMoreVisits(w, script); } else { CrawlIsItsVisits(Next(w, CrawlStarts), script, 0); }
  }
}
