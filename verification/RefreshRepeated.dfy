/** Why the early stop of a refresh is right, and stays right from one
    refresh to the next (updateFetch in internal/feed/refresh.go with
    GetNewEpisodes in internal/nrk/nrk.go). */
module RefreshRepeated {
  import opened Wrappers
  import opened Listing
  import opened Names
  import opened EpisodeLookups
  import opened Refresh

  /** Among the first n entries, nothing unknown is listed below one of these. */
  ghost predicate Below(listing: seq<EpisodeId>, n: int, some: set<EpisodeId>, known: set<EpisodeId>) {
    forall i, j | 0 <= i < j < |listing| && j < n && listing[i] in some :: listing[j] in known
  }

  /** Dropping entries moves a pair's lower one up by no more than is dropped. */
  lemma {:induction false} DroppingKeepsBelow(listing: seq<EpisodeId>, n: int, some: set<EpisodeId>,
                                              known: set<EpisodeId>, dropped: set<EpisodeId>)
    requires Below(listing, n, some, known)
    ensures Below(Without(listing, dropped), n - Lost(listing, dropped), some, known)
  {
    if listing != [] {
      var rest := listing[1..];
      assert forall i | 0 <= i < |rest| :: rest[i] == listing[i + 1];
      DroppingKeepsBelow(rest, n - 1, some, known, dropped);
      WithoutMembers(rest, dropped);
      if listing[0] !in dropped && listing[0] in some {
        assert PrefixKnown(rest, n - 1, Members(rest), known);
        DroppingShrinks(rest, n - 1, Members(rest), known, dropped);
        assert forall id | id in Without(rest, dropped) :: id in Members(Without(rest, dropped));
      }
    }
  }

  /** Putting other episodes on top pushes every pair down together. */
  lemma AddingKeepsBelow(listing: seq<EpisodeId>, n: int, some: set<EpisodeId>, known: set<EpisodeId>,
                         added: seq<EpisodeId>)
    requires Below(listing, n, some, known) && forall id | id in added :: id !in some
    ensures Below(added + listing, n + |added|, some, known)
  {
    var l := added + listing;
    assert forall k | 0 <= k < |added| :: l[k] == added[k] && l[k] in added;
    forall i, j | 0 <= i < j < |l| && j < n + |added| && l[i] in some ensures l[j] in known {
      assert l[i] == listing[i - |added|] && l[j] == listing[j - |added|];
    }
  }

  lemma ShiftKeepsBelow(listing: seq<EpisodeId>, n: int, some: set<EpisodeId>, known: set<EpisodeId>,
                        added: seq<EpisodeId>, dropped: set<EpisodeId>)
    requires Below(listing, n, some, known) && forall id | id in added :: id !in some
    ensures Below(Shifted(listing, added, dropped), n - Lost(listing, dropped) + |added|, some, known)
  {
    DroppingKeepsBelow(listing, n, some, known, dropped);
    AddingKeepsBelow(Without(listing, dropped), n - Lost(listing, dropped), some, known, added);
  }

  lemma BelowLess(l: seq<EpisodeId>, n: int, m: int, some: set<EpisodeId>, known: set<EpisodeId>)
    requires Below(l, n, some, known) && (m <= n || |l| <= n)
    ensures Below(l, m, some, known)
  {}

  // ---------- one refresh ----------

  /** NRK never puts a boundary episode back on top. */
  ghost predicate StaysDown(pages: seq<Visit>, stop: set<EpisodeId>) {
    forall i, id | 0 <= i < |pages| && id in pages[i].added :: id !in stop
  }

  ghost predicate StaysDownAll(rounds: seq<Round>, stop: set<EpisodeId>) {
    forall r | 0 <= r < |rounds| :: StaysDown(rounds[r].pages, stop)
  }

  ghost predicate StopIsRight(w: World, stop: set<EpisodeId>) { Below(w.listing, |w.listing|, stop, w.Known()) }

  lemma VisitKeepsStop(w: World, skip: set<EpisodeId>, stop: set<EpisodeId>, v: Visit, href: Href)
    requires StopIsRight(w, stop) && forall id | id in v.added :: id !in stop
    ensures StopIsRight(VisitPage(w, skip, stop, v, href).w, stop)
  {
    hide ReadPage;
    ShiftKeepsBelow(w.listing, |w.listing|, stop, w.Known(), v.added, v.dropped);
    ReadPageKnows(Observe(w, v), skip, stop, v, href);
  }

  lemma {:induction false} WalkKeepsStop(w: World, skip: set<EpisodeId>, stop: set<EpisodeId>, pages: seq<Visit>,
                                         p: nat, href: Href, previous: Href, since: nat, found: seq<EpisodeId>)
    requires StopIsRight(w, stop) && StaysDown(pages, stop)
    ensures StopIsRight(WalkFrom(w, skip, stop, pages, p, href, previous, since, found).w, stop)
    decreases |pages| - p
  {
    hide VisitPage, StopIsRight;
    if p < PAGES_PER_ROUND && p < |pages| {
      VisitKeepsStop(w, skip, stop, pages[p], href);
      var end := VisitPage(w, skip, stop, pages[p], href);
      if end.More? {
        WalkKeepsStop(end.w, skip, stop, pages, p + 1, href + 1, href, 0, found + end.episodes);
      }
    }
  }

  lemma RoundKeepsStop(w: World, r: Round, stop: set<EpisodeId>)
    requires w.progress.Some? && w.progress.value.stop == stop && StopIsRight(w, stop) && StaysDown(r.pages, stop)
    ensures StopIsRight(OneRound(w, r).0, stop)
  {
    hide WalkFrom;
    var p, skip := w.progress.value, w.stored + (w.failed * r.blocked);
    WalkKeepsStop(w, skip, stop, r.pages, 0, p.cursor, p.cursor, w.drift, []);
  }

  lemma {:induction false} RefreshKeepsStop(w: World, rounds: seq<Round>, stop: set<EpisodeId>)
    requires Inv(w) && w.progress.Some? && w.progress.value.stop == stop && TolerableAll(w, rounds)
    requires StopIsRight(w, stop) && StaysDownAll(rounds, stop)
    ensures StopIsRight(RefreshAll(w, rounds).0, stop)
    decreases |rounds|
  {
    hide OneRound, StopIsRight, Inv;
    if rounds != [] {
      RoundKeeps(w, rounds[0]);
      RoundKeepsStop(w, rounds[0], stop);
      var (w', outcome) := OneRound(w, rounds[0]);
      if outcome != Completed {
        assert StaysDownAll(rounds[1..], stop) by {
          forall r | 0 <= r < |rounds[1..]| ensures StaysDown(rounds[1..][r].pages, stop) {
            assert rounds[1..][r] == rounds[r + 1];
          }
        }
        RefreshKeepsStop(w', rounds[1..], stop);
      }
    }
  }

  lemma {:induction false} StopHolds(listing: seq<EpisodeId>, stop: set<EpisodeId>, k: nat)
    ensures var s := StopFrom(listing, stop, k); Holds(Page(listing, s), stop) || !HasNext(listing, s)
    decreases |listing| - PAGE_SIZE * k
  {
    if !(Holds(Page(listing, k), stop) || !HasNext(listing, k)) { StopHolds(listing, stop, k + 1); }
  }

  lemma BoundaryAt(listing: seq<EpisodeId>, stop: set<EpisodeId>, k: nat) returns (i: nat)
    requires Holds(Page(listing, k), stop)
    ensures i < |listing| && i < PAGE_SIZE * (k + 1) && listing[i] in stop
  {
    var page := Page(listing, k);
    var b :| b in page && b in stop;
    var x :| 0 <= x < |page| && page[x] == b;
    i := PAGE_SIZE * k + x;
    assert listing[i] == b;
  }

  /** What the stop page leaves unread is known already. */
  lemma RefreshedIsWhole(w: World, stop: set<EpisodeId>)
    requires Inv(w) && Refreshed(w, stop) && StopIsRight(w, stop)
    ensures w.origin <= w.Known()
  {
    hide Holds, Page, StopFrom;
    var s := StopFrom(w.listing, stop, 0);
    StopHolds(w.listing, stop, 0);
    forall id | id in w.origin ensures id in w.Known() {
      var j :| 0 <= j < |w.listing| && w.listing[j] == id;
      if j >= PAGE_SIZE * (s + 1) {
        var i := BoundaryAt(w.listing, stop, s);
      }
    }
  }

  /** Stopping early is right: if everything listed below a boundary episode
      was known at the first save, then a complete refresh has every episode
      listed at the first save and never dropped since, not only those down to
      the stop page. */
  lemma NothingMissed(w: World, first: Round, w1: World, rounds: seq<Round>)
    requires JustSaved(w, first, w1) && TolerableAll(w1, rounds)
    requires StaysDownAll(rounds, Boundary(first.newestFirst, w.stored))
    requires StopIsRight(w, Boundary(first.newestFirst, w.stored))
    ensures var (z, done) := RefreshAll(w1, rounds);
            done ==> forall id | id in z.origin :: id in z.stored || id in z.failed
  {
    hide RefreshAll, OneRound, Refreshed;
    var stop := Boundary(first.newestFirst, w.stored);
    FirstSave(w, first);
    RefreshAllKeeps(w1, rounds);
    RefreshKeepsStop(w1, rounds, stop);
    var (z, done) := RefreshAll(w1, rounds);
    if done { RefreshedIsWhole(z, stop); }
  }

  // ---------- refresh after refresh ----------

  /** How many entries may be dropped while a checkpoint waits to be revisited. */
  const SPARE: nat := 1

  /** NRK only lists new episodes: each once, and none that is listed or stored. */
  ghost predicate New(w: World, added: seq<EpisodeId>) {
    Distinct(added) && forall id | id in added :: id !in w.listing && id !in w.stored
  }

  /** Nobody else stores episodes and the listing does not vanish. It gains new
      episodes at any time, and loses what it likes before a walk from the
      first page; later only SPARE entries while a checkpoint waits. The walk
      fails or dies wherever it likes. */
  ghost predicate GentleWalk(w: World, skip: set<EpisodeId>, stop: set<EpisodeId>, pages: seq<Visit>, p: nat,
                             href: Href, since: nat)
    decreases |pages| - p
  {
    p < PAGES_PER_ROUND && p < |pages| ==>
      && New(w, pages[p].added) && pages[p].others == {}
      && (href == 0 || since + Lost(w.listing, pages[p].dropped) <= (if p == 0 then SPARE else 0))
      && (p == 0 ==> pages[p].answer != NotFound)
      && var end := VisitPage(w, skip, stop, pages[p], href);
         (end.More? ==> GentleWalk(end.w, skip, stop, pages, p + 1, href + 1, 0))
  }

  ghost predicate GentleRound(w: World, r: Round) {
    var (w1, begun) := Begin(w, r);
    begun ==> GentleWalk(w1, w.stored + (w.failed * r.blocked), w1.progress.value.stop, r.pages, 0,
                         w1.progress.value.cursor, w1.drift)
  }

  ghost predicate StoredBelow(w: World, n: int, found: set<EpisodeId>) {
    Below(w.listing, n, w.stored + found, w.Known() + found)
  }

  /** A saved checkpoint: nothing unknown is listed below a stored episode
      before its page, nor at its top while nothing was dropped since. */
  ghost predicate Held(w: World, cursor: Href, drift: nat, found: set<EpisodeId>) {
    cursor > 0 ==> drift <= SPARE && StoredBelow(w, PAGE_SIZE * cursor + 1 - drift, found)
  }

  ghost predicate Based(w: World, stop: set<EpisodeId>, cursor: Href) {
    Distinct(w.listing) && StopIsRight(w, stop) && stop <= w.stored && Held(w, cursor, w.drift, {})
  }

  /** Between two refreshes, nothing unknown is listed below a stored episode. */
  ghost predicate Quiet(w: World) {
    && Inv(w) && Distinct(w.listing)
    && match w.progress
       case None => StoredBelow(w, |w.listing|, {})
       case Some(p) => Based(w, p.stop, p.cursor)
  }

  /** How far down the p-th page of a walk finds the listing settled. */
  function Settled(p: nat, href: Href, since: nat): int {
    if p > 0 then PAGE_SIZE * href else if href == 0 then 0 else PAGE_SIZE * href + 1 - since
  }

  /** In the middle of a walk that began at page `start`. */
  ghost predicate Settling(w: World, stop: set<EpisodeId>, start: Href, p: nat, href: Href, since: nat,
                           found: seq<EpisodeId>) {
    && Based(w, stop, start) && Members(found) <= Members(w.listing)
    && (if p == 0 then href == start && found == [] && since == w.drift else href > start && since == 0)
    && StoredBelow(w, Settled(p, href, since), Members(found))
  }

  lemma ShiftKeepsDistinct(l: seq<EpisodeId>, added: seq<EpisodeId>, dropped: set<EpisodeId>)
    requires Distinct(l) && Distinct(added) && forall id | id in added :: id !in l
    ensures Distinct(Shifted(l, added, dropped))
  {
    var kept, all := Without(l, dropped), Shifted(l, added, dropped);
    DroppingKeepsDistinct(l, dropped);
    WithoutMembers(l, dropped);
    forall i, j | 0 <= i < j < |all| ensures all[i] != all[j] {
      if i < |added| <= j {
        assert all[i] in added && all[j] == kept[j - |added|] && all[j] in Members(kept);
      }
    }
  }

  lemma {:induction false} DroppingKeepsDistinct(l: seq<EpisodeId>, dropped: set<EpisodeId>)
    requires Distinct(l)
    ensures Distinct(Without(l, dropped))
  {
    if l != [] {
      var rest := l[1..];
      assert forall i | 0 <= i < |rest| :: rest[i] == l[i + 1];
      DroppingKeepsDistinct(rest, dropped);
      WithoutMembers(rest, dropped);
      var kept := Without(rest, dropped);
      forall i | 0 <= i < |kept| ensures kept[i] != l[0] { assert kept[i] in Members(kept); }
    }
  }

  lemma {:induction false} NoneLost(l: seq<EpisodeId>, dropped: set<EpisodeId>)
    requires Lost(l, dropped) == 0
    ensures Without(l, dropped) == l
  {
    if l != [] {
      WithoutMembers(l[1..], dropped);
      NoneLost(l[1..], dropped);
    }
  }

  lemma ShiftKeepsStored(w: World, added: seq<EpisodeId>, dropped: set<EpisodeId>, n: int, found: set<EpisodeId>)
    requires New(w, added) && found <= Members(w.listing) && StoredBelow(w, n, found)
    ensures var w' := w.(listing := Shifted(w.listing, added, dropped));
            StoredBelow(w', n - Lost(w.listing, dropped) + |added|, found)
  {
    forall id | id in added ensures id !in w.stored + found { assert id in found ==> id in Members(w.listing); }
    ShiftKeepsBelow(w.listing, n, w.stored + found, w.Known() + found, added, dropped);
  }

  /** What the world does between two steps keeps what a checkpoint holds. */
  lemma ShiftKeepsBased(w: World, stop: set<EpisodeId>, start: Href, added: seq<EpisodeId>, dropped: set<EpisodeId>)
    requires Based(w, stop, start) && New(w, added)
    requires start > 0 ==> w.drift + Lost(w.listing, dropped) <= SPARE
    ensures Based(w.(listing := Shifted(w.listing, added, dropped), drift := w.drift + Lost(w.listing, dropped)),
                  stop, start)
  {
    var w' := w.(listing := Shifted(w.listing, added, dropped), drift := w.drift + Lost(w.listing, dropped));
    ShiftKeepsDistinct(w.listing, added, dropped);
    ShiftKeepsBelow(w.listing, |w.listing|, stop, w.Known(), added, dropped);
    if start > 0 {
      var n := PAGE_SIZE * start + 1 - w.drift;
      ShiftKeepsStored(w, added, dropped, n, {});
      BelowLess(w'.listing, n - Lost(w.listing, dropped) + |added|, n - Lost(w.listing, dropped),
                w.stored + {}, w.Known() + {});
    }
  }

  lemma ObserveSettles(w: World, stop: set<EpisodeId>, v: Visit, start: Href, p: nat, href: Href, since: nat,
                       found: seq<EpisodeId>)
    requires Settling(w, stop, start, p, href, since, found) && New(w, v.added) && v.others == {}
    requires href == 0 || since + Lost(w.listing, v.dropped) <= (if p == 0 then SPARE else 0)
    ensures Settling(Observe(w, v), stop, start, p, href, since + Lost(w.listing, v.dropped), found)
  {
    hide Below, StoredBelow, StopIsRight;
    var w1, lost := Observe(w, v), Lost(w.listing, v.dropped);
    assert w1.stored == w.stored;
    ShiftKeepsBased(w, stop, start, v.added, v.dropped);
    KnowingMoreKeepsBased(w.(listing := w1.listing, drift := w1.drift), w1, stop, start);
    ShiftKeepsStored(w, v.added, v.dropped, Settled(p, href, since), Members(found));
    StillStored(w.(listing := w1.listing), w1, Settled(p, href, since) - lost + |v.added|,
                Settled(p, href, since + lost), Members(found));
    if p > 0 {
      NoneLost(w.listing, v.dropped);
      assert forall id | id in Members(w.listing) :: id in w1.listing;
    } else {
      assert Members(found) == {};
    }
  }

  lemma StillStored(w: World, w': World, n: int, m: int, found: set<EpisodeId>)
    requires StoredBelow(w, n, found) && (m <= n || m == 0)
    requires w'.listing == w.listing && w'.stored == w.stored && w'.failed == w.failed
    ensures StoredBelow(w', m, found)
  {
    hide Below;
    if m == 0 {
      NothingAbove(w.listing, w.stored + found, w.Known() + found);
    } else {
      BelowLess(w.listing, n, m, w.stored + found, w.Known() + found);
    }
  }

  lemma NothingAbove(l: seq<EpisodeId>, some: set<EpisodeId>, known: set<EpisodeId>)
    ensures Below(l, 0, some, known)
  {}

  /** Episodes found on page href are listed there and nowhere above. */
  lemma FoundOnPage(l: seq<EpisodeId>, href: Href, settled: int, some: set<EpisodeId>, known: set<EpisodeId>,
                    more: set<EpisodeId>, known': set<EpisodeId>)
    requires Distinct(l) && Below(l, settled, some, known) && known <= known' && more <= Members(Page(l, href))
    requires settled <= PAGE_SIZE * href + 1
    ensures Below(l, settled, some + more, known')
    ensures PAGE_SIZE * href <= settled && (forall id | id in Page(l, href) :: id in known')
        ==> Below(l, PAGE_SIZE * (href + 1), some + more, known')
  {
    forall i, j | 0 <= i < j < |l| && j < settled && l[i] in some + more ensures l[j] in known' {
      NotOnPage(l, href, i);
    }
    if PAGE_SIZE * href <= settled && forall id | id in Page(l, href) :: id in known' {
      forall i, j | 0 <= i < j < |l| && j < PAGE_SIZE * (href + 1) && l[i] in some + more ensures l[j] in known' {
        if PAGE_SIZE * href <= j {
          assert l[j] == Page(l, href)[j - PAGE_SIZE * href];
        } else {
          NotOnPage(l, href, i);
        }
      }
    }
  }

  lemma NotOnPage(l: seq<EpisodeId>, href: Href, i: nat)
    requires Distinct(l) && i < |l| && i < PAGE_SIZE * href
    ensures l[i] !in Page(l, href)
  {
    forall k | 0 <= k < |Page(l, href)| ensures Page(l, href)[k] != l[i] {
      assert Page(l, href)[k] == l[PAGE_SIZE * href + k];
    }
  }

  lemma KnowingMoreKeepsBased(w: World, w': World, stop: set<EpisodeId>, start: Href)
    requires Based(w, stop, start) && w'.listing == w.listing && w'.drift == w.drift
    requires w.stored == w'.stored && w.Known() <= w'.Known()
    ensures Based(w', stop, start)
  {}

  /** One page of the walk, read. */
  lemma VisitSettles(w: World, skip: set<EpisodeId>, stop: set<EpisodeId>, v: Visit, start: Href, p: nat, href: Href,
                     since: nat, found: seq<EpisodeId>)
    requires Settling(w, stop, start, p, href, since, found) && skip <= w.Known()
    requires New(w, v.added) && v.others == {}
    requires href == 0 || since + Lost(w.listing, v.dropped) <= (if p == 0 then SPARE else 0)
    ensures var end := VisitPage(w, skip, stop, v, href);
            var (since', F) := (since + Lost(w.listing, v.dropped), Members(found));
            && Based(end.w, stop, start) && w.Known() <= end.w.Known() && end.w.progress == w.progress
            && (p == 0 ==> end.w.drift == since')
            && StoredBelow(end.w, Settled(p, href, since'), F)
            && (end.Partial? ==> StoredBelow(end.w, Settled(p, href, since'), Members(found + end.episodes)))
            && (end.More? ==> Settling(end.w, stop, start, p + 1, href + 1, 0, found + end.episodes))
            && (end.Enough? ==> StoredBelow(end.w, |end.w.listing|, Members(found + end.episodes)))
  {
    hide Below, ReadPage, Page, Held, Holds;
    var w1, end := Observe(w, v), VisitPage(w, skip, stop, v, href);
    var (n, F) := (Settled(p, href, since + Lost(w.listing, v.dropped)), Members(found));
    ObserveSettles(w, stop, v, start, p, href, since, found);
    ReadPageKnows(w1, skip, stop, v, href);
    KnowingMoreKeepsBased(w1, end.w, stop, start);
    assert StoredBelow(end.w, n, F) by {
      KnowingMoreKeepsBelow(w1.listing, n, w1.stored + F, w1.Known() + F, end.w.Known() + F);
    }
    if end.Partial? || end.Enough? || end.More? {
      PageFound(w1, skip, stop, v, href);
      var (l, E) := (w1.listing, Members(end.episodes));
      MembersConcat(found, end.episodes);
      var known := end.w.Known() + (F + E);
      FoundOnPage(l, href, n, w1.stored + F, w1.Known() + F, E, known);
      assert w1.stored + F + E == w1.stored + (F + E);
      if end.Enough? { EnoughKnown(end.w, stop, href, w1.stored + (F + E), known); }
    }
  }

  lemma KnowingMoreKeepsBelow(l: seq<EpisodeId>, n: int, some: set<EpisodeId>, known: set<EpisodeId>,
                              known': set<EpisodeId>)
    requires Below(l, n, some, known) && known <= known'
    ensures Below(l, n, some, known')
  {}

  lemma PageFound(w: World, skip: set<EpisodeId>, stop: set<EpisodeId>, v: Visit, href: Href)
    ensures var end := ReadPage(w, skip, stop, v, href);
            end.Partial? || end.Enough? || end.More? ==>
              && Members(end.episodes) <= Members(Page(w.listing, href)) <= Members(w.listing)
              && (end.Enough? ==> Holds(Page(w.listing, href), stop) || !HasNext(w.listing, href))
  {
    var page := Page(w.listing, href);
    SelectMembers(Without(page, skip), v.manifests, Playable);
    WithoutMembers(page, skip);
    forall id | id in Members(Select(Without(page, skip), v.manifests, Playable)) ensures id in page {
      assert id in Members(Without(page, skip));
      assert id in Members(page);
    }
  }

  /** Below a page that holds a boundary episode everything is known; so is it on the last page. */
  lemma EnoughKnown(w: World, stop: set<EpisodeId>, href: Href, some: set<EpisodeId>, known: set<EpisodeId>)
    requires StopIsRight(w, stop) && Below(w.listing, PAGE_SIZE * (href + 1), some, known) && w.Known() <= known
    requires Holds(Page(w.listing, href), stop) || !HasNext(w.listing, href)
    ensures Below(w.listing, |w.listing|, some, known)
  {
    hide Holds, Page;
    if Holds(Page(w.listing, href), stop) { var i := BoundaryAt(w.listing, stop, href); }
  }

  /** What a walk leaves is safe whether its episodes are lost, stored, or
      stored with the checkpoint it proposes. */
  ghost predicate WalkQuiet(end: WalkEnd, stop: set<EpisodeId>, start: Href) {
    && Based(end.w, stop, start) && !end.Vanished?
    && (end.Walked? ==>
         && Held(end.w, start, end.w.drift, Members(end.episodes))
         && (if end.resume.Some? then Held(end.w, end.resume.value, end.since, Members(end.episodes))
             else StoredBelow(end.w, |end.w.listing|, Members(end.episodes))))
  }

  /** A walk that stops after page `previous`, with what it found. */
  lemma StopsSafely(w: World, stop: set<EpisodeId>, start: Href, p: nat, href: Href, since: nat, found: seq<EpisodeId>)
    requires Based(w, stop, start) && StoredBelow(w, Settled(p, href, since), Members(found))
    requires if p == 0 then href == start && since == w.drift else href > start && since == 0
    ensures Held(w, start, w.drift, Members(found))
    ensures Held(w, if p == 0 then href else href - 1, since, Members(found))
  {}

  lemma WholeIsSafe(w: World, stop: set<EpisodeId>, start: Href, found: seq<EpisodeId>)
    requires Based(w, stop, start) && StoredBelow(w, |w.listing|, Members(found))
    ensures Held(w, start, w.drift, Members(found))
  {}

  lemma {:induction false} WalkSettles(w: World, skip: set<EpisodeId>, stop: set<EpisodeId>, pages: seq<Visit>, p: nat,
                                       start: Href, href: Href, previous: Href, since: nat, found: seq<EpisodeId>)
    requires Settling(w, stop, start, p, href, since, found) && skip <= w.Known()
    requires previous == (if p == 0 then href else href - 1) && GentleWalk(w, skip, stop, pages, p, href, since)
    ensures WalkQuiet(WalkFrom(w, skip, stop, pages, p, href, previous, since, found), stop, start)
    ensures WalkFrom(w, skip, stop, pages, p, href, previous, since, found).w.progress == w.progress
    decreases |pages| - p
  {
    hide VisitPage, Below, Held, StoredBelow;
    StopsSafely(w, stop, start, p, href, since, found);
    if p < PAGES_PER_ROUND && p < |pages| {
      var v, end := pages[p], VisitPage(w, skip, stop, pages[p], href);
      var since' := since + Lost(w.listing, v.dropped);
      VisitSettles(w, skip, stop, v, start, p, href, since, found);
      assert p > 0 ==> since' == 0;
      StopsSafely(end.w, stop, start, p, href, since', found);
      match end
      case Partial(_, more) => StopsSafely(end.w, stop, start, p, href, since', found + more);
      case Enough(_, more) => WholeIsSafe(end.w, stop, start, found + more);
      case More(_, more) => WalkSettles(end.w, skip, stop, pages, p + 1, start, href + 1, href, 0, found + more);
      case _ =>
    }
  }

  lemma GentleIsTolerable(w: World, skip: set<EpisodeId>, stop: set<EpisodeId>, pages: seq<Visit>, p: nat, href: Href,
                          since: nat)
    requires GentleWalk(w, skip, stop, pages, p, href, since)
    ensures TolerableWalk(w, skip, stop, pages, p, href, since)
    decreases |pages| - p
  {
    hide VisitPage;
    if p < PAGES_PER_ROUND && p < |pages| {
      var end := VisitPage(w, skip, stop, pages[p], href);
      if end.More? { GentleIsTolerable(end.w, skip, stop, pages, p + 1, href + 1, 0); }
    }
  }

  lemma StoredNow(w: World, w': World, episodes: seq<EpisodeId>)
    requires w'.listing == w.listing && w'.failed == w.failed && w'.stored == w.stored + Members(episodes)
    ensures forall n :: StoredBelow(w, n, Members(episodes)) ==> StoredBelow(w', n, {})
    ensures forall stop :: StopIsRight(w, stop) ==> StopIsRight(w', stop)
  {
    assert w'.stored + {} == w.stored + Members(episodes);
    assert w'.Known() + {} == w.Known() + Members(episodes);
  }

  lemma StartedRoundQuiet(w: World, r: Round)
    requires Quiet(w) && w.progress.Some? && GentleRound(w, r)
    ensures var (w', outcome) := OneRound(w, r);
            Quiet(w') && outcome != FellBack && (outcome == Completed ==> w'.origin <= w'.Known())
  {
    hide WalkFrom, StoredBelow, Refreshed, StopIsRight;
    var (w1, begun) := Begin(w, r);
    if begun {
      var p, skip := w.progress.value, w.stored + (w.failed * r.blocked);
      GentleIsTolerable(w, skip, p.stop, r.pages, 0, p.cursor, w.drift);
      RoundKeeps(w, r);
      BeginsSettling(w, p.stop, p.cursor);
      WalkSettles(w, skip, p.stop, r.pages, 0, p.cursor, p.cursor, p.cursor, w.drift, []);
      var end := WalkFrom(w, skip, p.stop, r.pages, 0, p.cursor, p.cursor, w.drift, []);
      var (w', outcome) := OneRound(w, r);
      if end.Walked? && w'.stored == end.w.stored + Members(end.episodes) { StoredNow(end.w, w', end.episodes); }
      if outcome == Completed { CompletedIsWhole(w', p.stop); }
    }
  }

  lemma BeginsSettling(w: World, stop: set<EpisodeId>, start: Href)
    requires Based(w, stop, start)
    ensures Settling(w, stop, start, 0, start, w.drift, [])
  {
    assert Members([]) == {};
  }

  lemma CompletedIsWhole(w: World, stop: set<EpisodeId>)
    requires Inv(w) && Refreshed(w, stop) && StopIsRight(w, stop)
    ensures w.origin <= w.Known()
  {
    RefreshedIsWhole(w, stop);
  }

  /** The same for a round that begins a refresh. */
  lemma RoundQuiet(w: World, r: Round)
    requires Quiet(w) && GentleRound(w, r)
    ensures var (w', outcome) := OneRound(w, r);
            Quiet(w') && outcome != FellBack && (outcome == Completed ==> w'.origin <= w'.Known())
  {
    hide OneRound, WalkFrom;
    if w.progress.Some? {
      StartedRoundQuiet(w, r);
    } else {
      FirstSave(w, r);
      var (w1, begun) := Begin(w, r);
      if begun {
        assert w1.Known() == w.Known();
        assert Begin(w1, r) == (w1, true);
        StartedRoundQuiet(w1, r);
      }
    }
  }

  /** The listing changing between rounds, and rounds. */
  datatype Event = Moved(added: seq<EpisodeId>, dropped: set<EpisodeId>) | Ran(round: Round)

  function Happen(w: World, e: Event): World {
    match e
    case Moved(added, dropped) =>
      w.(listing := Shifted(w.listing, added, dropped), origin := w.origin - dropped,
         drift := w.drift + Lost(w.listing, dropped))
    case Ran(r) => OneRound(w, r).0
  }

  function HappenAll(w: World, events: seq<Event>): World
    decreases |events|
  {
    if events == [] then w else HappenAll(Happen(w, events[0]), events[1..])
  }

  /** Between rounds too entries may go freely while no checkpoint past the
      first page waits, and SPARE of them while one does. */
  ghost predicate Gentle(w: World, e: Event) {
    match e
    case Moved(added, dropped) =>
      && New(w, added)
      && (w.progress.Some? && w.progress.value.cursor > 0 ==> w.drift + Lost(w.listing, dropped) <= SPARE)
    case Ran(r) => GentleRound(w, r)
  }

  ghost predicate GentleAll(w: World, events: seq<Event>)
    decreases |events|
  {
    events != [] ==> Gentle(w, events[0]) && GentleAll(Happen(w, events[0]), events[1..])
  }

  lemma MovedQuiet(w: World, added: seq<EpisodeId>, dropped: set<EpisodeId>)
    requires Quiet(w) && Gentle(w, Moved(added, dropped))
    ensures Quiet(Happen(w, Moved(added, dropped)))
  {
    hide Below;
    var w', lost := Happen(w, Moved(added, dropped)), Lost(w.listing, dropped);
    ShiftKeepsDistinct(w.listing, added, dropped);
    match w.progress
    case None =>
      ShiftKeeps(w.listing, 0, w.origin, w.Known(), added, dropped);
      ShiftKeepsStored(w, added, dropped, |w.listing|, {});
    case Some(p) =>
      ShiftKeeps(w.listing, PAGE_SIZE * (p.cursor + 1) - w.drift, w.origin, w.Known(), added, dropped);
      ShiftKeepsBased(w, p.stop, p.cursor, added, dropped);
  }

  lemma {:induction false} AlwaysQuiet(w: World, events: seq<Event>)
    requires Quiet(w) && GentleAll(w, events)
    ensures Quiet(HappenAll(w, events))
    decreases |events|
  {
    hide Quiet, OneRound, New, GentleRound;
    if events != [] {
      match events[0] {
        case Moved(added, dropped) => MovedQuiet(w, added, dropped);
        case Ran(r) => RoundQuiet(w, r);
      }
      AlwaysQuiet(Happen(w, events[0]), events[1..]);
    }
  }

  /** Refresh after refresh, with failed pages, transient manifests, failed
      writes, early stops and crashes anywhere, of a listing that gains new
      episodes at any time, and loses any number while no checkpoint past the
      first page waits and at most one while one does: if at the start nothing
      unknown is listed below a stored episode, that is so again whenever no
      refresh is under way, and every refresh that completes has all that was
      listed at its first save and never dropped since, wherever it stopped. */
  lemma EveryRefreshIsWhole(w: World, events: seq<Event>, last: Round)
    requires w.progress.None? && w.origin <= Members(w.listing) && Distinct(w.listing)
    requires Below(w.listing, |w.listing|, w.stored, w.Known())
    requires GentleAll(w, events) && GentleRound(HappenAll(w, events), last)
    ensures var z := HappenAll(w, events);
            var (after, outcome) := OneRound(z, last);
            && (z.progress.None? ==> Below(z.listing, |z.listing|, z.stored, z.Known()))
            && (outcome == Completed ==>
                  && after.progress.None?
                  && (forall id | id in after.origin :: id in after.stored || id in after.failed)
                  && Below(after.listing, |after.listing|, after.stored, after.Known()))
  {
    hide OneRound, HappenAll, GentleRound;
    assert w.stored + {} == w.stored && w.Known() + {} == w.Known();
    AlwaysQuiet(w, events);
    var z := HappenAll(w, events);
    RoundQuiet(z, last);
    var (after, outcome) := OneRound(z, last);
    assert z.stored + {} == z.stored && z.Known() + {} == z.Known();
    assert after.stored + {} == after.stored && after.Known() + {} == after.Known();
    if outcome == Completed { CompletedIsIdle(z, last); }
  }

  lemma CompletedIsIdle(w: World, r: Round)
    ensures OneRound(w, r).1 == Completed ==> OneRound(w, r).0.progress.None?
  {
    hide WalkFrom, Begin;
  }

  // ---------- one entry is all that may go ----------

  function Quietly(manifests: Manifests, added: seq<EpisodeId>, dropped: set<EpisodeId>): Visit {
    Visit(added, dropped, {}, Listed, manifests, None)
  }

  function Plain(newestFirst: seq<EpisodeId>, pages: seq<Visit>): Round {
    Round(newestFirst, false, true, {}, pages, true, Never)
  }

  const FINE: Visit := Quietly(_ => Playable, [], {})

  /** A page on which everything can be looked up. */
  lemma PlayablePage(w: World, skip: set<EpisodeId>, stop: set<EpisodeId>, v: Visit, href: Href, l: seq<EpisodeId>)
    requires v == Quietly(v.manifests, [], v.dropped) && (forall id :: v.manifests(id) == Playable)
    requires Without(w.listing, v.dropped) == l
    ensures var w' := w.(listing := l, origin := w.origin - v.dropped, drift := w.drift + Lost(w.listing, v.dropped));
            var found := Without(Page(l, href), skip);
            VisitPage(w, skip, stop, v, href)
            == if Holds(Page(l, href), stop) || !HasNext(l, href) then Enough(w', found) else More(w', found)
  {
    hide Page, Holds, Without, Lost;
    AllPlayable(Without(Page(l, href), skip), v.manifests);
    assert [] + l == l && w.stored + {} == w.stored && w.failed + Members([]) == w.failed;
  }

  /** The first episode of a page is found; the others are transient. */
  lemma FirstFound(w: World, skip: set<EpisodeId>, stop: set<EpisodeId>, v: Visit, href: Href, id: EpisodeId)
    requires v == Quietly(x => if x == id then Playable else Transient, v.added, {})
    requires var page := Page(v.added + w.listing, href);
             |page| > 1 && page[0] == id && (forall x | x in page[1..] :: x != id) && forall x | x in page :: x !in skip
    ensures VisitPage(w, skip, stop, v, href) == Partial(w.(listing := v.added + w.listing), [id])
  {
    hide Page, HasNext, Without, Select, Lost;
    var page := Page(v.added + w.listing, href);
    WithoutNothing(w.listing);
    assert Lost(w.listing, {}) == 0 by { NothingLost(w.listing); }
    WithoutStrangers(page, skip);
    OneSelected(page, v.manifests, id);
    assert w.origin - {} == w.origin && w.stored + {} == w.stored && w.failed + Members([]) == w.failed;
  }

  lemma OneSelected(page: seq<EpisodeId>, manifests: Manifests, id: EpisodeId)
    requires forall x :: manifests(x) == if x == id then Playable else Transient
    requires |page| > 1 && page[0] == id && forall x | x in page[1..] :: x != id
    ensures Select(page, manifests, Playable) == [id] && Select(page, manifests, Gone) == []
    ensures Select(page, manifests, Transient) != []
  {
    assert forall i | 0 <= i < |page[1..]| :: page[1..][i] in page[1..];
    OthersTransient(page[1..], manifests, id);
  }

  lemma {:induction false} OthersTransient(ids: seq<EpisodeId>, manifests: Manifests, id: EpisodeId)
    requires forall x :: manifests(x) == if x == id then Playable else Transient
    requires forall i | 0 <= i < |ids| :: ids[i] != id
    ensures Select(ids, manifests, Playable) == [] == Select(ids, manifests, Gone)
    ensures Select(ids, manifests, Transient) == ids
  {
    if ids != [] {
      OthersTransient(ids[1..], manifests, id);
    }
  }

  lemma NothingLost(l: seq<EpisodeId>)
    ensures Lost(l, {}) == 0
  {
    WithoutNothing(l);
  }

  lemma PageOf(l: seq<EpisodeId>, k: nat)
    requires PAGE_SIZE * (k + 1) <= |l|
    ensures Page(l, k) == l[PAGE_SIZE * k..PAGE_SIZE * (k + 1)]
  {}

  /** No refresh is under way; the last of 101 episodes is the one stored. */
  function Idle(all: seq<EpisodeId>): World
    requires |all| == 201
  {
    World(all[100..], Members(all[100..]), 0, {all[200]}, {}, None)
  }

  /** Two pages are read, the third does not answer. */
  function Start(all: seq<EpisodeId>): Round
    requires |all| == 201
  {
    Plain([all[200]], [FINE, FINE, FINE.(answer := Failed)])
  }

  /** Everything listed is stored, and page 1 is the checkpoint. */
  function Underway(all: seq<EpisodeId>): World
    requires |all| == 201
  {
    var listed := Members(all[100..]);
    World(all[100..], listed, 0, listed, {}, Some(Progress(1, {all[200]})))
  }

  /** A hundred episodes appear, and of those now on page 1 only the first can be looked up. */
  function Appear(all: seq<EpisodeId>): Round
    requires |all| == 201
  {
    Plain([], [Quietly(x => if x == all[50] then Playable else Transient, all[..100], {})])
  }

  function Found(all: seq<EpisodeId>): World
    requires |all| == 201
  {
    Underway(all).(listing := all, stored := Members(all[100..]) + {all[50]})
  }

  /** Then the top two are dropped, and all else goes well. */
  function Disappear(all: seq<EpisodeId>): Round
    requires |all| == 201
  {
    Plain([], [Quietly(_ => Playable, [], Members(all[..2])), FINE, FINE])
  }

  lemma StartPauses(all: seq<EpisodeId>)
    requires all == Numbered(201)
    ensures OneRound(Idle(all), Start(all)) == (Underway(all), Deferred) && GentleRound(Idle(all), Start(all))
  {
    hide Page, HasNext, VisitPage, Numbered, Holds, Lost, Without;
    var (w, r, stop, l) := (Idle(all), Start(all), {all[200]}, all[100..]);
    var (w1, begun) := Begin(w, r);
    assert OnlyIn([all[200]], {all[200]}) == [all[200]] && Members([all[200]]) == stop by { NewestOnly(all[200]); }
    assert begun && w1 == Underway(all).(stored := {all[200]}, progress := Some(Progress(0, stop)));
    var skip, pages := w.stored + (w.failed * r.blocked), r.pages;
    assert skip == stop;
    WithoutNothing(l);
    NothingLost(l);
    assert w1.origin - {} == w1.origin;
    PlayablePage(w1, skip, stop, FINE, 0, l);
    PlayablePage(w1, skip, stop, FINE, 1, l);
    FirstPages(all);
    var (a, b) := (l[..50], l[50..100]);
    assert VisitPage(w1, skip, stop, pages[2], 2) == Unanswered(w1) by { AloneVisit(w1, skip, stop, pages[2], 2); }
    Unroll(w1, skip, stop, pages, 0, 0, 0, 0, [], More(w1, a));
    Unroll(w1, skip, stop, pages, 1, 1, 0, 0, a, More(w1, b));
    Unroll(w1, skip, stop, pages, 2, 2, 1, 0, a + b, Unanswered(w1));
    assert [] + a == a;
    assert WalkFrom(w1, skip, stop, pages, 0, 0, 0, 0, []) == Walked(w1, a + b, Some(1), 0);
    assert w1.stored + Members(a + b) == Members(l) by { assert l == a + b + [all[200]]; }
    assert New(w1, []);
    assert GentleWalk(w1, skip, stop, pages, 2, 2, 0);
    assert GentleWalk(w1, skip, stop, pages, 1, 1, 0);
  }

  lemma NewestOnly(id: EpisodeId)
    ensures OnlyIn([id], {id}) == [id] && Boundary([id], {id}) == {id}
  {
    assert [id][1..] == [];
  }

  lemma FirstPage(all: seq<EpisodeId>, href: Href)
    requires all == Numbered(201) && href < 2
    ensures var (l, stop) := (all[100..], {all[200]});
            && Without(Page(l, href), stop) == l[PAGE_SIZE * href..PAGE_SIZE * (href + 1)]
            && !Holds(Page(l, href), stop) && HasNext(l, href)
  {
    var (l, stop) := (all[100..], {all[200]});
    PageLengths(l, 100, href);
    assert |all[200]| == 200;
    PageOf(l, href);
    hide Page, Numbered;
    WithoutStrangers(Page(l, href), stop);
  }

  lemma FirstPages(all: seq<EpisodeId>)
    requires all == Numbered(201)
    ensures var (l, stop) := (all[100..], {all[200]});
            && Without(Page(l, 0), stop) == l[..50] && Without(Page(l, 1), stop) == l[50..100]
            && !Holds(Page(l, 0), stop) && !Holds(Page(l, 1), stop) && HasNext(l, 0) && HasNext(l, 1)
  {
    FirstPage(all, 0);
    FirstPage(all, 1);
  }

  lemma AppearFinds(all: seq<EpisodeId>)
    requires all == Numbered(201)
    ensures OneRound(Underway(all), Appear(all)) == (Found(all), Deferred)
    ensures GentleRound(Underway(all), Appear(all))
  {
    hide Page, HasNext, VisitPage, Numbered, Lost;
    var w, r := Underway(all), Appear(all);
    var (v, skip, stop) := (r.pages[0], w.stored + (w.failed * r.blocked), {all[200]});
    assert v.added + w.listing == all;
    assert skip == w.stored;
    FiftiethOnPage(all);
    FirstFound(w, skip, stop, v, 1, all[50]);
    NothingLost(w.listing);
    Unroll(w, skip, stop, r.pages, 0, 1, 1, 0, [], VisitPage(w, skip, stop, v, 1));
    assert Members([all[50]]) == {all[50]} && [] + [all[50]] == [all[50]];
    AllNew(all);
  }

  lemma FiftiethOnPage(all: seq<EpisodeId>)
    requires all == Numbered(201)
    ensures var page := Page(all, 1);
            && |page| > 1 && page[0] == all[50] && (forall x | x in page[1..] :: x != all[50])
            && forall x | x in page :: x !in Members(all[100..])
  {
    PageOf(all, 1);
    var page := Page(all, 1);
    assert forall i | 0 <= i < 49 :: page[1..][i] == all[51 + i];
    PageLengths(all, 0, 1);
    assert forall x | x in Members(all[100..]) :: |x| >= 100;
  }

  lemma AllNew(all: seq<EpisodeId>)
    requires all == Numbered(201)
    ensures New(Underway(all), all[..100])
  {
    assert forall i, j | 0 <= i < j < 100 :: |all[..100][i]| != |all[..100][j]|;
    assert forall x | x in all[..100] :: |x| < 100;
    assert forall x | x in Members(all[100..]) :: |x| >= 100;
    assert forall x | x in all[100..] :: x in Members(all[100..]);
  }

  lemma DisappearCompletes(all: seq<EpisodeId>)
    requires all == Numbered(201)
    ensures var (w', outcome) := OneRound(Found(all), Disappear(all));
            && outcome == Completed && w'.listing == all[2..] && w'.failed == {}
            && all[50] in w'.stored && all[51] !in w'.stored
    ensures TolerableRound(Found(all), Disappear(all)) && Lost(all, Members(all[..2])) == 2
  {
    hide Page, HasNext, VisitPage, Numbered, Holds, StopFrom, Lost, Without;
    var (w, r, stop, l) := (Found(all), Disappear(all), {all[200]}, all[2..]);
    var skip, pages := w.stored + (w.failed * r.blocked), r.pages;
    assert skip == w.stored;
    TwoGone(all);
    var w1 := w.(listing := l, origin := w.origin - Members(all[..2]), drift := 2);
    WithoutNothing(l);
    NothingLost(l);
    assert w1.origin - {} == w1.origin;
    PlayablePage(w, skip, stop, pages[0], 1, l);
    PlayablePage(w1, skip, stop, FINE, 2, l);
    PlayablePage(w1, skip, stop, FINE, 3, l);
    var (a, b, c) := (Without(Page(l, 1), skip), Without(Page(l, 2), skip), Without(Page(l, 3), skip));
    Unroll(w, skip, stop, pages, 0, 1, 1, 0, [], More(w1, a));
    Unroll(w1, skip, stop, pages, 1, 2, 1, 0, a, More(w1, b));
    Unroll(w1, skip, stop, pages, 2, 3, 2, 0, a + b, Enough(w1, c));
    assert [] + a == a;
    assert WalkFrom(w, skip, stop, pages, 0, 1, 1, 0, []) == Walked(w1, a + b + c, None, 0);
    LeftOut(all, skip);
    assert TolerableWalk(w1, skip, stop, pages, 2, 3, 0);
    assert TolerableWalk(w1, skip, stop, pages, 1, 2, 0);
  }

  lemma TwoGone(all: seq<EpisodeId>)
    requires all == Numbered(201)
    ensures var (l, stop) := (all[2..], {all[200]});
            && Without(all, Members(all[..2])) == l && Lost(all, Members(all[..2])) == 2
            && !Holds(Page(l, 1), stop) && !Holds(Page(l, 2), stop)
            && HasNext(l, 1) && HasNext(l, 2) && !HasNext(l, 3)
  {
    var l := all[2..];
    assert forall id | id in Members(all[..2]) :: |id| < 2;
    WithoutHead(all, 2, Members(all[..2]));
    PageLengths(l, 2, 1);
    PageLengths(l, 2, 2);
    assert |all[200]| == 200;
    hide Page, Numbered, Without;
  }

  /** The episode just above page 1 is looked up on no page. */
  lemma LeftOut(all: seq<EpisodeId>, skip: set<EpisodeId>)
    requires all == Numbered(201)
    ensures var l := all[2..];
            all[51] !in Found(all).stored + Members(Without(Page(l, 1), skip) + Without(Page(l, 2), skip)
                                                    + Without(Page(l, 3), skip))
  {
    var l := all[2..];
    assert |all[51]| == 51 && |all[50]| == 50 && forall x | x in Members(all[100..]) :: |x| >= 100;
    hide Numbered, Page, Without;
    NotBelow(all, 1, skip);
    NotBelow(all, 2, skip);
    NotBelow(all, 3, skip);
  }

  lemma NotBelow(all: seq<EpisodeId>, k: nat, skip: set<EpisodeId>)
    requires all == Numbered(201) && k >= 1
    ensures all[51] !in Without(Page(all[2..], k), skip)
  {
    PageLengths(all[2..], 2, k);
    var page := Page(all[2..], k);
    WithoutMembers(page, skip);
    assert |all[51]| == 51;
    hide Numbered, Page, Without;
    assert forall x | x in Without(page, skip) :: x in Members(Without(page, skip));
  }

  /** SPARE is exact. Two entries dropped while a checkpoint waits, well within
      the page of overlap, are too many: the refresh has stored the first of
      the episodes that appeared on the checkpoint's page, the drop lifts the
      one below it above the page, and the refresh completes with that one
      unknown below a stored one, where the next refresh may stop. It all
      begins with no refresh under way and a single stored episode. */
  lemma TwoDropsUnsettle() returns (w: World, rounds: seq<Round>)
    ensures |rounds| == 3 && w.progress.None? && Quiet(w) && GentleAll(w, [Ran(rounds[0]), Ran(rounds[1])])
    ensures var w2 := HappenAll(w, [Ran(rounds[0]), Ran(rounds[1])]);
            var (w3, outcome) := OneRound(w2, rounds[2]);
            && TolerableRound(w2, rounds[2]) && |rounds[2].pages| == 3
            && Lost(w2.listing, rounds[2].pages[0].dropped) == SPARE + 1
            && rounds[2].pages[1].dropped == {} == rounds[2].pages[2].dropped
            && outcome == Completed && !Below(w3.listing, |w3.listing|, w3.stored, w3.Known())
  {
    var all := Numbered(201);
    w, rounds := Idle(all), [Start(all), Appear(all), Disappear(all)];
    IdleIsQuiet(all);
    StartPauses(all);
    AppearFinds(all);
    DisappearCompletes(all);
    Unsettled(all, OneRound(Found(all), Disappear(all)).0);
    hide OneRound, Numbered, TolerableRound, GentleRound, Lost, Quiet, Below, Found, Underway;
    TwoEvents(w, Ran(rounds[0]), Ran(rounds[1]));
  }

  lemma Unsettled(all: seq<EpisodeId>, w: World)
    requires |all| == 201 && w.listing == all[2..] && w.failed == {} && all[50] in w.stored && all[51] !in w.stored
    ensures !Below(w.listing, |w.listing|, w.stored, w.Known())
  {
    assert w.listing[48] == all[50] && w.listing[49] == all[51];
  }

  lemma TwoEvents(w: World, e: Event, e': Event)
    ensures HappenAll(w, [e, e']) == Happen(Happen(w, e), e')
    ensures Gentle(w, e) && Gentle(Happen(w, e), e') ==> GentleAll(w, [e, e'])
  {
    hide Happen, Gentle;
    var w1 := Happen(w, e);
    assert [e, e'][1..] == [e'] && [e'][1..] == [];
    assert HappenAll(w1, [e']) == HappenAll(Happen(w1, e'), []);
    assert GentleAll(Happen(w1, e'), []);
    assert Gentle(w1, e') ==> GentleAll(w1, [e']);
  }

  lemma IdleIsQuiet(all: seq<EpisodeId>)
    requires all == Numbered(201)
    ensures Quiet(Idle(all))
  {
    var l := all[100..];
    assert l[100] == all[200];
    assert forall i, j | 0 <= i < j < |l| :: |l[i]| != |l[j]|;
  }
}
