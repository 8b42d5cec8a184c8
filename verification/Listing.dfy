/** NRK's newest-first episode listing, cut into pages, and what one page of
    overlap is worth when the listing shifts between two visits. */
module Listing {
  import opened Names
  import opened Wrappers

  type EpisodeId = string

  // internal/nrk/nrk.go: pageSize=50 in every listing href
  const PAGE_SIZE := 50

  function Min(a: nat, b: nat): nat { if a < b then a else b }

  /** The episodes on the page with 0-based index k; a page past the end is empty. */
  function Page(listing: seq<EpisodeId>, k: nat): seq<EpisodeId> {
    listing[Min(PAGE_SIZE * k, |listing|)..Min(PAGE_SIZE * k + PAGE_SIZE, |listing|)]
  }

  /** Page k carries a link to the next page. */
  predicate HasNext(listing: seq<EpisodeId>, k: nat) {
    PAGE_SIZE * (k + 1) < |listing|
  }

  /** The index of the last page; an empty listing still has page 0. */
  function LastPage(listing: seq<EpisodeId>): nat {
    if |listing| == 0 then 0 else (|listing| - 1) / PAGE_SIZE
  }

  /** The listing after NRK drops the given episodes. */
  function Without(listing: seq<EpisodeId>, dropped: set<EpisodeId>): seq<EpisodeId> {
    if listing == [] then []
    else if listing[0] in dropped then Without(listing[1..], dropped)
    else [listing[0]] + Without(listing[1..], dropped)
  }

  lemma {:induction false} WithoutMembers(listing: seq<EpisodeId>, dropped: set<EpisodeId>)
    ensures Members(Without(listing, dropped)) == Members(listing) - dropped
    ensures |Without(listing, dropped)| <= |listing|
  {
    if listing != [] {
      var rest := listing[1..];
      WithoutMembers(rest, dropped);
      assert listing == [listing[0]] + rest;
      assert Members(listing) == {listing[0]} + Members(rest);
      if listing[0] !in dropped {
        assert Members(Without(listing, dropped)) == {listing[0]} + Members(Without(rest, dropped));
      }
    }
  }

  lemma {:induction false} WithoutNothing(l: seq<EpisodeId>)
    ensures Without(l, {}) == l
  {
    if l != [] { WithoutNothing(l[1..]); }
  }

  /** Every episode of origin among the first n positions is already known. */
  ghost predicate PrefixKnown(listing: seq<EpisodeId>, n: int, origin: set<EpisodeId>, known: set<EpisodeId>) {
    forall i | 0 <= i < |listing| && i < n && listing[i] in origin :: listing[i] in known
  }

  /** Dropping d entries moves every survivor up by at most d positions, so
      the known prefix shrinks by at most d. */
  lemma {:induction false} DroppingShrinks(listing: seq<EpisodeId>, n: int, origin: set<EpisodeId>,
                                           known: set<EpisodeId>, dropped: set<EpisodeId>)
    requires PrefixKnown(listing, n, origin, known)
    ensures PrefixKnown(Without(listing, dropped), n - (|listing| - |Without(listing, dropped)|),
                        origin - dropped, known)
  {
    if listing != [] {
      var rest := listing[1..];
      forall i | 0 <= i < |rest| && i < n - 1 && rest[i] in origin ensures rest[i] in known {
        assert rest[i] == listing[i + 1];
      }
      DroppingShrinks(rest, n - 1, origin, known, dropped);
      WithoutMembers(rest, dropped);
    }
  }

  /** The listing after NRK drops some episodes and puts new ones on top. */
  function Shifted(listing: seq<EpisodeId>, added: seq<EpisodeId>, dropped: set<EpisodeId>): seq<EpisodeId> {
    added + Without(listing, dropped)
  }

  /** How many entries the drop took off. */
  function Lost(listing: seq<EpisodeId>, dropped: set<EpisodeId>): nat {
    WithoutMembers(listing, dropped);
    |listing| - |Without(listing, dropped)|
  }

  /** A shift costs a known prefix at most the number of entries dropped: new
      episodes on top only push the old ones down. */
  lemma ShiftKeeps(listing: seq<EpisodeId>, n: int, origin: set<EpisodeId>, known: set<EpisodeId>,
                   added: seq<EpisodeId>, dropped: set<EpisodeId>)
    requires origin <= Members(listing)
    requires forall id | id in added :: id !in listing
    ensures origin - dropped <= Members(Shifted(listing, added, dropped))
    ensures PrefixKnown(listing, n, origin, known)
        ==> PrefixKnown(Shifted(listing, added, dropped), n - Lost(listing, dropped), origin - dropped, known)
  {
    var kept, l := Without(listing, dropped), Shifted(listing, added, dropped);
    WithoutMembers(listing, dropped);
    assert l[|added|..] == kept;
    forall id | id in origin - dropped ensures id in Members(l) {
      assert id in Members(kept);
    }
    assert forall j | 0 <= j < |added| :: l[j] !in Members(listing);
    if PrefixKnown(listing, n, origin, known) {
      DroppingShrinks(listing, n, origin, known, dropped);
      var n' := n - Lost(listing, dropped);
      forall i | 0 <= i < |l| && i < n' && l[i] in origin - dropped ensures l[i] in known {
        assert l[i] == kept[i - |added|];
      }
    }
  }

  /** Knowing the pages before k and page k itself is knowing the pages before k + 1. */
  lemma PageExtends(listing: seq<EpisodeId>, k: nat, origin: set<EpisodeId>, known: set<EpisodeId>)
    requires PrefixKnown(listing, PAGE_SIZE * k, origin, known)
    requires forall id | id in Page(listing, k) :: id in known
    ensures PrefixKnown(listing, PAGE_SIZE * (k + 1), origin, known)
  {}

  lemma LastPageIsLast(listing: seq<EpisodeId>, k: nat)
    ensures HasNext(listing, k) <==> k < LastPage(listing)
    ensures k <= LastPage(listing) && 0 < k ==> Page(listing, k) != []
  {}

  /** A known prefix of n + 1 pages, page by page. */
  lemma PagesKnown(listing: seq<EpisodeId>, n: nat, origin: set<EpisodeId>, known: set<EpisodeId>)
    requires PrefixKnown(listing, PAGE_SIZE * (n + 1), origin, known)
    ensures forall k: nat, id | k <= n && id in Page(listing, k) && id in origin :: id in known
  {}

  // ---------- listings for examples ----------

  /** n different ids: the i-th has length i. */
  function Numbered(n: nat): (ids: seq<EpisodeId>)
    ensures |ids| == n && forall i | 0 <= i < n :: |ids[i]| == i
  {
    seq(n, i requires 0 <= i => seq(i, _ => 'e'))
  }

  lemma {:induction false} WithoutStrangers(l: seq<EpisodeId>, dropped: set<EpisodeId>)
    requires forall id | id in l :: id !in dropped
    ensures Without(l, dropped) == l
  {
    if l != [] {
      assert l[0] in l;
      WithoutStrangers(l[1..], dropped);
    }
  }

  lemma {:induction false} WithoutHead(l: seq<EpisodeId>, n: nat, dropped: set<EpisodeId>)
    requires n <= |l|
    requires forall i | 0 <= i < n :: l[i] in dropped
    requires forall i | n <= i < |l| :: l[i] !in dropped
    ensures Without(l, dropped) == l[n..]
  {
    if n == 0 {
      WithoutStrangers(l, dropped);
    } else {
      WithoutHead(l[1..], n - 1, dropped);
    }
  }

  /** Which numbered ids a page holds. */
  lemma PageLengths(l: seq<EpisodeId>, first: nat, href: nat)
    requires forall i | 0 <= i < |l| :: |l[i]| == first + i
    ensures forall id | id in Page(l, href) ::
              first + PAGE_SIZE * href <= |id| < first + PAGE_SIZE * (href + 1)
  {}

  lemma PageNotEmpty(l: seq<EpisodeId>, href: nat)
    requires PAGE_SIZE * href < |l|
    ensures Page(l, href) != []
  {}
}
