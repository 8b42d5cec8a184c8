/** Resolving the playback manifests of a page's episodes
    (filterSkipped and collect in internal/nrk/nrk.go). */
module EpisodeLookups {
  import opened Listing
  import opened Names
  import opened Wrappers

  /** What NRK answers for one episode's manifest. */
  datatype Media = Playable | Gone | Transient

  type Manifests = EpisodeId -> Media

  /** The episodes NRK answered with the given kind, in listing order. */
  function Select(ids: seq<EpisodeId>, manifests: Manifests, kind: Media): seq<EpisodeId> {
    if ids == [] then []
    else (if manifests(ids[0]) == kind then [ids[0]] else []) + Select(ids[1..], manifests, kind)
  }

  lemma {:induction false} SelectAppend(ids: seq<EpisodeId>, id: EpisodeId, manifests: Manifests, kind: Media)
    ensures Select(ids + [id], manifests, kind)
         == Select(ids, manifests, kind) + (if manifests(id) == kind then [id] else [])
  {
    if ids == [] {
      assert ids + [id] == [id];
    } else {
      assert (ids + [id])[1..] == ids[1..] + [id];
      SelectAppend(ids[1..], id, manifests, kind);
    }
  }

  /** Every episode is playable, gone or transient, and nothing else is. */
  lemma {:induction false} SelectMembers(ids: seq<EpisodeId>, manifests: Manifests, kind: Media)
    ensures forall id :: id in Select(ids, manifests, kind) <==> id in ids && manifests(id) == kind
  {
    if ids != [] {
      SelectMembers(ids[1..], manifests, kind);
      assert ids == [ids[0]] + ids[1..];
    }
  }

  lemma SomeSelected(ids: seq<EpisodeId>, manifests: Manifests, kind: Media)
    ensures Select(ids, manifests, kind) == [] <==> forall id | id in ids :: manifests(id) != kind
  {
    SelectMembers(ids, manifests, kind);
    if Select(ids, manifests, kind) != [] { assert Select(ids, manifests, kind)[0] in Select(ids, manifests, kind); }
  }

  lemma {:induction false} WithoutAppend(ids: seq<EpisodeId>, id: EpisodeId, skip: set<EpisodeId>)
    ensures Without(ids + [id], skip) == Without(ids, skip) + (if id in skip then [] else [id])
  {
    if ids == [] {
      assert ids + [id] == [id];
    } else {
      assert (ids + [id])[1..] == ids[1..] + [id];
      WithoutAppend(ids[1..], id, skip);
    }
  }

  /** The episodes that still need a lookup. */
  method FilterSkipped(candidates: seq<EpisodeId>, skip: set<EpisodeId>) returns (out: seq<EpisodeId>)
    ensures out == Without(candidates, skip)
    ensures forall id :: id in out <==> id in candidates && id !in skip
  {
    out := [];
    for i := 0 to |candidates|
      invariant out == Without(candidates[..i], skip)
    {
      assert candidates[..i + 1] == candidates[..i] + [candidates[i]];
      WithoutAppend(candidates[..i], candidates[i], skip);
      if candidates[i] !in skip {
        out := out + [candidates[i]];
      }
    }
    assert candidates[..|candidates|] == candidates;
    WithoutMembers(candidates, skip);
    assert forall id :: id in out <==> id in Members(out);
    assert forall id :: id in candidates <==> id in Members(candidates);
  }

  /** Sorts a page's lookups by their answers; of the transient ones only the
      number survives. */
  method Collect(candidates: seq<EpisodeId>, manifests: Manifests)
    returns (episodes: seq<EpisodeId>, gone: seq<EpisodeId>, transient: nat)
    ensures episodes == Select(candidates, manifests, Playable)
    ensures gone == Select(candidates, manifests, Gone)
    ensures transient == |Select(candidates, manifests, Transient)|
  {
    episodes, gone, transient := [], [], 0;
    for i := 0 to |candidates|
      invariant episodes == Select(candidates[..i], manifests, Playable)
      invariant gone == Select(candidates[..i], manifests, Gone)
      invariant transient == |Select(candidates[..i], manifests, Transient)|
    {
      var id := candidates[i];
      assert candidates[..i + 1] == candidates[..i] + [id];
      SelectAppend(candidates[..i], id, manifests, Playable);
      SelectAppend(candidates[..i], id, manifests, Gone);
      SelectAppend(candidates[..i], id, manifests, Transient);
      match manifests(id)
      case Gone => gone := gone + [id];
      case Transient => transient := transient + 1;
      case Playable => episodes := episodes + [id];
    }
    assert candidates[..|candidates|] == candidates;
  }

  /** How many of n failures are recorded by a process that dies after some
      number of durable writes, if it dies. */
  function Recorded(lifetime: Option<nat>, n: nat): nat {
    if lifetime.None? then n else Min(n, lifetime.value)
  }

  /** Records failures one durable write at a time. */
  method RecordFailures(gone: seq<EpisodeId>, failed: set<EpisodeId>, lifetime: Option<nat>)
    returns (recorded: set<EpisodeId>, alive: bool)
    ensures recorded == failed + Members(gone[..Recorded(lifetime, |gone|)])
    ensures alive <==> Recorded(lifetime, |gone|) == |gone|
  {
    recorded := failed;
    for i := 0 to |gone|
      invariant i <= Recorded(lifetime, |gone|)
      invariant recorded == failed + Members(gone[..i])
    {
      if lifetime.Some? && i >= lifetime.value {
        return recorded, false;
      }
      assert gone[..i + 1] == gone[..i] + [gone[i]];
      recorded := recorded + {gone[i]};
    }
    return recorded, true;
  }

  /** With no transient answer, everything looked up ends up stored or
      recorded as failed. */
  lemma LookedUp(page: seq<EpisodeId>, skip: set<EpisodeId>, manifests: Manifests)
    requires Select(Without(page, skip), manifests, Transient) == []
    ensures forall id :: id in page ==>
      || id in skip
      || id in Select(Without(page, skip), manifests, Playable)
      || id in Select(Without(page, skip), manifests, Gone)
  {}

  lemma {:induction false} NoTransients(page: seq<EpisodeId>, skip: set<EpisodeId>, manifests: Manifests)
    requires forall id | id in page :: manifests(id) != Transient
    ensures Select(Without(page, skip), manifests, Transient) == []
  {
    if page != [] {
      assert page[0] in page;
      NoTransients(page[1..], skip, manifests);
    }
  }

  lemma {:induction false} AllPlayable(ids: seq<EpisodeId>, manifests: Manifests)
    requires forall id :: manifests(id) == Playable
    ensures Select(ids, manifests, Playable) == ids
    ensures Select(ids, manifests, Gone) == [] == Select(ids, manifests, Transient)
  {
    if ids != [] { AllPlayable(ids[1..], manifests); }
  }
}
