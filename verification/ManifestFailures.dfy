/** How one manifest lookup is judged, and when an episode without answers
    stops delaying its page (episodeWithDownloadLink, manifestFailed
    and manifestSucceeded in internal/nrk/nrk.go). */
module ManifestFailures {
  import opened Listing
  import opened EpisodeLookups

  const MAX_FAILURES: nat := 5
  const MAX_TRACKED: nat := 10_000

  /** A request held back by a retry deadline is not sent; status 0 is a
      network error, and `playable` says a usable asset came with it. */
  datatype Answer = Held | Reply(status: int, playable: bool)

  datatype Lookup = Lookup(id: EpisodeId, answer: Answer)

  /** Consecutive transient failures by episode. */
  type Failures = map<EpisodeId, nat>

  predicate Definitive(status: int) { status == 200 || (400 <= status < 500 && status != 408 && status != 429) }

  /** The verdict that counts a failure: has the episode failed too often? */
  function Failed(f: Failures, id: EpisodeId): (Failures, bool) {
    var room := if |f| >= MAX_TRACKED then map[] else f;
    var n := 1 + if id in room then room[id] else 0;
    if n >= MAX_FAILURES then (room - {id}, true) else (room[id := n], false)
  }

  /** One lookup with nothing in between. */
  function Resolve(f: Failures, l: Lookup): (Failures, Media) {
    match l.answer
    case Held => (f, Transient)
    case Reply(status, playable) =>
      if status == 200 && playable then (f - {l.id}, Playable)
      else if Definitive(status) then (f - {l.id}, Gone)
      else
        var (f', tooOften) := Failed(f, l.id);
        if tooOften then (f' - {l.id}, Gone) else (f', Transient)
  }

  predicate Unanswered(l: Lookup) { l.answer.Reply? && !Definitive(l.answer.status) }

  // ---------- the verdict by status ----------

  /** No connection, redirects, a timeout, rate limiting and server errors decide nothing. */
  predicate Undecided(status: int) {
    status < 200 || 200 < status < 400 || status == 408 || status == 429 || 500 <= status
  }

  /** Each status and its verdict, for an episode without failures so far. */
  lemma VerdictByStatus(f: Failures, l: Lookup)
    requires l.id !in f
    ensures var (f', media) := Resolve(f, l);
            match l.answer
            case Held => media == Transient && f' == f
            case Reply(status, playable) =>
              && (media == Playable <==> status == 200 && playable)
              && (media == Gone <==> (status == 200 && !playable)
                                     || (400 <= status <= 499 && status != 408 && status != 429))
              && (media == Transient <==> Undecided(status))
              && (media != Transient ==> f' == f)
              && (media == Transient ==> f' == (if |f| >= 10_000 then map[] else f)[l.id := 1])
  {}

  /** Lookups one after the other, with their verdicts. */
  function Judged(f: Failures, ls: seq<Lookup>): (Failures, seq<Media>) {
    if ls == [] then (f, [])
    else
      var (before, verdicts) := Judged(f, ls[..|ls| - 1]);
      var (after, media) := Resolve(before, ls[|ls| - 1]);
      (after, verdicts + [media])
  }

  /** The map with a count for the episode, or without one. */
  function With(f: Failures, id: EpisodeId, count: nat): Failures { if count == 0 then f else f[id := count] }

  /** The verdict on the (k + 1)-th undecided lookup in a row. */
  function Verdict(k: nat): Media { if k % 5 == 4 then Gone else Transient }

  /** Undecided lookups of one episode in a row: every fifth gives it up, and
      only those, as long as the map has room. */
  lemma {:induction false} EveryFifthInARow(f: Failures, ls: seq<Lookup>, id: EpisodeId)
    requires id !in f && |f| < 9_999
    requires forall l | l in ls :: l.id == id && l.answer.Reply? && Undecided(l.answer.status)
    ensures Judged(f, ls).0 == With(f, id, |ls| % 5)
    ensures Judged(f, ls).1 == seq(|ls|, k requires 0 <= k < |ls| => Verdict(k))
    decreases |ls|
  {
    hide Resolve, With, Verdict;
    if ls == [] {
      assert With(f, id, 0) == f by { NoCount(f, id); }
    } else {
      var n := |ls| - 1;
      assert ls[n] in ls;
      EveryFifthInARow(f, ls[..n], id);
      OneInARow(f, ls[n], n % 5);
      Fifths(n);
    }
  }

  lemma Fifths(n: nat)
    ensures (n + 1) % 5 == if n % 5 == 4 then 0 else n % 5 + 1
    ensures Verdict(n) == if n % 5 == 4 then Gone else Transient
  {}

  lemma NoCount(f: Failures, id: EpisodeId)
    ensures With(f, id, 0) == f
  {}

  lemma OneInARow(f: Failures, l: Lookup, count: nat)
    requires l.id !in f && |f| < 9_999 && count < 5 && l.answer.Reply? && Undecided(l.answer.status)
    ensures Resolve(With(f, l.id, count), l)
         == if count == 4 then (With(f, l.id, 0), Gone) else (With(f, l.id, count + 1), Transient)
  {
    FailedWith(f, l.id, count);
    hide Failed;
    assert f - {l.id} == f;
    assert !Definitive(l.answer.status);
  }

  lemma FailedWith(f: Failures, id: EpisodeId, count: nat)
    requires id !in f && |f| < 9_999 && count < 5
    ensures Failed(With(f, id, count), id)
         == if count == 4 then (With(f, id, 0), true) else (With(f, id, count + 1), false)
  {
    WithSize(f, id, count);
    WithMore(f, id, count);
    hide With, Failed;
    FailedOnce(With(f, id, count), id, count);
  }

  lemma FailedOnce(g: Failures, id: EpisodeId, count: nat)
    requires |g| < MAX_TRACKED && (if id in g then g[id] == count else count == 0)
    ensures Failed(g, id) == if count + 1 >= MAX_FAILURES then (g - {id}, true) else (g[id := count + 1], false)
  {}

  lemma WithSize(f: Failures, id: EpisodeId, count: nat)
    requires id !in f
    ensures |With(f, id, count)| <= |f| + 1
  {}

  lemma WithMore(f: Failures, id: EpisodeId, count: nat)
    requires id !in f
    ensures var g := With(f, id, count);
            && (id in g <==> count > 0) && (id in g ==> g[id] == count)
            && g - {id} == With(f, id, 0) && g[id := count + 1] == With(f, id, count + 1)
  {}

  // ---------- lookups that run at the same time ----------

  /** The critical sections of manifestFailed and manifestSucceeded, the
      latter told apart by why it runs: NRK answered, or the episode has just
      been given up. Both take the episode's count away. */
  datatype Section = Failing(id: EpisodeId) | Answering(id: EpisodeId) | Clearing(id: EpisodeId)

  function Apply(f: Failures, s: Section): Failures {
    if s.Failing? then Failed(f, s.id).0 else f - {s.id}
  }

  /** The sections of any number of lookups, in any order. */
  function Run(f: Failures, ops: seq<Section>): Failures {
    if ops == [] then f else Apply(Run(f, ops[..|ops| - 1]), ops[|ops| - 1])
  }

  /** What one lookup goes through; giving up takes both sections. */
  function Sections(l: Lookup, tooOften: bool): seq<Section> {
    if l.answer.Held? then []
    else if !Unanswered(l) then [Answering(l.id)]
    else if tooOften then [Failing(l.id), Clearing(l.id)]
    else [Failing(l.id)]
  }

  /** A lookup nothing comes between is its sections. */
  lemma ResolveIsItsSections(f: Failures, l: Lookup)
    ensures Resolve(f, l).0 == Run(f, Sections(l, Failed(f, l.id).1))
    ensures Unanswered(l) ==> (Resolve(f, l).1 == Gone <==> Failed(f, l.id).1)
  {
    hide Failed, Run;
    FewSections(f, Failing(l.id), Clearing(l.id));
    FewSections(f, Answering(l.id), Clearing(l.id));
  }

  lemma FewSections(f: Failures, s: Section, s': Section)
    ensures Run(f, []) == f && Run(f, [s]) == Apply(f, s) && Run(f, [s, s']) == Apply(Apply(f, s), s')
  {
    hide Apply;
    assert [s, s'][..1] == [s] && [s][..0] == [];
  }

  /** How many of an episode's requests in a row went unanswered: those since
      its last answer, given up in between or not. */
  function Streak(ops: seq<Section>, id: EpisodeId): nat {
    if ops == [] then 0
    else
      var (before, last) := (ops[..|ops| - 1], ops[|ops| - 1]);
      if last == Failing(id) then Streak(before, id) + 1 else if last == Answering(id) then 0 else Streak(before, id)
  }

  /** No section finds the map full, so it is never dropped wholesale. */
  predicate NeverFull(ops: seq<Section>) {
    ops == [] || (|Run(map[], ops[..|ops| - 1])| < MAX_TRACKED && NeverFull(ops[..|ops| - 1]))
  }

  function Count(f: Failures, id: EpisodeId): nat { if id in f then f[id] else 0 }

  /** One section, seen by one episode. */
  lemma CountStep(f: Failures, s: Section, id: EpisodeId)
    ensures var f', room := Apply(f, s), if |f| >= MAX_TRACKED then map[] else f;
            if !s.Failing? then Count(f', id) == if s.id == id then 0 else Count(f, id)
            else if s.id != id then Count(f', id) == Count(room, id)
            else if Count(room, id) + 1 >= MAX_FAILURES then Count(f', id) == 0 && Failed(f, id).1
            else Count(f', id) == Count(room, id) + 1 && !Failed(f, id).1
  {}

  lemma {:induction false} CountWithinStreak(ops: seq<Section>, id: EpisodeId)
    ensures Count(Run(map[], ops), id) <= Streak(ops, id) && Count(Run(map[], ops), id) < MAX_FAILURES
    decreases |ops|
  {
    hide Apply, Failed;
    if ops != [] {
      var before, last := ops[..|ops| - 1], ops[|ops| - 1];
      CountWithinStreak(before, id);
      CountStep(Run(map[], before), last, id);
    }
  }

  /** However lookups interleave, and even if the map is dropped: an episode is
      given up without a definitive answer only after at least five requests
      in a row that reached NRK went unanswered. */
  lemma GivenUpAfterFive(ops: seq<Section>, l: Lookup)
    requires Unanswered(l)
    ensures var f := Run(map[], ops);
            && Resolve(f, l).1 == (if Failed(f, l.id).1 then Gone else Transient)
            && (Failed(f, l.id).1 ==> Streak(ops, l.id) + 1 >= MAX_FAILURES)
  {
    hide Apply, Failed;
    CountWithinStreak(ops, l.id);
    CountStep(Run(map[], ops), Failing(l.id), l.id);
  }

  // ---------- exactly at every fifth ----------

  /** The count stands where the streak says, at every moment of the run. */
  ghost predicate InStep(ops: seq<Section>, id: EpisodeId) {
    forall n | 0 <= n <= |ops| :: Count(Run(map[], ops[..n]), id) == Streak(ops[..n], id) % MAX_FAILURES
  }

  /** Every clearing of the episode lands when a multiple of five of its
      requests in a row are unanswered. */
  ghost predicate ClearsInTime(ops: seq<Section>, id: EpisodeId) {
    forall n | 0 <= n < |ops| && ops[n] == Clearing(id) :: Streak(ops[..n], id) % MAX_FAILURES == 0
  }

  lemma OneSection(ops: seq<Section>, n: nat, id: EpisodeId)
    requires n < |ops|
    ensures Run(map[], ops[..n + 1]) == Apply(Run(map[], ops[..n]), ops[n])
    ensures Streak(ops[..n + 1], id)
         == if ops[n] == Failing(id) then Streak(ops[..n], id) + 1
            else if ops[n] == Answering(id) then 0 else Streak(ops[..n], id)
  {
    hide Apply;
    assert ops[..n + 1][..n] == ops[..n];
  }

  lemma StepInStep(ops: seq<Section>, n: nat, id: EpisodeId)
    requires n < |ops| && |Run(map[], ops[..n])| < MAX_TRACKED
    requires Count(Run(map[], ops[..n]), id) == Streak(ops[..n], id) % MAX_FAILURES
    ensures Count(Run(map[], ops[..n + 1]), id) == Streak(ops[..n + 1], id) % MAX_FAILURES
       <==> (ops[n] == Clearing(id) ==> Streak(ops[..n], id) % MAX_FAILURES == 0)
  {
    hide Apply, Failed, Run, Streak, Count;
    OneSection(ops, n, id);
    CountStep(Run(map[], ops[..n]), ops[n], id);
    Fifths(Streak(ops[..n], id));
  }

  lemma {:induction false} NeverFullAt(ops: seq<Section>, n: nat)
    requires NeverFull(ops) && n < |ops|
    ensures |Run(map[], ops[..n])| < MAX_TRACKED && NeverFull(ops[..n])
    decreases |ops|
  {
    if n < |ops| - 1 {
      NeverFullAt(ops[..|ops| - 1], n);
      assert ops[..|ops| - 1][..n] == ops[..n];
    }
  }

  /** While the map is never dropped, the count keeps step with the unanswered
      requests if and only if every clearing lands in time. */
  lemma InStepIff(ops: seq<Section>, id: EpisodeId)
    requires NeverFull(ops)
    ensures InStep(ops, id) <==> ClearsInTime(ops, id)
  {
    hide Run, Streak, Count;
    if InStep(ops, id) {
      forall n | 0 <= n < |ops| && ops[n] == Clearing(id) ensures Streak(ops[..n], id) % MAX_FAILURES == 0 {
        NeverFullAt(ops, n);
        StepInStep(ops, n, id);
      }
    }
    if ClearsInTime(ops, id) {
      forall n | 0 <= n <= |ops| ensures Count(Run(map[], ops[..n]), id) == Streak(ops[..n], id) % MAX_FAILURES {
        KeepsStep(ops, n, id);
      }
    }
  }

  lemma {:induction false} KeepsStep(ops: seq<Section>, n: nat, id: EpisodeId)
    requires NeverFull(ops) && ClearsInTime(ops, id) && n <= |ops|
    ensures Count(Run(map[], ops[..n]), id) == Streak(ops[..n], id) % MAX_FAILURES
  {
    if n > 0 {
      KeepsStep(ops, n - 1, id);
      NeverFullAt(ops, n - 1);
      StepInStep(ops, n - 1, id);
    }
  }

  /** Then an unanswered request gives its episode up exactly if it is a fifth
      in a row, so no page waits for it without end. */
  lemma GivenUpAtEveryFifth(ops: seq<Section>, l: Lookup)
    requires Unanswered(l) && NeverFull(ops + [Failing(l.id)]) && ClearsInTime(ops, l.id)
    ensures var f := Run(map[], ops);
            Resolve(f, l).1 == if (Streak(ops, l.id) + 1) % MAX_FAILURES == 0 then Gone else Transient
  {
    hide Apply, Failed, Streak, Run, ClearsInTime;
    assert (ops + [Failing(l.id)])[..|ops|] == ops && ops[..|ops|] == ops;
    KeepsStep(ops, |ops|, l.id);
    CountStep(Run(map[], ops), Failing(l.id), l.id);
    hide NeverFull;
  }

  /** The request at m gave the episode up, and none of its sections came since. */
  ghost predicate JustGivenUp(ops: seq<Section>, m: nat, n: nat, id: EpisodeId) {
    && m < n <= |ops| && ops[m] == Failing(id) && Failed(Run(map[], ops[..m]), id).1
    && forall k | m < k < n :: ops[k].id != id
  }

  /** No section of the episode comes between a give-up's two. */
  ghost predicate Undivided(ops: seq<Section>, id: EpisodeId) {
    forall n | 0 <= n < |ops| && ops[n] == Clearing(id) :: exists m: nat :: JustGivenUp(ops, m, n, id)
  }

  /** Clearings land in time when lookups of one episode do not overlap. */
  lemma UndividedClearsInTime(ops: seq<Section>, id: EpisodeId)
    requires NeverFull(ops) && Undivided(ops, id)
    ensures ClearsInTime(ops, id)
  {
    hide Run, Streak;
    forall n | 0 <= n < |ops| && ops[n] == Clearing(id) ensures Streak(ops[..n], id) % MAX_FAILURES == 0 {
      UndividedKeepsStep(ops, n, id);
      UndividedAt(ops, n, id);
    }
  }

  lemma UndividedAt(ops: seq<Section>, n: nat, id: EpisodeId)
    requires NeverFull(ops) && Undivided(ops, id) && n < |ops| && ops[n] == Clearing(id)
    requires forall m | 0 <= m <= n :: Count(Run(map[], ops[..m]), id) == Streak(ops[..m], id) % MAX_FAILURES
    ensures Streak(ops[..n], id) % MAX_FAILURES == 0
  {
    hide Run, Failed, Streak, NeverFull;
    var m: nat :| JustGivenUp(ops, m, n, id);
    NeverFullAt(ops, m);
    GivesUpAt(ops, m, id);
    StreakStands(ops, m + 1, n, id);
  }

  lemma GivesUpAt(ops: seq<Section>, m: nat, id: EpisodeId)
    requires m < |ops| && ops[m] == Failing(id) && |Run(map[], ops[..m])| < MAX_TRACKED
    requires Count(Run(map[], ops[..m]), id) == Streak(ops[..m], id) % MAX_FAILURES
    requires Failed(Run(map[], ops[..m]), id).1
    ensures Streak(ops[..m + 1], id) % MAX_FAILURES == 0
  {
    hide Run, Failed, Count;
    CountStep(Run(map[], ops[..m]), Failing(id), id);
    assert ops[..m + 1][..m] == ops[..m];
  }

  lemma {:induction false} StreakStands(ops: seq<Section>, m: nat, n: nat, id: EpisodeId)
    requires m <= n <= |ops| && forall k | m <= k < n :: ops[k].id != id
    ensures Streak(ops[..n], id) == Streak(ops[..m], id)
  {
    if m < n {
      assert ops[..n][..n - 1] == ops[..n - 1];
      StreakStands(ops, m, n - 1, id);
    }
  }

  lemma {:induction false} UndividedKeepsStep(ops: seq<Section>, n: nat, id: EpisodeId)
    requires NeverFull(ops) && Undivided(ops, id) && n <= |ops|
    ensures forall m | 0 <= m <= n :: Count(Run(map[], ops[..m]), id) == Streak(ops[..m], id) % MAX_FAILURES
  {
    hide Apply, Failed, JustGivenUp;
    if n > 0 {
      UndividedKeepsStep(ops, n - 1, id);
      NeverFullAt(ops, n - 1);
      if ops[n - 1] == Clearing(id) { UndividedAt(ops, n - 1, id); }
      StepInStep(ops, n - 1, id);
    } else {
      assert ops[..0] == [];
    }
  }

  /** When they do overlap, a clearing can take a later failure with it: a
      sixth request fails before the fifth's clearing lands. Nothing was ever
      answered, yet the tenth request in a row is not given up; the eleventh is. */
  lemma ClearingTakesAFailure(id: EpisodeId) returns (ops: seq<Section>)
    ensures NeverFull(ops) && |ops| == 10 && Streak(ops, id) == 9
    ensures forall n | 0 <= n < 10 :: ops[n] == if n == 6 then Clearing(id) else Failing(id)
    ensures Failed(Run(map[], ops[..4]), id).1 && !ClearsInTime(ops, id)
    ensures !Failed(Run(map[], ops), id).1
    ensures Failed(Run(map[], ops + [Failing(id)]), id).1
  {
    var f, c := Failing(id), Clearing(id);
    ops := [f, f, f, f, f, f, c, f, f, f];
    hide Run, Streak, NeverFull, Apply, Failed;
    SevenSections(ops, id);
    Next(ops, 7, id, 0);
    Next(ops, 8, id, 1);
    Next(ops, 9, id, 2);
    assert ops[..10] == ops && ops[6] == Clearing(id);
    Next(ops + [f], 10, id, 3);
    assert (ops + [f])[..10] == ops && (ops + [f])[..11] == ops + [f];
    OnlyCount(id, 3);
    OnlyCount(id, 4);
  }

  lemma SevenSections(ops: seq<Section>, id: EpisodeId)
    requires |ops| >= 7 && forall n | 0 <= n < 7 :: ops[n] == if n == 6 then Clearing(id) else Failing(id)
    ensures NeverFull(ops[..7]) && Run(map[], ops[..7]) == Only(id, 0)
    ensures Streak(ops[..6], id) == 6 == Streak(ops[..7], id) && Failed(Run(map[], ops[..4]), id).1
  {
    hide Run, Streak, NeverFull, Apply, Failed;
    assert ops[..0] == [] && NeverFull([]) && Run(map[], []) == map[] && Streak([], id) == 0 by { NoSections(id); }
    for n := 0 to 4
      invariant NeverFull(ops[..n]) && Run(map[], ops[..n]) == Only(id, n) && Streak(ops[..n], id) == n
    {
      Next(ops, n, id, n);
    }
    Next(ops, 4, id, 4);
    Next(ops, 5, id, 0);
    Next(ops, 6, id, 1);
  }

  lemma NoSections(id: EpisodeId)
    ensures NeverFull([]) && Run(map[], []) == map[] && Streak([], id) == 0
  {}

  /** The map while one episode is looked up. */
  function Only(id: EpisodeId, n: nat): Failures { if n == 0 then map[] else map[id := n] }

  lemma OnlyCount(id: EpisodeId, n: nat)
    requires n < MAX_FAILURES
    ensures Failed(Only(id, n), id) == if n == 4 then (map[], true) else (Only(id, n + 1), false)
  {
    assert Only(id, n) - {id} == map[] && Only(id, n)[id := n + 1] == Only(id, n + 1);
    assert |Only(id, n)| <= 1;
    assert Count(Only(id, n), id) == n;
  }

  lemma Next(ops: seq<Section>, n: nat, id: EpisodeId, count: nat)
    requires n < |ops| && ops[n].id == id && !ops[n].Answering? && count < MAX_FAILURES
    requires NeverFull(ops[..n]) && Run(map[], ops[..n]) == Only(id, count)
    ensures NeverFull(ops[..n + 1])
    ensures Run(map[], ops[..n + 1]) == Only(id, if ops[n].Clearing? || count == 4 then 0 else count + 1)
    ensures Streak(ops[..n + 1], id) == Streak(ops[..n], id) + if ops[n].Failing? then 1 else 0
    ensures ops[n].Failing? ==> (Failed(Run(map[], ops[..n]), id).1 <==> count == 4)
  {
    assert ops[..n + 1][..n] == ops[..n];
    OnlyCount(id, count);
    assert Only(id, count) - {id} == map[];
    hide Failed;
  }

  /** Whatever is looked up, the map of failures stays bounded. */
  lemma {:induction false} TrackedBounded(ops: seq<Section>)
    ensures |Run(map[], ops)| <= MAX_TRACKED
    decreases |ops|
  {
    hide Apply;
    if ops != [] {
      TrackedBounded(ops[..|ops| - 1]);
      OneMore(Run(map[], ops[..|ops| - 1]), ops[|ops| - 1]);
    }
  }

  lemma OneMore(f: Failures, s: Section)
    requires |f| <= MAX_TRACKED
    ensures |Apply(f, s)| <= MAX_TRACKED
  {}

  class Tracker {
    var failures: Failures

    constructor ()
      ensures failures == map[]
    {
      failures := map[];
    }

    method ManifestFailed(id: EpisodeId) returns (tooOften: bool)
      modifies this
      ensures (failures, tooOften) == Failed(old(failures), id)
    {
      if |failures| >= MAX_TRACKED {
        failures := map[];
      }
      ghost var room := failures;
      failures := failures[id := 1 + if id in failures then failures[id] else 0];
      if failures[id] >= MAX_FAILURES {
        failures := failures - {id};
        assert failures == room - {id};
        return true;
      }
      return false;
    }

    method ManifestSucceeded(id: EpisodeId)
      modifies this
      ensures failures == old(failures) - {id}
    {
      failures := failures - {id};
    }

    method Judge(l: Lookup) returns (media: Media)
      modifies this
      ensures (failures, media) == Resolve(old(failures), l)
    {
      if l.answer.Held? {
        return Transient;
      }
      if l.answer.status == 200 && l.answer.playable {
        ManifestSucceeded(l.id);
        return Playable;
      }
      var definitive := l.answer.status == 200
        || (400 <= l.answer.status < 500 && l.answer.status != 408 && l.answer.status != 429);
      var gone := definitive;
      if !gone {
        gone := ManifestFailed(l.id);
      }
      if gone {
        ManifestSucceeded(l.id);
        return Gone;
      }
      return Transient;
    }
  }
}
