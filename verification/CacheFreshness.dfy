/** The feed cache against the store's data version, in every interleaving:
    writers commit and then bump (internal/store/queries.go), readers snapshot
    the version and then run two queries, requests read the version and then
    peek, and a render has two critical sections (internal/feed/cache.go). */
module CacheFreshness {
  import opened Wrappers
  import opened FeedCache

  type Thread = nat

  /** A feed as ReadSeries returned it: the version it snapshotted first, and
      how many writes its two queries saw. Version 0 never came from the store. */
  datatype Series = Series(key: Key, version: nat, row: nat, episodes: nat)

  /** AssembleFeed, as a function of the content read and the origin. */
  type Assemble = (Key, nat, nat, string) -> string

  /** Where a thread is between two atomic steps. */
  datatype Phase =
    | Committed(key: Key, write: nat)
    | Snapshotted(key: Key, version: nat)
    | RowRead(key: Key, version: nat, row: nat)
    | Asked(key: Key, origin: string, version: nat, returned: set<nat>)
    | Assembling(series: Series, origin: string, started: Started)

  /** `commits` numbers each feed's committed content writes, `bumped` lists
      them in the order their version bumps landed, and `returned` holds the
      writes whose call has returned. Only commits survive a restart, and
      `base` is how many there were at the last one. */
  datatype Machine = Machine(
    commits: map<Key, nat>,
    base: map<Key, nat>,
    bumped: map<Key, seq<nat>>,
    returned: map<Key, set<nat>>,
    cache: State,
    series: set<Series>,
    threads: map<Thread, Phase>)
  {
    function Commits(key: Key): nat { if key in commits then commits[key] else 0 }

    function Base(key: Key): nat { if key in base then base[key] else 0 }

    function Bumped(key: Key): seq<nat> { if key in bumped then bumped[key] else [] }

    function Returned(key: Key): set<nat> { if key in returned then returned[key] else {} }

    /** The store's DataVersion: versions start at 1. */
    function Version(key: Key): nat { |Bumped(key)| + 1 }

    predicate Idle(t: Thread) { t !in threads }
  }

  datatype Step =
    | Commit(t: Thread, key: Key)
    | Bump(t: Thread)
    | Snapshot(t: Thread, key: Key)
    | ReadRow(t: Thread)
    | ReadEpisodes(t: Thread)
    | Unstored(series: Series)
    | Ask(t: Thread, key: Key, origin: string)
    | Peek(t: Thread)
    | BeginRender(t: Thread, series: Series, origin: string)
    | EndRender(t: Thread, now: Time)
    | Restart

  const INIT := Machine(map[], map[], map[], map[], State([], map[]), {}, map[])

  function Xml(series: Series, origin: string, assemble: Assemble): string {
    assemble(series.key, series.row, series.episodes, origin)
  }

  /** One atomic step; a step its thread is not ready for changes nothing. */
  function Next(m: Machine, step: Step, assemble: Assemble, limits: Limits): Machine {
    match step
    case Commit(t, key) =>
      if !m.Idle(t) then m
      else
        var n := m.Commits(key) + 1;
        m.(commits := m.commits[key := n], threads := m.threads[t := Committed(key, n)])
    case Bump(t) =>
      if m.Idle(t) || !m.threads[t].Committed? then m
      else
        var Committed(key, n) := m.threads[t];
        m.(bumped := m.bumped[key := m.Bumped(key) + [n]],
           returned := m.returned[key := m.Returned(key) + {n}],
           threads := m.threads - {t})
    case Snapshot(t, key) =>
      if !m.Idle(t) then m else m.(threads := m.threads[t := Snapshotted(key, m.Version(key))])
    case ReadRow(t) =>
      if m.Idle(t) || !m.threads[t].Snapshotted? then m
      else
        var Snapshotted(key, version) := m.threads[t];
        m.(threads := m.threads[t := RowRead(key, version, m.Commits(key))])
    case ReadEpisodes(t) =>
      if m.Idle(t) || !m.threads[t].RowRead? then m
      else
        var RowRead(key, version, row) := m.threads[t];
        m.(series := m.series + {Series(key, version, row, m.Commits(key))}, threads := m.threads - {t})
    case Unstored(series) =>
      if series.version != 0 then m else m.(series := m.series + {series})
    case Ask(t, key, origin) =>
      if !m.Idle(t) then m
      else m.(threads := m.threads[t := Asked(key, origin, m.Version(key), m.Returned(key))])
    case Peek(t) =>
      if m.Idle(t) || !m.threads[t].Asked? then m
      else
        var Asked(key, origin, version, _) := m.threads[t];
        m.(cache := Peeked(m.cache, key, origin, version).0, threads := m.threads - {t})
    case BeginRender(t, series, origin) =>
      if !m.Idle(t) || series !in m.series then m
      else
        var (cache, started) := Begun(m.cache, series.key);
        m.(cache := cache,
           threads := if Answers(started, origin, series.version) then m.threads
                      else m.threads[t := Assembling(series, origin, started)])
    case EndRender(t, now) =>
      if m.Idle(t) || !m.threads[t].Assembling? then m
      else
        var Assembling(series, origin, started) := m.threads[t];
        var e := Fresh(started, series.key, origin, series.version, Xml(series, origin, assemble), now);
        m.(cache := Ended(m.cache, e, limits).0, threads := m.threads - {t})
    case Restart => INIT.(commits := m.commits, base := m.commits)
  }

  /** The rendered feed a step hands to its request, if any. */
  function Answer(m: Machine, step: Step, assemble: Assemble, limits: Limits): Option<Rendered> {
    match step
    case Peek(t) =>
      if m.Idle(t) || !m.threads[t].Asked? then None
      else
        var Asked(key, origin, version, _) := m.threads[t];
        Peeked(m.cache, key, origin, version).1
    case BeginRender(t, series, origin) =>
      if !m.Idle(t) || series !in m.series then None
      else
        var started := Begun(m.cache, series.key).1;
        if Answers(started, origin, series.version) then Some(started.cached.value.rendered) else None
    case EndRender(t, now) =>
      if m.Idle(t) || !m.threads[t].Assembling? then None
      else
        var Assembling(series, origin, started) := m.threads[t];
        var e := Fresh(started, series.key, origin, series.version, Xml(series, origin, assemble), now);
        Some(Ended(m.cache, e, limits).1)
    case _ => None
  }

  function After(steps: seq<Step>, n: nat, assemble: Assemble, limits: Limits): Machine
    requires n <= |steps|
  {
    if n == 0 then INIT else Next(After(steps, n - 1, assemble, limits), steps[n - 1], assemble, limits)
  }

  // ---------- the invariant ----------

  /** A read that saw at least n writes includes every write bumped before version. */
  ghost predicate Includes(m: Machine, key: Key, version: nat, n: nat) {
    && version <= m.Version(key)
    && forall i | 0 <= i < version - 1 :: m.Bumped(key)[i] <= n
  }

  ghost predicate SeriesOk(m: Machine, s: Series) {
    s.version > 0 ==>
      Includes(m, s.key, s.version, s.row) && m.Base(s.key) <= s.row <= s.episodes <= m.Commits(s.key)
  }

  ghost predicate PhaseOk(m: Machine, p: Phase) {
    match p
    case Committed(key, write) => write <= m.Commits(key)
    case Snapshotted(key, version) => version > 0 && Includes(m, key, version, m.Commits(key))
    case RowRead(key, version, row) =>
      version > 0 && Includes(m, key, version, row) && m.Base(key) <= row <= m.Commits(key)
    case Asked(key, origin, version, returned) =>
      1 <= version <= m.Version(key) && forall n | n in returned :: n in m.Bumped(key)[..version - 1]
    case Assembling(series, origin, started) => series in m.series
  }

  /** A render of a read that carries at least this version. */
  ghost predicate RenderOf(m: Machine, xml: string, key: Key, origin: string, version: nat, assemble: Assemble) {
    exists s :: s in m.series && s.key == key && s.version >= version && xml == Xml(s, origin, assemble)
  }

  ghost predicate EntryOk(m: Machine, e: Entry, assemble: Assemble) {
    && e.version > 0
    && exists s :: s in m.series && s.key == e.key && s.version == e.version
                   && e.rendered.xml == Xml(s, e.origin, assemble)
  }

  ghost predicate WritesOk(m: Machine) {
    && (forall key, i | 0 <= i < |m.Bumped(key)| :: m.Bumped(key)[i] <= m.Commits(key))
    && (forall key, n | n in m.Returned(key) :: n in m.Bumped(key))
    && (forall key :: m.Base(key) <= m.Commits(key))
  }

  ghost predicate Inv(m: Machine, assemble: Assemble) {
    && WritesOk(m)
    && (forall s | s in m.series :: SeriesOk(m, s))
    && (forall t | t in m.threads :: PhaseOk(m, m.threads[t]))
    && Unique(m.cache.recency)
    && (forall e | e in m.cache.recency :: EntryOk(m, e, assemble))
  }

  /** Within one process, writes and reads only accumulate. */
  ghost predicate Grows(m: Machine, m': Machine) {
    && (forall key :: m.Commits(key) <= m'.Commits(key))
    && (forall key :: m.Bumped(key) <= m'.Bumped(key))
    && m.base == m'.base
    && m.series <= m'.series
  }

  lemma GrowsKeeps(m: Machine, m': Machine, assemble: Assemble)
    requires Grows(m, m')
    ensures forall s | SeriesOk(m, s) :: SeriesOk(m', s)
    ensures forall p | PhaseOk(m, p) :: PhaseOk(m', p)
    ensures forall e | EntryOk(m, e, assemble) :: EntryOk(m', e, assemble)
  {}

  /** What was right before a step that only adds is right after it. */
  lemma StillRight(m: Machine, m': Machine, assemble: Assemble)
    requires Inv(m, assemble) && Grows(m, m')
    ensures forall s | s in m.series :: SeriesOk(m', s)
    ensures forall t | t in m.threads :: PhaseOk(m', m.threads[t])
    ensures forall e | e in m.cache.recency :: EntryOk(m', e, assemble)
  {}

  lemma CommitKeeps(m: Machine, t: Thread, key: Key, assemble: Assemble, limits: Limits)
    requires Inv(m, assemble)
    ensures Inv(Next(m, Commit(t, key), assemble, limits), assemble)
  {
    hide Unique, EntryOk, SeriesOk;
    var m' := Next(m, Commit(t, key), assemble, limits);
    assert Grows(m, m');
    StillRight(m, m', assemble);
  }

  lemma BumpKeeps(m: Machine, t: Thread, assemble: Assemble, limits: Limits)
    requires Inv(m, assemble)
    ensures Inv(Next(m, Bump(t), assemble, limits), assemble)
  {
    var m' := Next(m, Bump(t), assemble, limits);
    assert Grows(m, m');
    StillRight(m, m', assemble);
    assert WritesOk(m') by { BumpedWrites(m, t, assemble, limits); }
    hide Unique, EntryOk, SeriesOk, PhaseOk, WritesOk, Grows;
  }

  lemma BumpedWrites(m: Machine, t: Thread, assemble: Assemble, limits: Limits)
    requires WritesOk(m) && (t in m.threads ==> PhaseOk(m, m.threads[t]))
    ensures WritesOk(Next(m, Bump(t), assemble, limits))
  {
    var m' := Next(m, Bump(t), assemble, limits);
    if m' != m {
      var Committed(key, n) := m.threads[t];
      assert m'.Bumped(key) == m.Bumped(key) + [n] && m'.Returned(key) == m.Returned(key) + {n};
      forall k
        ensures m'.Base(k) == m.Base(k) && m'.Commits(k) == m.Commits(k)
        ensures k != key ==> m'.Bumped(k) == m.Bumped(k) && m'.Returned(k) == m.Returned(k)
      {}
      assert n <= m.Commits(key);
    }
  }

  /** Threads may move to any place, and the cache to any content, that is
      right for the reads and writes as they are. */
  lemma Moves(m: Machine, cache: State, threads: map<Thread, Phase>, assemble: Assemble)
    requires Inv(m, assemble) && Unique(cache.recency)
    requires forall e | e in cache.recency :: EntryOk(m, e, assemble)
    requires forall t | t in threads :: PhaseOk(m, threads[t])
    ensures Inv(m.(cache := cache, threads := threads), assemble)
  {
    var m' := m.(cache := cache, threads := threads);
    assert Grows(m, m');
    GrowsKeeps(m, m', assemble);
    hide PhaseOk, SeriesOk, EntryOk, Unique;
  }

  lemma ReaderKeeps(m: Machine, step: Step, assemble: Assemble, limits: Limits)
    requires Inv(m, assemble) && (step.Snapshot? || step.ReadRow? || step.Ask?)
    ensures Inv(Next(m, step, assemble, limits), assemble)
  {
    var m' := Next(m, step, assemble, limits);
    if m' != m {
      if step.Ask? {
        var all := m.Bumped(step.key);
        assert all[..|all|] == all;
      }
      assert step.ReadRow? ==> PhaseOk(m, m.threads[step.t]);
      Moves(m, m.cache, m'.threads, assemble);
    }
  }

  lemma ReadIsOk(m: Machine, s: Series)
    requires s.version == 0 || (PhaseOk(m, RowRead(s.key, s.version, s.row)) && s.episodes == m.Commits(s.key))
    ensures SeriesOk(m, s)
  {}

  lemma ReadKeeps(m: Machine, step: Step, assemble: Assemble, limits: Limits)
    requires Inv(m, assemble) && (step.ReadEpisodes? || step.Unstored?)
    ensures Inv(Next(m, step, assemble, limits), assemble)
  {
    hide Unique, EntryOk, SeriesOk, PhaseOk;
    var m' := Next(m, step, assemble, limits);
    if m' != m {
      assert Grows(m, m');
      StillRight(m, m', assemble);
      hide Grows;
      if step.ReadEpisodes? {
        var RowRead(key, version, row) := m.threads[step.t];
        ReadIsOk(m', Series(key, version, row, m.Commits(key)));
      } else {
        ReadIsOk(m', step.series);
      }
    }
  }

  lemma RenderIsOk(m: Machine, s: Series, e: Entry, assemble: Assemble)
    requires s in m.series && e.key == s.key && e.version == s.version && e.rendered.xml == Xml(s, e.origin, assemble)
    ensures e.version > 0 ==> EntryOk(m, e, assemble)
  {}

  /** Nothing enters the cache but the render of an available read. */
  lemma CacheKeeps(m: Machine, step: Step, assemble: Assemble, limits: Limits)
    requires Inv(m, assemble) && (step.Peek? || step.BeginRender? || step.EndRender?)
    ensures Inv(Next(m, step, assemble, limits), assemble)
  {
    hide Touch, Find, Ended, EntryOk, Unique;
    var m' := Next(m, step, assemble, limits);
    if m' != m {
      match step
      case Peek(t) => TouchMembers(m.cache.recency, m.threads[t].key);
      case BeginRender(t, series, origin) => TouchMembers(m.cache.recency, series.key);
      case EndRender(t, now) =>
        var Assembling(series, origin, started) := m.threads[t];
        assert PhaseOk(m, m.threads[t]);
        var e := Fresh(started, series.key, origin, series.version, Xml(series, origin, assemble), now);
        EndedMembers(m.cache, e, limits);
        assert e.version > 0 ==> EntryOk(m, e, assemble) by { RenderIsOk(m, series, e, assemble); }
    }
    Moves(m, m'.cache, m'.threads, assemble);
  }

  lemma {:induction false} RunKeeps(steps: seq<Step>, n: nat, assemble: Assemble, limits: Limits)
    requires n <= |steps|
    ensures Inv(After(steps, n, assemble, limits), assemble)
  {
    hide Next;
    if n == 0 {
      assert Inv(INIT, assemble);
    } else {
      RunKeeps(steps, n - 1, assemble, limits);
      var m, step := After(steps, n - 1, assemble, limits), steps[n - 1];
      match step
      case Commit(t, key) => CommitKeeps(m, t, key, assemble, limits);
      case Bump(t) => BumpKeeps(m, t, assemble, limits);
      case Restart => RestartKeeps(m, assemble, limits);
      case Peek(_) => CacheKeeps(m, step, assemble, limits);
      case BeginRender(_, _, _) => CacheKeeps(m, step, assemble, limits);
      case EndRender(_, _) => CacheKeeps(m, step, assemble, limits);
      case ReadEpisodes(_) => ReadKeeps(m, step, assemble, limits);
      case Unstored(_) => ReadKeeps(m, step, assemble, limits);
      case _ => ReaderKeeps(m, step, assemble, limits);
    }
  }

  lemma RestartKeeps(m: Machine, assemble: Assemble, limits: Limits)
    ensures Inv(Next(m, Restart, assemble, limits), assemble)
  {}

  // ---------- the promises ----------

  /** A write whose call had returned when a request asked: in this process,
      or committed before the last restart. */
  ghost predicate Counts(m: Machine, key: Key, returned: set<nat>, write: nat) {
    write in returned || write <= m.Base(key)
  }

  /** In every interleaving, restarts included: if a content write's call
      returned before a request read the data version, the XML that Peek gives
      the request was read, by both queries, after that write. */
  lemma PeekIncludesReturnedWrites(steps: seq<Step>, n: nat, assemble: Assemble, limits: Limits)
    requires n < |steps| && steps[n].Peek?
    ensures var m := After(steps, n, assemble, limits);
            var hit := Answer(m, steps[n], assemble, limits);
            hit.Some? ==>
              var Asked(key, origin, version, returned) := m.threads[steps[n].t];
              exists s :: s in m.series && s.key == key && hit.value.xml == Xml(s, origin, assemble)
                && forall write: nat | Counts(m, key, returned, write) :: write <= s.row && write <= s.episodes
  {
    RunKeeps(steps, n, assemble, limits);
    var m := After(steps, n, assemble, limits);
    var hit := Answer(m, steps[n], assemble, limits);
    if hit.Some? {
      var Asked(key, origin, version, returned) := m.threads[steps[n].t];
      FindMember(m.cache.recency, key);
      var e := Find(m.cache.recency, key).value;
      var s :| s in m.series && s.key == e.key && s.version == e.version
               && e.rendered.xml == Xml(s, e.origin, assemble);
      assert SeriesOk(m, s) && s.version > 0;
      forall write: nat | Counts(m, key, returned, write) ensures write <= s.row && write <= s.episodes {
        assert PhaseOk(m, m.threads[steps[n].t]);
        if write in returned { var i :| 0 <= i < version - 1 && m.Bumped(key)[i] == write; }
      }
    }
  }

  /** Render never answers with a lower version than the series it was given,
      whatever landed between its two sections. */
  lemma RenderNeverGoesBack(steps: seq<Step>, n: nat, assemble: Assemble, limits: Limits)
    requires n < |steps| && (steps[n].BeginRender? || steps[n].EndRender?)
    ensures var m := After(steps, n, assemble, limits);
            var answer := Answer(m, steps[n], assemble, limits);
            answer.Some? ==>
              var (series, origin) := if steps[n].BeginRender? then (steps[n].series, steps[n].origin)
                                      else (m.threads[steps[n].t].series, m.threads[steps[n].t].origin);
              RenderOf(m, answer.value.xml, series.key, origin, series.version, assemble)
  {
    hide Drop, Evict;
    RunKeeps(steps, n, assemble, limits);
    var m := After(steps, n, assemble, limits);
    var answer := Answer(m, steps[n], assemble, limits);
    if answer.Some? {
      var (series, origin) := if steps[n].BeginRender? then (steps[n].series, steps[n].origin)
                              else (m.threads[steps[n].t].series, m.threads[steps[n].t].origin);
      FindMember(m.cache.recency, series.key);
      assert steps[n].EndRender? ==> PhaseOk(m, m.threads[steps[n].t]);
      var found := Find(m.cache.recency, series.key);
      if found.Some? {
        var e := found.value;
        assert EntryOk(m, e, assemble);
      }
    }
  }

  /** What counts as returned for a request: every write of the feed whose
      bump landed earlier, whatever restarts came between. */
  lemma AskRecordsReturned(steps: seq<Step>, i: nat, n: nat, assemble: Assemble, limits: Limits)
    requires i < n < |steps| && steps[i].Bump? && steps[n].Ask?
    requires var m := After(steps, i, assemble, limits);
             !m.Idle(steps[i].t) && m.threads[steps[i].t].Committed? && m.threads[steps[i].t].key == steps[n].key
    requires After(steps, n, assemble, limits).Idle(steps[n].t)
    ensures var write := After(steps, i, assemble, limits).threads[steps[i].t].write;
            var m' := After(steps, n + 1, assemble, limits);
            && steps[n].t in m'.threads && m'.threads[steps[n].t].Asked?
            && Counts(m', steps[n].key, m'.threads[steps[n].t].returned, write)
  {
    var write := After(steps, i, assemble, limits).threads[steps[i].t].write;
    ReturnedStays(steps, i + 1, n, steps[n].key, write, assemble, limits);
  }

  lemma StillCounts(m: Machine, step: Step, key: Key, write: nat, assemble: Assemble, limits: Limits)
    requires WritesOk(m) && Counts(m, key, m.Returned(key), write)
    ensures var m' := Next(m, step, assemble, limits); Counts(m', key, m'.Returned(key), write)
  {
    hide Peeked, Begun, Ended, Fresh, Answers, Xml;
    assert write in m.Returned(key) ==> write in m.Bumped(key);
  }

  lemma {:induction false} ReturnedStays(steps: seq<Step>, i: nat, n: nat, key: Key, write: nat, assemble: Assemble,
                                         limits: Limits)
    requires i <= n <= |steps|
    requires var m := After(steps, i, assemble, limits); Counts(m, key, m.Returned(key), write)
    ensures var m := After(steps, n, assemble, limits); Counts(m, key, m.Returned(key), write)
  {
    hide Next;
    if i < n {
      ReturnedStays(steps, i, n - 1, key, write, assemble, limits);
      RunKeeps(steps, n - 1, assemble, limits);
      StillCounts(After(steps, n - 1, assemble, limits), steps[n - 1], key, write, assemble, limits);
    }
  }

  // ---------- what an undisturbed request gets ----------

  function Written(m: Machine, t: Thread, key: Key, assemble: Assemble, limits: Limits): Machine {
    Next(Next(m, Commit(t, key), assemble, limits), Bump(t), assemble, limits)
  }

  /** A request reads the version and peeks; with its answer. */
  function Polled(m: Machine, t: Thread, key: Key, origin: string, assemble: Assemble, limits: Limits)
    : (Machine, Option<Rendered>)
  {
    var asked := Next(m, Ask(t, key, origin), assemble, limits);
    (Next(asked, Peek(t), assemble, limits), Answer(asked, Peek(t), assemble, limits))
  }

  function ReadWhole(m: Machine, t: Thread, key: Key, assemble: Assemble, limits: Limits): Machine {
    var row := Next(Next(m, Snapshot(t, key), assemble, limits), ReadRow(t), assemble, limits);
    Next(row, ReadEpisodes(t), assemble, limits)
  }

  /** Both sections of a render; with the answer of the second. */
  function RenderedWhole(m: Machine, t: Thread, s: Series, origin: string, now: Time, assemble: Assemble,
                         limits: Limits): (Machine, Option<Rendered>)
  {
    var begun := Next(m, BeginRender(t, s, origin), assemble, limits);
    (Next(begun, EndRender(t, now), assemble, limits), Answer(begun, EndRender(t, now), assemble, limits))
  }

  lemma WriteMoves(m: Machine, t: Thread, key: Key, assemble: Assemble, limits: Limits)
    requires m.Idle(t)
    ensures var m' := Written(m, t, key, assemble, limits);
            && m'.threads == m.threads && m'.cache == m.cache && m'.series == m.series
            && m'.Commits(key) == m.Commits(key) + 1 && m'.Version(key) == m.Version(key) + 1
            && m'.Commits(key) in m'.Returned(key)
            && forall other | other != key ::
                 m'.Commits(other) == m.Commits(other) && m'.Version(other) == m.Version(other)
  {
    assert m.threads[t := Committed(key, m.Commits(key) + 1)] - {t} == m.threads;
  }

  lemma PollAnswers(m: Machine, t: Thread, key: Key, origin: string, assemble: Assemble, limits: Limits)
    requires m.Idle(t) && Unique(m.cache.recency)
    ensures var (m', answer) := Polled(m, t, key, origin, assemble, limits);
            && (answer.Some? <==> exists e :: Holds(m.cache, key, origin, m.Version(key), e))
            && (forall e | Holds(m.cache, key, origin, m.Version(key), e) :: answer == Some(e.rendered))
            && m' == m.(cache := m'.cache) && m'.cache.validators == m.cache.validators
            && Unique(m'.cache.recency) && UsedFirst(m.cache.recency, key, m'.cache.recency)
  {
    hide Peeked, Touch;
    PeekAnswersIff(m.cache, key, origin, m.Version(key));
    assert Unique(Peeked(m.cache, key, origin, m.Version(key)).0.recency) by { PeekedUnique(m, key, origin); }
    assert m.threads[t := Asked(key, origin, m.Version(key), m.Returned(key))] - {t} == m.threads;
  }

  lemma PeekedUnique(m: Machine, key: Key, origin: string)
    requires Unique(m.cache.recency)
    ensures Unique(Peeked(m.cache, key, origin, m.Version(key)).0.recency)
  {
    TouchMembers(m.cache.recency, key);
  }

  lemma ReadSees(m: Machine, t: Thread, key: Key, assemble: Assemble, limits: Limits)
    requires m.Idle(t)
    ensures ReadWhole(m, t, key, assemble, limits)
         == m.(series := m.series + {Series(key, m.Version(key), m.Commits(key), m.Commits(key))})
  {
    assert m.threads[t := Snapshotted(key, m.Version(key))][t := RowRead(key, m.Version(key), m.Commits(key))] - {t}
        == m.threads;
  }

  /** A read that the cache has nothing newer than is rendered, whether or not
      it came from the store; only one that did is kept. */
  lemma RenderLands(m: Machine, t: Thread, s: Series, origin: string, now: Time, assemble: Assemble, limits: Limits)
    requires m.Idle(t) && s in m.series && Unique(m.cache.recency)
    requires forall e | e in m.cache.recency && e.key == s.key && e.origin == origin :: e.version < s.version
    ensures var (m', answer) := RenderedWhole(m, t, s, origin, now, assemble, limits);
            && Answer(m, BeginRender(t, s, origin), assemble, limits).None?
            && answer.Some? && answer.value.xml == Xml(s, origin, assemble)
            && m' == m.(cache := m'.cache) && Unique(m'.cache.recency)
            && (s.version > 0 ==>
                  exists e :: Holds(m'.cache, s.key, origin, s.version, e) && e.rendered == answer.value)
            && (s.version == 0 ==> UsedFirst(m.cache.recency, s.key, m'.cache.recency))
  {
    hide Begun, Ended, Xml;
    RenderSparedIff(m.cache, s.key, origin, s.version);
    var (cache, started) := Begun(m.cache, s.key);
    assert !Answers(started, origin, s.version);
    var p := Assembling(s, origin, started);
    assert Next(m, BeginRender(t, s, origin), assemble, limits) == m.(cache := cache, threads := m.threads[t := p]);
    assert m.threads[t := p] - {t} == m.threads;
    var e := Fresh(started, s.key, origin, s.version, Xml(s, origin, assemble), now);
    assert Unique(cache.recency) by { BegunUnique(m.cache, s.key); }
    EndedMembers(cache, e, limits);
    if s.version > 0 {
      EndedAnswers(cache, e, limits);
      assert Holds(Ended(cache, e, limits).0, s.key, origin, s.version, e);
    } else {
      UnversionedEnds(cache, e, limits);
    }
  }

  lemma BegunUnique(s: State, key: Key)
    requires Unique(s.recency)
    ensures Unique(Begun(s, key).0.recency)
  {
    TouchMembers(s.recency, key);
  }

  lemma UnversionedEnds(s: State, e: Entry, limits: Limits)
    requires e.version == 0
    ensures Ended(s, e, limits) == (s, e.rendered)
  {}

  /** A request whose read is in the cache already, in that version or a newer
      one, is answered with that at once. */
  lemma RenderSpared(m: Machine, t: Thread, s: Series, origin: string, e: Entry, assemble: Assemble, limits: Limits)
    requires m.Idle(t) && s in m.series && Unique(m.cache.recency)
    requires e in m.cache.recency && e.key == s.key && e.origin == origin && e.version >= s.version
    ensures var begin := BeginRender(t, s, origin);
            && Answer(m, begin, assemble, limits) == Some(e.rendered)
            && Next(m, begin, assemble, limits).Idle(t)
  {
    hide Begun;
    RenderSparedIff(m.cache, s.key, origin, s.version);
  }

  /** A feed that could not be stored is rendered all the same, and not kept. */
  lemma UnstoredIsRendered(m: Machine, t: Thread, s: Series, origin: string, now: Time, assemble: Assemble,
                           limits: Limits)
    requires m.Idle(t) && s.version == 0 && Unique(m.cache.recency)
    requires forall e | e in m.cache.recency && e.key == s.key :: e.origin != origin
    ensures var m1 := Next(m, Unstored(s), assemble, limits);
            var (m2, answer) := RenderedWhole(m1, t, s, origin, now, assemble, limits);
            && answer.Some? && answer.value.xml == Xml(s, origin, assemble)
            && UsedFirst(m.cache.recency, s.key, m2.cache.recency) && m2.threads == m.threads
  {
    var m1 := Next(m, Unstored(s), assemble, limits);
    assert m1 == m.(series := m.series + {s});
    hide Next, RenderedWhole;
    RenderLands(m1, t, s, origin, now, assemble, limits);
  }

  lemma CachedVersion(m: Machine, e: Entry, assemble: Assemble)
    requires Inv(m, assemble) && e in m.cache.recency
    ensures 0 < e.version <= m.Version(e.key)
  {
    assert EntryOk(m, e, assemble);
    var s :| s in m.series && s.key == e.key && s.version == e.version && e.rendered.xml == Xml(s, e.origin, assemble);
    assert SeriesOk(m, s);
  }

  /** A thread writes a feed: a poll is then not answered; the read that
      follows sees that write and every earlier one in both queries; its
      render answers with what was read; and so is the next poll answered. */
  ghost predicate WriteServed(m: Machine, t: Thread, key: Key, origin: string, now: Time, assemble: Assemble,
                              limits: Limits)
  {
    var (m1, missed) := Polled(Written(m, t, key, assemble, limits), t, key, origin, assemble, limits);
    var m2 := ReadWhole(m1, t, key, assemble, limits);
    var c, v := m.Commits(key) + 1, m.Version(key) + 1;
    var s := Series(key, v, c, c);
    var (m3, rendered) := RenderedWhole(m2, t, s, origin, now, assemble, limits);
    && missed.None? && s in m2.series
    && rendered.Some? && rendered.value.xml == assemble(key, c, c, origin)
    && Polled(m3, t, key, origin, assemble, limits).1 == rendered
  }

  lemma ServedOnceWritten(m: Machine, t: Thread, key: Key, origin: string, now: Time, assemble: Assemble,
                          limits: Limits)
    requires m.Idle(t) && Unique(m.cache.recency) && forall e | e in m.cache.recency :: e.version <= m.Version(e.key)
    ensures WriteServed(m, t, key, origin, now, assemble, limits)
  {
    hide Next, Answer, Unique, Written, Polled, ReadWhole, RenderedWhole;
    WriteMoves(m, t, key, assemble, limits);
    var m0 := Written(m, t, key, assemble, limits);
    PollAnswers(m0, t, key, origin, assemble, limits);
    var m1 := Polled(m0, t, key, origin, assemble, limits).0;
    ReadSees(m1, t, key, assemble, limits);
    var s := Series(key, m1.Version(key), m1.Commits(key), m1.Commits(key));
    var m2 := ReadWhole(m1, t, key, assemble, limits);
    RenderLands(m2, t, s, origin, now, assemble, limits);
    PollAnswers(RenderedWhole(m2, t, s, origin, now, assemble, limits).0, t, key, origin, assemble, limits);
  }

  /** From any reachable state, a write is served as soon as its thread is left
      undisturbed. */
  lemma WriteIsServed(steps: seq<Step>, n: nat, t: Thread, key: Key, origin: string, now: Time, assemble: Assemble,
                      limits: Limits)
    requires n <= |steps|
    ensures var m := After(steps, n, assemble, limits);
            m.Idle(t) ==> WriteServed(m, t, key, origin, now, assemble, limits)
  {
    hide Next, WriteServed;
    RunKeeps(steps, n, assemble, limits);
    var m := After(steps, n, assemble, limits);
    forall e | e in m.cache.recency ensures e.version <= m.Version(e.key) { CachedVersion(m, e, assemble); }
    if m.Idle(t) { ServedOnceWritten(m, t, key, origin, now, assemble, limits); }
  }
}
