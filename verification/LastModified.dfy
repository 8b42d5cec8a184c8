/** The Last-Modified discipline of the feed cache, for renders that overlap
    and renders that do not: what a 304 answer to If-Modified-Since tells a
    client (section 13.1.3 of RFC 9110). */
module LastModified {
  import opened Wrappers
  import opened FeedCache

  type Thread = nat

  /** A render between its two critical sections. */
  datatype Rendering = Rendering(key: Key, origin: string, version: nat, xml: string, started: Started)

  datatype Machine = Machine(cache: State, renders: map<Thread, Rendering>)

  const EMPTY := Machine(State([], map[]), map[])

  /** The critical sections of any number of requests, in any order. The
      clock reading `now` is arbitrary and may go back. */
  datatype Step =
    | Poll(key: Key, origin: string, version: nat)
    | Begin(t: Thread, key: Key, origin: string, version: nat, xml: string)
    | End(t: Thread, now: Time)

  datatype Answer = Answer(key: Key, rendered: Rendered)

  function EntryOf(r: Rendering, now: Time): Entry { Fresh(r.started, r.key, r.origin, r.version, r.xml, now) }

  /** One step and what it answers; a step its thread is not ready for does nothing. */
  function Apply(m: Machine, step: Step, limits: Limits): (Machine, Option<Answer>) {
    match step
    case Poll(key, origin, version) =>
      var (cache, hit) := Peeked(m.cache, key, origin, version);
      (m.(cache := cache), if hit.Some? then Some(Answer(key, hit.value)) else None)
    case Begin(t, key, origin, version, xml) =>
      if t in m.renders then (m, None)
      else
        var (cache, started) := Begun(m.cache, key);
        if Answers(started, origin, version)
        then (m.(cache := cache), Some(Answer(key, started.cached.value.rendered)))
        else (Machine(cache, m.renders[t := Rendering(key, origin, version, xml, started)]), None)
    case End(t, now) =>
      if t !in m.renders then (m, None)
      else
        var (cache, rendered) := Ended(m.cache, EntryOf(m.renders[t], now), limits);
        (Machine(cache, m.renders - {t}), Some(Answer(m.renders[t].key, rendered)))
  }

  /** The machine after the first n steps. */
  function After(steps: seq<Step>, n: nat, limits: Limits): Machine
    requires n <= |steps|
  {
    if n == 0 then EMPTY else Apply(After(steps, n - 1, limits), steps[n - 1], limits).0
  }

  function Response(steps: seq<Step>, n: nat, limits: Limits): Option<Answer>
    requires n < |steps|
  {
    Apply(After(steps, n, limits), steps[n], limits).1
  }

  /** The feeds ever rendered. */
  function Feeds(steps: seq<Step>): set<Key> { set i | 0 <= i < |steps| && steps[i].Begin? :: steps[i].key }

  /** Every render is of a stored series, and there are few enough feeds for
      their validators never to be wiped. */
  ghost predicate Ordinary(steps: seq<Step>) {
    && (forall i | 0 <= i < |steps| && steps[i].Begin? :: steps[i].version > 0)
    && |Feeds(steps)| <= MAX_VALIDATORS
  }

  /** The header carries no fractions of a second. */
  function HttpDate(t: Time): Time { Truncate(t) }

  predicate NotModifiedSince(since: Time, lastModified: Time) { !(Truncate(lastModified) > since) }

  // ---------- what every interleaving keeps ----------

  function ValidatorOf(r: Rendered): Validator { Validator(r.etag, r.lastModified) }

  function Current(m: Machine, key: Key): Option<Validator> {
    if key in m.cache.validators then Some(m.cache.validators[key]) else None
  }

  /** A cached entry carries its feed's validator: one step writes both. */
  ghost predicate Sound(s: State, feeds: set<Key>) {
    && Unique(s.recency)
    && (forall e | e in s.recency ::
          e.rendered.etag == ETag(e.rendered.xml) && e.key in s.validators
          && s.validators[e.key] == ValidatorOf(e.rendered))
    && s.validators.Keys <= feeds
  }

  ghost predicate Ok(m: Machine, feeds: set<Key>) {
    && Sound(m.cache, feeds)
    && (forall t | t in m.renders :: m.renders[t].version > 0 && m.renders[t].key in feeds)
  }

  /** A render lands unless a newer one for the same origin is cached by then. */
  predicate Lands(m: Machine, step: Step) {
    && step.End? && step.t in m.renders
    && var (r, current) := (m.renders[step.t], Find(m.cache.recency, m.renders[step.t].key));
       !(current.Some? && current.value.origin == r.origin && current.value.version > r.version)
  }

  lemma {:induction false} EvictMembers(r: seq<Entry>, limits: Limits)
    requires Unique(r)
    ensures Unique(Evict(r, limits)) && forall e | e in Evict(r, limits) :: e in r
  {
    LongestPrefixSurvives(r, limits);
  }

  lemma KeysFit(keys: set<Key>, feeds: set<Key>, key: Key)
    requires keys <= feeds && key in feeds && key !in keys
    ensures |keys| < |feeds|
  {
    assert |keys| + |feeds - keys| == |feeds|;
  }

  /** Using a feed changes nothing but the order. */
  lemma TouchKeeps(s: State, key: Key, feeds: set<Key>)
    requires Sound(s, feeds)
    ensures Sound(s.(recency := Touch(s.recency, key)), feeds)
    ensures Find(Touch(s.recency, key), key) == Find(s.recency, key)
  {
    hide Drop;
    TouchMembers(s.recency, key);
    FindMember(s.recency, key);
  }

  /** A finished render becomes the feed's entry and validator at once. */
  lemma EndKeeps(s: State, e: Entry, limits: Limits, feeds: set<Key>)
    requires Sound(s, feeds) && e.version > 0 && e.key in feeds && |feeds| <= MAX_VALIDATORS
    requires e.rendered.etag == ETag(e.rendered.xml)
    requires var current := Find(s.recency, e.key);
             !(current.Some? && current.value.origin == e.origin && current.value.version > e.version)
    ensures var (s', r) := Ended(s, e, limits);
            && Sound(s', feeds) && r == e.rendered
            && s'.validators == s.validators[e.key := ValidatorOf(e.rendered)]
  {
    hide Find, Drop, Evict, Bytes;
    var others := Drop(s.recency, e.key);
    DropMembers(s.recency, e.key);
    DropUnique(s.recency, e.key);
    if e.key !in s.validators { KeysFit(s.validators.Keys, feeds, e.key); }
    forall i | 0 <= i < |others| ensures others[i].key != e.key { assert others[i] in others; }
    assert Unique([e] + others);
    EvictMembers([e] + others, limits);
  }

  lemma CachedIsCurrent(s: State, key: Key, feeds: set<Key>)
    requires Sound(s, feeds)
    ensures var e := Find(s.recency, key);
            e.Some? ==>
              && key in s.validators && s.validators[key] == ValidatorOf(e.value.rendered)
              && e.value.rendered.etag == ETag(e.value.rendered.xml)
  {
    FindMember(s.recency, key);
  }

  /** The validators after a step: only a render that lands writes one. */
  ghost predicate Settles(m: Machine, step: Step, m': Machine, answer: Option<Answer>) {
    && (answer.Some? ==>
          && answer.value.rendered.etag == ETag(answer.value.rendered.xml)
          && Current(m', answer.value.key) == Some(ValidatorOf(answer.value.rendered)))
    && if Lands(m, step) then
         && answer == Some(Answer(m.renders[step.t].key, EntryOf(m.renders[step.t], step.now).rendered))
         && m'.cache.validators == m.cache.validators[answer.value.key := ValidatorOf(answer.value.rendered)]
       else m'.cache.validators == m.cache.validators
  }

  lemma ApplyKeeps(m: Machine, step: Step, limits: Limits, feeds: set<Key>)
    requires Ok(m, feeds) && |feeds| <= MAX_VALIDATORS
    requires step.Begin? ==> step.key in feeds && step.version > 0
    ensures var (m', answer) := Apply(m, step, limits);
            Ok(m', feeds) && Settles(m, step, m', answer)
  {
    hide Find, Touch, Ended, Sound, Stamp;
    match step
    case Poll(key, _, _) =>
      TouchKeeps(m.cache, key, feeds);
      CachedIsCurrent(m.cache, key, feeds);
    case Begin(_, key, _, _, _) =>
      TouchKeeps(m.cache, key, feeds);
      CachedIsCurrent(m.cache, key, feeds);
    case End(t, now) =>
      if t in m.renders {
        var e := EntryOf(m.renders[t], now);
        if Lands(m, step) {
          EndKeeps(m.cache, e, limits, feeds);
        } else {
          TouchKeeps(m.cache, e.key, feeds);
          CachedIsCurrent(m.cache, e.key, feeds);
          NewerAnswers(m.cache, e, limits);
        }
      }
  }

  lemma NewerAnswers(s: State, e: Entry, limits: Limits)
    requires e.version > 0
    requires var current := Find(s.recency, e.key);
             current.Some? && current.value.origin == e.origin && current.value.version > e.version
    ensures Ended(s, e, limits)
         == (s.(recency := Touch(s.recency, e.key)), Find(s.recency, e.key).value.rendered)
  {}

  lemma {:induction false} RunOk(steps: seq<Step>, n: nat, limits: Limits)
    requires Ordinary(steps) && n <= |steps|
    ensures Ok(After(steps, n, limits), Feeds(steps))
  {
    hide Apply, Ok;
    if n == 0 {
      assert Ok(EMPTY, Feeds(steps)) by { EmptyIsOk(Feeds(steps)); }
    } else {
      RunOk(steps, n - 1, limits);
      ApplyKeeps(After(steps, n - 1, limits), steps[n - 1], limits, Feeds(steps));
    }
  }

  lemma EmptyIsOk(feeds: set<Key>)
    ensures Ok(EMPTY, feeds)
  {}

  lemma StepSettles(steps: seq<Step>, n: nat, limits: Limits)
    requires Ordinary(steps) && n < |steps|
    ensures Settles(After(steps, n, limits), steps[n], After(steps, n + 1, limits), Response(steps, n, limits))
  {
    hide Ok, Settles;
    RunOk(steps, n, limits);
    ApplyKeeps(After(steps, n, limits), steps[n], limits, Feeds(steps));
  }

  /** Over any run, whatever is rendered, the validators stay bounded. */
  lemma {:induction false} ValidatorsBounded(steps: seq<Step>, n: nat, limits: Limits)
    requires n <= |steps|
    ensures |After(steps, n, limits).cache.validators| <= 10_000
  {
    hide Touch, Evict, Drop, Find, Fresh;
    if n > 0 {
      ValidatorsBounded(steps, n - 1, limits);
      var m, step := After(steps, n - 1, limits), steps[n - 1];
      if step.End? && step.t in m.renders {
        ValidatorsKept(m.cache.validators, EntryOf(m.renders[step.t], step.now), m.renders[step.t].key);
      }
    }
  }

  // ---------- served while it is cached ----------

  /** A landing render of another feed leaves no room for this entry. */
  ghost predicate PushesOut(m: Machine, step: Step, e: Entry, limits: Limits) {
    && Lands(m, step)
    && var first := EntryOf(m.renders[step.t], step.now);
       NoRoom([first] + Drop(m.cache.recency, first.key), e, limits)
  }

  lemma LandingKeeps(m: Machine, step: Step, e: Entry, limits: Limits, feeds: set<Key>)
    requires Ok(m, feeds) && e in m.cache.recency && Lands(m, step) && m.renders[step.t].key != e.key
    ensures e in Apply(m, step, limits).0.cache.recency <==> !PushesOut(m, step, e, limits)
  {
    hide Drop, Evict, NoRoom, Find;
    var first := EntryOf(m.renders[step.t], step.now);
    assert Ended(m.cache, first, limits).0.recency == Evict([first] + Drop(m.cache.recency, first.key), limits);
    PutKeeps(m.cache.recency, first, e, limits);
  }

  lemma StepKeepsCached(m: Machine, step: Step, e: Entry, limits: Limits, feeds: set<Key>)
    requires Ok(m, feeds) && e in m.cache.recency
    requires Lands(m, step) ==> m.renders[step.t].key != e.key
    ensures e in Apply(m, step, limits).0.cache.recency <==> !PushesOut(m, step, e, limits)
  {
    if Lands(m, step) {
      LandingKeeps(m, step, e, limits, feeds);
    } else {
      hide Find, Touch, Evict, Drop;
      match step
      case Poll(key, _, _) => TouchMembers(m.cache.recency, key);
      case Begin(_, key, _, _, _) => TouchMembers(m.cache.recency, key);
      case End(t, _) => if t in m.renders { TouchMembers(m.cache.recency, m.renders[t].key); }
    }
  }

  /** Short of a landing render of the same feed, an entry stays cached until
      renders of other feeds push it out, and no longer. */
  lemma {:induction false} CachedUntilPushedOut(steps: seq<Step>, i: nat, j: nat, e: Entry, limits: Limits)
    requires Ordinary(steps) && i <= j <= |steps| && e in After(steps, i, limits).cache.recency
    requires forall k | i <= k < j ::
               Lands(After(steps, k, limits), steps[k]) ==> After(steps, k, limits).renders[steps[k].t].key != e.key
    requires forall k | i <= k < j - 1 :: !PushesOut(After(steps, k, limits), steps[k], e, limits)
    ensures e in After(steps, j, limits).cache.recency
       <==> !(i < j && PushesOut(After(steps, j - 1, limits), steps[j - 1], e, limits))
    decreases j
  {
    hide Apply, PushesOut, Ok;
    if i < j {
      CachedUntilPushedOut(steps, i, j - 1, e, limits);
      RunOk(steps, j - 1, limits);
      StepKeepsCached(After(steps, j - 1, limits), steps[j - 1], e, limits, Feeds(steps));
    }
  }

  /** A poll is answered exactly when the feed is cached for its origin in its
      version, and with that. */
  lemma PollAnsweredIff(steps: seq<Step>, j: nat, limits: Limits)
    requires Ordinary(steps) && j < |steps| && steps[j].Poll?
    ensures var (cache, step, answer) := (After(steps, j, limits).cache, steps[j], Response(steps, j, limits));
            && (answer.Some? <==> exists e :: Holds(cache, step.key, step.origin, step.version, e))
            && (forall e | Holds(cache, step.key, step.origin, step.version, e) ::
                  answer == Some(Answer(step.key, e.rendered)))
  {
    hide Peeked;
    RunOk(steps, j, limits);
    PeekAnswersIff(After(steps, j, limits).cache, steps[j].key, steps[j].origin, steps[j].version);
  }

  /** A render that landed is what every poll for that origin and version is
      answered with, until another render of the feed lands or other feeds
      push it out. */
  lemma UpToDateIsServed(steps: seq<Step>, i: nat, j: nat, limits: Limits)
    requires Ordinary(steps) && i < j < |steps| && Lands(After(steps, i, limits), steps[i])
    requires var r := After(steps, i, limits).renders[steps[i].t]; steps[j] == Poll(r.key, r.origin, r.version)
    requires forall k | i < k < j ::
               && (Lands(After(steps, k, limits), steps[k]) ==>
                     After(steps, k, limits).renders[steps[k].t].key != steps[j].key)
               && !PushesOut(After(steps, k, limits), steps[k],
                             EntryOf(After(steps, i, limits).renders[steps[i].t], steps[i].now), limits)
    ensures Response(steps, i, limits).Some? && Response(steps, j, limits) == Response(steps, i, limits)
    ensures Response(steps, j, limits).value.rendered.xml == After(steps, i, limits).renders[steps[i].t].xml
  {
    var m := After(steps, i, limits);
    var e := EntryOf(m.renders[steps[i].t], steps[i].now);
    hide PushesOut;
    RunOk(steps, i, limits);
    LandsFirst(m, steps[i], limits, Feeds(steps));
    hide Apply, Lands, Ok;
    CachedUntilPushedOut(steps, i + 1, j, e, limits);
    PollAnsweredIff(steps, j, limits);
    assert Holds(After(steps, j, limits).cache, steps[j].key, steps[j].origin, steps[j].version, e);
  }

  lemma LandsFirst(m: Machine, step: Step, limits: Limits, feeds: set<Key>)
    requires Ok(m, feeds) && Lands(m, step)
    ensures var e := EntryOf(m.renders[step.t], step.now);
            var (m', answer) := Apply(m, step, limits);
            e in m'.cache.recency && answer == Some(Answer(e.key, e.rendered))
  {
    hide Drop, Evict, Find;
    var e := EntryOf(m.renders[step.t], step.now);
    var list := [e] + Drop(m.cache.recency, e.key);
    LongestPrefixSurvives(list, limits);
    assert Evict(list, limits)[0] == list[0] == e;
    assert Ended(m.cache, e, limits).0.recency == Evict(list, limits);
  }

  // ---------- the guard of one landing render ----------

  /** Another tag goes with a later second, the same tag with the same second. */
  predicate HonestMove(v: Validator, v': Validator) {
    if v'.etag == v.etag then Truncate(v'.lastModified) == Truncate(v.lastModified)
    else Truncate(v.lastModified) < Truncate(v'.lastModified)
  }

  /** What a landing render must meet, in whole seconds, from the validator it
      saw when it began, the one it replaces, its tag and its clock reading. */
  predicate Guard(snapshot: Option<Validator>, current: Option<Validator>, etag: ETag, now: Time) {
    current.Some? ==>
      var (clock, last) := (Truncate(now), Truncate(current.value.lastModified));
      if snapshot.None? then
        if etag == current.value.etag then clock == last else clock > last
      else
        var seen := Truncate(snapshot.value.lastModified);
        if snapshot.value.etag == etag then
          if etag == current.value.etag then seen == last else seen > last
        else if etag == current.value.etag then
          (clock == last && seen < last) || (clock < last && seen + SECOND == last)
        else clock > last || seen >= last
  }

  predicate Guarded(m: Machine, step: Step) {
    Lands(m, step) ==>
      var r := m.renders[step.t];
      Guard(r.started.previous, Current(m, r.key), ETag(r.xml), step.now)
  }

  /** The guard is exact for one render. */
  lemma GuardIsExact(snapshot: Option<Validator>, current: Option<Validator>, etag: ETag, now: Time)
    ensures Guard(snapshot, current, etag, now)
       <==> (current.Some? ==> HonestMove(current.value, Validator(etag, Stamp(snapshot, etag, now))))
  {}

  // ---------- every pair of answers ----------

  ghost predicate BothAnswered(steps: seq<Step>, i: nat, j: nat, limits: Limits) {
    && i < j < |steps|
    && Response(steps, i, limits).Some? && Response(steps, j, limits).Some?
    && Response(steps, i, limits).value.key == Response(steps, j, limits).value.key
  }

  /** The feed's answers from i up to n all have the XML of the i-th. */
  ghost predicate SameXml(steps: seq<Step>, i: nat, n: nat, limits: Limits)
    requires i < |steps| && n <= |steps| && Response(steps, i, limits).Some?
  {
    var first := Response(steps, i, limits).value;
    forall k | i < k < n && Answered(steps, k, first.key, limits) ::
      Response(steps, k, limits).value.rendered.xml == first.rendered.xml
  }

  ghost predicate Answered(steps: seq<Step>, k: nat, key: Key, limits: Limits)
    requires k < |steps|
  {
    Response(steps, k, limits).Some? && Response(steps, k, limits).value.key == key
  }

  /** Changed XML has a later second, and XML that stood still kept its second. */
  ghost predicate HonestPair(steps: seq<Step>, i: nat, j: nat, limits: Limits)
    requires BothAnswered(steps, i, j, limits)
  {
    var (a, b) := (Response(steps, i, limits).value.rendered, Response(steps, j, limits).value.rendered);
    && (a.xml != b.xml ==> Truncate(a.lastModified) < Truncate(b.lastModified))
    && (SameXml(steps, i, j + 1, limits) ==> Truncate(a.lastModified) == Truncate(b.lastModified))
  }

  ghost predicate AllGuarded(steps: seq<Step>, limits: Limits) {
    forall n | 0 <= n < |steps| :: Guarded(After(steps, n, limits), steps[n])
  }

  ghost predicate AllHonest(steps: seq<Step>, limits: Limits) {
    forall i, j | BothAnswered(steps, i, j, limits) :: HonestPair(steps, i, j, limits)
  }

  /** Never an earlier second, and a later one with another tag. */
  predicate Follows(v: Validator, v': Validator) {
    Truncate(v.lastModified) <= Truncate(v'.lastModified)
    && (v.etag != v'.etag ==> Truncate(v.lastModified) < Truncate(v'.lastModified))
  }

  lemma StepMoves(steps: seq<Step>, n: nat, key: Key, limits: Limits)
    requires Ordinary(steps) && n < |steps|
    ensures var (v, v') := (Current(After(steps, n, limits), key), Current(After(steps, n + 1, limits), key));
            && (v.Some? ==> v'.Some?)
            && (v != v' ==> Answered(steps, n, key, limits))
            && (v.Some? && Guarded(After(steps, n, limits), steps[n]) ==> HonestMove(v.value, v'.value))
            && (Answered(steps, n, key, limits) ==> v' == Some(ValidatorOf(Response(steps, n, limits).value.rendered)))
  {
    hide Apply, Guard, Stamp, After;
    StepSettles(steps, n, limits);
    var m := After(steps, n, limits);
    if Lands(m, steps[n]) {
      var r := m.renders[steps[n].t];
      GuardIsExact(r.started.previous, Current(m, r.key), ETag(r.xml), steps[n].now);
    }
  }

  /** With every guard met, a feed's validator is kept and only moves forward. */
  lemma {:induction false} ValidatorMovesForward(steps: seq<Step>, i: nat, n: nat, key: Key, limits: Limits)
    requires Ordinary(steps) && AllGuarded(steps, limits)
    requires i <= n <= |steps| && Current(After(steps, i, limits), key).Some?
    ensures var (v, v') := (Current(After(steps, i, limits), key), Current(After(steps, n, limits), key));
            v'.Some? && Follows(v.value, v'.value)
  {
    hide Apply, After, Guarded;
    if i < n {
      ValidatorMovesForward(steps, i, n - 1, key, limits);
      StepMoves(steps, n - 1, key, limits);
    }
  }

  /** With every guard met, XML that stands still keeps tag and second. */
  lemma {:induction false} ValidatorStands(steps: seq<Step>, i: nat, n: nat, limits: Limits)
    requires Ordinary(steps) && AllGuarded(steps, limits)
    requires i < n <= |steps| && Response(steps, i, limits).Some? && SameXml(steps, i, n, limits)
    ensures var a := Response(steps, i, limits).value;
            var v := Current(After(steps, n, limits), a.key);
            && v.Some? && v.value.etag == a.rendered.etag == ETag(a.rendered.xml)
            && Truncate(v.value.lastModified) == Truncate(a.rendered.lastModified)
  {
    hide Apply, After, Guarded, Lands;
    var key := Response(steps, i, limits).value.key;
    StepMoves(steps, n - 1, key, limits);
    StepSettles(steps, n - 1, limits);
    if n > i + 1 {
      ValidatorStands(steps, i, n - 1, limits);
      assert Answered(steps, n - 1, key, limits) ==>
        Response(steps, n - 1, limits).value.rendered.xml == Response(steps, i, limits).value.rendered.xml;
    }
  }

  lemma GuardedPairIsHonest(steps: seq<Step>, i: nat, j: nat, limits: Limits)
    requires Ordinary(steps) && AllGuarded(steps, limits) && BothAnswered(steps, i, j, limits)
    ensures HonestPair(steps, i, j, limits)
  {
    hide Apply, After, Response, AllGuarded, Lands;
    var key := Response(steps, i, limits).value.key;
    StepSettles(steps, i, limits);
    StepSettles(steps, j, limits);
    ValidatorMovesForward(steps, i + 1, j + 1, key, limits);
    if SameXml(steps, i, j + 1, limits) { ValidatorStands(steps, i, j + 1, limits); }
  }

  /** A feed's validator is the one of its last answer. */
  lemma {:induction false} LastAnswer(steps: seq<Step>, n: nat, key: Key, limits: Limits) returns (i: nat)
    requires Ordinary(steps) && n <= |steps| && Current(After(steps, n, limits), key).Some?
    ensures i < n && Answered(steps, i, key, limits)
    ensures Current(After(steps, n, limits), key) == Some(ValidatorOf(Response(steps, i, limits).value.rendered))
    ensures forall k | i < k < n :: !Answered(steps, k, key, limits)
  {
    hide Apply, Guarded;
    StepMoves(steps, n - 1, key, limits);
    if Answered(steps, n - 1, key, limits) {
      i := n - 1;
    } else {
      i := LastAnswer(steps, n - 1, key, limits);
    }
  }

  lemma HonestStepIsGuarded(steps: seq<Step>, n: nat, limits: Limits)
    requires Ordinary(steps) && AllHonest(steps, limits) && n < |steps|
    ensures Guarded(After(steps, n, limits), steps[n])
  {
    hide Apply, Guard, Stamp, After;
    var m := After(steps, n, limits);
    if Lands(m, steps[n]) {
      var r := m.renders[steps[n].t];
      StepSettles(steps, n, limits);
      GuardIsExact(r.started.previous, Current(m, r.key), ETag(r.xml), steps[n].now);
      if Current(m, r.key).Some? {
        var i := LastAnswer(steps, n, r.key, limits);
        StepSettles(steps, i, limits);
        assert BothAnswered(steps, i, n, limits);
        assert HonestPair(steps, i, n, limits);
      }
    }
  }

  /** Over any interleaving of renders and polls, with any overlap and any
      clock: every pair of answers of a feed is honest (changed XML has a later
      second, unchanged XML keeps its second) if and only if every render that
      lands meets its guard. */
  lemma HonestIffGuarded(steps: seq<Step>, limits: Limits)
    requires Ordinary(steps)
    ensures AllHonest(steps, limits) <==> AllGuarded(steps, limits)
  {
    if AllHonest(steps, limits) {
      forall n | 0 <= n < |steps| ensures Guarded(After(steps, n, limits), steps[n]) {
        HonestStepIsGuarded(steps, n, limits);
      }
    }
    if AllGuarded(steps, limits) {
      forall i, j | BothAnswered(steps, i, j, limits) ensures HonestPair(steps, i, j, limits) {
        GuardedPairIsHonest(steps, i, j, limits);
      }
    }
  }

  /** A 304 to If-Modified-Since then never hides a change: judged by the date
      of any earlier answer, "not modified" means the XML is the same. */
  lemma NotModifiedIsHonest(steps: seq<Step>, i: nat, j: nat, limits: Limits)
    requires Ordinary(steps) && AllGuarded(steps, limits) && BothAnswered(steps, i, j, limits)
    requires NotModifiedSince(HttpDate(Response(steps, i, limits).value.rendered.lastModified),
                              Response(steps, j, limits).value.rendered.lastModified)
    ensures Response(steps, i, limits).value.rendered.xml == Response(steps, j, limits).value.rendered.xml
  {
    hide Apply, After, Response, AllGuarded;
    GuardedPairIsHonest(steps, i, j, limits);
  }

  /** And it is given whenever there is no change: with the date of an earlier
      answer, or any later one, while the XML stood still; with an earlier
      date than the feed's never. */
  lemma UnchangedIsNotModified(steps: seq<Step>, i: nat, j: nat, limits: Limits, since: Time)
    requires Ordinary(steps) && AllGuarded(steps, limits) && BothAnswered(steps, i, j, limits)
    ensures var (a, b) := (Response(steps, i, limits).value.rendered, Response(steps, j, limits).value.rendered);
            && (SameXml(steps, i, j + 1, limits) && a.lastModified / SECOND * SECOND <= since ==>
                  NotModifiedSince(since, b.lastModified))
            && (since < b.lastModified / SECOND * SECOND ==> !NotModifiedSince(since, b.lastModified))
  {
    hide Apply, After, Response, AllGuarded, SameXml;
    GuardedPairIsHonest(steps, i, j, limits);
  }

  // ---------- renders of a feed that do not overlap ----------

  /** No feed ever has two renders under way. */
  ghost predicate Separate(steps: seq<Step>, limits: Limits) {
    forall n | 0 <= n <= |steps| :: OneEach(After(steps, n, limits))
  }

  ghost predicate OneEach(m: Machine) {
    forall t, u | t in m.renders && u in m.renders && m.renders[t].key == m.renders[u].key :: t == u
  }

  /** What every render saw when it began still stands. */
  ghost predicate UpToDate(m: Machine) {
    forall t | t in m.renders :: m.renders[t].started.previous == Current(m, m.renders[t].key)
  }

  lemma StepUpToDate(m: Machine, step: Step, limits: Limits, feeds: set<Key>)
    requires Ok(m, feeds) && |feeds| <= MAX_VALIDATORS && UpToDate(m) && OneEach(m)
    requires step.Begin? ==> step.key in feeds && step.version > 0
    ensures UpToDate(Apply(m, step, limits).0)
  {
    hide Find, Touch, Ended, Ok, Lands;
    ApplyKeeps(m, step, limits, feeds);
  }

  lemma {:induction false} SeparateIsUpToDate(steps: seq<Step>, n: nat, limits: Limits)
    requires Ordinary(steps) && Separate(steps, limits) && n <= |steps|
    ensures UpToDate(After(steps, n, limits))
  {
    hide Apply, Ok, UpToDate, OneEach;
    if n == 0 {
      assert UpToDate(EMPTY) by { EmptyIsUpToDate(); }
    } else {
      SeparateIsUpToDate(steps, n - 1, limits);
      RunOk(steps, n - 1, limits);
      StepUpToDate(After(steps, n - 1, limits), steps[n - 1], limits, Feeds(steps));
    }
  }

  lemma EmptyIsUpToDate()
    ensures UpToDate(EMPTY)
  {}

  /** An up-to-date snapshot meets the guard, and equal XML then keeps its exact date. */
  lemma UpToDateIsGuarded(current: Option<Validator>, etag: ETag, now: Time)
    ensures Guard(current, current, etag, now)
    ensures current.Some? && current.value.etag == etag ==> Stamp(current, etag, now) == current.value.lastModified
  {}

  /** So without overlap every render that lands meets its guard, whatever the
      clock does, and every pair of answers is honest. */
  lemma SeparateIsGuarded(steps: seq<Step>, limits: Limits)
    requires Ordinary(steps) && Separate(steps, limits)
    ensures AllGuarded(steps, limits) && AllHonest(steps, limits)
  {
    hide Apply, After, Guard, AllHonest;
    forall n | 0 <= n < |steps| ensures Guarded(After(steps, n, limits), steps[n]) {
      SeparateIsUpToDate(steps, n, limits);
      var m := After(steps, n, limits);
      if Lands(m, steps[n]) {
        var r := m.renders[steps[n].t];
        UpToDateIsGuarded(Current(m, r.key), ETag(r.xml), steps[n].now);
      }
    }
    HonestIffGuarded(steps, limits);
  }

  /** Changed XML gets a strictly later whole second, however the clock moves. */
  lemma ChangeMovesDate(steps: seq<Step>, i: nat, j: nat, limits: Limits)
    requires Ordinary(steps) && Separate(steps, limits) && BothAnswered(steps, i, j, limits)
    ensures var a := Response(steps, i, limits).value.rendered;
            var b := Response(steps, j, limits).value.rendered;
            && Truncate(a.lastModified) <= Truncate(b.lastModified)
            && (a.xml != b.xml ==> Truncate(a.lastModified) < Truncate(b.lastModified))
            && (NotModifiedSince(HttpDate(a.lastModified), b.lastModified) ==> a.xml == b.xml)
  {
    hide Apply, After, Response, AllGuarded, AllHonest, Separate, Lands;
    SeparateIsGuarded(steps, limits);
    StepSettles(steps, i, limits);
    StepSettles(steps, j, limits);
    ValidatorMovesForward(steps, i + 1, j + 1, Response(steps, i, limits).value.key, limits);
  }

  /** XML that stays the same keeps its exact Last-Modified, through evictions
      and re-renders. */
  lemma SameXmlKeepsDate(steps: seq<Step>, i: nat, j: nat, limits: Limits)
    requires Ordinary(steps) && Separate(steps, limits) && BothAnswered(steps, i, j, limits)
    requires SameXml(steps, i, j + 1, limits)
    ensures Response(steps, j, limits).value.rendered.lastModified
         == Response(steps, i, limits).value.rendered.lastModified
  {
    hide Apply, After, Response, Separate, Lands;
    StepSettles(steps, j, limits);
    DateStands(steps, i, j + 1, limits);
  }

  lemma {:induction false} DateStands(steps: seq<Step>, i: nat, n: nat, limits: Limits)
    requires Ordinary(steps) && Separate(steps, limits)
    requires i < n <= |steps| && Response(steps, i, limits).Some? && SameXml(steps, i, n, limits)
    ensures var a := Response(steps, i, limits).value;
            Current(After(steps, n, limits), a.key) == Some(ValidatorOf(a.rendered))
  {
    hide Apply, Separate, Guard, Stamp;
    var key := Response(steps, i, limits).value.key;
    StepSettles(steps, n - 1, limits);
    if n > i + 1 {
      DateStands(steps, i, n - 1, limits);
      StepSettles(steps, i, limits);
      StepMoves(steps, n - 1, key, limits);
      if Answered(steps, n - 1, key, limits) {
        SeparateIsUpToDate(steps, n - 1, limits);
        var m := After(steps, n - 1, limits);
        if Lands(m, steps[n - 1]) {
          var r := m.renders[steps[n - 1].t];
          UpToDateIsGuarded(Current(m, r.key), ETag(r.xml), steps[n - 1].now);
        }
      }
    }
  }

  // ---------- what overlap can do ----------

  /** Renders of the two bodies overlap: both see no validator, the clock has
      not reached another second, and a client holding the first body is told
      that nothing changed. */
  lemma OverlappingRendersCollide(limits: Limits) returns (steps: seq<Step>)
    ensures Ordinary(steps) && |steps| == 4 && BothAnswered(steps, 2, 3, limits)
    ensures !Guarded(After(steps, 3, limits), steps[3])
    ensures var a := Response(steps, 2, limits).value.rendered;
            var b := Response(steps, 3, limits).value.rendered;
            a.xml != b.xml && NotModifiedSince(HttpDate(a.lastModified), b.lastModified)
  {
    steps := [Begin(0, "feed", "origin", 1, "old"), Begin(1, "feed", "origin", 2, "new"),
              End(0, 5_200_000_000), End(1, 5_700_000_000)];
    assert "old"[0] != "new"[0];
    FewFeeds(steps, "feed");
    hide Apply, Guard, Feeds, After, Response, Guarded, Stamp;
    Unfold(steps, limits);
    StartsRender(EMPTY, steps[0], limits);
    StartsRender(After(steps, 1, limits), steps[1], limits);
    LandsAlone(After(steps, 2, limits), 0, 5_200_000_000, limits);
    var m3 := After(steps, 3, limits);
    LandsAlone(m3, 1, 5_700_000_000, limits);
    assert !Guarded(m3, steps[3]) by { GuardIsExact(None, Current(m3, "feed"), ETag("new"), 5_700_000_000); }
  }

  /** Renders of one and the same body overlap, and the one that read the
      clock first lands last: it moves the date of a body that did not change
      back a second. A later render overlaps nothing and meets its guard, yet
      a client of the first answer is told that the new body is the old one. */
  lemma EqualBodiesTurnBack(limits: Limits) returns (steps: seq<Step>)
    ensures Ordinary(steps) && |steps| == 6
    ensures BothAnswered(steps, 2, 3, limits) && BothAnswered(steps, 2, 5, limits)
    ensures !Guarded(After(steps, 3, limits), steps[3]) && Guarded(After(steps, 5, limits), steps[5])
    ensures var (a, b) := (Response(steps, 2, limits).value.rendered, Response(steps, 3, limits).value.rendered);
            var c := Response(steps, 5, limits).value.rendered;
            && a.xml == b.xml && Truncate(b.lastModified) < Truncate(a.lastModified)
            && a.xml != c.xml && NotModifiedSince(HttpDate(a.lastModified), c.lastModified)
  {
    steps := [Begin(0, "feed", "origin", 1, "B"), Begin(1, "feed", "origin", 1, "B"),
              End(1, 10_100_000_000), End(0, 9_900_000_000),
              Begin(2, "feed", "origin", 2, "C"), End(2, 10_500_000_000)];
    assert Ordinary(steps) by { FewFeeds(steps, "feed"); }
    hide Apply, Guard, Feeds, After, Response, Guarded, EntryOf, Ordinary, Truncate, HttpDate, NotModifiedSince;
    var (y, x) := (EntryOf(B_RENDER, 10_100_000_000), EntryOf(B_RENDER, 9_900_000_000));
    EqualBodiesLand(steps, limits);
    OtherBodyLands(steps, x, limits);
    TurnedBack(After(steps, 3, limits), After(steps, 5, limits), x, y);
  }

  lemma OtherBodyLands(steps: seq<Step>, x: Entry, limits: Limits)
    requires |steps| == 6 && steps[4] == Begin(2, "feed", "origin", 2, "C") && steps[5] == End(2, 10_500_000_000)
    requires x.key == "feed" && x.version == 1
    requires After(steps, 4, limits) == Machine(State([x], map["feed" := ValidatorOf(x.rendered)]), map[])
    ensures var m5 := After(steps, 5, limits);
            && Current(m5, "feed") == Some(ValidatorOf(x.rendered)) && 2 in m5.renders
            && m5.renders[2] == Rendering("feed", "origin", 2, "C", Started(Some(x), Current(m5, "feed")))
            && Response(steps, 5, limits) == Some(Answer("feed", EntryOf(m5.renders[2], 10_500_000_000).rendered))
  {
    hide Apply, After, Response, EntryOf;
    Unfold(steps, limits);
    StartsRender(After(steps, 4, limits), steps[4], limits);
    LandsAlone(After(steps, 5, limits), 2, 10_500_000_000, limits);
    assert (After(steps, 6, limits), Response(steps, 5, limits)) == Apply(After(steps, 5, limits), steps[5], limits);
  }

  const B_RENDER := Rendering("feed", "origin", 1, "B", Started(None, None))

  lemma EqualBodiesLand(steps: seq<Step>, limits: Limits)
    requires |steps| >= 4 && steps[..4] == [Begin(0, "feed", "origin", 1, "B"), Begin(1, "feed", "origin", 1, "B"),
                                            End(1, 10_100_000_000), End(0, 9_900_000_000)]
    ensures var (y, x) := (EntryOf(B_RENDER, 10_100_000_000), EntryOf(B_RENDER, 9_900_000_000));
            && After(steps, 3, limits)
            == Machine(State([y], map["feed" := ValidatorOf(y.rendered)]), map[0 := B_RENDER])
            && After(steps, 4, limits) == Machine(State([x], map["feed" := ValidatorOf(x.rendered)]), map[])
            && Response(steps, 2, limits) == Some(Answer("feed", y.rendered))
            && Response(steps, 3, limits) == Some(Answer("feed", x.rendered))
            && Lands(After(steps, 3, limits), steps[3])
            && x.key == y.key == "feed" && x.version == y.version == 1 && x.rendered.xml == y.rendered.xml == "B"
  {
    hide Apply, After, Response, Stamp;
    Unfold(steps, limits);
    assert forall i | 0 <= i < 4 :: steps[i] == steps[..4][i];
    StartsRender(EMPTY, steps[0], limits);
    StartsRender(After(steps, 1, limits), steps[1], limits);
    assert After(steps, 2, limits) == Machine(State([], map[]), map[0 := B_RENDER, 1 := B_RENDER]);
    LandsAlone(After(steps, 2, limits), 1, 10_100_000_000, limits);
    LandsAlone(After(steps, 3, limits), 0, 9_900_000_000, limits);
  }

  lemma TurnedBack(m3: Machine, m5: Machine, x: Entry, y: Entry)
    requires x == EntryOf(B_RENDER, 9_900_000_000) && y == EntryOf(B_RENDER, 10_100_000_000)
    requires 0 in m3.renders && m3.renders[0] == B_RENDER
    requires Lands(m3, End(0, 9_900_000_000)) && Current(m3, "feed") == Some(ValidatorOf(y.rendered))
    requires Current(m5, "feed") == Some(ValidatorOf(x.rendered)) && 2 in m5.renders && m5.renders[2]
          == Rendering("feed", "origin", 2, "C", Started(Some(x), Current(m5, "feed")))
    ensures !Guarded(m3, End(0, 9_900_000_000)) && Guarded(m5, End(2, 10_500_000_000))
    ensures Truncate(x.rendered.lastModified) < Truncate(y.rendered.lastModified)
    ensures var c := EntryOf(m5.renders[2], 10_500_000_000).rendered;
            c.xml == "C" && NotModifiedSince(HttpDate(y.rendered.lastModified), c.lastModified)
  {
    assert "B"[0] != "C"[0];
    hide Find;
  }

  /** The machine step by step. */
  lemma Unfold(steps: seq<Step>, limits: Limits)
    ensures After(steps, 0, limits) == EMPTY
    ensures forall n | 0 <= n < |steps| ::
              (After(steps, n + 1, limits), Response(steps, n, limits))
              == Apply(After(steps, n, limits), steps[n], limits)
  {
    hide Apply;
  }

  /** A cache that holds at most the one feed. */
  ghost predicate OnlyFeed(m: Machine, key: Key) {
    && (m.cache.recency == [] || (|m.cache.recency| == 1 && m.cache.recency[0].key == key))
    && m.cache.validators.Keys <= {key}
  }

  lemma StartsRender(m: Machine, step: Step, limits: Limits)
    requires step.Begin? && step.t !in m.renders && OnlyFeed(m, step.key)
    requires m.cache.recency != [] ==> m.cache.recency[0].version < step.version
    ensures var cached := if m.cache.recency == [] then None else Some(m.cache.recency[0]);
            var started := Started(cached, Current(m, step.key));
            var r := Rendering(step.key, step.origin, step.version, step.xml, started);
            Apply(m, step, limits) == (m.(renders := m.renders[step.t := r]), None)
  {
    if m.cache.recency != [] {
      OneEntry(m.cache.recency[0], limits);
      assert m.cache.recency == [m.cache.recency[0]];
    }
    hide Find, Touch;
  }

  lemma OneEntry(e: Entry, limits: Limits)
    ensures Find([e], e.key) == Some(e) && Drop([e], e.key) == [] && Touch([e], e.key) == [e] == Evict([e], limits)
  {
    assert [e][1..] == [];
  }

  lemma LandsAlone(m: Machine, t: Thread, now: Time, limits: Limits)
    requires t in m.renders && m.renders[t].version > 0 && OnlyFeed(m, m.renders[t].key)
    requires m.cache.recency != [] ==> m.cache.recency[0].version <= m.renders[t].version
    ensures var (r, e) := (m.renders[t], EntryOf(m.renders[t], now));
            && Lands(m, End(t, now))
            && Apply(m, End(t, now), limits)
            == (Machine(State([e], map[r.key := ValidatorOf(e.rendered)]), m.renders - {t}),
                Some(Answer(r.key, e.rendered)))
  {
    var r := m.renders[t];
    OneEntry(EntryOf(r, now), limits);
    if m.cache.recency != [] {
      OneEntry(m.cache.recency[0], limits);
      assert m.cache.recency == [m.cache.recency[0]];
    }
    hide Find, Drop, Touch, Evict, Fits, Stamp;
    assert [EntryOf(r, now)] + [] == [EntryOf(r, now)];
    assert m.cache.validators[r.key := ValidatorOf(EntryOf(r, now).rendered)]
        == map[r.key := ValidatorOf(EntryOf(r, now).rendered)];
  }

  lemma FewFeeds(steps: seq<Step>, key: Key)
    requires forall i | 0 <= i < |steps| && steps[i].Begin? :: steps[i].key == key
    ensures |Feeds(steps)| <= 1
  {
    assert Feeds(steps) <= {key};
    assert Feeds(steps) == {} || Feeds(steps) == {key};
  }
}
