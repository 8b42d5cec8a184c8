/** Concurrent requests for one key share one fetch: the pattern of GetSeries
    (internal/feed/refresh.go), Chapters.Get (internal/feed/chapters.go),
    Search (internal/nrk/nrk.go) and the video worker's lookup. */
module SingleFlight {
  import opened Wrappers

  type Key = string
  type Thread = nat
  type CallId = nat

  /** A call shared by its leader and the requests that joined it. */
  datatype Call<R> = Call(key: Key, leader: Thread, result: Option<R>, closed: bool)

  /** Where a request is between two atomic steps. The leader fetches, records
      the result, takes the key off the map and only then closes the call. */
  datatype Phase<R> =
    | Fetching(call: CallId)
    | Fetched(call: CallId)
    | Unlisted(call: CallId)
    | Waiting(call: CallId)
    | Answered(call: CallId, result: R)

  datatype State<R> = State(inFlight: map<Key, CallId>, calls: map<CallId, Call<R>>, threads: map<Thread, Phase<R>>,
                            next: CallId)

  /** The atomic steps; a fetch returns a value, or None when it panics. */
  datatype Op<R> =
    | Request(t: Thread, key: Key)
    | Return(t: Thread, outcome: Option<R>)
    | Unlist(t: Thread)
    | Close(t: Thread)
    | Wake(t: Thread)

  function Empty<R>(): State<R> { State(map[], map[], map[], 0) }

  predicate In<R>(s: State<R>, t: Thread) { t in s.threads }

  predicate Enabled<R>(s: State<R>, op: Op<R>) {
    match op
    case Request(t, _) => !In(s, t) || s.threads[t].Answered?
    case Return(t, _) => In(s, t) && s.threads[t].Fetching? && s.threads[t].call in s.calls
    case Unlist(t) => In(s, t) && s.threads[t].Fetched? && s.threads[t].call in s.calls
    case Close(t) => In(s, t) && s.threads[t].Unlisted? && s.threads[t].call in s.calls
                     && s.calls[s.threads[t].call].result.Some?
    case Wake(t) => In(s, t) && s.threads[t].Waiting? && s.threads[t].call in s.calls
                    && s.calls[s.threads[t].call].closed && s.calls[s.threads[t].call].result.Some?
  }

  /** The first critical section: join the call in flight, or lead a new one. */
  function Joined<R>(s: State<R>, t: Thread, key: Key): State<R> {
    if key in s.inFlight then s.(threads := s.threads[t := Waiting(s.inFlight[key])])
    else
      State(s.inFlight[key := s.next], s.calls[s.next := Call(key, t, None, false)],
            s.threads[t := Fetching(s.next)], s.next + 1)
  }

  /** A fetch that panics leaves the answer that stands for a failure. */
  function Recorded<R>(outcome: Option<R>, panicked: R): R {
    if outcome.Some? then outcome.value else panicked
  }

  function Apply<R>(s: State<R>, op: Op<R>, panicked: R): State<R> {
    if !Enabled(s, op) then s
    else match op
      case Request(t, key) => Joined(s, t, key)
      case Return(t, outcome) =>
        var c := s.threads[t].call;
        s.(calls := s.calls[c := s.calls[c].(result := Some(Recorded(outcome, panicked)))],
           threads := s.threads[t := Fetched(c)])
      case Unlist(t) =>
        var c := s.threads[t].call;
        s.(inFlight := s.inFlight - {s.calls[c].key}, threads := s.threads[t := Unlisted(c)])
      case Close(t) =>
        var c := s.threads[t].call;
        s.(calls := s.calls[c := s.calls[c].(closed := true)],
           threads := s.threads[t := Answered(c, s.calls[c].result.value)])
      case Wake(t) =>
        var c := s.threads[t].call;
        s.(threads := s.threads[t := Answered(c, s.calls[c].result.value)])
  }

  /** The state after the first n steps of any interleaving; a step its
      thread is not ready for does nothing. */
  function After<R>(ops: seq<Op<R>>, n: nat, panicked: R): State<R>
    requires n <= |ops|
  {
    if n == 0 then Empty() else Apply(After(ops, n - 1, panicked), ops[n - 1], panicked)
  }

  // ---------- what every interleaving keeps ----------

  ghost predicate Leads<R>(s: State<R>, c: CallId) {
    && c in s.calls
    && var call := s.calls[c];
       && In(s, call.leader)
       && (s.threads[call.leader] == Fetching(c) || s.threads[call.leader] == Fetched(c)
           || s.threads[call.leader] == Unlisted(c))
  }

  ghost predicate CallOk<R>(s: State<R>, c: CallId)
    requires c in s.calls
  {
    var call := s.calls[c];
    && c < s.next
    && (call.closed ==> call.result.Some?)
    && (!call.closed ==> Leads(s, c))
  }

  ghost predicate ListedOk<R>(s: State<R>, key: Key)
    requires key in s.inFlight
  {
    var c := s.inFlight[key];
    c in s.calls && s.calls[c].key == key && !s.calls[c].closed
    && Leads(s, c) && !s.threads[s.calls[c].leader].Unlisted?
  }

  ghost predicate ThreadOk<R>(s: State<R>, t: Thread)
    requires In(s, t)
  {
    var p := s.threads[t];
    && p.call in s.calls
    && var call := s.calls[p.call];
       match p
       case Fetching(c) => call.leader == t && call.result.None? && !call.closed
                           && call.key in s.inFlight && s.inFlight[call.key] == c
       case Fetched(c) => call.leader == t && call.result.Some? && !call.closed
                          && call.key in s.inFlight && s.inFlight[call.key] == c
       case Unlisted(c) => call.leader == t && call.result.Some? && !call.closed
       case Waiting(c) => call.leader != t
       case Answered(c, result) => call.closed && call.result == Some(result)
  }

  ghost predicate Inv<R(!new)>(s: State<R>) {
    && (forall c | c in s.calls :: CallOk(s, c))
    && (forall key | key in s.inFlight :: ListedOk(s, key))
    && (forall t | t in s.threads :: ThreadOk(s, t))
  }

  lemma JoinKeeps<R(!new)>(s: State<R>, t: Thread, key: Key)
    requires Inv(s) && (!In(s, t) || s.threads[t].Answered?) && key in s.inFlight
    ensures Inv(Joined(s, t, key))
  {
    var s' := Joined(s, t, key);
    assert ListedOk(s, key);
    forall c | c in s'.calls ensures CallOk(s', c) { assert CallOk(s, c); LeaderStays(s, s', t, c); }
    forall k | k in s'.inFlight ensures ListedOk(s', k) { assert ListedOk(s, k); LeaderStays(s, s', t, s.inFlight[k]); }
    forall u | u in s'.threads ensures ThreadOk(s', u) { if u != t { assert ThreadOk(s, u); } }
  }

  /** A request that leads no open call can move without disturbing any. */
  lemma LeaderStays<R(!new)>(s: State<R>, s': State<R>, t: Thread, c: CallId)
    requires In(s, t) ==> s.threads[t].Answered?
    requires c in s.calls && c in s'.calls && s'.calls[c] == s.calls[c]
    requires forall u | u != t && In(s, u) :: In(s', u) && s'.threads[u] == s.threads[u]
    ensures Leads(s, c) ==>
              && Leads(s', c) && s.calls[c].leader != t
              && s'.threads[s.calls[c].leader] == s.threads[s.calls[c].leader]
  {}

  lemma LeadKeeps<R(!new)>(s: State<R>, t: Thread, key: Key)
    requires Inv(s) && (!In(s, t) || s.threads[t].Answered?) && key !in s.inFlight
    ensures Inv(Joined(s, t, key))
  {
    var s' := Joined(s, t, key);
    assert s.next in s.calls ==> CallOk(s, s.next);
    forall c | c in s'.calls ensures CallOk(s', c) {
      if c != s.next { assert CallOk(s, c); LeaderStays(s, s', t, c); }
    }
    forall k | k in s'.inFlight ensures ListedOk(s', k) {
      if k != key { assert ListedOk(s, k); LeaderStays(s, s', t, s.inFlight[k]); }
    }
    forall u | u in s'.threads ensures ThreadOk(s', u) { if u != t { assert ThreadOk(s, u); } }
  }

  /** A request moving on its own call leaves every other call's leader alone. */
  lemma OthersLead<R(!new)>(s: State<R>, s': State<R>, t: Thread, c: CallId)
    requires Inv(s) && In(s, t) && c in s.calls && c in s'.calls && s.threads[t].call != c
    requires s'.calls[c] == s.calls[c] && !s.calls[c].closed
    requires forall u | u != t && In(s, u) :: In(s', u) && s'.threads[u] == s.threads[u]
    ensures Leads(s', c) && s'.threads[s.calls[c].leader] == s.threads[s.calls[c].leader]
  {}

  ghost predicate LeaderStep<R(!new)>(s: State<R>, op: Op<R>) {
    Inv(s) && Enabled(s, op) && (op.Return? || op.Unlist? || op.Close?)
  }

  lemma LeaderKeepsCalls<R(!new)>(s: State<R>, op: Op<R>, panicked: R, c: CallId)
    requires LeaderStep(s, op) && c in Apply(s, op, panicked).calls
    ensures CallOk(Apply(s, op, panicked), c)
  {
    assert ThreadOk(s, op.t) && CallOk(s, c);
    if c != s.threads[op.t].call && !s.calls[c].closed { OthersLead(s, Apply(s, op, panicked), op.t, c); }
  }

  lemma LeaderKeepsList<R(!new)>(s: State<R>, op: Op<R>, panicked: R, k: Key)
    requires LeaderStep(s, op) && k in Apply(s, op, panicked).inFlight
    ensures ListedOk(Apply(s, op, panicked), k)
  {
    assert ThreadOk(s, op.t) && ListedOk(s, k);
    if s.inFlight[k] != s.threads[op.t].call { OthersLead(s, Apply(s, op, panicked), op.t, s.inFlight[k]); }
  }

  lemma LeaderKeepsThread<R(!new)>(s: State<R>, op: Op<R>, panicked: R, u: Thread)
    requires LeaderStep(s, op) && u in Apply(s, op, panicked).threads
    ensures ThreadOk(Apply(s, op, panicked), u)
  {
    assert ThreadOk(s, op.t) && ThreadOk(s, u);
  }

  lemma LeaderKeeps<R(!new)>(s: State<R>, op: Op<R>, panicked: R)
    requires LeaderStep(s, op)
    ensures Inv(Apply(s, op, panicked))
  {
    var s' := Apply(s, op, panicked);
    forall c | c in s'.calls ensures CallOk(s', c) { LeaderKeepsCalls(s, op, panicked, c); }
    forall k | k in s'.inFlight ensures ListedOk(s', k) { LeaderKeepsList(s, op, panicked, k); }
    forall u | u in s'.threads ensures ThreadOk(s', u) { LeaderKeepsThread(s, op, panicked, u); }
  }

  lemma ApplyKeeps<R(!new)>(s: State<R>, op: Op<R>, panicked: R)
    requires Inv(s)
    ensures Inv(Apply(s, op, panicked))
  {
    if Enabled(s, op) {
      match op
      case Request(t, key) => if key in s.inFlight { JoinKeeps(s, t, key); } else { LeadKeeps(s, t, key); }
      case Wake(t) =>
        var s' := Apply(s, op, panicked);
        forall c | c in s'.calls ensures CallOk(s', c) { assert CallOk(s, c); }
        forall k | k in s'.inFlight ensures ListedOk(s', k) { assert ListedOk(s, k); }
        forall u | u in s'.threads ensures ThreadOk(s', u) { assert ThreadOk(s, u); }
      case _ => LeaderKeeps(s, op, panicked);
    }
  }

  lemma {:induction false} AlwaysSound<R(!new)>(ops: seq<Op<R>>, n: nat, panicked: R)
    requires n <= |ops|
    ensures Inv(After(ops, n, panicked))
  {
    hide Apply, Inv;
    if n == 0 {
      EmptyIsSound<R>();
    } else {
      AlwaysSound(ops, n - 1, panicked);
      ApplyKeeps(After(ops, n - 1, panicked), ops[n - 1], panicked);
    }
  }

  lemma EmptyIsSound<R(!new)>()
    ensures Inv(Empty<R>())
  {}

  // ---------- what the requests see ----------

  ghost predicate Fetches<R>(s: State<R>, t: Thread, key: Key) {
    In(s, t) && s.threads[t].Fetching? && s.threads[t].call in s.calls && s.calls[s.threads[t].call].key == key
  }

  /** At every moment of every interleaving: a key has at most one fetch
      running, and requests that ended with the same call have the same answer. */
  lemma OneFetchPerKey<R(!new)>(ops: seq<Op<R>>, n: nat, panicked: R, t: Thread, u: Thread)
    requires n <= |ops|
    ensures var s := After(ops, n, panicked);
            && (forall key :: Fetches(s, t, key) && Fetches(s, u, key) ==> t == u)
            && (In(s, t) && In(s, u) && s.threads[t].Answered? && s.threads[u].Answered? ==>
                  s.threads[t].call == s.threads[u].call ==> s.threads[t] == s.threads[u])
  {
    AlwaysSound(ops, n, panicked);
    var s := After(ops, n, panicked);
    assert In(s, t) ==> ThreadOk(s, t);
    assert In(s, u) ==> ThreadOk(s, u);
  }

  /** Nobody waits in vain: at every moment a waiting request's call is closed
      with its result, so it can wake, or has another request leading it
      whose own next step nothing blocks. */
  lemma WaitersAreServed<R(!new)>(ops: seq<Op<R>>, n: nat, panicked: R, t: Thread, outcome: Option<R>)
    requires n <= |ops|
    ensures var s := After(ops, n, panicked);
            In(s, t) && s.threads[t].Waiting? ==>
              && s.threads[t].call in s.calls
              && var leader := s.calls[s.threads[t].call].leader;
                 leader != t
                 && (Enabled(s, Wake(t)) || Enabled(s, Return(leader, outcome))
                     || Enabled(s, Unlist(leader)) || Enabled<R>(s, Close(leader)))
  {
    AlwaysSound(ops, n, panicked);
    var s := After(ops, n, panicked);
    if In(s, t) && s.threads[t].Waiting? {
      assert ThreadOk(s, t);
      assert CallOk(s, s.threads[t].call);
      assert !s.calls[s.threads[t].call].closed ==> ThreadOk(s, s.calls[s.threads[t].call].leader);
    }
  }

  ghost predicate Holds<R>(s: State<R>, t: Thread, key: Key) {
    && In(s, t) && (s.threads[t].Fetching? || s.threads[t].Fetched?)
    && s.threads[t].call in s.calls && s.calls[s.threads[t].call].key == key
  }

  /** The key is free afterwards: it is on the map exactly while some request
      fetches it or has just fetched it, so one that finds it free leads a new call. */
  lemma KeyIsFreeAfterwards<R(!new)>(ops: seq<Op<R>>, n: nat, panicked: R, key: Key)
    requires n <= |ops|
    ensures var s := After(ops, n, panicked);
            key in s.inFlight <==> exists t :: Holds(s, t, key)
  {
    AlwaysSound(ops, n, panicked);
    var s := After(ops, n, panicked);
    if key in s.inFlight {
      assert ListedOk(s, key);
      assert Holds(s, s.calls[s.inFlight[key]].leader, key);
    }
    forall t | Holds(s, t, key) ensures key in s.inFlight { assert ThreadOk(s, t); }
  }

  /** A request made while another holds the key waits for that one's call and
      starts no fetch; one made while nobody holds it fetches by itself. */
  lemma SharesTheFetch<R(!new)>(ops: seq<Op<R>>, n: nat, panicked: R, u: Thread)
    requires n < |ops| && ops[n].Request? && Enabled(After(ops, n, panicked), ops[n])
    ensures var (s, s', t, key) := (After(ops, n, panicked), After(ops, n + 1, panicked), ops[n].t, ops[n].key);
            && (Holds(s, u, key) ==> In(s', t) && s'.threads[t] == Waiting(s.threads[u].call))
            && ((forall v :: !Holds(s, v, key)) ==> Fetches(s', t, key) && Holds(s', t, key))
            && (u != t && In(s, u) ==> In(s', u) && s'.threads[u] == s.threads[u])
  {
    AlwaysSound(ops, n, panicked);
    KeyIsFreeAfterwards(ops, n, panicked, ops[n].key);
    var s := After(ops, n, panicked);
    if Holds(s, u, ops[n].key) { assert ThreadOk(s, u); }
  }

  // ---------- how soon a request is answered ----------

  /** The steps a leader has before it. */
  function OwnLeft<R>(p: Phase<R>): nat {
    match p
    case Fetching(_) => 3
    case Fetched(_) => 2
    case Unlisted(_) => 1
    case Waiting(_) => 1
    case Answered(_, _) => 0
  }

  /** The steps between a request and its answer, its own and its leader's. */
  ghost function Left<R>(s: State<R>, t: Thread): nat
    requires In(s, t)
  {
    var p := s.threads[t];
    if p.Waiting? && p.call in s.calls && !s.calls[p.call].closed && In(s, s.calls[p.call].leader)
    then 1 + OwnLeft(s.threads[s.calls[p.call].leader]) else OwnLeft(p)
  }

  /** This step brings the request's answer nearer. */
  ghost predicate Helps<R>(s: State<R>, op: Op<R>, t: Thread)
    requires In(s, t)
  {
    && Enabled(s, op) && !op.Request?
    && (op.t == t || (s.threads[t].Waiting? && s.threads[t].call in s.calls && !s.calls[s.threads[t].call].closed
                      && op.t == s.calls[s.threads[t].call].leader))
  }

  ghost predicate Helped<R>(s: State<R>, op: Op<R>, panicked: R, t: Thread)
    requires In(s, t)
  {
    var s' := Apply(s, op, panicked);
    && In(s', t) && s'.threads[t].call == s.threads[t].call
    && Left(s', t) == Left(s, t) - if Helps(s, op, t) then 1 else 0
  }

  lemma RequestHelps<R(!new)>(s: State<R>, op: Op<R>, panicked: R, t: Thread)
    requires Inv(s) && In(s, t) && Enabled(s, op) && op.Request? && op.t != t
    ensures Helped(s, op, panicked, t)
  {
    assert ThreadOk(s, t);
    var c := s.threads[t].call;
    assert CallOk(s, c);
    if In(s, op.t) { assert ThreadOk(s, op.t); }
  }

  lemma OwnStepHelps<R(!new)>(s: State<R>, op: Op<R>, panicked: R, t: Thread)
    requires Inv(s) && In(s, t) && Enabled(s, op) && !op.Request? && op.t == t
    ensures Helped(s, op, panicked, t)
  {
    assert ThreadOk(s, t);
  }

  lemma OthersStepHelps<R(!new)>(s: State<R>, op: Op<R>, panicked: R, t: Thread)
    requires Inv(s) && In(s, t) && Enabled(s, op) && !op.Request? && op.t != t
    ensures Helped(s, op, panicked, t)
  {
    assert ThreadOk(s, t) && ThreadOk(s, op.t);
    assert CallOk(s, s.threads[t].call);
  }

  lemma StepHelps<R(!new)>(s: State<R>, op: Op<R>, panicked: R, t: Thread)
    requires Inv(s) && In(s, t) && !(op.Request? && op.t == t)
    ensures Helped(s, op, panicked, t)
  {
    if Enabled(s, op) {
      hide Apply, Inv, Left, Helped;
      if op.Request? {
        RequestHelps(s, op, panicked, t);
      } else if op.t == t {
        OwnStepHelps(s, op, panicked, t);
      } else {
        OthersStepHelps(s, op, panicked, t);
      }
    }
  }

  ghost function HelpBetween<R(!new)>(ops: seq<Op<R>>, n: nat, m: nat, panicked: R, t: Thread): nat
    requires n <= m <= |ops|
  {
    if n == m then 0
    else
      var before := After(ops, m - 1, panicked);
      HelpBetween(ops, n, m - 1, panicked, t) + if In(before, t) && Helps(before, ops[m - 1], t) then 1 else 0
  }

  /** Whatever else happens in between, a request is answered exactly when the
      steps left to it and its leader have been taken: at most three of its
      leader's and one of its own. */
  lemma {:induction false} AnsweredAfterItsSteps<R(!new)>(ops: seq<Op<R>>, n: nat, m: nat, panicked: R, t: Thread)
    requires n <= m <= |ops| && In(After(ops, n, panicked), t)
    requires forall k | n <= k < m :: !(ops[k].Request? && ops[k].t == t)
    ensures var (s, later) := (After(ops, n, panicked), After(ops, m, panicked));
            && In(later, t) && later.threads[t].call == s.threads[t].call
            && Left(s, t) <= 4 && Left(later, t) == Left(s, t) - HelpBetween(ops, n, m, panicked, t)
            && (later.threads[t].Answered? <==> HelpBetween(ops, n, m, panicked, t) == Left(s, t))
    decreases m
  {
    AlwaysSound(ops, n, panicked);
    assert ThreadOk(After(ops, n, panicked), t);
    hide Apply, Inv, Helps;
    if n < m {
      AnsweredAfterItsSteps(ops, n, m - 1, panicked, t);
      AlwaysSound(ops, m - 1, panicked);
      StepHelps(After(ops, m - 1, panicked), ops[m - 1], panicked, t);
    }
  }

  lemma ResultStays<R(!new)>(s: State<R>, op: Op<R>, panicked: R, c: CallId)
    requires Inv(s) && c in s.calls && s.calls[c].result.Some?
    ensures var s' := Apply(s, op, panicked);
            c in s'.calls && s'.calls[c].result == s.calls[c].result && s'.calls[c].leader == s.calls[c].leader
  {
    assert CallOk(s, c);
    if Enabled(s, op) && op.Return? { assert ThreadOk(s, op.t); }
  }

  /** Once a call has its result, a panic's included, it keeps it: every
      request that ends with that call, at any later moment, is answered
      with what its leader's fetch returned. */
  lemma {:induction false} JoinersGetTheLeadersResult<R(!new)>(ops: seq<Op<R>>, n: nat, m: nat, panicked: R,
                                                               c: CallId, t: Thread)
    requires n <= m <= |ops|
    ensures var (s, later) := (After(ops, n, panicked), After(ops, m, panicked));
            c in s.calls && s.calls[c].result.Some? ==>
              && c in later.calls && later.calls[c].result == s.calls[c].result
              && (In(later, t) && later.threads[t].Answered? && later.threads[t].call == c ==>
                    later.threads[t].result == s.calls[c].result.value)
    decreases m
  {
    hide Apply;
    AlwaysSound(ops, m, panicked);
    var later := After(ops, m, panicked);
    assert In(later, t) ==> ThreadOk(later, t);
    if n < m {
      JoinersGetTheLeadersResult(ops, n, m - 1, panicked, c, t);
      AlwaysSound(ops, m - 1, panicked);
      if c in After(ops, n, panicked).calls && After(ops, n, panicked).calls[c].result.Some? {
        ResultStays(After(ops, m - 1, panicked), ops[m - 1], panicked, c);
      }
    }
  }

  /** What the outcome of a fetch makes of its result. */
  ghost predicate ResultOf<R>(outcome: Option<R>, panicked: R, result: R) {
    match outcome
    case Some(value) => result == value
    case None => result == panicked
  }

  ghost predicate ReturnedAt<R>(ops: seq<Op<R>>, k: nat, panicked: R, c: CallId, leader: Thread, result: R) {
    && k < |ops|
    && ops[k].Return? && ops[k].t == leader && ResultOf(ops[k].outcome, panicked, result)
    && var s := After(ops, k, panicked);
       Enabled(s, ops[k]) && s.threads[leader] == Fetching(c)
  }

  lemma ResultAppears<R(!new)>(s: State<R>, op: Op<R>, panicked: R, c: CallId)
    requires Inv(s) && !(c in s.calls && s.calls[c].result.Some?)
    requires var s' := Apply(s, op, panicked); c in s'.calls && s'.calls[c].result.Some?
    ensures var call := Apply(s, op, panicked).calls[c];
            && Enabled(s, op) && op.Return? && op.t == call.leader && s.threads[op.t] == Fetching(c)
            && ResultOf(op.outcome, panicked, call.result.value)
  {
    assert Enabled(s, op);
    assert op.Return? ==> ThreadOk(s, op.t);
  }

  /** Every result is the value the leader's own fetch of that call returned,
      or the answer for a panic if it panicked. */
  lemma {:induction false} ResultIsTheFetchs<R(!new)>(ops: seq<Op<R>>, n: nat, panicked: R, c: CallId) returns (k: nat)
    requires n <= |ops|
    requires c in After(ops, n, panicked).calls && After(ops, n, panicked).calls[c].result.Some?
    ensures var call := After(ops, n, panicked).calls[c];
            k < n && ReturnedAt(ops, k, panicked, c, call.leader, call.result.value)
    decreases n
  {
    hide Apply, Inv;
    var before := After(ops, n - 1, panicked);
    AlwaysSound(ops, n - 1, panicked);
    if c in before.calls && before.calls[c].result.Some? {
      ResultStays(before, ops[n - 1], panicked, c);
      k := ResultIsTheFetchs(ops, n - 1, panicked, c);
    } else {
      k := n - 1;
      ResultAppears(before, ops[k], panicked, c);
    }
  }

  // ---------- the map of calls itself ----------

  class Flight<R(!new)> {
    var inFlight: map<Key, CallId>
    var calls: map<CallId, Call<R>>
    var next: CallId
    ghost var threads: map<Thread, Phase<R>>
    const panicked: R

    ghost function View(): State<R>
      reads this
    {
      State(inFlight, calls, threads, next)
    }

    constructor (panicked: R)
      ensures View() == Empty() && Inv(View()) && this.panicked == panicked
    {
      inFlight, calls, next, threads := map[], map[], 0, map[];
      this.panicked := panicked;
      EmptyIsSound<R>();
    }

    /** Joins the call in flight, or leads a new one. */
    method Join(t: Thread, key: Key) returns (call: CallId, leads: bool)
      requires Inv(View()) && Enabled(View(), Request(t, key))
      modifies this
      ensures View() == Joined(old(View()), t, key) && Inv(View())
      ensures leads == (key !in old(inFlight)) && inFlight[key] == call
    {
      ApplyKeeps(View(), Request(t, key), panicked);
      if key in inFlight {
        call, leads := inFlight[key], false;
        threads := threads[t := Waiting(call)];
      } else {
        call, leads := next, true;
        calls, next := calls[call := Call(key, t, None, false)], next + 1;
        inFlight := inFlight[key := call];
        threads := threads[t := Fetching(call)];
      }
    }

    /** What the leader does once its fetch returned, or panicked, in three
        steps others may come between: record the result, free the key, and
        only then wake the others. */
    method Record(t: Thread, call: CallId, outcome: Option<R>) returns (result: R)
      requires Inv(View()) && In(View(), t) && threads[t] == Fetching(call)
      modifies this`calls, this`threads
      ensures View() == Apply(old(View()), Return(t, outcome), panicked) && Inv(View())
      ensures calls[call].result == Some(result)
      ensures outcome.Some? ==> result == outcome.value
      ensures outcome.None? ==> result == panicked
    {
      assert ThreadOk(View(), t);
      ApplyKeeps(View(), Return(t, outcome), panicked);
      result := if outcome.Some? then outcome.value else panicked;
      calls := calls[call := calls[call].(result := Some(result))];
      threads := threads[t := Fetched(call)];
    }

    method Forget(t: Thread, call: CallId)
      requires Inv(View()) && In(View(), t) && threads[t] == Fetched(call)
      modifies this`inFlight, this`threads
      ensures View() == Apply(old(View()), Unlist(t), panicked) && Inv(View())
    {
      assert ThreadOk(View(), t);
      ApplyKeeps(View(), Unlist(t), panicked);
      inFlight := inFlight - {calls[call].key};
      threads := threads[t := Unlisted(call)];
    }

    method Announce(t: Thread, call: CallId)
      requires Inv(View()) && In(View(), t) && threads[t] == Unlisted(call)
      modifies this`calls, this`threads
      ensures View() == Apply(old(View()), Close(t), panicked) && Inv(View())
    {
      assert ThreadOk(View(), t);
      ApplyKeeps(View(), Close(t), panicked);
      threads := threads[t := Answered(call, calls[call].result.value)];
      calls := calls[call := calls[call].(closed := true)];
    }

    /** A joiner's answer, once the call is closed. */
    method Answer(t: Thread, call: CallId) returns (result: R)
      requires Inv(View()) && Enabled(View(), Wake(t)) && threads[t] == Waiting(call)
      modifies this`threads
      ensures View() == Apply(old(View()), Wake(t), panicked) && Inv(View())
      ensures calls[call].result == Some(result)
    {
      ApplyKeeps(View(), Wake(t), panicked);
      result := calls[call].result.value;
      threads := threads[t := Answered(call, result)];
    }
  }
}
