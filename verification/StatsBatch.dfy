/** The dashboard's counters between memory and the store: batches recorded,
    taken, written or put back (internal/stats/stats.go, internal/store/activity.go
    and Flush in internal/app/app.go). */
module StatsBatch {
  import opened Wrappers

  type Feed = string
  type ClientKey = (Feed, string)
  type Counter = (string, string)

  /** Nanoseconds in memory; the store keeps milliseconds. */
  type Time = int

  function Ms(t: Time): int { t / 1_000_000 }

  datatype Sighting = Sighting(at: Time, subscribers: Option<nat>)

  /** `daily` maps a day and a counter to its delta. */
  datatype Batch = Batch(feeds: map<Feed, Time>, clients: map<ClientKey, Sighting>, daily: map<Counter, nat>)

  datatype Row = Row(lastSeen: int, subscribers: Option<nat>)

  datatype Stored = Stored(feeds: map<Feed, int>, clients: map<ClientKey, Row>, daily: map<Counter, nat>)

  const NOTHING := Batch(map[], map[], map[])

  // ---------- keyed values joined where both sides have the key ----------

  function Combine<K, V>(a: map<K, V>, b: map<K, V>, join: (V, V) -> V): (c: map<K, V>) {
    map k | k in a.Keys + b.Keys ::
      if k !in b then a[k] else if k !in a then b[k] else join(a[k], b[k])
  }

  function Mapped<K, V, W>(a: map<K, V>, f: V -> W): map<K, W> { map k | k in a :: f(a[k]) }

  function Later(a: int, b: int): int { if b > a then b else a }

  function Plus(a: nat, b: nat): nat { a + b }

  // ---------- recording, returning and flushing ----------

  datatype Event = Request(key: ClientKey, subscribers: Option<nat>, now: Time) | Count(counter: Counter)

  function Recorded(b: Batch, e: Event): Batch {
    match e
    case Request(key, subscribers, now) =>
      var previous := if key in b.clients then b.clients[key].subscribers else None;
      b.(feeds := b.feeds[key.0 := now], clients := b.clients[key := Sighting(now, OrElse(subscribers, previous))])
    case Count(counter) =>
      b.(daily := b.daily[counter := 1 + if counter in b.daily then b.daily[counter] else 0])
  }

  /** A returned sighting fills in a count the newer one lacks. */
  function Newer(returned: Sighting, pending: Sighting): Sighting {
    pending.(subscribers := OrElse(pending.subscribers, returned.subscribers))
  }

  function Returned(taken: Batch, pending: Batch): Batch {
    Batch(Combine(taken.feeds, pending.feeds, Later), Combine(taken.clients, pending.clients, Newer),
          Combine(taken.daily, pending.daily, Plus))
  }

  /** MAX(last_seen_at, excluded.last_seen_at), COALESCE(excluded.subscribers, subscribers). */
  function Upserted(row: Row, seen: Row): Row {
    Row(Later(row.lastSeen, seen.lastSeen), OrElse(seen.subscribers, row.subscribers))
  }

  function AsRow(s: Sighting): Row { Row(Ms(s.at), s.subscribers) }

  function Flushed(s: Stored, b: Batch): Stored {
    Stored(Combine(s.feeds, Mapped(b.feeds, Ms), Later), Combine(s.clients, Mapped(b.clients, AsRow), Upserted),
           Combine(s.daily, b.daily, Plus))
  }

  // ---------- flushing the merge is flushing in order ----------

  lemma CombineAssociates<K, V(!new)>(a: map<K, V>, b: map<K, V>, c: map<K, V>, join: (V, V) -> V)
    requires forall x, y, z :: join(join(x, y), z) == join(x, join(y, z))
    ensures Combine(a, Combine(b, c, join), join) == Combine(Combine(a, b, join), c, join)
  {}

  lemma MappedCombines<K, V(!new), W>(a: map<K, V>, b: map<K, V>, f: V -> W, join: (V, V) -> V, join': (W, W) -> W)
    requires forall x, y :: f(join(x, y)) == join'(f(x), f(y))
    ensures Mapped(Combine(a, b, join), f) == Combine(Mapped(a, f), Mapped(b, f), join')
  {}

  /** A client seen in both batches, the earlier time the later of the two
      and later than what is stored: the clock went back between them. */
  predicate WentBack(s: Stored, taken: Batch, pending: Batch, k: ClientKey) {
    && k in taken.clients && k in pending.clients
    && Ms(taken.clients[k].at) > Ms(pending.clients[k].at)
    && (k in s.clients ==> Ms(taken.clients[k].at) > s.clients[k].lastSeen)
  }

  function Joined<V>(a: Option<V>, b: Option<V>, join: (V, V) -> V): Option<V> {
    if b.None? then a else if a.None? then b else Some(join(a.value, b.value))
  }

  function MappedOption<V, W>(a: Option<V>, f: V -> W): Option<W> { if a.Some? then Some(f(a.value)) else None }

  lemma CombineAt<K, V>(a: map<K, V>, b: map<K, V>, join: (V, V) -> V, k: K)
    ensures Look(Combine(a, b, join), k) == Joined(Look(a, k), Look(b, k), join)
  {}

  /** What a flush does to one client's row. */
  lemma ClientFlushed(s: Stored, b: Batch, k: ClientKey)
    ensures Look(Flushed(s, b).clients, k)
         == Joined(Look(s.clients, k), MappedOption(Look(b.clients, k), AsRow), Upserted)
  {}

  /** One more key on the right-hand side. */
  lemma CombineMore<K, V>(a: map<K, V>, b: map<K, V>, k: K, v: V, join: (V, V) -> V)
    requires k !in b
    ensures Look(Combine(a, b, join), k) == Look(a, k)
    ensures Combine(a, b[k := v], join) == Combine(a, b, join)[k := if k in a then join(a[k], v) else v]
  {}

  lemma ClientMerged(s: Stored, taken: Batch, pending: Batch, k: ClientKey)
    ensures var merged := Flushed(s, Returned(taken, pending)).clients;
            var inOrder := Flushed(Flushed(s, taken), pending).clients;
            && (k in merged <==> k in inOrder)
            && (k in merged ==> merged[k].subscribers == inOrder[k].subscribers)
            && (k in merged ==> (merged[k].lastSeen == inOrder[k].lastSeen <==> !WentBack(s, taken, pending, k)))
  {
    hide Combine, Mapped;
    CombineAt(taken.clients, pending.clients, Newer, k);
    ClientFlushed(s, Returned(taken, pending), k);
    ClientFlushed(s, taken, k);
    ClientFlushed(Flushed(s, taken), pending, k);
    assert Look(Returned(taken, pending).clients, k) == Joined(Look(taken.clients, k), Look(pending.clients, k), Newer);
    hide Flushed, Returned;
  }

  lemma ClientsMerged(s: Stored, taken: Batch, pending: Batch)
    ensures var merged := Flushed(s, Returned(taken, pending)).clients;
            var inOrder := Flushed(Flushed(s, taken), pending).clients;
            && merged.Keys == inOrder.Keys
            && (forall k | k in merged ::
                  && merged[k].subscribers == inOrder[k].subscribers
                  && (merged[k].lastSeen == inOrder[k].lastSeen <==> !WentBack(s, taken, pending, k)))
            && (forall k | WentBack(s, taken, pending, k) :: k in merged)
  {
    var merged := Flushed(s, Returned(taken, pending)).clients;
    forall k
      ensures WentBack(s, taken, pending, k) ==> k in merged
    {}
    hide Flushed, Returned, WentBack;
    forall k
      ensures k in merged <==> k in Flushed(Flushed(s, taken), pending).clients
    {
      ClientMerged(s, taken, pending, k);
    }
    forall k | k in merged
      ensures merged[k].subscribers == Flushed(Flushed(s, taken), pending).clients[k].subscribers
      ensures merged[k].lastSeen == Flushed(Flushed(s, taken), pending).clients[k].lastSeen
         <==> !WentBack(s, taken, pending, k)
    {
      ClientMerged(s, taken, pending, k);
    }
  }

  lemma CountersMerged(s: Stored, taken: Batch, pending: Batch)
    ensures Flushed(s, Returned(taken, pending)).daily == Flushed(Flushed(s, taken), pending).daily
  {
    hide Combine, Mapped;
    CombineAssociates(s.daily, taken.daily, pending.daily, Plus);
  }

  lemma FeedsMerged(s: Stored, taken: Batch, pending: Batch)
    ensures Flushed(s, Returned(taken, pending)).feeds == Flushed(Flushed(s, taken), pending).feeds
  {
    hide Combine, Mapped;
    MappedCombines(taken.feeds, pending.feeds, Ms, Later, Later);
    CombineAssociates(s.feeds, Mapped(taken.feeds, Ms), Mapped(pending.feeds, Ms), Later);
  }

  /** A failed flush is invisible: writing the returned batch merged with what
      was recorded meanwhile leaves what writing the two in order would have
      left. That holds of counters, request times and subscriber counts
      always, and of a last-seen time exactly when its clock had not gone back. */
  lemma FlushMergedIff(s: Stored, taken: Batch, pending: Batch)
    ensures var (merged, inOrder) := (Flushed(s, Returned(taken, pending)), Flushed(Flushed(s, taken), pending));
            && merged.daily == inOrder.daily && merged.feeds == inOrder.feeds
            && merged.clients.Keys == inOrder.clients.Keys
            && (forall k | k in merged.clients ::
                  && merged.clients[k].subscribers == inOrder.clients[k].subscribers
                  && (merged.clients[k].lastSeen == inOrder.clients[k].lastSeen <==> !WentBack(s, taken, pending, k)))
            && (merged == inOrder <==> forall k :: !WentBack(s, taken, pending, k))
  {
    hide Flushed, Returned, WentBack;
    CountersMerged(s, taken, pending);
    FeedsMerged(s, taken, pending);
    ClientsMerged(s, taken, pending);
  }

  // ---------- whole runs ----------

  /** Counters recorded, a flush under way, and the store. */
  datatype Machine = Machine(stored: Stored, taken: Option<Batch>, pending: Batch)

  /** An event, or a step of Flush: take the batch; then its write commits, or
      fails and the batch is put back. Events may come between. */
  datatype Op = Note(event: Event) | Take | Commit | Fail

  function Step(m: Machine, op: Op): Machine {
    match op
    case Note(e) => m.(pending := Recorded(m.pending, e))
    case Take => if m.taken.Some? then m else m.(taken := Some(m.pending), pending := NOTHING)
    case Commit => if m.taken.None? then m else m.(stored := Flushed(m.stored, m.taken.value), taken := None)
    case Fail => if m.taken.None? then m else m.(pending := Returned(m.taken.value, m.pending), taken := None)
  }

  function Run(m: Machine, ops: seq<Op>): Machine
    decreases |ops|
  {
    if ops == [] then m else Run(Step(m, ops[0]), ops[1..])
  }

  /** What the store will hold once everything in memory is written. */
  function Settled(m: Machine): Stored {
    Flushed(if m.taken.Some? then Flushed(m.stored, m.taken.value) else m.stored, m.pending)
  }

  function AtOnce(s: Stored, op: Op): Stored {
    if op.Note? then Flushed(s, Recorded(NOTHING, op.event)) else s
  }

  /** Every event written at once, the moment it happens. */
  function WrittenThrough(s: Stored, ops: seq<Op>): Stored
    decreases |ops|
  {
    if ops == [] then s else WrittenThrough(AtOnce(s, ops[0]), ops[1..])
  }

  predicate ClockForward(ops: seq<Op>, since: Time)
    decreases |ops|
  {
    ops == [] ||
    if ops[0].Note? && ops[0].event.Request? then since <= ops[0].event.now && ClockForward(ops[1..], ops[0].event.now)
    else ClockForward(ops[1..], since)
  }

  /** No recorded time is ahead of the clock, and none in the batch being
      written is ahead of the same client's in the pending one. */
  ghost predicate Timely(m: Machine, since: Time) {
    && (forall f | f in m.pending.feeds :: m.pending.feeds[f] <= since)
    && (forall k | k in m.pending.clients :: m.pending.clients[k].at <= since)
    && (m.taken.Some? ==>
          && (forall f | f in m.taken.value.feeds :: m.taken.value.feeds[f] <= since)
          && (forall k | k in m.taken.value.clients :: m.taken.value.clients[k].at <= since)
          && (forall k | k in m.taken.value.clients && k in m.pending.clients ::
                m.taken.value.clients[k].at <= m.pending.clients[k].at))
  }

  lemma NothingToFlush(s: Stored)
    ensures Flushed(s, NOTHING) == s
  {
    assert Mapped(NOTHING.feeds, Ms) == map[] && Mapped(NOTHING.clients, AsRow) == map[];
    assert Combine(s.feeds, map[], Later) == s.feeds;
    assert Combine(s.clients, map[], Upserted) == s.clients;
    assert Combine(s.daily, map[], Plus) == s.daily;
  }

  lemma AddOne(a: map<Counter, nat>, b: map<Counter, nat>, counter: Counter)
    ensures Combine(a, b[counter := 1 + if counter in b then b[counter] else 0], Plus)
         == Combine(Combine(a, b, Plus), map[counter := 1], Plus)
  {}

  lemma CountFlushes(s: Stored, b: Batch, counter: Counter)
    ensures Flushed(s, Recorded(b, Count(counter))) == Flushed(Flushed(s, b), Recorded(NOTHING, Count(counter)))
  {
    AddOne(s.daily, b.daily, counter);
    NothingToFlush(Flushed(s, b));
    hide Combine, Mapped;
  }

  /** Writing a request late is writing it at once, after the ones before it. */
  lemma RequestFlushes(s: Stored, b: Batch, e: Event)
    requires e.Request?
    requires e.key.0 in b.feeds ==> b.feeds[e.key.0] <= e.now
    requires e.key in b.clients ==> b.clients[e.key].at <= e.now
    ensures Flushed(s, Recorded(b, e)) == Flushed(Flushed(s, b), Recorded(NOTHING, e))
  {
    var one := Recorded(NOTHING, e);
    assert one.daily == map[];
    NothingToFlush(Flushed(s, b));
    FeedRecorded(s.feeds, b.feeds, e.key.0, e.now);
    ClientsRecorded(s, b, e);
    hide Combine, Mapped;
  }

  lemma LatestOverwrites(a: map<Feed, int>, b: map<Feed, int>, feed: Feed, at: int)
    requires feed in b ==> b[feed] <= at
    ensures Combine(a, b[feed := at], Later) == Combine(Combine(a, b, Later), map[feed := at], Later)
  {}

  lemma FeedRecorded(a: map<Feed, int>, b: map<Feed, Time>, feed: Feed, now: Time)
    requires feed in b ==> b[feed] <= now
    ensures Combine(a, Mapped(b[feed := now], Ms), Later)
         == Combine(Combine(a, Mapped(b, Ms), Later), Mapped(map[feed := now], Ms), Later)
  {
    assert Mapped(b[feed := now], Ms) == Mapped(b, Ms)[feed := Ms(now)];
    assert Mapped(map[feed := now], Ms) == map[feed := Ms(now)];
    LatestOverwrites(a, Mapped(b, Ms), feed, Ms(now));
    hide Combine, Mapped;
  }

  /** One client's row, its sighting recorded late or written at once. */
  lemma ClientRecorded(a: map<ClientKey, Row>, b: map<ClientKey, Sighting>, e: Event, k: ClientKey)
    requires e.Request?
    ensures var previous := if e.key in b then b[e.key].subscribers else None;
            var sighting := Sighting(e.now, OrElse(e.subscribers, previous));
            var late := Combine(a, Mapped(b[e.key := sighting], AsRow), Upserted);
            var atOnce := Combine(Combine(a, Mapped(b, AsRow), Upserted),
                                  Mapped(map[e.key := Sighting(e.now, e.subscribers)], AsRow), Upserted);
            && (k in late <==> k in atOnce)
            && (k in late ==> late[k].subscribers == atOnce[k].subscribers)
            && ((e.key in b ==> b[e.key].at <= e.now) ==> k in late ==> late[k] == atOnce[k])
  {}

  lemma ClientsRecorded(s: Stored, b: Batch, e: Event)
    requires e.Request?
    ensures var late := Flushed(s, Recorded(b, e)).clients;
            var atOnce := Flushed(Flushed(s, b), Recorded(NOTHING, e)).clients;
            && late.Keys == atOnce.Keys
            && (forall k | k in late :: late[k].subscribers == atOnce[k].subscribers)
            && ((e.key in b.clients ==> b.clients[e.key].at <= e.now) ==> late == atOnce)
  {
    hide Combine, Mapped;
    assert Recorded(NOTHING, e).clients == map[e.key := Sighting(e.now, e.subscribers)];
    forall k { ClientRecorded(s.clients, b.clients, e, k); }
    var late := Flushed(s, Recorded(b, e)).clients;
    var atOnce := Flushed(Flushed(s, b), Recorded(NOTHING, e)).clients;
    assert late.Keys == atOnce.Keys;
  }

  // ---------- no flush failure is ever visible ----------

  /** The same counters and subscriber counts; request and last-seen times aside. */
  ghost predicate SameCounts(a: Stored, b: Stored) {
    && a.daily == b.daily && a.clients.Keys == b.clients.Keys
    && forall k | k in a.clients :: a.clients[k].subscribers == b.clients[k].subscribers
  }

  lemma AtOnceKeepsSameCounts(a: Stored, b: Stored, op: Op)
    requires SameCounts(a, b)
    ensures SameCounts(AtOnce(a, op), AtOnce(b, op))
  {}

  lemma NoteSettles(m: Machine, e: Event, since: Time)
    requires Timely(m, since) && (e.Request? ==> since <= e.now)
    ensures Settled(Step(m, Note(e))) == AtOnce(Settled(m), Note(e))
  {
    hide Flushed, Recorded;
    var stored := if m.taken.Some? then Flushed(m.stored, m.taken.value) else m.stored;
    if e.Request? { RequestFlushes(stored, m.pending, e); } else { CountFlushes(stored, m.pending, e.counter); }
  }

  lemma FlushSettles(m: Machine, op: Op)
    requires !op.Note?
    requires op.Fail? && m.taken.Some? ==> forall k :: !WentBack(m.stored, m.taken.value, m.pending, k)
    ensures Settled(Step(m, op)) == Settled(m)
  {
    hide Flushed, Returned, WentBack;
    NothingToFlush(Flushed(m.stored, m.pending));
    if op.Fail? && m.taken.Some? { FlushMergedIff(m.stored, m.taken.value, m.pending); }
  }

  lemma StaysTimely(m: Machine, op: Op, since: Time, now: Time)
    requires Timely(m, since) && since <= now && (op.Note? && op.event.Request? ==> op.event.now == now)
    ensures Timely(Step(m, op), now)
    ensures m.taken.Some? ==> forall k :: !WentBack(m.stored, m.taken.value, m.pending, k)
  {}

  lemma StepSettles(m: Machine, op: Op, since: Time, now: Time)
    requires Timely(m, since) && since <= now && (op.Note? && op.event.Request? ==> op.event.now == now)
    ensures Settled(Step(m, op)) == AtOnce(Settled(m), op) && Timely(Step(m, op), now)
  {
    hide Timely, Settled, Step, WentBack;
    StaysTimely(m, op, since, now);
    if op.Note? { NoteSettles(m, op.event, since); } else { FlushSettles(m, op); }
  }

  /** Over any run of events and flushes, failed or not, with a clock that
      does not go back: the store and what waits in memory together are what
      writing every event at once would have stored. */
  lemma {:induction false} FailuresAreInvisible(m: Machine, ops: seq<Op>, since: Time)
    requires Timely(m, since) && ClockForward(ops, since)
    ensures Settled(Run(m, ops)) == WrittenThrough(Settled(m), ops)
    decreases |ops|
  {
    hide Timely, Settled, Step, Flushed, Recorded;
    if ops != [] {
      var now := if ops[0].Note? && ops[0].event.Request? then ops[0].event.now else since;
      StepSettles(m, ops[0], since, now);
      FailuresAreInvisible(Step(m, ops[0]), ops[1..], now);
    }
  }

  /** However many flushes failed before: one that succeeds with nothing noted
      meanwhile leaves in the store what writing every event at once would
      have, and nothing in memory. One that fails leaves the store alone and
      can be tried again. */
  lemma SuccessStoresAll(m: Machine, ops: seq<Op>, since: Time)
    requires Timely(m, since) && ClockForward(ops, since) && Run(m, ops).taken.None?
    ensures var z := Step(Step(Run(m, ops), Take), Commit);
            z == Machine(WrittenThrough(Settled(m), ops), None, NOTHING)
    ensures var z := Step(Step(Run(m, ops), Take), Fail);
            z.stored == Run(m, ops).stored && z.taken.None?
  {
    hide Timely, Flushed, Recorded, Returned, Run;
    FailuresAreInvisible(m, ops, since);
  }

  lemma StepSettlesCounts(m: Machine, op: Op)
    ensures SameCounts(Settled(Step(m, op)), AtOnce(Settled(m), op))
  {
    hide Flushed, Recorded, Returned;
    var stored := if m.taken.Some? then Flushed(m.stored, m.taken.value) else m.stored;
    match op
    case Note(e) =>
      if e.Request? { CountersKept(stored, m.pending, e); } else { CountFlushes(stored, m.pending, e.counter); }
    case Take => NothingToFlush(Flushed(m.stored, m.pending));
    case Commit =>
    case Fail => if m.taken.Some? { FlushMergedIff(m.stored, m.taken.value, m.pending); }
  }

  lemma CountersKept(s: Stored, b: Batch, e: Event)
    requires e.Request?
    ensures SameCounts(Flushed(s, Recorded(b, e)), Flushed(Flushed(s, b), Recorded(NOTHING, e)))
  {
    ClientsRecorded(s, b, e);
    NothingToFlush(Flushed(s, b));
    hide Combine, Mapped;
  }

  /** With any clock at all, counters and subscriber counts are. */
  lemma {:induction false} CountsNeverSuffer(m: Machine, ops: seq<Op>, s: Stored)
    requires SameCounts(Settled(m), s)
    ensures SameCounts(Settled(Run(m, ops)), WrittenThrough(s, ops))
    decreases |ops|
  {
    hide Settled, Step, Flushed, Recorded, SameCounts;
    if ops != [] {
      StepSettlesCounts(m, ops[0]);
      AtOnceKeepsSameCounts(Settled(m), s, ops[0]);
      SameCountsTransitive(Settled(Step(m, ops[0])), AtOnce(Settled(m), ops[0]), AtOnce(s, ops[0]));
      CountsNeverSuffer(Step(m, ops[0]), ops[1..], AtOnce(s, ops[0]));
    }
  }

  lemma SameCountsTransitive(a: Stored, b: Stored, c: Stored)
    requires SameCounts(a, b) && SameCounts(b, c)
    ensures SameCounts(a, c)
  {}

  // ---------- what writing at once stores ----------

  /** The j-th operation records a request of this client. */
  ghost predicate Asks(ops: seq<Op>, j: int, k: ClientKey) {
    0 <= j < |ops| && ops[j].Note? && ops[j].event.Request? && ops[j].event.key == k
  }

  /** It records one for this feed. */
  ghost predicate Serves(ops: seq<Op>, j: int, f: Feed) {
    0 <= j < |ops| && ops[j].Note? && ops[j].event.Request? && ops[j].event.key.0 == f
  }

  ghost predicate Tells(ops: seq<Op>, j: int, k: ClientKey) { Asks(ops, j, k) && ops[j].event.subscribers.Some? }

  lemma AtOnceSeen(s: Stored, op: Op, k: ClientKey)
    ensures var row, row' := Look(s.clients, k), Look(AtOnce(s, op).clients, k);
            if !Asks([op], 0, k) then row' == row
            else
              var at := op.event.now / 1_000_000;
              && row'.Some?
              && row'.value.lastSeen == (if row.Some? && row.value.lastSeen > at then row.value.lastSeen else at)
              && row'.value.subscribers == (if op.event.subscribers.Some? then op.event.subscribers
                                            else if row.Some? then row.value.subscribers else None)
  {}

  lemma AtOnceServed(s: Stored, op: Op, f: Feed)
    ensures var at, at' := Look(s.feeds, f), Look(AtOnce(s, op).feeds, f);
            if !Serves([op], 0, f) then at' == at
            else
              var now := op.event.now / 1_000_000;
              at' == Some(if at.Some? && at.value > now then at.value else now)
  {}

  /** A client is known once it asked, last seen at the latest of its times. */
  lemma {:induction false} LastSeenIsLatest(s: Stored, ops: seq<Op>, k: ClientKey)
    ensures var row, row' := Look(s.clients, k), Look(WrittenThrough(s, ops).clients, k);
            && (row'.Some? <==> row.Some? || exists j :: Asks(ops, j, k))
            && (row'.Some? ==>
                  && (row.Some? ==> row.value.lastSeen <= row'.value.lastSeen)
                  && (forall j | Asks(ops, j, k) :: ops[j].event.now / 1_000_000 <= row'.value.lastSeen)
                  && ((row.Some? && row'.value.lastSeen == row.value.lastSeen)
                      || exists j :: Asks(ops, j, k) && ops[j].event.now / 1_000_000 == row'.value.lastSeen))
    decreases |ops|
  {
    hide AtOnce, Ms;
    if ops != [] {
      var rest := ops[1..];
      AtOnceSeen(s, ops[0], k);
      LastSeenIsLatest(AtOnce(s, ops[0]), rest, k);
      assert Asks([ops[0]], 0, k) <==> Asks(ops, 0, k);
      assert forall j :: Asks(rest, j, k) <==> j >= 0 && Asks(ops, j + 1, k);
      forall j | Asks(ops, j, k) && j > 0 ensures Asks(rest, j - 1, k) {}
    }
  }

  /** The subscribers stored are those it told last. */
  lemma {:induction false} LastTold(s: Stored, ops: seq<Op>, k: ClientKey)
    ensures var row, row' := Look(s.clients, k), Look(WrittenThrough(s, ops).clients, k);
            && (forall j | Tells(ops, j, k) && (forall i | j < i :: !Tells(ops, i, k)) ::
                  row'.Some? && row'.value.subscribers == ops[j].event.subscribers)
            && ((forall j :: !Tells(ops, j, k)) && row'.Some? ==>
                  row'.value.subscribers == if row.Some? then row.value.subscribers else None)
    decreases |ops|
  {
    hide AtOnce;
    if ops != [] {
      var rest := ops[1..];
      AtOnceSeen(s, ops[0], k);
      LastTold(AtOnce(s, ops[0]), rest, k);
      assert Asks([ops[0]], 0, k) <==> Asks(ops, 0, k);
      LastSeenIsLatest(AtOnce(s, ops[0]), rest, k);
      forall j ensures Tells(rest, j, k) <==> j >= 0 && Tells(ops, j + 1, k) {}
      var row' := Look(WrittenThrough(s, ops).clients, k);
      forall j | Tells(ops, j, k) && (forall i | j < i :: !Tells(ops, i, k))
        ensures row'.Some? && row'.value.subscribers == ops[j].event.subscribers
      {
        if j > 0 {
          assert Tells(rest, j - 1, k);
          assert forall i | j - 1 < i :: !Tells(rest, i, k);
        } else {
          assert forall i :: !Tells(rest, i, k);
        }
      }
      if forall j :: !Tells(ops, j, k) {
        forall j ensures !Tells(rest, j, k) { assert !Tells(ops, j + 1, k); }
        assert !Tells(ops, 0, k);
      }
    }
  }

  /** A feed was last requested at the latest of the times it was. */
  lemma {:induction false} LastRequestIsLatest(s: Stored, ops: seq<Op>, f: Feed)
    ensures var at, at' := Look(s.feeds, f), Look(WrittenThrough(s, ops).feeds, f);
            && (at'.Some? <==> at.Some? || exists j :: Serves(ops, j, f))
            && (at'.Some? ==>
                  && (at.Some? ==> at.value <= at'.value)
                  && (forall j | Serves(ops, j, f) :: ops[j].event.now / 1_000_000 <= at'.value)
                  && (at' == at || exists j :: Serves(ops, j, f) && ops[j].event.now / 1_000_000 == at'.value))
    decreases |ops|
  {
    hide AtOnce, Ms;
    if ops != [] {
      var rest := ops[1..];
      AtOnceServed(s, ops[0], f);
      LastRequestIsLatest(AtOnce(s, ops[0]), rest, f);
      assert Serves([ops[0]], 0, f) <==> Serves(ops, 0, f);
      assert forall j :: Serves(rest, j, f) <==> j >= 0 && Serves(ops, j + 1, f);
      forall j | Serves(ops, j, f) && j > 0 ensures Serves(rest, j - 1, f) {}
    }
  }

  // ---------- no count is lost or written twice ----------

  function CountIn(daily: map<Counter, nat>, counter: Counter): nat { if counter in daily then daily[counter] else 0 }

  /** How often a counter was counted. */
  function Counted(ops: seq<Op>, counter: Counter): nat
    decreases |ops|
  {
    if ops == [] then 0 else (if ops[0] == Note(Count(counter)) then 1 else 0) + Counted(ops[1..], counter)
  }

  function TakenCount(m: Machine, counter: Counter): nat {
    if m.taken.Some? then CountIn(m.taken.value.daily, counter) else 0
  }

  /** What is stored, being written and waiting adds up to what was counted. */
  lemma {:induction false} CountsConserved(m: Machine, ops: seq<Op>, counter: Counter)
    ensures var m' := Run(m, ops);
            CountIn(m'.stored.daily, counter) + TakenCount(m', counter) + CountIn(m'.pending.daily, counter)
            == CountIn(m.stored.daily, counter) + TakenCount(m, counter) + CountIn(m.pending.daily, counter)
               + Counted(ops, counter)
    decreases |ops|
  {
    if ops != [] {
      CountsConserved(Step(m, ops[0]), ops[1..], counter);
    }
  }

  /** Put back after the clock went back an hour, a batch's last-seen time is
      an hour behind what writing it in order leaves. */
  lemma BackwardClockShowsFailure(k: ClientKey, now: Time) returns (s: Stored, taken: Batch, pending: Batch)
    ensures Flushed(s, Returned(taken, pending)) != Flushed(Flushed(s, taken), pending)
    ensures taken == Recorded(NOTHING, Request(k, None, now)) && s == Stored(map[], map[], map[])
    ensures pending == Recorded(NOTHING, Request(k, None, now - 3_600_000_000_000))
  {
    s := Stored(map[], map[], map[]);
    taken := Recorded(NOTHING, Request(k, None, now));
    pending := Recorded(NOTHING, Request(k, None, now - 3_600_000_000_000));
    assert WentBack(s, taken, pending, k);
    FlushMergedIff(s, taken, pending);
  }

  // ---------- the counters and the store ----------

  class Stats {
    var feeds: map<Feed, Time>
    var clients: map<ClientKey, Sighting>
    var daily: map<Counter, nat>

    ghost function Pending(): Batch
      reads this
    {
      Batch(feeds, clients, daily)
    }

    constructor ()
      ensures Pending() == NOTHING
    {
      feeds, clients, daily := map[], map[], map[];
    }

    method RecordFeedRequest(feed: Feed, client: string, subscribers: Option<nat>, now: Time)
      modifies this
      ensures Pending() == Recorded(old(Pending()), Request((feed, client), subscribers, now))
    {
      var key, sighting := (feed, client), Sighting(now, subscribers);
      feeds := feeds[feed := now];
      if key in clients && subscribers.None? {
        // this app said nothing of its subscribers this time
        sighting := sighting.(subscribers := clients[key].subscribers);
      }
      clients := clients[key := sighting];
    }

    method CountDay(counter: Counter)
      modifies this`daily
      ensures Pending() == Recorded(old(Pending()), Count(counter))
    {
      if counter !in daily {
        daily := daily[counter := 0];
      }
      daily := daily[counter := daily[counter] + 1];
    }

    method TakeBatch() returns (batch: Batch)
      modifies this
      ensures batch == old(Pending()) && Pending() == NOTHING
    {
      batch := Batch(feeds, clients, daily);
      feeds, clients, daily := map[], map[], map[];
    }

    /** Puts a batch back: later request times, newer sightings and sums. */
    method ReturnBatch(b: Batch)
      modifies this
      ensures Pending() == Returned(b, old(Pending()))
    {
      var todo := b.feeds.Keys;
      while todo != {}
        invariant todo <= b.feeds.Keys && clients == old(clients) && daily == old(daily)
        invariant feeds == Combine(b.feeds - todo, old(feeds), Later)
      {
        var f :| f in todo;
        todo := todo - {f};
        if f !in feeds || b.feeds[f] > feeds[f] {
          feeds := feeds[f := b.feeds[f]];
        }
      }
      assert b.feeds - {} == b.feeds;
      ReturnClients(b.clients);
      ReturnDaily(b.daily);
    }

    method ReturnClients(b: map<ClientKey, Sighting>)
      modifies this`clients
      ensures clients == Combine(b, old(clients), Newer)
    {
      var todo := b.Keys;
      while todo != {}
        invariant todo <= b.Keys && clients == Combine(b - todo, old(clients), Newer)
      {
        var k :| k in todo;
        todo := todo - {k};
        if k in clients {
          if clients[k].subscribers.None? {
            clients := clients[k := clients[k].(subscribers := b[k].subscribers)];
          }
        } else {
          clients := clients[k := b[k]];
        }
      }
      assert b - {} == b;
    }

    method ReturnDaily(b: map<Counter, nat>)
      modifies this`daily
      ensures daily == Combine(b, old(daily), Plus)
    {
      var todo := b.Keys;
      while todo != {}
        invariant todo <= b.Keys && daily == Combine(b - todo, old(daily), Plus)
      {
        var c :| c in todo;
        todo := todo - {c};
        daily := daily[c := b[c] + if c in daily then daily[c] else 0];
      }
      assert b - {} == b;
    }
  }

  class Store {
    var feeds: map<Feed, int>
    var clients: map<ClientKey, Row>
    var daily: map<Counter, nat>

    ghost function View(): Stored
      reads this
    {
      Stored(feeds, clients, daily)
    }

    /** The upserts of one transaction, each row in any order. */
    method FlushActivity(b: Batch)
      modifies this
      ensures View() == Flushed(old(View()), b)
    {
      UpsertFeeds(b.feeds);
      UpsertClients(b.clients);
      UpsertDaily(b.daily);
    }

    method UpsertFeeds(b: map<Feed, Time>)
      modifies this`feeds
      ensures feeds == Combine(old(feeds), Mapped(b, Ms), Later)
    {
      var todo := b.Keys;
      while todo != {}
        invariant todo <= b.Keys && feeds == Combine(old(feeds), Mapped(b - todo, Ms), Later)
      {
        var f :| f in todo;
        assert Mapped(b - (todo - {f}), Ms) == Mapped(b - todo, Ms)[f := Ms(b[f])];
        CombineMore(old(feeds), Mapped(b - todo, Ms), f, Ms(b[f]), Later);
        todo := todo - {f};
        feeds := feeds[f := if f in feeds then Later(feeds[f], Ms(b[f])) else Ms(b[f])];
      }
      assert b - {} == b;
    }

    method UpsertClients(b: map<ClientKey, Sighting>)
      modifies this`clients
      ensures clients == Combine(old(clients), Mapped(b, AsRow), Upserted)
    {
      var todo := b.Keys;
      while todo != {}
        invariant todo <= b.Keys && clients == Combine(old(clients), Mapped(b - todo, AsRow), Upserted)
      {
        var k :| k in todo;
        assert Mapped(b - (todo - {k}), AsRow) == Mapped(b - todo, AsRow)[k := AsRow(b[k])];
        CombineMore(old(clients), Mapped(b - todo, AsRow), k, AsRow(b[k]), Upserted);
        todo := todo - {k};
        var row := AsRow(b[k]);
        if k in clients {
          row := Row(Later(clients[k].lastSeen, row.lastSeen), OrElse(row.subscribers, clients[k].subscribers));
        }
        clients := clients[k := row];
      }
      assert b - {} == b;
    }

    method UpsertDaily(b: map<Counter, nat>)
      modifies this`daily
      ensures daily == Combine(old(daily), b, Plus)
    {
      var todo := b.Keys;
      while todo != {}
        invariant todo <= b.Keys && daily == Combine(old(daily), b - todo, Plus)
      {
        var c :| c in todo;
        todo := todo - {c};
        daily := daily[c := b[c] + if c in daily then daily[c] else 0];
      }
      assert b - {} == b;
    }
  }

  /** One round of the background flush; a failed write leaves the store
      alone and keeps the counters for the next try. */
  method Flush(stats: Stats, store: Store, writeFails: bool)
    modifies stats, store
    ensures var was := old(Machine(store.View(), None, stats.Pending()));
            Machine(store.View(), None, stats.Pending())
            == Step(Step(was, Take), if writeFails then Fail else Commit)
  {
    var batch := stats.TakeBatch();
    if writeFails {
      stats.ReturnBatch(batch);
    } else {
      store.FlushActivity(batch);
    }
  }
}
