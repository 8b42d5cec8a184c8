/** The in-memory token buckets (internal/web/ratelimit.go), with real numbers
    for the floats and seconds for the times. */
module RateLimiter {
  import opened Wrappers

  type Scope = string
  type Client = string

  const MAX_BUCKETS: nat := 5000
  const BUCKET_IDLE: real := 600.0
  const SWEEP_PAUSE: real := 60.0

  datatype Key = Key(scope: Scope, client: Client)

  datatype Bucket = Bucket(tokens: real, updatedAt: real)

  /** A scope's burst allowance and sustained rate, per client and overall. */
  datatype Rates = Rates(clientCapacity: real, clientRefill: real, globalCapacity: real, globalRefill: real)

  datatype State = State(clients: map<Key, Bucket>, global: map<Scope, Bucket>, prunedAt: Option<real>)

  const EMPTY := State(map[], map[], None)

  function MinReal(a: real, b: real): real { if a < b then a else b }

  // ---------- one request ----------

  /** The tokens earned in some time. */
  function Refill(rate: real, seconds: real): real { rate * seconds }

  /** A bucket's tokens with what it has earned since, before the cap. */
  function Earned(b: Bucket, refill: real, now: real): real { b.tokens + Refill(refill, now - b.updatedAt) }

  /** What is in a bucket at an instant; a new bucket is full. */
  function Level<K>(buckets: map<K, Bucket>, key: K, capacity: real, refill: real, now: real): real {
    if key in buckets then MinReal(capacity, Earned(buckets[key], refill, now)) else capacity
  }

  function Take<K>(buckets: map<K, Bucket>, key: K, capacity: real, refill: real, now: real): (map<K, Bucket>, bool) {
    var level := Level(buckets, key, capacity, refill, now);
    if level < 1.0 then (buckets[key := Bucket(level, now)], false)
    else (buckets[key := Bucket(level - 1.0, now)], true)
  }

  function Busy(clients: map<Key, Bucket>, now: real): map<Key, Bucket> {
    map k | k in clients && !(now - clients[k].updatedAt > BUCKET_IDLE) :: clients[k]
  }

  predicate SweepDue(s: State, now: real) { s.prunedAt.None? || now - s.prunedAt.value >= SWEEP_PAUSE }

  function Swept(s: State, now: real): State {
    if |s.clients| < MAX_BUCKETS || !SweepDue(s, now) then s
    else s.(clients := Busy(s.clients, now), prunedAt := Some(now))
  }

  /** Room for one more client: by a sweep if one is due, else by forgetting everybody. */
  function MakeRoom(s: State, now: real): State {
    var swept := Swept(s, now);
    if |swept.clients| >= MAX_BUCKETS then swept.(clients := map[]) else swept
  }

  /** One token from the client and, if it had one, one from its scope. */
  function Charge(s: State, key: Key, r: Rates, now: real): (State, bool) {
    var (clients, clientOk) := Take(s.clients, key, r.clientCapacity, r.clientRefill, now);
    if !clientOk then (s.(clients := clients), false)
    else
      var (global, globalOk) := Take(s.global, key.scope, r.globalCapacity, r.globalRefill, now);
      var b := clients[key];
      if globalOk then (s.(clients := clients, global := global), true)
      else (s.(clients := clients[key := b.(tokens := b.tokens + 1.0)], global := global), false)
  }

  function Allow(s: State, key: Key, r: Rates, now: real): (State, bool) {
    Charge(if key in s.clients then s else MakeRoom(s, now), key, r, now)
  }

  function AddOne<K>(buckets: map<K, Bucket>, key: K): map<K, Bucket> {
    if key in buckets then buckets[key := buckets[key].(tokens := buckets[key].tokens + 1.0)] else buckets
  }

  function Refund(s: State, key: Key): State {
    s.(clients := AddOne(s.clients, key), global := AddOne(s.global, key.scope))
  }

  // ---------- runs ----------

  datatype Op = Request(key: Key, now: real) | GiveBack(key: Key)

  type AllRates = Scope -> Rates

  function Apply(s: State, op: Op, rates: AllRates): (State, bool) {
    match op
    case Request(key, now) => Allow(s, key, rates(key.scope), now)
    case GiveBack(key) => (Refund(s, key), true)
  }

  /** The same limiter, if it never dropped a bucket. */
  function ApplyKeeping(s: State, op: Op, rates: AllRates): (State, bool) {
    match op
    case Request(key, now) => Charge(s, key, rates(key.scope), now)
    case GiveBack(key) => (Refund(s, key), true)
  }

  function Decisions(s: State, ops: seq<Op>, rates: AllRates): seq<bool>
    decreases |ops|
  {
    if ops == [] then []
    else [Apply(s, ops[0], rates).1] + Decisions(Apply(s, ops[0], rates).0, ops[1..], rates)
  }

  function DecisionsKeeping(s: State, ops: seq<Op>, rates: AllRates): seq<bool>
    decreases |ops|
  {
    if ops == [] then []
    else [ApplyKeeping(s, ops[0], rates).1] + DecisionsKeeping(ApplyKeeping(s, ops[0], rates).0, ops[1..], rates)
  }

  function Clock(op: Op, since: real): real { if op.Request? then op.now else since }

  /** A clock that never goes back. */
  ghost predicate Forward(ops: seq<Op>, since: real)
    decreases |ops|
  {
    ops != [] ==> Clock(ops[0], since) >= since && Forward(ops[1..], Clock(ops[0], since))
  }

  /** No request drops every client bucket at once. */
  ghost predicate NoReset(s: State, ops: seq<Op>, rates: AllRates)
    decreases |ops|
  {
    ops != [] ==>
      && (ops[0].Request? && ops[0].key !in s.clients ==> |Swept(s, ops[0].now).clients| < MAX_BUCKETS)
      && NoReset(Apply(s, ops[0], rates).0, ops[1..], rates)
  }

  ghost predicate Sensible(r: Rates) {
    r.clientCapacity >= 0.0 && r.clientRefill >= 0.0 && r.globalCapacity >= 0.0 && r.globalRefill >= 0.0
  }

  /** An idle bucket has refilled by the time it may be dropped. */
  ghost predicate RefillsWhileIdle(r: Rates) { Sensible(r) && r.clientCapacity <= BUCKET_IDLE * r.clientRefill }

  ghost predicate BucketsOk<K>(buckets: map<K, Bucket>, now: real) {
    forall k | k in buckets :: buckets[k].tokens >= 0.0 && buckets[k].updatedAt <= now
  }

  // ---------- pruning refines never pruning ----------

  /** The bucket has refilled. */
  predicate Full(b: Bucket, capacity: real, refill: real, now: real) {
    Earned(b, refill, now) >= capacity
  }

  /** The pruning limiter's buckets are the other's, and what it dropped is full. */
  ghost predicate Refines(a: State, b: State, rates: AllRates, now: real) {
    && a.global == b.global
    && BucketsOk(b.clients, now) && BucketsOk(b.global, now)
    && (forall k | k in a.clients :: k in b.clients && a.clients[k] == b.clients[k])
    && (forall k | k in b.clients && k !in a.clients ::
          Full(b.clients[k], rates(k.scope).clientCapacity, rates(k.scope).clientRefill, now))
  }

  lemma RefillAdds(rate: real, a: real, b: real)
    ensures Refill(rate, a + b) == Refill(rate, a) + Refill(rate, b)
    ensures Refill(rate, 0.0) == 0.0
  {}

  lemma RefillGrows(rate: real, a: real, b: real)
    requires a <= b && rate >= 0.0
    ensures Refill(rate, a) <= Refill(rate, b)
    ensures Refill(rate, 0.0) == 0.0
  {}

  lemma StaysFull(b: Bucket, r: Rates, since: real, now: real)
    requires since <= now && Sensible(r) && Full(b, r.clientCapacity, r.clientRefill, since)
    ensures Full(b, r.clientCapacity, r.clientRefill, now)
  {
    hide Refill;
    RefillGrows(r.clientRefill, since - b.updatedAt, now - b.updatedAt);
  }

  lemma IdleIsFull(b: Bucket, r: Rates, now: real)
    requires RefillsWhileIdle(r) && b.tokens >= 0.0 && now - b.updatedAt > BUCKET_IDLE
    ensures Full(b, r.clientCapacity, r.clientRefill, now)
  {
    RefillGrows(r.clientRefill, BUCKET_IDLE, now - b.updatedAt);
    assert Refill(r.clientRefill, BUCKET_IDLE) == BUCKET_IDLE * r.clientRefill;
    hide Refill;
  }

  /** Time passing and idle buckets being dropped are invisible. */
  lemma SweepRefines(a: State, b: State, rates: AllRates, since: real, now: real)
    requires Refines(a, b, rates, since) && since <= now && forall scope :: RefillsWhileIdle(rates(scope))
    ensures Refines(a, b, rates, now) && Refines(Swept(a, now), b, rates, now)
  {
    hide Full, RefillsWhileIdle;
    forall k | k in b.clients && k !in a.clients
      ensures Full(b.clients[k], rates(k.scope).clientCapacity, rates(k.scope).clientRefill, now)
    {
      assert Sensible(rates(k.scope)) by { RefillsIsSensible(rates(k.scope)); }
      StaysFull(b.clients[k], rates(k.scope), since, now);
    }
    forall k | k in b.clients && now - b.clients[k].updatedAt > BUCKET_IDLE
      ensures Full(b.clients[k], rates(k.scope).clientCapacity, rates(k.scope).clientRefill, now)
    {
      IdleIsFull(b.clients[k], rates(k.scope), now);
    }
  }

  lemma RefillsIsSensible(r: Rates)
    requires RefillsWhileIdle(r)
    ensures Sensible(r)
  {}

  lemma LevelAgrees(a: State, b: State, rates: AllRates, key: Key, now: real)
    requires Refines(a, b, rates, now)
    ensures Level(a.clients, key, rates(key.scope).clientCapacity, rates(key.scope).clientRefill, now)
         == Level(b.clients, key, rates(key.scope).clientCapacity, rates(key.scope).clientRefill, now)
  {}

  lemma LevelOk<K>(buckets: map<K, Bucket>, key: K, capacity: real, refill: real, now: real)
    requires BucketsOk(buckets, now) && capacity >= 0.0 && refill >= 0.0
    ensures 0.0 <= Level(buckets, key, capacity, refill, now) <= capacity
  {
    hide Earned;
    if key in buckets { EarnedNotNegative(buckets[key], refill, now); }
  }

  lemma EarnedNotNegative(b: Bucket, refill: real, now: real)
    requires b.tokens >= 0.0 && b.updatedAt <= now && refill >= 0.0
    ensures Earned(b, refill, now) >= 0.0
  {
    hide Refill;
    RefillGrows(refill, 0.0, now - b.updatedAt);
  }

  lemma OneMoreToken(b: Bucket, refill: real, now: real)
    ensures Earned(b.(tokens := b.tokens + 1.0), refill, now) == Earned(b, refill, now) + 1.0
  {
    hide Refill;
  }

  lemma EarnedAtOnce(b: Bucket, refill: real)
    ensures Earned(b, refill, b.updatedAt) == b.tokens
  {
    RefillAdds(refill, 0.0, 0.0);
  }

  lemma ChargeRefines(a: State, b: State, key: Key, rates: AllRates, now: real)
    requires Refines(a, b, rates, now) && Sensible(rates(key.scope))
    ensures Charge(a, key, rates(key.scope), now).1 == Charge(b, key, rates(key.scope), now).1
    ensures Refines(Charge(a, key, rates(key.scope), now).0, Charge(b, key, rates(key.scope), now).0, rates, now)
  {
    hide Level, Full;
    var r := rates(key.scope);
    LevelAgrees(a, b, rates, key, now);
    LevelOk(b.clients, key, r.clientCapacity, r.clientRefill, now);
    LevelOk(b.global, key.scope, r.globalCapacity, r.globalRefill, now);
  }

  lemma RefundRefines(a: State, b: State, key: Key, rates: AllRates, now: real)
    requires Refines(a, b, rates, now)
    ensures Refines(Refund(a, key), Refund(b, key), rates, now)
  {
    hide Earned;
    if key in b.clients { OneMoreToken(b.clients[key], rates(key.scope).clientRefill, now); }
  }

  /** For scopes whose idle clients have refilled after ten minutes, dropping
      idle buckets never changes a decision, over any run of requests and
      refunds in which the client map is not dropped wholesale. */
  lemma {:induction false} PruningIsInvisible(a: State, b: State, ops: seq<Op>, rates: AllRates, since: real)
    requires Refines(a, b, rates, since) && Forward(ops, since) && NoReset(a, ops, rates)
    requires forall scope :: RefillsWhileIdle(rates(scope))
    ensures Decisions(a, ops, rates) == DecisionsKeeping(b, ops, rates)
    decreases |ops|
  {
    if ops != [] {
      hide Charge, Swept, Refund, Refines, RefillsWhileIdle;
      var (a', b') := (Apply(a, ops[0], rates).0, ApplyKeeping(b, ops[0], rates).0);
      match ops[0]
      case Request(key, now) =>
        SweepRefines(a, b, rates, since, now);
        var room := if key in a.clients then a else MakeRoom(a, now);
        RefillsIsSensible(rates(key.scope));
        ChargeRefines(room, b, key, rates, now);
        PruningIsInvisible(a', b', ops[1..], rates, now);
      case GiveBack(key) =>
        RefundRefines(a, b, key, rates, since);
        PruningIsInvisible(a', b', ops[1..], rates, since);
    }
  }

  lemma FromTheStart(ops: seq<Op>, rates: AllRates, since: real)
    requires Forward(ops, since) && NoReset(EMPTY, ops, rates)
    requires forall scope :: RefillsWhileIdle(rates(scope))
    ensures Decisions(EMPTY, ops, rates) == DecisionsKeeping(EMPTY, ops, rates)
  {
    PruningIsInvisible(EMPTY, EMPTY, ops, rates, since);
  }

  // ---------- what a request costs ----------

  lemma TakeCosts<K>(buckets: map<K, Bucket>, key: K, capacity: real, refill: real, now: real)
    requires BucketsOk(buckets, now) && capacity >= 0.0 && refill >= 0.0
    ensures var level := Level(buckets, key, capacity, refill, now);
            var (buckets', ok) := Take(buckets, key, capacity, refill, now);
            && (ok <==> level >= 1.0)
            && Level(buckets', key, capacity, refill, now) == (if ok then level - 1.0 else level)
            && BucketsOk(buckets', now)
  {
    hide Earned;
    LevelOk(buckets, key, capacity, refill, now);
    EarnedAtOnce(Take(buckets, key, capacity, refill, now).0[key], refill);
  }

  /** The bucket exists and is not idle: even a refused request uses it. */
  predicate UsedNow<K>(buckets: map<K, Bucket>, key: K, now: real) { key in buckets && buckets[key].updatedAt == now }

  lemma ChargeCosts(s: State, key: Key, r: Rates, now: real)
    requires Sensible(r) && BucketsOk(s.clients, now) && BucketsOk(s.global, now)
    ensures var client := Level(s.clients, key, r.clientCapacity, r.clientRefill, now);
            var shared := Level(s.global, key.scope, r.globalCapacity, r.globalRefill, now);
            var (s', allowed) := Charge(s, key, r, now);
            var client' := Level(s'.clients, key, r.clientCapacity, r.clientRefill, now);
            var shared' := Level(s'.global, key.scope, r.globalCapacity, r.globalRefill, now);
            && (allowed <==> client >= 1.0 && shared >= 1.0)
            && (if allowed then client' == client - 1.0 && shared' == shared - 1.0
                else client' == client && shared' == shared)
            && (client < 1.0 ==> s'.global == s.global)
            && UsedNow(s'.clients, key, now) && (client >= 1.0 ==> UsedNow(s'.global, key.scope, now))
  {
    TakeCosts(s.clients, key, r.clientCapacity, r.clientRefill, now);
    TakeCosts(s.global, key.scope, r.globalCapacity, r.globalRefill, now);
    LevelOk(s.clients, key, r.clientCapacity, r.clientRefill, now);
  }

  /** A request, with the room it may first have to make: allowed exactly when both buckets hold
      a token; an empty client bucket leaves the scope's alone, and an empty scope leaves the
      client's at its level. Every bucket looked at has then just been used. */
  lemma RequestCosts(s: State, key: Key, r: Rates, now: real)
    requires Sensible(r) && BucketsOk(s.clients, now) && BucketsOk(s.global, now)
    ensures var client := Level(s.clients, key, r.clientCapacity, r.clientRefill, now);
            var shared := Level(s.global, key.scope, r.globalCapacity, r.globalRefill, now);
            var (s', allowed) := Allow(s, key, r, now);
            var client' := Level(s'.clients, key, r.clientCapacity, r.clientRefill, now);
            var shared' := Level(s'.global, key.scope, r.globalCapacity, r.globalRefill, now);
            && (allowed <==> client >= 1.0 && shared >= 1.0)
            && (if allowed then client' == client - 1.0 && shared' == shared - 1.0
                else client' == client && shared' == shared)
            && (client < 1.0 ==> s'.global == s.global)
            && UsedNow(s'.clients, key, now) && (client >= 1.0 ==> UsedNow(s'.global, key.scope, now))
  {
    hide Charge, Earned;
    var room := if key in s.clients then s else MakeRoom(s, now);
    ChargeCosts(room, key, r, now);
  }

  /** With 5000 clients or more, a sweep drops those idle for over ten minutes,
      if the last one is a minute past; if that leaves room they are all
      that is dropped, and else everybody is. */
  lemma RoomIsMade(s: State, now: real, key: Key)
    ensures var room := MakeRoom(s, now);
            var due := s.prunedAt.None? || s.prunedAt.value + 60.0 <= now;
            && room.global == s.global
            && if |s.clients| < 5000 then room == s
               else
                 && room.prunedAt == (if due then Some(now) else s.prunedAt)
                 && |room.clients| < 5000
                 && (room.clients != map[] ==>
                       due && Look(room.clients, key)
                              == if key in s.clients && now - s.clients[key].updatedAt <= 600.0
                                 then Some(s.clients[key]) else None)
                 && (due && |Busy(s.clients, now)| < 5000 ==> room.clients == Busy(s.clients, now))
  {}

  /** A refund gives the one token back that an allowed request cost: at that
      instant both buckets hold what they held before it. */
  lemma RefundUndoesRequest(s: State, key: Key, r: Rates, now: real)
    requires Sensible(r) && BucketsOk(s.clients, now) && BucketsOk(s.global, now)
    ensures var (s1, allowed) := Allow(s, key, r, now);
            var s2 := Refund(s1, key);
            allowed ==>
              && Level(s2.clients, key, r.clientCapacity, r.clientRefill, now)
                 == Level(s.clients, key, r.clientCapacity, r.clientRefill, now)
              && Level(s2.global, key.scope, r.globalCapacity, r.globalRefill, now)
                 == Level(s.global, key.scope, r.globalCapacity, r.globalRefill, now)
              && (forall other | other != key :: Look(s2.clients, other) == Look(s1.clients, other))
              && (forall scope | scope != key.scope :: Look(s2.global, scope) == Look(s.global, scope))
  {
    hide Earned, Level, MakeRoom;
    var room := if key in s.clients then s else MakeRoom(s, now);
    if key !in s.clients { RoomLevel(s, key, r, now); }
    TakenBack(room.clients, key, r.clientCapacity, r.clientRefill, now);
    TakenBack(s.global, key.scope, r.globalCapacity, r.globalRefill, now);
  }

  lemma RoomLevel(s: State, key: Key, r: Rates, now: real)
    requires BucketsOk(s.clients, now) && key !in s.clients
    ensures var room := MakeRoom(s, now);
            && room.global == s.global && BucketsOk(room.clients, now)
            && Level(room.clients, key, r.clientCapacity, r.clientRefill, now)
               == Level(s.clients, key, r.clientCapacity, r.clientRefill, now)
  {}

  lemma TakenBack<K>(buckets: map<K, Bucket>, key: K, capacity: real, refill: real, now: real)
    requires BucketsOk(buckets, now) && capacity >= 0.0 && refill >= 0.0
    ensures var (buckets', ok) := Take(buckets, key, capacity, refill, now);
            && (ok ==> Level(AddOne(buckets', key), key, capacity, refill, now)
                       == Level(buckets, key, capacity, refill, now))
  {
    hide Earned;
    LevelOk(buckets, key, capacity, refill, now);
    var taken := Take(buckets, key, capacity, refill, now).0;
    EarnedAtOnce(taken[key], refill);
    OneMoreToken(taken[key], refill, now);
  }

  /** A new bucket is full; one in use gains its rate for the time that passes,
      up to its capacity. */
  lemma RefillsAtItsRate<K>(buckets: map<K, Bucket>, key: K, capacity: real, refill: real, now: real, later: real)
    requires now <= later && capacity >= 0.0 && refill >= 0.0
    ensures var level := Level(buckets, key, capacity, refill, now);
            var level' := Level(buckets, key, capacity, refill, later);
            var earned := level + refill * (later - now);
            && level' == (if earned < capacity then earned else capacity)
            && (key !in buckets ==> level == capacity)
  {
    RefillGrows(refill, 0.0, later - now);
    if key in buckets {
      var u := buckets[key].updatedAt;
      RefillAdds(refill, now - u, later - now);
      assert (now - u) + (later - now) == later - u;
    }
    assert Refill(refill, later - now) == refill * (later - now);
    hide Refill;
  }

  // ---------- bounds over any run ----------

  function Run(s: State, ops: seq<Op>, rates: AllRates): State
    decreases |ops|
  {
    if ops == [] then s else Run(Apply(s, ops[0], rates).0, ops[1..], rates)
  }

  /** Requests of a scope allowed, minus those given back. */
  function Net(s: State, ops: seq<Op>, rates: AllRates, scope: Scope): int
    decreases |ops|
  {
    if ops == [] then 0
    else
      var (s', ok) := Apply(s, ops[0], rates);
      (if ops[0].key.scope != scope then 0 else if ops[0].GiveBack? then -1 else if ok then 1 else 0)
      + Net(s', ops[1..], rates, scope)
  }

  function LastClock(ops: seq<Op>, since: real): real
    decreases |ops|
  {
    if ops == [] then since else LastClock(ops[1..], Clock(ops[0], since))
  }

  function Shared(s: State, scope: Scope, r: Rates, now: real): real {
    Level(s.global, scope, r.globalCapacity, r.globalRefill, now)
  }

  lemma SharedGrows(s: State, scope: Scope, r: Rates, since: real, now: real)
    requires Sensible(r) && since <= now
    ensures Shared(s, scope, r, now) <= Shared(s, scope, r, since) + Refill(r.globalRefill, now - since)
  {
    hide Refill;
    RefillGrows(r.globalRefill, 0.0, now - since);
    if scope in s.global {
      var u := s.global[scope].updatedAt;
      RefillAdds(r.globalRefill, since - u, now - since);
      assert (since - u) + (now - since) == now - u;
    }
  }

  /** One operation never creates shared budget, and an allowed request uses one token of it. */
  lemma SharedSpent(s: State, op: Op, rates: AllRates, scope: Scope, now: real)
    requires BucketsOk(s.global, now) && Sensible(rates(scope)) && Sensible(rates(op.key.scope))
    requires op.Request? ==> op.now == now
    ensures var (s', ok) := Apply(s, op, rates);
            var spent := if op.key.scope != scope then 0 else if op.GiveBack? then -1 else if ok then 1 else 0;
            && BucketsOk(s'.global, now)
            && Shared(s', scope, rates(scope), now) + spent as real <= Shared(s, scope, rates(scope), now)
  {
    hide Level;
    var r := rates(op.key.scope);
    if op.Request? {
      TakeCosts(s.global, op.key.scope, r.globalCapacity, r.globalRefill, now);
      if op.key.scope != scope { OtherLevel(s, Apply(s, op, rates).0, scope, rates(scope), now); }
    } else if op.key.scope == scope {
      RefundLevel(s.global, scope, r.globalCapacity, r.globalRefill, now);
    } else {
      OtherLevel(s, Apply(s, op, rates).0, scope, rates(scope), now);
    }
  }

  lemma OtherLevel(s: State, s': State, scope: Scope, r: Rates, now: real)
    requires scope in s.global <==> scope in s'.global
    requires scope in s.global ==> s.global[scope] == s'.global[scope]
    ensures Shared(s, scope, r, now) == Shared(s', scope, r, now)
  {}

  lemma RefundLevel<K>(buckets: map<K, Bucket>, key: K, capacity: real, refill: real, now: real)
    ensures Level(AddOne(buckets, key), key, capacity, refill, now) <= Level(buckets, key, capacity, refill, now) + 1.0
  {
    hide Earned;
    if key in buckets { OneMoreToken(buckets[key], refill, now); }
  }

  lemma {:induction false} NetBound(s: State, ops: seq<Op>, rates: AllRates, scope: Scope, since: real)
    requires Forward(ops, since) && BucketsOk(s.global, since) && forall other :: Sensible(rates(other))
    ensures LastClock(ops, since) >= since
    ensures Net(s, ops, rates, scope) as real
         <= Shared(s, scope, rates(scope), since) + Refill(rates(scope).globalRefill, LastClock(ops, since) - since)
    decreases |ops|
  {
    hide Apply, Shared, Refill;
    var r, end := rates(scope), LastClock(ops, since);
    if ops == [] {
      SharedOk(s, scope, r, since);
      RefillAdds(r.globalRefill, 0.0, 0.0);
    } else {
      var now := Clock(ops[0], since);
      var s' := Apply(s, ops[0], rates).0;
      SharedGrows(s, scope, r, since, now);
      SharedSpent(s, ops[0], rates, scope, now);
      NetBound(s', ops[1..], rates, scope, now);
      RefillAdds(r.globalRefill, end - now, now - since);
      assert (end - now) + (now - since) == end - since;
    }
  }

  lemma SharedOk(s: State, scope: Scope, r: Rates, now: real)
    requires BucketsOk(s.global, now) && Sensible(r)
    ensures 0.0 <= Shared(s, scope, r, now) <= r.globalCapacity
  {
    LevelOk(s.global, scope, r.globalCapacity, r.globalRefill, now);
  }

  /** In any window, whatever client buckets are dropped: a scope's allowed
      requests minus its refunds are at most its burst plus its rate times
      the time elapsed. */
  lemma GlobalRateBound(s: State, ops: seq<Op>, rates: AllRates, scope: Scope, since: real)
    requires Forward(ops, since) && BucketsOk(s.global, since) && forall other :: Sensible(rates(other))
    ensures Net(s, ops, rates, scope) as real
         <= rates(scope).globalCapacity + rates(scope).globalRefill * (LastClock(ops, since) - since)
  {
    hide Net, Shared;
    NetBound(s, ops, rates, scope, since);
    SharedOk(s, scope, rates(scope), since);
  }

  lemma {:induction false} ClientsBounded(s: State, ops: seq<Op>, rates: AllRates)
    requires |s.clients| <= 5000
    ensures |Run(s, ops, rates).clients| <= 5000
    decreases |ops|
  {
    if ops != [] {
      OneMore(s, ops[0], rates);
      ClientsBounded(Apply(s, ops[0], rates).0, ops[1..], rates);
    }
  }

  lemma OneMore(s: State, op: Op, rates: AllRates)
    requires |s.clients| <= MAX_BUCKETS
    ensures |Apply(s, op, rates).0.clients| <= MAX_BUCKETS
  {}

  /** How many operations of a run sweep the client map. */
  function Sweeps(s: State, ops: seq<Op>, rates: AllRates): nat
    decreases |ops|
  {
    if ops == [] then 0
    else
      var s' := Apply(s, ops[0], rates).0;
      (if s'.prunedAt != s.prunedAt then 1 else 0) + Sweeps(s', ops[1..], rates)
  }

  /** n sweeps after a first one take at least n minutes. */
  lemma {:induction false} SweepsAreRare(s: State, ops: seq<Op>, rates: AllRates, since: real)
    requires Forward(ops, since) && s.prunedAt.Some? && s.prunedAt.value <= since
    ensures s.prunedAt.value + SWEEP_PAUSE * Sweeps(s, ops, rates) as real <= LastClock(ops, since)
         || Sweeps(s, ops, rates) == 0
    ensures LastClock(ops, since) >= since
    decreases |ops|
  {
    hide Charge, Busy;
    if ops != [] {
      var s', now := Apply(s, ops[0], rates).0, Clock(ops[0], since);
      SweepMovesOn(s, ops[0], rates);
      SweepsAreRare(s', ops[1..], rates, now);
    }
  }

  lemma SweepMovesOn(s: State, op: Op, rates: AllRates)
    requires s.prunedAt.Some?
    ensures var s' := Apply(s, op, rates).0;
            || s'.prunedAt == s.prunedAt
            || (op.Request? && s'.prunedAt == Some(op.now) && op.now - s.prunedAt.value >= SWEEP_PAUSE)
  {
    hide Level;
  }

  // ---------- the limiter itself ----------

  class Limiter {
    var clients: map<Key, Bucket>
    var global: map<Scope, Bucket>
    var prunedAt: Option<real>

    ghost function View(): State
      reads this
    {
      State(clients, global, prunedAt)
    }

    constructor ()
      ensures View() == EMPTY
    {
      clients, global, prunedAt := map[], map[], None;
    }

    /** Drops the buckets nobody has used for ten minutes. */
    method DropIdle(now: real)
      modifies this`clients
      ensures clients == Busy(old(clients), now)
    {
      var todo := clients.Keys;
      while todo != {}
        invariant todo <= old(clients).Keys
        invariant forall k :: k in clients <==>
                    k in old(clients) && (k in todo || !(now - old(clients)[k].updatedAt > BUCKET_IDLE))
        invariant forall k | k in clients :: clients[k] == old(clients)[k]
        decreases todo
      {
        var k :| k in todo;
        if now - clients[k].updatedAt > BUCKET_IDLE {
          clients := clients - {k};
        }
        todo := todo - {k};
      }
    }

    method MakeRoomFor(now: real)
      modifies this`clients, this`prunedAt
      ensures View() == MakeRoom(old(View()), now)
    {
      if |clients| < MAX_BUCKETS {
        return;
      }
      if prunedAt.None? || now - prunedAt.value >= SWEEP_PAUSE {
        prunedAt := Some(now);
        DropIdle(now);
      }
      if |clients| >= MAX_BUCKETS {
        clients := map[];
      }
    }

    method AllowScoped(key: Key, r: Rates, now: real) returns (allowed: bool)
      modifies this
      ensures (View(), allowed) == Allow(old(View()), key, r, now)
    {
      hide Level;
      if key !in clients {
        MakeRoomFor(now);
      }
      var (charged, clientOk) := Take(clients, key, r.clientCapacity, r.clientRefill, now);
      clients := charged;
      if !clientOk {
        return false;
      }
      var (shared, globalOk) := Take(global, key.scope, r.globalCapacity, r.globalRefill, now);
      global := shared;
      if !globalOk {
        clients := clients[key := clients[key].(tokens := clients[key].tokens + 1.0)];
        return false;
      }
      return true;
    }

    method RefundScoped(key: Key)
      modifies this`clients, this`global
      ensures View() == Refund(old(View()), key)
    {
      if key in clients {
        clients := clients[key := clients[key].(tokens := clients[key].tokens + 1.0)];
      }
      if key.scope in global {
        global := global[key.scope := global[key.scope].(tokens := global[key.scope].tokens + 1.0)];
      }
    }
  }
}
