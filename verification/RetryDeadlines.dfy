/** Deadlines that outlive the process, by key (internal/retry/retry.go). */
module RetryDeadlines {
  import opened Powers
  import opened Wrappers

  type Key = string

  /** A row under retry:{key}; times are Unix milliseconds. */
  datatype Deadline = Deadline(attempts: nat, nextRetryAt: int)

  type Table = map<Key, Deadline>

  const MINUTE := 60_000
  /** A day. */
  const MAX_DELAY := 1440 * MINUTE
  const MAX_ATTEMPTS: nat := 10

  function Min(a: int, b: int): int { if a <= b then a else b }

  function Max(a: int, b: int): int { if a >= b then a else b }

  function At(t: Table, key: Key): int { if key in t then t[key].nextRetryAt else 0 }

  predicate Can(t: Table, key: Key, now: int) { At(t, key) <= now }

  function Attempts(t: Table, key: Key): nat { if key in t then t[key].attempts else 0 }

  /** The back-off of the n-th attempt: 5 min << (n-1), up to a day. */
  function Delay(n: nat): int
    requires n > 0
  {
    Min(MAX_DELAY, 5 * MINUTE * Pow2(n - 1))
  }

  datatype Op =
    | Defer(key: Key, notBefore: int, now: int)
    | SetDeadline(key: Key, at: int, now: int)
    | Clear(key: Key)

  function Deferred(t: Table, key: Key, notBefore: int, now: int): Table {
    var n := if Attempts(t, key) + 1 < MAX_ATTEMPTS then Attempts(t, key) + 1 else MAX_ATTEMPTS;
    t[key := Deadline(n, Max(now + Delay(n), Min(notBefore, now + MAX_DELAY)))]
  }

  /** Does a later deadline already stand? One over a day ahead was written
      before the clock went back, and is not believed. */
  predicate Stands(t: Table, key: Key, at: int, now: int) {
    Min(at, now + MAX_DELAY) < At(t, key) <= now + MAX_DELAY
  }

  function Set(t: Table, key: Key, at: int, now: int): Table {
    if Stands(t, key, at, now) then t else t[key := Deadline(0, Min(at, now + MAX_DELAY))]
  }

  function Apply(t: Table, op: Op): Table {
    match op
    case Defer(key, notBefore, now) => Deferred(t, key, notBefore, now)
    case SetDeadline(key, at, now) => Set(t, key, at, now)
    case Clear(key) => t - {key}
  }

  function Run(t: Table, ops: seq<Op>): Table {
    if ops == [] then t else Apply(Run(t, ops[..|ops| - 1]), ops[|ops| - 1])
  }

  // ---------- one key among others ----------

  function OfKey(ops: seq<Op>, key: Key): seq<Op> {
    if ops == [] then []
    else OfKey(ops[..|ops| - 1], key) + (if ops[|ops| - 1].key == key then [ops[|ops| - 1]] else [])
  }

  lemma ApplyToKey(t: Table, t': Table, op: Op, key: Key)
    requires Look(t, key) == Look(t', key)
    ensures Look(Apply(t, op), key) == Look(if op.key == key then Apply(t', op) else t', key)
  {}

  /** A key's row is what its own operations make of it. */
  lemma {:induction false} OnlyItsOwn(t: Table, ops: seq<Op>, key: Key)
    ensures Look(Run(t, ops), key) == Look(Run(t, OfKey(ops, key)), key)
    decreases |ops|
  {
    hide Apply;
    if ops != [] {
      var before, last := ops[..|ops| - 1], ops[|ops| - 1];
      var mine := OfKey(before, key);
      OnlyItsOwn(t, before, key);
      ApplyToKey(Run(t, before), Run(t, mine), last, key);
      assert (mine + [last])[..|mine|] == mine && mine + [] == mine;
    }
  }

  // ---------- backing off ----------

  predicate DefersOf(ops: seq<Op>, key: Key) { forall op | op in ops :: op.Defer? && op.key == key }

  /** The wait after n failures in a row: 5·2^(n-1) minutes, at most a day. */
  function Wait(n: nat): int
    requires n > 0
  {
    Min(5 * Pow2(n - 1), 1440) * MINUTE
  }

  /** Capping the attempts at ten never shortens a wait: the tenth is already a day. */
  lemma CappedDelayIsWait(n: nat)
    requires n > 0
    ensures Delay(if n < MAX_ATTEMPTS then n else MAX_ATTEMPTS) == Wait(n)
  {
    if n >= MAX_ATTEMPTS {
      SomePowers();
      Pow2Grows(9, n - 1);
    }
  }

  /** n failures of a key in a row, at any clock readings and whatever other
      keys do in between, from a key without attempts: the last waits
      min(5·2^(n-1), 1440) minutes from its own moment, or until the
      upstream's deadline, capped at a day, when that is later. */
  lemma DefersBackOff(t: Table, key: Key, ops: seq<Op>)
    requires (key in t ==> t[key].attempts == 0) && OfKey(ops, key) != [] && DefersOf(OfKey(ops, key), key)
    ensures var n, last := |OfKey(ops, key)|, OfKey(ops, key)[|OfKey(ops, key)| - 1];
            && At(Run(t, ops), key) == Max(last.now + Wait(n), Min(last.notBefore, last.now + MAX_DELAY))
            && (last.notBefore <= last.now ==>
                  At(Run(t, ops), key) - last.now == Min(5 * Pow2(n - 1), 1440) * MINUTE)
  {
    var mine := OfKey(ops, key);
    OnlyItsOwn(t, ops, key);
    assert At(Run(t, ops), key) == At(Run(t, mine), key);
    AttemptsCounted(t, key, mine[..|mine| - 1]);
    CappedDelayIsWait(|mine|);
    assert mine[|mine| - 1] in mine;
  }

  /** Until then the key is held back, and from then on it may go; clearing it
      lets it go at once. */
  lemma HeldBackUntil(t: Table, key: Key, ops: seq<Op>, now: int)
    requires (key in t ==> t[key].attempts == 0) && OfKey(ops, key) != [] && DefersOf(OfKey(ops, key), key)
    ensures var n, last := |OfKey(ops, key)|, OfKey(ops, key)[|OfKey(ops, key)| - 1];
            var minutes := if 5 * Pow2(n - 1) < 1440 then 5 * Pow2(n - 1) else 1440;
            Can(Run(t, ops), key, now)
            <==> last.now + minutes * 60_000 <= now && (last.notBefore <= now || last.now + 86_400_000 <= now)
    ensures now >= 0 ==> Can(Run(t, ops + [Clear(key)]), key, now)
  {
    DefersBackOff(t, key, ops);
    assert (ops + [Clear(key)])[..|ops|] == ops;
  }

  lemma {:induction false} AttemptsCounted(t: Table, key: Key, ops: seq<Op>)
    requires Attempts(t, key) == 0 && DefersOf(ops, key)
    ensures Attempts(Run(t, ops), key) == if |ops| < MAX_ATTEMPTS then |ops| else MAX_ATTEMPTS
    decreases |ops|
  {
    hide Delay;
    if ops != [] {
      assert ops[|ops| - 1] in ops;
      AttemptsCounted(t, key, ops[..|ops| - 1]);
    }
  }

  // ---------- explicit deadlines ----------

  predicate SetsOf(ops: seq<Op>, key: Key) { forall op | op in ops :: op.SetDeadline? && op.key == key }

  predicate Forward(ops: seq<Op>, since: int)
    requires forall op | op in ops :: op.SetDeadline?
  {
    (forall i | 0 <= i < |ops| :: since <= ops[i].now)
    && (forall i, j | 0 <= i < j < |ops| :: ops[i].now <= ops[j].now)
  }

  function LastClock(ops: seq<Op>, since: int): int
    requires forall op | op in ops :: op.SetDeadline?
  {
    if ops == [] then since else ops[|ops| - 1].now
  }

  /** The latest of what stood before and every request, each capped at a day ahead. */
  function Latest(stood: int, ops: seq<Op>): int
    requires forall op | op in ops :: op.SetDeadline?
  {
    if ops == [] then stood
    else
      var last := ops[|ops| - 1];
      assert last in ops;
      Max(Latest(stood, ops[..|ops| - 1]), Min(last.at, last.now + MAX_DELAY))
  }

  /** One request leaves the later of two deadlines exactly when the one that
      stood lay no more than a day off; otherwise the request wins. Where it
      wins, or asks for the same, the attempts start over. */
  lemma LaterKeptIff(t: Table, key: Key, at: int, now: int)
    ensures At(t, key) <= now + MAX_DELAY <==>
            At(Set(t, key, at, now), key) == Max(At(t, key), Min(at, now + MAX_DELAY))
    ensures At(t, key) > now + MAX_DELAY ==>
              Set(t, key, at, now) == t[key := Deadline(0, Min(at, now + MAX_DELAY))]
    ensures Attempts(Set(t, key, at, now), key)
         == if Min(at, now + MAX_DELAY) < At(t, key) <= now + MAX_DELAY then Attempts(t, key) else 0
  {}

  lemma {:induction false} SetsAlone(t: Table, key: Key, ops: seq<Op>, since: int)
    requires SetsOf(ops, key) && Forward(ops, since) && At(t, key) <= since + MAX_DELAY
    ensures At(Run(t, ops), key) == Latest(At(t, key), ops)
    ensures At(Run(t, ops), key) <= LastClock(ops, since) + MAX_DELAY
    decreases |ops|
  {
    if ops != [] {
      var before, last := ops[..|ops| - 1], ops[|ops| - 1];
      assert last in ops;
      SetsAlone(t, key, before, since);
      LaterKeptIff(Run(t, before), key, last.at, last.now);
    }
  }

  /** Repeated explicit deadlines of a key store the maximum of the capped
      requests, whatever other keys do in between. */
  lemma SetsKeepTheLatest(t: Table, key: Key, ops: seq<Op>, since: int)
    requires SetsOf(OfKey(ops, key), key) && Forward(OfKey(ops, key), since) && At(t, key) <= since + MAX_DELAY
    ensures At(Run(t, ops), key) == Latest(At(t, key), OfKey(ops, key))
    ensures At(Run(t, ops), key) <= LastClock(OfKey(ops, key), since) + MAX_DELAY
  {
    OnlyItsOwn(t, ops, key);
    assert At(Run(t, ops), key) == At(Run(t, OfKey(ops, key)), key);
    SetsAlone(t, key, OfKey(ops, key), since);
  }

  // ---------- never over a day ----------

  /** Does this operation write the key's row? */
  predicate Writes(t: Table, op: Op, key: Key) {
    op.key == key && (op.Defer? || (op.SetDeadline? && !Stands(t, key, op.at, op.now)))
  }

  lemma WritesCapped(t: Table, op: Op, key: Key)
    requires Writes(t, op, key)
    ensures key in Apply(t, op) && At(Apply(t, op), key) <= op.now + MAX_DELAY
    ensures op.Defer? ==> At(Apply(t, op), key) >= op.now + 5 * MINUTE
  {}

  lemma UnwrittenStays(t: Table, op: Op, key: Key)
    requires !Writes(t, op, key) && key in Apply(t, op)
    ensures key in t && Apply(t, op)[key] == t[key] && op != Clear(key)
  {}

  /** Over any run, with any clock: a key's row is what its last write left,
      at most a day past the moment of that write. */
  lemma {:induction false} NeverOverADay(ops: seq<Op>, key: Key) returns (k: nat)
    requires key in Run(map[], ops)
    ensures k < |ops| && Writes(Run(map[], ops[..k]), ops[k], key)
    ensures Run(map[], ops)[key] == Apply(Run(map[], ops[..k]), ops[k])[key]
    ensures At(Run(map[], ops), key) <= ops[k].now + MAX_DELAY
    ensures forall j | k < j < |ops| :: !Writes(Run(map[], ops[..j]), ops[j], key) && ops[j] != Clear(key)
    decreases |ops|
  {
    hide Apply, Writes;
    var n := |ops| - 1;
    var before := Run(map[], ops[..n]);
    if Writes(before, ops[n], key) {
      k := n;
      WritesCapped(before, ops[n], key);
    } else {
      UnwrittenStays(before, ops[n], key);
      k := NeverOverADay(ops[..n], key);
      assert ops[..n][..k] == ops[..k];
      forall j | k < j < n ensures !Writes(Run(map[], ops[..j]), ops[j], key) && ops[j] != Clear(key) {
        assert ops[..n][..j] == ops[..j] && ops[..n][j] == ops[j];
      }
    }
  }

  // ---------- Retry-After ----------

  const MAX_INT64 := 0x7FFF_FFFF_FFFF_FFFF

  /** Go's int64 arithmetic wraps around. */
  function Int64(x: int): int { (x + 0x8000_0000_0000_0000) % 0x1_0000_0000_0000_0000 - 0x8000_0000_0000_0000 }

  predicate IsDigits(s: string) { s != [] && forall i | 0 <= i < |s| :: '0' <= s[i] <= '9' }

  function Value(s: string): int {
    if s == [] then 0 else 10 * Value(s[..|s| - 1]) + (s[|s| - 1] as int - '0' as int)
  }

  lemma {:induction false} ValueNonNegative(s: string)
    requires s == [] || IsDigits(s)
    ensures Value(s) >= 0
  {
    if s != [] {
      ValueNonNegative(s[..|s| - 1]);
    }
  }

  /** strconv.ParseInt on digits: an error when the value does not fit. */
  function ParseInt(s: string): Option<int>
    requires IsDigits(s)
  {
    if Value(s) <= MAX_INT64 then Some(Value(s)) else None
  }

  /** The white space strings.TrimSpace cuts. */
  predicate IsSpace(c: char) {
    '\t' <= c <= '\r' || c == ' ' || c == '\U{85}' || c == '\U{A0}' || c == '\U{1680}'
    || '\U{2000}' <= c <= '\U{200A}' || c == '\U{2028}' || c == '\U{2029}' || c == '\U{202F}'
    || c == '\U{205F}' || c == '\U{3000}'
  }

  function TrimSpace(s: string): string {
    if s == [] then s
    else if IsSpace(s[0]) then TrimSpace(s[1..])
    else if IsSpace(s[|s| - 1]) then TrimSpace(s[..|s| - 1])
    else s
  }

  /** `date` is what the date parsers make of the header, if anything. */
  function ParseRetryAfter(value: string, date: Option<int>, now: int): int {
    if value == [] then 0
    else if IsDigits(TrimSpace(value)) then
      match ParseInt(TrimSpace(value))
      case Some(seconds) =>
        if seconds > MAX_DELAY / 1000 then Int64(now + MAX_DELAY) else Int64(now + Int64(seconds * 1000))
      case None => Int64(now + MAX_DELAY)
    else
      match date
      case Some(at) => Min(Max(now, at), Int64(now + MAX_DELAY))
      case None => 0
  }

  predicate IsSpaces(s: string) { forall i | 0 <= i < |s| :: IsSpace(s[i]) }

  /** Spaces around digits are cut, whatever the digits. */
  lemma {:induction false} TrimKeepsDigits(left: string, digits: string, right: string)
    requires IsSpaces(left) && IsSpaces(right) && IsDigits(digits)
    ensures TrimSpace(left + digits + right) == digits
    decreases |left| + |right|
  {
    var s := left + digits + right;
    if left != [] {
      assert s[1..] == left[1..] + digits + right;
      TrimKeepsDigits(left[1..], digits, right);
    } else if right != [] {
      assert s[0] == digits[0];
      assert s[..|s| - 1] == left + digits + right[..|right| - 1];
      TrimKeepsDigits(left, digits, right[..|right| - 1]);
    } else {
      assert s == digits;
    }
  }

  /** Any digit string, however long, is that many seconds capped at a day:
      neither the parse nor the arithmetic overflows into something shorter. */
  lemma DigitsAreSeconds(left: string, digits: string, right: string, date: Option<int>, now: int)
    requires IsSpaces(left) && IsSpaces(right) && IsDigits(digits)
    requires 0 <= now <= MAX_INT64 - MAX_DELAY
    ensures ParseRetryAfter(left + digits + right, date, now) == now + Min(Value(digits) * 1000, MAX_DELAY)
  {
    hide TrimSpace, Value, IsSpaces, IsDigits;
    TrimKeepsDigits(left, digits, right);
    ValueNonNegative(digits);
    assert left + digits + right != [] by { assert |digits| > 0 by { NotEmpty(digits); } }
  }

  /** A number in decimal digits, as printed. */
  function Decimal(n: nat): string { (if n < 10 then "" else Decimal(n / 10)) + ["0123456789"[n % 10]] }

  lemma {:induction false} DecimalIsValue(n: nat)
    ensures IsDigits(Decimal(n)) && Value(Decimal(n)) == n
  {
    hide IsDigits, Value;
    if n >= 10 {
      DecimalIsValue(n / 10);
      OneMoreDigit(Decimal(n / 10), n % 10);
    } else {
      OneMoreDigit("", n);
      assert Value("") == 0 by { NoDigits(); }
    }
  }

  lemma NoDigits()
    ensures Value("") == 0
  {}

  lemma OneMoreDigit(front: string, d: nat)
    requires d < 10 && (front == "" || IsDigits(front))
    ensures var s := front + ["0123456789"[d]]; IsDigits(s) && Value(s) == 10 * Value(front) + d
  {
    DigitIs(d);
    var s := front + ["0123456789"[d]];
    assert s[..|front|] == front && s[|front|] == "0123456789"[d];
  }

  lemma DigitIs(d: nat)
    requires d < 10
    ensures "0123456789"[d] as int == '0' as int + d
  {}

  /** A number of seconds as NRK sends it, with blanks and tabs around it: the
      deadline is that far off, or a day. */
  lemma SecondsAreKept(left: string, n: nat, right: string, date: Option<int>, now: int)
    requires forall c | c in left + right :: c in " \t"
    requires 0 <= now <= MAX_INT64 - MAX_DELAY
    ensures ParseRetryAfter(left + Decimal(n) + right, date, now)
         == now + if n * 1000 < 86_400_000 then n * 1000 else 86_400_000
  {
    hide ParseRetryAfter, IsDigits, Value, Decimal;
    DecimalIsValue(n);
    Blanks(left, right);
    hide IsSpaces;
    DigitsAreSeconds(left, Decimal(n), right, date, now);
  }

  lemma Blanks(left: string, right: string)
    requires forall c | c in left + right :: c in " \t"
    ensures IsSpaces(left) && IsSpaces(right)
  {
    forall i | 0 <= i < |left| ensures IsSpace(left[i]) { assert left[i] in left + right; }
    forall i | 0 <= i < |right| ensures IsSpace(right[i]) { assert right[i] in left + right; }
  }

  lemma NotEmpty(s: string)
    requires IsDigits(s)
    ensures |s| > 0
  {}

  /** Every answer is "none" or a moment within the coming day. */
  lemma RetryAfterBounded(value: string, date: Option<int>, now: int)
    requires 0 <= now <= MAX_INT64 - MAX_DELAY
    ensures var at := ParseRetryAfter(value, date, now);
            && (at == 0 || now <= at <= now + MAX_DELAY)
            && (value == [] || (date.None? && !IsDigits(TrimSpace(value))) ==> at == 0)
            && (value != [] && !IsDigits(TrimSpace(value)) && date.Some? ==>
                  (at == date.value <==> now <= date.value <= now + MAX_DELAY))
  {
    hide TrimSpace, Value, IsDigits;
    if IsDigits(TrimSpace(value)) { ValueNonNegative(TrimSpace(value)); }
  }

  // ---------- the table itself ----------

  class Retry {
    var table: Table

    constructor ()
      ensures table == map[]
    {
      table := map[];
    }

    method Ready(key: Key, now: int) returns (ok: bool)
      ensures ok <==> Can(table, key, now)
    {
      var at := if key in table then table[key].nextRetryAt else 0;
      ok := at <= now;
    }

    method BackOff(key: Key, notBefore: int, now: int)
      modifies this
      ensures table == Deferred(old(table), key, notBefore, now)
    {
      var previous := if key in table then table[key].attempts else 0;
      var attempts := if previous + 1 < MAX_ATTEMPTS then previous + 1 else MAX_ATTEMPTS;
      table := table[key := Deadline(attempts, Max(now + Delay(attempts), Min(notBefore, now + MAX_DELAY)))];
    }

    method PauseUntil(key: Key, at: int, now: int)
      modifies this
      ensures table == Set(old(table), key, at, now)
    {
      var capped := Min(at, now + MAX_DELAY);
      var current := if key in table then table[key].nextRetryAt else 0;
      if current > capped && current <= now + MAX_DELAY {
        return;
      }
      table := table[key := Deadline(0, capped)];
    }

    method Forget(key: Key)
      modifies this
      ensures table == old(table) - {key}
    {
      table := table - {key};
    }
  }
}
