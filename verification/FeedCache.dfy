/** The cache of rendered feeds (internal/feed/cache.go): versioned entries in
    recency order under a count and a byte budget, and the validators kept
    past eviction. */
module FeedCache {
  import opened Names
  import opened Wrappers

  type Key = string

  const MAX_VALIDATORS: nat := 10_000

  /** The quoted SHA-1 of a body, taken to be injective. */
  datatype ETag = ETag(body: string)

  /** Instants are nanoseconds since some origin long past. */
  type Time = nat

  const SECOND: nat := 1_000_000_000

  datatype Rendered = Rendered(xml: string, etag: ETag, lastModified: Time)

  datatype Entry = Entry(rendered: Rendered, key: Key, origin: string, version: nat)

  datatype Validator = Validator(etag: ETag, lastModified: Time)

  datatype Limits = Limits(entries: nat, bytes: nat)

  // What a new cache keeps; 64 << 20 bytes
  const LIMITS := Limits(500, 67_108_864)

  /** The cache as a list of entries, most recently used first. */
  datatype State = State(recency: seq<Entry>, validators: map<Key, Validator>)

  // ---------- the recency list ----------

  function Find(r: seq<Entry>, key: Key): Option<Entry> {
    if r == [] then None else if r[0].key == key then Some(r[0]) else Find(r[1..], key)
  }

  function Drop(r: seq<Entry>, key: Key): seq<Entry> {
    if r == [] then []
    else if r[0].key == key then Drop(r[1..], key)
    else [r[0]] + Drop(r[1..], key)
  }

  /** Marks a feed as just used. */
  function Touch(r: seq<Entry>, key: Key): seq<Entry> {
    var found := Find(r, key);
    if found.Some? then [found.value] + Drop(r, key) else r
  }

  function Bytes(r: seq<Entry>): nat {
    if r == [] then 0 else |r[0].rendered.xml| + Bytes(r[1..])
  }

  /** Within both limits; a single entry is always kept. */
  predicate Fits(r: seq<Entry>, limits: Limits) {
    |r| <= 1 || (|r| <= limits.entries && Bytes(r) <= limits.bytes)
  }

  /** Gives up the least recently used entries until the rest fits. */
  function Evict(r: seq<Entry>, limits: Limits): seq<Entry> {
    if Fits(r, limits) then r else Evict(r[..|r| - 1], limits)
  }

  ghost predicate Unique(r: seq<Entry>) {
    forall i, j | 0 <= i < j < |r| :: r[i].key != r[j].key
  }

  // ---------- the critical sections ----------

  function Peeked(s: State, key: Key, origin: string, version: nat): (State, Option<Rendered>) {
    var found := Find(s.recency, key);
    (s.(recency := Touch(s.recency, key)),
     if found.Some? && found.value.origin == origin && found.value.version == version
     then Some(found.value.rendered) else None)
  }

  /** Render's first critical section. */
  datatype Started = Started(cached: Option<Entry>, previous: Option<Validator>)

  function Begun(s: State, key: Key): (State, Started) {
    (s.(recency := Touch(s.recency, key)),
     Started(Find(s.recency, key), if key in s.validators then Some(s.validators[key]) else None))
  }

  /** The cached entry will do: same origin, and not behind. */
  predicate Answers(started: Started, origin: string, version: nat) {
    started.cached.Some? && started.cached.value.origin == origin && started.cached.value.version >= version
  }

  function Truncate(t: Time): Time { t / SECOND * SECOND }

  /** The Last-Modified of a new render: the previous one for the same tag, else
      the clock, moved past the previous second if need be. */
  function Stamp(previous: Option<Validator>, etag: ETag, now: Time): Time {
    if previous.None? then now
    else if previous.value.etag == etag then previous.value.lastModified
    else
      var last := Truncate(previous.value.lastModified);
      if Truncate(now) > last then now else last + SECOND
  }

  function Fresh(started: Started, key: Key, origin: string, version: nat, xml: string, now: Time): Entry {
    Entry(Rendered(xml, ETag(xml), Stamp(started.previous, ETag(xml), now)), key, origin, version)
  }

  function Remembered(validators: map<Key, Validator>, e: Entry): map<Key, Validator> {
    var base := if e.key !in validators && |validators| >= MAX_VALIDATORS then map[] else validators;
    base[e.key := Validator(e.rendered.etag, e.rendered.lastModified)]
  }

  /** Render's second critical section. */
  function Ended(s: State, e: Entry, limits: Limits): (State, Rendered) {
    if e.version == 0 then (s, e.rendered)
    else
      var current := Find(s.recency, e.key);
      if current.Some? && current.value.origin == e.origin && current.value.version > e.version then
        (s.(recency := Touch(s.recency, e.key)), current.value.rendered)
      else
        (State(Evict([e] + Drop(s.recency, e.key), limits), Remembered(s.validators, e)), e.rendered)
  }

  /** A whole Render with nothing in between its two sections. */
  function Render(s: State, key: Key, origin: string, version: nat, xml: string, now: Time, limits: Limits)
    : (State, Rendered)
  {
    var (s1, started) := Begun(s, key);
    if Answers(started, origin, version) then (s1, started.cached.value.rendered)
    else Ended(s1, Fresh(started, key, origin, version, xml, now), limits)
  }

  // ---------- facts about the list ----------

  lemma {:induction false} FindMember(r: seq<Entry>, key: Key)
    ensures Find(r, key).Some? ==> Find(r, key).value in r && Find(r, key).value.key == key
    ensures Find(r, key).None? ==> forall e | e in r :: e.key != key
  {
    if r != [] { FindMember(r[1..], key); }
  }

  lemma {:induction false} DropMembers(r: seq<Entry>, key: Key)
    ensures forall e :: e in Drop(r, key) <==> e in r && e.key != key
  {
    if r != [] {
      DropMembers(r[1..], key);
      assert r == [r[0]] + r[1..];
    }
  }

  lemma {:induction false} DropUnique(r: seq<Entry>, key: Key)
    requires Unique(r)
    ensures Unique(Drop(r, key))
    ensures |Drop(r, key)| == |r| - (if Find(r, key).Some? then 1 else 0)
    ensures Bytes(Drop(r, key)) == Bytes(r) - (if Find(r, key).Some? then |Find(r, key).value.rendered.xml| else 0)
  {
    if r != [] {
      var rest := r[1..];
      DropUnique(rest, key);
      assert forall i | 0 <= i < |rest| :: rest[i].key != r[0].key;
      if r[0].key == key {
        DropAbsent(rest, key);
      } else {
        DropMembers(rest, key);
        ConsUnique(r[0], rest, Drop(rest, key));
        assert ([r[0]] + Drop(rest, key))[1..] == Drop(rest, key);
      }
    }
  }

  lemma ConsUnique(e: Entry, rest: seq<Entry>, kept: seq<Entry>)
    requires Unique(kept) && (forall x | x in kept :: x in rest)
    requires forall i | 0 <= i < |rest| :: rest[i].key != e.key
    ensures Unique([e] + kept)
  {
    forall i | 0 <= i < |kept| ensures kept[i].key != e.key { assert kept[i] in rest; }
  }

  lemma {:induction false} DropAbsent(r: seq<Entry>, key: Key)
    requires forall i | 0 <= i < |r| :: r[i].key != key
    ensures Drop(r, key) == r && Find(r, key).None?
  {
    if r != [] { DropAbsent(r[1..], key); }
  }

  lemma TouchMembers(r: seq<Entry>, key: Key)
    requires Unique(r)
    ensures forall e :: e in Touch(r, key) <==> e in r
    ensures Unique(Touch(r, key))
  {
    FindMember(r, key);
    DropMembers(r, key);
    DropUnique(r, key);
    if Find(r, key).Some? {
      var x := Find(r, key).value;
      forall e | e in r && e.key == key ensures e == x {
        var i :| 0 <= i < |r| && r[i] == e;
        var j :| 0 <= j < |r| && r[j] == x;
      }
    }
  }

  lemma {:induction false} DropTwice(r: seq<Entry>, key: Key)
    ensures Drop(Drop(r, key), key) == Drop(r, key)
  {
    if r != [] {
      DropTwice(r[1..], key);
      assert ([r[0]] + Drop(r[1..], key))[1..] == Drop(r[1..], key);
    }
  }

  /** Using an entry moves it, and nothing else. */
  lemma TouchMoves(r: seq<Entry>, key: Key)
    requires Unique(r)
    ensures Bytes(Touch(r, key)) == Bytes(r)
    ensures Drop(Touch(r, key), key) == Drop(r, key)
  {
    DropUnique(r, key);
    FindMember(r, key);
    DropTwice(r, key);
    if Find(r, key).Some? {
      assert ([Find(r, key).value] + Drop(r, key))[1..] == Drop(r, key);
    }
  }

  lemma {:induction false} BytesConcat(a: seq<Entry>, b: seq<Entry>)
    ensures Bytes(a + b) == Bytes(a) + Bytes(b)
  {
    if a == [] {
      assert a + b == b;
    } else {
      assert (a + b)[1..] == a[1..] + b;
      BytesConcat(a[1..], b);
    }
  }

  lemma BytesOne(e: Entry)
    ensures Bytes([e]) == |e.rendered.xml|
  {}

  lemma {:induction false} BytesPrefix(r: seq<Entry>, n: nat)
    requires n <= |r|
    ensures Bytes(r[..n]) <= Bytes(r)
  {
    assert r == r[..n] + r[n..];
    BytesConcat(r[..n], r[n..]);
  }

  /** The survivors are exactly the longest prefix of the recency order that
      fits both limits. */
  lemma {:induction false} LongestPrefixSurvives(r: seq<Entry>, limits: Limits)
    ensures var kept := Evict(r, limits);
            && kept <= r && (r != [] ==> kept != [])
            && (|kept| <= 1 || (|kept| <= limits.entries && Bytes(kept) <= limits.bytes))
            && forall n | |kept| < n <= |r| :: n > 1 && (n > limits.entries || Bytes(r[..n]) > limits.bytes)
  {
    if !Fits(r, limits) {
      var shorter := r[..|r| - 1];
      LongestPrefixSurvives(shorter, limits);
      var kept := Evict(r, limits);
      forall n | |kept| < n <= |r| ensures n > 1 && (n > limits.entries || Bytes(r[..n]) > limits.bytes) {
        if n < |r| {
          assert r[..n] == shorter[..n];
        } else {
          assert r[..n] == r;
        }
      }
    }
  }

  /** A finished render adds at most itself, and only with a version. */
  lemma EndedMembers(s: State, e: Entry, limits: Limits)
    requires Unique(s.recency)
    ensures var r := Ended(s, e, limits).0.recency;
            Unique(r) && forall x | x in r :: x in s.recency || (x == e && e.version > 0)
  {
    TouchMembers(s.recency, e.key);
    DropMembers(s.recency, e.key);
    DropUnique(s.recency, e.key);
    var others := Drop(s.recency, e.key);
    forall i | 0 <= i < |others| ensures others[i].key != e.key { assert others[i] in others; }
    LongestPrefixSurvives([e] + others, limits);
  }

  /** An entry outlives an eviction exactly if it is the most recent one, or
      all that was used since it still fits with it. */
  lemma SurvivesIff(r: seq<Entry>, p: nat, limits: Limits)
    requires Unique(r) && p < |r|
    ensures r[p] in Evict(r, limits)
       <==> p == 0 || (p + 1 <= limits.entries && Bytes(r[..p + 1]) <= limits.bytes)
  {
    hide Evict, Bytes;
    LongestPrefixSurvives(r, limits);
    var kept := Evict(r, limits);
    if r[p] in kept {
      var q :| 0 <= q < |kept| && kept[q] == r[p];
      assert kept[q] == r[q];
      assert kept[..p + 1] == r[..p + 1];
      BytesPrefix(kept, p + 1);
    } else {
      assert |kept| <= p;
    }
  }

  /** What was used since this entry, with it, is over one of the limits. */
  ghost predicate NoRoom(list: seq<Entry>, e: Entry, limits: Limits) {
    exists p :: 0 < p < |list| && list[p] == e && (p + 1 > limits.entries || Bytes(list[..p + 1]) > limits.bytes)
  }

  lemma PutKeeps(r: seq<Entry>, first: Entry, e: Entry, limits: Limits)
    requires Unique(r) && e in r && e.key != first.key
    ensures var list := [first] + Drop(r, first.key);
            e in Evict(list, limits) <==> !NoRoom(list, e, limits)
  {
    hide Drop, Bytes, Evict;
    var others := Drop(r, first.key);
    var list := [first] + others;
    DropMembers(r, first.key);
    DropUnique(r, first.key);
    forall i | 0 <= i < |others| ensures others[i].key != first.key { assert others[i] in others; }
    var q :| 0 <= q < |others| && others[q] == e;
    assert list[q + 1] == e;
    SurvivesIff(list, q + 1, limits);
    assert forall p | 0 <= p < |list| && list[p] == e :: p == q + 1;
  }

  // ---------- who is answered from the cache ----------

  ghost predicate Holds(s: State, key: Key, origin: string, version: nat, e: Entry) {
    e in s.recency && e.key == key && e.origin == origin && e.version == version
  }

  /** A peek answers exactly if the cache holds the feed for that origin in
      that version, and with that; the feed has then just been used. */
  lemma PeekAnswersIff(s: State, key: Key, origin: string, version: nat)
    requires Unique(s.recency)
    ensures var (s', hit) := Peeked(s, key, origin, version);
            && (hit.Some? <==> exists e :: Holds(s, key, origin, version, e))
            && (forall e | Holds(s, key, origin, version, e) :: hit == Some(e.rendered))
            && s'.validators == s.validators && UsedFirst(s.recency, key, s'.recency)
  {
    FoundIff(s.recency, key);
    UseFirst(s.recency, key);
    hide Touch, Find;
    if exists e :: Holds(s, key, origin, version, e) {
      var e :| Holds(s, key, origin, version, e);
    } else if Find(s.recency, key).Some? {
      assert !Holds(s, key, origin, version, Find(s.recency, key).value);
    }
  }

  lemma FoundIff(r: seq<Entry>, key: Key)
    requires Unique(r)
    ensures forall e | e in r && e.key == key :: Find(r, key) == Some(e)
    ensures Find(r, key).Some? ==> Find(r, key).value in r && Find(r, key).value.key == key
  {
    FindMember(r, key);
    if Find(r, key).Some? {
      var x := Find(r, key).value;
      forall e | e in r && e.key == key ensures e == x {
        var i :| 0 <= i < |r| && r[i] == e;
        var j :| 0 <= j < |r| && r[j] == x;
      }
    }
  }

  /** The same entries, the given feed's first and the others in their order. */
  ghost predicate UsedFirst(r: seq<Entry>, key: Key, r': seq<Entry>) {
    && (forall e :: e in r' <==> e in r) && |r'| == |r|
    && (forall e | e in r && e.key == key :: r'[0] == e)
    && Drop(r', key) == Drop(r, key)
  }

  lemma UseFirst(r: seq<Entry>, key: Key)
    requires Unique(r)
    ensures UsedFirst(r, key, Touch(r, key))
  {
    FoundIff(r, key);
    TouchMembers(r, key);
    TouchMoves(r, key);
    DropUnique(r, key);
  }

  /** A render is spared exactly if the cache holds the feed for that origin
      in that version or a newer one. */
  lemma RenderSparedIff(s: State, key: Key, origin: string, version: nat)
    requires Unique(s.recency)
    ensures var (s', started) := Begun(s, key);
            && (Answers(started, origin, version)
                <==> exists e :: e in s.recency && e.key == key && e.origin == origin && e.version >= version)
            && (forall e | e in s.recency && e.key == key :: started.cached == Some(e))
            && started.previous == Look(s.validators, key)
            && s'.validators == s.validators && UsedFirst(s.recency, key, s'.recency)
  {
    FoundIff(s.recency, key);
    UseFirst(s.recency, key);
    hide Touch, Find;
  }

  /** A finished render with a version takes its feed's place and answers,
      unless a newer one for the same origin is there, which then answers. */
  lemma EndedAnswers(s: State, e: Entry, limits: Limits)
    requires Unique(s.recency) && e.version > 0
    ensures var (s', r) := Ended(s, e, limits);
            if exists x :: x in s.recency && x.key == e.key && x.origin == e.origin && x.version > e.version then
              && (forall x | x in s.recency && x.key == e.key :: r == x.rendered)
              && s'.validators == s.validators && UsedFirst(s.recency, e.key, s'.recency)
            else
              && r == e.rendered && s'.recency != [] && s'.recency[0] == e
              && s'.recency == Evict([e] + Drop(s.recency, e.key), limits)
              && Look(s'.validators, e.key) == Some(Validator(e.rendered.etag, e.rendered.lastModified))
  {
    FoundIff(s.recency, e.key);
    UseFirst(s.recency, e.key);
    hide Touch, Find, Drop;
    LongestPrefixSurvives([e] + Drop(s.recency, e.key), limits);
    hide Evict;
  }

  /** At most 10,000 validators are kept: one more feed's forgets the others,
      and else they all stay. */
  lemma ValidatorsKept(validators: map<Key, Validator>, e: Entry, key: Key)
    requires |validators| <= 10_000
    ensures var after := Remembered(validators, e);
            && |after| <= 10_000
            && Look(after, key)
               == if key == e.key then Some(Validator(e.rendered.etag, e.rendered.lastModified))
                  else if e.key !in validators && |validators| == 10_000 then None else Look(validators, key)
  {}

  // ---------- the cache itself ----------

  /** The entries the keys of the LRU list stand for. */
  function Rows(lru: seq<Key>, entries: map<Key, Entry>): (r: seq<Entry>)
    requires forall k | k in lru :: k in entries
    ensures |r| == |lru|
  {
    if lru == [] then [] else [entries[lru[0]]] + Rows(lru[1..], entries)
  }

  function Unlink(lru: seq<Key>, key: Key): seq<Key> {
    if lru == [] then []
    else if lru[0] == key then Unlink(lru[1..], key)
    else [lru[0]] + Unlink(lru[1..], key)
  }

  /** Map and list hold the same entries, each under its own key. */
  ghost predicate Linked(lru: seq<Key>, entries: map<Key, Entry>) {
    && Distinct(lru)
    && (forall k | k in lru :: k in entries && entries[k].key == k)
    && (forall k | k in entries :: k in lru)
  }

  lemma {:induction false} RowsAt(lru: seq<Key>, entries: map<Key, Entry>)
    requires forall k | k in lru :: k in entries
    ensures forall i | 0 <= i < |lru| :: Rows(lru, entries)[i] == entries[lru[i]]
  {
    if lru != [] { RowsAt(lru[1..], entries); }
  }

  lemma {:induction false} UnlinkMembers(lru: seq<Key>, key: Key)
    ensures forall k :: k in Unlink(lru, key) <==> k in lru && k != key
  {
    if lru != [] {
      UnlinkMembers(lru[1..], key);
      assert lru == [lru[0]] + lru[1..];
    }
  }

  lemma {:induction false} UnlinkDistinct(lru: seq<Key>, key: Key)
    requires Distinct(lru)
    ensures Distinct(Unlink(lru, key))
  {
    if lru != [] {
      var rest := lru[1..];
      UnlinkDistinct(rest, key);
      UnlinkMembers(rest, key);
      assert forall i | 0 <= i < |rest| :: rest[i] != lru[0];
      var kept := Unlink(rest, key);
      forall i | 0 <= i < |kept| ensures kept[i] != lru[0] {
        assert kept[i] in rest;
      }
    }
  }

  lemma PutLinked(lru: seq<Key>, entries: map<Key, Entry>, e: Entry)
    requires Linked(lru, entries)
    ensures Linked([e.key] + Unlink(lru, e.key), entries[e.key := e])
  {
    hide Unlink;
    UnlinkMembers(lru, e.key);
    UnlinkDistinct(lru, e.key);
    var others, entries' := Unlink(lru, e.key), entries[e.key := e];
    forall i | 0 <= i < |others| ensures others[i] != e.key { assert others[i] in others; }
    forall k | k in entries' ensures k in [e.key] + others { assert k == e.key || k in others; }
  }

  lemma RowsCons(key: Key, rest: seq<Key>, entries: map<Key, Entry>)
    requires key in entries && forall k | k in rest :: k in entries
    ensures forall k | k in [key] + rest :: k in entries
    ensures Rows([key] + rest, entries) == [entries[key]] + Rows(rest, entries)
    ensures Bytes(Rows([key] + rest, entries)) == |entries[key].rendered.xml| + Bytes(Rows(rest, entries))
  {}

  /** Putting an entry in front, in place of the feed's previous one. */
  lemma PutFirst(lru: seq<Key>, entries: map<Key, Entry>, e: Entry)
    requires Linked(lru, entries)
    ensures var lru', entries' := [e.key] + Unlink(lru, e.key), entries[e.key := e];
            var was := Rows(lru, entries);
            && Linked(lru', entries')
            && Rows(lru', entries') == [e] + Drop(was, e.key)
            && Bytes(Rows(lru', entries')) == Bytes(was) + |e.rendered.xml|
                 - (if e.key in entries then |entries[e.key].rendered.xml| else 0)
  {
    hide Rows, Bytes, Drop, Unlink, Find, Unique;
    var others := Unlink(lru, e.key);
    PutLinked(lru, entries, e);
    UnlinkMembers(lru, e.key);
    RowsUnlink(lru, entries, e.key);
    RowsUnique(lru, entries);
    DropUnique(Rows(lru, entries), e.key);
    RowsAgree(others, entries, entries[e.key := e]);
    RowsCons(e.key, others, entries[e.key := e]);
  }

  lemma CutLinked(lru: seq<Key>, entries: map<Key, Entry>)
    requires Linked(lru, entries) && lru != []
    ensures var n := |lru| - 1; Linked(lru[..n], entries - {lru[n]})
  {}

  lemma {:induction false} RowsAppend(lru: seq<Key>, key: Key, entries: map<Key, Entry>)
    requires key in entries && forall k | k in lru :: k in entries
    ensures forall k | k in lru + [key] :: k in entries
    ensures Rows(lru + [key], entries) == Rows(lru, entries) + [entries[key]]
  {
    if lru == [] {
      assert lru + [key] == [key];
    } else {
      assert (lru + [key])[1..] == lru[1..] + [key];
      RowsAppend(lru[1..], key, entries);
    }
  }

  /** Giving up the least recently used entry. */
  lemma CutLast(lru: seq<Key>, entries: map<Key, Entry>)
    requires Linked(lru, entries) && lru != []
    ensures var n := |lru| - 1;
            && Linked(lru[..n], entries - {lru[n]})
            && Rows(lru[..n], entries - {lru[n]}) == Rows(lru, entries)[..n]
            && Bytes(Rows(lru, entries)) == Bytes(Rows(lru, entries)[..n]) + |entries[lru[n]].rendered.xml|
  {
    hide Bytes, Rows;
    var n := |lru| - 1;
    CutLinked(lru, entries);
    assert lru == lru[..n] + [lru[n]];
    RowsAppend(lru[..n], lru[n], entries);
    RowsAgree(lru[..n], entries, entries - {lru[n]});
    BytesConcat(Rows(lru[..n], entries), [entries[lru[n]]]);
    BytesOne(entries[lru[n]]);
  }

  lemma {:induction false} RowsUnlink(lru: seq<Key>, entries: map<Key, Entry>, key: Key)
    requires forall k | k in lru :: k in entries && entries[k].key == k
    ensures forall k | k in Unlink(lru, key) :: k in entries
    ensures Rows(Unlink(lru, key), entries) == Drop(Rows(lru, entries), key)
    ensures Find(Rows(lru, entries), key) == if key in lru then Some(entries[key]) else None
  {
    UnlinkMembers(lru, key);
    if lru != [] {
      RowsUnlink(lru[1..], entries, key);
      assert lru == [lru[0]] + lru[1..];
      assert Rows(lru, entries)[1..] == Rows(lru[1..], entries);
      if lru[0] != key {
        assert Unlink(lru, key)[1..] == Unlink(lru[1..], key);
      }
    }
  }

  lemma {:induction false} UnlinkAbsent(lru: seq<Key>, key: Key)
    requires key !in lru
    ensures Unlink(lru, key) == lru
  {
    if lru != [] { UnlinkAbsent(lru[1..], key); }
  }

  lemma RowsUnique(lru: seq<Key>, entries: map<Key, Entry>)
    requires Linked(lru, entries)
    ensures Unique(Rows(lru, entries))
  {
    RowsAt(lru, entries);
  }

  /** Rows only depends on the entries of the listed keys. */
  lemma {:induction false} RowsAgree(lru: seq<Key>, a: map<Key, Entry>, b: map<Key, Entry>)
    requires forall k | k in lru :: k in a && k in b && a[k] == b[k]
    ensures Rows(lru, a) == Rows(lru, b)
  {
    if lru != [] { RowsAgree(lru[1..], a, b); }
  }

  class Cache {
    var entries: map<Key, Entry>
    var lru: seq<Key>
    var bytes: int
    var validators: map<Key, Validator>
    const limits: Limits

    ghost predicate Valid()
      reads this
    {
      Linked(lru, entries) && bytes == Bytes(Rows(lru, entries))
    }

    ghost function View(): State
      reads this
      requires Valid()
    {
      State(Rows(lru, entries), validators)
    }

    constructor ()
      ensures Valid() && View() == State([], map[]) && limits == LIMITS
    {
      entries, lru, bytes, validators := map[], [], 0, map[];
      limits := LIMITS;
    }

    method Get(key: Key) returns (e: Option<Entry>)
      requires Valid()
      modifies this`lru
      ensures Valid()
      ensures e == Find(old(View()).recency, key)
      ensures View() == old(View()).(recency := Touch(old(View()).recency, key))
    {
      RowsUnlink(lru, entries, key);
      UnlinkMembers(lru, key);
      UnlinkDistinct(lru, key);
      if key !in entries {
        return None;
      }
      ghost var was := Rows(lru, entries);
      lru := [key] + Unlink(lru, key);
      assert lru[1..] == Unlink(old(lru), key);
      assert Rows(lru, entries) == Touch(was, key);
      RowsUnique(old(lru), entries);
      TouchMoves(was, key);
      return Some(entries[key]);
    }

    method Peek(key: Key, origin: string, version: nat) returns (hit: Option<Rendered>)
      requires Valid()
      modifies this`lru
      ensures Valid() && (View(), hit) == Peeked(old(View()), key, origin, version)
    {
      var e := Get(key);
      if e.Some? && e.value.origin == origin && e.value.version == version {
        return Some(e.value.rendered);
      }
      return None;
    }

    method Begin(key: Key) returns (started: Started)
      requires Valid()
      modifies this`lru
      ensures Valid() && (View(), started) == Begun(old(View()), key)
    {
      var cached := Get(key);
      started := Started(cached, if key in validators then Some(validators[key]) else None);
    }

    method Remember(e: Entry)
      requires Valid()
      modifies this`validators
      ensures Valid() && validators == Remembered(old(validators), e)
    {
      if e.key !in validators && |validators| >= MAX_VALIDATORS {
        validators := map[];
      }
      validators := validators[e.key := Validator(e.rendered.etag, e.rendered.lastModified)];
    }

    /** Puts an entry in front, in place of the feed's previous one. */
    method Insert(e: Entry)
      requires Valid()
      modifies this`entries, this`lru, this`bytes
      ensures Valid() && View() == old(View()).(recency := [e] + Drop(old(View()).recency, e.key))
    {
      PutFirst(lru, entries, e);
      if e.key in entries {
        bytes := bytes - |entries[e.key].rendered.xml|;
        lru := Unlink(lru, e.key);
      } else {
        UnlinkAbsent(lru, e.key);
      }
      entries, lru := entries[e.key := e], [e.key] + lru;
      bytes := bytes + |e.rendered.xml|;
    }

    method Trim()
      requires Valid()
      modifies this`entries, this`lru, this`bytes
      ensures Valid() && View() == old(View()).(recency := Evict(old(View()).recency, limits))
    {
      RowsAt(lru, entries);
      while |lru| > 1 && (|lru| > limits.entries || bytes > limits.bytes)
        invariant Valid() && |Rows(lru, entries)| == |lru|
        invariant Evict(Rows(lru, entries), limits) == Evict(old(View()).recency, limits)
        decreases |lru|
      {
        CutLast(lru, entries);
        var n := |lru| - 1;
        var oldest := lru[n];
        bytes := bytes - |entries[oldest].rendered.xml|;
        lru, entries := lru[..n], entries - {oldest};
        RowsAt(lru, entries);
      }
    }

    method End(e: Entry) returns (r: Rendered)
      requires Valid()
      modifies this
      ensures Valid() && (View(), r) == Ended(old(View()), e, limits)
    {
      if e.version == 0 {
        return e.rendered;
      }
      RowsUnique(lru, entries);
      TouchMoves(Rows(lru, entries), e.key);
      var current := Get(e.key);
      if current.Some? && current.value.origin == e.origin && current.value.version > e.version {
        return current.value.rendered;
      }
      Remember(e);
      Insert(e);
      Trim();
      return e.rendered;
    }

    method RenderFeed(key: Key, origin: string, version: nat, xml: string, now: Time) returns (r: Rendered)
      requires Valid()
      modifies this
      ensures Valid() && (View(), r) == Render(old(View()), key, origin, version, xml, now, limits)
    {
      var started := Begin(key);
      if Answers(started, origin, version) {
        return started.cached.value.rendered;
      }
      r := End(Fresh(started, key, origin, version, xml, now));
    }
  }
}
