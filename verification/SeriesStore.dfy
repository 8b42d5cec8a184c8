/** The tables of feeds and episodes and the in-memory data versions
    (internal/store/queries.go and SetVideo in internal/store/video.go). A
    transaction either commits as a whole or leaves the tables alone. */
module SeriesStore {
  import opened Powers
  import opened Wrappers

  type SeriesId = string
  type EpisodeId = string
  type EpisodeKey = (SeriesId, EpisodeId)

  const DAY := 86_400_000
  const MAX_BACKOFF_DAYS := 30

  /** What NRK says of a feed, and of an episode: all that a feed's XML shows
      of them besides file sizes and videos. */
  datatype Metadata = Metadata(title: string, subtitle: Option<string>, link: string, image: string)

  datatype Text = Text(title: string, subtitle: Option<string>, url: string, shareLink: string, date: int,
                       duration: int)

  datatype Incoming = Incoming(id: EpisodeId, text: Text, bytes: Option<nat>, clip: Option<string>)

  datatype Row = Row(meta: Metadata, lastFetchedAt: int, kind: Option<string>, umbrella: bool, metadataAt: int,
                     cursor: Option<string>, complete: bool)

  datatype Episode = Episode(text: Text, bytes: Option<nat>, clip: Option<string>,
                             video: Option<string>, nextCheck: Option<int>)

  datatype Failure = Failure(attempts: nat, nextRetryAt: int)

  datatype Tables = Tables(series: map<SeriesId, Row>, episodes: map<EpisodeKey, Episode>,
                           failures: map<EpisodeKey, Failure>, versions: map<SeriesId, nat>)

  const NEW := Tables(map[], map[], map[], map[])

  datatype Op =
    | WriteSeries(id: SeriesId, meta: Metadata, lastFetchedAt: int, kind: Option<string>, umbrella: bool,
                  batch: seq<Incoming>, now: int)
    | AddEpisodes(id: SeriesId, batch: seq<Incoming>)
    | SetVideo(id: SeriesId, episode: EpisodeId, url: Option<string>, nextCheck: int)
    | SetClipIds(id: SeriesId, clips: map<EpisodeId, string>)
    | TouchLastFetched(id: SeriesId, now: int)
    | SetBacklogState(id: SeriesId, cursor: Option<string>, complete: bool)
    | RecordEpisodeFailure(id: SeriesId, episode: EpisodeId, now: int)
    | DeleteSeries(id: SeriesId)

  // ---------- the operations ----------

  /** ON CONFLICT: the text is replaced, a known size or clip is kept, the video is left alone. */
  function Upserted(stored: Option<Episode>, e: Incoming): Episode {
    match stored
    case None => Episode(e.text, e.bytes, e.clip, None, None)
    case Some(was) => was.(text := e.text, bytes := OrElse(e.bytes, was.bytes), clip := OrElse(e.clip, was.clip))
  }

  function Inserted(episodes: map<EpisodeKey, Episode>, id: SeriesId, batch: seq<Incoming>): map<EpisodeKey, Episode> {
    if batch == [] then episodes
    else
      var before, e := Inserted(episodes, id, batch[..|batch| - 1]), batch[|batch| - 1];
      before[(id, e.id) := Upserted(Look(before, (id, e.id)), e)]
  }

  function Bumped(t: Tables, id: SeriesId): Tables {
    t.(versions := t.versions[id := 1 + if id in t.versions then t.versions[id] else 0])
  }

  function Version(t: Tables, id: SeriesId): nat { 1 + if id in t.versions then t.versions[id] else 0 }

  function WithRow(t: Tables, id: SeriesId, row: Row): Tables { t.(series := t.series[id := row]) }

  function DelayDays(attempts: nat): int
    requires attempts > 0
  {
    var shift := if attempts - 1 < 30 then attempts - 1 else 30;
    if Pow2(shift) < MAX_BACKOFF_DAYS then Pow2(shift) else MAX_BACKOFF_DAYS
  }

  /** An operation whose transaction commits; one that fails changes nothing. */
  function Apply(t: Tables, op: Op): Tables {
    match op
    case WriteSeries(id, meta, fetchedAt, kind, umbrella, batch, now) =>
      var row := match Look(t.series, id)
        case None => Row(meta, fetchedAt, kind, umbrella, now, None, false)
        case Some(was) => was.(meta := meta, lastFetchedAt := fetchedAt, kind := OrElse(kind, was.kind),
                               umbrella := umbrella, metadataAt := now);
      Bumped(WithRow(t, id, row).(episodes := Inserted(t.episodes, id, batch)), id)
    case AddEpisodes(id, batch) =>
      if id !in t.series then t else Bumped(t.(episodes := Inserted(t.episodes, id, batch)), id)
    case SetVideo(id, episode, url, nextCheck) =>
      if (id, episode) !in t.episodes then t
      else
        var was := t.episodes[(id, episode)];
        var t' := t.(episodes := t.episodes[(id, episode) := was.(video := url, nextCheck := Some(nextCheck))]);
        if was.video == url then t' else Bumped(t', id)
    case SetClipIds(id, clips) =>
      t.(episodes := map k | k in t.episodes ::
           if k.0 == id && k.1 in clips then t.episodes[k].(clip := Some(clips[k.1])) else t.episodes[k])
    case TouchLastFetched(id, now) => if id in t.series then WithRow(t, id, t.series[id].(lastFetchedAt := now)) else t
    case SetBacklogState(id, cursor, complete) =>
      if id in t.series then WithRow(t, id, t.series[id].(cursor := cursor, complete := complete)) else t
    case RecordEpisodeFailure(id, episode, now) =>
      var n := 1 + match Look(t.failures, (id, episode)) { case None => 0 case Some(f) => f.attempts };
      t.(failures := t.failures[(id, episode) := Failure(n, now + DelayDays(n) * DAY)])
    case DeleteSeries(id) =>
      Bumped(t.(series := t.series - {id}, episodes := (map k | k in t.episodes && k.0 != id :: t.episodes[k]),
                failures := (map k | k in t.failures && k.0 != id :: t.failures[k])), id)
  }

  /** A run: each operation's transaction commits or fails. */
  function Run(t: Tables, ops: seq<(Op, bool)>): Tables
    decreases |ops|
  {
    if ops == [] then t else Run(if ops[0].1 then Apply(t, ops[0].0) else t, ops[1..])
  }

  // ---------- one batch ----------

  /** The last value an episode has in a batch. */
  function LastText(batch: seq<Incoming>, id: EpisodeId): Option<Text> {
    if batch == [] then None
    else if batch[|batch| - 1].id == id then Some(batch[|batch| - 1].text)
    else LastText(batch[..|batch| - 1], id)
  }

  /** The last file size, and clip, the batch knows of an episode. */
  function LastBytes(batch: seq<Incoming>, id: EpisodeId): Option<nat> {
    if batch == [] then None
    else if batch[|batch| - 1].id == id && batch[|batch| - 1].bytes.Some? then batch[|batch| - 1].bytes
    else LastBytes(batch[..|batch| - 1], id)
  }

  function LastClip(batch: seq<Incoming>, id: EpisodeId): Option<string> {
    if batch == [] then None
    else if batch[|batch| - 1].id == id && batch[|batch| - 1].clip.Some? then batch[|batch| - 1].clip
    else LastClip(batch[..|batch| - 1], id)
  }

  /** What a batch leaves of an episode: its last text, the last known size
      and clip with the stored ones as fallback, and the stored video. */
  function Settled(was: Option<Episode>, batch: seq<Incoming>, id: EpisodeId): Option<Episode> {
    match LastText(batch, id)
    case None => was
    case Some(text) =>
      match was
      case None => Some(Episode(text, LastBytes(batch, id), LastClip(batch, id), None, None))
      case Some(e) => Some(e.(text := text, bytes := OrElse(LastBytes(batch, id), e.bytes),
                              clip := OrElse(LastClip(batch, id), e.clip)))
  }

  /** Row by row, a batch settles each of its own feed's episodes and leaves every other alone. */
  lemma {:induction false} BatchSettles(episodes: map<EpisodeKey, Episode>, id: SeriesId, batch: seq<Incoming>,
                                        k: EpisodeKey)
    ensures Look(Inserted(episodes, id, batch), k)
         == if k.0 == id then Settled(Look(episodes, k), batch, k.1) else Look(episodes, k)
    decreases |batch|
  {
    if batch != [] {
      BatchSettles(episodes, id, batch[..|batch| - 1], k);
      if LastText(batch[..|batch| - 1], k.1).None? { NoTextNothing(batch[..|batch| - 1], k.1); }
    }
  }

  lemma {:induction false} NoTextNothing(batch: seq<Incoming>, id: EpisodeId)
    requires LastText(batch, id).None?
    ensures LastBytes(batch, id).None? && LastClip(batch, id).None?
    decreases |batch|
  {
    if batch != [] { NoTextNothing(batch[..|batch| - 1], id); }
  }

  /** Writing a batch again changes nothing, so a retried page is harmless. */
  lemma WritingTwiceIsOnce(episodes: map<EpisodeKey, Episode>, id: SeriesId, batch: seq<Incoming>)
    ensures Inserted(Inserted(episodes, id, batch), id, batch) == Inserted(episodes, id, batch)
  {
    var once := Inserted(episodes, id, batch);
    var twice := Inserted(once, id, batch);
    forall k ensures Look(twice, k) == Look(once, k) {
      BatchSettles(episodes, id, batch, k);
      BatchSettles(once, id, batch, k);
    }
    forall k ensures (k in twice <==> k in once) && (k in once ==> twice[k] == once[k]) {
      assert Look(twice, k) == Look(once, k);
    }
  }

  // ---------- every run ----------

  ghost predicate NoOrphans(t: Tables) { forall k | k in t.episodes :: k.0 in t.series }

  lemma InsertedKeys(episodes: map<EpisodeKey, Episode>, id: SeriesId, batch: seq<Incoming>)
    ensures forall k | k in Inserted(episodes, id, batch) :: k in episodes || k.0 == id
  {}

  /** No interleaving of crawls, refreshes and deletes leaves episodes without their feed. */
  lemma {:induction false} NeverOrphans(t: Tables, ops: seq<(Op, bool)>)
    requires NoOrphans(t)
    ensures NoOrphans(Run(t, ops))
    decreases |ops|
  {
    if ops != [] {
      OneStepNoOrphans(t, ops[0].0);
      NeverOrphans(if ops[0].1 then Apply(t, ops[0].0) else t, ops[1..]);
    }
  }

  /** Neither a refresh nor a batch moves a feed's crawl checkpoint: only the
      crawl itself does, or the feed's deletion. */
  lemma {:induction false} CheckpointIsTheCrawls(t: Tables, ops: seq<(Op, bool)>, id: SeriesId)
    requires id in t.series
    requires forall i | 0 <= i < |ops| && ops[i].0.id == id :: !ops[i].0.SetBacklogState? && !ops[i].0.DeleteSeries?
    ensures var row := Look(Run(t, ops).series, id);
            row.Some? && row.value.cursor == t.series[id].cursor && row.value.complete == t.series[id].complete
    decreases |ops|
  {
    hide Inserted;
    if ops != [] { CheckpointIsTheCrawls(if ops[0].1 then Apply(t, ops[0].0) else t, ops[1..], id); }
  }

  /** An episode stays stored, and a known size or clip stays known, until its feed is deleted. */
  lemma {:induction false} StoredStays(t: Tables, ops: seq<(Op, bool)>, k: EpisodeKey)
    requires k in t.episodes
    requires forall i | 0 <= i < |ops| :: ops[i].0 != DeleteSeries(k.0)
    ensures var e := Look(Run(t, ops).episodes, k);
            && e.Some?
            && (t.episodes[k].bytes.Some? ==> e.value.bytes.Some?)
            && (t.episodes[k].clip.Some? ==> e.value.clip.Some?)
    decreases |ops|
  {
    hide Apply;
    if ops != [] {
      StaysStep(t, ops[0].0, k);
      StoredStays(if ops[0].1 then Apply(t, ops[0].0) else t, ops[1..], k);
    }
  }

  lemma StaysStep(t: Tables, op: Op, k: EpisodeKey)
    requires k in t.episodes && op != DeleteSeries(k.0)
    ensures var e := Look(Apply(t, op).episodes, k);
            && e.Some?
            && (t.episodes[k].bytes.Some? ==> e.value.bytes.Some?)
            && (t.episodes[k].clip.Some? ==> e.value.clip.Some?)
  {
    hide Inserted;
    if op.WriteSeries? || op.AddEpisodes? { BatchSettles(t.episodes, op.id, op.batch, k); }
  }

  // ---------- the last write of every column counts ----------

  /** The last value that the committed operations of a run give a column. */
  function Latest<T>(ops: seq<(Op, bool)>, gives: Op -> Option<T>): Option<T>
    decreases |ops|
  {
    if ops == [] then None else OrElse(Latest(ops[1..], gives), if ops[0].1 then gives(ops[0].0) else None)
  }

  function Or<T>(given: Option<T>, before: T): T { if given.Some? then given.value else before }

  /** What an operation says of a feed, and of an episode. */
  function GivesMeta(op: Op, id: SeriesId): Option<(Metadata, bool, int)> {
    if op.WriteSeries? && op.id == id then Some((op.meta, op.umbrella, op.now)) else None
  }

  function GivesKind(op: Op, id: SeriesId): Option<string> {
    if op.WriteSeries? && op.id == id then op.kind else None
  }

  function GivesFetchedAt(op: Op, id: SeriesId): Option<int> {
    if op.id != id then None
    else if op.WriteSeries? then Some(op.lastFetchedAt)
    else if op.TouchLastFetched? then Some(op.now) else None
  }

  function GivesCheckpoint(op: Op, id: SeriesId): Option<(Option<string>, bool)> {
    if op.SetBacklogState? && op.id == id then Some((op.cursor, op.complete)) else None
  }

  function GivesText(op: Op, k: EpisodeKey): Option<Text> {
    if (op.WriteSeries? || op.AddEpisodes?) && op.id == k.0 then LastText(op.batch, k.1) else None
  }

  function GivesBytes(op: Op, k: EpisodeKey): Option<nat> {
    if (op.WriteSeries? || op.AddEpisodes?) && op.id == k.0 then LastBytes(op.batch, k.1) else None
  }

  function GivesClip(op: Op, k: EpisodeKey): Option<string> {
    if op.id != k.0 then None
    else if op.WriteSeries? || op.AddEpisodes? then LastClip(op.batch, k.1)
    else if op.SetClipIds? && k.1 in op.clips then Some(op.clips[k.1]) else None
  }

  function GivesVideo(op: Op, k: EpisodeKey): Option<(Option<string>, Option<int>)> {
    if op.SetVideo? && (op.id, op.episode) == k then Some((op.url, Some(op.nextCheck))) else None
  }

  predicate Deletes(op: (Op, bool), id: SeriesId) { op == (DeleteSeries(id), true) }

  /** What one operation makes of a feed's row. */
  ghost predicate RowFollows(was: Row, op: Op, id: SeriesId, row: Row) {
    && (row.meta, row.umbrella, row.metadataAt)
       == Or(GivesMeta(op, id), (was.meta, was.umbrella, was.metadataAt))
    && row.kind == OrElse(GivesKind(op, id), was.kind)
    && row.lastFetchedAt == Or(GivesFetchedAt(op, id), was.lastFetchedAt)
    && (row.cursor, row.complete) == Or(GivesCheckpoint(op, id), (was.cursor, was.complete))
  }

  lemma OwnStep(t: Tables, op: Op, id: SeriesId)
    requires id in t.series && op != DeleteSeries(id) && op.id == id
    ensures id in Apply(t, op).series && RowFollows(t.series[id], op, id, Apply(t, op).series[id])
  {
    hide Inserted;
  }

  lemma FeedStep(t: Tables, op: Op, id: SeriesId)
    requires id in t.series && op != DeleteSeries(id)
    ensures id in Apply(t, op).series && RowFollows(t.series[id], op, id, Apply(t, op).series[id])
  {
    hide Inserted;
    if op.id == id {
      OwnStep(t, op, id);
    } else {
      assert Look(Apply(t, op).series, id) == Look(t.series, id);
    }
  }

  /** Over any run that does not delete it, a stored feed shows the metadata of
      its last write, the last kind known, the last fetch, and the crawl's
      last checkpoint. */
  lemma {:induction false} FeedIsLastWritten(t: Tables, ops: seq<(Op, bool)>, id: SeriesId)
    requires id in t.series && forall i | 0 <= i < |ops| :: !Deletes(ops[i], id)
    ensures var was, row := t.series[id], Look(Run(t, ops).series, id);
            && row.Some?
            && (row.value.meta, row.value.umbrella, row.value.metadataAt)
               == Or(Latest(ops, op => GivesMeta(op, id)), (was.meta, was.umbrella, was.metadataAt))
            && row.value.kind == OrElse(Latest(ops, op => GivesKind(op, id)), was.kind)
            && row.value.lastFetchedAt == Or(Latest(ops, op => GivesFetchedAt(op, id)), was.lastFetchedAt)
            && (row.value.cursor, row.value.complete)
               == Or(Latest(ops, op => GivesCheckpoint(op, id)), (was.cursor, was.complete))
    decreases |ops|
  {
    hide Apply, GivesMeta, GivesKind, GivesFetchedAt, GivesCheckpoint;
    if ops != [] {
      if ops[0].1 { FeedStep(t, ops[0].0, id); }
      FeedIsLastWritten(if ops[0].1 then Apply(t, ops[0].0) else t, ops[1..], id);
    }
  }

  /** A feed's first write stores it as given, with its crawl not begun. */
  lemma NewFeed(t: Tables, op: Op)
    requires op.WriteSeries? && op.id !in t.series
    ensures Look(Apply(t, op).series, op.id)
         == Some(Row(op.meta, op.lastFetchedAt, op.kind, op.umbrella, op.now, None, false))
  {}

  lemma EpisodeStep(t: Tables, op: Op, k: EpisodeKey)
    requires k.0 in t.series && op != DeleteSeries(k.0)
    ensures var e, e' := Look(t.episodes, k), Look(Apply(t, op).episodes, k);
            && (e'.Some? <==> e.Some? || GivesText(op, k).Some?)
            && (e'.Some? ==>
                  && e'.value.text == Or(GivesText(op, k), if e.Some? then e.value.text else e'.value.text)
                  && e'.value.bytes == OrElse(GivesBytes(op, k), if e.Some? then e.value.bytes else None))
            && (e.Some? ==>
                  && e'.value.clip == OrElse(GivesClip(op, k), e.value.clip)
                  && (e'.value.video, e'.value.nextCheck)
                     == Or(GivesVideo(op, k), (e.value.video, e.value.nextCheck)))
            && k.0 in Apply(t, op).series
            && (GivesText(op, k).None? ==> GivesBytes(op, k).None?)
  {
    hide Inserted;
    if op.WriteSeries? || op.AddEpisodes? {
      BatchSettles(t.episodes, op.id, op.batch, k);
      if op.id == k.0 && LastText(op.batch, k.1).None? { NoTextNothing(op.batch, k.1); }
    }
  }

  /** Likewise an episode of it: there once a batch had it, with the last text
      and the last known size; once it is there, with the last known clip
      and the outcome of its last video lookup. */
  lemma {:induction false} EpisodeIsLastWritten(t: Tables, ops: seq<(Op, bool)>, k: EpisodeKey)
    requires k.0 in t.series && forall i | 0 <= i < |ops| :: !Deletes(ops[i], k.0)
    ensures var e, e' := Look(t.episodes, k), Look(Run(t, ops).episodes, k);
            var text := Latest(ops, op => GivesText(op, k));
            && (e'.Some? <==> e.Some? || text.Some?)
            && (e'.Some? ==>
                  && e'.value.text == Or(text, if e.Some? then e.value.text else e'.value.text)
                  && e'.value.bytes
                     == OrElse(Latest(ops, op => GivesBytes(op, k)), if e.Some? then e.value.bytes else None))
            && (e.Some? ==>
                  && e'.value.clip == OrElse(Latest(ops, op => GivesClip(op, k)), e.value.clip)
                  && (e'.value.video, e'.value.nextCheck)
                     == Or(Latest(ops, op => GivesVideo(op, k)), (e.value.video, e.value.nextCheck)))
    decreases |ops|
  {
    hide Apply, GivesText, GivesBytes, GivesClip, GivesVideo;
    if ops != [] {
      if ops[0].1 { EpisodeStep(t, ops[0].0, k); }
      EpisodeIsLastWritten(if ops[0].1 then Apply(t, ops[0].0) else t, ops[1..], k);
    }
  }

  /** A deletion takes everything of its feed and nothing else. */
  lemma DeletedIsGone(t: Tables, id: SeriesId, k: EpisodeKey)
    ensures var t' := Apply(t, DeleteSeries(id));
            && id !in t'.series && (forall other | other != id :: Look(t'.series, other) == Look(t.series, other))
            && Look(t'.episodes, k) == (if k.0 == id then None else Look(t.episodes, k))
            && Look(t'.failures, k) == (if k.0 == id then None else Look(t.failures, k))
  {}

  /** A crawl or a refresh still under way cannot bring a deleted feed back:
      short of a new write of the feed, nothing of it is stored again. */
  lemma {:induction false} GoneStaysGone(t: Tables, ops: seq<(Op, bool)>, id: SeriesId)
    requires NoOrphans(t) && id !in t.series
    requires forall i | 0 <= i < |ops| :: ops[i].1 && ops[i].0.WriteSeries? ==> ops[i].0.id != id
    ensures id !in Run(t, ops).series && forall k | k in Run(t, ops).episodes :: k.0 != id
    decreases |ops|
  {
    NeverOrphans(t, ops);
    if ops != [] {
      var t' := if ops[0].1 then Apply(t, ops[0].0) else t;
      assert NoOrphans(t') by { OneStepNoOrphans(t, ops[0].0); }
      GoneStaysGone(t', ops[1..], id);
    }
  }

  lemma OneStepNoOrphans(t: Tables, op: Op)
    requires NoOrphans(t)
    ensures NoOrphans(Apply(t, op))
  {
    if op.WriteSeries? || op.AddEpisodes? { InsertedKeys(t.episodes, op.id, op.batch); }
  }

  // ---------- the data version stands for the content ----------

  datatype Shown = Shown(text: Text, bytes: Option<nat>, video: Option<string>)

  function Show(e: Episode): Shown { Shown(e.text, e.bytes, e.video) }

  /** All that a feed's XML is made from. */
  function Content(t: Tables, id: SeriesId): (Option<Metadata>, map<EpisodeId, Shown>) {
    (match Look(t.series, id) { case None => None case Some(row) => Some(row.meta) },
     map k | k in t.episodes && k.0 == id :: k.1 := Show(t.episodes[k]))
  }

  /** Nothing a feed shows differs. */
  ghost predicate SameShow(t: Tables, t': Tables, id: SeriesId) {
    && (id in t.series <==> id in t'.series)
    && (id in t.series ==> t.series[id].meta == t'.series[id].meta)
    && (forall k: EpisodeKey | k.0 == id :: k in t.episodes <==> k in t'.episodes)
    && (forall k: EpisodeKey | k.0 == id && k in t.episodes :: Show(t.episodes[k]) == Show(t'.episodes[k]))
  }

  lemma SameShowSameContent(t: Tables, t': Tables, id: SeriesId)
    requires SameShow(t, t', id)
    ensures Content(t, id) == Content(t', id)
  {
    var (a, b) := (Content(t, id).1, Content(t', id).1);
    forall e: EpisodeId ensures (e in a <==> e in b) && (e in a ==> a[e] == b[e]) {
      ContentAt(t, id, e);
      ContentAt(t', id, e);
    }
    assert a == b;
  }

  lemma ContentAt(t: Tables, id: SeriesId, e: EpisodeId)
    ensures e in Content(t, id).1 <==> (id, e) in t.episodes
    ensures (id, e) in t.episodes ==> Content(t, id).1[e] == Show(t.episodes[(id, e)])
  {}

  lemma BatchShowsElsewhere(t: Tables, op: Op, id: SeriesId)
    requires (op.WriteSeries? || op.AddEpisodes?) && op.id != id
    ensures SameShow(t, Apply(t, op), id)
  {
    forall k: EpisodeKey | k.0 == id ensures Look(Apply(t, op).episodes, k) == Look(t.episodes, k) {
      BatchSettles(t.episodes, op.id, op.batch, k);
    }
  }

  lemma ElsewhereShows(t: Tables, op: Op, id: SeriesId)
    requires op.id != id && !op.WriteSeries? && !op.AddEpisodes?
    ensures SameShow(t, Apply(t, op), id)
  {}

  lemma QuietShows(t: Tables, op: Op)
    requires op.SetVideo? || op.SetClipIds? || op.TouchLastFetched? || op.SetBacklogState? || op.RecordEpisodeFailure?
    requires Version(t, op.id) == Version(Apply(t, op), op.id)
    ensures SameShow(t, Apply(t, op), op.id)
  {}

  lemma StepMovesVersion(t: Tables, op: Op, id: SeriesId)
    ensures Version(t, id) <= Version(Apply(t, op), id)
    ensures Version(t, id) == Version(Apply(t, op), id) ==> Content(t, id) == Content(Apply(t, op), id)
  {
    hide Inserted, Content, SameShow;
    if Version(t, id) == Version(Apply(t, op), id) && Apply(t, op) != t {
      if op.WriteSeries? || op.AddEpisodes? {
        BatchShowsElsewhere(t, op, id);
      } else if op.id != id {
        ElsewhereShows(t, op, id);
      } else {
        QuietShows(t, op);
      }
      SameShowSameContent(t, Apply(t, op), id);
    }
  }

  /** Over any run in one process: the data version never goes back, and while
      it stands still so does everything the feed's XML shows. */
  lemma {:induction false} VersionTellsContent(t: Tables, ops: seq<(Op, bool)>, id: SeriesId)
    ensures Version(t, id) <= Version(Run(t, ops), id)
    ensures Version(t, id) == Version(Run(t, ops), id) ==> Content(t, id) == Content(Run(t, ops), id)
    decreases |ops|
  {
    hide Apply, Content;
    if ops != [] {
      StepMovesVersion(t, ops[0].0, id);
      VersionTellsContent(if ops[0].1 then Apply(t, ops[0].0) else t, ops[1..], id);
    }
  }

  /** An operation that may change what a feed shows: a batch or metadata for a
      stored feed, its deletion, or another video for one of its episodes. */
  predicate Changes(t: Tables, op: Op, id: SeriesId) {
    && op.id == id
    && (|| op.WriteSeries? || op.DeleteSeries?
        || (op.AddEpisodes? && id in t.series)
        || (op.SetVideo? && (id, op.episode) in t.episodes && t.episodes[(id, op.episode)].video != op.url))
  }

  function Changed(t: Tables, ops: seq<(Op, bool)>, id: SeriesId): nat
    decreases |ops|
  {
    if ops == [] then 0
    else if !ops[0].1 then Changed(t, ops[1..], id)
    else (if Changes(t, ops[0].0, id) then 1 else 0) + Changed(Apply(t, ops[0].0), ops[1..], id)
  }

  /** The data version counts exactly those, so a cached feed is not rendered
      again for anything else. */
  lemma {:induction false} VersionCountsChanges(t: Tables, ops: seq<(Op, bool)>, id: SeriesId)
    ensures Version(Run(t, ops), id) == Version(t, id) + Changed(t, ops, id)
    ensures t == NEW ==> Version(Run(t, ops), id) == 1 + Changed(t, ops, id)
    decreases |ops|
  {
    hide Apply, Changes;
    if ops != [] {
      VersionStep(t, ops[0].0, id);
      VersionCountsChanges(if ops[0].1 then Apply(t, ops[0].0) else t, ops[1..], id);
    }
  }

  lemma VersionStep(t: Tables, op: Op, id: SeriesId)
    ensures Version(Apply(t, op), id) == Version(t, id) + if Changes(t, op, id) then 1 else 0
  {
    hide Inserted;
  }

  // ---------- failed episodes ----------

  predicate Fails(op: (Op, bool), k: EpisodeKey) {
    op.1 && op.0.RecordEpisodeFailure? && (op.0.id, op.0.episode) == k
  }

  /** When an episode's committed failures were recorded. */
  function FailedAt(ops: seq<(Op, bool)>, k: EpisodeKey): seq<int>
    decreases |ops|
  {
    if ops == [] then []
    else (if Fails(ops[0], k) then [ops[0].0.now] else []) + FailedAt(ops[1..], k)
  }

  function Attempts(t: Tables, k: EpisodeKey): nat { if k in t.failures then t.failures[k].attempts else 0 }

  lemma CappedShift(n: nat)
    requires n > 0
    ensures DelayDays(n) == if Pow2(n - 1) < MAX_BACKOFF_DAYS then Pow2(n - 1) else MAX_BACKOFF_DAYS
  {
    if n > 30 {
      SomePowers();
      Pow2Grows(5, n - 1);
      Pow2Grows(5, 30);
    }
  }

  lemma OneFailure(t: Tables, op: Op, k: EpisodeKey)
    requires op.RecordEpisodeFailure? && (op.id, op.episode) == k
    ensures var n := Attempts(t, k) + 1;
            var days := if Pow2(n - 1) < 30 then Pow2(n - 1) else 30;
            Look(Apply(t, op).failures, k) == Some(Failure(n, op.now + days * 86_400_000))
  {
    CappedShift(Attempts(t, k) + 1);
  }

  lemma OthersFail(t: Tables, op: Op, k: EpisodeKey)
    requires op != DeleteSeries(k.0) && !Fails((op, true), k)
    ensures Look(Apply(t, op).failures, k) == Look(t.failures, k)
  {}

  /** Over any run that does not delete the feed, whatever else happens in
      between: the n-th failure of an episode blocks it for min(2^(n-1), 30)
      days from its own moment. */
  lemma {:induction false} FailuresBackOff(t: Tables, ops: seq<(Op, bool)>, k: EpisodeKey)
    requires forall i | 0 <= i < |ops| :: ops[i] != (DeleteSeries(k.0), true)
    ensures var times := FailedAt(ops, k);
            var n := Attempts(t, k) + |times|;
            Look(Run(t, ops).failures, k) ==
              if times == [] then Look(t.failures, k)
              else
                var days := if Pow2(n - 1) < 30 then Pow2(n - 1) else 30;
                Some(Failure(n, times[|times| - 1] + days * 86_400_000))
    decreases |ops|
  {
    hide Apply, Pow2;
    if ops != [] {
      var t', later := if ops[0].1 then Apply(t, ops[0].0) else t, FailedAt(ops[1..], k);
      FailuresBackOff(t', ops[1..], k);
      if Fails(ops[0], k) {
        OneFailure(t, ops[0].0, k);
        assert later != [] ==> ([ops[0].0.now] + later)[|later|] == later[|later| - 1];
      } else if ops[0].1 {
        OthersFail(t, ops[0].0, k);
      }
    }
  }

  // ---------- the store itself ----------

  class Store {
    var series: map<SeriesId, Row>
    var episodes: map<EpisodeKey, Episode>
    var failures: map<EpisodeKey, Failure>
    var versions: map<SeriesId, nat>

    ghost function View(): Tables
      reads this
    {
      Tables(series, episodes, failures, versions)
    }

    constructor ()
      ensures View() == NEW && NoOrphans(View())
    {
      series, episodes, failures, versions := map[], map[], map[], map[];
    }

    method DataVersion(id: SeriesId) returns (version: nat)
      ensures version == Version(View(), id)
    {
      version := if id in versions then versions[id] + 1 else 1;
    }

    method Bump(id: SeriesId)
      modifies this`versions
      ensures View() == Bumped(old(View()), id)
    {
      if id !in versions {
        versions := versions[id := 0];
      }
      versions := versions[id := versions[id] + 1];
    }

    method InsertEpisodes(id: SeriesId, batch: seq<Incoming>)
      modifies this`episodes
      ensures episodes == Inserted(old(episodes), id, batch)
    {
      for i := 0 to |batch|
        invariant episodes == Inserted(old(episodes), id, batch[..i])
      {
        var e, k := batch[i], (id, batch[i].id);
        assert batch[..i + 1][..i] == batch[..i];
        if k in episodes {
          var was := episodes[k];
          episodes := episodes[k := was.(text := e.text, bytes := OrElse(e.bytes, was.bytes),
                                         clip := OrElse(e.clip, was.clip))];
        } else {
          episodes := episodes[k := Episode(e.text, e.bytes, e.clip, None, None)];
        }
      }
      assert batch[..|batch|] == batch;
    }

    /** False when the transaction rolled back. */
    method Write(id: SeriesId, meta: Metadata, fetchedAt: int, kind: Option<string>, umbrella: bool,
                 batch: seq<Incoming>, now: int, commits: bool) returns (ok: bool)
      modifies this
      ensures ok == commits
      ensures View() == if ok then Apply(old(View()), WriteSeries(id, meta, fetchedAt, kind, umbrella, batch, now))
                        else old(View())
    {
      if !commits {
        return false;
      }
      if id in series {
        series := series[id := series[id].(meta := meta, lastFetchedAt := fetchedAt,
                                           kind := OrElse(kind, series[id].kind), umbrella := umbrella,
                                           metadataAt := now)];
      } else {
        series := series[id := Row(meta, fetchedAt, kind, umbrella, now, None, false)];
      }
      InsertEpisodes(id, batch);
      Bump(id);
      return true;
    }

    /** False when the feed is gone or the transaction rolled back. */
    method Add(id: SeriesId, batch: seq<Incoming>, commits: bool) returns (ok: bool)
      modifies this
      ensures ok == (commits && id in old(series))
      ensures View() == if commits then Apply(old(View()), AddEpisodes(id, batch)) else old(View())
    {
      if !commits || id !in series {
        return false;
      }
      InsertEpisodes(id, batch);
      Bump(id);
      return true;
    }

    method PutVideo(id: SeriesId, episode: EpisodeId, url: Option<string>, nextCheck: int)
      modifies this
      ensures View() == Apply(old(View()), SetVideo(id, episode, url, nextCheck))
    {
      var k := (id, episode);
      if k in episodes && episodes[k].video != url {
        episodes := episodes[k := episodes[k].(video := url, nextCheck := Some(nextCheck))];
        Bump(id);
      } else if k in episodes {
        // nothing the XML shows has changed
        episodes := episodes[k := episodes[k].(nextCheck := Some(nextCheck))];
      }
    }

    method RecordFailure(id: SeriesId, episode: EpisodeId, now: int)
      modifies this`failures
      ensures View() == Apply(old(View()), RecordEpisodeFailure(id, episode, now))
    {
      var k := (id, episode);
      var attempts := 1 + if k in failures then failures[k].attempts else 0;
      failures := failures[k := Failure(attempts, now + DelayDays(attempts) * DAY)];
    }

    method Delete(id: SeriesId)
      modifies this
      ensures View() == Apply(old(View()), DeleteSeries(id))
    {
      series := series - {id};
      episodes := map k | k in episodes && k.0 != id :: episodes[k];
      failures := map k | k in failures && k.0 != id :: failures[k];
      Bump(id);
    }
  }
}
