/** The two background work queues: the archive crawler's
    (internal/crawl/backlog.go) and the video worker's
    (internal/video/worker.go), which differ in when a feed may be queued again. */
module WorkQueue {
  import opened Names
  import opened Wrappers

  type Feed = string

  /** The crawler leaves a feed in the queued set until its crawl is over, the
      video worker only until its round begins. */
  datatype Rule = Crawler | Video

  /** An idle channel, numbered in the order of creation; each worker is known
      by the one it will close. */
  type Channel = nat

  datatype Phase = AtHead | Working(feed: Feed)

  datatype State = State(
    queue: seq<Feed>, queued: set<Feed>, running: bool, current: Option<Feed>,
    idle: Channel, closed: set<Channel>, channels: nat, workers: map<Channel, Phase>, cancelled: bool)

  const NEW := State([], {}, false, None, 0, {0}, 1, map[], false)

  /** Enqueue (with the crawler's retry deadline), a worker's critical
      sections at the head of its loop and after a crawl, and shutdown. */
  datatype Op = Enqueue(feed: Feed, allowed: bool) | Head(worker: Channel) | Finish(worker: Channel) | Cancel

  // ---------- the critical sections ----------

  function Enqueued(s: State, rule: Rule, feed: Feed, allowed: bool): State {
    if rule == Crawler && !allowed then s
    else if feed in s.queued || s.cancelled then s
    else
      var s1 := s.(queued := s.queued + {feed}, queue := s.queue + [feed]);
      if s1.running then s1
      else s1.(running := true, idle := s.channels, channels := s.channels + 1,
               workers := s.workers[s.channels := AtHead])
  }

  function TakenNext(s: State, rule: Rule, worker: Channel): State {
    if s.queue == [] || s.cancelled then
      s.(queue := [], queued := {}, running := false, closed := s.closed + {worker}, workers := s.workers - {worker})
    else
      var feed := s.queue[0];
      s.(queue := s.queue[1..],
         queued := if rule == Video then s.queued - {feed} else s.queued,
         current := if rule == Crawler then Some(feed) else None,
         workers := s.workers[worker := Working(feed)])
  }

  function Finished(s: State, rule: Rule, worker: Channel, feed: Feed): State {
    s.(queued := if rule == Crawler then s.queued - {feed} else s.queued,
       current := None,
       workers := s.workers[worker := AtHead])
  }

  predicate Enabled(s: State, op: Op) {
    match op
    case Enqueue(_, _) => true
    case Head(w) => w in s.workers && s.workers[w].AtHead?
    case Finish(w) => w in s.workers && s.workers[w].Working?
    case Cancel => true
  }

  function Apply(s: State, rule: Rule, op: Op): State {
    if !Enabled(s, op) then s
    else match op
      case Enqueue(feed, allowed) => Enqueued(s, rule, feed, allowed)
      case Head(w) => TakenNext(s, rule, w)
      case Finish(w) => Finished(s, rule, w, s.workers[w].feed)
      case Cancel => s.(cancelled := true)
  }

  function Run(s: State, rule: Rule, ops: seq<Op>): State
    decreases |ops|
  {
    if ops == [] then s else Run(Apply(s, rule, ops[0]), rule, ops[1..])
  }

  // ---------- what every interleaving keeps ----------

  /** The feed being worked on, if any. */
  function Busy(s: State): set<Feed> {
    if s.running && s.idle in s.workers && s.workers[s.idle].Working? then {s.workers[s.idle].feed} else {}
  }

  /** One worker while running, none otherwise, and exactly its channel is open. */
  ghost predicate OneWorker(s: State) {
    && s.workers.Keys == (if s.running then {s.idle} else {})
    && s.idle < s.channels
    && (forall c: Channel :: c in s.closed <==> c < s.channels && !(s.running && c == s.idle))
    && (!s.running ==> s.queue == [] && s.queued == {})
  }

  /** No feed is queued twice, and the queued set holds the queue, with the
      crawler's current feed. */
  ghost predicate QueuedOnce(s: State, rule: Rule) {
    && Distinct(s.queue)
    && s.queued == Members(s.queue) + (if rule == Crawler then Busy(s) else {})
    && (rule == Crawler ==> Members(s.queue) !! Busy(s))
  }

  ghost predicate CurrentShown(s: State, rule: Rule) {
    if rule == Crawler && Busy(s) != {} then s.current == Some(s.workers[s.idle].feed) else s.current.None?
  }

  ghost predicate Inv(s: State, rule: Rule) { OneWorker(s) && QueuedOnce(s, rule) && CurrentShown(s, rule) }

  lemma NewIsSound(rule: Rule)
    ensures Inv(NEW, rule)
  {}

  lemma EnqueueKeeps(s: State, rule: Rule, feed: Feed, allowed: bool)
    requires Inv(s, rule)
    ensures Inv(Enqueued(s, rule, feed, allowed), rule)
  {}

  lemma HeadKeeps(s: State, rule: Rule, w: Channel)
    requires Inv(s, rule) && Enabled(s, Head(w))
    ensures Inv(TakenNext(s, rule, w), rule)
  {
    var s' := TakenNext(s, rule, w);
    assert Busy(s) == {};
    if s.queue != [] && !s.cancelled {
      var feed, rest := s.queue[0], s.queue[1..];
      assert s.queue == [feed] + rest;
      assert Members(s.queue) == {feed} + Members(rest);
      forall i | 0 <= i < |rest| ensures rest[i] != feed { assert rest[i] == s.queue[i + 1]; }
      assert Busy(s') == {feed};
    }
  }

  lemma FinishKeeps(s: State, rule: Rule, w: Channel)
    requires Inv(s, rule) && Enabled(s, Finish(w))
    ensures Inv(Finished(s, rule, w, s.workers[w].feed), rule)
  {}

  lemma ApplyKeeps(s: State, rule: Rule, op: Op)
    requires Inv(s, rule)
    ensures Inv(Apply(s, rule, op), rule)
  {
    if Enabled(s, op) {
      match op
      case Enqueue(feed, allowed) => EnqueueKeeps(s, rule, feed, allowed);
      case Head(w) => HeadKeeps(s, rule, w);
      case Finish(w) => FinishKeeps(s, rule, w);
      case Cancel => assert Busy(s) == Busy(s.(cancelled := true));
    }
  }

  /** Over all interleavings: at most one worker is alive; its idle channel
      is open, and every other one closed, exactly while it is; no feed is
      queued twice; and `queued` is the queue, for the crawler with the feed
      being crawled. */
  lemma {:induction false} RunKeeps(s: State, rule: Rule, ops: seq<Op>)
    requires Inv(s, rule)
    ensures Inv(Run(s, rule, ops), rule)
    decreases |ops|
  {
    hide Apply, Inv;
    if ops != [] {
      ApplyKeeps(s, rule, ops[0]);
      RunKeeps(Apply(s, rule, ops[0]), rule, ops[1..]);
    }
  }

  lemma QueueIsSound(rule: Rule, ops: seq<Op>)
    ensures var s := Run(NEW, rule, ops);
            && |s.workers| <= 1
            && (s.idle in s.closed <==> s.workers == map[])
            && (forall i, j | 0 <= i < j < |s.queue| :: s.queue[i] != s.queue[j])
            && (rule == Video ==> forall f :: f in s.queued <==> f in s.queue)
            && (rule == Crawler ==> forall f :: f in s.queued <==> f in s.queue || s.current == Some(f))
  {
    NewIsSound(rule);
    RunKeeps(NEW, rule, ops);
    var s := Run(NEW, rule, ops);
    assert |s.workers| == |s.workers.Keys|;
    assert s.running ==> |{s.idle}| == 1;
  }

  // ---------- every request gets its round ----------

  /** The feed an operation puts in the queue, and the one whose round it begins. */
  function AdmittedBy(s: State, rule: Rule, op: Op): seq<Feed> {
    if op.Enqueue? && |Apply(s, rule, op).queue| > |s.queue| then [op.feed] else []
  }

  function BegunBy(s: State, op: Op): seq<Feed> {
    if op.Head? && Enabled(s, op) && s.queue != [] then [s.queue[0]] else []
  }

  function Admitted(s: State, rule: Rule, ops: seq<Op>): seq<Feed>
    decreases |ops|
  {
    if ops == [] then [] else AdmittedBy(s, rule, ops[0]) + Admitted(Apply(s, rule, ops[0]), rule, ops[1..])
  }

  function Began(s: State, rule: Rule, ops: seq<Op>): seq<Feed>
    decreases |ops|
  {
    if ops == [] then [] else BegunBy(s, ops[0]) + Began(Apply(s, rule, ops[0]), rule, ops[1..])
  }

  /** Nothing shuts the process down. */
  predicate Undisturbed(s: State, ops: seq<Op>) { !s.cancelled && forall op | op in ops :: !op.Cancel? }

  /** Short of shutdown nothing is lost, repeated or overtaken: what was
      queued and what was admitted since is what has begun and what is queued. */
  lemma {:induction false} FirstInFirstOut(s: State, rule: Rule, ops: seq<Op>)
    requires Undisturbed(s, ops)
    ensures s.queue + Admitted(s, rule, ops) == Began(s, rule, ops) + Run(s, rule, ops).queue
    decreases |ops|
  {
    hide Apply, AdmittedBy, BegunBy;
    if ops != [] {
      var s', rest := Apply(s, rule, ops[0]), ops[1..];
      assert ops[0] in ops;
      StepConserves(s, rule, ops[0]);
      assert forall op | op in rest :: op in ops;
      FirstInFirstOut(s', rule, rest);
      var a, b := AdmittedBy(s, rule, ops[0]), BegunBy(s, ops[0]);
      assert s.queue + (a + Admitted(s', rule, rest)) == (s.queue + a) + Admitted(s', rule, rest);
      assert (b + s'.queue) + Admitted(s', rule, rest) == b + (s'.queue + Admitted(s', rule, rest));
    }
  }

  lemma StepConserves(s: State, rule: Rule, op: Op)
    requires !s.cancelled && !op.Cancel?
    ensures var s' := Apply(s, rule, op);
            s.queue + AdmittedBy(s, rule, op) == BegunBy(s, op) + s'.queue && !s'.cancelled
  {}

  /** How often a worker reaches the head of its loop. */
  function Heads(s: State, rule: Rule, ops: seq<Op>): nat
    decreases |ops|
  {
    if ops == [] then 0
    else (if ops[0].Head? && Enabled(s, ops[0]) then 1 else 0) + Heads(Apply(s, rule, ops[0]), rule, ops[1..])
  }

  lemma HeadsTake(s: State, rule: Rule, op: Op)
    requires !s.cancelled && !op.Cancel?
    ensures var s' := Apply(s, rule, op);
            && !s'.cancelled
            && if op.Head? && Enabled(s, op) then
                 s.queue != [] ==> |BegunBy(s, op)| == 1 && |s'.queue| == |s.queue| - 1
               else BegunBy(s, op) == [] && |s'.queue| >= |s.queue|
  {}

  /** While the queue lasts, each head of a loop begins one round. */
  lemma {:induction false} HeadsBegin(s: State, rule: Rule, ops: seq<Op>)
    requires Undisturbed(s, ops) && Heads(s, rule, ops) <= |s.queue|
    ensures |Began(s, rule, ops)| == Heads(s, rule, ops) && !Run(s, rule, ops).cancelled
    decreases |ops|
  {
    hide Apply, BegunBy, Enabled;
    if ops != [] {
      assert ops[0] in ops && forall op | op in ops[1..] :: op in ops;
      HeadsTake(s, rule, ops[0]);
      HeadsBegin(Apply(s, rule, ops[0]), rule, ops[1..]);
    }
  }

  /** The feed at position i begins at exactly the (i + 1)-th head of the loop
      that follows, whatever is admitted or finished in between. */
  lemma BeginsAtItsTurn(s: State, rule: Rule, ops: seq<Op>, worker: Channel, i: nat)
    requires Undisturbed(s, ops) && i < |s.queue| && Heads(s, rule, ops) == i
    requires Enabled(Run(s, rule, ops), Head(worker))
    ensures Began(s, rule, ops) == s.queue[..i]
    ensures BegunBy(Run(s, rule, ops), Head(worker)) == [s.queue[i]]
  {
    hide Apply, Enabled, Heads, Began, Admitted, Run;
    FirstInFirstOut(s, rule, ops);
    HeadsBegin(s, rule, ops);
    var all := s.queue + Admitted(s, rule, ops);
    assert all[..i] == s.queue[..i] && all[i] == s.queue[i];
    assert (Began(s, rule, ops) + Run(s, rule, ops).queue)[..i] == Began(s, rule, ops);
  }

  /** Each video Enqueue is followed by a round of that feed that begins after
      the call: until it begins the feed is in the queue and the worker is
      alive, so once the queue is idle again the round has begun. */
  lemma VideoRoundFollows(s: State, feed: Feed, allowed: bool, ops: seq<Op>)
    requires Inv(s, Video) && Undisturbed(s, ops)
    ensures var s1 := Apply(s, Video, Enqueue(feed, allowed));
            var s2 := Run(s1, Video, ops);
            feed in Began(s1, Video, ops) || (feed in s2.queue && s2.running && s2.idle !in s2.closed)
  {
    var s1 := Apply(s, Video, Enqueue(feed, allowed));
    EnqueueKeeps(s, Video, feed, allowed);
    RunKeeps(s1, Video, ops);
    FirstInFirstOut(s1, Video, ops);
    var s2 := Run(s1, Video, ops);
    assert feed in s1.queue by { assert feed in Members(s1.queue); }
    var i :| 0 <= i < |s1.queue| && s1.queue[i] == feed;
    assert (s1.queue + Admitted(s1, Video, ops))[i] == feed;
    assert (Began(s1, Video, ops) + s2.queue)[i] == feed;
  }

  /** The crawler's rule is weaker: an Enqueue whose deadline has passed
      finds its feed waiting, or already being crawled. */
  lemma CrawlPendingOrRunning(s: State, feed: Feed)
    requires Inv(s, Crawler) && !s.cancelled
    ensures var s1 := Apply(s, Crawler, Enqueue(feed, true));
            s1.running && (feed in s1.queue || s1.current == Some(feed))
  {}

  /** A shutdown lets nothing more in, and every worker ends the next time it
      comes to the head of its loop. */
  lemma ShutdownEnds(s: State, rule: Rule, ops: seq<Op>, w: Channel)
    ensures var s1 := Apply(s, rule, Cancel);
            var z := Run(s1, rule, ops);
            && Admitted(s1, rule, ops) == [] && z.cancelled
            && (Enabled(z, Head(w)) ==>
                  var z' := Apply(z, rule, Head(w)); w !in z'.workers && z'.queue == [] && w in z'.closed)
  {
    NothingAdmitted(Apply(s, rule, Cancel), rule, ops);
  }

  lemma {:induction false} NothingAdmitted(s: State, rule: Rule, ops: seq<Op>)
    requires s.cancelled
    ensures Admitted(s, rule, ops) == [] && Run(s, rule, ops).cancelled
    decreases |ops|
  {
    if ops != [] { NothingAdmitted(Apply(s, rule, ops[0]), rule, ops[1..]); }
  }

  // ---------- the queue itself ----------

  class Queue {
    const rule: Rule
    var queue: seq<Feed>
    var queued: set<Feed>
    var running: bool
    var current: Option<Feed>
    var idle: Channel
    var closed: set<Channel>
    var channels: nat
    ghost var workers: map<Channel, Phase>
    var cancelled: bool

    ghost function View(): State
      reads this
    {
      State(queue, queued, running, current, idle, closed, channels, workers, cancelled)
    }

    constructor (rule: Rule)
      ensures View() == NEW && Inv(View(), rule) && this.rule == rule
    {
      this.rule := rule;
      queue, queued, running, current, cancelled := [], {}, false, None, false;
      idle, closed, channels, workers := 0, {0}, 1, map[];
      NewIsSound(rule);
    }

    method Add(feed: Feed, allowed: bool)
      requires Inv(View(), rule)
      modifies this
      ensures View() == Enqueued(old(View()), rule, feed, allowed) && Inv(View(), rule)
    {
      EnqueueKeeps(View(), rule, feed, allowed);
      if rule == Crawler && !allowed {
        return;
      }
      if feed in queued || cancelled {
        return;
      }
      queued := queued + {feed};
      queue := queue + [feed];
      if !running {
        running := true;
        idle, channels := channels, channels + 1;
        workers := workers[idle := AtHead];
      }
    }

    /** The head of a worker's loop: its next feed, or the end of the worker. */
    method TakeNext(worker: Channel) returns (feed: Option<Feed>)
      requires Inv(View(), rule) && Enabled(View(), Head(worker))
      modifies this
      ensures View() == TakenNext(old(View()), rule, worker) && Inv(View(), rule)
      ensures feed == if old(queue) == [] || cancelled then None else Some(old(queue)[0])
    {
      HeadKeeps(View(), rule, worker);
      if |queue| == 0 || cancelled {
        queue, queued, running := [], {}, false;
        closed, workers := closed + {worker}, workers - {worker};
        return None;
      }
      var next := queue[0];
      queue := queue[1..];
      if rule == Video {
        // from here on a request for this feed asks for one more round
        queued := queued - {next};
      }
      current := if rule == Crawler then Some(next) else None;
      workers := workers[worker := Working(next)];
      return Some(next);
    }

    method Done(worker: Channel, feed: Feed)
      requires Inv(View(), rule) && Enabled(View(), Finish(worker)) && workers[worker].feed == feed
      modifies this
      ensures View() == Finished(old(View()), rule, worker, feed) && Inv(View(), rule)
    {
      FinishKeeps(View(), rule, worker);
      if rule == Crawler {
        queued := queued - {feed};
      }
      current := None;
      workers := workers[worker := AtHead];
    }
  }
}
