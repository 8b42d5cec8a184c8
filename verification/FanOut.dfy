/** Bounded concurrent mapping (mapConcurrent in internal/nrk/nrk.go): workers
    claim indices one at a time and write each result in its place. */
module FanOut {
  import opened Wrappers

  type Worker = nat

  /** `working` holds the index each busy worker has claimed; a worker that
      found nothing left is in `stopped`. */
  datatype State<R> = State(next: nat, working: map<Worker, nat>, stopped: set<Worker>, results: seq<Option<R>>)

  datatype Op = Claim(worker: Worker) | Finish(worker: Worker)

  function Min(a: nat, b: nat): nat { if a < b then a else b }

  function Start<R>(n: nat): State<R> { State(0, map[], {}, seq(n, _ => None)) }

  function Claimed<T, R>(s: State<R>, items: seq<T>, w: Worker): State<R> {
    var claimed := s.(next := s.next + 1);
    if s.next >= |items| then claimed.(stopped := s.stopped + {w}) else claimed.(working := s.working[w := s.next])
  }

  function Step<T, R>(s: State<R>, items: seq<T>, limit: nat, fn: T -> R, op: Op): State<R> {
    match op
    case Claim(w) =>
      if w >= Min(limit, |items|) || w in s.working || w in s.stopped then s else Claimed(s, items, w)
    case Finish(w) =>
      if w !in s.working || s.working[w] >= |items| || s.working[w] >= |s.results| then s
      else s.(working := s.working - {w}, results := s.results[s.working[w] := Some(fn(items[s.working[w]]))])
  }

  function Run<T, R>(s: State<R>, items: seq<T>, limit: nat, fn: T -> R, ops: seq<Op>): State<R>
    decreases |ops|
  {
    if ops == [] then s else Run(Step(s, items, limit, fn, ops[0]), items, limit, fn, ops[1..])
  }

  ghost predicate InHand<R>(s: State<R>, i: nat) { exists w :: w in s.working && s.working[w] == i }

  /** An index below `next` is in one worker's hand or has its result; one at
      or past it has neither. */
  ghost predicate Inv<T(!new), R(!new)>(s: State<R>, items: seq<T>, limit: nat, fn: T -> R) {
    && |s.results| == |items|
    && (forall w | w in s.working :: w < Min(limit, |items|) && s.working[w] < |items| && s.working[w] < s.next)
    && (forall w, v | w in s.working && v in s.working && s.working[w] == s.working[v] :: w == v)
    && (forall i: nat | i < |items| ::
          s.results[i] == if i < s.next && !InHand(s, i) then Some(fn(items[i])) else None)
    && (forall w | w in s.stopped :: s.next >= |items| && w !in s.working)
  }

  lemma ClaimKeeps<T(!new), R(!new)>(s: State<R>, items: seq<T>, limit: nat, fn: T -> R, w: Worker)
    requires Inv(s, items, limit, fn) && w < Min(limit, |items|) && w !in s.working && w !in s.stopped
    ensures Inv(Claimed(s, items, w), items, limit, fn)
  {
    var s' := Claimed(s, items, w);
    forall i: nat | i < |items| ensures InHand(s', i) <==> InHand(s, i) || i == s.next {
      assert s.next < |items| ==> w in s'.working;
      OthersInHand(s, s', w, i);
    }
  }

  lemma FinishKeeps<T(!new), R(!new)>(s: State<R>, items: seq<T>, limit: nat, fn: T -> R, w: Worker)
    requires Inv(s, items, limit, fn) && w in s.working
    ensures Inv(Step(s, items, limit, fn, Finish(w)), items, limit, fn)
  {
    var s' := Step(s, items, limit, fn, Finish(w));
    forall i: nat | i < |items| ensures InHand(s', i) <==> InHand(s, i) && i != s.working[w] {
      OthersInHand(s, s', w, i);
    }
  }

  lemma OthersInHand<R>(s: State<R>, s': State<R>, w: Worker, i: nat)
    requires s'.working - {w} == s.working - {w}
    ensures InHand(s, i) ==> InHand(s', i) || (w in s.working && s.working[w] == i)
  {
    if InHand(s, i) {
      var v :| v in s.working && s.working[v] == i;
      if v != w { assert v in (s.working - {w}) && v in s'.working && s'.working[v] == (s'.working - {w})[v]; }
    }
  }

  lemma StepKeeps<T(!new), R(!new)>(s: State<R>, items: seq<T>, limit: nat, fn: T -> R, op: Op)
    requires Inv(s, items, limit, fn)
    ensures Inv(Step(s, items, limit, fn, op), items, limit, fn)
  {
    hide Inv;
    if Step(s, items, limit, fn, op) != s {
      match op
      case Claim(w) => ClaimKeeps(s, items, limit, fn, w);
      case Finish(w) => FinishKeeps(s, items, limit, fn, w);
    }
  }

  lemma {:induction false} RunKeeps<T(!new), R(!new)>(s: State<R>, items: seq<T>, limit: nat, fn: T -> R, ops: seq<Op>)
    requires Inv(s, items, limit, fn)
    ensures Inv(Run(s, items, limit, fn, ops), items, limit, fn)
    decreases |ops|
  {
    hide Step, Inv;
    if ops != [] {
      StepKeeps(s, items, limit, fn, ops[0]);
      RunKeeps(Step(s, items, limit, fn, ops[0]), items, limit, fn, ops[1..]);
    }
  }

  /** The items claimed over a run, in the order of the claims. */
  function Claims<T, R>(s: State<R>, items: seq<T>, limit: nat, fn: T -> R, ops: seq<Op>): seq<nat>
    decreases |ops|
  {
    if ops == [] then []
    else
      var s' := Step(s, items, limit, fn, ops[0]);
      (if s'.next > s.next && s.next < |items| then [s.next] else []) + Claims(s', items, limit, fn, ops[1..])
  }

  /** Over a whole run the items are claimed one after the other: none twice,
      none left out before the last one claimed. */
  lemma {:induction false} ClaimedOnce<T, R>(s: State<R>, items: seq<T>, limit: nat, fn: T -> R, ops: seq<Op>)
    ensures forall k | 0 <= k < |Claims(s, items, limit, fn, ops)| ::
              Claims(s, items, limit, fn, ops)[k] == s.next + k < |items|
    ensures var z := Run(s, items, limit, fn, ops);
            |Claims(s, items, limit, fn, ops)| == Min(z.next, |items|) - Min(s.next, |items|)
    decreases |ops|
  {
    if ops != [] { ClaimedOnce(Step(s, items, limit, fn, ops[0]), items, limit, fn, ops[1..]); }
  }

  /** In every interleaving at most `limit` calls run at once, no item is
      claimed twice, and once every worker has stopped each has been claimed
      and the results are the items mapped in order. */
  lemma MapsInOrder<T(!new), R(!new)>(items: seq<T>, limit: nat, fn: T -> R, ops: seq<Op>)
    requires limit > 0
    ensures var claims := Claims(Start(|items|), items, limit, fn, ops);
            forall k | 0 <= k < |claims| :: claims[k] == k < |items|
    ensures var s := Run(Start(|items|), items, limit, fn, ops);
            && |s.working| <= limit
            && (forall w, v | w in s.working && v in s.working && s.working[w] == s.working[v] :: w == v)
            && ((forall w: Worker | w < Min(limit, |items|) :: w in s.stopped) ==>
                  && |Claims(Start(|items|), items, limit, fn, ops)| == |items|
                  && s.results == seq(|items|, i requires 0 <= i < |items| => Some(fn(items[i]))))
  {
    ClaimedOnce(Start(|items|), items, limit, fn, ops);
    RunKeeps(Start(|items|), items, limit, fn, ops);
    var s := Run(Start(|items|), items, limit, fn, ops);
    FullSet(s.working.Keys, limit);
    if forall w: Worker | w < Min(limit, |items|) :: w in s.stopped {
      forall i: nat | i < |items| ensures !InHand(s, i) {}
      if items != [] { assert 0 in s.stopped; }
    }
  }

  // ---------- how long the work takes ----------

  /** The worker can take this step: claim when it is free, finish what it has. */
  predicate Moves<T, R>(s: State<R>, items: seq<T>, limit: nat, op: Op) {
    match op
    case Claim(w) => w < Min(limit, |items|) && w !in s.working && w !in s.stopped
    case Finish(w) => w in s.working
  }

  /** Two steps for every item not claimed yet, one for every item in hand,
      and one for every worker still to stop. */
  function Left<T, R>(s: State<R>, items: seq<T>, limit: nat): int {
    2 * (|items| - Min(s.next, |items|)) + |s.working.Keys| + Min(limit, |items|) - |s.stopped|
  }

  ghost predicate StoppedOk<R>(s: State<R>, workers: nat) { forall w | w in s.stopped :: w < workers }

  lemma ClaimLeft<T, R>(s: State<R>, items: seq<T>, limit: nat, w: Worker)
    requires Moves(s, items, limit, Claim(w))
    ensures Left(Claimed(s, items, w), items, limit) == Left(s, items, limit) - 1
  {
    if s.next < |items| { assert Claimed(s, items, w).working.Keys == s.working.Keys + {w}; }
  }

  lemma FinishLeft<T, R>(s: State<R>, s': State<R>, items: seq<T>, limit: nat, w: Worker)
    requires w in s.working && s' == s.(working := s.working - {w}, results := s'.results)
    ensures Left(s', items, limit) == Left(s, items, limit) - 1
  {
    assert s'.working.Keys == s.working.Keys - {w};
  }

  lemma StepLeft<T(!new), R(!new)>(s: State<R>, items: seq<T>, limit: nat, fn: T -> R, op: Op)
    requires Inv(s, items, limit, fn) && StoppedOk(s, Min(limit, |items|))
    ensures var s' := Step(s, items, limit, fn, op);
            && StoppedOk(s', Min(limit, |items|))
            && Left(s', items, limit) == Left(s, items, limit) - if Moves(s, items, limit, op) then 1 else 0
  {
    hide Left;
    match op
    case Claim(w) => if Moves(s, items, limit, op) { ClaimLeft(s, items, limit, w); }
    case Finish(w) =>
      if w in s.working {
        assert s.working[w] < |items| == |s.results|;
        FinishLeft(s, Step(s, items, limit, fn, op), items, limit, w);
      }
  }

  function MovesTaken<T, R>(s: State<R>, items: seq<T>, limit: nat, fn: T -> R, ops: seq<Op>): nat
    decreases |ops|
  {
    if ops == [] then 0
    else
      (if Moves(s, items, limit, ops[0]) then 1 else 0)
      + MovesTaken(Step(s, items, limit, fn, ops[0]), items, limit, fn, ops[1..])
  }

  lemma {:induction false} RunLeft<T(!new), R(!new)>(s: State<R>, items: seq<T>, limit: nat, fn: T -> R, ops: seq<Op>)
    requires Inv(s, items, limit, fn) && StoppedOk(s, Min(limit, |items|))
    ensures var z := Run(s, items, limit, fn, ops);
            && Inv(z, items, limit, fn) && StoppedOk(z, Min(limit, |items|))
            && Left(z, items, limit) == Left(s, items, limit) - MovesTaken(s, items, limit, fn, ops)
    decreases |ops|
  {
    hide Step, Inv, Moves, StoppedOk, Left;
    if ops != [] {
      StepKeeps(s, items, limit, fn, ops[0]);
      StepLeft(s, items, limit, fn, ops[0]);
      RunLeft(Step(s, items, limit, fn, ops[0]), items, limit, fn, ops[1..]);
    }
  }

  lemma {:induction false} FullSet(workers: set<Worker>, n: nat)
    requires forall w | w in workers :: w < n
    ensures |workers| <= n && (|workers| == n <==> forall w: Worker | w < n :: w in workers)
  {
    if n > 0 {
      FullSet(workers - {n - 1}, n - 1);
      assert n - 1 !in workers ==> workers - {n - 1} == workers;
      assert forall w: Worker | w < n - 1 :: w in workers <==> w in workers - {n - 1};
    } else {
      assert workers == {};
    }
  }

  /** A worker that has not stopped can always move, and with two moves for
      each item and one for each worker, not before, all have stopped. */
  lemma WorkEnds<T(!new), R(!new)>(items: seq<T>, limit: nat, fn: T -> R, ops: seq<Op>)
    requires limit > 0
    ensures var s, workers := Run(Start(|items|), items, limit, fn, ops), Min(limit, |items|);
            var taken := MovesTaken(Start(|items|), items, limit, fn, ops);
            && (forall w: Worker | w < workers && w !in s.stopped ::
                  Moves(s, items, limit, Claim(w)) || Moves(s, items, limit, Finish(w)))
            && taken <= 2 * |items| + workers
            && (taken == 2 * |items| + workers <==> forall w: Worker | w < workers :: w in s.stopped)
  {
    RunLeft(Start(|items|), items, limit, fn, ops);
    var s, workers := Run(Start(|items|), items, limit, fn, ops), Min(limit, |items|);
    FullSet(s.stopped, workers);
    if forall w: Worker | w < workers :: w in s.stopped {
      assert s.working.Keys == {};
      if items != [] { assert 0 in s.stopped; }
    }
  }
}
