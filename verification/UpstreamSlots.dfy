/** The bounded FIFO semaphore in front of every NRK request (acquire and
    release in internal/nrk/http.go), with slots handed straight to waiters. */
module UpstreamSlots {

  const MAX_CONCURRENT: nat := 12
  const MAX_QUEUED: nat := 64

  type Request = nat

  /** `holders` are the requests that own a slot, `waiters` those blocked, next first. */
  datatype State = State(holders: set<Request>, inFlight: nat, waiters: seq<Request>)

  const FREE := State({}, 0, [])

  datatype Answer = Granted | Queued | Saturated

  datatype Op = Acquire(request: Request) | Release(request: Request)

  function Acquired(s: State, r: Request): (State, Answer) {
    if s.inFlight < MAX_CONCURRENT then (s.(holders := s.holders + {r}, inFlight := s.inFlight + 1), Granted)
    else if |s.waiters| >= MAX_QUEUED then (s, Saturated)
    else (s.(waiters := s.waiters + [r]), Queued)
  }

  function Released(s: State, r: Request): State
    requires s.waiters == [] ==> s.inFlight > 0
  {
    if s.waiters != [] then s.(holders := s.holders - {r} + {s.waiters[0]}, waiters := s.waiters[1..])
    else s.(holders := s.holders - {r}, inFlight := s.inFlight - 1)
  }

  /** A request acquires once and releases only what it holds. */
  predicate Enabled(s: State, op: Op) {
    match op
    case Acquire(r) => r !in s.holders && r !in s.waiters
    case Release(r) => r in s.holders
  }

  ghost predicate Inv(s: State) {
    && |s.holders| == s.inFlight <= MAX_CONCURRENT
    && |s.waiters| <= MAX_QUEUED
    && (s.waiters != [] ==> s.inFlight == MAX_CONCURRENT)
    && (forall i | 0 <= i < |s.waiters| :: s.waiters[i] !in s.holders)
    && (forall i, j | 0 <= i < j < |s.waiters| :: s.waiters[i] != s.waiters[j])
  }

  function Apply(s: State, op: Op): State
    requires Inv(s)
  {
    if !Enabled(s, op) then s
    else match op
      case Acquire(r) => Acquired(s, r).0
      case Release(r) =>
        assert s.holders != {};
        Released(s, r)
  }

  lemma ApplyKeeps(s: State, op: Op)
    requires Inv(s)
    ensures Inv(Apply(s, op))
  {
    if Enabled(s, op) && op.Acquire? && s.inFlight == MAX_CONCURRENT && |s.waiters| < MAX_QUEUED {
      assert forall i | 0 <= i < |s.waiters| :: s.waiters[i] in s.waiters;
    }
  }

  /** The state after any interleaving of acquires and releases; a step its
      request is not ready for does nothing. */
  function Run(s: State, ops: seq<Op>): (s': State)
    requires Inv(s)
    ensures Inv(s')
    decreases |ops|
  {
    if ops == [] then s
    else
      ApplyKeeps(s, ops[0]);
      Run(Apply(s, ops[0]), ops[1..])
  }

  function Releases(s: State, ops: seq<Op>): nat
    requires Inv(s)
    decreases |ops|
  {
    if ops == [] then 0
    else
      ApplyKeeps(s, ops[0]);
      (if ops[0].Release? && Enabled(s, ops[0]) then 1 else 0) + Releases(Apply(s, ops[0]), ops[1..])
  }

  /** In every reachable state the slots held are exactly the slots counted,
      at most 12, and requests wait only when all 12 are held. */
  lemma SlotsAccounted(ops: seq<Op>)
    ensures var s := Run(FREE, ops);
            && |s.holders| == s.inFlight <= 12 && |s.waiters| <= 64
            && (s.waiters != [] ==> s.inFlight == 12)
            && forall r :: !(r in s.holders && r in s.waiters)
  {}

  /** A request is granted a slot exactly while fewer than 12 are held, waits
      last in line exactly while fewer than 64 wait, and is refused otherwise. */
  lemma AcquireIff(s: State, r: Request)
    requires Inv(s) && Enabled(s, Acquire(r))
    ensures var (s', answer) := Acquired(s, r);
            && (answer == Granted <==> |s.holders| < 12)
            && (answer == Saturated <==> |s.holders| == 12 && |s.waiters| == 64)
            && s'.holders == (if answer == Granted then s.holders + {r} else s.holders)
            && s'.waiters == (if answer == Queued then s.waiters + [r] else s.waiters)
  {}

  /** A release frees the slot if nobody waits, and else hands it to the first
      in line; no other request gains or loses one. */
  lemma ReleaseHandsOver(s: State, r: Request)
    requires Inv(s) && Enabled(s, Release(r))
    ensures var s' := Apply(s, Release(r));
            && r !in s'.holders
            && (forall other | other != r && other in s.holders :: other in s'.holders)
            && if s.waiters == [] then s'.holders <= s.holders && |s'.holders| == |s.holders| - 1
               else s.waiters == [s.waiters[0]] + s'.waiters && s'.holders == s.holders - {r} + {s.waiters[0]}
  {
    assert s.waiters != [] ==> s.waiters == [s.waiters[0]] + s.waiters[1..];
  }

  lemma WaiterMoves(s: State, op: Op, i: nat)
    requires Inv(s) && i < |s.waiters|
    ensures var s' := Apply(s, op);
            if op.Release? && Enabled(s, op) then
              i > 0 ==> i - 1 < |s'.waiters| && s'.waiters[i - 1] == s.waiters[i]
            else i < |s'.waiters| && s'.waiters[i] == s.waiters[i]
  {}

  lemma {:induction false} PositionKept(s: State, ops: seq<Op>, i: nat)
    requires Inv(s) && i < |s.waiters| && Releases(s, ops) <= i
    ensures var (s', k) := (Run(s, ops), Releases(s, ops));
            i - k < |s'.waiters| && s'.waiters[i - k] == s.waiters[i]
    decreases |ops|
  {
    hide Apply, Enabled, Inv;
    if ops != [] {
      ApplyKeeps(s, ops[0]);
      WaiterMoves(s, ops[0], i);
      var released := ops[0].Release? && Enabled(s, ops[0]);
      PositionKept(Apply(s, ops[0]), ops[1..], if released then i - 1 else i);
    }
  }

  /** Through any further acquires and releases, the waiter at position i is
      still waiting, i - k places from the front, after k <= i releases. */
  lemma WaitsItsTurn(s: State, ops: seq<Op>, i: nat)
    requires Inv(s) && i < |s.waiters| && Releases(s, ops) <= i
    ensures var (s', k) := (Run(s, ops), Releases(s, ops));
            i - k < |s'.waiters| && s'.waiters[i - k] == s.waiters[i] && s.waiters[i] !in s'.holders
  {
    PositionKept(s, ops, i);
  }

  lemma {:induction false} RunAppend(s: State, ops: seq<Op>, op: Op)
    requires Inv(s)
    ensures Run(s, ops + [op]) == Apply(Run(s, ops), op)
    ensures Releases(s, ops + [op])
         == Releases(s, ops) + (if op.Release? && Enabled(Run(s, ops), op) then 1 else 0)
    decreases |ops|
  {
    if ops == [] {
      assert ops + [op] == [op];
      ApplyKeeps(s, op);
      assert [op][1..] == [];
    } else {
      ApplyKeeps(s, ops[0]);
      assert (ops + [op])[1..] == ops[1..] + [op];
      RunAppend(Apply(s, ops[0]), ops[1..], op);
    }
  }

  /** The waiter at position i gets its slot at exactly the (i + 1)-th
      release that follows, whoever releases and whoever else arrives. */
  lemma SlotAtItsRelease(s: State, ops: seq<Op>, r: Request, i: nat)
    requires Inv(s) && i < |s.waiters|
    requires Releases(s, ops) == i && r in Run(s, ops).holders
    ensures s.waiters[i] !in Run(s, ops).holders
    ensures Releases(s, ops + [Release(r)]) == i + 1
    ensures s.waiters[i] in Run(s, ops + [Release(r)]).holders
  {
    WaitsItsTurn(s, ops, i);
    RunAppend(s, ops, Release(r));
  }

  /** The semaphore itself. */
  class Upstream {
    var inFlight: nat
    var waiters: seq<Request>
    ghost var holders: set<Request>

    ghost function View(): State
      reads this
    {
      State(holders, inFlight, waiters)
    }

    constructor ()
      ensures View() == FREE && Inv(View())
    {
      inFlight, waiters, holders := 0, [], {};
    }

    method TryAcquire(r: Request) returns (answer: Answer)
      requires Inv(View()) && Enabled(View(), Acquire(r))
      modifies this
      ensures (View(), answer) == Acquired(old(View()), r) && Inv(View())
    {
      ApplyKeeps(View(), Acquire(r));
      if inFlight < MAX_CONCURRENT {
        inFlight, holders := inFlight + 1, holders + {r};
        return Granted;
      }
      if |waiters| >= MAX_QUEUED {
        return Saturated;
      }
      waiters := waiters + [r];
      return Queued;
    }

    method GiveUp(r: Request)
      requires Inv(View()) && Enabled(View(), Release(r))
      modifies this
      ensures View() == Apply(old(View()), Release(r)) && Inv(View())
    {
      ApplyKeeps(View(), Release(r));
      assert holders != {};
      if |waiters| > 0 {
        // the slot goes straight to the next waiter
        holders := holders - {r} + {waiters[0]};
        waiters := waiters[1..];
        return;
      }
      holders := holders - {r};
      inFlight := inFlight - 1;
    }
  }
}
