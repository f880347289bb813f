/** The bounded deadline pool: a semaphore admits calls to a queue that a fixed
    set of worker threads serves.  Every atomic statement of `call` and of the
    worker loop is one `Action`; a run is any sequence of enabled actions, so the
    theorems hold for every interleaving of callers and workers.
 */
module DeadlinePool {

  type CallId = nat

  /** What a submitted function does when a worker runs it. */
  datatype Fate = Returns(value: int) | Raises(error: int) | Wedges

  datatype Box = Empty | HasValue(value: int) | HasError(error: int)

  /** Where a worker thread stands in its loop. */
  datatype Worker = Idle | Running(c: CallId) | Stored(c: CallId) | Signalled(c: CallId)

  /** Where a caller stands in `call`. */
  datatype Caller = Acquired | Waiting | Exhausted | TimedOut | Got(value: int) | Threw(error: int)

  /** `released` lists every permit handed back, in order. */
  datatype Pool = Pool(
    max: nat,
    free: nat,
    queue: seq<CallId>,
    workers: seq<Worker>,
    callers: map<CallId, Caller>,
    box: map<CallId, Box>,
    done: set<CallId>,
    released: seq<CallId>)

  datatype Action =
    | Acquire(c: CallId)
    | Enqueue(c: CallId)
    | Wake(c: CallId)
    | GiveUp(c: CallId)
    | Take(w: nat)
    | Finish(w: nat)
    | Signal(w: nat)
    | Release(w: nat)

  function Fresh(max: nat): Pool {
    Pool(max, max, [], seq(max, _ => Idle), map[], map[], {}, [])
  }

  function Outcome(f: Fate): Box {
    match f
    case Returns(v) => HasValue(v)
    case Raises(e) => HasError(e)
    case Wedges => Empty
  }

  predicate Enabled(fate: CallId -> Fate, s: Pool, a: Action) {
    match a
    case Acquire(c) => c !in s.callers
    case Enqueue(c) => c in s.callers && s.callers[c] == Acquired
    case Wake(c) => c in s.callers && s.callers[c] == Waiting && c in s.done && c in s.box
    case GiveUp(c) => c in s.callers && s.callers[c] == Waiting && c !in s.done
    case Take(w) => w < |s.workers| && s.workers[w].Idle? && s.queue != []
    case Finish(w) => w < |s.workers| && s.workers[w].Running? && !fate(s.workers[w].c).Wedges?
    case Signal(w) => w < |s.workers| && s.workers[w].Stored?
    case Release(w) => w < |s.workers| && s.workers[w].Signalled?
  }

  function Apply(fate: CallId -> Fate, s: Pool, a: Action): Pool
    requires Enabled(fate, s, a)
  {
    match a
    case Acquire(c) =>
      if s.free == 0 then s.(callers := s.callers[c := Exhausted])
      else s.(free := s.free - 1, callers := s.callers[c := Acquired])
    case Enqueue(c) =>
      s.(callers := s.callers[c := Waiting], box := s.box[c := Empty], queue := s.queue + [c])
    case Wake(c) =>
      s.(callers := s.callers[c := match s.box[c]
                                   case HasError(e) => Threw(e)
                                   case HasValue(v) => Got(v)
                                   case Empty => Threw(0)])
    case GiveUp(c) => s.(callers := s.callers[c := TimedOut])
    case Take(w) => s.(queue := s.queue[1..], workers := s.workers[w := Running(s.queue[0])])
    case Finish(w) =>
      var c := s.workers[w].c;
      s.(box := s.box[c := Outcome(fate(c))], workers := s.workers[w := Stored(c)])
    case Signal(w) =>
      var c := s.workers[w].c;
      s.(done := s.done + {c}, workers := s.workers[w := Signalled(c)])
    case Release(w) =>
      var c := s.workers[w].c;
      s.(free := s.free + 1, released := s.released + [c], workers := s.workers[w := Idle])
  }

  predicate Runs(fate: CallId -> Fate, s: Pool, acts: seq<Action>)
    decreases |acts|
  {
    acts == [] || (Enabled(fate, s, acts[0]) && Runs(fate, Apply(fate, s, acts[0]), acts[1..]))
  }

  function Exec(fate: CallId -> Fate, s: Pool, acts: seq<Action>): Pool
    requires Runs(fate, s, acts)
    decreases |acts|
  {
    if acts == [] then s else Exec(fate, Apply(fate, s, acts[0]), acts[1..])
  }

  /* Where the permits are. */

  function Between(s: Pool): set<CallId> {
    set c | c in s.callers && s.callers[c] == Acquired
  }

  function Accepted(s: Pool): set<CallId> {
    set c | c in s.callers && s.callers[c] != Exhausted
  }

  function Busy(ws: seq<Worker>): nat {
    if ws == [] then 0 else (if ws[0].Idle? then 0 else 1) + Busy(ws[1..])
  }

  function Serving(ws: seq<Worker>): set<CallId> {
    set i | 0 <= i < |ws| && !ws[i].Idle? :: ws[i].c
  }

  function ToSet(xs: seq<CallId>): set<CallId> {
    set c | c in xs
  }

  /** The calls that hold a permit. */
  function Holding(s: Pool): set<CallId> {
    Between(s) + ToSet(s.queue) + Serving(s.workers)
  }

  ghost predicate Distinct(xs: seq<CallId>) {
    forall i, j :: 0 <= i < j < |xs| ==> xs[i] != xs[j]
  }

  /** The conservation law of the permits. */
  predicate Conserved(s: Pool) {
    |s.workers| == s.max && s.free + |Between(s)| + |s.queue| + Busy(s.workers) == s.max
  }

  ghost predicate PlacedOnce(s: Pool) {
    NoRepeats(s) && Placed(s)
  }

  ghost predicate NoRepeats(s: Pool) {
    Distinct(s.queue) && Distinct(s.released)
  }

  ghost predicate Placed(s: Pool) {
    && (forall i, j :: 0 <= i < j < |s.workers| && !s.workers[i].Idle? && !s.workers[j].Idle?
          ==> s.workers[i].c != s.workers[j].c)
    && (forall c :: c in s.queue ==> c in Accepted(s) && c !in Between(s) && c !in s.released)
    && (forall i :: 0 <= i < |s.workers| && !s.workers[i].Idle? ==>
          var c := s.workers[i].c;
          c in Accepted(s) && c !in Between(s) && c !in s.released && c !in s.queue)
    && (forall c :: c in s.released ==> c in Accepted(s) && c !in Between(s))
    && (forall c :: c in Accepted(s) ==> c in s.released || c in Holding(s))
  }

  ghost predicate BoxesRight(fate: CallId -> Fate, s: Pool) {
    && (forall c :: c in s.box ==> c in Accepted(s) && c !in Between(s))
    && (forall c :: c in s.done ==>
          c in s.box && s.box[c] == Outcome(fate(c)) && !fate(c).Wedges?)
    && (forall c :: c in s.released ==> c in s.done)
    && (forall c :: c in s.queue ==> c !in s.done)
    && (forall i :: 0 <= i < |s.workers| ==>
          match s.workers[i]
          case Idle => true
          case Running(c) => c !in s.done
          case Stored(c) => c !in s.done && c in s.box && s.box[c] == Outcome(fate(c)) && !fate(c).Wedges?
          case Signalled(c) => c in s.done)
    && (forall c :: c in s.callers ==>
          match s.callers[c]
          case Got(v) => fate(c) == Returns(v)
          case Threw(e) => fate(c) == Raises(e)
          case _ => true)
  }

  ghost predicate Inv(fate: CallId -> Fate, s: Pool) {
    Conserved(s) && PlacedOnce(s) && BoxesRight(fate, s)
  }

  lemma {:induction false} BusyUpdate(ws: seq<Worker>, w: nat, x: Worker)
    requires w < |ws|
    ensures Busy(ws[w := x]) == Busy(ws) - (if ws[w].Idle? then 0 else 1) + (if x.Idle? then 0 else 1)
  {
    if w == 0 {
      assert ws[w := x][1..] == ws[1..];
    } else {
      assert ws[w := x][1..] == ws[1..][w - 1 := x];
      BusyUpdate(ws[1..], w - 1, x);
    }
  }

  lemma {:induction false} AllIdle(n: nat)
    ensures Busy(seq(n, _ => Idle)) == 0
  {
    var ws: seq<Worker> := seq(n, _ => Idle);
    if n > 0 {
      var rest: seq<Worker> := seq(n - 1, _ => Idle);
      assert ws[1..] == rest;
      AllIdle(n - 1);
    }
  }

  lemma FreshInv(fate: CallId -> Fate, max: nat)
    ensures Inv(fate, Fresh(max))
  {
    AllIdle(max);
    assert Between(Fresh(max)) == {};
  }

  lemma CallerConserves(fate: CallId -> Fate, s: Pool, a: Action)
    requires Conserved(s) && Enabled(fate, s, a)
    requires a.Acquire? || a.Enqueue? || a.Wake? || a.GiveUp?
    ensures Conserved(Apply(fate, s, a))
  {
    var t := Apply(fate, s, a);
    match a
    case Acquire(c) =>
      if s.free == 0 { assert Between(t) == Between(s); } else { assert Between(t) == Between(s) + {c}; }
    case Enqueue(c) => assert Between(t) == Between(s) - {c};
    case _ => assert Between(t) == Between(s);
  }

  lemma WorkerConserves(fate: CallId -> Fate, s: Pool, a: Action)
    requires Conserved(s) && Enabled(fate, s, a)
    requires a.Take? || a.Finish? || a.Signal? || a.Release?
    ensures Conserved(Apply(fate, s, a))
  {
    var t := Apply(fate, s, a);
    assert Between(t) == Between(s);
    BusyUpdate(s.workers, a.w, t.workers[a.w]);
  }

  lemma DistinctTail(xs: seq<CallId>)
    requires Distinct(xs) && xs != []
    ensures Distinct(xs[1..]) && xs[0] !in xs[1..]
  {
    forall i, j | 0 <= i < j < |xs[1..]| ensures xs[1..][i] != xs[1..][j] {
      assert xs[i + 1] != xs[j + 1];
    }
  }

  lemma DistinctAppend(xs: seq<CallId>, c: CallId)
    requires Distinct(xs) && c !in xs
    ensures Distinct(xs + [c])
  {
  }

  lemma StepNoRepeats(fate: CallId -> Fate, s: Pool, a: Action)
    requires PlacedOnce(s) && Enabled(fate, s, a)
    ensures NoRepeats(Apply(fate, s, a))
  {
    var t := Apply(fate, s, a);
    if a.Enqueue? {
      DistinctAppend(s.queue, a.c);
    } else if a.Take? {
      DistinctTail(s.queue);
    } else if a.Release? {
      DistinctAppend(s.released, s.workers[a.w].c);
    } else {
      assert t.queue == s.queue && t.released == s.released;
    }
  }

  lemma AcquirePlaced(fate: CallId -> Fate, s: Pool, c: CallId)
    requires Placed(s) && Enabled(fate, s, Acquire(c))
    ensures Placed(Apply(fate, s, Acquire(c)))
  {
    var t := Apply(fate, s, Acquire(c));
    if s.free == 0 {
      assert Between(t) == Between(s) && Accepted(t) == Accepted(s);
    } else {
      assert Between(t) == Between(s) + {c} && Accepted(t) == Accepted(s) + {c};
    }
  }

  lemma EnqueuePlaced(fate: CallId -> Fate, s: Pool, c: CallId)
    requires Placed(s) && Enabled(fate, s, Enqueue(c))
    ensures Placed(Apply(fate, s, Enqueue(c)))
  {
    var t := Apply(fate, s, Enqueue(c));
    assert c in Between(s);
    assert Between(t) == Between(s) - {c} && Accepted(t) == Accepted(s);
  }

  lemma SettlePlaced(fate: CallId -> Fate, s: Pool, a: Action)
    requires Placed(s) && Enabled(fate, s, a) && (a.Wake? || a.GiveUp?)
    ensures Placed(Apply(fate, s, a))
  {
    var t := Apply(fate, s, a);
    assert Between(t) == Between(s) && Accepted(t) == Accepted(s);
  }

  lemma WorkerPlaced(fate: CallId -> Fate, s: Pool, a: Action)
    requires PlacedOnce(s) && Enabled(fate, s, a)
    requires a.Take? || a.Finish? || a.Signal? || a.Release?
    ensures Placed(Apply(fate, s, a))
  {
    var t := Apply(fate, s, a);
    assert Accepted(t) == Accepted(s) && Between(t) == Between(s);
    if a.Take? {
      DistinctTail(s.queue);
      assert forall c :: c in s.queue ==> c == s.queue[0] || c in t.queue;
    }
    forall c | c in Accepted(t) && c !in t.released ensures c in Holding(t) {
      if c in Serving(s.workers) {
        var i :| 0 <= i < |s.workers| && !s.workers[i].Idle? && s.workers[i].c == c;
        assert !t.workers[i].Idle? && t.workers[i].c == c;
      } else if a.Take? && c == s.queue[0] {
        assert t.workers[a.w].c == c;
      }
    }
  }

  lemma CallerBoxes(fate: CallId -> Fate, s: Pool, a: Action)
    requires PlacedOnce(s) && BoxesRight(fate, s) && Enabled(fate, s, a)
    requires a.Acquire? || a.Enqueue? || a.Wake? || a.GiveUp?
    ensures BoxesRight(fate, Apply(fate, s, a))
  {
    match a
    case Acquire(c) =>
      assert c !in Accepted(s);
    case Enqueue(c) =>
      assert c in Between(s);
    case Wake(c) =>
      assert s.box[c] == Outcome(fate(c));
    case GiveUp(c) =>
  }

  lemma WorkerBoxes(fate: CallId -> Fate, s: Pool, a: Action)
    requires PlacedOnce(s) && BoxesRight(fate, s) && Enabled(fate, s, a)
    requires a.Take? || a.Finish? || a.Signal? || a.Release?
    ensures BoxesRight(fate, Apply(fate, s, a))
  {
    var t := Apply(fate, s, a);
    assert Accepted(t) == Accepted(s) && Between(t) == Between(s);
    match a
    case Take(w) => assert s.queue[0] in s.queue;
    case Finish(w) => assert t.done == s.done;
    case Signal(w) => assert t.box == s.box;
    case Release(w) => assert s.workers[w].c in s.done;
  }

  /** One step of any thread keeps the invariant. */
  lemma StepInv(fate: CallId -> Fate, s: Pool, a: Action)
    requires Inv(fate, s) && Enabled(fate, s, a)
    ensures Inv(fate, Apply(fate, s, a))
  {
    StepNoRepeats(fate, s, a);
    if a.Acquire? || a.Enqueue? || a.Wake? || a.GiveUp? {
      CallerConserves(fate, s, a);
      CallerBoxes(fate, s, a);
      match a
      case Acquire(c) => AcquirePlaced(fate, s, c);
      case Enqueue(c) => EnqueuePlaced(fate, s, c);
      case _ => SettlePlaced(fate, s, a);
    } else {
      WorkerPlaced(fate, s, a);
      WorkerConserves(fate, s, a);
      WorkerBoxes(fate, s, a);
    }
  }

  lemma {:induction false} ExecInv(fate: CallId -> Fate, s: Pool, acts: seq<Action>)
    requires Inv(fate, s) && Runs(fate, s, acts)
    ensures Inv(fate, Exec(fate, s, acts))
    decreases |acts|
  {
    if acts != [] {
      StepInv(fate, s, acts[0]);
      ExecInv(fate, Apply(fate, s, acts[0]), acts[1..]);
    }
  }

  /* Theorems about every reachable state. */

  /** In every reachable state the permits add up, so the queue is never longer
      than the number of workers that are not inside a call: a queued call always
      has an idle worker, whatever the others are stuck in. */
  lemma NeverQueuedBehindAWedge(fate: CallId -> Fate, max: nat, acts: seq<Action>)
    requires Runs(fate, Fresh(max), acts)
    ensures var s := Exec(fate, Fresh(max), acts);
            && s.free + |Between(s)| + |s.queue| + Busy(s.workers) == max
            && |s.queue| <= max - Busy(s.workers)
            && (s.queue != [] ==> exists w :: Enabled(fate, s, Take(w)))
  {
    FreshInv(fate, max);
    ExecInv(fate, Fresh(max), acts);
    var s := Exec(fate, Fresh(max), acts);
    ExecMax(fate, Fresh(max), acts);
    if s.queue != [] {
      var w := IdleExists(s.workers);
      assert Enabled(fate, s, Take(w));
    }
  }

  lemma {:induction false} ExecMax(fate: CallId -> Fate, s: Pool, acts: seq<Action>)
    requires Runs(fate, s, acts)
    ensures Exec(fate, s, acts).max == s.max
    decreases |acts|
  {
    if acts != [] { ExecMax(fate, Apply(fate, s, acts[0]), acts[1..]); }
  }

  lemma {:induction false} IdleExists(ws: seq<Worker>) returns (w: nat)
    requires Busy(ws) < |ws|
    ensures w < |ws| && ws[w].Idle?
  {
    if ws[0].Idle? { w := 0; } else {
      w := IdleExists(ws[1..]);
      w := w + 1;
    }
  }

  /** An accepted call that has not handed its permit back still holds one, and it
      hands back at most one; a call whose function never returns hands back none. */
  lemma OnePermitPerReturn(fate: CallId -> Fate, max: nat, acts: seq<Action>)
    requires Runs(fate, Fresh(max), acts)
    ensures var s := Exec(fate, Fresh(max), acts);
            && Distinct(s.released)
            && (forall c :: c in s.released ==> c in Accepted(s) && !fate(c).Wedges? && c !in Holding(s))
            && (forall c :: c in Accepted(s) <==> c in s.released || c in Holding(s))
            && s.free + |Accepted(s)| == max + |s.released|
  {
    FreshInv(fate, max);
    ExecInv(fate, Fresh(max), acts);
    ExecMax(fate, Fresh(max), acts);
    ReturnedOrHeld(Exec(fate, Fresh(max), acts));
  }

  lemma ReturnedOrHeld(s: Pool)
    requires PlacedOnce(s) && Conserved(s)
    ensures forall c :: c in s.released ==> c !in Holding(s)
    ensures forall c :: c in Accepted(s) <==> c in s.released || c in Holding(s)
    ensures s.free + |Accepted(s)| == s.max + |s.released|
  {
    HoldingSize(s);
    SeqAsSet(s.released);
    var back := ToSet(s.released);
    forall c | c in Holding(s) ensures c in Accepted(s) {
      if c in Serving(s.workers) {
        var i :| 0 <= i < |s.workers| && !s.workers[i].Idle? && s.workers[i].c == c;
      }
    }
    assert Accepted(s) == back + Holding(s);
    assert back !! Holding(s);
  }

  lemma {:induction false} SeqAsSet(xs: seq<CallId>)
    requires Distinct(xs)
    ensures |ToSet(xs)| == |xs|
  {
    if xs != [] {
      DistinctTail(xs);
      SeqAsSet(xs[1..]);
      assert ToSet(xs) == {xs[0]} + ToSet(xs[1..]);
    }
  }

  lemma {:induction false} ServingSize(ws: seq<Worker>)
    requires forall i, j :: 0 <= i < j < |ws| && !ws[i].Idle? && !ws[j].Idle? ==> ws[i].c != ws[j].c
    ensures |Serving(ws)| == Busy(ws)
  {
    if ws != [] {
      ServingSize(ws[1..]);
      var rest := Serving(ws[1..]);
      if ws[0].Idle? {
        forall c | c in Serving(ws) ensures c in rest {
          var i :| 0 <= i < |ws| && !ws[i].Idle? && ws[i].c == c;
          assert ws[1..][i - 1].c == c;
        }
        assert Serving(ws) == rest;
      } else {
        forall c | c in Serving(ws) ensures c in rest || c == ws[0].c {
          var i :| 0 <= i < |ws| && !ws[i].Idle? && ws[i].c == c;
          if i > 0 { assert ws[1..][i - 1].c == c; }
        }
        assert Serving(ws) == {ws[0].c} + rest;
      }
    }
  }

  lemma HoldingSize(s: Pool)
    requires PlacedOnce(s)
    ensures |Holding(s)| == |Between(s)| + |s.queue| + Busy(s.workers)
  {
    SeqAsSet(s.queue);
    ServingSize(s.workers);
    var q := ToSet(s.queue);
    assert Between(s) !! q;
    forall c | c in Serving(s.workers) ensures c !in Between(s) + q {
      var i :| 0 <= i < |s.workers| && !s.workers[i].Idle? && s.workers[i].c == c;
    }
    assert (Between(s) + q) !! Serving(s.workers);
    assert |Between(s) + q| == |Between(s)| + |q|;
  }

  /** The accepted calls that will never return. */
  function Wedged(fate: CallId -> Fate, s: Pool): set<CallId> {
    set c | c in Accepted(s) && fate(c).Wedges?
  }

  /** At most `max` never-returning calls are ever admitted; once that many are,
      no permit is free and every further call is refused on the spot. */
  lemma WedgeCost(fate: CallId -> Fate, max: nat, acts: seq<Action>, c: CallId)
    requires Runs(fate, Fresh(max), acts)
    ensures var s := Exec(fate, Fresh(max), acts);
            && |Wedged(fate, s)| <= max
            && (|Wedged(fate, s)| == max && Enabled(fate, s, Acquire(c)) ==>
                  Apply(fate, s, Acquire(c)) == s.(callers := s.callers[c := Exhausted]))
  {
    FreshInv(fate, max);
    ExecInv(fate, Fresh(max), acts);
    ExecMax(fate, Fresh(max), acts);
    WedgedHold(fate, Exec(fate, Fresh(max), acts));
  }

  lemma SubsetSize(a: set<CallId>, b: set<CallId>)
    requires a <= b
    ensures |a| <= |b|
  {
    assert b == a + (b - a);
  }

  /** Once every slot is wedged the pool stays exhausted: no later run admits a call. */
  lemma WedgedForGood(fate: CallId -> Fate, max: nat, acts: seq<Action>, more: seq<Action>, c: CallId)
    requires Runs(fate, Fresh(max), acts)
    requires |Wedged(fate, Exec(fate, Fresh(max), acts))| == max
    requires Runs(fate, Exec(fate, Fresh(max), acts), more)
    ensures c in Accepted(Exec(fate, Exec(fate, Fresh(max), acts), more))
            ==> c in Accepted(Exec(fate, Fresh(max), acts))
  {
    var s := Exec(fate, Fresh(max), acts);
    FreshInv(fate, max);
    ExecInv(fate, Fresh(max), acts);
    ExecMax(fate, Fresh(max), acts);
    StaysWedged(fate, s, more);
  }

  lemma WedgedHold(fate: CallId -> Fate, s: Pool)
    requires PlacedOnce(s) && BoxesRight(fate, s) && Conserved(s)
    ensures Wedged(fate, s) <= Holding(s) && |Wedged(fate, s)| + s.free <= s.max
  {
    HoldingSize(s);
    assert Wedged(fate, s) <= Holding(s);
    SubsetSize(Wedged(fate, s), Holding(s));
  }

  lemma StepAccepted(fate: CallId -> Fate, s: Pool, a: Action)
    requires Enabled(fate, s, a) && s.free == 0
    ensures Accepted(Apply(fate, s, a)) == Accepted(s)
  {
  }

  lemma {:induction false} StaysWedged(fate: CallId -> Fate, s: Pool, more: seq<Action>)
    requires Inv(fate, s) && Runs(fate, s, more) && |Wedged(fate, s)| == s.max
    ensures Accepted(Exec(fate, s, more)) == Accepted(s)
    decreases |more|
  {
    if more != [] {
      var t := Apply(fate, s, more[0]);
      StepInv(fate, s, more[0]);
      WedgedHold(fate, s);
      StepAccepted(fate, s, more[0]);
      assert Wedged(fate, t) == Wedged(fate, s);
      StaysWedged(fate, t, more[1..]);
    }
  }

  /** A caller that woke up on `done` got exactly what its own function produced:
      the value if it returned, the error if it raised. */
  lemma CallerReadsItsOwnOutcome(fate: CallId -> Fate, max: nat, acts: seq<Action>, c: CallId)
    requires Runs(fate, Fresh(max), acts)
    ensures var s := Exec(fate, Fresh(max), acts);
            && (c in s.callers && s.callers[c].Got? ==> fate(c) == Returns(s.callers[c].value))
            && (c in s.callers && s.callers[c].Threw? ==> fate(c) == Raises(s.callers[c].error))
            && (c in s.callers && s.callers[c] == Exhausted ==> c !in s.box && c !in s.done)
            && (c in s.callers && s.callers[c] == Waiting && c in s.done ==>
                  Enabled(fate, s, Wake(c)) && !s.box[c].Empty?)
  {
    FreshInv(fate, max);
    ExecInv(fate, Fresh(max), acts);
  }

  /** The pool object.  Each method is one atomic statement of the caller's side or
      of a worker's loop, and moves the object's state exactly as the matching
      action does. */
  class BoundedPool {
    const max: nat
    var free: nat
    var queue: seq<CallId>
    var workers: seq<Worker>
    var callers: map<CallId, Caller>
    var box: map<CallId, Box>
    var done: set<CallId>
    ghost var released: seq<CallId>

    ghost function Snapshot(): Pool
      reads this
    {
      Pool(max, free, queue, workers, callers, box, done, released)
    }

    constructor (max: nat)
      ensures Snapshot() == Fresh(max)
    {
      this.max := max;
      free, queue, workers := max, [], seq(max, _ => Idle);
      callers, box, done, released := map[], map[], {}, [];
    }

    /** A pool needs at least one worker: anything less is refused. */
    static method Create(maxWorkers: int) returns (pool: BoundedPool?)
      ensures pool == null <==> maxWorkers < 1
      ensures pool != null ==> fresh(pool) && pool.Snapshot() == Fresh(maxWorkers)
    {
      if maxWorkers < 1 {
        pool := null;
      } else {
        pool := new BoundedPool(maxWorkers);
      }
    }

    method TryAcquire(ghost fate: CallId -> Fate, c: CallId) returns (admitted: bool)
      requires Enabled(fate, Snapshot(), Acquire(c))
      modifies this`free, this`callers
      ensures Snapshot() == Apply(fate, old(Snapshot()), Acquire(c))
      ensures admitted <==> old(free) > 0
    {
      if free == 0 {
        callers := callers[c := Exhausted];
        admitted := false;
      } else {
        free := free - 1;
        callers := callers[c := Acquired];
        admitted := true;
      }
    }

    method Submit(ghost fate: CallId -> Fate, c: CallId)
      requires Enabled(fate, Snapshot(), Enqueue(c))
      modifies this`callers, this`box, this`queue
      ensures Snapshot() == Apply(fate, old(Snapshot()), Enqueue(c))
    {
      box := box[c := Empty];
      queue := queue + [c];
      callers := callers[c := Waiting];
    }

    /** The wait is over: `timedOut` says the event was still unset at the deadline. */
    method Await(ghost fate: CallId -> Fate, c: CallId, timedOut: bool) returns (r: Caller)
      requires Enabled(fate, Snapshot(), if timedOut then GiveUp(c) else Wake(c))
      modifies this`callers
      ensures Snapshot() == Apply(fate, old(Snapshot()), if timedOut then GiveUp(c) else Wake(c))
      ensures callers[c] == r && (timedOut ==> r == TimedOut)
    {
      if timedOut {
        r := TimedOut;
      } else {
        match box[c]
        case HasError(e) => r := Threw(e);
        case HasValue(v) => r := Got(v);
        case Empty => r := Threw(0);
      }
      callers := callers[c := r];
    }

    method Dequeue(ghost fate: CallId -> Fate, w: nat) returns (c: CallId)
      requires Enabled(fate, Snapshot(), Take(w))
      modifies this`queue, this`workers
      ensures Snapshot() == Apply(fate, old(Snapshot()), Take(w))
      ensures old(queue) == [c] + queue
    {
      c := queue[0];
      queue := queue[1..];
      workers := workers[w := Running(c)];
    }

    /** The worker's call came back, by value or by exception. */
    method Store(ghost fate: CallId -> Fate, w: nat, outcome: Fate)
      requires Enabled(fate, Snapshot(), Finish(w)) && outcome == fate(workers[w].c)
      modifies this`box, this`workers
      ensures Snapshot() == Apply(fate, old(Snapshot()), Finish(w))
    {
      var c := workers[w].c;
      match outcome {
        case Returns(v) => box := box[c := HasValue(v)];
        case Raises(e) => box := box[c := HasError(e)];
      }
      workers := workers[w := Stored(c)];
    }

    method SetDone(ghost fate: CallId -> Fate, w: nat)
      requires Enabled(fate, Snapshot(), Signal(w))
      modifies this`done, this`workers
      ensures Snapshot() == Apply(fate, old(Snapshot()), Signal(w))
    {
      var c := workers[w].c;
      done := done + {c};
      workers := workers[w := Signalled(c)];
    }

    method GiveBack(ghost fate: CallId -> Fate, w: nat)
      requires Enabled(fate, Snapshot(), Release(w))
      modifies this`free, this`released, this`workers
      ensures Snapshot() == Apply(fate, old(Snapshot()), Release(w))
    {
      released := released + [workers[w].c];
      free := free + 1;
      workers := workers[w := Idle];
    }
  }
}
