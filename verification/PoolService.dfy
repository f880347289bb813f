/** What the deadline pool owes its callers: whom it turns away, in which order it serves
    the others, and that nothing but a call that never returns keeps a permit.
 */
module PoolService {
  import opened DeadlinePool

  /** A call is refused only when every permit is held by another one. */
  lemma RefusedOnlyWhenAllAreHeld(fate: CallId -> Fate, max: nat, acts: seq<Action>, c: CallId)
    requires Runs(fate, Fresh(max), acts) && Enabled(fate, Exec(fate, Fresh(max), acts), Acquire(c))
    ensures var s := Exec(fate, Fresh(max), acts);
            && |Holding(s)| <= max
            && (Apply(fate, s, Acquire(c)).callers[c] == Exhausted <==> |Holding(s)| == max)
            && (c in Accepted(Apply(fate, s, Acquire(c))) <==> |Holding(s)| < max)
  {
    FreshInv(fate, max);
    ExecInv(fate, Fresh(max), acts);
    ExecMax(fate, Fresh(max), acts);
    HoldingSize(Exec(fate, Fresh(max), acts));
  }

  /** Nothing the pool itself could do is left: no accepted call to queue, none to take,
      none to finish, signal or release. */
  ghost predicate Quiet(fate: CallId -> Fate, s: Pool) {
    && (forall c :: !Enabled(fate, s, Enqueue(c)))
    && (forall w :: !Enabled(fate, s, Take(w)) && !Enabled(fate, s, Finish(w)))
    && (forall w :: !Enabled(fate, s, Signal(w)) && !Enabled(fate, s, Release(w)))
  }

  /** The pool never stalls: when nothing more can happen without a new call, the permits
      still held are exactly those of the calls that never return, and all others are
      free again. */
  lemma OnlyWedgesStayHeld(fate: CallId -> Fate, max: nat, acts: seq<Action>)
    requires Runs(fate, Fresh(max), acts) && Quiet(fate, Exec(fate, Fresh(max), acts))
    ensures var s := Exec(fate, Fresh(max), acts);
            Holding(s) == Wedged(fate, s) && s.queue == [] && s.free + |Wedged(fate, s)| == max
  {
    NeverQueuedBehindAWedge(fate, max, acts);
    FreshInv(fate, max);
    ExecInv(fate, Fresh(max), acts);
    ExecMax(fate, Fresh(max), acts);
    var s := Exec(fate, Fresh(max), acts);
    HoldingSize(s);
    HeldWhenQuiet(fate, s);
  }

  lemma HeldWhenQuiet(fate: CallId -> Fate, s: Pool)
    requires Quiet(fate, s) && PlacedOnce(s) && BoxesRight(fate, s) && Conserved(s) && s.queue == []
    ensures Holding(s) == Wedged(fate, s)
  {
    WedgedHold(fate, s);
    forall c ensures c !in Between(s) { assert !Enabled(fate, s, Enqueue(c)); }
    forall c | c in Serving(s.workers) ensures c in Wedged(fate, s) {
      var i :| 0 <= i < |s.workers| && !s.workers[i].Idle? && s.workers[i].c == c;
      BusyWhenQuiet(fate, s, i);
    }
  }

  lemma BusyWhenQuiet(fate: CallId -> Fate, s: Pool, i: nat)
    requires Quiet(fate, s) && i < |s.workers| && !s.workers[i].Idle?
    ensures fate(s.workers[i].c).Wedges?
  {
    assert !Enabled(fate, s, Finish(i)) && !Enabled(fate, s, Signal(i)) && !Enabled(fate, s, Release(i));
  }

  /** `c` stands before `d` in the queue. */
  ghost predicate Before(q: seq<CallId>, c: CallId, d: CallId) {
    exists i, j :: 0 <= i < j < |q| && q[i] == c && q[j] == d
  }

  /** Once off the queue a call never comes back. */
  ghost predicate Left(s: Pool, c: CallId) {
    c in s.callers && s.callers[c] != Acquired && c !in s.queue
  }

  lemma StepOrder(fate: CallId -> Fate, s: Pool, a: Action, c: CallId, d: CallId)
    requires PlacedOnce(s) && Enabled(fate, s, a)
    requires Before(s.queue, c, d) || Left(s, c)
    ensures Before(Apply(fate, s, a).queue, c, d) || Left(Apply(fate, s, a), c)
  {
    if Before(s.queue, c, d) {
      var i, j :| 0 <= i < j < |s.queue| && s.queue[i] == c && s.queue[j] == d;
      assert c in s.queue;
      var t := Apply(fate, s, a);
      if !a.Take? {
        assert t.queue[i] == c && t.queue[j] == d;
      } else if i > 0 {
        assert t.queue[i - 1] == c && t.queue[j - 1] == d;
      } else {
        FirstLeaves(fate, s, a);
      }
    } else {
      StaysGone(fate, s, a, c);
    }
  }

  lemma FirstLeaves(fate: CallId -> Fate, s: Pool, a: Action)
    requires PlacedOnce(s) && Enabled(fate, s, a) && a.Take?
    ensures Left(Apply(fate, s, a), s.queue[0])
  {
    assert s.queue[0] in s.queue;
    DistinctTail(s.queue);
  }

  lemma StaysGone(fate: CallId -> Fate, s: Pool, a: Action, c: CallId)
    requires Enabled(fate, s, a) && Left(s, c)
    ensures Left(Apply(fate, s, a), c)
  {
  }

  lemma {:induction false} RunOrder(fate: CallId -> Fate, s: Pool, more: seq<Action>, c: CallId, d: CallId)
    requires Inv(fate, s) && Runs(fate, s, more)
    requires Before(s.queue, c, d) || Left(s, c)
    ensures var t := Exec(fate, s, more); Before(t.queue, c, d) || Left(t, c)
    decreases |more|
  {
    if more != [] {
      StepInv(fate, s, more[0]);
      StepOrder(fate, s, more[0], c, d);
      RunOrder(fate, Apply(fate, s, more[0]), more[1..], c, d);
    }
  }

  /** Calls are served in the order they are queued: once a call is taken off the queue,
      so is every call that was waiting there when it was put on. */
  lemma FirstQueuedFirstServed(fate: CallId -> Fate, max: nat, acts: seq<Action>, c: CallId, d: CallId, more: seq<Action>)
    requires Runs(fate, Fresh(max), acts)
    requires var s := Exec(fate, Fresh(max), acts);
             Enabled(fate, s, Enqueue(d)) && c in s.queue && Runs(fate, Apply(fate, s, Enqueue(d)), more)
    ensures var t := Exec(fate, Apply(fate, Exec(fate, Fresh(max), acts), Enqueue(d)), more);
            d !in t.queue ==> c !in t.queue
  {
    FreshInv(fate, max);
    ExecInv(fate, Fresh(max), acts);
    var s := Exec(fate, Fresh(max), acts);
    StepInv(fate, s, Enqueue(d));
    var u := Apply(fate, s, Enqueue(d));
    var i :| 0 <= i < |s.queue| && s.queue[i] == c;
    assert u.queue[i] == c && u.queue[|s.queue|] == d;
    RunOrder(fate, u, more, c, d);
  }
}
