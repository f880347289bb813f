/** Racing compiles of one task.  Any number of threads and processes trigger the
    same task; the compare-and-set from `tracing` to `compiling`, the retry counter
    and the reclaim of a stale lease are all that stands between them and an
    unbounded number of paid compiles.
 */
module CompileGuard {

  const MAX_COMPILE_ATTEMPTS := 3

  datatype Status = Tracing | Compiling | Shadow | Ready | Failed

  /** Where a compile worker stands, from winning the compare-and-set to its exit. */
  datatype Phase =
    | Claimed
    | Paying
    | Failing
    | Counted(before: nat)
    | Bumped(advanced: bool, attempts: nat)
    | Settled
    | Gone

  datatype Worker = Worker(process: nat, phase: Phase)

  /** The shared task row, every worker ever started, the number of compiles the
      backend was asked for, each process's thread entry, and all workers that were ever
      entered there. */
  datatype State = State(
    status: Status,
    attempts: nat,
    workers: seq<Worker>,
    paid: nat,
    threads: map<nat, nat>,
    entered: set<nat>)

  datatype Action =
    | Begin(process: nat)
    | Register(w: nat)
    | Pay(w: nat)
    | Succeed(w: nat, target: Status)
    | DeliverThenRaise(w: nat, target: Status)
    | Raise(w: nat)
    | ReadAttempts(w: nat)
    | Bump(w: nat, count: nat)
    | Settle(w: nat)
    | Pop(w: nat)
    | Die(w: nat)
    | Reclaim
    | Promote
    | Demote
    | Lose(count: nat)

  const FRESH := State(Tracing, 0, [], 0, map[], {})

  predicate At(s: State, w: nat) {
    w < |s.workers|
  }

  function Move(s: State, w: nat, p: Phase): State
    requires At(s, w)
  {
    s.(workers := s.workers[w := s.workers[w].(phase := p)])
  }

  predicate Live(p: Phase) {
    !p.Settled? && !p.Gone?
  }

  /* `Pop` is the worker's last clause, which runs however the worker ends: also when the
     failure branch itself raises, or on an interrupt that branch does not catch.  `Die`
     is a worker that never gets there. */

  /** The actions a worker takes after registering, each of which moves its phase. */
  predicate MovesWorker(a: Action) {
    a.Pay? || a.Succeed? || a.DeliverThenRaise? || a.Raise? || a.ReadAttempts? || a.Bump? || a.Settle? || a.Pop? || a.Die?
  }

  predicate Enabled(s: State, a: Action) {
    match a
    case Begin(_) => true
    case Register(w) => At(s, w) && s.workers[w].phase.Claimed?
    case Pay(w) => At(s, w) && s.workers[w].phase.Claimed?
    case Succeed(w, t) => At(s, w) && s.workers[w].phase.Paying? && (t == Shadow || t == Ready)
    case DeliverThenRaise(w, t) => At(s, w) && s.workers[w].phase.Paying? && (t == Shadow || t == Ready)
    case Raise(w) => At(s, w) && (s.workers[w].phase.Claimed? || s.workers[w].phase.Paying?)
    case ReadAttempts(w) => At(s, w) && s.workers[w].phase.Failing?
    case Bump(w, _) => At(s, w) && s.workers[w].phase.Counted?
    case Settle(w) => At(s, w) && s.workers[w].phase.Bumped?
    case Pop(w) => At(s, w) && !s.workers[w].phase.Gone?
    case Die(w) => At(s, w) && !s.workers[w].phase.Gone?
    case Reclaim => s.status == Compiling
    case Promote => s.status == Shadow
    case Demote => s.status == Ready
    case Lose(n) => n < s.attempts
  }

  /** Only `tracing` may be claimed; any other status turns the trigger away. */
  function TryBegin(s: State, process: nat): State {
    if s.status == Tracing
    then s.(status := Compiling, workers := s.workers + [Worker(process, Claimed)])
    else s
  }

  /** The status a failed attempt leaves behind. */
  function AfterFailure(advanced: bool, attempts: nat): Status {
    if advanced && attempts < MAX_COMPILE_ATTEMPTS then Tracing else Failed
  }

  /** The lease is taken back and the attempt is charged in the same transaction. */
  function ReclaimStale(s: State): State
    requires s.status == Compiling
  {
    var n := s.attempts + 1;
    s.(attempts := n, status := if n >= MAX_COMPILE_ATTEMPTS then Failed else Tracing)
  }

  function Apply(s: State, a: Action): State
    requires Enabled(s, a)
  {
    match a
    case Begin(p) => TryBegin(s, p)
    case Register(w) =>
      var p := s.workers[w].process;
      s.(threads := s.threads[p := w], entered := s.entered + {w})
    case Pay(w) => Move(s, w, Paying).(paid := s.paid + 1)
    case Succeed(w, t) => Move(s, w, Settled).(status := t)
    case DeliverThenRaise(w, t) => Move(s, w, Failing).(status := t)
    case Raise(w) => Move(s, w, Failing)
    case ReadAttempts(w) => Move(s, w, Counted(s.attempts))
    case Bump(w, n) => Move(s, w, Bumped(n > s.workers[w].phase.before, n)).(attempts := n)
    case Settle(w) =>
      var p := s.workers[w].phase;
      Move(s, w, Settled).(status := AfterFailure(p.advanced, p.attempts))
    case Pop(w) => Move(s, w, Gone).(threads := s.threads - {s.workers[w].process})
    case Die(w) => Move(s, w, Gone)
    case Reclaim => ReclaimStale(s)
    case Promote => s.(status := Ready)
    case Demote => s.(status := Shadow)
    case Lose(n) => s.(attempts := n)
  }

  predicate Runs(s: State, acts: seq<Action>)
    decreases |acts|
  {
    acts == [] || (Enabled(s, acts[0]) && Runs(Apply(s, acts[0]), acts[1..]))
  }

  function Exec(s: State, acts: seq<Action>): State
    requires Runs(s, acts)
    decreases |acts|
  {
    if acts == [] then s else Exec(Apply(s, acts[0]), acts[1..])
  }

  /** The counter the trace database keeps: one more at every increment. */
  predicate CountsUp(s: State, a: Action)
  {
    !a.Lose? && (a.Bump? ==> a.count == s.attempts + 1)
  }

  /** A lease is reclaimed early when a compile is still in progress. */
  predicate EarlyReclaim(s: State, a: Action) {
    a.Reclaim? && InProgress(s) > 0
  }

  /** A delivery that is committed and raises afterwards sends its worker into the
      failure branch although the task has been delivered. */
  predicate Slips(s: State, a: Action) {
    EarlyReclaim(s, a) || a.DeliverThenRaise?
  }

  /** A trigger that wins the task while another compile of it is still going. */
  predicate ClaimsBeside(s: State, a: Action) {
    a.Begin? && s.status == Tracing && InProgress(s) > 0
  }

  predicate AllCountUp(s: State, acts: seq<Action>)
    requires Runs(s, acts)
    decreases |acts|
  {
    acts == [] || (CountsUp(s, acts[0]) && AllCountUp(Apply(s, acts[0]), acts[1..]))
  }

  predicate NeverSlips(s: State, acts: seq<Action>)
    requires Runs(s, acts)
    decreases |acts|
  {
    acts == [] || (!Slips(s, acts[0]) && NeverSlips(Apply(s, acts[0]), acts[1..]))
  }

  predicate NoEarlyReclaim(s: State, acts: seq<Action>)
    requires Runs(s, acts)
    decreases |acts|
  {
    acts == [] || (!EarlyReclaim(s, acts[0]) && NoEarlyReclaim(Apply(s, acts[0]), acts[1..]))
  }

  predicate NeverClaimsBeside(s: State, acts: seq<Action>)
    requires Runs(s, acts)
    decreases |acts|
  {
    acts == [] || (!ClaimsBeside(s, acts[0]) && NeverClaimsBeside(Apply(s, acts[0]), acts[1..]))
  }

  /* Counting workers. */

  function CountLive(ws: seq<Worker>): nat {
    if ws == [] then 0 else (if Live(ws[0].phase) then 1 else 0) + CountLive(ws[1..])
  }

  function InProgress(s: State): nat { CountLive(s.workers) }

  /** A worker about to hand the task back to `tracing`. */
  predicate WillRetry(p: Phase) {
    p.Bumped? && AfterFailure(p.advanced, p.attempts) == Tracing
  }

  function CountRetry(ws: seq<Worker>): nat {
    if ws == [] then 0 else (if WillRetry(ws[0].phase) then 1 else 0) + CountRetry(ws[1..])
  }

  /** A worker that has not asked the backend for its compile yet. */
  function CountUnpaid(ws: seq<Worker>): nat {
    if ws == [] then 0 else (if ws[0].phase.Claimed? then 1 else 0) + CountUnpaid(ws[1..])
  }

  lemma {:induction false} CountMove(ws: seq<Worker>, w: nat, x: Worker)
    requires w < |ws|
    ensures var B := (b: bool) => if b then 1 else 0;
            && CountLive(ws[w := x]) == CountLive(ws) - B(Live(ws[w].phase)) + B(Live(x.phase))
            && CountRetry(ws[w := x]) == CountRetry(ws) - B(WillRetry(ws[w].phase)) + B(WillRetry(x.phase))
            && CountUnpaid(ws[w := x]) == CountUnpaid(ws) - B(ws[w].phase.Claimed?) + B(x.phase.Claimed?)
  {
    if w == 0 {
      assert ws[w := x][1..] == ws[1..];
    } else {
      assert ws[w := x][1..] == ws[1..][w - 1 := x];
      CountMove(ws[1..], w - 1, x);
    }
  }

  lemma {:induction false} CountClaim(ws: seq<Worker>, p: nat)
    ensures CountLive(ws + [Worker(p, Claimed)]) == CountLive(ws) + 1
    ensures CountRetry(ws + [Worker(p, Claimed)]) == CountRetry(ws)
    ensures CountUnpaid(ws + [Worker(p, Claimed)]) == CountUnpaid(ws) + 1
  {
    var x := Worker(p, Claimed);
    if ws == [] {
      assert [x][1..] == [];
      assert ws + [x] == [x];
    } else {
      assert (ws + [x])[1..] == ws[1..] + [x];
      CountClaim(ws[1..], p);
    }
  }

  lemma {:induction false} LiveOne(ws: seq<Worker>, w: nat)
    requires w < |ws| && Live(ws[w].phase)
    ensures CountLive(ws) >= 1
    ensures forall v: nat :: v < |ws| && v != w && Live(ws[v].phase) ==> CountLive(ws) >= 2
  {
    forall v: nat | v < |ws| && v != w && Live(ws[v].phase) ensures CountLive(ws) >= 2 {
      LiveTwo(ws, v, w);
    }
    CountMove(ws, w, ws[w].(phase := Gone));
  }

  lemma LiveTwo(ws: seq<Worker>, v: nat, w: nat)
    requires v < |ws| && w < |ws| && v != w && Live(ws[v].phase) && Live(ws[w].phase)
    ensures CountLive(ws) >= 2
  {
    var x := ws[w].(phase := Gone);
    CountMove(ws, w, x);
    CountMove(ws[w := x], v, ws[v].(phase := Gone));
  }

  /* The retry budget. */

  function Cap(attempts: nat): nat { if attempts < 2 then attempts else 2 }

  /** Every claim spends one of the permits that `tracing` stands for, and each
      permit after the first is backed by its own value of the counter. */
  predicate Budgeted(s: State) {
    && s.paid + CountUnpaid(s.workers) <= |s.workers|
    && |s.workers| + (if s.status == Tracing then 1 else 0) + CountRetry(s.workers) <= 1 + Cap(s.attempts)
  }

  lemma StepBudget(s: State, a: Action)
    requires Budgeted(s) && Enabled(s, a) && CountsUp(s, a)
    ensures Budgeted(Apply(s, a))
  {
    if a.Begin? {
      CountClaim(s.workers, a.process);
    } else if MovesWorker(a) {
      var t := Apply(s, a);
      CountMove(s.workers, a.w, t.workers[a.w]);
    }
  }

  lemma {:induction false} ExecBudget(s: State, acts: seq<Action>)
    requires Budgeted(s) && Runs(s, acts) && AllCountUp(s, acts)
    ensures Budgeted(Exec(s, acts))
    decreases |acts|
  {
    if acts != [] {
      StepBudget(s, acts[0]);
      ExecBudget(Apply(s, acts[0]), acts[1..]);
    }
  }

  /** With the database's own counter no run, however many threads and processes
      trigger the task, however many die and whenever their leases are reclaimed,
      asks the backend for more than three compiles. */
  lemma AtMostThreePaidCompiles(acts: seq<Action>)
    requires Runs(FRESH, acts) && AllCountUp(FRESH, acts)
    ensures Exec(FRESH, acts).paid <= |Exec(FRESH, acts).workers| <= MAX_COMPILE_ATTEMPTS
  {
    ExecBudget(FRESH, acts);
  }

  /* One compile at a time. */

  predicate Exclusive(s: State) {
    InProgress(s) <= 1 && (InProgress(s) > 0 ==> s.status == Compiling)
  }

  predicate AlwaysExclusive(s: State, acts: seq<Action>)
    requires Runs(s, acts)
    decreases |acts|
  {
    Exclusive(s) && (acts == [] || AlwaysExclusive(Apply(s, acts[0]), acts[1..]))
  }

  lemma StepExclusive(s: State, a: Action)
    requires Exclusive(s) && Enabled(s, a)
    ensures Exclusive(Apply(s, a)) <==> !Slips(s, a)
  {
    if a.Begin? {
      CountClaim(s.workers, a.process);
    } else if MovesWorker(a) {
      var t := Apply(s, a);
      CountMove(s.workers, a.w, t.workers[a.w]);
      if Live(s.workers[a.w].phase) { LiveOne(s.workers, a.w); }
    }
  }

  /** At most one compile of the task is in progress in every state of a run, and a
      task whose compile is in progress reads `compiling`, exactly when no lease is
      reclaimed from under a compile that is still going and no delivery raises after
      it was committed. */
  lemma {:induction false} OneCompileAtATime(s: State, acts: seq<Action>)
    requires Exclusive(s) && Runs(s, acts)
    ensures AlwaysExclusive(s, acts) <==> NeverSlips(s, acts)
    decreases |acts|
  {
    if acts != [] {
      StepExclusive(s, acts[0]);
      if !Slips(s, acts[0]) {
        OneCompileAtATime(Apply(s, acts[0]), acts[1..]);
      } else {
        assert !AlwaysExclusive(Apply(s, acts[0]), acts[1..]);
      }
    }
  }

  predicate NeverTwo(s: State, acts: seq<Action>)
    requires Runs(s, acts)
    decreases |acts|
  {
    InProgress(s) <= 1 && (acts == [] || NeverTwo(Apply(s, acts[0]), acts[1..]))
  }

  lemma StepOne(s: State, a: Action)
    requires InProgress(s) <= 1 && Enabled(s, a)
    ensures InProgress(Apply(s, a)) <= 1 <==> !ClaimsBeside(s, a)
  {
    if a.Begin? {
      CountClaim(s.workers, a.process);
    } else if MovesWorker(a) {
      CountMove(s.workers, a.w, Apply(s, a).workers[a.w]);
    }
  }

  /** Two compiles of the task are never in progress at once exactly when no trigger
      finds the task in `tracing` while a compile of it is still going. */
  lemma {:induction false} NeverTwoCompiles(s: State, acts: seq<Action>)
    requires InProgress(s) <= 1 && Runs(s, acts)
    ensures NeverTwo(s, acts) <==> NeverClaimsBeside(s, acts)
    decreases |acts|
  {
    if acts != [] {
      StepOne(s, acts[0]);
      if !ClaimsBeside(s, acts[0]) {
        NeverTwoCompiles(Apply(s, acts[0]), acts[1..]);
      } else {
        assert !NeverTwo(Apply(s, acts[0]), acts[1..]);
      }
    }
  }

  /** One compile at most, and no trigger can win the task beside it. */
  predicate Guarded(s: State) {
    InProgress(s) <= 1 && (InProgress(s) > 0 ==> s.status != Tracing)
  }

  lemma StepGuarded(s: State, a: Action)
    requires Guarded(s) && Enabled(s, a) && !EarlyReclaim(s, a)
    ensures Guarded(Apply(s, a)) && !ClaimsBeside(s, a)
  {
    if a.Begin? {
      CountClaim(s.workers, a.process);
    } else if MovesWorker(a) {
      CountMove(s.workers, a.w, Apply(s, a).workers[a.w]);
      if Live(s.workers[a.w].phase) { LiveOne(s.workers, a.w); }
    }
  }

  /** Only a lease reclaimed from under a live compile can lead to a second one beside
      it: a delivery that raises late cannot. */
  lemma {:induction false} OverlapNeedsAnEarlyReclaim(s: State, acts: seq<Action>)
    requires Guarded(s) && Runs(s, acts) && NoEarlyReclaim(s, acts)
    ensures NeverClaimsBeside(s, acts) && NeverTwo(s, acts)
    decreases |acts|
  {
    if acts != [] {
      StepGuarded(s, acts[0]);
      OverlapNeedsAnEarlyReclaim(Apply(s, acts[0]), acts[1..]);
    }
  }

  /** Reclaiming the lease of a slow compile buys a second one beside it, and when the
      second fails it takes back the adapter the first has already delivered. */
  lemma SlowCompileOverlaps()
    ensures var acts := [Begin(0), Pay(0), Reclaim, Begin(1), Pay(1)];
            && Runs(FRESH, acts)
            && InProgress(Exec(FRESH, acts)) == 2
            && var late := [Succeed(0, Shadow), Raise(1), ReadAttempts(1), Bump(1, 2), Settle(1)];
            && Runs(Exec(FRESH, acts), late)
            && Exec(Exec(FRESH, acts), late[..1]).status == Shadow
            && Exec(Exec(FRESH, acts), late).status == Tracing
  {
    var a, b := Worker(0, Claimed), Worker(1, Claimed);
    var a', b' := Worker(0, Paying), Worker(1, Paying);
    var acts := [Begin(0), Pay(0), Reclaim, Begin(1), Pay(1)];
    var s1 := State(Compiling, 0, [a], 0, map[], {});
    assert Apply(FRESH, acts[0]) == s1;
    var s2 := State(Compiling, 0, [a'], 1, map[], {});
    assert Apply(s1, acts[1..][0]) == s2;
    var s3 := State(Tracing, 1, [a'], 1, map[], {});
    assert Apply(s2, acts[1..][1..][0]) == s3;
    var s4 := State(Compiling, 1, [a', b], 1, map[], {});
    assert Apply(s3, acts[1..][1..][1..][0]) == s4;
    var s5 := State(Compiling, 1, [a', b'], 2, map[], {});
    assert Apply(s4, acts[1..][1..][1..][1..][0]) == s5;
    assert acts[1..][1..][1..][1..][1..] == [];
    assert Exec(FRESH, acts) == s5;
    assert s5.workers[1..] == [b'] && [b'][1..] == [];
    LateFailure(s5);
  }

  lemma LateFailure(s: State)
    requires s == State(Compiling, 1, [Worker(0, Paying), Worker(1, Paying)], 2, map[], {})
    ensures var late := [Succeed(0, Shadow), Raise(1), ReadAttempts(1), Bump(1, 2), Settle(1)];
            && Runs(s, late) && Exec(s, late[..1]).status == Shadow && Exec(s, late).status == Tracing
  {
    var late := [Succeed(0, Shadow), Raise(1), ReadAttempts(1), Bump(1, 2), Settle(1)];
    var d := Worker(0, Settled);
    var s1 := State(Shadow, 1, [d, Worker(1, Paying)], 2, map[], {});
    assert Apply(s, late[0]) == s1;
    assert late[..1][1..] == [];
    assert Exec(s, late[..1]) == s1;
    var s2 := State(Shadow, 1, [d, Worker(1, Failing)], 2, map[], {});
    assert Apply(s1, late[1..][0]) == s2;
    var s3 := State(Shadow, 1, [d, Worker(1, Counted(1))], 2, map[], {});
    assert Apply(s2, late[1..][1..][0]) == s3;
    var s4 := State(Shadow, 2, [d, Worker(1, Bumped(true, 2))], 2, map[], {});
    assert Apply(s3, late[1..][1..][1..][0]) == s4;
    var s5 := State(Tracing, 2, [d, Worker(1, Settled)], 2, map[], {});
    assert Apply(s4, late[1..][1..][1..][1..][0]) == s5;
    assert late[1..][1..][1..][1..][1..] == [];
  }

  /** A delivery that raises after it was committed is taken back by its own worker,
      whenever an attempt is left. */
  lemma DeliveredAndTakenBack(s: State, w: nat, target: Status)
    requires At(s, w) && s.workers[w].phase.Paying? && (target == Shadow || target == Ready)
    requires s.attempts + 1 < MAX_COMPILE_ATTEMPTS
    ensures Enabled(s, DeliverThenRaise(w, target)) && Apply(s, DeliverThenRaise(w, target)).status == target
    ensures var t := Apply(s, DeliverThenRaise(w, target));
            var late := [ReadAttempts(w), Bump(w, s.attempts + 1), Settle(w)];
            Runs(t, late) && AllCountUp(t, late) && Exec(t, late).status == Tracing
  {
    var t := Apply(s, DeliverThenRaise(w, target));
    var t1 := Apply(t, ReadAttempts(w));
    var t2 := Apply(t1, Bump(w, s.attempts + 1));
    Cons(t2, Settle(w), []);
    Cons(t1, Bump(w, s.attempts + 1), [Settle(w)]);
    Cons(t, ReadAttempts(w), [Bump(w, s.attempts + 1), Settle(w)]);
  }

  /* The bound without trusting the counter. */

  /** The counter goes backwards, in an increment or between two. */
  predicate SetsBack(s: State, a: Action)
    requires Enabled(s, a)
  {
    Apply(s, a).attempts < s.attempts
  }

  /** An increment that did not raise the counter and earns a retry as if it had, because
      somebody else charged an attempt after this worker last read it. */
  predicate LooksAdvanced(s: State, a: Action)
    requires Enabled(s, a)
  {
    a.Bump? && s.workers[a.w].phase.before < a.count <= s.attempts && a.count < MAX_COMPILE_ATTEMPTS
  }

  function Setbacks(s: State, acts: seq<Action>): nat
    requires Runs(s, acts)
    decreases |acts|
  {
    if acts == [] then 0
    else (if SetsBack(s, acts[0]) then 1 else 0) + Setbacks(Apply(s, acts[0]), acts[1..])
  }

  function Mistaken(s: State, acts: seq<Action>): nat
    requires Runs(s, acts)
    decreases |acts|
  {
    if acts == [] then 0
    else (if LooksAdvanced(s, acts[0]) then 1 else 0) + Mistaken(Apply(s, acts[0]), acts[1..])
  }

  predicate BudgetedBut(s: State, extra: nat) {
    && s.paid + CountUnpaid(s.workers) <= |s.workers|
    && |s.workers| + (if s.status == Tracing then 1 else 0) + CountRetry(s.workers) <= 1 + Cap(s.attempts) + extra
  }

  function Extra(s: State, a: Action): nat
    requires Enabled(s, a)
  {
    (if SetsBack(s, a) then 2 else 0) + if LooksAdvanced(s, a) then 1 else 0
  }

  lemma StepBudgetBut(s: State, a: Action, extra: nat)
    requires Enabled(s, a) && BudgetedBut(s, extra)
    ensures BudgetedBut(Apply(s, a), extra + Extra(s, a))
  {
    if a.Begin? {
      CountClaim(s.workers, a.process);
    } else if MovesWorker(a) {
      var t := Apply(s, a);
      CountMove(s.workers, a.w, t.workers[a.w]);
    }
  }

  lemma {:induction false} ExecBudgetBut(s: State, acts: seq<Action>, extra: nat)
    requires BudgetedBut(s, extra) && Runs(s, acts)
    ensures BudgetedBut(Exec(s, acts), extra + 2 * Setbacks(s, acts) + Mistaken(s, acts))
    decreases |acts|
  {
    if acts != [] {
      StepBudgetBut(s, acts[0], extra);
      ExecBudgetBut(Apply(s, acts[0]), acts[1..], extra + Extra(s, acts[0]));
    }
  }

  /** Whatever the counter does, in every run: the compiles paid for are at most three,
      plus two for every time the counter went backwards, plus one for every increment
      that only seemed to advance it. */
  lemma BoundedBySetbacks(acts: seq<Action>)
    requires Runs(FRESH, acts)
    ensures Exec(FRESH, acts).paid <= MAX_COMPILE_ATTEMPTS + 2 * Setbacks(FRESH, acts) + Mistaken(FRESH, acts)
  {
    ExecBudgetBut(FRESH, acts, 0);
  }

  /** What a run costs, told from its start, and what it leaves. */
  ghost predicate Costs(s: State, acts: seq<Action>, setbacks: nat, mistakes: nat, attempts: nat, paid: nat) {
    && Runs(s, acts) && Setbacks(s, acts) == setbacks && Mistaken(s, acts) == mistakes
    && var t := Exec(s, acts); t.status == Tracing && t.attempts == attempts && t.paid == paid
  }

  lemma {:induction false} RunOn(s: State, a: seq<Action>, b: seq<Action>)
    requires Runs(s, a) && Runs(Exec(s, a), b)
    ensures Runs(s, a + b) && Exec(s, a + b) == Exec(Exec(s, a), b)
    ensures Setbacks(s, a + b) == Setbacks(s, a) + Setbacks(Exec(s, a), b)
    ensures Mistaken(s, a + b) == Mistaken(s, a) + Mistaken(Exec(s, a), b)
    decreases |a|
  {
    if a == [] {
      assert a + b == b;
    } else {
      assert (a + b)[1..] == a[1..] + b;
      RunOn(Apply(s, a[0]), a[1..], b);
    }
  }

  /** One more step. */
  lemma Then(s: State, acts: seq<Action>, a: Action) returns (more: seq<Action>)
    requires Runs(s, acts) && Enabled(Exec(s, acts), a)
    ensures var t := Exec(s, acts);
            && Runs(s, more) && Exec(s, more) == Apply(t, a)
            && Setbacks(s, more) == Setbacks(s, acts) + (if SetsBack(t, a) then 1 else 0)
            && Mistaken(s, more) == Mistaken(s, acts) + (if LooksAdvanced(t, a) then 1 else 0)
  {
    var t := Exec(s, acts);
    assert [a][1..] == [];
    assert Runs(Apply(t, a), []) && Exec(Apply(t, a), []) == Apply(t, a);
    RunOn(s, acts, [a]);
    more := acts + [a];
  }

  /** A new worker takes the task and asks the backend. */
  lemma StartsOne(s: State, acts: seq<Action>) returns (more: seq<Action>)
    requires Runs(s, acts) && Exec(s, acts).status == Tracing
    ensures Runs(s, more) && Setbacks(s, more) == Setbacks(s, acts) && Mistaken(s, more) == Mistaken(s, acts)
    ensures var t := Exec(s, acts);
            Exec(s, more) == t.(status := Compiling, paid := t.paid + 1, workers := t.workers + [Worker(0, Paying)])
  {
    var t := Exec(s, acts);
    var w := |t.workers|;
    more := Then(s, acts, Begin(0));
    more := Then(s, more, Pay(w));
    assert Exec(s, more).workers == t.workers + [Worker(0, Paying)];
  }

  /** It fails and reads the counter. */
  lemma ReadsCounter(s: State, acts: seq<Action>, w: nat) returns (more: seq<Action>)
    requires Runs(s, acts) && At(Exec(s, acts), w) && Exec(s, acts).workers[w].phase.Paying?
    ensures Runs(s, more) && Setbacks(s, more) == Setbacks(s, acts) && Mistaken(s, more) == Mistaken(s, acts)
    ensures var t := Exec(s, acts); Exec(s, more) == Move(t, w, Counted(t.attempts))
  {
    var t := Exec(s, acts);
    more := Then(s, acts, Raise(w));
    more := Then(s, more, ReadAttempts(w));
    assert Exec(s, more).workers == Move(t, w, Counted(t.attempts)).workers;
  }

  /** It increments to `count`, which looks advanced, and hands the task back. */
  lemma HandsBack(s: State, acts: seq<Action>, w: nat, count: nat) returns (more: seq<Action>)
    requires Runs(s, acts) && At(Exec(s, acts), w) && Exec(s, acts).workers[w].phase.Counted?
    requires var t := Exec(s, acts);
             t.workers[w].phase.before < count && t.attempts <= count && count < MAX_COMPILE_ATTEMPTS
    ensures Runs(s, more) && Setbacks(s, more) == Setbacks(s, acts)
    ensures Mistaken(s, more) == Mistaken(s, acts) + if count == Exec(s, acts).attempts then 1 else 0
    ensures var t := Exec(s, acts);
            Exec(s, more) == Move(t, w, Settled).(status := Tracing, attempts := count)
  {
    var t := Exec(s, acts);
    more := Then(s, acts, Bump(w, count));
    more := Then(s, more, Settle(w));
    assert Exec(s, more).workers == Move(t, w, Settled).workers;
  }

  lemma FailsOnce(s: State, acts: seq<Action>) returns (more: seq<Action>)
    requires Runs(s, acts)
    requires var t := Exec(s, acts); t.status == Tracing && t.attempts + 1 < MAX_COMPILE_ATTEMPTS
    ensures var t := Exec(s, acts);
            Costs(s, more, Setbacks(s, acts), Mistaken(s, acts), t.attempts + 1, t.paid + 1)
  {
    var t := Exec(s, acts);
    more := StartsOne(s, acts);
    more := ReadsCounter(s, more, |t.workers|);
    more := HandsBack(s, more, |t.workers|, t.attempts + 1);
  }

  /** A worker that has read 0 finds its lease reclaimed and a successor paying before it
      increments: its increment stores the 1 that the reclaim had stored already. */
  lemma MistakenOnce(s: State, acts: seq<Action>) returns (more: seq<Action>)
    requires Runs(s, acts)
    requires var t := Exec(s, acts); t.status == Tracing && t.attempts == 0
    ensures var t := Exec(s, acts); Costs(s, more, Setbacks(s, acts), Mistaken(s, acts) + 1, 1, t.paid + 2)
  {
    var t := Exec(s, acts);
    var w := |t.workers|;
    more := StartsOne(s, acts);
    more := ReadsCounter(s, more, w);
    more := Then(s, more, Reclaim);
    more := StartsOne(s, more);
    more := HandsBack(s, more, w, 1);
  }

  /** From a counter at 0 to one at 2, with a mistaken increment on the way or without. */
  lemma Round(s: State, acts: seq<Action>, mistaken: bool) returns (more: seq<Action>)
    requires Runs(s, acts)
    requires var t := Exec(s, acts); t.status == Tracing && t.attempts == 0
    ensures var t, m := Exec(s, acts), if mistaken then 1 else 0;
            Costs(s, more, Setbacks(s, acts), Mistaken(s, acts) + m, 2, t.paid + 2 + m)
  {
    if mistaken { more := MistakenOnce(s, acts); } else { more := FailsOnce(s, acts); }
    more := FailsOnce(s, more);
  }

  lemma {:induction false} Rounds(setbacks: nat, mistakes: nat) returns (acts: seq<Action>)
    requires mistakes <= setbacks + 1
    ensures Costs(FRESH, acts, setbacks, mistakes, 2, 2 + 2 * setbacks + mistakes)
    decreases setbacks
  {
    if setbacks == 0 {
      acts := Round(FRESH, [], mistakes == 1);
    } else {
      var last := mistakes > setbacks;
      acts := Rounds(setbacks - 1, if last then mistakes - 1 else mistakes);
      acts := Then(FRESH, acts, Lose(0));
      acts := Round(FRESH, acts, last);
    }
  }

  /** The bound is reached, in both of its terms: for every number of setbacks, and of
      mistaken increments up to one more than that, a run pays for exactly as many
      compiles as it allows. */
  lemma BoundIsReached(setbacks: nat, mistakes: nat) returns (acts: seq<Action>)
    requires mistakes <= setbacks + 1
    ensures Runs(FRESH, acts) && Setbacks(FRESH, acts) == setbacks && Mistaken(FRESH, acts) == mistakes
    ensures Exec(FRESH, acts).paid == MAX_COMPILE_ATTEMPTS + 2 * setbacks + mistakes
  {
    acts := Rounds(setbacks, mistakes);
    acts := StartsOne(FRESH, acts);
  }

  /** A failed attempt whose increment did not advance ends in `failed`, and when no
      other compile is going no later run starts another one. */
  lemma StuckCounterFailsClosed(s: State, w: nat, count: nat, more: seq<Action>)
    requires InProgress(s) <= 1 && Enabled(s, Bump(w, count)) && count <= s.workers[w].phase.before
    requires var t := Apply(Apply(s, Bump(w, count)), Settle(w)); Runs(t, more)
    ensures var t := Apply(Apply(s, Bump(w, count)), Settle(w));
            && t.status == Failed
            && Exec(t, more).status == Failed && Exec(t, more).paid == s.paid
            && |Exec(t, more).workers| == |s.workers|
  {
    var u := Apply(s, Bump(w, count));
    var t := Apply(u, Settle(w));
    CountMove(s.workers, w, u.workers[w]);
    CountMove(u.workers, w, t.workers[w]);
    FailedIsFinal(t, more);
  }

  /** From `failed`, with no compile going, no run ever starts or pays for one. */
  lemma {:induction false} FailedIsFinal(s: State, acts: seq<Action>)
    requires InProgress(s) == 0 && s.status == Failed && Runs(s, acts)
    ensures Exec(s, acts).status == Failed && Exec(s, acts).paid == s.paid
    ensures |Exec(s, acts).workers| == |s.workers|
    decreases |acts|
  {
    if acts != [] {
      var a := acts[0];
      if MovesWorker(a) {
        if Live(s.workers[a.w].phase) { LiveOne(s.workers, a.w); }
        CountMove(s.workers, a.w, Apply(s, a).workers[a.w]);
      }
      FailedIsFinal(Apply(s, a), acts[1..]);
    }
  }

  predicate Delivered(s: State) { s.status == Shadow || s.status == Ready }

  predicate GateMoves(a: Action) { a.Promote? || a.Demote? }

  lemma StepDelivered(s: State, a: Action)
    requires InProgress(s) == 0 && Delivered(s) && Enabled(s, a)
    ensures InProgress(Apply(s, a)) == 0 && Delivered(Apply(s, a)) && Apply(s, a).paid == s.paid
    ensures !GateMoves(a) ==> Apply(s, a).status == s.status
  {
    if MovesWorker(a) {
      if Live(s.workers[a.w].phase) { LiveOne(s.workers, a.w); }
      CountMove(s.workers, a.w, Apply(s, a).workers[a.w]);
    }
  }

  lemma {:induction false} RunDelivered(s: State, acts: seq<Action>)
    requires InProgress(s) == 0 && Delivered(s) && Runs(s, acts)
    ensures Delivered(Exec(s, acts)) && Exec(s, acts).paid == s.paid
    ensures (forall i :: 0 <= i < |acts| ==> !GateMoves(acts[i])) ==> Exec(s, acts).status == s.status
    decreases |acts|
  {
    if acts != [] {
      StepDelivered(s, acts[0]);
      RunDelivered(Apply(s, acts[0]), acts[1..]);
      if forall i :: 0 <= i < |acts| ==> !GateMoves(acts[i]) {
        assert forall i :: 0 <= i < |acts[1..]| ==> acts[1..][i] == acts[i + 1];
      }
    }
  }

  /** A compile that delivers while no other is going settles the task: it is in the
      status delivered to, stays there until the gate moves it, and no later trigger,
      reclaim or counter change takes it out of service or pays for another compile. */
  lemma DeliveryStands(s: State, w: nat, target: Status, more: seq<Action>)
    requires InProgress(s) == 1 && Enabled(s, Succeed(w, target)) && Runs(Apply(s, Succeed(w, target)), more)
    ensures var t := Exec(Apply(s, Succeed(w, target)), more);
            && (t.status == Shadow || t.status == Ready) && t.paid == s.paid
            && ((forall i :: 0 <= i < |more| ==> !GateMoves(more[i])) ==> t.status == target)
  {
    var u := Apply(s, Succeed(w, target));
    CountMove(s.workers, w, u.workers[w]);
    RunDelivered(u, more);
  }

  /** With a compile still going `failed` is not final: its worker may deliver. */
  lemma LateDeliveryRevives(s: State, w: nat)
    requires s.status == Failed && At(s, w) && s.workers[w].phase.Paying?
    ensures Enabled(s, Succeed(w, Shadow)) && Apply(s, Succeed(w, Shadow)).status == Shadow
  {
  }

  /* The in-process view. */

  predicate Alive(s: State, w: nat) {
    At(s, w) && !s.workers[w].phase.Gone?
  }

  /** What `is_compiling` reports for a process. */
  predicate IsCompiling(s: State, process: nat) {
    process in s.threads && Alive(s, s.threads[process])
  }

  /** What it should report: some compile thread of the process is still running. */
  ghost predicate HasCompileThread(s: State, process: nat) {
    exists w :: w in s.entered && RunsFor(s, w, process)
  }

  predicate RunsFor(s: State, w: nat, process: nat) {
    Alive(s, w) && s.workers[w].process == process
  }

  ghost predicate ReportsRight(s: State) {
    forall p: nat :: IsCompiling(s, p) <==> HasCompileThread(s, p)
  }

  /** Entries are workers of their own process. */
  ghost predicate EntriesOk(s: State) {
    && (forall w :: w in s.entered ==> At(s, w))
    && (forall p :: p in s.threads ==> s.threads[p] in s.entered && s.workers[s.threads[p]].process == p)
  }

  /** Another compile thread of the same process is still running. */
  ghost predicate HasSibling(s: State, w: nat)
    requires At(s, w)
  {
    exists u :: u in s.entered && u != w && RunsFor(s, u, s.workers[w].process)
  }

  /** A worker drops its process's entry, or dies while it is the one entered, and leaves
      another compile thread of the process running. */
  ghost predicate LosesSibling(s: State, a: Action)
    requires Enabled(s, a)
  {
    && (a.Pop? || (a.Die? && s.workers[a.w].process in s.threads && s.threads[s.workers[a.w].process] == a.w))
    && HasSibling(s, a.w)
  }

  lemma StepEntries(s: State, a: Action)
    requires EntriesOk(s) && Enabled(s, a)
    ensures EntriesOk(Apply(s, a))
  {
  }

  lemma ReportedRuns(s: State, p: nat)
    requires EntriesOk(s) && IsCompiling(s, p)
    ensures HasCompileThread(s, p)
  {
    assert RunsFor(s, s.threads[p], p);
  }

  /** A step that ends no worker: whatever was reported still is. */
  lemma QuietReports(s: State, a: Action, p: nat)
    requires EntriesOk(s) && ReportsRight(s) && Enabled(s, a) && !a.Pop? && !a.Die?
    requires HasCompileThread(Apply(s, a), p)
    ensures IsCompiling(Apply(s, a), p)
  {
    var t := Apply(s, a);
    var w :| w in t.entered && RunsFor(t, w, p);
    if !(a.Register? && a.w == w) {
      assert w in s.entered && RunsFor(s, w, p);
      assert HasCompileThread(s, p);
    }
  }

  /** A step that ends worker `a.w`. */
  lemma EndReports(s: State, a: Action, p: nat)
    requires EntriesOk(s) && ReportsRight(s) && Enabled(s, a) && (a.Pop? || a.Die?)
    ensures HasCompileThread(Apply(s, a), p) && !IsCompiling(Apply(s, a), p)
            <==> LosesSibling(s, a) && p == s.workers[a.w].process
  {
    var t := Apply(s, a);
    if LosesSibling(s, a) && p == s.workers[a.w].process {
      var u :| u in s.entered && u != a.w && RunsFor(s, u, p);
      assert RunsFor(t, u, p);
    }
    if HasCompileThread(t, p) && !IsCompiling(t, p) {
      var u :| u in t.entered && RunsFor(t, u, p);
      assert RunsFor(s, u, p) && u != a.w;
      assert HasCompileThread(s, p);
      assert IsCompiling(s, p);
    }
  }

  lemma StepReports(s: State, a: Action)
    requires EntriesOk(s) && ReportsRight(s) && Enabled(s, a)
    ensures ReportsRight(Apply(s, a)) <==> !LosesSibling(s, a)
  {
    var t := Apply(s, a);
    StepEntries(s, a);
    if LosesSibling(s, a) {
      EndReports(s, a, s.workers[a.w].process);
    } else {
      forall p: nat ensures IsCompiling(t, p) <==> HasCompileThread(t, p) {
        if IsCompiling(t, p) {
          ReportedRuns(t, p);
        } else if HasCompileThread(t, p) {
          if a.Pop? || a.Die? { EndReports(s, a, p); } else { QuietReports(s, a, p); }
        }
      }
    }
  }

  ghost predicate AlwaysReportsRight(s: State, acts: seq<Action>)
    requires Runs(s, acts)
    decreases |acts|
  {
    ReportsRight(s) && (acts == [] || AlwaysReportsRight(Apply(s, acts[0]), acts[1..]))
  }

  ghost predicate NeverLosesSibling(s: State, acts: seq<Action>)
    requires Runs(s, acts)
    decreases |acts|
  {
    acts == [] || (!LosesSibling(s, acts[0]) && NeverLosesSibling(Apply(s, acts[0]), acts[1..]))
  }

  lemma {:induction false} RunReports(s: State, acts: seq<Action>)
    requires EntriesOk(s) && ReportsRight(s) && Runs(s, acts)
    ensures AlwaysReportsRight(s, acts) <==> NeverLosesSibling(s, acts)
    decreases |acts|
  {
    if acts != [] {
      StepEntries(s, acts[0]);
      StepReports(s, acts[0]);
      if !LosesSibling(s, acts[0]) {
        RunReports(Apply(s, acts[0]), acts[1..]);
      } else {
        assert !AlwaysReportsRight(Apply(s, acts[0]), acts[1..]);
      }
    }
  }

  /** In every run: `is_compiling` tells of every process, at every moment, whether any
      compile thread it ever entered is still running, exactly when no worker drops its
      process's entry, or dies as the one entered, while another such thread runs. */
  lemma IsCompilingIsRight(acts: seq<Action>)
    requires Runs(FRESH, acts)
    ensures AlwaysReportsRight(FRESH, acts) <==> NeverLosesSibling(FRESH, acts)
  {
    RunReports(FRESH, acts);
  }

  /** It errs one way only: what it reports is there, in every state of every run. */
  lemma {:induction false} IsCompilingNeverOverReports(s: State, acts: seq<Action>, p: nat)
    requires EntriesOk(s) && Runs(s, acts)
    ensures IsCompiling(Exec(s, acts), p) ==> HasCompileThread(Exec(s, acts), p)
    decreases |acts|
  {
    if acts == [] {
      if IsCompiling(s, p) { ReportedRuns(s, p); }
    } else {
      StepEntries(s, acts[0]);
      IsCompilingNeverOverReports(Apply(s, acts[0]), acts[1..], p);
    }
  }

  /** A compile on the caller's own thread is never entered, so while it is the only one
      of its process it is not reported, with no entry dropped at all. */
  lemma CallersThreadIsNotReported(s: State, process: nat)
    requires EntriesOk(s) && s.status == Tracing && process !in s.threads
    ensures var acts, w := [Begin(process), Pay(|s.workers|)], |s.workers|;
            && Runs(s, acts) && NeverLosesSibling(s, acts)
            && RunsFor(Exec(s, acts), w, process) && InProgress(Exec(s, acts)) > 0
            && !IsCompiling(Exec(s, acts), process)
  {
    var w := |s.workers|;
    var t := Apply(s, Begin(process));
    var u := Apply(t, Pay(w));
    assert [Begin(process), Pay(w)][1..] == [Pay(w)] && [Pay(w)][1..] == [];
    assert Exec(t, [Pay(w)]) == u;
    LiveOne(u.workers, w);
  }

  /** A finishing worker drops its process's entry whoever it belongs to: after it, the
      running successor `u` is not reported. */
  lemma PopsSuccessor(s: State, w: nat, u: nat)
    requires EntriesOk(s) && Enabled(s, Pop(w)) && u != w && u in s.entered
    requires RunsFor(s, u, s.workers[w].process)
    ensures var t, p := Apply(s, Pop(w)), s.workers[w].process;
            && t.workers[u] == s.workers[u] && HasCompileThread(t, p) && !IsCompiling(t, p)
  {
    assert RunsFor(Apply(s, Pop(w)), u, s.workers[w].process);
  }

  /** And it happens: a failed worker hands the task back, its process starts another
      compile, and only then does the first one drop the entry. */
  lemma IsCompilingUnderReports()
    ensures var acts := [Begin(0), Register(0), Raise(0), ReadAttempts(0), Bump(0, 1), Settle(0)];
            && Runs(FRESH, acts)
            && var s := Exec(FRESH, acts);
               var more := [Begin(0), Register(1), Pop(0)];
            && Runs(s, more)
            && InProgress(Exec(s, more)) == 1 && HasCompileThread(Exec(s, more), 0) && !IsCompiling(Exec(s, more), 0)
  {
    var acts := [Begin(0), Register(0), Raise(0), ReadAttempts(0), Bump(0, 1), Settle(0)];
    var m := map[0 := 0];
    var s1 := State(Compiling, 0, [Worker(0, Claimed)], 0, map[], {});
    assert Apply(FRESH, acts[0]) == s1;
    var s2 := State(Compiling, 0, [Worker(0, Claimed)], 0, m, {0});
    assert Apply(s1, Register(0)) == s2;
    var s3 := State(Compiling, 0, [Worker(0, Failing)], 0, m, {0});
    assert Apply(s2, Raise(0)) == s3;
    var s4 := State(Compiling, 0, [Worker(0, Counted(0))], 0, m, {0});
    assert Apply(s3, ReadAttempts(0)) == s4;
    var s5 := State(Compiling, 1, [Worker(0, Bumped(true, 1))], 0, m, {0});
    assert Apply(s4, Bump(0, 1)) == s5;
    var s6 := State(Tracing, 1, [Worker(0, Settled)], 0, m, {0});
    assert Apply(s5, Settle(0)) == s6;
    Cons(s5, Settle(0), []);
    Cons(s4, Bump(0, 1), [Settle(0)]);
    Cons(s3, ReadAttempts(0), [Bump(0, 1), Settle(0)]);
    Cons(s2, Raise(0), [ReadAttempts(0), Bump(0, 1), Settle(0)]);
    Cons(s1, Register(0), [Raise(0), ReadAttempts(0), Bump(0, 1), Settle(0)]);
    Cons(FRESH, Begin(0), [Register(0), Raise(0), ReadAttempts(0), Bump(0, 1), Settle(0)]);
    SuccessorUnreported(s6);
  }

  lemma SuccessorUnreported(s: State)
    requires s == State(Tracing, 1, [Worker(0, Settled)], 0, map[0 := 0], {0})
    ensures var more := [Begin(0), Register(1), Pop(0)];
            && Runs(s, more)
            && InProgress(Exec(s, more)) == 1 && HasCompileThread(Exec(s, more), 0) && !IsCompiling(Exec(s, more), 0)
  {
    var more := [Begin(0), Register(1), Pop(0)];
    var s1 := s.(status := Compiling, workers := [Worker(0, Settled), Worker(0, Claimed)]);
    assert Apply(s, more[0]) == s1;
    var s2 := s1.(threads := map[0 := 1], entered := {0, 1});
    assert Apply(s1, Register(1)) == s2;
    PopsSuccessor(s2, 0, 1);
    Cons(s2, Pop(0), []);
    Cons(s1, Register(1), [Pop(0)]);
    Cons(s, Begin(0), [Register(1), Pop(0)]);
    var ws := Apply(s2, Pop(0)).workers;
    assert ws == [Worker(0, Gone), Worker(0, Claimed)] && ws[1..] == [Worker(0, Claimed)] && ws[1..][1..] == [];
  }

  /** Nor need the entry be another's: after an early reclaim the second worker of a
      process delivers and drops its own entry while the first is still compiling. */
  lemma SecondWorkerHidesTheFirst(s: State, v: nat, w: nat, target: Status)
    requires At(s, w) && s.workers[w].phase.Paying? && (target == Shadow || target == Ready)
    requires EntriesOk(s) && v in s.entered && v != w && RunsFor(s, v, s.workers[w].process)
    ensures var acts, p := [Succeed(w, target), Pop(w)], s.workers[w].process;
            && Runs(s, acts) && AllCountUp(s, acts) && !NeverLosesSibling(s, acts)
            && At(Exec(s, acts), v) && Exec(s, acts).workers[v] == s.workers[v]
            && HasCompileThread(Exec(s, acts), p) && !IsCompiling(Exec(s, acts), p)
  {
    var t := Apply(s, Succeed(w, target));
    StepEntries(s, Succeed(w, target));
    assert RunsFor(t, v, t.workers[w].process);
    PopsSuccessor(t, w, v);
    Cons(t, Pop(w), []);
    Cons(s, Succeed(w, target), [Pop(w)]);
    assert [Succeed(w, target)] + [Pop(w)] == [Succeed(w, target), Pop(w)];
    assert [Pop(w)] + [] == [Pop(w)];
    assert HasSibling(t, w);
    assert !NeverLosesSibling(t, [Pop(w)]);
    assert [Succeed(w, target), Pop(w)][1..] == [Pop(w)];
  }

  /** How a worker's attempt ends: delivered, delivered and then raising, or raising. */
  datatype Ending = Delivers | DeliversThenRaises | Fails

  /** What one uninterrupted worker leaves behind; `count` is what the increment
      returns, if there is one. */
  function AfterWorker(s: State, w: nat, end: Ending, target: Status, count: nat): State
    requires At(s, w)
  {
    Move(s, w, Gone).(
      paid := s.paid + 1, attempts := if end.Delivers? then s.attempts else count,
      threads := s.threads - {s.workers[w].process},
      status := if end.Delivers? then target else AfterFailure(count > s.attempts, count))
  }

  function Charging(w: nat, count: nat): seq<Action> {
    [ReadAttempts(w), Bump(w, count), Settle(w), Pop(w)]
  }

  function Script(w: nat, end: Ending, target: Status, count: nat): seq<Action> {
    match end
    case Delivers => [Pay(w), Succeed(w, target), Pop(w)]
    case DeliversThenRaises => [Pay(w)] + ([DeliverThenRaise(w, target)] + Charging(w, count))
    case Fails => [Pay(w)] + ([Raise(w)] + Charging(w, count))
  }

  /** Running the worker without interruption is one of the runs the theorems cover. */
  lemma WorkerIsARun(s: State, w: nat, end: Ending, target: Status, count: nat)
    requires At(s, w) && s.workers[w].phase == Claimed && (target == Shadow || target == Ready)
    ensures var acts := Script(w, end, target, count);
            && Runs(s, acts) && Exec(s, acts) == AfterWorker(s, w, end, target, count)
            && (count == s.attempts + 1 ==> AllCountUp(s, acts))
  {
    if end.Delivers? { DeliversAlone(s, w, target); } else { FailsAlone(s, w, end, target, count); }
  }

  lemma Cons(s: State, a: Action, rest: seq<Action>)
    requires Enabled(s, a) && CountsUp(s, a) && Runs(Apply(s, a), rest) && AllCountUp(Apply(s, a), rest)
    ensures Runs(s, [a] + rest) && AllCountUp(s, [a] + rest)
    ensures Exec(s, [a] + rest) == Exec(Apply(s, a), rest)
  {
    assert ([a] + rest)[0] == a && ([a] + rest)[1..] == rest;
  }

  /** The same for an increment that need not count up. */
  lemma ConsAny(s: State, a: Action, rest: seq<Action>)
    requires Enabled(s, a) && Runs(Apply(s, a), rest)
    ensures Runs(s, [a] + rest) && Exec(s, [a] + rest) == Exec(Apply(s, a), rest)
    ensures CountsUp(s, a) && AllCountUp(Apply(s, a), rest) ==> AllCountUp(s, [a] + rest)
  {
    assert ([a] + rest)[0] == a && ([a] + rest)[1..] == rest;
  }

  lemma DeliversAlone(s: State, w: nat, target: Status)
    requires At(s, w) && s.workers[w].phase == Claimed && (target == Shadow || target == Ready)
    ensures var acts := [Pay(w), Succeed(w, target), Pop(w)];
            && Runs(s, acts) && AllCountUp(s, acts) && Exec(s, acts) == AfterWorker(s, w, Delivers, target, 0)
  {
    var s1 := Apply(s, Pay(w));
    var s2 := Apply(s1, Succeed(w, target));
    Cons(s2, Pop(w), []);
    Cons(s1, Succeed(w, target), [Pop(w)]);
    Cons(s, Pay(w), [Succeed(w, target), Pop(w)]);
    assert Apply(s2, Pop(w)).workers == Move(s, w, Gone).workers;
  }

  lemma Charges(s: State, w: nat, count: nat)
    requires At(s, w) && s.workers[w].phase == Failing
    ensures var acts := Charging(w, count);
            && Runs(s, acts) && (count == s.attempts + 1 ==> AllCountUp(s, acts))
            && Exec(s, acts) == Move(s, w, Gone).(attempts := count,
                 threads := s.threads - {s.workers[w].process}, status := AfterFailure(count > s.attempts, count))
  {
    var s1 := Apply(s, ReadAttempts(w));
    var s2 := Apply(s1, Bump(w, count));
    var s3 := Apply(s2, Settle(w));
    ConsAny(s3, Pop(w), []);
    ConsAny(s2, Settle(w), [Pop(w)]);
    ConsAny(s1, Bump(w, count), [Settle(w), Pop(w)]);
    ConsAny(s, ReadAttempts(w), [Bump(w, count), Settle(w), Pop(w)]);
    assert Apply(s3, Pop(w)).workers == Move(s, w, Gone).workers;
  }

  lemma FailsAlone(s: State, w: nat, end: Ending, target: Status, count: nat)
    requires At(s, w) && s.workers[w].phase == Claimed && !end.Delivers? && (target == Shadow || target == Ready)
    ensures var acts := Script(w, end, target, count);
            && Runs(s, acts) && Exec(s, acts) == AfterWorker(s, w, end, target, count)
            && (count == s.attempts + 1 ==> AllCountUp(s, acts))
  {
    var fail := if end.Fails? then Raise(w) else DeliverThenRaise(w, target);
    var s1 := Apply(s, Pay(w));
    var s2 := Apply(s1, fail);
    Charges(s2, w, count);
    ConsAny(s1, fail, Charging(w, count));
    ConsAny(s, Pay(w), [fail] + Charging(w, count));
    assert Move(s2, w, Gone).workers == Move(s, w, Gone).workers;
  }

  /** The task row together with one process's view of its compile threads. */
  class CompileTask {
    var status: Status
    var attempts: nat
    var workers: seq<Worker>
    var paid: nat
    var threads: map<nat, nat>
    ghost var entered: set<nat>

    ghost function Snapshot(): State
      reads this
    {
      State(status, attempts, workers, paid, threads, entered)
    }

    constructor ()
      ensures Snapshot() == FRESH
    {
      status, attempts, workers, paid, threads, entered := Tracing, 0, [], 0, map[], {};
    }

    method TryBeginCompile(process: nat) returns (won: bool)
      modifies this`status, this`workers
      ensures Snapshot() == Apply(old(Snapshot()), Begin(process))
      ensures won <==> old(status) == Tracing
    {
      won := status == Tracing;
      if won {
        status := Compiling;
        workers := workers + [Worker(process, Claimed)];
      }
    }

    method SetPhase(w: nat, p: Phase)
      requires w < |workers|
      modifies this`workers
      ensures Snapshot() == Move(old(Snapshot()), w, p)
    {
      workers := workers[w := workers[w].(phase := p)];
    }

    /** The thread is entered before it starts. */
    method RegisterThread(w: nat)
      requires w < |workers| && workers[w].phase == Claimed
      modifies this`threads, this`entered
      ensures Snapshot() == Apply(old(Snapshot()), Register(w))
    {
      threads := threads[workers[w].process := w];
      entered := entered + {w};
    }

    method ReportsCompiling(process: nat) returns (r: bool)
      ensures r == IsCompiling(Snapshot(), process)
    {
      if process !in threads { return false; }
      var w := threads[process];
      r := w < |workers| && !workers[w].phase.Gone?;
    }

    /** `expired` says the lease has a start time older than the cutoff; `cap` makes the
        reclaim terminal once the bumped count reaches it. */
    method ReclaimStaleCompile(expired: bool, cap: nat, capped: bool) returns (won: bool)
      modifies this`status, this`attempts
      ensures won <==> old(status) == Compiling && expired
      ensures won && capped && cap == MAX_COMPILE_ATTEMPTS ==> Snapshot() == Apply(old(Snapshot()), Reclaim)
      ensures won ==> attempts == old(attempts) + 1 && status == (if capped && attempts >= cap then Failed else Tracing)
      ensures !won ==> Snapshot() == old(Snapshot())
    {
      won := status == Compiling && expired;
      if won {
        attempts := attempts + 1;
        status := if capped && attempts >= cap then Failed else Tracing;
      }
    }

    /** The except branch: the counter must both advance and stay below the cap for
        the task to be retried.  `count` is what the increment stores and returns. */
    method ChargeFailure(w: nat, count: nat)
      requires w < |workers| && workers[w].phase == Failing
      modifies this`workers, this`attempts, this`status
      ensures Snapshot() == Move(old(Snapshot()), w, Settled).(
                attempts := count, status := AfterFailure(count > old(attempts), count))
      ensures count <= old(attempts) ==> status == Failed
    {
      var before := attempts;
      attempts := count;
      var advanced := attempts > before;
      status := if advanced && attempts < MAX_COMPILE_ATTEMPTS then Tracing else Failed;
      SetPhase(w, Settled);
    }

    /** The whole worker, run without interruption: pay for the compile, then deliver
        the adapter or charge a failed attempt, and drop the thread entry. */
    method RunWorker(w: nat, end: Ending, target: Status, count: nat)
      requires w < |workers| && workers[w].phase == Claimed && (target == Shadow || target == Ready)
      modifies this`status, this`attempts, this`workers, this`paid, this`threads
      ensures Snapshot() == AfterWorker(old(Snapshot()), w, end, target, count)
    {
      SetPhase(w, Paying);
      paid := paid + 1;
      if !end.Fails? { status := target; }
      if end.Delivers? {
        SetPhase(w, Settled);
      } else {
        SetPhase(w, Failing);
        ChargeFailure(w, count);
      }
      threads := threads - {workers[w].process};
      SetPhase(w, Gone);
    }
  }
}
