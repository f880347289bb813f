/** The runner's queues: callers submit comparisons and one worker thread per key
    drains them.  Submitters are interrupted between any two locked sections, so the
    counters are stated over every interleaving of submitters and workers.
 */
module ShadowQueue {
  import opened TraceDb

  /** Paths and task ids are only ever compared. */
  type Name(==, !new)

  datatype Key = Key(dbPath: Name, taskId: Name)

  datatype Kind = ShadowJob | AuditJob | FailOpenJob

  datatype Job = Job(key: Key, kind: Kind, queueSize: int, payload: nat)

  /** Where a call of `submit` stands. */
  datatype Stage = Arrived | Ensured | Counted | Overflowed | Accepted | Dropped | Broken

  datatype Submitter = Submitter(job: Job, stage: Stage)

  datatype Thread = Thread(key: Key, state: ThreadState)

  datatype ThreadState = Waiting | Running(job: Job) | Dead

  /** `accepted` and `taken` list, per key, the jobs put on and taken off its queue. */
  datatype Runner = Runner(
    queues: map<Key, seq<Job>>,
    capacity: map<Key, nat>,
    threads: map<Key, nat>,
    pending: map<Key, int>,
    dropped: map<(Key, Kind), nat>,
    pool: seq<Thread>,
    submitters: seq<Submitter>,
    accepted: map<Key, seq<Job>>,
    taken: map<Key, seq<Job>>,
    finished: map<(Key, Kind), nat>)

  datatype Action =
    | Arrive(job: Job)
    | Ensure(i: nat)
    | EnsureFails(i: nat)
    | Increment(i: nat)
    | Put(i: nat)
    | Rollback(i: nat)
    | Take(w: nat)
    | Finish(w: nat)
    | Die(w: nat)

  const EMPTY := Runner(map[], map[], map[], map[], map[], [], [], map[], map[], map[])

  function JobsAt(m: map<Key, seq<Job>>, k: Key): seq<Job> {
    if k in m then m[k] else []
  }

  function PendingAt(m: map<Key, int>, k: Key, default: int): int {
    if k in m then m[k] else default
  }

  function CountAt(m: map<(Key, Kind), nat>, k: Key, kind: Kind): nat {
    if (k, kind) in m then m[(k, kind)] else 0
  }

  predicate IsAt(r: Runner, i: nat, st: Stage) {
    i < |r.submitters| && r.submitters[i].stage == st
  }

  predicate Enabled(r: Runner, a: Action) {
    match a
    case Arrive(_) => true
    case Ensure(i) => IsAt(r, i, Arrived)
    case EnsureFails(i) => IsAt(r, i, Arrived) && !Alive(r, r.submitters[i].job.key)
    case Increment(i) => IsAt(r, i, Ensured)
    case Put(i) => IsAt(r, i, Counted)
    case Rollback(i) => IsAt(r, i, Overflowed)
    case Take(w) => w < |r.pool| && r.pool[w].state.Waiting? && JobsAt(r.queues, r.pool[w].key) != []
    case Finish(w) => w < |r.pool| && r.pool[w].state.Running?
    case Die(w) => w < |r.pool| && r.pool[w].state.Waiting?
  }

  function Move(r: Runner, i: nat, st: Stage): Runner
    requires i < |r.submitters|
  {
    r.(submitters := r.submitters[i := r.submitters[i].(stage := st)])
  }

  /** The key's registered thread is alive. */
  predicate Alive(r: Runner, k: Key) {
    k in r.threads && r.threads[k] < |r.pool| && !r.pool[r.threads[k]].state.Dead?
  }

  function OpenQueue(r: Runner, job: Job): Runner {
    if job.key in r.queues then r
    else r.(queues := r.queues[job.key := []],
            capacity := r.capacity[job.key := if job.queueSize < 1 then 1 else job.queueSize])
  }

  function StartThread(r: Runner, k: Key, st: ThreadState): Runner {
    r.(pool := r.pool + [Thread(k, st)], threads := r.threads[k := |r.pool|])
  }

  /** Open the key's queue on first use and start a thread unless one is alive. */
  function EnsureWorker(r: Runner, job: Job): Runner {
    var r' := OpenQueue(r, job);
    if Alive(r', job.key) then r' else StartThread(r', job.key, Waiting)
  }

  function Decrement(pending: map<Key, int>, k: Key): map<Key, int> {
    pending[k := Floor(PendingAt(pending, k, 1) - 1)]
  }

  function Floor(n: int): int { if n < 0 then 0 else n }

  function Bump(m: map<(Key, Kind), nat>, job: Job): map<(Key, Kind), nat> {
    m[(job.key, job.kind) := CountAt(m, job.key, job.kind) + 1]
  }

  function Arriving(r: Runner, job: Job): Runner {
    r.(submitters := r.submitters + [Submitter(job, Arrived)])
  }

  function Ensuring(r: Runner, i: nat): Runner
    requires i < |r.submitters|
  {
    EnsureWorker(Move(r, i, Ensured), r.submitters[i].job)
  }

  /** The thread object is registered before it starts, so a failed start leaves a
      dead entry behind for the next call to replace. */
  function EnsureFailing(r: Runner, i: nat): Runner
    requires i < |r.submitters|
  {
    StartThread(OpenQueue(Move(r, i, Broken), r.submitters[i].job), r.submitters[i].job.key, Dead)
  }

  function Counting(r: Runner, i: nat): Runner
    requires i < |r.submitters|
  {
    var k := r.submitters[i].job.key;
    Move(r, i, Counted).(pending := r.pending[k := PendingAt(r.pending, k, 0) + 1])
  }

  predicate HasRoom(r: Runner, k: Key) {
    |JobsAt(r.queues, k)| < if k in r.capacity then r.capacity[k] else 1
  }

  function Accepting(r: Runner, i: nat): Runner
    requires i < |r.submitters|
  {
    var job := r.submitters[i].job;
    Move(r, i, Accepted).(queues := r.queues[job.key := JobsAt(r.queues, job.key) + [job]],
                          accepted := r.accepted[job.key := JobsAt(r.accepted, job.key) + [job]])
  }

  /** On a full queue the newest job is the one that goes. */
  function Putting(r: Runner, i: nat): Runner
    requires i < |r.submitters|
  {
    if HasRoom(r, r.submitters[i].job.key) then Accepting(r, i) else Move(r, i, Overflowed)
  }

  function RollingBack(r: Runner, i: nat): Runner
    requires i < |r.submitters|
  {
    var job := r.submitters[i].job;
    Move(r, i, Dropped).(pending := Decrement(r.pending, job.key), dropped := Bump(r.dropped, job))
  }

  function Taking(r: Runner, w: nat): Runner
    requires w < |r.pool| && JobsAt(r.queues, r.pool[w].key) != []
  {
    var k := r.pool[w].key;
    var q := r.queues[k];
    r.(queues := r.queues[k := q[1..]],
       pool := r.pool[w := Thread(k, Running(q[0]))],
       taken := r.taken[k := JobsAt(r.taken, k) + [q[0]]])
  }

  function Finishing(r: Runner, w: nat): Runner
    requires w < |r.pool| && r.pool[w].state.Running?
  {
    var k, job := r.pool[w].key, r.pool[w].state.job;
    r.(pending := Decrement(r.pending, k), pool := r.pool[w := Thread(k, Waiting)], finished := Bump(r.finished, job))
  }

  function Dying(r: Runner, w: nat): Runner
    requires w < |r.pool|
  {
    r.(pool := r.pool[w := Thread(r.pool[w].key, Dead)])
  }

  function Apply(r: Runner, a: Action): Runner
    requires Enabled(r, a)
  {
    match a
    case Arrive(job) => Arriving(r, job)
    case Ensure(i) => Ensuring(r, i)
    case EnsureFails(i) => EnsureFailing(r, i)
    case Increment(i) => Counting(r, i)
    case Put(i) => Putting(r, i)
    case Rollback(i) => RollingBack(r, i)
    case Take(w) => Taking(r, w)
    case Finish(w) => Finishing(r, w)
    case Die(w) => Dying(r, w)
  }

  predicate Runs(r: Runner, acts: seq<Action>)
    decreases |acts|
  {
    acts == [] || (Enabled(r, acts[0]) && Runs(Apply(r, acts[0]), acts[1..]))
  }

  function Exec(r: Runner, acts: seq<Action>): Runner
    requires Runs(r, acts)
    decreases |acts|
  {
    if acts == [] then r else Exec(Apply(r, acts[0]), acts[1..])
  }

  /* Where the jobs are. */

  function One(b: bool): nat { if b then 1 else 0 }

  predicate Is(job: Job, k: Key, kind: Kind) { job.key == k && job.kind == kind }

  function Queued(q: seq<Job>, k: Key, kind: Kind): nat {
    if q == [] then 0 else One(Is(q[0], k, kind)) + Queued(q[1..], k, kind)
  }

  function InFlight(pool: seq<Thread>, k: Key, kind: Kind): nat {
    if pool == [] then 0
    else One(pool[0].state.Running? && Is(pool[0].state.job, k, kind)) + InFlight(pool[1..], k, kind)
  }

  /** Submitters that have counted their job and not yet queued or dropped it. */
  function Entering(subs: seq<Submitter>, k: Key, kind: Kind): nat {
    if subs == [] then 0
    else One((subs[0].stage.Counted? || subs[0].stage.Overflowed?) && Is(subs[0].job, k, kind)) +
         Entering(subs[1..], k, kind)
  }

  /** Submitters that have counted their job at some point. */
  function Submitted(subs: seq<Submitter>, k: Key, kind: Kind): nat {
    if subs == [] then 0
    else One(HasCounted(subs[0].stage) && Is(subs[0].job, k, kind)) + Submitted(subs[1..], k, kind)
  }

  predicate HasCounted(st: Stage) {
    st == Counted || st == Overflowed || st == Accepted || st == Dropped
  }

  /** Unfinished jobs of one key and kind. */
  function Unfinished(r: Runner, k: Key, kind: Kind): nat {
    Queued(JobsAt(r.queues, k), k, kind) + InFlight(r.pool, k, kind) + Entering(r.submitters, k, kind)
  }

  function AllUnfinished(r: Runner, k: Key): nat {
    Unfinished(r, k, ShadowJob) + Unfinished(r, k, AuditJob) + Unfinished(r, k, FailOpenJob)
  }

  /* The accounting invariant. */

  /** The pending counter of a key is the number of its unfinished jobs. */
  ghost predicate PendingRight(r: Runner) {
    forall k: Key :: PendingAt(r.pending, k, 0) == AllUnfinished(r, k)
  }

  /** Every counted job is finished, dropped or unfinished, kind by kind. */
  ghost predicate TotalsRight(r: Runner) {
    forall k: Key, kind: Kind ::
      Submitted(r.submitters, k, kind) ==
      CountAt(r.finished, k, kind) + CountAt(r.dropped, k, kind) + Unfinished(r, k, kind)
  }

  /** A key's queue is what has been accepted and not yet taken, all of its own key. */
  ghost predicate QueueOf(r: Runner, k: Key) {
    && JobsAt(r.accepted, k) == JobsAt(r.taken, k) + JobsAt(r.queues, k)
    && (forall i :: 0 <= i < |JobsAt(r.queues, k)| ==> JobsAt(r.queues, k)[i].key == k)
  }

  ghost predicate RunsOwn(t: Thread) {
    t.state.Running? ==> t.state.job.key == t.key
  }

  ghost predicate Ordered(r: Runner) {
    && (forall k: Key :: QueueOf(r, k))
    && (forall w :: 0 <= w < |r.pool| ==> RunsOwn(r.pool[w]))
  }

  /** A live thread is the one registered for its key. */
  ghost predicate OneWorker(r: Runner) {
    forall w :: 0 <= w < |r.pool| && !r.pool[w].state.Dead? ==>
      r.pool[w].key in r.threads && r.threads[r.pool[w].key] == w
  }

  ghost predicate Inv(r: Runner) {
    PendingRight(r) && TotalsRight(r) && Ordered(r) && OneWorker(r)
  }

  lemma {:induction false} QueuedSnoc(q: seq<Job>, job: Job, k: Key, kind: Kind)
    ensures Queued(q + [job], k, kind) == Queued(q, k, kind) + One(Is(job, k, kind))
  {
    if q == [] {
      assert q + [job] == [job] && [job][1..] == [];
    } else {
      assert (q + [job])[1..] == q[1..] + [job];
      QueuedSnoc(q[1..], job, k, kind);
    }
  }

  lemma {:induction false} OtherKeyQueued(q: seq<Job>, k: Key, kind: Kind)
    requires forall i :: 0 <= i < |q| ==> q[i].key != k
    ensures Queued(q, k, kind) == 0
  {
    if q != [] { OtherKeyQueued(q[1..], k, kind); }
  }

  function Flying(t: Thread, k: Key, kind: Kind): nat {
    One(t.state.Running? && Is(t.state.job, k, kind))
  }

  lemma {:induction false} InFlightUpdate(pool: seq<Thread>, w: nat, t: Thread, k: Key, kind: Kind)
    requires w < |pool|
    ensures InFlight(pool[w := t], k, kind) == InFlight(pool, k, kind) - Flying(pool[w], k, kind) + Flying(t, k, kind)
  {
    if w == 0 {
      assert pool[w := t][1..] == pool[1..];
    } else {
      assert pool[w := t][1..] == pool[1..][w - 1 := t];
      InFlightUpdate(pool[1..], w - 1, t, k, kind);
    }
  }

  lemma {:induction false} InFlightSnoc(pool: seq<Thread>, t: Thread, k: Key, kind: Kind)
    ensures InFlight(pool + [t], k, kind) == InFlight(pool, k, kind) + Flying(t, k, kind)
  {
    if pool == [] {
      assert pool + [t] == [t] && [t][1..] == [];
    } else {
      assert (pool + [t])[1..] == pool[1..] + [t];
      InFlightSnoc(pool[1..], t, k, kind);
    }
  }

  function InsideOf(s: Submitter, k: Key, kind: Kind): nat {
    One((s.stage.Counted? || s.stage.Overflowed?) && Is(s.job, k, kind))
  }

  function CountedOf(s: Submitter, k: Key, kind: Kind): nat {
    One(HasCounted(s.stage) && Is(s.job, k, kind))
  }

  lemma {:induction false} SubmitterUpdate(subs: seq<Submitter>, i: nat, s: Submitter, k: Key, kind: Kind)
    requires i < |subs|
    ensures Entering(subs[i := s], k, kind) == Entering(subs, k, kind) - InsideOf(subs[i], k, kind) + InsideOf(s, k, kind)
    ensures Submitted(subs[i := s], k, kind) ==
              Submitted(subs, k, kind) - CountedOf(subs[i], k, kind) + CountedOf(s, k, kind)
  {
    if i == 0 {
      assert subs[i := s][1..] == subs[1..];
    } else {
      assert subs[i := s][1..] == subs[1..][i - 1 := s];
      SubmitterUpdate(subs[1..], i - 1, s, k, kind);
    }
  }

  lemma {:induction false} SubmitterSnoc(subs: seq<Submitter>, job: Job, k: Key, kind: Kind)
    ensures Entering(subs + [Submitter(job, Arrived)], k, kind) == Entering(subs, k, kind)
    ensures Submitted(subs + [Submitter(job, Arrived)], k, kind) == Submitted(subs, k, kind)
  {
    var s := Submitter(job, Arrived);
    if subs == [] {
      assert subs + [s] == [s] && [s][1..] == [];
    } else {
      assert (subs + [s])[1..] == subs[1..] + [s];
      SubmitterSnoc(subs[1..], job, k, kind);
    }
  }

  /** How one step changes the books of one key and kind. */
  datatype Delta = Delta(unfinished: int, submitted: int, finished: int, dropped: int)

  ghost predicate Changes(r: Runner, t: Runner, k: Key, kind: Kind, d: Delta) {
    && Unfinished(t, k, kind) == Unfinished(r, k, kind) + d.unfinished
    && Submitted(t.submitters, k, kind) == Submitted(r.submitters, k, kind) + d.submitted
    && CountAt(t.finished, k, kind) == CountAt(r.finished, k, kind) + d.finished
    && CountAt(t.dropped, k, kind) == CountAt(r.dropped, k, kind) + d.dropped
  }

  /** The job a step accounts for. */
  function JobOf(r: Runner, a: Action): Job
    requires Enabled(r, a)
  {
    match a
    case Arrive(job) => job
    case Take(w) => r.queues[r.pool[w].key][0]
    case Finish(w) => r.pool[w].state.job
    case Die(w) => Job(r.pool[w].key, ShadowJob, 0, 0)
    case _ => r.submitters[a.i].job
  }

  function Effect(r: Runner, a: Action, k: Key, kind: Kind): Delta
    requires Enabled(r, a)
  {
    var n: int := One(Is(JobOf(r, a), k, kind));
    match a
    case Increment(_) => Delta(n, n, 0, 0)
    case Rollback(_) => Delta(-n, 0, 0, n)
    case Finish(_) => Delta(-n, 0, n, 0)
    case _ => Delta(0, 0, 0, 0)
  }

  const STILL := Delta(0, 0, 0, 0)

  lemma ArriveChanges(r: Runner, job: Job, k: Key, kind: Kind)
    ensures Changes(r, Arriving(r, job), k, kind, STILL)
  {
    SubmitterSnoc(r.submitters, job, k, kind);
  }

  lemma OpenChanges(r: Runner, job: Job, k: Key, kind: Kind)
    ensures Changes(r, OpenQueue(r, job), k, kind, STILL)
  {
  }

  lemma StartChanges(r: Runner, key: Key, st: ThreadState, k: Key, kind: Kind)
    requires !st.Running?
    ensures Changes(r, StartThread(r, key, st), k, kind, STILL)
  {
    InFlightSnoc(r.pool, Thread(key, st), k, kind);
  }

  lemma MoveChanges(r: Runner, i: nat, st: Stage, k: Key, kind: Kind)
    requires i < |r.submitters|
    ensures var s := r.submitters[i];
            var s' := s.(stage := st);
            Changes(r, Move(r, i, st), k, kind,
              Delta(InsideOf(s', k, kind) - InsideOf(s, k, kind), CountedOf(s', k, kind) - CountedOf(s, k, kind), 0, 0))
  {
    SubmitterUpdate(r.submitters, i, r.submitters[i].(stage := st), k, kind);
  }

  lemma Chained(r: Runner, s: Runner, t: Runner, k: Key, kind: Kind)
    requires Changes(r, s, k, kind, STILL) && Changes(s, t, k, kind, STILL)
    ensures Changes(r, t, k, kind, STILL)
  {
  }

  lemma OpenMoved(r: Runner, i: nat, st: Stage, k: Key, kind: Kind)
    requires IsAt(r, i, Arrived) && !HasCounted(st)
    ensures Changes(r, OpenQueue(Move(r, i, st), r.submitters[i].job), k, kind, STILL)
  {
    MoveChanges(r, i, st, k, kind);
    OpenChanges(Move(r, i, st), r.submitters[i].job, k, kind);
    Chained(r, Move(r, i, st), OpenQueue(Move(r, i, st), r.submitters[i].job), k, kind);
  }

  lemma EnsureChanges(r: Runner, i: nat, k: Key, kind: Kind)
    requires IsAt(r, i, Arrived)
    ensures Changes(r, Ensuring(r, i), k, kind, STILL)
  {
    OpenMoved(r, i, Ensured, k, kind);
    StartChanges(OpenQueue(Move(r, i, Ensured), r.submitters[i].job), r.submitters[i].job.key, Waiting, k, kind);
  }

  lemma EnsureFailsChanges(r: Runner, i: nat, k: Key, kind: Kind)
    requires IsAt(r, i, Arrived)
    ensures Changes(r, EnsureFailing(r, i), k, kind, STILL)
  {
    OpenMoved(r, i, Broken, k, kind);
    StartChanges(OpenQueue(Move(r, i, Broken), r.submitters[i].job), r.submitters[i].job.key, Dead, k, kind);
  }

  lemma IncrementChanges(r: Runner, i: nat, k: Key, kind: Kind)
    requires IsAt(r, i, Ensured)
    ensures var n: int := One(Is(r.submitters[i].job, k, kind)); Changes(r, Counting(r, i), k, kind, Delta(n, n, 0, 0))
  {
    MoveChanges(r, i, Counted, k, kind);
  }

  lemma RollbackChanges(r: Runner, i: nat, k: Key, kind: Kind)
    requires IsAt(r, i, Overflowed)
    ensures var n: int := One(Is(r.submitters[i].job, k, kind)); Changes(r, RollingBack(r, i), k, kind, Delta(-n, 0, 0, n))
  {
    MoveChanges(r, i, Dropped, k, kind);
  }

  lemma QueuesAppend(m: map<Key, seq<Job>>, job: Job, k: Key, kind: Kind)
    ensures Queued(JobsAt(m[job.key := JobsAt(m, job.key) + [job]], k), k, kind)
            == Queued(JobsAt(m, k), k, kind) + One(Is(job, k, kind))
  {
    QueuedSnoc(JobsAt(m, job.key), job, k, kind);
  }

  lemma AcceptChanges(r: Runner, i: nat, k: Key, kind: Kind)
    requires IsAt(r, i, Counted)
    ensures Changes(r, Accepting(r, i), k, kind, STILL)
  {
    var job := r.submitters[i].job;
    MoveChanges(r, i, Accepted, k, kind);
    QueuesAppend(r.queues, job, k, kind);
  }

  lemma PutChanges(r: Runner, i: nat, k: Key, kind: Kind)
    requires IsAt(r, i, Counted)
    ensures Changes(r, Putting(r, i), k, kind, STILL)
  {
    MoveChanges(r, i, Overflowed, k, kind);
    AcceptChanges(r, i, k, kind);
  }

  lemma TakeChanges(r: Runner, w: nat, k: Key, kind: Kind)
    requires w < |r.pool| && r.pool[w].state.Waiting? && JobsAt(r.queues, r.pool[w].key) != []
    requires QueueOf(r, r.pool[w].key)
    ensures Changes(r, Taking(r, w), k, kind, STILL)
  {
    var key := r.pool[w].key;
    var q := r.queues[key];
    InFlightUpdate(r.pool, w, Thread(key, Running(q[0])), k, kind);
    assert JobsAt(r.queues, key)[0].key == key;
  }

  lemma FinishChanges(r: Runner, w: nat, k: Key, kind: Kind)
    requires w < |r.pool| && r.pool[w].state.Running?
    ensures var n: int := One(Is(r.pool[w].state.job, k, kind)); Changes(r, Finishing(r, w), k, kind, Delta(-n, 0, n, 0))
  {
    InFlightUpdate(r.pool, w, Thread(r.pool[w].key, Waiting), k, kind);
  }

  lemma DieChanges(r: Runner, w: nat, k: Key, kind: Kind)
    requires w < |r.pool| && r.pool[w].state.Waiting?
    ensures Changes(r, Dying(r, w), k, kind, STILL)
  {
    InFlightUpdate(r.pool, w, Thread(r.pool[w].key, Dead), k, kind);
  }

  lemma StepChanges(r: Runner, a: Action, k: Key, kind: Kind)
    requires Enabled(r, a) && Ordered(r)
    ensures Changes(r, Apply(r, a), k, kind, Effect(r, a, k, kind))
  {
    match a
    case Arrive(job) => ArriveChanges(r, job, k, kind);
    case Ensure(i) => EnsureChanges(r, i, k, kind);
    case EnsureFails(i) => EnsureFailsChanges(r, i, k, kind);
    case Increment(i) => IncrementChanges(r, i, k, kind);
    case Put(i) => PutChanges(r, i, k, kind);
    case Rollback(i) => RollbackChanges(r, i, k, kind);
    case Take(w) => TakeChanges(r, w, k, kind);
    case Finish(w) => FinishChanges(r, w, k, kind);
    case Die(w) => DieChanges(r, w, k, kind);
  }

  lemma StepTotals(r: Runner, a: Action)
    requires Inv(r) && Enabled(r, a)
    ensures TotalsRight(Apply(r, a))
  {
    var t := Apply(r, a);
    forall k: Key, kind: Kind
      ensures Submitted(t.submitters, k, kind) ==
              CountAt(t.finished, k, kind) + CountAt(t.dropped, k, kind) + Unfinished(t, k, kind)
    {
      StepChanges(r, a, k, kind);
    }
  }

  /** Whoever gives a job back finds it counted. */
  lemma GivenBackWasCounted(r: Runner, a: Action)
    requires PendingRight(r) && Ordered(r) && Enabled(r, a) && (a.Rollback? || a.Finish?)
    ensures PendingAt(r.pending, JobOf(r, a).key, 0) >= 1
  {
    var job := JobOf(r, a);
    StepChanges(r, a, job.key, job.kind);
    assert Unfinished(r, job.key, job.kind) >= 1;
    assert PendingAt(r.pending, job.key, 0) == AllUnfinished(r, job.key);
  }

  /** A job is of exactly one kind. */
  lemma OneKind(job: Job, k: Key)
    ensures One(Is(job, k, ShadowJob)) + One(Is(job, k, AuditJob)) + One(Is(job, k, FailOpenJob)) == One(job.key == k)
  {
  }

  lemma CountingPending(r: Runner, i: nat, k: Key)
    requires i < |r.submitters|
    ensures PendingAt(Counting(r, i).pending, k, 0) == PendingAt(r.pending, k, 0) + One(r.submitters[i].job.key == k)
  {
  }

  lemma DecrementPending(m: map<Key, int>, key: Key, k: Key)
    requires PendingAt(m, key, 0) >= 1
    ensures key in m && Decrement(m, key) == m[key := m[key] - 1]
    ensures PendingAt(Decrement(m, key), k, 0) == PendingAt(m, k, 0) - One(key == k)
  {
  }

  /** How a step moves the pending counter of a key. */
  function PendingShift(r: Runner, a: Action, k: Key): int
    requires Enabled(r, a)
  {
    var n: int := One(JobOf(r, a).key == k);
    if a.Increment? then n else if a.Rollback? || a.Finish? then -n else 0
  }

  lemma GivenBackMoves(r: Runner, a: Action, k: Key)
    requires PendingRight(r) && Ordered(r) && Enabled(r, a) && (a.Rollback? || a.Finish?)
    ensures PendingAt(Apply(r, a).pending, k, 0) == PendingAt(r.pending, k, 0) + PendingShift(r, a, k)
  {
    GivenBackWasCounted(r, a);
    if a.Finish? { assert RunsOwn(r.pool[a.w]); }
    DecrementPending(r.pending, JobOf(r, a).key, k);
  }

  lemma PendingMoves(r: Runner, a: Action, k: Key)
    requires PendingRight(r) && Ordered(r) && Enabled(r, a)
    ensures PendingAt(Apply(r, a).pending, k, 0) == PendingAt(r.pending, k, 0) + PendingShift(r, a, k)
  {
    if a.Rollback? || a.Finish? {
      GivenBackMoves(r, a, k);
    } else if a.Increment? {
      CountingPending(r, a.i, k);
    } else if a.Ensure? || a.EnsureFails? {
      EnsurePending(r, a.i);
    } else if a.Put? {
      assert Accepting(r, a.i).pending == r.pending;
    }
  }

  lemma OpenPending(r: Runner, job: Job)
    ensures OpenQueue(r, job).pending == r.pending && EnsureWorker(r, job).pending == r.pending
  {
  }

  lemma EnsurePending(r: Runner, i: nat)
    requires i < |r.submitters|
    ensures Ensuring(r, i).pending == r.pending && EnsureFailing(r, i).pending == r.pending
  {
    OpenPending(Move(r, i, Ensured), r.submitters[i].job);
    OpenPending(Move(r, i, Broken), r.submitters[i].job);
  }

  lemma StepPending(r: Runner, a: Action)
    requires PendingRight(r) && Ordered(r) && Enabled(r, a)
    ensures PendingRight(Apply(r, a))
  {
    var t := Apply(r, a);
    forall k: Key ensures PendingAt(t.pending, k, 0) == AllUnfinished(t, k) {
      StepChanges(r, a, k, ShadowJob);
      StepChanges(r, a, k, AuditJob);
      StepChanges(r, a, k, FailOpenJob);
      OneKind(JobOf(r, a), k);
      PendingMoves(r, a, k);
      assert PendingAt(r.pending, k, 0) == AllUnfinished(r, k);
      UnfinishedMoves(r, t, a, k);
    }
  }

  lemma UnfinishedMoves(r: Runner, t: Runner, a: Action, k: Key)
    requires Enabled(r, a)
    requires Changes(r, t, k, ShadowJob, Effect(r, a, k, ShadowJob))
    requires Changes(r, t, k, AuditJob, Effect(r, a, k, AuditJob))
    requires Changes(r, t, k, FailOpenJob, Effect(r, a, k, FailOpenJob))
    ensures AllUnfinished(t, k) == AllUnfinished(r, k) + PendingShift(r, a, k)
  {
    OneKind(JobOf(r, a), k);
  }

  lemma AcceptOrdered(r: Runner, i: nat)
    requires Ordered(r) && IsAt(r, i, Counted)
    ensures Ordered(Accepting(r, i))
  {
    var t := Accepting(r, i);
    forall k: Key ensures QueueOf(t, k) {
      assert QueueOf(r, k);
      AppendBoth(JobsAt(r.accepted, k), JobsAt(r.taken, k), JobsAt(r.queues, k), r.submitters[i].job);
    }
  }

  lemma AppendBoth(a: seq<Job>, b: seq<Job>, q: seq<Job>, job: Job)
    requires a == b + q
    ensures a + [job] == b + (q + [job])
  {
  }

  lemma TakeOrdered(r: Runner, w: nat)
    requires Ordered(r) && w < |r.pool| && JobsAt(r.queues, r.pool[w].key) != []
    ensures Ordered(Taking(r, w))
  {
    var t := Taking(r, w);
    var key := r.pool[w].key;
    assert QueueOf(r, key);
    forall k: Key ensures QueueOf(t, k) {
      assert QueueOf(r, k);
      if k == key { MoveOne(JobsAt(r.taken, k), r.queues[k]); }
    }
  }

  lemma MoveOne(b: seq<Job>, q: seq<Job>)
    requires q != []
    ensures b + q == (b + [q[0]]) + q[1..]
  {
  }

  /** A step that moves no job on or off a queue. */
  lemma StillOrdered(r: Runner, t: Runner)
    requires Ordered(r) && t.accepted == r.accepted && t.taken == r.taken
    requires forall k: Key :: JobsAt(t.queues, k) == JobsAt(r.queues, k)
    requires forall w :: 0 <= w < |t.pool| ==> RunsOwn(t.pool[w])
    ensures Ordered(t)
  {
    forall k: Key ensures QueueOf(t, k) {
      assert QueueOf(r, k);
    }
  }

  lemma EnsureOrdered(r: Runner, i: nat)
    requires Ordered(r) && i < |r.submitters|
    ensures Ordered(Ensuring(r, i)) && Ordered(EnsureFailing(r, i))
  {
    var job := r.submitters[i].job;
    StillOrdered(r, Move(r, i, Ensured));
    StillOrdered(r, Move(r, i, Broken));
    OpenOrdered(Move(r, i, Ensured), job);
    OpenOrdered(Move(r, i, Broken), job);
    StartOrdered(OpenQueue(Move(r, i, Ensured), job), job.key, Waiting);
    StartOrdered(OpenQueue(Move(r, i, Broken), job), job.key, Dead);
  }

  lemma StartOrdered(r: Runner, k: Key, st: ThreadState)
    requires Ordered(r) && !st.Running?
    ensures Ordered(StartThread(r, k, st))
  {
    StillOrdered(r, StartThread(r, k, st));
  }

  lemma OpenOrdered(r: Runner, job: Job)
    requires Ordered(r)
    ensures Ordered(OpenQueue(r, job))
  {
    StillOrdered(r, OpenQueue(r, job));
  }

  lemma SubmitOrdered(r: Runner, a: Action)
    requires Ordered(r) && Enabled(r, a) && (a.Arrive? || a.Increment? || a.Put? || a.Rollback?)
    ensures Ordered(Apply(r, a))
  {
    match a
    case Arrive(job) => StillOrdered(r, Arriving(r, job));
    case Increment(i) => StillOrdered(r, Counting(r, i));
    case Rollback(i) => StillOrdered(r, RollingBack(r, i));
    case Put(i) =>
      AcceptOrdered(r, i);
      StillOrdered(r, Move(r, i, Overflowed));
  }

  lemma WorkOrdered(r: Runner, a: Action)
    requires Ordered(r) && Enabled(r, a) && (a.Take? || a.Finish? || a.Die?)
    ensures Ordered(Apply(r, a))
  {
    match a
    case Take(w) => TakeOrdered(r, w);
    case Finish(w) => StillOrdered(r, Finishing(r, w));
    case Die(w) => StillOrdered(r, Dying(r, w));
  }

  lemma StepOrdered(r: Runner, a: Action)
    requires Ordered(r) && Enabled(r, a)
    ensures Ordered(Apply(r, a))
  {
    if a.Take? || a.Finish? || a.Die? {
      WorkOrdered(r, a);
    } else if a.Ensure? || a.EnsureFails? {
      EnsureOrdered(r, a.i);
    } else {
      SubmitOrdered(r, a);
    }
  }

  lemma StartOneWorker(r: Runner, k: Key, st: ThreadState)
    requires OneWorker(r) && !Alive(r, k)
    ensures OneWorker(StartThread(r, k, st))
  {
  }

  lemma EnsureOneWorker(r: Runner, i: nat)
    requires OneWorker(r) && i < |r.submitters|
    ensures OneWorker(Ensuring(r, i))
    ensures !Alive(r, r.submitters[i].job.key) ==> OneWorker(EnsureFailing(r, i))
  {
    var job := r.submitters[i].job;
    var r', r'' := OpenQueue(Move(r, i, Ensured), job), OpenQueue(Move(r, i, Broken), job);
    assert OneWorker(r') && OneWorker(r'');
    if !Alive(r, job.key) {
      StartOneWorker(r', job.key, Waiting);
      StartOneWorker(r'', job.key, Dead);
    }
  }

  /** Changing the state of a thread that is alive starts no second one. */
  lemma ThreadOneWorker(r: Runner, t: Runner, w: nat, st: ThreadState)
    requires OneWorker(r) && w < |r.pool| && !r.pool[w].state.Dead?
    requires t.threads == r.threads && t.pool == r.pool[w := Thread(r.pool[w].key, st)]
    ensures OneWorker(t)
  {
    forall v | 0 <= v < |t.pool| && !t.pool[v].state.Dead?
      ensures t.pool[v].key in t.threads && t.threads[t.pool[v].key] == v
    {
      assert t.pool[v].key == r.pool[v].key && !r.pool[v].state.Dead?;
    }
  }

  lemma StepOneWorker(r: Runner, a: Action)
    requires OneWorker(r) && Enabled(r, a)
    ensures OneWorker(Apply(r, a))
  {
    match a
    case Take(w) => ThreadOneWorker(r, Taking(r, w), w, Taking(r, w).pool[w].state);
    case Finish(w) => ThreadOneWorker(r, Finishing(r, w), w, Waiting);
    case Die(w) => ThreadOneWorker(r, Dying(r, w), w, Dead);
    case Ensure(i) => EnsureOneWorker(r, i);
    case EnsureFails(i) => EnsureOneWorker(r, i);
    case Arrive(job) => assert OneWorker(Arriving(r, job));
    case Increment(i) => assert OneWorker(Counting(r, i));
    case Put(i) => assert OneWorker(Accepting(r, i)) && OneWorker(Move(r, i, Overflowed));
    case Rollback(i) => assert OneWorker(RollingBack(r, i));
  }

  lemma StepInv(r: Runner, a: Action)
    requires Inv(r) && Enabled(r, a)
    ensures Inv(Apply(r, a))
  {
    StepPending(r, a);
    StepTotals(r, a);
    StepOrdered(r, a);
    StepOneWorker(r, a);
  }

  lemma {:induction false} ExecInv(r: Runner, acts: seq<Action>)
    requires Inv(r) && Runs(r, acts)
    ensures Inv(Exec(r, acts))
    decreases |acts|
  {
    if acts != [] {
      StepInv(r, acts[0]);
      ExecInv(Apply(r, acts[0]), acts[1..]);
    }
  }

  /** At every moment of every run the pending counter of a key is exactly its queued
      jobs, plus the one in flight, plus the submitters caught between counting and
      queueing; and submitted = finished + dropped + unfinished for each kind. */
  lemma BooksBalance(acts: seq<Action>, k: Key, kind: Kind)
    requires Runs(EMPTY, acts)
    ensures var r := Exec(EMPTY, acts);
            && PendingAt(r.pending, k, 0) == AllUnfinished(r, k)
            && Submitted(r.submitters, k, kind) ==
                 CountAt(r.finished, k, kind) + CountAt(r.dropped, k, kind) + Unfinished(r, k, kind)
  {
    ExecInv(EMPTY, acts);
  }

  /** Thread `w` is alive and serves key `k`. */
  predicate Serves(r: Runner, w: nat, k: Key) {
    w < |r.pool| && r.pool[w].key == k && !r.pool[w].state.Dead?
  }

  /** The clamp at zero never acts in any run: whoever takes one off the counter, a
      dropped submitter or a finished worker, finds it there. */
  lemma NeverClamped(acts: seq<Action>, a: Action)
    requires Runs(EMPTY, acts) && Enabled(Exec(EMPTY, acts), a) && (a.Rollback? || a.Finish?)
    ensures var r := Exec(EMPTY, acts);
            var k := JobOf(r, a).key;
            k in r.pending && r.pending[k] >= 1 && Decrement(r.pending, k) == r.pending[k := r.pending[k] - 1]
  {
    ExecInv(EMPTY, acts);
    var r := Exec(EMPTY, acts);
    GivenBackWasCounted(r, a);
    DecrementPending(r.pending, JobOf(r, a).key, JobOf(r, a).key);
  }

  /** Accepted jobs of a key are taken in the order they were accepted, by at most one
      live worker at a time. */
  lemma FifoBySingleWorker(acts: seq<Action>, k: Key, v: nat, w: nat)
    requires Runs(EMPTY, acts)
    ensures var r := Exec(EMPTY, acts);
            && JobsAt(r.taken, k) <= JobsAt(r.accepted, k)
            && JobsAt(r.accepted, k) == JobsAt(r.taken, k) + JobsAt(r.queues, k)
            && (Serves(r, v, k) && Serves(r, w, k) ==> v == w)
  {
    ExecInv(EMPTY, acts);
    assert QueueOf(Exec(EMPTY, acts), k);
  }

  /** Pending summed over some keys, as `drain` and `stats` read it. */
  function PendingOver(r: Runner, keys: seq<Key>): int {
    if keys == [] then 0 else PendingAt(r.pending, keys[0], 0) + PendingOver(r, keys[1..])
  }

  /** When the sum reads zero no accepted job of any of those keys is unfinished: every
      one has been taken, none is in flight, and none is about to be queued. */
  lemma DrainedMeansDone(acts: seq<Action>, keys: seq<Key>, k: Key)
    requires Runs(EMPTY, acts) && PendingOver(Exec(EMPTY, acts), keys) == 0 && k in keys
    ensures var r := Exec(EMPTY, acts);
            && JobsAt(r.accepted, k) == JobsAt(r.taken, k)
            && AllUnfinished(r, k) == 0
            && (forall kind: Kind :: Submitted(r.submitters, k, kind) ==
                  CountAt(r.finished, k, kind) + CountAt(r.dropped, k, kind))
  {
    ExecInv(EMPTY, acts);
    var r := Exec(EMPTY, acts);
    NoneNegative(r, keys, k);
    NothingQueued(r, k);
    forall kind: Kind
      ensures Submitted(r.submitters, k, kind) == CountAt(r.finished, k, kind) + CountAt(r.dropped, k, kind)
    {
      KindOf(r, k, kind);
    }
  }

  lemma KindOf(r: Runner, k: Key, kind: Kind)
    ensures Unfinished(r, k, kind) <= AllUnfinished(r, k)
  {
    match kind
    case ShadowJob =>
    case AuditJob =>
    case FailOpenJob =>
  }

  lemma NothingQueued(r: Runner, k: Key)
    requires PendingRight(r) && Ordered(r) && PendingAt(r.pending, k, 0) == 0
    ensures AllUnfinished(r, k) == 0 && JobsAt(r.accepted, k) == JobsAt(r.taken, k)
  {
    assert PendingAt(r.pending, k, 0) == AllUnfinished(r, k);
    assert QueueOf(r, k);
    QueuedCounts(r, k);
  }

  lemma QueuedCounts(r: Runner, k: Key)
    requires QueueOf(r, k)
    ensures JobsAt(r.queues, k) != [] ==> AllUnfinished(r, k) >= 1
  {
    var q := JobsAt(r.queues, k);
    if q != [] {
      assert q[0].key == k;
      KindOf(r, k, q[0].kind);
    }
  }

  lemma {:induction false} NoneNegative(r: Runner, keys: seq<Key>, k: Key)
    requires PendingRight(r)
    ensures PendingOver(r, keys) >= 0
    ensures k in keys ==> PendingOver(r, keys) >= PendingAt(r.pending, k, 0) >= 0
  {
    if keys != [] {
      assert PendingAt(r.pending, keys[0], 0) == AllUnfinished(r, keys[0]);
      NoneNegative(r, keys[1..], k);
    }
  }
}
