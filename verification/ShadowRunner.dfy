/** The runner object and the task row it works on, statement by statement.  Its
    queue side moves as `ShadowQueue` says and its window side as `ShadowGate` says,
    so what is proved there about every interleaving holds of these methods.
 */
module ShadowRunner {
  import opened TraceDb
  import opened ShadowWindow
  import opened ShadowQueue
  import Limits = QueueLimits
  import Gate = ShadowGate
  import GateOutcome

  /** The database row of one task and its comparisons. */
  class TaskStore {
    var status: Status
    var epoch: nat
    var rows: seq<Row>

    constructor (status: Status, epoch: nat)
      ensures this.status == status && this.epoch == epoch && rows == []
    {
      this.status, this.epoch, rows := status, epoch, [];
    }

    /** `keep` is the retention cap, applied when the prune clock is due. */
    method RecordShadowPair(jobEpoch: nat, phase: Phase, v: Verdict, keep: nat, pruneDue: bool) returns (seqNo: nat)
      modifies this`rows
      ensures var all := Record(old(rows), jobEpoch, phase, v);
              rows == if pruneDue then Pruned(all, keep) else all
      ensures seqNo == NextSeq(old(rows), jobEpoch, v) && (seqNo > 0 <==> Countable(v))
    {
      if v == TeacherError || v == PoolExhausted {
        seqNo := 0;
      } else {
        seqNo := MaxSeq(rows, jobEpoch) + 1;
      }
      rows := rows + [Row(jobEpoch, seqNo, phase, v)];
      if pruneDue && keep > 0 && |rows| > keep { rows := rows[|rows| - keep..]; }
    }

    method TryPromote(expected: nat) returns (won: bool)
      modifies this`status, this`epoch
      ensures won <==> old(status) == Shadow && old(epoch) == expected
      ensures won ==> status == Ready && epoch == expected + 1
      ensures !won ==> status == old(status) && epoch == old(epoch)
    {
      won := status == Shadow && epoch == expected;
      if won { status, epoch := Ready, epoch + 1; }
    }

    method TryDemote(expected: nat) returns (won: bool)
      modifies this`status, this`epoch
      ensures won <==> old(status) == Ready && old(epoch) == expected
      ensures won ==> status == Shadow && epoch == expected + 1
      ensures !won ==> status == old(status) && epoch == old(epoch)
    {
      won := status == Ready && epoch == expected;
      if won { status, epoch := Shadow, epoch + 1; }
    }
  }

  type Scored = map<(Key, nat, Phase), nat>
  type SeqCache = map<(Key, nat), nat>

  /** One key's record of scored windows, as the gate machine keeps it per process. */
  function ScoredOf(w: Scored, key: Key): map<(nat, Phase), nat> {
    map t | t in w && t.0 == key :: (t.1, t.2) := w[t]
  }

  function SeqsOf(c: SeqCache, key: Key): map<nat, nat> {
    map t | t in c && t.0 == key :: t.1 := c[t]
  }

  function WithoutStale(w: Scored, key: Key, epoch: nat): Scored {
    map t | t in w && !(t.0 == key && t.1 < epoch) :: w[t]
  }

  function SeqsWithoutStale(c: SeqCache, key: Key, epoch: nat): SeqCache {
    map t | t in c && !(t.0 == key && t.1 < epoch) :: c[t]
  }

  function StalledAt(stalled: map<Key, nat>, key: Key): nat {
    if key in stalled then stalled[key] else 0
  }

  /** A read that fails counts as 0. */
  function KnownSeq(c: SeqCache, rows: seq<Row>, fails: bool, key: Key, epoch: nat): nat {
    if (key, epoch) in c then c[(key, epoch)] else if fails then 0 else MaxSeq(rows, epoch)
  }

  /** Pruning one key is the gate machine's prune on that key and nothing on another. */
  lemma PruneIsTheGates(w: Scored, c: SeqCache, key: Key, epoch: nat, other: Key)
    ensures var q := Gate.Proc([], Gate.Idle, ScoredOf(w, key), SeqsOf(c, key));
            && ScoredOf(WithoutStale(w, key, epoch), key) == Gate.PruneStale(q, epoch).scored
            && SeqsOf(SeqsWithoutStale(c, key, epoch), key) == Gate.PruneStale(q, epoch).seqCache
    ensures other != key ==> ScoredOf(WithoutStale(w, key, epoch), other) == ScoredOf(w, other)
  {
    ScoredPrune(w, key, epoch, other);
    var s := SeqsOf(c, key);
    assert SeqsOf(SeqsWithoutStale(c, key, epoch), key) == map e | e in s && e >= epoch :: s[e] by {
      var a := SeqsOf(SeqsWithoutStale(c, key, epoch), key);
      forall e: nat ensures e in a <==> e in s && e >= epoch {
        if e in s { assert (key, e) in c; }
        if e in a { assert (key, e) in SeqsWithoutStale(c, key, epoch); }
        if e in s && e >= epoch { assert (key, e) in SeqsWithoutStale(c, key, epoch); }
      }
    }
  }

  lemma ScoredPrune(w: Scored, key: Key, epoch: nat, other: Key)
    ensures ScoredOf(WithoutStale(w, key, epoch), key)
            == map k | k in ScoredOf(w, key) && k.0 >= epoch :: ScoredOf(w, key)[k]
    ensures other != key ==> ScoredOf(WithoutStale(w, key, epoch), other) == ScoredOf(w, other)
  {
    var w' := WithoutStale(w, key, epoch);
    forall e: nat, ph: Phase
      ensures (e, ph) in ScoredOf(w', key) <==> (e, ph) in ScoredOf(w, key) && e >= epoch
      ensures other != key ==> ((e, ph) in ScoredOf(w', other) <==> (e, ph) in ScoredOf(w, other))
    {
      ScoredAt(w, key, e, ph);
      ScoredAt(w', key, e, ph);
      ScoredAt(w, other, e, ph);
      ScoredAt(w', other, e, ph);
    }
  }

  lemma ScoredAt(w: Scored, key: Key, e: nat, ph: Phase)
    ensures (e, ph) in ScoredOf(w, key) <==> (key, e, ph) in w
    ensures (key, e, ph) in w ==> ScoredOf(w, key)[(e, ph)] == w[(key, e, ph)]
  {
    if (key, e, ph) in w {
      assert (key, e, ph).1 == e;
    }
  }

  /* One comparison's effect on the windows. */

  function ScoredBefore(w: Scored, key: Key, job: Gate.Job): nat {
    if (key, job.epoch, job.phase) in w then w[(key, job.epoch, job.phase)] else 0
  }

  /** A comparison scores a window exactly when one is due and there are comparisons
      enough of this epoch and phase to fill it. */
  predicate Scores(w: Scored, key: Key, job: Gate.Job, seqNo: nat, rows: seq<Row>) {
    && Due(job.phase, job.Window(), seqNo, ScoredBefore(w, key, job))
    && |Matching(rows, job.epoch, job.phase)| >= job.Window()
  }

  function AfterScoring(w: Scored, key: Key, job: Gate.Job, seqNo: nat, rows: seq<Row>): Scored {
    if Scores(w, key, job, seqNo, rows)
    then w[(key, job.epoch, job.phase) := NextScored(job.Window(), seqNo, ScoredBefore(w, key, job))]
    else w
  }

  function GateRate(job: Gate.Job, rows: seq<Row>): real {
    var n := job.Window();
    if n <= 0 then 0.0 else Agreements(Newest(rows, job.epoch, job.phase, n)) as real / n as real
  }

  /** The window calls for a move: enough agreements in shadow, too few in audit. */
  predicate Clears(job: Gate.Job, rows: seq<Row>) {
    job.Window() > 0 &&
    var agreeing, n := |Carrying(GateOutcome.Last(rows, job), Agree)| as real, job.Window() as real;
    if job.phase == ShadowPhase then agreeing >= job.shadowThreshold * n else agreeing < job.demoteThreshold * n
  }

  lemma ClearingRate(job: Gate.Job, rows: seq<Row>)
    requires job.Window() > 0 && |Matching(rows, job.epoch, job.phase)| >= job.Window()
    ensures Clears(job, rows) <==>
              if job.phase == ShadowPhase then GateRate(job, rows) >= job.shadowThreshold
              else GateRate(job, rows) < job.demoteThreshold
  {
    hide Matching, Tally, Carrying;
    var win := GateOutcome.Last(rows, job);
    assert |win| == job.Window() && GateRate(job, rows) == Gate.Rate(win);
    GateOutcome.RateIsAShare(win, job.shadowThreshold);
    GateOutcome.RateIsAShare(win, job.demoteThreshold);
  }

  /** The statistics are usable exactly when enough matching comparisons are left. */
  lemma FullStats(rows: seq<Row>, epoch: nat, phase: Phase, window: int)
    requires window > 0
    ensures var st := AgreementStats(rows, epoch, phase, window);
            && ((st.Counts? && st.samples == window) <==> |Matching(rows, epoch, phase)| >= window)
            && (st.Counts? ==> st.agree == Agreements(Newest(rows, epoch, phase, window)))
  {
  }

  /** A stored comparison moves this process's windows and the task exactly as the
      gate machine's check, read and decision do when nothing comes between them. */
  lemma ScoringIsTheGates(w: Scored, key: Key, job: Gate.Job, seqNo: nat, s: Gate.State, p: nat)
    requires s.past != [] && p in s.procs && s.procs[p].pc == Gate.Stored(job, seqNo)
    requires s.procs[p].scored == ScoredOf(w, key)
    ensures Gate.Enabled(s, Gate.Check(p))
    ensures var t := Gate.Apply(s, Gate.Check(p));
            var pending := t.procs[p].pc.Pending?;
            && pending == Due(job.phase, job.Window(), seqNo, ScoredBefore(w, key, job))
            && (pending ==> Gate.Enabled(t, Gate.Read(p, false)))
    ensures var t := Gate.Apply(s, Gate.Check(p));
            var u := if t.procs[p].pc.Pending? then Gate.Apply(t, Gate.Read(p, false)) else t;
            && u.procs[p].pc.Scored? == Scores(w, key, job, seqNo, s.rows)
            && u.procs[p].scored == ScoredOf(AfterScoring(w, key, job, seqNo, s.rows), key)
            && (u.procs[p].pc.Scored? ==> u.procs[p].pc.window != [] && Gate.Rate(u.procs[p].pc.window) == GateRate(job, s.rows))
  {
    ScoredAt(w, key, job.epoch, job.phase);
    if job.Window() > 0 { FullStats(s.rows, job.epoch, job.phase, job.Window()); }
    AfterScoringOf(w, key, job, seqNo, s.rows);
  }

  /** The comparison wins its transition: the window is scored, it calls for a move and
      the task is at the job's epoch and in its phase. */
  predicate Wins(w: Scored, key: Key, job: Gate.Job, seqNo: nat, rows: seq<Row>, epoch: nat, status: Status) {
    Scores(w, key, job, seqNo, rows) && Clears(job, rows) && epoch == job.epoch && status == Gate.Serving(job.phase)
  }

  /** So the task and the window record end up where the machine's check, read and
      decision leave them when nothing comes in between, failing accesses included. */
  lemma TransitionIsTheGates(w: Scored, key: Key, job: Gate.Job, seqNo: nat, s: Gate.State, p: nat,
                             readFails: bool, moveFails: bool)
    requires s.past != [] && p in s.procs && s.procs[p].pc == Gate.Stored(job, seqNo)
    requires s.procs[p].scored == ScoredOf(w, key)
    ensures Gate.Enabled(s, Gate.Check(p))
    ensures var t := GateOutcome.Settled(s, p, readFails, moveFails);
            var after := if readFails then w else AfterScoring(w, key, job, seqNo, s.rows);
            var wins := !readFails && !moveFails && Wins(w, key, job, seqNo, s.rows, Gate.Epoch(s), Gate.Now(s));
            && p in t.procs && t.procs[p].scored == ScoredOf(after, key) && t.past != []
            && Gate.Epoch(t) == (if wins then Gate.Epoch(s) + 1 else Gate.Epoch(s))
            && Gate.Now(t) == if !wins then Gate.Now(s) else if job.phase == ShadowPhase then Ready else Shadow
  {
    hide Matching, Newest, Carrying, GateOutcome.Settled, ScoredOf;
    ScoredAt(w, key, job.epoch, job.phase);
    AfterScoringOf(w, key, job, seqNo, s.rows);
    GateOutcome.SettledByCounts(s, p, readFails, moveFails);
    if Due(job.phase, job.Window(), seqNo, ScoredBefore(w, key, job)) {
      ScoringAdvances(job.phase, job.Window(), seqNo, ScoredBefore(w, key, job));
    }
  }

  lemma AfterScoringOf(w: Scored, key: Key, job: Gate.Job, seqNo: nat, rows: seq<Row>)
    ensures ScoredOf(AfterScoring(w, key, job, seqNo, rows), key)
            == if Scores(w, key, job, seqNo, rows)
               then ScoredOf(w, key)[(job.epoch, job.phase) := NextScored(job.Window(), seqNo, ScoredBefore(w, key, job))]
               else ScoredOf(w, key)
  {
    if Scores(w, key, job, seqNo, rows) {
      var w' := AfterScoring(w, key, job, seqNo, rows);
      forall e: nat, ph: Phase
        ensures (e, ph) in ScoredOf(w', key) <==> (e, ph) in ScoredOf(w, key) || (e, ph) == (job.epoch, job.phase)
      {
        ScoredAt(w, key, e, ph);
        ScoredAt(w', key, e, ph);
      }
      ScoredAt(w', key, job.epoch, job.phase);
    }
  }

  /* A whole submission. */

  /** The four locked sections of one `submit`, with nothing in between. */
  function Submitting(r: Runner, job: Job): Runner {
    PutOrDrop(Prepared(r, job), |r.submitters|)
  }

  function Prepared(r: Runner, job: Job): (p: Runner)
    ensures |p.submitters| == |r.submitters| + 1
  {
    var i := |r.submitters|;
    Counting(Ensuring(Arriving(r, job), i), i)
  }

  predicate Admits(r: Runner, job: Job) {
    job.key !in r.queues || HasRoom(r, job.key)
  }

  /** Two states with the same queues, counters and capacity of every key. */
  predicate SameBooks(r: Runner, t: Runner) {
    t.queues == r.queues && t.capacity == r.capacity && t.pending == r.pending && t.dropped == r.dropped
  }

  lemma ArrivingStage(r: Runner, job: Job)
    ensures var t, i := Arriving(r, job), |r.submitters|;
            IsAt(t, i, Arrived) && t.submitters[i].job == job && SameBooks(r, t)
  {
  }

  lemma OpenStage(r: Runner, job: Job, k: Key)
    ensures var t := OpenQueue(r, job);
            && JobsAt(t.queues, k) == JobsAt(r.queues, k) && t.pending == r.pending && t.dropped == r.dropped
            && (HasRoom(t, job.key) <==> Admits(r, job)) && t.submitters == r.submitters
  {
  }

  lemma StartStage(r: Runner, k: Key)
    ensures var t := StartThread(r, k, Waiting);
            SameBooks(r, t) && Alive(t, k) && t.submitters == r.submitters
  {
  }

  lemma MoveStage(r: Runner, i: nat, st: Stage)
    requires i < |r.submitters|
    ensures var t := Move(r, i, st);
            && IsAt(t, i, st) && t.submitters[i].job == r.submitters[i].job && |t.submitters| == |r.submitters|
            && SameBooks(r, t) && t.threads == r.threads && t.pool == r.pool
  {
  }

  lemma EnsuringStage(r: Runner, i: nat, k: Key)
    requires IsAt(r, i, Arrived)
    ensures var t, job := Ensuring(r, i), r.submitters[i].job;
            && IsAt(t, i, Ensured) && t.submitters[i].job == job
            && JobsAt(t.queues, k) == JobsAt(r.queues, k) && t.pending == r.pending && t.dropped == r.dropped
            && (HasRoom(t, job.key) <==> Admits(r, job)) && Alive(t, job.key)
  {
    var job := r.submitters[i].job;
    MoveStage(r, i, Ensured);
    var m := Move(r, i, Ensured);
    OpenStage(m, job, k);
    StartStage(OpenQueue(m, job), job.key);
  }

  lemma CountingStage(r: Runner, i: nat)
    requires IsAt(r, i, Ensured)
    ensures var t, job := Counting(r, i), r.submitters[i].job;
            && IsAt(t, i, Counted) && t.submitters[i].job == job
            && t.queues == r.queues && t.capacity == r.capacity && t.dropped == r.dropped
            && t.threads == r.threads && t.pool == r.pool
            && PendingAt(t.pending, job.key, 0) == PendingAt(r.pending, job.key, 0) + 1
  {
    MoveStage(r, i, Counted);
  }

  lemma PreparedStage(r: Runner, job: Job, k: Key)
    ensures var t, i := Prepared(r, job), |r.submitters|;
            && IsAt(t, i, Counted) && t.submitters[i].job == job
            && JobsAt(t.queues, k) == JobsAt(r.queues, k) && t.dropped == r.dropped
            && (HasRoom(t, job.key) <==> Admits(r, job)) && Alive(t, job.key)
            && PendingAt(t.pending, job.key, 0) == PendingAt(r.pending, job.key, 0) + 1
  {
    var i := |r.submitters|;
    var a := Arriving(r, job);
    ArrivingStage(r, job);
    EnsuringStage(a, i, k);
    CountingStage(Ensuring(a, i), i);
  }

  lemma AcceptingStage(r: Runner, i: nat, k: Key)
    requires IsAt(r, i, Counted)
    ensures var t, job := Accepting(r, i), r.submitters[i].job;
            && IsAt(t, i, Accepted) && t.pending == r.pending && t.dropped == r.dropped
            && t.threads == r.threads && t.pool == r.pool
            && JobsAt(t.queues, k) == JobsAt(r.queues, k) + if k == job.key then [job] else []
  {
    MoveStage(r, i, Accepted);
  }

  lemma RollingBackStage(r: Runner, i: nat)
    requires IsAt(r, i, Overflowed)
    ensures var t, job := RollingBack(r, i), r.submitters[i].job;
            && t.queues == r.queues && t.threads == r.threads && t.pool == r.pool
            && PendingAt(t.pending, job.key, 0) == Floor(PendingAt(r.pending, job.key, 1) - 1)
            && CountAt(t.dropped, job.key, job.kind) == CountAt(r.dropped, job.key, job.kind) + 1
  {
    MoveStage(r, i, Dropped);
  }

  function PutOrDrop(r: Runner, i: nat): Runner
    requires i < |r.submitters|
  {
    var put := Putting(r, i);
    if IsAt(put, i, Overflowed) then RollingBack(put, i) else put
  }

  lemma PutOutcome(r: Runner, i: nat, k: Key)
    requires IsAt(r, i, Counted)
    requires PendingAt(r.pending, r.submitters[i].job.key, 0) >= 1 && Alive(r, r.submitters[i].job.key)
    ensures var t, job := PutOrDrop(r, i), r.submitters[i].job;
            var ok := HasRoom(r, job.key);
            && JobsAt(t.queues, k) == JobsAt(r.queues, k) + (if ok && k == job.key then [job] else [])
            && PendingAt(t.pending, job.key, 0) == PendingAt(r.pending, job.key, 0) - (if ok then 0 else 1)
            && CountAt(t.dropped, job.key, job.kind) == CountAt(r.dropped, job.key, job.kind) + (if ok then 0 else 1)
            && Alive(t, job.key)
  {
    if HasRoom(r, r.submitters[i].job.key) {
      AcceptingStage(r, i, k);
    } else {
      MoveStage(r, i, Overflowed);
      RollingBackStage(Move(r, i, Overflowed), i);
    }
  }

  /** What a caller sees of it: the job is accepted exactly when its queue has room or
      is new (never below one place), it goes to the back of its own queue and no
      other queue moves; the pending count rises exactly for an accepted job and the
      drop counter of its kind exactly for a refused one; a live worker is
      registered either way. */
  lemma SubmitOutcome(r: Runner, job: Job, k: Key)
    requires PendingAt(r.pending, job.key, 0) >= 0
    ensures var t, ok := Submitting(r, job), Admits(r, job);
            && JobsAt(t.queues, k) == JobsAt(r.queues, k) + (if ok && k == job.key then [job] else [])
            && PendingAt(t.pending, job.key, 0) == PendingAt(r.pending, job.key, 0) + (if ok then 1 else 0)
            && CountAt(t.dropped, job.key, job.kind) == CountAt(r.dropped, job.key, job.kind) + (if ok then 0 else 1)
            && Alive(t, job.key)
  {
    PreparedStage(r, job, k);
    PutOutcome(Prepared(r, job), |r.submitters|, k);
  }

  /* A burst of submissions. */

  function SubmitAll(r: Runner, jobs: seq<Job>): Runner
    decreases |jobs|
  {
    if jobs == [] then r else SubmitAll(Submitting(r, jobs[0]), jobs[1..])
  }

  /** The key's queue was opened with this many places. */
  predicate Sized(r: Runner, k: Key, size: int) {
    k in r.queues && k in r.capacity && r.capacity[k] == size
  }

  lemma PreparedSized(r: Runner, job: Job)
    ensures var p := Prepared(r, job);
            && job.key in p.queues
            && (job.key !in r.queues ==> Sized(p, job.key, Limits.SizeFor(job)))
            && (job.key in r.queues && job.key in r.capacity ==> Sized(p, job.key, r.capacity[job.key]))
  {
    var a, i := Arriving(r, job), |r.submitters|;
    ArrivingStage(r, job);
    Limits.EnsureAsks(a, i);
    hide Ensuring;
    var e := Ensuring(a, i);
    assert e.submitters[i].job == job;
    assert Counting(e, i).queues == e.queues && Counting(e, i).capacity == e.capacity;
  }

  lemma PutSized(p: Runner, i: nat, k: Key, size: int)
    requires i < |p.submitters| && Sized(p, k, size)
    ensures Sized(PutOrDrop(p, i), k, size)
  {
  }

  lemma SubmitSized(r: Runner, job: Job)
    ensures job.key !in r.queues ==> Sized(Submitting(r, job), job.key, Limits.SizeFor(job))
    ensures job.key in r.queues && job.key in r.capacity ==> Sized(Submitting(r, job), job.key, r.capacity[job.key])
  {
    hide Prepared, PutOrDrop, Sized;
    PreparedSized(r, job);
    var p := Prepared(r, job);
    if job.key !in r.queues {
      PutSized(p, |r.submitters|, job.key, Limits.SizeFor(job));
    } else if job.key in r.capacity {
      PutSized(p, |r.submitters|, job.key, r.capacity[job.key]);
    }
  }

  function Least(a: int, b: int): int { if a < b then a else b }

  lemma SubmitStep(r: Runner, job: Job, size: int)
    requires Sized(r, job.key, size) && |JobsAt(r.queues, job.key)| <= size && PendingAt(r.pending, job.key, 0) >= 0
    ensures var t, q := Submitting(r, job), JobsAt(r.queues, job.key);
            && (Admits(r, job) <==> |q| < size)
            && Sized(t, job.key, size) && JobsAt(t.queues, job.key) == (if |q| < size then q + [job] else q)
            && PendingAt(t.pending, job.key, 0) >= 0
  {
    hide Submitting;
    SubmitOutcome(r, job, job.key);
    SubmitSized(r, job);
  }

  /** As many of the jobs as there is room for, behind those that are queued. */
  function Filled(q: seq<Job>, jobs: seq<Job>, size: int): seq<Job>
    requires |q| <= size
  {
    q + jobs[..Least(|jobs|, size - |q|)]
  }

  lemma FilledOn(q: seq<Job>, jobs: seq<Job>, size: int)
    requires jobs != [] && |q| <= size
    ensures Filled(q, jobs, size) == Filled(if |q| < size then q + [jobs[0]] else q, jobs[1..], size)
  {
  }

  lemma {:induction false} BurstQueue(r: Runner, jobs: seq<Job>, k: Key, size: int)
    requires Sized(r, k, size) && |JobsAt(r.queues, k)| <= size && PendingAt(r.pending, k, 0) >= 0
    requires forall i :: 0 <= i < |jobs| ==> jobs[i].key == k
    ensures JobsAt(SubmitAll(r, jobs).queues, k) == Filled(JobsAt(r.queues, k), jobs, size)
    decreases |jobs|
  {
    if jobs == [] {
      assert Filled(JobsAt(r.queues, k), jobs, size) == JobsAt(r.queues, k);
    } else {
      hide Submitting, Admits, Sized, Filled, JobsAt;
      SubmitStep(r, jobs[0], size);
      FilledOn(JobsAt(r.queues, k), jobs, size);
      BurstQueue(Submitting(r, jobs[0]), jobs[1..], k, size);
    }
  }

  lemma {:induction false} BurstAdmits(r: Runner, jobs: seq<Job>, k: Key, size: int, i: nat)
    requires Sized(r, k, size) && |JobsAt(r.queues, k)| <= size && PendingAt(r.pending, k, 0) >= 0
    requires forall i :: 0 <= i < |jobs| ==> jobs[i].key == k
    requires i < |jobs|
    ensures Admits(SubmitAll(r, jobs[..i]), jobs[i]) <==> i < size - |JobsAt(r.queues, k)|
    decreases i
  {
    hide Submitting, Admits;
    SubmitStep(r, jobs[0], size);
    if i > 0 {
      assert jobs[..i][1..] == jobs[1..][..i - 1] && jobs[1..][i - 1] == jobs[i];
      BurstAdmits(Submitting(r, jobs[0]), jobs[1..], k, size, i - 1);
    }
  }

  /** A burst on a key never seen, before its worker takes anything: exactly as many are
      accepted as the first of them allows for, at least one, in the order they came; the
      rest are dropped. */
  lemma FirstBurst(r: Runner, jobs: seq<Job>, k: Key)
    requires jobs != [] && k !in r.queues && PendingAt(r.pending, k, 0) >= 0
    requires forall i :: 0 <= i < |jobs| ==> jobs[i].key == k
    ensures var size := if jobs[0].queueSize < 1 then 1 else jobs[0].queueSize;
            && JobsAt(SubmitAll(r, jobs).queues, k) == (if |jobs| <= size then jobs else jobs[..size])
            && forall i :: 0 <= i < |jobs| ==> (Admits(SubmitAll(r, jobs[..i]), jobs[i]) <==> i < size)
  {
    hide Submitting;
    var t, size, rest := Submitting(r, jobs[0]), Limits.SizeFor(jobs[0]), jobs[1..];
    SubmitOutcome(r, jobs[0], k);
    SubmitSized(r, jobs[0]);
    assert JobsAt(t.queues, k) == [jobs[0]];
    BurstQueue(t, rest, k, size);
    FilledOn([], jobs, size);
    forall i | 0 <= i < |jobs| ensures Admits(SubmitAll(r, jobs[..i]), jobs[i]) <==> i < size {
      if i > 0 {
        BurstAdmits(t, rest, k, size, i - 1);
        assert jobs[..i][1..] == rest[..i - 1] && rest[i - 1] == jobs[i];
      }
    }
  }

  class ShadowRunner {
    var queues: map<Key, seq<Job>>
    var capacity: map<Key, nat>
    var threads: map<Key, nat>
    var pending: map<Key, int>
    var dropped: map<(Key, Kind), nat>
    var pool: seq<Thread>
    ghost var submitters: seq<Submitter>
    ghost var accepted: map<Key, seq<Job>>
    ghost var taken: map<Key, seq<Job>>
    ghost var finished: map<(Key, Kind), nat>

    var windowsScored: Scored
    var seqCache: SeqCache
    var stallWarned: set<(Key, nat)>
    var stalled: map<Key, nat>

    ghost function Books(): Runner
      reads this
    {
      Runner(queues, capacity, threads, pending, dropped, pool, submitters, accepted, taken, finished)
    }

    constructor ()
      ensures Books() == EMPTY && windowsScored == map[] && seqCache == map[] && stalled == map[] && stallWarned == {}
    {
      queues, capacity, threads, pending, dropped, pool := map[], map[], map[], map[], map[], [];
      submitters, accepted, taken, finished := [], map[], map[], map[];
      windowsScored, seqCache, stallWarned, stalled := map[], map[], {}, map[];
    }

    /* The caller's side. */

    ghost method Arrive(job: Job)
      modifies this`submitters
      ensures Books() == Arriving(old(Books()), job)
    {
      submitters := submitters + [Submitter(job, Arrived)];
    }

    method EnsureWorker(ghost i: nat, job: Job)
      requires IsAt(Books(), i, Arrived) && submitters[i].job == job
      modifies this`queues, this`capacity, this`threads, this`pool, this`submitters
      ensures Books() == Ensuring(old(Books()), i)
    {
      submitters := submitters[i := submitters[i].(stage := Ensured)];
      if job.key !in queues {
        queues := queues[job.key := []];
        capacity := capacity[job.key := if job.queueSize < 1 then 1 else job.queueSize];
      }
      if !(job.key in threads && threads[job.key] < |pool| && !pool[threads[job.key]].state.Dead?) {
        threads := threads[job.key := |pool|];
        pool := pool + [Thread(job.key, Waiting)];
      }
    }

    method CountPending(ghost i: nat, job: Job)
      requires IsAt(Books(), i, Ensured) && submitters[i].job == job
      modifies this`pending, this`submitters
      ensures Books() == Counting(old(Books()), i)
    {
      submitters := submitters[i := submitters[i].(stage := Counted)];
      pending := pending[job.key := (if job.key in pending then pending[job.key] else 0) + 1];
    }

    method PutNowait(ghost i: nat, job: Job) returns (full: bool)
      requires IsAt(Books(), i, Counted) && submitters[i].job == job
      modifies this`queues, this`accepted, this`submitters
      ensures Books() == Putting(old(Books()), i)
      ensures full <==> !HasRoom(old(Books()), job.key)
    {
      var q := if job.key in queues then queues[job.key] else [];
      var limit := if job.key in capacity then capacity[job.key] else 1;
      full := |q| >= limit;
      if full {
        submitters := submitters[i := submitters[i].(stage := Overflowed)];
      } else {
        queues := queues[job.key := q + [job]];
        submitters := submitters[i := submitters[i].(stage := Accepted)];
        accepted := accepted[job.key := JobsAt(accepted, job.key) + [job]];
      }
    }

    method RollBack(ghost i: nat, job: Job)
      requires IsAt(Books(), i, Overflowed) && submitters[i].job == job
      modifies this`pending, this`dropped, this`submitters
      ensures Books() == RollingBack(old(Books()), i)
    {
      submitters := submitters[i := submitters[i].(stage := Dropped)];
      var n := (if job.key in pending then pending[job.key] else 1) - 1;
      pending := pending[job.key := if n < 0 then 0 else n];
      dropped := dropped[(job.key, job.kind) := CountAt(dropped, job.key, job.kind) + 1];
    }

    /** A whole `submit`, when nothing else runs in between. */
    method Submit(job: Job) returns (ok: bool)
      modifies this`queues, this`capacity, this`threads, this`pool, this`pending, this`dropped,
               this`submitters, this`accepted
      ensures Books() == Submitting(old(Books()), job)
      ensures ok == Admits(old(Books()), job)
    {
      ghost var r := Books();
      ghost var i := |submitters|;
      Arrive(job);
      ArrivingStage(r, job);
      EnsureWorker(i, job);
      EnsuringStage(Arriving(r, job), i, job.key);
      CountPending(i, job);
      PreparedStage(r, job, job.key);
      var full := PutNowait(i, job);
      if full {
        MoveStage(Prepared(r, job), i, Overflowed);
        RollBack(i, job);
      } else {
        AcceptingStage(Prepared(r, job), i, job.key);
      }
      ok := !full;
    }

    /* The worker's side. */

    method TakeJob(w: nat) returns (job: Job)
      requires ShadowQueue.Enabled(Books(), Take(w))
      modifies this`queues, this`pool, this`taken
      ensures Books() == Taking(old(Books()), w)
      ensures job == old(queues)[old(pool)[w].key][0]
    {
      var k := pool[w].key;
      job := queues[k][0];
      queues := queues[k := queues[k][1..]];
      pool := pool[w := Thread(k, Running(job))];
      taken := taken[k := JobsAt(taken, k) + [job]];
    }

    method FinishJob(w: nat)
      requires ShadowQueue.Enabled(Books(), Finish(w))
      modifies this`pending, this`pool, this`finished
      ensures Books() == Finishing(old(Books()), w)
    {
      var k, job := pool[w].key, pool[w].state.job;
      var n := (if k in pending then pending[k] else 1) - 1;
      pending := pending[k := if n < 0 then 0 else n];
      pool := pool[w := Thread(k, Waiting)];
      finished := finished[(job.key, job.kind) := CountAt(finished, job.key, job.kind) + 1];
    }

    /** Entries of the key at older epochs are deleted one by one. */
    method PruneStaleEpochState(key: Key, epoch: nat)
      modifies this`seqCache, this`stallWarned, this`windowsScored
      ensures seqCache == SeqsWithoutStale(old(seqCache), key, epoch)
      ensures windowsScored == WithoutStale(old(windowsScored), key, epoch)
      ensures stallWarned == set t | t in old(stallWarned) && !(t.0 == key && t.1 < epoch)
      ensures forall t :: t in windowsScored <==> t in old(windowsScored) && (t.0 == key ==> t.1 >= epoch)
      ensures forall t :: t in seqCache <==> t in old(seqCache) && (t.0 == key ==> t.1 >= epoch)
    {
      DropStaleSeqs(key, epoch);
      stallWarned := set t | t in stallWarned && !(t.0 == key && t.1 < epoch);
      DropStaleWindows(key, epoch);
    }

    method DropStaleSeqs(key: Key, epoch: nat)
      modifies this`seqCache
      ensures seqCache == SeqsWithoutStale(old(seqCache), key, epoch)
    {
      ghost var all := seqCache;
      var stale := set t: (Key, nat) | t in seqCache && t.0 == key && t.1 < epoch;
      while stale != {}
        invariant forall t :: t in stale ==> t in all && t.0 == key && t.1 < epoch
        invariant forall t :: t in seqCache <==> t in all && (t in stale || !(t.0 == key && t.1 < epoch))
        invariant forall t :: t in seqCache ==> seqCache[t] == all[t]
      {
        var t: (Key, nat) :| t in stale;
        stale := stale - {t};
        seqCache := seqCache - {t};
      }
    }

    method DropStaleWindows(key: Key, epoch: nat)
      modifies this`windowsScored
      ensures windowsScored == WithoutStale(old(windowsScored), key, epoch)
    {
      ghost var all := windowsScored;
      var stale := set t: (Key, nat, Phase) | t in windowsScored && t.0 == key && t.1 < epoch;
      while stale != {}
        invariant forall t :: t in stale ==> t in all && t.0 == key && t.1 < epoch
        invariant forall t :: t in windowsScored <==> t in all && (t in stale || !(t.0 == key && t.1 < epoch))
        invariant forall t :: t in windowsScored ==> windowsScored[t] == all[t]
      {
        var t: (Key, nat, Phase) :| t in stale;
        stale := stale - {t};
        windowsScored := windowsScored - {t};
      }
    }

    /** The cached number wins over the database's; a first look fills the cache. */
    method CurrentSeq(key: Key, epoch: nat, store: TaskStore, fails: bool) returns (seqNo: nat)
      modifies this`seqCache
      ensures seqNo == KnownSeq(old(seqCache), store.rows, fails, key, epoch)
      ensures seqCache == old(seqCache)[(key, epoch) := seqNo]
    {
      if (key, epoch) in seqCache {
        seqNo := seqCache[(key, epoch)];
        assert seqCache == seqCache[(key, epoch) := seqNo];
      } else {
        seqNo := if fails then 0 else MaxSeq(store.rows, epoch);
        seqCache := seqCache[(key, epoch) := seqNo];
      }
    }

    /** Past the stall point only a sampled comparison goes ahead; `keep` is the draw.
        Nothing is skipped before the stall point, in audit, or with no window. */
    method StallThrottled(key: Key, job: Gate.Job, store: TaskStore, fails: bool, keep: bool) returns (skip: bool)
      modifies this`seqCache, this`stallWarned, this`stalled
      ensures skip == (!keep && Gate.Throttled(job, KnownSeq(old(seqCache), store.rows, fails, key, job.epoch)))
      ensures stalled == if skip then old(stalled)[key := StalledAt(old(stalled), key) + 1] else old(stalled)
      ensures var seqNo := KnownSeq(old(seqCache), store.rows, fails, key, job.epoch);
              && seqCache == (if job.phase == ShadowPhase && job.shadowWindow > 0
                              then old(seqCache)[(key, job.epoch) := seqNo] else old(seqCache))
              && stallWarned == old(stallWarned) + if Gate.Throttled(job, seqNo) then {(key, job.epoch)} else {}
    {
      if job.phase != ShadowPhase || job.shadowWindow <= 0 { return false; }
      var seqNo := CurrentSeq(key, job.epoch, store, fails);
      if seqNo < STALL_FACTOR * job.shadowWindow { return false; }
      stallWarned := stallWarned + {(key, job.epoch)};
      if !keep {
        stalled := stalled[key := StalledAt(stalled, key) + 1];
        return true;
      }
      skip := false;
    }

    method WindowStats(job: Gate.Job, store: TaskStore) returns (stats: Stats)
      requires job.Window() > 0
      ensures (stats.Counts? && stats.samples == job.Window()) == (|Matching(store.rows, job.epoch, job.phase)| >= job.Window())
      ensures stats.Counts? ==> stats.agree == Agreements(Newest(store.rows, job.epoch, job.phase, job.Window()))
    {
      FullStats(store.rows, job.epoch, job.phase, job.Window());
      stats := AgreementStats(store.rows, job.epoch, job.phase, job.Window());
    }

    method WindowIsDue(key: Key, job: Gate.Job, seqNo: nat) returns (due: bool)
      ensures due == Due(job.phase, job.Window(), seqNo, ScoredBefore(windowsScored, key, job))
    {
      var window := job.Window();
      if window <= 0 || seqNo == 0 { return false; }
      var before := ScoredBefore(windowsScored, key, job);
      if seqNo < (before + 1) * window { return false; }
      due := !(job.phase == ShadowPhase && seqNo > STALL_FACTOR * window);
    }

    /** Score the window if it is due and full, and its statistics can be read. */
    method ScoreWindow(key: Key, job: Gate.Job, seqNo: nat, store: TaskStore, fails: bool) returns (rate: Option<real>)
      modifies this`windowsScored
      ensures rate.Some? == (!fails && Scores(old(windowsScored), key, job, seqNo, store.rows))
      ensures rate.Some? ==> rate.value == GateRate(job, store.rows)
      ensures windowsScored == if fails then old(windowsScored) else AfterScoring(old(windowsScored), key, job, seqNo, store.rows)
    {
      var due := WindowIsDue(key, job, seqNo);
      if !due || fails { return None; }
      var stats := WindowStats(job, store);
      if stats == Unfillable || stats.samples != job.Window() { return None; }
      var before := ScoredBefore(windowsScored, key, job);
      windowsScored := windowsScored[(key, job.epoch, job.phase) := Max(before + 1, seqNo / job.Window())];
      rate := Some(stats.agree as real / stats.samples as real);
    }

    /** After a stored comparison: move the task only on a window scored now, on a
        clearing rate, and only at the job's own epoch.  A database error while reading
        or moving is swallowed. */
    method MaybeTransition(key: Key, job: Gate.Job, seqNo: nat, store: TaskStore, readFails: bool, moveFails: bool)
      modifies this`windowsScored, store`status, store`epoch
      ensures var before := old(windowsScored);
              windowsScored == if readFails then before else AfterScoring(before, key, job, seqNo, store.rows)
      ensures var wins := !readFails && !moveFails
                          && Wins(old(windowsScored), key, job, seqNo, store.rows, old(store.epoch), old(store.status));
              if wins then store.epoch == job.epoch + 1 && store.status == (if job.phase == ShadowPhase then Ready else Shadow)
              else store.epoch == old(store.epoch) && store.status == old(store.status)
    {
      var rate := ScoreWindow(key, job, seqNo, store, readFails);
      if rate.Some? { ClearingRate(job, store.rows); }
      if rate.Some? && !moveFails {
        if job.phase == ShadowPhase {
          if rate.value >= job.shadowThreshold { var _ := store.TryPromote(job.epoch); }
        } else if rate.value < job.demoteThreshold {
          var _ := store.TryDemote(job.epoch);
        }
      }
    }

    /** Pending jobs over a list of keys. */
    method TotalPending(keys: seq<Key>) returns (total: int)
      ensures total == PendingOver(Books(), keys)
    {
      total := 0;
      var i := |keys|;
      while i > 0
        invariant 0 <= i <= |keys| && total == PendingOver(Books(), keys[i..])
      {
        i := i - 1;
        assert keys[i..][1..] == keys[i + 1..];
        total := (if keys[i] in pending then pending[keys[i]] else 0) + total;
      }
      assert keys[0..] == keys;
    }
  }
}
