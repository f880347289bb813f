/** What the gate does with one comparison, in counts: when the task moves, in either
    direction, and which comparisons the stall guard lets through.
 */
module GateOutcome {
  import opened TraceDb
  import opened ShadowWindow
  import opened ShadowGate

  /* What a stored comparison does to the task. */

  /** The rest of a comparison's handling once it is stored, with nothing in between:
      check, read and decide; either database access may fail. */
  function Settled(s: State, p: nat, readFails: bool, moveFails: bool): State
    requires Enabled(s, Check(p))
  {
    var t := CheckDue(s, p);
    if !t.procs[p].pc.Pending? then t
    else
      var u := ReadStats(t, p, readFails);
      if !u.procs[p].pc.Scored? || u.procs[p].pc.window == [] then u else DecideMove(u, p, moveFails)
  }

  /** The window the statistics would be read over now. */
  function Last(rows: seq<Row>, job: Job): seq<Row>
    requires job.Window() > 0
  {
    Newest(rows, job.epoch, job.phase, job.Window())
  }

  lemma SettledIsARun(s: State, p: nat, readFails: bool, moveFails: bool) returns (acts: seq<Action>)
    requires Enabled(s, Check(p))
    ensures Runs(s, acts) && Exec(s, acts) == Settled(s, p, readFails, moveFails)
  {
    var t := CheckDue(s, p);
    assert Runs(s, []) && Exec(s, []) == s;
    acts := Then(s, [], Check(p));
    if t.procs[p].pc.Pending? {
      acts := Then(s, acts, Read(p, readFails));
      var u := ReadStats(t, p, readFails);
      if u.procs[p].pc.Scored? && u.procs[p].pc.window != [] { acts := Then(s, acts, Decide(p, moveFails)); }
    }
  }

  /** Full, due at or past its boundary and, in the shadow phase, not past five windows. */
  predicate WindowCounts(rows: seq<Row>, job: Job, n: nat, scored: nat) {
    && job.Window() > 0 && n > 0 && (scored + 1) * job.Window() <= n
    && (job.phase == ShadowPhase ==> n <= 5 * job.Window())
    && |Matching(rows, job.epoch, job.phase)| >= job.Window()
  }

  lemma RateIsAShare(window: seq<Row>, threshold: real)
    requires window != []
    ensures Rate(window) >= threshold <==> |Carrying(window, Agree)| as real >= threshold * |window| as real
  {
    TallyCounts(window, Agree);
    var a, n := Agreements(window) as real, |window| as real;
    assert Rate(window) * n == a;
    if Rate(window) >= threshold { Scaled(threshold, Rate(window), n); } else { Scaled(Rate(window), threshold, n); }
  }

  lemma Scaled(x: real, y: real, n: real)
    requires x <= y && n > 0.0
    ensures x * n <= y * n && (x < y ==> x * n < y * n)
  {
  }

  lemma ReadOutcome(s: State, p: nat, fails: bool)
    requires Enabled(s, Read(p, fails))
    ensures var q, t := s.procs[p], ReadStats(s, p, fails);
            var k := (q.pc.job.epoch, q.pc.job.phase);
            && t.procs.Keys == s.procs.Keys && t.rows == s.rows && t.past == s.past
            && if !fails && |Matching(s.rows, q.pc.job.epoch, q.pc.job.phase)| >= q.pc.job.Window() then
                 && t.procs[p].pc == Scored(q.pc.job, q.pc.seqNo, |s.ever|, Last(s.rows, q.pc.job))
                 && |Last(s.rows, q.pc.job)| == q.pc.job.Window()
                 && t.procs[p].scored == q.scored[k := NextScored(q.pc.job.Window(), q.pc.seqNo, Get(q.scored, k))]
               else t.procs[p].pc.Idle? && t.procs[p].scored == q.scored
  {
  }

  /** The status a full window calls for, if any. */
  function Called(job: Job, window: seq<Row>, now: Status): seq<Status> {
    var agreeing, w := |Carrying(window, Agree)| as real, |window| as real;
    if job.phase == ShadowPhase && now == Shadow && agreeing >= job.shadowThreshold * w then [Ready]
    else if job.phase == AuditPhase && now == Ready && agreeing < job.demoteThreshold * w then [Shadow]
    else []
  }

  lemma DecideOutcome(s: State, p: nat, fails: bool)
    requires Enabled(s, Decide(p, fails))
    ensures var q, t := s.procs[p], DecideMove(s, p, fails);
            && t.procs == s.procs[p := q.(pc := Idle)] && t.rows == s.rows
            && t.past == s.past +
                 if fails || q.pc.job.epoch != |s.past| - 1 then [] else Called(q.pc.job, q.pc.window, Now(s))
  {
    var pc := s.procs[p].pc;
    RateIsAShare(pc.window, pc.job.shadowThreshold);
    RateIsAShare(pc.window, pc.job.demoteThreshold);
  }

  predicate Counting(rows: seq<Row>, job: Job, n: nat, scored: nat) {
    Due(job.phase, job.Window(), n, scored) && |Matching(rows, job.epoch, job.phase)| >= job.Window()
  }

  lemma SettledMoves(s: State, p: nat, readFails: bool, moveFails: bool)
    requires Enabled(s, Check(p))
    ensures var job, n := s.procs[p].pc.job, s.procs[p].pc.seqNo;
            var k := (job.epoch, job.phase);
            var t := Settled(s, p, readFails, moveFails);
            && t.procs.Keys == s.procs.Keys && t.rows == s.rows
            && if !readFails && Counting(s.rows, job, n, Get(s.procs[p].scored, k)) then
                 && t.procs[p].scored == s.procs[p].scored[k := NextScored(job.Window(), n, Get(s.procs[p].scored, k))]
                 && |Last(s.rows, job)| == job.Window()
                 && t.past == s.past +
                      if moveFails || job.epoch != |s.past| - 1 then [] else Called(job, Last(s.rows, job), Now(s))
               else t.procs[p].scored == s.procs[p].scored && t.past == s.past
  {
    hide Matching, Newest, Called, ReadStats, DecideMove;
    var t := CheckDue(s, p);
    if t.procs[p].pc.Pending? {
      ReadOutcome(t, p, readFails);
      var u := ReadStats(t, p, readFails);
      if u.procs[p].pc.Scored? { DecideOutcome(u, p, moveFails); }
    }
  }

  /** A stored comparison moves the task exactly when its window counts, the agreeing
      comparisons of the window are many enough for a promotion or too few for staying
      ready, and the task is still at the job's epoch and in the job's phase; then a
      shadow task becomes ready and a ready one shadow, one epoch on. */
  lemma SettledByCounts(s: State, p: nat, readFails: bool, moveFails: bool)
    requires Enabled(s, Check(p))
    ensures var job, n := s.procs[p].pc.job, s.procs[p].pc.seqNo;
            var scored := Get(s.procs[p].scored, (job.epoch, job.phase));
            var counts := !readFails && WindowCounts(s.rows, job, n, scored);
            var t := Settled(s, p, readFails, moveFails);
            && t.procs.Keys == s.procs.Keys && t.rows == s.rows
            && t.procs[p].scored ==
                 (if counts then s.procs[p].scored[(job.epoch, job.phase) := n / job.Window()] else s.procs[p].scored)
            && t.past == s.past +
                 if !counts || moveFails || job.epoch != |s.past| - 1 then []
                 else
                   var agreeing, w := |Carrying(Last(s.rows, job), Agree)| as real, job.Window() as real;
                   if job.phase == ShadowPhase && Now(s) == Shadow && agreeing >= job.shadowThreshold * w then [Ready]
                   else if job.phase == AuditPhase && Now(s) == Ready && agreeing < job.demoteThreshold * w then [Shadow]
                   else []
  {
    hide Newest, Carrying, Settled;
    var job, n := s.procs[p].pc.job, s.procs[p].pc.seqNo;
    var k := (job.epoch, job.phase);
    SettledMoves(s, p, readFails, moveFails);
    if Due(job.phase, job.Window(), n, Get(s.procs[p].scored, k)) {
      ScoringAdvances(job.phase, job.Window(), n, Get(s.procs[p].scored, k));
    }
  }

  /* The stall guard. */

  /** A shadow job is up for skipping exactly when no later comparison of its epoch could
      be scored, whatever has been scored before: the guard costs no promotion draw and
      lets no hopeless comparison through. */
  lemma ThrottleLosesNoDraw(job: Job, seqNo: nat)
    requires job.phase == ShadowPhase && job.shadowWindow > 0
    ensures Throttled(job, seqNo)
            <==> forall n: nat, scored: nat :: n > seqNo ==> !Due(ShadowPhase, job.shadowWindow, n, scored)
  {
    if forall n: nat, scored: nat :: n > seqNo ==> !Due(ShadowPhase, job.shadowWindow, n, scored) {
      var last := STALL_FACTOR * job.shadowWindow;
      assert last <= seqNo || Due(ShadowPhase, job.shadowWindow, last, 0);
    } else {
      var n: nat, scored: nat :| n > seqNo && Due(ShadowPhase, job.shadowWindow, n, scored);
    }
  }

  /** Some comparison of the epoch was recorded with this number. */
  ghost predicate Numbers(ever: seq<Row>, epoch: nat, n: nat) {
    exists i :: 0 <= i < |ever| && ever[i].epoch == epoch && ever[i].seqNo == n
  }

  ghost predicate CacheOk(ever: seq<Row>, q: Proc) {
    forall e :: e in q.seqCache ==> q.seqCache[e] == 0 || Numbers(ever, e, q.seqCache[e])
  }

  ghost predicate CachesOk(s: State) {
    RowsGood(s) && forall p :: p in s.procs ==> CacheOk(s.ever, s.procs[p])
  }

  lemma {:induction false} MaxIsNumbered(rows: seq<Row>, epoch: nat)
    ensures MaxSeq(rows, epoch) == 0 || Numbers(rows, epoch, MaxSeq(rows, epoch))
    decreases |rows|
  {
    if rows != [] {
      var rest := rows[..|rows| - 1];
      MaxIsNumbered(rest, epoch);
      var m := MaxSeq(rows, epoch);
      if m != 0 && m == MaxSeq(rest, epoch) {
        var i :| 0 <= i < |rest| && rest[i].epoch == epoch && rest[i].seqNo == m;
        assert rows[i].seqNo == m;
      } else if m != 0 {
        assert rows[|rows| - 1].seqNo == m;
      }
    }
  }

  lemma NumbersGrow(a: seq<Row>, ever: seq<Row>, k: nat, epoch: nat, n: nat)
    requires k + |a| <= |ever| && a == ever[k..k + |a|] && Numbers(a, epoch, n)
    ensures Numbers(ever, epoch, n)
  {
    var i :| 0 <= i < |a| && a[i].epoch == epoch && a[i].seqNo == n;
    assert ever[k + i] == a[i];
  }

  lemma CacheGrows(ever: seq<Row>, ever': seq<Row>, q: Proc)
    requires CacheOk(ever, q) && ever <= ever'
    ensures CacheOk(ever', q)
  {
    forall e | e in q.seqCache && q.seqCache[e] != 0 ensures Numbers(ever', e, q.seqCache[e]) {
      NumbersGrow(ever, ever', 0, e, q.seqCache[e]);
    }
  }

  lemma SeenIsNumbered(s: State, q: Proc, epoch: nat)
    requires RowsGood(s) && CacheOk(s.ever, q)
    ensures var n := CurrentSeq(s.rows, q, epoch); n == 0 || Numbers(s.ever, epoch, n)
  {
    var n := CurrentSeq(s.rows, q, epoch);
    if epoch !in q.seqCache && n != 0 {
      MaxIsNumbered(s.rows, epoch);
      NumbersGrow(s.rows, s.ever, |s.ever| - |s.rows|, epoch, n);
    }
  }

  lemma AdmitCaches(s: State, p: nat, keep: bool)
    requires CachesOk(s) && Enabled(s, Admit(p, keep))
    ensures CachesOk(AdmitJob(s, p, keep))
  {
    var job := s.procs[p].pc.job;
    var q := PruneStale(s.procs[p], job.epoch);
    assert CacheOk(s.ever, q);
    SeenIsNumbered(s, q, job.epoch);
  }

  lemma StoreCaches(s: State, p: nat)
    requires CachesOk(s) && Enabled(s, Store(p))
    ensures CachesOk(StoreRow(s, p))
  {
    var t := StoreRow(s, p);
    var job, n := s.procs[p].pc.job, t.procs[p].pc.seqNo;
    forall q | q in t.procs ensures CacheOk(t.ever, t.procs[q]) {
      CacheGrows(s.ever, t.ever, s.procs[q]);
      if q == p && n > 0 { assert t.ever[|s.ever|].seqNo == n && Numbers(t.ever, job.epoch, n); }
    }
  }

  lemma StepCaches(s: State, a: Action)
    requires CachesOk(s) && Enabled(s, a)
    ensures CachesOk(Apply(s, a))
  {
    if a.Admit? { AdmitCaches(s, a.p, a.keep); } else if a.Store? { StoreCaches(s, a.p); }
  }

  lemma {:induction false} ExecCaches(s: State, acts: seq<Action>)
    requires CachesOk(s) && Runs(s, acts)
    ensures CachesOk(Exec(s, acts))
    decreases |acts|
  {
    if acts != [] {
      StepCaches(s, acts[0]);
      ExecCaches(Apply(s, acts[0]), acts[1..]);
    }
  }

  /** In every run a job is skipped only in the shadow phase, with a window, and once some
      comparison of its epoch has been given a number of five windows or more. */
  lemma SkippedOnlyPastTheStallPoint(acts: seq<Action>, p: nat)
    requires Runs(START, acts) && Enabled(Exec(START, acts), Admit(p, false))
    ensures var s := Exec(START, acts);
            var job := s.procs[p].pc.job;
            && job.phase == ShadowPhase && job.shadowWindow > 0
            && exists n :: n >= 5 * job.shadowWindow && Numbers(s.ever, job.epoch, n)
  {
    ExecCaches(START, acts);
    var s := Exec(START, acts);
    var job := s.procs[p].pc.job;
    var q := PruneStale(s.procs[p], job.epoch);
    assert CacheOk(s.ever, s.procs[p]);
    SeenIsNumbered(s, q, job.epoch);
    assert CurrentSeq(s.rows, q, job.epoch) >= 5 * job.shadowWindow;
  }

  /** With one process and nothing pruned, every cached number is the count of countable
      comparisons recorded at its epoch. */
  ghost predicate CountsRight(s: State, p: nat) {
    && s.rows == s.ever && WellNumbered(s.ever) && s.procs.Keys <= {p}
    && (forall e :: MaxSeq(s.ever, e) == |CountableRows(s.ever, e)|)
    && (p in s.procs ==> forall e :: e in s.procs[p].seqCache ==> s.procs[p].seqCache[e] == |CountableRows(s.ever, e)|)
  }

  predicate NothingPruned(a: Action) { a.Retain? ==> a.cap == 0 }

  lemma StoreCounts(s: State, p: nat)
    requires CountsRight(s, p) && Enabled(s, Store(p))
    ensures CountsRight(StoreRow(s, p), p)
  {
    var job, v := s.procs[p].pc.job, s.procs[p].pc.verdict;
    var t := StoreRow(s, p);
    RecordKeepsNumbering(s.rows, job.epoch, job.phase, v);
    assert t.ever == Record(s.ever, job.epoch, job.phase, v);
    forall e ensures MaxSeq(t.ever, e) == |CountableRows(t.ever, e)|
                     && |CountableRows(t.ever, e)| == |CountableRows(s.ever, e)| + if e == job.epoch && Countable(v) then 1 else 0
    {
      RecordCountable(s.ever, job.epoch, job.phase, v, e);
      assert t.ever[..|s.ever|] == s.ever;
      assert MaxSeq(s.ever, e) == |CountableRows(s.ever, e)|;
    }
  }

  lemma StepCounts(s: State, a: Action, p: nat)
    requires CountsRight(s, p) && Enabled(s, a) && ByProcess(a, p) && NothingPruned(a)
    ensures CountsRight(Apply(s, a), p)
  {
    if a.Store? { StoreCounts(s, p); }
  }

  lemma {:induction false} ExecCounts(s: State, acts: seq<Action>, p: nat)
    requires CountsRight(s, p) && Runs(s, acts)
    requires forall i :: 0 <= i < |acts| ==> ByProcess(acts[i], p) && NothingPruned(acts[i])
    ensures CountsRight(Exec(s, acts), p)
    decreases |acts|
  {
    if acts != [] {
      StepCounts(s, acts[0], p);
      forall i | 0 <= i < |acts[1..]| ensures ByProcess(acts[1..][i], p) && NothingPruned(acts[1..][i]) {
        assert acts[1..][i] == acts[i + 1];
      }
      ExecCounts(Apply(s, acts[0]), acts[1..], p);
    }
  }

  /** With one process on a database that keeps everything the guard is exact: the next
      shadow job can be skipped if and only if five windows of countable comparisons have
      been recorded at its epoch. */
  lemma SoleProcessSkips(acts: seq<Action>, p: nat)
    requires Runs(START, acts) && forall i :: 0 <= i < |acts| ==> ByProcess(acts[i], p) && NothingPruned(acts[i])
    requires var s := Exec(START, acts);
             p in s.procs && s.procs[p].pc.Picked? && s.procs[p].pc.job.phase == ShadowPhase
             && s.procs[p].pc.job.shadowWindow > 0
    ensures var s := Exec(START, acts);
            var job := s.procs[p].pc.job;
            Enabled(s, Admit(p, false)) <==> |CountableRows(s.ever, job.epoch)| >= 5 * job.shadowWindow
  {
    FreshNumbering();
    ExecCounts(START, acts, p);
    EpochsOnlyRise(START, acts);
    var s := Exec(START, acts);
    var job := s.procs[p].pc.job;
    assert MaxSeq(s.ever, job.epoch) == |CountableRows(s.ever, job.epoch)|;
  }

  /** Taking up a job forgets what was recorded at older epochs than the job's, and
      nothing else, whether the job goes ahead or is skipped. */
  lemma AdmitForgetsOlderEpochs(s: State, p: nat, keep: bool)
    requires Enabled(s, Admit(p, keep))
    ensures var q, t, e := s.procs[p], AdmitJob(s, p, keep).procs[p], s.procs[p].pc.job.epoch;
            && t.pc == (if keep then Going(q.pc.job) else Idle) && t.queue == q.queue
            && (forall k :: k in t.scored <==> k in q.scored && k.0 >= e)
            && (forall k :: k in t.scored ==> t.scored[k] == q.scored[k])
            && (forall n :: n != e ==> (n in t.seqCache <==> n in q.seqCache && n > e))
            && (forall n :: n in t.seqCache && n in q.seqCache ==> t.seqCache[n] == q.seqCache[n])
  {
  }
}
