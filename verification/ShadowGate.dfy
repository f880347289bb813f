/** The promotion gate of one task as a whole: any number of processes, each with one
    worker thread draining its own queue, share one database with compile workers
    and administrators.  Every database transaction and every locked section is one
    action, so a run is any interleaving of them.
 */
module ShadowGate {
  import opened TraceDb
  import opened ShadowWindow

  datatype Job = Job(
    epoch: nat, phase: Phase,
    shadowWindow: int, auditWindow: int,
    shadowThreshold: real, demoteThreshold: real)
  {
    function Window(): int {
      if phase == ShadowPhase then shadowWindow else auditWindow
    }
  }

  /** Where a worker stands with the job it took. */
  datatype Pc =
    | Idle
    | Picked(job: Job)
    | Going(job: Job)
    | Judged(job: Job, verdict: Verdict)
    | Stored(job: Job, seqNo: nat)
    | Pending(job: Job, seqNo: nat)
    | Scored(job: Job, seqNo: nat, asOf: nat, window: seq<Row>)

  datatype Proc = Proc(queue: seq<Job>, pc: Pc, scored: map<(nat, Phase), nat>, seqCache: map<nat, nat>)

  /** Why a task changed status. */
  datatype Why =
    | ByWindow(job: Job, seqNo: nat, asOf: nat, window: seq<Row>)
    | ByCompile
    | OptedOut
    | Administrative

  datatype Transition = Transition(from: Status, to: Status, why: Why)

  /** One scored window: who scored it, at which comparison, how many comparisons had
      been recorded when it was read, what it held, and whether its epoch was still
      the live one. */
  datatype Draw = Draw(proc: nat, job: Job, seqNo: nat, asOf: nat, window: seq<Row>, live: bool)

  /** `past[e]` is the status at epoch `e` and `log[e]` the transition into `e + 1`;
      `rows` is what retention has left of `ever`, all comparisons ever recorded. */
  datatype State = State(
    past: seq<Status>,
    log: seq<Transition>,
    rows: seq<Row>,
    ever: seq<Row>,
    procs: map<nat, Proc>,
    draws: seq<Draw>)

  datatype Action =
    | Spawn(p: nat)
    | Submit(p: nat, job: Job)
    | Pick(p: nat)
    | Admit(p: nat, keep: bool)
    | Judge(p: nat, verdict: Verdict)
    | Store(p: nat)
    | StoreFails(p: nat)
    | Check(p: nat)
    | Read(p: nat, fails: bool)
    | Decide(p: nat, fails: bool)
    | Retain(cap: nat)
    | Claim
    | ShadowStarted
    | ReadyFromCompile
    | EscapeHatch(epoch: nat)
    | SetStatus(status: Status)
    | ConfigChange

  const START := State([Tracing], [], [], [], map[], [])

  function Epoch(s: State): nat
    requires s.past != []
  {
    |s.past| - 1
  }

  function Now(s: State): Status
    requires s.past != []
  {
    s.past[|s.past| - 1]
  }

  function Serving(phase: Phase): Status {
    if phase == ShadowPhase then Shadow else Ready
  }

  /** A job carries an epoch at which the task really was in the job's phase: the
      caller read both in one query, possibly long ago. */
  predicate Routed(past: seq<Status>, job: Job) {
    job.epoch < |past| && past[job.epoch] == Serving(job.phase)
  }

  function Get(m: map<(nat, Phase), nat>, k: (nat, Phase)): nat {
    if k in m then m[k] else 0
  }

  predicate Has(s: State, p: nat) { p in s.procs }

  function SetPc(s: State, p: nat, pc: Pc): State
    requires Has(s, p)
  {
    s.(procs := s.procs[p := s.procs[p].(pc := pc)])
  }

  /** The sequence number the stall guard goes by: the cached one, else the database's. */
  function CurrentSeq(rows: seq<Row>, q: Proc, epoch: nat): nat {
    if epoch in q.seqCache then q.seqCache[epoch] else MaxSeq(rows, epoch)
  }

  predicate Throttled(job: Job, seqNo: nat) {
    job.phase == ShadowPhase && job.shadowWindow > 0 && seqNo >= STALL_FACTOR * job.shadowWindow
  }

  /** Bookkeeping of epochs older than the job's is dropped. */
  function PruneStale(q: Proc, epoch: nat): Proc {
    q.(scored := map k | k in q.scored && k.0 >= epoch :: q.scored[k],
       seqCache := map e | e in q.seqCache && e >= epoch :: q.seqCache[e])
  }

  function Advance(s: State, to: Status, why: Why): State
    requires s.past != []
  {
    s.(past := s.past + [to], log := s.log + [Transition(Now(s), to, why)])
  }

  /** Compare-and-set on status and epoch together. */
  function TryMove(s: State, from: Status, to: Status, epoch: nat, why: Why): State
    requires s.past != []
  {
    if Now(s) == from && Epoch(s) == epoch then Advance(s, to, why) else s
  }

  function Rate(window: seq<Row>): real
    requires window != []
  {
    Agreements(window) as real / |window| as real
  }

  predicate Enabled(s: State, a: Action) {
    s.past != [] &&
    match a
    case Spawn(p) => p !in s.procs
    case Submit(p, job) => Has(s, p) && Routed(s.past, job)
    case Pick(p) => Has(s, p) && s.procs[p].pc.Idle? && s.procs[p].queue != []
    case Admit(p, keep) =>
      Has(s, p) && s.procs[p].pc.Picked? &&
      (keep || var job := s.procs[p].pc.job;
               Throttled(job, CurrentSeq(s.rows, PruneStale(s.procs[p], job.epoch), job.epoch)))
    case Judge(p, v) =>
      Has(s, p) && s.procs[p].pc.Going? && (v == PoolExhausted ==> s.procs[p].pc.job.phase == ShadowPhase)
    case Store(p) => Has(s, p) && s.procs[p].pc.Judged?
    case StoreFails(p) => Has(s, p) && s.procs[p].pc.Judged?
    case Check(p) => Has(s, p) && s.procs[p].pc.Stored?
    case Read(p, _) => Has(s, p) && s.procs[p].pc.Pending? && s.procs[p].pc.job.Window() > 0
    case Decide(p, _) => Has(s, p) && s.procs[p].pc.Scored? && s.procs[p].pc.window != []
    case Retain(cap) => true
    case Claim => Now(s) == Tracing
    case ShadowStarted => true
    case ReadyFromCompile => true
    case EscapeHatch(_) => true
    case SetStatus(st) => (st == Tracing || st == Failed) && Now(s) != st
    case ConfigChange => Now(s) == Shadow || Now(s) == Ready
  }

  function AdmitJob(s: State, p: nat, keep: bool): State
    requires Enabled(s, Admit(p, keep))
  {
    var job := s.procs[p].pc.job;
    var q := PruneStale(s.procs[p], job.epoch);
    var seen := CurrentSeq(s.rows, q, job.epoch);
    var q' := if job.phase == ShadowPhase && job.shadowWindow > 0
              then q.(seqCache := q.seqCache[job.epoch := seen]) else q;
    s.(procs := s.procs[p := q'.(pc := if keep then Going(job) else Idle)])
  }

  function StoreRow(s: State, p: nat): State
    requires Enabled(s, Store(p))
  {
    var q := s.procs[p];
    var job := q.pc.job;
    var n := NextSeq(s.rows, job.epoch, q.pc.verdict);
    var q' := if n > 0 then q.(seqCache := q.seqCache[job.epoch := n]) else q;
    s.(rows := Record(s.rows, job.epoch, job.phase, q.pc.verdict),
       ever := s.ever + [Row(job.epoch, n, job.phase, q.pc.verdict)],
       procs := s.procs[p := q'.(pc := Stored(job, n))])
  }

  function CheckDue(s: State, p: nat): State
    requires Enabled(s, Check(p))
  {
    var q := s.procs[p];
    var job := q.pc.job;
    SetPc(s, p, if Due(job.phase, job.Window(), q.pc.seqNo, Get(q.scored, (job.epoch, job.phase)))
                then Pending(job, q.pc.seqNo) else Idle)
  }

  function ReadStats(s: State, p: nat, fails: bool): State
    requires Enabled(s, Read(p, fails))
  {
    var q := s.procs[p];
    var job, n := q.pc.job, q.pc.seqNo;
    var w := job.Window();
    var st := AgreementStats(s.rows, job.epoch, job.phase, w);
    if fails || st == Unfillable || st.samples != w then SetPc(s, p, Idle)
    else
      var k := (job.epoch, job.phase);
      var win := Newest(s.rows, job.epoch, job.phase, w);
      s.(procs := s.procs[p := q.(scored := q.scored[k := NextScored(w, n, Get(q.scored, k))],
                                  pc := Scored(job, n, |s.ever|, win))],
         draws := s.draws + [Draw(p, job, n, |s.ever|, win, job.epoch == Epoch(s))])
  }

  /** Promote on a rate at or above the threshold, demote on one strictly below. */
  function DecideMove(s: State, p: nat, fails: bool): State
    requires Enabled(s, Decide(p, fails))
  {
    var pc := s.procs[p].pc;
    var job := pc.job;
    var t := SetPc(s, p, Idle);
    var why := ByWindow(job, pc.seqNo, pc.asOf, pc.window);
    if fails then t
    else if job.phase == ShadowPhase then
      if Rate(pc.window) >= job.shadowThreshold then TryMove(t, Shadow, Ready, job.epoch, why) else t
    else
      if Rate(pc.window) < job.demoteThreshold then TryMove(t, Ready, Shadow, job.epoch, why) else t
  }

  function Apply(s: State, a: Action): State
    requires Enabled(s, a)
  {
    match a
    case Spawn(p) => s.(procs := s.procs[p := Proc([], Idle, map[], map[])])
    case Submit(p, job) => s.(procs := s.procs[p := s.procs[p].(queue := s.procs[p].queue + [job])])
    case Pick(p) =>
      var q := s.procs[p];
      s.(procs := s.procs[p := q.(queue := q.queue[1..], pc := Picked(q.queue[0]))])
    case Admit(p, keep) => AdmitJob(s, p, keep)
    case Judge(p, v) => SetPc(s, p, Judged(s.procs[p].pc.job, v))
    case Store(p) => StoreRow(s, p)
    case StoreFails(p) => SetPc(s, p, Idle)
    case Check(p) => CheckDue(s, p)
    case Read(p, fails) => ReadStats(s, p, fails)
    case Decide(p, fails) => DecideMove(s, p, fails)
    case Retain(cap) => s.(rows := Pruned(s.rows, cap))
    case Claim => Advance(s, Compiling, Administrative)
    case ShadowStarted => Advance(s, Shadow, ByCompile)
    case ReadyFromCompile => Advance(s, Ready, OptedOut)
    case EscapeHatch(e) => TryMove(s, Shadow, Ready, e, OptedOut)
    case SetStatus(st) => Advance(s, st, Administrative)
    case ConfigChange => Advance(s, Now(s), Administrative)
  }

  predicate Runs(s: State, acts: seq<Action>)
    decreases |acts|
  {
    acts == [] || (Enabled(s, acts[0]) && Runs(Apply(s, acts[0]), acts[1..]))
  }

  function Exec(s: State, acts: seq<Action>): State
    requires Runs(s, acts)
    decreases |acts|
  {
    if acts == [] then s else Exec(Apply(s, acts[0]), acts[1..])
  }

  /* What every step keeps. */

  /** A window as the gate demands it: full, and exactly the newest comparisons of
      the job's epoch and phase among all that had been recorded at that moment. */
  ghost predicate FullWindowOf(ever: seq<Row>, job: Job, asOf: nat, window: seq<Row>) {
    && asOf <= |ever| && job.Window() > 0 && |window| == job.Window()
    && window == Newest(ever[..asOf], job.epoch, job.phase, job.Window())
  }

  ghost predicate PcGood(s: State, q: Proc) {
    match q.pc
    case Idle => true
    case Picked(job) => Routed(s.past, job)
    case Going(job) => Routed(s.past, job)
    case Judged(job, _) => Routed(s.past, job)
    case Stored(job, _) => Routed(s.past, job)
    case Pending(job, n) =>
      Routed(s.past, job) && Due(job.phase, job.Window(), n, Get(q.scored, (job.epoch, job.phase)))
    case Scored(job, n, asOf, win) =>
      && Routed(s.past, job) && FullWindowOf(s.ever, job, asOf, win)
      && (job.phase == ShadowPhase ==> n <= STALL_FACTOR * job.Window())
  }

  ghost predicate ProcGood(s: State, q: Proc) {
    && (forall i :: 0 <= i < |q.queue| ==> Routed(s.past, q.queue[i]))
    && PcGood(s, q)
    && (forall k :: k in q.scored && k.1 == ShadowPhase ==> q.scored[k] <= STALL_FACTOR)
  }

  ghost predicate ProcsGood(s: State) {
    forall p :: p in s.procs ==> ProcGood(s, s.procs[p])
  }

  /** The change into epoch `e + 1` is one the gate allows. */
  ghost predicate Justified(s: State, e: nat, t: Transition)
    requires e + 1 < |s.past|
  {
    && t.from == s.past[e] && t.to == s.past[e + 1]
    && (t.why.ByWindow? ==>
          && t.why.job.epoch == e && FullWindowOf(s.ever, t.why.job, t.why.asOf, t.why.window)
          && (t.why.job.phase == ShadowPhase ==>
                && t.from == Shadow && t.to == Ready
                && Rate(t.why.window) >= t.why.job.shadowThreshold
                && t.why.seqNo <= STALL_FACTOR * t.why.job.Window())
          && (t.why.job.phase == AuditPhase ==>
                t.from == Ready && t.to == Shadow && Rate(t.why.window) < t.why.job.demoteThreshold))
    && (t.from == Shadow && t.to == Ready ==> t.why.ByWindow? || t.why.OptedOut?)
    && (t.from == Ready && t.to == Shadow ==> t.why.ByWindow? || t.why.ByCompile?)
  }

  ghost predicate LogGood(s: State) {
    && |s.past| == |s.log| + 1
    && forall e :: 0 <= e < |s.log| ==> Justified(s, e, s.log[e])
  }

  /** Retention only ever drops the oldest comparisons. */
  ghost predicate RowsGood(s: State) {
    |s.rows| <= |s.ever| && s.rows == s.ever[|s.ever| - |s.rows|..]
  }

  ghost predicate Good(s: State) {
    ProcsGood(s) && LogGood(s) && RowsGood(s)
  }

  /** `t` only extends the history of `s`. */
  ghost predicate Extends(s: State, t: State) {
    s.past <= t.past && s.ever <= t.ever
  }

  lemma WindowGrows(ever: seq<Row>, ever': seq<Row>, job: Job, asOf: nat, window: seq<Row>)
    requires ever <= ever' && FullWindowOf(ever, job, asOf, window)
    ensures FullWindowOf(ever', job, asOf, window)
  {
    assert ever'[..asOf] == ever[..asOf];
  }

  lemma JustifiedGrows(s: State, t: State, e: nat, x: Transition)
    requires Extends(s, t) && e + 1 < |s.past| && Justified(s, e, x)
    ensures Justified(t, e, x)
  {
    if x.why.ByWindow? { WindowGrows(s.ever, t.ever, x.why.job, x.why.asOf, x.why.window); }
  }

  lemma ProcGrows(s: State, t: State, q: Proc)
    requires Extends(s, t) && ProcGood(s, q)
    ensures ProcGood(t, q)
  {
    if q.pc.Scored? { WindowGrows(s.ever, t.ever, q.pc.job, q.pc.asOf, q.pc.window); }
  }

  /** A step that changes one process, or none, and extends the history. */
  lemma Frame(s: State, t: State, p: nat)
    requires ProcsGood(s) && LogGood(s) && Extends(s, t) && t.past == s.past && t.log == s.log
    requires t.procs.Keys <= s.procs.Keys + {p}
    requires forall r :: r in t.procs && r != p ==> t.procs[r] == s.procs[r]
    requires p in t.procs ==> ProcGood(t, t.procs[p])
    ensures ProcsGood(t) && LogGood(t)
  {
    forall r | r in t.procs ensures ProcGood(t, t.procs[r]) {
      if r != p { ProcGrows(s, t, s.procs[r]); }
    }
    forall e | 0 <= e < |t.log| ensures Justified(t, e, t.log[e]) {
      JustifiedGrows(s, t, e, s.log[e]);
    }
  }

  lemma AdvanceKeeps(s: State, to: Status, why: Why)
    requires Good(s)
    requires Justified(Advance(s, to, why), Epoch(s), Transition(Now(s), to, why))
    ensures Good(Advance(s, to, why))
  {
    var t := Advance(s, to, why);
    forall p | p in t.procs ensures ProcGood(t, t.procs[p]) {
      ProcGrows(s, t, s.procs[p]);
    }
    forall e | 0 <= e < |t.log| ensures Justified(t, e, t.log[e]) {
      if e < |s.log| { JustifiedGrows(s, t, e, s.log[e]); }
    }
  }

  lemma QueueSteps(s: State, a: Action)
    requires Good(s) && Enabled(s, a)
    requires a.Spawn? || a.Submit? || a.Pick? || a.Judge? || a.StoreFails?
    ensures Good(Apply(s, a))
  {
    Frame(s, Apply(s, a), a.p);
  }

  lemma AdmitStep(s: State, p: nat, keep: bool)
    requires Good(s) && Enabled(s, Admit(p, keep))
    ensures Good(AdmitJob(s, p, keep))
  {
    Frame(s, AdmitJob(s, p, keep), p);
  }

  lemma StoreStep(s: State, p: nat)
    requires Good(s) && Enabled(s, Store(p))
    ensures Good(StoreRow(s, p))
  {
    Frame(s, StoreRow(s, p), p);
  }

  lemma CheckStep(s: State, p: nat)
    requires Good(s) && Enabled(s, Check(p))
    ensures Good(CheckDue(s, p))
  {
    Frame(s, CheckDue(s, p), p);
  }

  lemma ReadWindow(s: State, job: Job)
    requires RowsGood(s) && job.Window() > 0
    requires |Newest(s.rows, job.epoch, job.phase, job.Window())| == job.Window()
    ensures FullWindowOf(s.ever, job, |s.ever|, Newest(s.rows, job.epoch, job.phase, job.Window()))
  {
    NewestOfSuffix(s.ever, |s.ever| - |s.rows|, job.epoch, job.phase, job.Window());
    assert s.ever[..|s.ever|] == s.ever;
  }

  lemma ReadProc(s: State, p: nat, fails: bool)
    requires Good(s) && Enabled(s, Read(p, fails))
    ensures ProcGood(ReadStats(s, p, fails), ReadStats(s, p, fails).procs[p])
  {
    var q := s.procs[p];
    var job, n := q.pc.job, q.pc.seqNo;
    var q' := ReadStats(s, p, fails).procs[p];
    ScoringAdvances(job.phase, job.Window(), n, Get(q.scored, (job.epoch, job.phase)));
    if q'.pc.Scored? { ReadWindow(s, job); }
    assert ProcGood(s, q);
    assert PcGood(s, q');
  }

  lemma ReadStep(s: State, p: nat, fails: bool)
    requires Good(s) && Enabled(s, Read(p, fails))
    ensures Good(ReadStats(s, p, fails))
  {
    ReadProc(s, p, fails);
    Frame(s, ReadStats(s, p, fails), p);
  }

  lemma DecideStep(s: State, p: nat, fails: bool)
    requires Good(s) && Enabled(s, Decide(p, fails))
    ensures Good(DecideMove(s, p, fails))
  {
    var t := SetPc(s, p, Idle);
    Frame(s, t, p);
    var pc := s.procs[p].pc;
    var why := ByWindow(pc.job, pc.seqNo, pc.asOf, pc.window);
    var u := DecideMove(s, p, fails);
    if u != t {
      var to := if pc.job.phase == ShadowPhase then Ready else Shadow;
      assert u == Advance(t, to, why);
      AdvanceKeeps(t, to, why);
    }
  }

  lemma RetainStep(s: State, cap: nat)
    requires Good(s)
    ensures Good(s.(rows := Pruned(s.rows, cap)))
  {
    Frame(s, s.(rows := Pruned(s.rows, cap)), 0);
  }

  lemma DatabaseSteps(s: State, a: Action)
    requires Good(s) && Enabled(s, a)
    requires a.Claim? || a.ShadowStarted? || a.ReadyFromCompile? || a.EscapeHatch? || a.SetStatus? || a.ConfigChange?
    ensures Good(Apply(s, a))
  {
    match a
    case Claim => AdvanceKeeps(s, Compiling, Administrative);
    case ShadowStarted => AdvanceKeeps(s, Shadow, ByCompile);
    case ReadyFromCompile => AdvanceKeeps(s, Ready, OptedOut);
    case EscapeHatch(e) => if Now(s) == Shadow && Epoch(s) == e { AdvanceKeeps(s, Ready, OptedOut); }
    case SetStatus(st) => AdvanceKeeps(s, st, Administrative);
    case ConfigChange => AdvanceKeeps(s, Now(s), Administrative);
  }

  /** Every step of every process and of every other database writer keeps it. */
  lemma StepKeeps(s: State, a: Action)
    requires Good(s) && Enabled(s, a)
    ensures Good(Apply(s, a))
  {
    match a
    case Admit(p, keep) => AdmitStep(s, p, keep);
    case Store(p) => StoreStep(s, p);
    case Check(p) => CheckStep(s, p);
    case Read(p, fails) => ReadStep(s, p, fails);
    case Decide(p, fails) => DecideStep(s, p, fails);
    case Retain(cap) => RetainStep(s, cap);
    case Spawn(_) => QueueSteps(s, a);
    case Submit(_, _) => QueueSteps(s, a);
    case Pick(_) => QueueSteps(s, a);
    case Judge(_, _) => QueueSteps(s, a);
    case StoreFails(_) => QueueSteps(s, a);
    case Claim => DatabaseSteps(s, a);
    case ShadowStarted => DatabaseSteps(s, a);
    case ReadyFromCompile => DatabaseSteps(s, a);
    case EscapeHatch(_) => DatabaseSteps(s, a);
    case SetStatus(_) => DatabaseSteps(s, a);
    case ConfigChange => DatabaseSteps(s, a);
  }

  lemma {:induction false} ExecKeeps(s: State, acts: seq<Action>)
    requires Good(s) && Runs(s, acts)
    ensures Good(Exec(s, acts))
    decreases |acts|
  {
    if acts != [] {
      StepKeeps(s, acts[0]);
      ExecKeeps(Apply(s, acts[0]), acts[1..]);
    }
  }

  /* Whole-run safety. */

  /** What a full window holds: as many comparisons as the window is long, each one
      countable and of the job's own epoch and phase, and each one really recorded. */
  lemma WindowHolds(ever: seq<Row>, job: Job, asOf: nat, window: seq<Row>)
    requires FullWindowOf(ever, job, asOf, window)
    ensures forall i :: 0 <= i < |window| ==>
              CountsAt(window[i], job.epoch) && window[i].phase == job.phase && window[i] in ever
  {
    MatchingAll(ever[..asOf], job.epoch, job.phase);
    var m := Matching(ever[..asOf], job.epoch, job.phase);
    forall i | 0 <= i < |window|
      ensures CountsAt(window[i], job.epoch) && window[i].phase == job.phase && window[i] in ever
    {
      assert window[i] == m[|m| - |window| + i];
      assert window[i] in ever[..asOf];
    }
  }

  /** In every run, a task in shadow becomes ready only through a scored window of the
      epoch it leaves: a full one, with a rate at or above the threshold, due no later
      than the stall point; or because a process opted out of the gate. */
  lemma PromotionIsEarned(acts: seq<Action>, e: nat)
    requires Runs(START, acts)
    requires var s := Exec(START, acts); e + 1 < |s.past| && s.past[e] == Shadow && s.past[e + 1] == Ready
    ensures var s := Exec(START, acts);
            && e < |s.log|
            && (s.log[e].why.OptedOut? ||
                (s.log[e].why.ByWindow? &&
                 var why := s.log[e].why;
                 && why.job.phase == ShadowPhase && why.job.epoch == e
                 && FullWindowOf(s.ever, why.job, why.asOf, why.window)
                 && Rate(why.window) >= why.job.shadowThreshold
                 && why.seqNo <= STALL_FACTOR * why.job.shadowWindow))
  {
    ExecKeeps(START, acts);
  }

  /** A ready task goes back to shadow only through a full audit window of its own
      epoch strictly below the demote threshold, or by a fresh compile. */
  lemma DemotionIsEarned(acts: seq<Action>, e: nat)
    requires Runs(START, acts)
    requires var s := Exec(START, acts); e + 1 < |s.past| && s.past[e] == Ready && s.past[e + 1] == Shadow
    ensures var s := Exec(START, acts);
            && e < |s.log|
            && (s.log[e].why.ByCompile? ||
                (s.log[e].why.ByWindow? &&
                 var why := s.log[e].why;
                 && why.job.phase == AuditPhase && why.job.epoch == e
                 && FullWindowOf(s.ever, why.job, why.asOf, why.window)
                 && Rate(why.window) < why.job.demoteThreshold))
  {
    ExecKeeps(START, acts);
  }

  predicate OptsOut(a: Action) {
    a.ReadyFromCompile? || a.EscapeHatch?
  }

  /** When no process sets `shadow_window=0`, nothing but an earned promotion ever
      makes a task ready. */
  lemma {:induction false} NoShortcut(s: State, acts: seq<Action>)
    requires Runs(s, acts) && (forall i :: 0 <= i < |acts| ==> !OptsOut(acts[i]))
    requires forall e :: 0 <= e < |s.log| ==> !s.log[e].why.OptedOut?
    ensures forall e :: 0 <= e < |Exec(s, acts).log| ==> !Exec(s, acts).log[e].why.OptedOut?
    decreases |acts|
  {
    if acts != [] {
      assert !OptsOut(acts[0]);
      forall i | 0 <= i < |acts[1..]| ensures !OptsOut(acts[1..][i]) { assert acts[1..][i] == acts[i + 1]; }
      NoShortcut(Apply(s, acts[0]), acts[1..]);
    }
  }

  /** History is only ever extended, so an epoch that is over stays over. */
  lemma {:induction false} EpochsOnlyRise(s: State, acts: seq<Action>)
    requires Runs(s, acts)
    ensures Extends(s, Exec(s, acts))
    decreases |acts|
  {
    if acts != [] { EpochsOnlyRise(Apply(s, acts[0]), acts[1..]); }
  }

  /** A job of an epoch that is over never changes the task's state again, however
      much later it is decided and whatever bookkeeping has been erased meanwhile. */
  lemma OldJobsAreInert(acts: seq<Action>, later: seq<Action>, epoch: nat, p: nat, fails: bool)
    requires Runs(START, acts) && epoch < |Exec(START, acts).past| - 1
    requires Runs(Exec(START, acts), later)
    requires var s := Exec(Exec(START, acts), later);
             Enabled(s, Decide(p, fails)) && s.procs[p].pc.job.epoch == epoch
    ensures var s := Exec(Exec(START, acts), later);
            var t := Apply(s, Decide(p, fails));
            t.past == s.past && t.log == s.log && t.rows == s.rows
  {
    EpochsOnlyRise(Exec(START, acts), later);
  }

  /* The draws of one process at one epoch. */

  predicate IsLiveDraw(d: Draw, p: nat, e: nat) {
    d.live && d.proc == p && d.job.epoch == e && d.job.phase == ShadowPhase
  }

  /** Promotion draws a process made at an epoch while it was live. */
  function LiveDraws(draws: seq<Draw>, p: nat, e: nat): nat {
    if draws == [] then 0
    else LiveDraws(draws[..|draws| - 1], p, e) + if IsLiveDraw(draws[|draws| - 1], p, e) then 1 else 0
  }

  /** How many promotion draws the bookkeeping still vouches for. */
  function Allowance(s: State, p: nat, e: nat): nat
    requires s.past != []
  {
    if !Has(s, p) || e > Epoch(s) then 0
    else if e == Epoch(s) then Get(s.procs[p].scored, (e, ShadowPhase))
    else STALL_FACTOR
  }

  ghost predicate DrawsBudgeted(s: State) {
    s.past != [] && forall p: nat, e: nat :: LiveDraws(s.draws, p, e) <= Allowance(s, p, e)
  }

  /** Every record of scored windows at the live epoch is as it was. */
  ghost predicate SameRecords(s: State, t: State, phase: Phase) {
    && s.past != [] && s.procs.Keys <= t.procs.Keys
    && forall p :: p in s.procs ==>
         Get(t.procs[p].scored, (Epoch(s), phase)) == Get(s.procs[p].scored, (Epoch(s), phase))
  }

  /** A step that leaves the draws, the live epoch and every live record alone. */
  lemma SameBudget(s: State, t: State)
    requires DrawsBudgeted(s) && t.past == s.past && t.draws == s.draws
    requires SameRecords(s, t, ShadowPhase)
    ensures DrawsBudgeted(t)
  {
    forall p: nat, e: nat ensures LiveDraws(t.draws, p, e) <= Allowance(t, p, e) {
      assert LiveDraws(s.draws, p, e) <= Allowance(s, p, e);
    }
  }

  lemma ReadBudget(s: State, p: nat, fails: bool)
    requires Good(s) && DrawsBudgeted(s) && Enabled(s, Read(p, fails))
    ensures DrawsBudgeted(ReadStats(s, p, fails))
  {
    var t := ReadStats(s, p, fails);
    if t.draws == s.draws {
      SameBudget(s, t);
    } else {
      var job, n := s.procs[p].pc.job, s.procs[p].pc.seqNo;
      var k := (job.epoch, job.phase);
      ScoringAdvances(job.phase, job.Window(), n, Get(s.procs[p].scored, k));
      assert t.draws[..|s.draws|] == s.draws;
      forall r: nat, e: nat ensures LiveDraws(t.draws, r, e) <= Allowance(t, r, e) {
        assert LiveDraws(s.draws, r, e) <= Allowance(s, r, e);
      }
    }
  }

  lemma AdvanceBudget(s: State, to: Status, why: Why)
    requires Good(s) && DrawsBudgeted(s)
    ensures DrawsBudgeted(Advance(s, to, why))
  {
    var t := Advance(s, to, why);
    forall p: nat, e: nat ensures LiveDraws(t.draws, p, e) <= Allowance(t, p, e) {
      assert LiveDraws(s.draws, p, e) <= Allowance(s, p, e);
      if p in s.procs { assert ProcGood(s, s.procs[p]); }
    }
  }

  lemma AdmitKeepsLiveRecords(s: State, p: nat, keep: bool, phase: Phase)
    requires Good(s) && Enabled(s, Admit(p, keep))
    ensures SameRecords(s, AdmitJob(s, p, keep), phase)
  {
    assert ProcGood(s, s.procs[p]);
  }

  predicate MovesEpoch(a: Action) {
    a.Decide? || a.Claim? || a.ShadowStarted? || a.ReadyFromCompile? || a.EscapeHatch? || a.SetStatus? || a.ConfigChange?
  }

  lemma StepBudget(s: State, a: Action)
    requires Good(s) && DrawsBudgeted(s) && Enabled(s, a)
    ensures DrawsBudgeted(Apply(s, a))
  {
    var t := Apply(s, a);
    if a.Read? {
      ReadBudget(s, a.p, a.fails);
    } else if a.Admit? {
      AdmitKeepsLiveRecords(s, a.p, a.keep, ShadowPhase);
      SameBudget(s, t);
    } else if MovesEpoch(a) {
      MoveBudget(s, a);
    } else {
      SameBudget(s, t);
    }
  }

  lemma MoveBudget(s: State, a: Action)
    requires Good(s) && DrawsBudgeted(s) && Enabled(s, a) && MovesEpoch(a)
    ensures DrawsBudgeted(Apply(s, a))
  {
    if a.Decide? {
      var u := SetPc(s, a.p, Idle);
      Frame(s, u, a.p);
      SameBudget(s, u);
      DecideIsAMove(s, a.p, a.fails);
      Moved(u, Apply(s, a));
    } else {
      Moved(s, Apply(s, a));
    }
  }

  /** `t` is `s` or one transition later. */
  ghost predicate OneMove(s: State, t: State) {
    s.past != [] && (t == s || exists to, why :: t == Advance(s, to, why))
  }

  lemma DecideIsAMove(s: State, p: nat, fails: bool)
    requires Enabled(s, Decide(p, fails))
    ensures OneMove(SetPc(s, p, Idle), DecideMove(s, p, fails))
  {
  }

  lemma Moved(s: State, t: State)
    requires Good(s) && DrawsBudgeted(s) && OneMove(s, t)
    ensures DrawsBudgeted(t)
  {
    if t != s {
      var to, why :| t == Advance(s, to, why);
      AdvanceBudget(s, to, why);
    }
  }

  lemma {:induction false} ExecBudget(s: State, acts: seq<Action>)
    requires Good(s) && DrawsBudgeted(s) && Runs(s, acts)
    ensures DrawsBudgeted(Exec(s, acts)) && Good(Exec(s, acts))
    decreases |acts|
  {
    if acts != [] {
      StepKeeps(s, acts[0]);
      StepBudget(s, acts[0]);
      ExecBudget(Apply(s, acts[0]), acts[1..]);
    }
  }

  /** In every run, a process gets at most `STALL_FACTOR` promotion draws at any one
      live epoch: across unscorable boundaries, late retries, skipped comparisons,
      jobs of different window sizes, other processes writing the same table, and a
      sequence counter that retention has restarted. */
  lemma AtMostFiveDraws(acts: seq<Action>, p: nat, e: nat)
    requires Runs(START, acts)
    ensures LiveDraws(Exec(START, acts).draws, p, e) <= STALL_FACTOR
  {
    ExecBudget(START, acts);
    var s := Exec(START, acts);
    assert LiveDraws(s.draws, p, e) <= Allowance(s, p, e);
    if p in s.procs { assert ProcGood(s, s.procs[p]); }
  }

  /* The windows of one process. */

  function Completed(d: Draw): nat
    requires d.job.Window() > 0
  {
    d.seqNo / d.job.Window()
  }

  predicate SameSeries(c: Draw, d: Draw) {
    c.live && d.live && c.proc == d.proc && c.job.epoch == d.job.epoch && c.job.phase == d.job.phase
  }

  ghost predicate DrawGood(s: State, d: Draw) {
    && s.past != [] && d.job.Window() > 0 && FullWindowOf(s.ever, d.job, d.asOf, d.window)
    && (d.live ==> Has(s, d.proc) && d.job.epoch <= Epoch(s))
    && (d.live && d.job.epoch == Epoch(s) ==>
          Completed(d) <= Get(s.procs[d.proc].scored, (d.job.epoch, d.job.phase)))
  }

  ghost predicate DrawsTumble(s: State) {
    && (forall i :: 0 <= i < |s.draws| ==> DrawGood(s, s.draws[i]))
    && (forall i, j :: 0 <= i < j < |s.draws| && SameSeries(s.draws[i], s.draws[j]) ==>
          Completed(s.draws[i]) < Completed(s.draws[j]))
  }

  lemma SameTumble(s: State, t: State)
    requires DrawsTumble(s) && Extends(s, t) && t.past == s.past && t.draws == s.draws
    requires SameRecords(s, t, ShadowPhase) && SameRecords(s, t, AuditPhase)
    ensures DrawsTumble(t)
  {
    forall i | 0 <= i < |t.draws| ensures DrawGood(t, t.draws[i]) {
      var d := s.draws[i];
      assert DrawGood(s, d);
      WindowGrows(s.ever, t.ever, d.job, d.asOf, d.window);
    }
  }

  lemma MoveTumble(s: State, t: State)
    requires DrawsTumble(s) && OneMove(s, t)
    ensures DrawsTumble(t)
  {
    forall i | 0 <= i < |t.draws| ensures DrawGood(t, t.draws[i]) {
      assert DrawGood(s, s.draws[i]);
    }
  }

  lemma ReadTumble(s: State, p: nat, fails: bool)
    requires Good(s) && DrawsTumble(s) && Enabled(s, Read(p, fails))
    ensures DrawsTumble(ReadStats(s, p, fails))
  {
    var t := ReadStats(s, p, fails);
    if t.draws == s.draws {
      SameTumble(s, t);
    } else {
      var job, n := s.procs[p].pc.job, s.procs[p].pc.seqNo;
      var k := (job.epoch, job.phase);
      ScoringAdvances(job.phase, job.Window(), n, Get(s.procs[p].scored, k));
      ReadWindow(s, job);
      var d := Draw(p, job, n, |s.ever|, Newest(s.rows, job.epoch, job.phase, job.Window()), job.epoch == Epoch(s));
      assert t.draws == s.draws + [d] && Get(t.procs[p].scored, k) == Completed(d) > Get(s.procs[p].scored, k);
      forall i | 0 <= i < |s.draws|
        ensures DrawGood(t, t.draws[i]) && (SameSeries(t.draws[i], d) ==> Completed(t.draws[i]) < Completed(d))
      {
        assert DrawGood(s, s.draws[i]);
      }
      assert DrawGood(t, d);
    }
  }

  lemma StepTumble(s: State, a: Action)
    requires Good(s) && DrawsTumble(s) && Enabled(s, a)
    ensures DrawsTumble(Apply(s, a))
  {
    var t := Apply(s, a);
    if a.Read? {
      ReadTumble(s, a.p, a.fails);
    } else if a.Admit? {
      AdmitKeepsLiveRecords(s, a.p, a.keep, ShadowPhase);
      AdmitKeepsLiveRecords(s, a.p, a.keep, AuditPhase);
      SameTumble(s, t);
    } else if a.Decide? {
      SameTumble(s, SetPc(s, a.p, Idle));
      DecideIsAMove(s, a.p, a.fails);
      MoveTumble(SetPc(s, a.p, Idle), t);
    } else if MovesEpoch(a) {
      MoveTumble(s, t);
    } else {
      SameTumble(s, t);
    }
  }

  lemma {:induction false} ExecTumble(s: State, acts: seq<Action>)
    requires Good(s) && DrawsTumble(s) && Runs(s, acts)
    ensures DrawsTumble(Exec(s, acts))
    decreases |acts|
  {
    if acts != [] {
      StepKeeps(s, acts[0]);
      StepTumble(s, acts[0]);
      ExecTumble(Apply(s, acts[0]), acts[1..]);
    }
  }

  /** In every run, successive scorings of one process at one live epoch and phase are
      triggered in strictly later windows, and each reads a full window. */
  lemma DrawsAreTumbling(acts: seq<Action>, i: nat, j: nat)
    requires Runs(START, acts) && i < j < |Exec(START, acts).draws|
    requires SameSeries(Exec(START, acts).draws[i], Exec(START, acts).draws[j])
    ensures var s := Exec(START, acts);
            && s.draws[i].job.Window() > 0 && s.draws[j].job.Window() > 0
            && Completed(s.draws[i]) < Completed(s.draws[j])
            && FullWindowOf(s.ever, s.draws[i].job, s.draws[i].asOf, s.draws[i].window)
  {
    ExecTumble(START, acts);
  }

  /* Where a scored window ends. */

  ghost predicate RowsRouted(s: State) {
    forall i :: 0 <= i < |s.rows| ==>
      s.rows[i].epoch < |s.past| && s.past[s.rows[i].epoch] == Serving(s.rows[i].phase)
  }

  ghost predicate Tidy(s: State) {
    WellNumbered(s.rows) && RowsRouted(s)
  }

  /** The window ends with the very comparison that made it due. */
  ghost predicate OnTime(d: Draw) {
    forall i :: 0 <= i < |d.window| ==> d.window[i].seqNo == d.seqNo - |d.window| + 1 + i
  }

  ghost predicate AllOnTime(s: State) {
    forall i :: 0 <= i < |s.draws| ==> OnTime(s.draws[i])
  }

  /** A window is scored although the newest comparison of its epoch is no longer the
      one that made it due. */
  predicate ReadsStale(s: State, a: Action)
    requires Enabled(s, a)
  {
    a.Read? && ReadStats(s, a.p, a.fails).draws != s.draws
    && MaxSeq(s.rows, s.procs[a.p].pc.job.epoch) != s.procs[a.p].pc.seqNo
  }

  predicate NeverReadsStale(s: State, acts: seq<Action>)
    requires Runs(s, acts)
    decreases |acts|
  {
    acts == [] || (!ReadsStale(s, acts[0]) && NeverReadsStale(Apply(s, acts[0]), acts[1..]))
  }

  lemma StoreTidy(s: State, p: nat)
    requires Good(s) && Tidy(s) && Enabled(s, Store(p))
    ensures Tidy(StoreRow(s, p))
  {
    var q := s.procs[p];
    assert ProcGood(s, q);
    RecordKeepsNumbering(s.rows, q.pc.job.epoch, q.pc.job.phase, q.pc.verdict);
  }

  lemma RetainTidy(s: State, cap: nat)
    requires Tidy(s) && s.past != []
    ensures Tidy(s.(rows := Pruned(s.rows, cap)))
  {
    PruneKeepsNumbering(s.rows, cap);
  }

  lemma MoveTidy(s: State, t: State)
    requires Tidy(s) && OneMove(s, t)
    ensures Tidy(t)
  {
  }

  lemma SameTidy(s: State, t: State)
    requires Tidy(s) && t.past == s.past && t.rows == s.rows
    ensures Tidy(t)
  {
  }

  lemma StepTidy(s: State, a: Action)
    requires Good(s) && Tidy(s) && Enabled(s, a)
    ensures Tidy(Apply(s, a))
  {
    var t := Apply(s, a);
    if a.Store? {
      StoreTidy(s, a.p);
    } else if a.Retain? {
      RetainTidy(s, a.cap);
    } else if a.Decide? {
      DecideIsAMove(s, a.p, a.fails);
      SameTidy(s, SetPc(s, a.p, Idle));
      MoveTidy(SetPc(s, a.p, Idle), t);
    } else if MovesEpoch(a) {
      MoveTidy(s, t);
    } else {
      SameTidy(s, t);
    }
  }

  /** The newest window of an epoch ends with the highest number there is. */
  lemma NewestEndsAtMax(rows: seq<Row>, job: Job, w: nat)
    requires WellNumbered(rows) && OnePhase(rows, job.epoch, job.phase)
    requires w > 0 && |Newest(rows, job.epoch, job.phase, w)| == w
    ensures forall i :: 0 <= i < w ==>
              Newest(rows, job.epoch, job.phase, w)[i].seqNo == MaxSeq(rows, job.epoch) - w + 1 + i
  {
    OnePhaseMatching(rows, job.epoch, job.phase);
    MaxSeqIsNewest(rows, job.epoch);
    var m := CountableRows(rows, job.epoch);
    assert Consecutive(m);
    assert m[|m| - 1].seqNo == m[0].seqNo + (|m| - 1);
    var win := Newest(rows, job.epoch, job.phase, w);
    assert |m| >= w && win == m[|m| - w..];
    forall i | 0 <= i < w ensures win[i].seqNo == MaxSeq(rows, job.epoch) - w + 1 + i {
      assert win[i] == m[|m| - w + i];
      assert m[|m| - w + i].seqNo == m[0].seqNo + (|m| - w + i);
    }
  }

  /** One read, by any process: the window it scores ends with its trigger exactly when
      nothing countable of the epoch was stored since. */
  lemma ReadEnds(s: State, p: nat, fails: bool)
    requires Good(s) && Tidy(s) && Enabled(s, Read(p, fails))
    ensures var t := ReadStats(s, p, fails);
            t.draws == s.draws ||
            (|t.draws| == |s.draws| + 1 && t.draws[..|s.draws|] == s.draws
             && (OnTime(t.draws[|s.draws|]) <==> MaxSeq(s.rows, s.procs[p].pc.job.epoch) == s.procs[p].pc.seqNo))
  {
    var t := ReadStats(s, p, fails);
    if t.draws != s.draws {
      var job := s.procs[p].pc.job;
      var w := job.Window();
      assert ProcGood(s, s.procs[p]);
      assert OnePhase(s.rows, job.epoch, job.phase);
      NewestEndsAtMax(s.rows, job, w);
      var d := t.draws[|s.draws|];
      assert d.window == Newest(s.rows, job.epoch, job.phase, w);
      assert d.window[0].seqNo == MaxSeq(s.rows, job.epoch) - w + 1;
    }
  }

  lemma StepOnTime(s: State, a: Action)
    requires Good(s) && Tidy(s) && Enabled(s, a) && AllOnTime(s)
    ensures AllOnTime(Apply(s, a)) <==> !ReadsStale(s, a)
  {
    if a.Read? {
      ReadEnds(s, a.p, a.fails);
      ReadOnTime(s, ReadStats(s, a.p, a.fails), ReadsStale(s, a));
    }
  }

  lemma ReadOnTime(s: State, t: State, stale: bool)
    requires AllOnTime(s)
    requires t.draws == s.draws ==> !stale
    requires t.draws != s.draws ==>
               |t.draws| == |s.draws| + 1 && t.draws[..|s.draws|] == s.draws && (OnTime(t.draws[|s.draws|]) <==> !stale)
    ensures AllOnTime(t) <==> !stale
  {
    if t.draws != s.draws {
      assert forall i :: 0 <= i < |s.draws| ==> t.draws[i] == t.draws[..|s.draws|][i];
    }
  }

  lemma {:induction false} DrawsOnlyGrow(s: State, acts: seq<Action>)
    requires Runs(s, acts)
    ensures s.draws <= Exec(s, acts).draws
    decreases |acts|
  {
    if acts != [] { DrawsOnlyGrow(Apply(s, acts[0]), acts[1..]); }
  }

  lemma {:induction false} RunOnTime(s: State, acts: seq<Action>)
    requires Good(s) && Tidy(s) && AllOnTime(s) && Runs(s, acts)
    ensures AllOnTime(Exec(s, acts)) <==> NeverReadsStale(s, acts)
    decreases |acts|
  {
    if acts != [] {
      var t := Apply(s, acts[0]);
      StepKeeps(s, acts[0]);
      StepTidy(s, acts[0]);
      StepOnTime(s, acts[0]);
      if ReadsStale(s, acts[0]) {
        DrawsOnlyGrow(t, acts[1..]);
        StaysLate(t, Exec(t, acts[1..]));
      } else {
        RunOnTime(t, acts[1..]);
      }
    }
  }

  lemma StaysLate(t: State, u: State)
    requires !AllOnTime(t) && t.draws <= u.draws
    ensures !AllOnTime(u)
  {
    var i :| 0 <= i < |t.draws| && !OnTime(t.draws[i]);
    assert u.draws[i] == t.draws[i];
  }

  /** In every run of any number of processes: all windows that were scored end with
      the comparison that made them due, exactly when at each scoring that comparison
      was still the newest of its epoch. */
  lemma WindowsEndAtTheirTriggers(acts: seq<Action>)
    requires Runs(START, acts)
    ensures AllOnTime(Exec(START, acts)) <==> NeverReadsStale(START, acts)
  {
    FreshNumbering();
    RunOnTime(START, acts);
  }

  /* What windows share. */

  /** The window holds a comparison with this number. */
  ghost predicate HoldsNumber(d: Draw, k: int) {
    exists i :: 0 <= i < |d.window| && d.window[i].seqNo == k
  }

  lemma OnTimeHolds(d: Draw, k: int)
    requires OnTime(d) && HoldsNumber(d, k)
    ensures d.seqNo - |d.window| < k <= d.seqNo
  {
  }

  predicate SameWindows(c: Draw, d: Draw) {
    SameSeries(c, d) && c.job.Window() == d.job.Window()
  }

  /** Of two windows of one process, epoch and phase that end with their triggers, in
      any run, only the comparisons the earlier scoring was late by can be in both. */
  lemma TwoWindows(acts: seq<Action>, i: nat, j: nat, k: nat)
    requires Runs(START, acts) && i < j < |Exec(START, acts).draws|
    requires var d := Exec(START, acts).draws; SameWindows(d[i], d[j]) && OnTime(d[i]) && OnTime(d[j])
    ensures var d := Exec(START, acts).draws;
            var w := d[i].job.Window();
            && |d[i].window| == |d[j].window| == w > 0
            && (HoldsNumber(d[i], k) && HoldsNumber(d[j], k) ==> d[i].seqNo - d[i].seqNo % w < k <= d[i].seqNo)
  {
    ExecTumble(START, acts);
    var d := Exec(START, acts).draws;
    assert DrawGood(Exec(START, acts), d[i]) && DrawGood(Exec(START, acts), d[j]);
    if HoldsNumber(d[i], k) && HoldsNumber(d[j], k) {
      OnTimeHolds(d[i], k);
      OnTimeHolds(d[j], k);
      PairOverlap(d[i].seqNo, d[j].seqNo, d[i].job.Window(), k);
    }
  }

  /** And no comparison is in three of them. */
  lemma ThreeWindows(acts: seq<Action>, i: nat, j: nat, l: nat, k: nat)
    requires Runs(START, acts) && i < j < l < |Exec(START, acts).draws|
    requires var d := Exec(START, acts).draws;
             SameWindows(d[i], d[j]) && SameWindows(d[j], d[l]) && OnTime(d[i]) && OnTime(d[l])
    ensures var d := Exec(START, acts).draws; !(HoldsNumber(d[i], k) && HoldsNumber(d[l], k))
  {
    ExecTumble(START, acts);
    var s := Exec(START, acts);
    var d := s.draws;
    assert DrawGood(s, d[i]) && DrawGood(s, d[j]) && DrawGood(s, d[l]);
    if HoldsNumber(d[i], k) && HoldsNumber(d[l], k) {
      OnTimeHolds(d[i], k);
      OnTimeHolds(d[l], k);
      ThirdIsClear(d[i].seqNo, d[j].seqNo, d[l].seqNo, d[i].job.Window(), k);
      assert false;
    }
  }

  lemma OnTimeHoldsAll(d: Draw, k: int)
    requires OnTime(d)
    ensures HoldsNumber(d, k) <==> d.seqNo - |d.window| < k <= d.seqNo
  {
    var i := k - d.seqNo + |d.window| - 1;
    if 0 <= i < |d.window| { assert d.window[i].seqNo == k; }
  }

  lemma QuotientsApart(a: nat, b: nat, w: int)
    requires w > 0 && a / w < b / w
    ensures a < b
  {
    if b <= a { QuotientAtLeast(a, w, b / w); QuotientAtLeast(b, w, b / w); }
  }

  /** Two windows of one series that end with their triggers share a number exactly when
      the triggers are less than a window apart. */
  lemma OnTimeWindowsShare(acts: seq<Action>, i: nat, j: nat)
    requires Runs(START, acts) && i < j < |Exec(START, acts).draws|
    requires var d := Exec(START, acts).draws; SameWindows(d[i], d[j]) && OnTime(d[i]) && OnTime(d[j])
    ensures var d := Exec(START, acts).draws;
            (exists k :: HoldsNumber(d[i], k) && HoldsNumber(d[j], k)) <==> d[j].seqNo < d[i].seqNo + d[i].job.Window()
  {
    ExecTumble(START, acts);
    var s := Exec(START, acts);
    var a, b := s.draws[i], s.draws[j];
    assert DrawGood(s, a) && DrawGood(s, b);
    QuotientsApart(a.seqNo, b.seqNo, a.job.Window());
    forall k ensures (HoldsNumber(a, k) <==> a.seqNo - |a.window| < k <= a.seqNo)
                     && (HoldsNumber(b, k) <==> b.seqNo - |b.window| < k <= b.seqNo)
    {
      OnTimeHoldsAll(a, k);
      OnTimeHoldsAll(b, k);
    }
    if b.seqNo < a.seqNo + a.job.Window() { assert HoldsNumber(a, a.seqNo) && HoldsNumber(b, a.seqNo); }
  }

  /** The comparisons of the draw's epoch and phase recorded up to its reading, pruned
      ones included: the window is the last of them. */
  function Recorded(s: State, d: Draw): seq<Row> {
    Matching(if d.asOf <= |s.ever| then s.ever[..d.asOf] else s.ever, d.job.epoch, d.job.phase)
  }

  /** Of all comparisons of its epoch and phase ever recorded, the window holds the one
      at position `k`. */
  predicate HoldsComparison(s: State, d: Draw, k: int) {
    |Recorded(s, d)| - |d.window| <= k < |Recorded(s, d)|
  }

  ghost predicate ReadInOrder(s: State) {
    && (forall i :: 0 <= i < |s.draws| ==> s.draws[i].asOf <= |s.ever|)
    && (forall i, j :: 0 <= i < j < |s.draws| ==> s.draws[i].asOf <= s.draws[j].asOf)
  }

  lemma StepReadInOrder(s: State, a: Action)
    requires ReadInOrder(s) && Enabled(s, a)
    ensures ReadInOrder(Apply(s, a))
  {
  }

  lemma {:induction false} ExecReadInOrder(s: State, acts: seq<Action>)
    requires ReadInOrder(s) && Runs(s, acts)
    ensures ReadInOrder(Exec(s, acts))
    decreases |acts|
  {
    if acts != [] {
      StepReadInOrder(s, acts[0]);
      ExecReadInOrder(Apply(s, acts[0]), acts[1..]);
    }
  }

  lemma RecordedIsPrefix(ever: seq<Row>, n: nat, epoch: nat, phase: Phase)
    requires n <= |ever|
    ensures Matching(ever[..n], epoch, phase) <= Matching(ever, epoch, phase)
  {
    assert ever == ever[..n] + ever[n..];
    MatchingSplit(ever[..n], ever[n..], epoch, phase);
  }

  /** The window really is those comparisons, in order. */
  lemma WindowIsItsComparisons(acts: seq<Action>, i: nat, k: int)
    requires Runs(START, acts) && i < |Exec(START, acts).draws|
    requires HoldsComparison(Exec(START, acts), Exec(START, acts).draws[i], k)
    ensures var s := Exec(START, acts);
            var d := s.draws[i];
            var all := Matching(s.ever, d.job.epoch, d.job.phase);
            var first := |Recorded(s, d)| - |d.window|;
            0 <= first <= k < |all| && k - first < |d.window| && d.window[k - first] == all[k]
  {
    ExecTumble(START, acts);
    var s := Exec(START, acts);
    var d := s.draws[i];
    assert DrawGood(s, d);
    RecordedIsPrefix(s.ever, d.asOf, d.job.epoch, d.job.phase);
  }

  predicate SamePool(c: Draw, d: Draw) {
    c.job.epoch == d.job.epoch && c.job.phase == d.job.phase && c.job.Window() == d.job.Window()
  }

  /** The comparisons of the epoch and phase recorded between two readings. */
  function RecordedBetween(s: State, c: Draw, d: Draw): int {
    |Recorded(s, d)| - |Recorded(s, c)|
  }

  /** In every run, for any two windows of one epoch and phase, read late or not and by
      whichever processes: they have a comparison in common exactly when fewer than a
      window of them were recorded between the two readings. */
  lemma WindowsShareWhenReadClose(acts: seq<Action>, i: nat, j: nat)
    requires Runs(START, acts) && i < j < |Exec(START, acts).draws|
    requires SamePool(Exec(START, acts).draws[i], Exec(START, acts).draws[j])
    ensures var s := Exec(START, acts);
            var c, d := s.draws[i], s.draws[j];
            && RecordedBetween(s, c, d) >= 0
            && ((exists k :: HoldsComparison(s, c, k) && HoldsComparison(s, d, k))
                <==> RecordedBetween(s, c, d) < c.job.Window())
  {
    ExecTumble(START, acts);
    ExecReadInOrder(START, acts);
    var s := Exec(START, acts);
    var c, d := s.draws[i], s.draws[j];
    assert DrawGood(s, c) && DrawGood(s, d);
    RecordedGrows(s, c, d);
    if RecordedBetween(s, c, d) < c.job.Window() {
      var k := |Recorded(s, c)| - 1;
      assert HoldsComparison(s, c, k) && HoldsComparison(s, d, k);
    }
  }

  /** And three have one in common exactly when fewer than a window were recorded between
      the first reading and the third. */
  lemma ThreeShareWhenReadClose(acts: seq<Action>, i: nat, j: nat, l: nat)
    requires Runs(START, acts) && i < j < l < |Exec(START, acts).draws|
    requires var d := Exec(START, acts).draws; SamePool(d[i], d[j]) && SamePool(d[j], d[l])
    ensures var s := Exec(START, acts);
            var d := s.draws;
            (exists k :: HoldsComparison(s, d[i], k) && HoldsComparison(s, d[j], k) && HoldsComparison(s, d[l], k))
            <==> RecordedBetween(s, d[i], d[l]) < d[i].job.Window()
  {
    var s := Exec(START, acts);
    var d := s.draws;
    WindowsShareWhenReadClose(acts, i, j);
    WindowsShareWhenReadClose(acts, j, l);
    ExecTumble(START, acts);
    assert DrawGood(s, d[i]) && DrawGood(s, d[j]) && DrawGood(s, d[l]);
    if RecordedBetween(s, d[i], d[l]) < d[i].job.Window() {
      var k := |Recorded(s, d[i])| - 1;
      assert HoldsComparison(s, d[i], k) && HoldsComparison(s, d[j], k) && HoldsComparison(s, d[l], k);
    }
  }

  lemma RecordedGrows(s: State, c: Draw, d: Draw)
    requires c.asOf <= d.asOf <= |s.ever| && SamePool(c, d)
    ensures RecordedBetween(s, c, d) >= 0
  {
    assert s.ever[..d.asOf][..c.asOf] == s.ever[..c.asOf];
    RecordedIsPrefix(s.ever[..d.asOf], c.asOf, c.job.epoch, c.job.phase);
  }

  /* The windows that moved the task. */

  ghost predicate Drawn(s: State, job: Job, n: nat, asOf: nat, window: seq<Row>) {
    exists i :: 0 <= i < |s.draws| && IsDraw(s.draws[i], job, n, asOf, window)
  }

  predicate IsDraw(d: Draw, job: Job, n: nat, asOf: nat, window: seq<Row>) {
    d.job == job && d.seqNo == n && d.asOf == asOf && d.window == window
  }

  /** Every window a worker is about to decide on, or has moved the task by, was scored. */
  ghost predicate AllDrawn(s: State) {
    && (forall p :: p in s.procs && s.procs[p].pc.Scored? ==>
          var pc := s.procs[p].pc; Drawn(s, pc.job, pc.seqNo, pc.asOf, pc.window))
    && (forall e :: 0 <= e < |s.log| && s.log[e].why.ByWindow? ==>
          var why := s.log[e].why; Drawn(s, why.job, why.seqNo, why.asOf, why.window))
  }

  lemma DrawnGrows(s: State, t: State, job: Job, n: nat, asOf: nat, window: seq<Row>)
    requires Drawn(s, job, n, asOf, window) && s.draws <= t.draws
    ensures Drawn(t, job, n, asOf, window)
  {
    var i :| 0 <= i < |s.draws| && IsDraw(s.draws[i], job, n, asOf, window);
    assert t.draws[i] == s.draws[i];
  }

  lemma ReadDrawn(s: State, p: nat, fails: bool)
    requires AllDrawn(s) && Enabled(s, Read(p, fails))
    ensures AllDrawn(ReadStats(s, p, fails))
  {
    var t := ReadStats(s, p, fails);
    if t.draws != s.draws {
      var pc := t.procs[p].pc;
      assert IsDraw(t.draws[|s.draws|], pc.job, pc.seqNo, pc.asOf, pc.window);
    }
    forall q | q in t.procs && t.procs[q].pc.Scored?
      ensures var pc := t.procs[q].pc; Drawn(t, pc.job, pc.seqNo, pc.asOf, pc.window)
    {
      var pc := t.procs[q].pc;
      if q != p { DrawnGrows(s, t, pc.job, pc.seqNo, pc.asOf, pc.window); }
    }
    forall e | 0 <= e < |t.log| && t.log[e].why.ByWindow?
      ensures var why := t.log[e].why; Drawn(t, why.job, why.seqNo, why.asOf, why.window)
    {
      var why := t.log[e].why;
      DrawnGrows(s, t, why.job, why.seqNo, why.asOf, why.window);
    }
  }

  lemma StepDrawn(s: State, a: Action)
    requires AllDrawn(s) && Enabled(s, a)
    ensures AllDrawn(Apply(s, a))
  {
    if a.Read? { ReadDrawn(s, a.p, a.fails); } else { OtherDrawn(s, a); }
  }

  lemma OtherDrawn(s: State, a: Action)
    requires AllDrawn(s) && Enabled(s, a) && !a.Read?
    ensures AllDrawn(Apply(s, a))
  {
    var t := Apply(s, a);
    assert t.draws == s.draws;
    forall q | q in t.procs && t.procs[q].pc.Scored?
      ensures var pc := t.procs[q].pc; Drawn(t, pc.job, pc.seqNo, pc.asOf, pc.window)
    {
      var pc := t.procs[q].pc;
      assert q in s.procs && s.procs[q].pc == pc;
      DrawnGrows(s, t, pc.job, pc.seqNo, pc.asOf, pc.window);
    }
    forall e | 0 <= e < |t.log| && t.log[e].why.ByWindow?
      ensures var why := t.log[e].why; Drawn(t, why.job, why.seqNo, why.asOf, why.window)
    {
      var why := t.log[e].why;
      if e < |s.log| {
        DrawnGrows(s, t, why.job, why.seqNo, why.asOf, why.window);
      } else {
        var pc := s.procs[a.p].pc;
        DrawnGrows(s, t, pc.job, pc.seqNo, pc.asOf, pc.window);
      }
    }
  }

  lemma {:induction false} ExecDrawn(s: State, acts: seq<Action>)
    requires AllDrawn(s) && Runs(s, acts)
    ensures AllDrawn(Exec(s, acts))
    decreases |acts|
  {
    if acts != [] {
      StepDrawn(s, acts[0]);
      ExecDrawn(Apply(s, acts[0]), acts[1..]);
    }
  }

  /** When no scoring was stale, every comparison a promotion rests on lies at or before
      the stall point, not only the one that made its window due. */
  lemma PromotedBeforeTheStallPoint(acts: seq<Action>, e: nat)
    requires Runs(START, acts) && NeverReadsStale(START, acts)
    requires var s := Exec(START, acts); e + 1 < |s.past| && s.past[e] == Shadow && s.past[e + 1] == Ready
    requires e < |Exec(START, acts).log| && Exec(START, acts).log[e].why.ByWindow?
    ensures var why := Exec(START, acts).log[e].why;
            forall i :: 0 <= i < |why.window| ==> why.window[i].seqNo <= STALL_FACTOR * why.job.shadowWindow
  {
    PromotionIsEarned(acts, e);
    WindowsEndAtTheirTriggers(acts);
    ExecDrawn(START, acts);
    var s := Exec(START, acts);
    var why := s.log[e].why;
    assert Drawn(s, why.job, why.seqNo, why.asOf, why.window);
    var i :| 0 <= i < |s.draws| && IsDraw(s.draws[i], why.job, why.seqNo, why.asOf, why.window);
    assert OnTime(s.draws[i]);
  }

  /* A single process on its database. */

  predicate ByProcess(a: Action, p: nat) {
    a.Retain? || (MovesEpoch(a) && !a.Decide?) || a.p == p
  }

  /** The comparison a worker has just stored is still the newest row. */
  ghost predicate StoredLast(rows: seq<Row>, pc: Pc) {
    (pc.Stored? || pc.Pending?) && pc.seqNo > 0 ==>
      && rows != []
      && var r := rows[|rows| - 1];
         CountsAt(r, pc.job.epoch) && r.phase == pc.job.phase && r.seqNo == pc.seqNo
  }

  ghost predicate Alone(s: State, p: nat) {
    Tidy(s) && LastStored(s, p)
  }

  lemma LastIsMax(rows: seq<Row>, epoch: nat)
    requires WellNumbered(rows) && rows != [] && CountsAt(rows[|rows| - 1], epoch)
    ensures MaxSeq(rows, epoch) == rows[|rows| - 1].seqNo
  {
    MaxSeqIsNewest(rows, epoch);
    var c := CountableRows(rows, epoch);
    assert c[|c| - 1] == rows[|rows| - 1];
  }

  lemma StepAlone(s: State, a: Action, p: nat)
    requires Good(s) && Alone(s, p) && Enabled(s, a) && ByProcess(a, p)
    ensures Alone(Apply(s, a), p) && !ReadsStale(s, a)
  {
    StepTidy(s, a);
    if a.Read? {
      assert ProcGood(s, s.procs[p]);
      LastIsMax(s.rows, s.procs[p].pc.job.epoch);
    } else {
      StepStoredLast(s, a, p);
    }
  }

  lemma StepStoredLast(s: State, a: Action, p: nat)
    requires Good(s) && Alone(s, p) && Enabled(s, a) && ByProcess(a, p) && !a.Read?
    ensures LastStored(Apply(s, a), p)
  {
    if a.Store? {
      StoreIsLast(s, p);
    } else if a.Retain? {
      RetainKeepsLast(s, p, a.cap);
    } else if MovesEpoch(a) {
      MoveKeepsLast(s, a, p);
    }
  }

  ghost predicate LastStored(s: State, p: nat) {
    s.procs.Keys <= {p} && (p in s.procs ==> StoredLast(s.rows, s.procs[p].pc))
  }

  lemma StoreIsLast(s: State, p: nat)
    requires LastStored(s, p) && Enabled(s, Store(p))
    ensures LastStored(StoreRow(s, p), p)
  {
  }

  lemma RetainKeepsLast(s: State, p: nat, cap: nat)
    requires LastStored(s, p) && s.past != []
    ensures LastStored(s.(rows := Pruned(s.rows, cap)), p)
  {
  }

  lemma MoveKeepsLast(s: State, a: Action, p: nat)
    requires LastStored(s, p) && Enabled(s, a) && MovesEpoch(a) && (a.Decide? ==> a.p == p)
    ensures LastStored(Apply(s, a), p)
  {
  }

  lemma {:induction false} ExecAlone(s: State, acts: seq<Action>, p: nat)
    requires Good(s) && Alone(s, p) && Runs(s, acts)
    requires forall i :: 0 <= i < |acts| ==> ByProcess(acts[i], p)
    ensures NeverReadsStale(s, acts)
    decreases |acts|
  {
    if acts != [] {
      StepKeeps(s, acts[0]);
      StepAlone(s, acts[0], p);
      forall i | 0 <= i < |acts[1..]| ensures ByProcess(acts[1..][i], p) { assert acts[1..][i] == acts[i + 1]; }
      ExecAlone(Apply(s, acts[0]), acts[1..], p);
    }
  }

  /** With one process on the database no scoring is ever stale: every window ends with
      the comparison that made it due, and two windows of one epoch and phase share at
      most the comparisons the earlier scoring was late by. */
  lemma SoleProcessWindows(acts: seq<Action>, p: nat, i: nat, j: nat, k: nat)
    requires Runs(START, acts) && (forall n :: 0 <= n < |acts| ==> ByProcess(acts[n], p))
    ensures NeverReadsStale(START, acts) && AllOnTime(Exec(START, acts))
    ensures var d := Exec(START, acts).draws;
            i < j < |d| && SameWindows(d[i], d[j]) ==>
              var w := d[i].job.Window();
              && w > 0
              && (HoldsNumber(d[i], k) && HoldsNumber(d[j], k) ==> d[i].seqNo - d[i].seqNo % w < k <= d[i].seqNo)
  {
    FreshNumbering();
    ExecAlone(START, acts, p);
    WindowsEndAtTheirTriggers(acts);
    var d := Exec(START, acts).draws;
    if i < j < |d| && SameWindows(d[i], d[j]) { TwoWindows(acts, i, j, k); }
  }

  lemma FreshNumbering()
    ensures WellNumbered([])
  {
    forall epoch: nat ensures Consecutive(CountableRows([], epoch)) {
    }
  }

  /* Several processes on one database. */

  const SHADOW_EPOCH := 2
  const SEVENTH := Row(SHADOW_EPOCH, 7, ShadowPhase, Disagree)

  /** `n` disagreeing comparisons, recorded one after another. */
  function Steady(n: nat): seq<Row> {
    if n == 0 then [] else Record(Steady(n - 1), SHADOW_EPOCH, ShadowPhase, Disagree)
  }

  lemma {:induction false} SteadyMax(n: nat)
    ensures MaxSeq(Steady(n), SHADOW_EPOCH) == n
  {
    if n > 0 {
      SteadyMax(n - 1);
      assert Steady(n)[..|Steady(n - 1)|] == Steady(n - 1);
    }
  }

  lemma {:induction false} SteadyMatching(n: nat)
    ensures Matching(Steady(n), SHADOW_EPOCH, ShadowPhase) == Steady(n)
  {
    if n > 0 {
      SteadyMatching(n - 1);
      assert Steady(n)[..|Steady(n - 1)|] == Steady(n - 1);
    }
  }

  lemma {:induction false} SteadyRows(n: nat)
    ensures |Steady(n)| == n && forall i :: 0 <= i < n ==> Steady(n)[i] == Row(SHADOW_EPOCH, i + 1, ShadowPhase, Disagree)
  {
    if n > 0 {
      SteadyRows(n - 1);
      SteadyMax(n - 1);
    }
  }

  lemma {:induction false} NoneAgree(rows: seq<Row>)
    requires forall i :: 0 <= i < |rows| ==> rows[i].verdict == Disagree
    ensures Tally(rows, Agree) == 0
  {
    if rows != [] { NoneAgree(rows[..|rows| - 1]); }
  }

  lemma SteadyWindow(n: nat)
    requires n >= 3
    ensures AgreementStats(Steady(n), SHADOW_EPOCH, ShadowPhase, 3) == Counts(3, 0)
    ensures var win := Newest(Steady(n), SHADOW_EPOCH, ShadowPhase, 3);
            && |win| == 3 && Agreements(win) == 0
            && (7 <= n <= 9 ==> SEVENTH in win)
            && forall i :: 0 <= i < 3 ==> win[i].seqNo == n - 2 + i
  {
    hide Steady, Matching, Tally, MaxSeq;
    SteadyRows(n);
    SteadyMax(n);
    SteadyMatching(n);
    var win := Newest(Steady(n), SHADOW_EPOCH, ShadowPhase, 3);
    assert win == Steady(n)[n - 3..];
    NoneAgree(win);
    if 7 <= n <= 9 { assert win[9 - n] == Steady(n)[6]; }
  }

  /** Both processes run the task with one configuration, which the decorator accepts. */
  const COMPARISON := Job(SHADOW_EPOCH, ShadowPhase, 3, 3, 0.8, 0.6)

  predicate Configurable(job: Job) {
    job.shadowWindow >= 0 && job.auditWindow >= 1 && 0.0 < job.shadowThreshold <= 1.0
    && 0.0 <= job.demoteThreshold < job.shadowThreshold
  }

  lemma {:induction false} RunsAppend(s: State, a: seq<Action>, b: seq<Action>)
    requires Runs(s, a) && Runs(Exec(s, a), b)
    ensures Runs(s, a + b) && Exec(s, a + b) == Exec(Exec(s, a), b)
    decreases |a|
  {
    if a == [] {
      assert a + b == b;
    } else {
      assert (a + b)[1..] == a[1..] + b;
      RunsAppend(Apply(s, a[0]), a[1..], b);
    }
  }

  lemma Then(s: State, acts: seq<Action>, a: Action) returns (more: seq<Action>)
    requires Runs(s, acts) && Enabled(Exec(s, acts), a)
    ensures Runs(s, more) && Exec(s, more) == Apply(Exec(s, acts), a)
  {
    var t := Exec(s, acts);
    assert Runs(Apply(t, a), []) && Exec(Apply(t, a), []) == Apply(t, a);
    assert [a][1..] == [];
    RunsAppend(s, acts, [a]);
    more := acts + [a];
  }

  ghost predicate Table(s: State, n: nat) {
    && s.past == [Tracing, Compiling, Shadow]
    && s.rows == Steady(n) && |s.ever| == n
    && Has(s, 0) && Has(s, 1)
  }

  predicate Free(s: State, p: nat) {
    Has(s, p) && s.procs[p].pc.Idle? && s.procs[p].queue == []
  }

  function ScoredBy(s: State, p: nat): nat
    requires Has(s, p)
  {
    Get(s.procs[p].scored, (SHADOW_EPOCH, ShadowPhase))
  }

  /** Nothing has moved but process `p`. */
  ghost predicate OnlyMoves(s: State, t: State, p: nat) {
    && t.past == s.past && t.draws == s.draws && Has(t, p)
    && (forall q :: q != p ==> (q in t.procs <==> q in s.procs))
    && (forall q :: q != p && q in s.procs ==> t.procs[q] == s.procs[q])
  }

  /** The job is taken and let through, with its window record as it was. */
  lemma Starts(s: State, acts: seq<Action>, n: nat, p: nat) returns (more: seq<Action>)
    requires Runs(START, acts) && s == Exec(START, acts)
    requires Table(s, n) && Free(s, p)
    ensures Runs(START, more)
    ensures var t := Exec(START, more);
            && Table(t, n) && OnlyMoves(s, t, p) && ScoredBy(t, p) == ScoredBy(s, p)
            && t.procs[p].pc == Going(COMPARISON) && t.procs[p].queue == []
  {
    more := Then(START, acts, Submit(p, COMPARISON));
    var a := Apply(s, Submit(p, COMPARISON));
    assert a.procs[p].queue == [COMPARISON];
    more := Then(START, more, Pick(p));
    var b := Apply(a, Pick(p));
    assert b.procs[p].pc == Picked(COMPARISON) && b.procs[p].queue == [];
    more := Then(START, more, Admit(p, true));
  }

  lemma Compares(s: State, acts: seq<Action>, n: nat, p: nat) returns (more: seq<Action>)
    requires Runs(START, acts) && s == Exec(START, acts)
    requires Table(s, n) && Free(s, p)
    ensures Runs(START, more)
    ensures var t := Exec(START, more);
            && Table(t, n + 1) && OnlyMoves(s, t, p) && ScoredBy(t, p) == ScoredBy(s, p)
            && t.procs[p].pc == Stored(COMPARISON, n + 1) && t.procs[p].queue == []
  {
    more := Starts(s, acts, n, p);
    var t := Exec(START, more);
    more := Then(START, more, Judge(p, Disagree));
    more := Then(START, more, Store(p));
    Stores(t, n, p);
  }

  lemma Stores(s: State, n: nat, p: nat)
    requires Table(s, n) && Has(s, p) && s.procs[p].pc == Going(COMPARISON) && s.procs[p].queue == []
    ensures var t := StoreRow(SetPc(s, p, Judged(COMPARISON, Disagree)), p);
            && Table(t, n + 1) && OnlyMoves(s, t, p) && ScoredBy(t, p) == ScoredBy(s, p)
            && t.procs[p].pc == Stored(COMPARISON, n + 1) && t.procs[p].queue == []
  {
    SteadyMax(n);
  }

  lemma ReadsThree(s: State, n: nat, p: nat, trigger: nat)
    requires Table(s, n) && n >= 3 && Has(s, p) && s.procs[p].pc == Pending(COMPARISON, trigger)
    ensures Enabled(s, Read(p, false))
    ensures var t := ReadStats(s, p, false);
            var win := Newest(s.rows, SHADOW_EPOCH, ShadowPhase, 3);
            && t.past == s.past && t.rows == s.rows && t.ever == s.ever && Has(t, p)
            && (forall q :: q != p && q in s.procs ==> q in t.procs && t.procs[q] == s.procs[q])
            && t.procs[p].queue == s.procs[p].queue
            && ScoredBy(t, p) == NextScored(3, trigger, ScoredBy(s, p))
            && t.procs[p].pc == Scored(COMPARISON, trigger, n, win)
            && t.draws == s.draws + [Draw(p, COMPARISON, trigger, n, win, true)]
  {
    SteadyWindow(n);
  }

  /** A rate of zero clears no threshold. */
  lemma DecidesNothing(t: State, p: nat)
    requires t.past != [] && Has(t, p) && t.procs[p].pc.Scored? && t.procs[p].pc.job == COMPARISON
    requires |t.procs[p].pc.window| == 3 && Agreements(t.procs[p].pc.window) == 0
    ensures Enabled(t, Decide(p, false)) && DecideMove(t, p, false) == SetPc(t, p, Idle)
  {
    assert Rate(t.procs[p].pc.window) == 0.0;
  }

  /** Process `p` scores its window when `n` comparisons have been stored. */
  lemma ScoresAt(s: State, acts: seq<Action>, n: nat, p: nat, trigger: nat) returns (more: seq<Action>)
    requires Runs(START, acts) && s == Exec(START, acts)
    requires Table(s, n) && n >= 3 && Has(s, p)
    requires s.procs[p].pc == Pending(COMPARISON, trigger) && s.procs[p].queue == []
    ensures Runs(START, more)
    ensures var t := Exec(START, more);
            && Table(t, n) && Free(t, p) && ScoredBy(t, p) == NextScored(3, trigger, ScoredBy(s, p))
            && (forall q :: q != p && q in s.procs ==> q in t.procs && t.procs[q] == s.procs[q])
            && t.draws == s.draws + [Draw(p, COMPARISON, trigger, n, Newest(Steady(n), SHADOW_EPOCH, ShadowPhase, 3), true)]
  {
    hide Newest, Agreements, Steady;
    SteadyWindow(n);
    ReadsThree(s, n, p, trigger);
    more := Then(START, acts, Read(p, false));
    DecidesNothing(ReadStats(s, p, false), p);
    more := Then(START, more, Decide(p, false));
  }

  /** The other process makes a comparison, and scores its own window if that is due. */
  lemma OtherCompares(s: State, acts: seq<Action>, n: nat) returns (more: seq<Action>)
    requires Runs(START, acts) && s == Exec(START, acts)
    requires Table(s, n) && Free(s, 1)
    ensures Runs(START, more)
    ensures var t := Exec(START, more);
            Table(t, n + 1) && Free(t, 1) && t.procs[0] == s.procs[0] && s.draws <= t.draws
  {
    hide Newest, Steady;
    more := Compares(s, acts, n, 1);
    more := Then(START, more, Check(1));
    var t := Exec(START, more);
    if t.procs[1].pc.Pending? { more := ScoresAt(t, more, n + 1, 1, n + 1); }
  }

  /** The watched process stores comparison `n + 1` and finds its window due. */
  lemma WatchedStores(s: State, acts: seq<Action>, n: nat) returns (more: seq<Action>)
    requires Runs(START, acts) && s == Exec(START, acts)
    requires Table(s, n) && Free(s, 0) && Free(s, 1)
    requires Due(ShadowPhase, 3, n + 1, ScoredBy(s, 0))
    ensures Runs(START, more)
    ensures var t := Exec(START, more);
            && Table(t, n + 1) && Free(t, 1) && t.draws == s.draws
            && t.procs[0].pc == Pending(COMPARISON, n + 1) && t.procs[0].queue == []
            && ScoredBy(t, 0) == ScoredBy(s, 0)
  {
    more := Compares(s, acts, n, 0);
    more := Then(START, more, Check(0));
  }

  ghost predicate SharesSeventh(d: Draw, trigger: nat) {
    && d.proc == 0 && d.job == COMPARISON && d.seqNo == trigger && d.live && |d.window| == 3 && SEVENTH in d.window
  }

  /** The watched process scores a window that holds comparison 7. */
  lemma WatchedScores(s: State, acts: seq<Action>, n: nat, trigger: nat) returns (more: seq<Action>)
    requires Runs(START, acts) && s == Exec(START, acts)
    requires Table(s, n) && Free(s, 1) && 7 <= n <= 9
    requires s.procs[0].pc == Pending(COMPARISON, trigger) && s.procs[0].queue == []
    ensures Runs(START, more)
    ensures var t := Exec(START, more);
            && Table(t, n) && Free(t, 0) && Free(t, 1) && ScoredBy(t, 0) == NextScored(3, trigger, ScoredBy(s, 0))
            && s.draws < t.draws && SharesSeventh(t.draws[|s.draws|], trigger)
            && t.draws[|s.draws|].window[0].seqNo == n - 2
  {
    hide Newest, Steady;
    SteadyWindow(n);
    more := ScoresAt(s, acts, n, 0, trigger);
  }

  lemma ShadowBegins() returns (acts: seq<Action>)
    ensures Runs(START, acts)
    ensures var s := Exec(START, acts);
            Table(s, 0) && Free(s, 0) && Free(s, 1) && ScoredBy(s, 0) == 0
  {
    acts := Then(START, [], Claim);
    acts := Then(START, acts, ShadowStarted);
    acts := Then(START, acts, Spawn(0));
    acts := Then(START, acts, Spawn(1));
  }

  /** Comparison 3 makes the first window due; 4 to 7 come from the other process
      before it is read. */
  lemma FirstReadIsLate() returns (acts: seq<Action>, i: nat)
    ensures Runs(START, acts)
    ensures var s := Exec(START, acts);
            && Table(s, 7) && Free(s, 0) && Free(s, 1) && ScoredBy(s, 0) == 1
            && i < |s.draws| && SharesSeventh(s.draws[i], 3) && s.draws[i].window[0].seqNo == 5
  {
    acts := ShadowBegins();
    acts := OtherCompares(Exec(START, acts), acts, 0);
    acts := OtherCompares(Exec(START, acts), acts, 1);
    acts := WatchedStores(Exec(START, acts), acts, 2);
    acts := OtherCompares(Exec(START, acts), acts, 3);
    acts := OtherCompares(Exec(START, acts), acts, 4);
    acts := OtherCompares(Exec(START, acts), acts, 5);
    acts := OtherCompares(Exec(START, acts), acts, 6);
    i := |Exec(START, acts).draws|;
    acts := WatchedScores(Exec(START, acts), acts, 7, 3);
  }

  /** Storing a comparison and reading the statistics are two transactions.  When other
      processes store comparisons in between, one worker's windows need not end with
      their triggers: there is a run in which the windows due at comparisons 3, 8 and 9,
      read when 7, 8 and 9 had been stored, all hold comparison 7. */
  lemma LateReadsShareAComparison() returns (acts: seq<Action>, i: nat, j: nat, l: nat)
    ensures Runs(START, acts) && !NeverReadsStale(START, acts)
    ensures var d := Exec(START, acts).draws;
            && i < j < l < |d| && Configurable(d[i].job) && SameWindows(d[i], d[j]) && SameWindows(d[j], d[l])
            && d[i].seqNo == 3 && d[j].seqNo == 8 && d[l].seqNo == 9
            && SEVENTH in d[i].window && SEVENTH in d[j].window && SEVENTH in d[l].window
  {
    acts, i := FirstReadIsLate();
    acts := WatchedStores(Exec(START, acts), acts, 7);
    j := |Exec(START, acts).draws|;
    acts := WatchedScores(Exec(START, acts), acts, 8, 8);
    acts := WatchedStores(Exec(START, acts), acts, 8);
    l := |Exec(START, acts).draws|;
    acts := WatchedScores(Exec(START, acts), acts, 9, 9);
    assert !OnTime(Exec(START, acts).draws[i]);
    WindowsEndAtTheirTriggers(acts);
  }

  lemma ScoresOnTime(s: State, acts: seq<Action>, n: nat) returns (more: seq<Action>)
    requires Runs(START, acts) && s == Exec(START, acts)
    requires Table(s, n) && n >= 3 && Free(s, 1)
    requires s.procs[0].pc == Pending(COMPARISON, n) && s.procs[0].queue == []
    ensures Runs(START, more)
    ensures var t := Exec(START, more);
            && Table(t, n) && Free(t, 0) && Free(t, 1) && ScoredBy(t, 0) == NextScored(3, n, ScoredBy(s, 0))
            && s.draws < t.draws
            && var d := t.draws[|s.draws|];
               d.proc == 0 && d.job == COMPARISON && d.live && |d.window| == 3 && d.seqNo == n && OnTime(d)
  {
    hide Newest, Steady;
    SteadyWindow(n);
    more := ScoresAt(s, acts, n, 0, n);
  }

  /** With every window ending at its trigger two of them can still share: the statistics
      cannot be read at comparison 3, the window is scored at 4 instead, and the next one,
      due at 6, holds comparison 4 as well. */
  lemma LateRetrySharesAComparison() returns (acts: seq<Action>, i: nat, j: nat)
    ensures Runs(START, acts)
    ensures var d := Exec(START, acts).draws;
            && i < j < |d| && SameWindows(d[i], d[j]) && OnTime(d[i]) && OnTime(d[j])
            && d[i].seqNo == 4 && d[j].seqNo == 6 && HoldsNumber(d[i], 4) && HoldsNumber(d[j], 4)
  {
    acts := ShadowBegins();
    acts := OtherCompares(Exec(START, acts), acts, 0);
    acts := OtherCompares(Exec(START, acts), acts, 1);
    acts := WatchedStores(Exec(START, acts), acts, 2);
    acts := Then(START, acts, Read(0, true));
    acts := WatchedStores(Exec(START, acts), acts, 3);
    i := |Exec(START, acts).draws|;
    acts := ScoresOnTime(Exec(START, acts), acts, 4);
    acts := OtherCompares(Exec(START, acts), acts, 4);
    acts := WatchedStores(Exec(START, acts), acts, 5);
    j := |Exec(START, acts).draws|;
    acts := ScoresOnTime(Exec(START, acts), acts, 6);
    var d := Exec(START, acts).draws;
    OnTimeHoldsAll(d[i], 4);
    OnTimeHoldsAll(d[j], 4);
  }
}
