/** What the queues promise a caller: how many jobs a key can have waiting, when one is
    refused, and that somebody serves the key.
 */
module QueueLimits {
  import opened TraceDb
  import opened ShadowQueue

  /* How full a queue gets. */

  predicate Opens(r: Runner, a: Action, k: Key)
    requires Enabled(r, a)
  {
    (a.Ensure? || a.EnsureFails?) && r.submitters[a.i].job.key == k
  }

  /** The job that opened the key's queue: the first of the key to ask for a worker,
      whether that worker could be started or not. */
  function Opener(r: Runner, acts: seq<Action>, k: Key): Option<Job>
    requires Runs(r, acts)
    decreases |acts|
  {
    if acts == [] then None
    else if Opens(r, acts[0], k) then Some(r.submitters[acts[0].i].job)
    else Opener(Apply(r, acts[0]), acts[1..], k)
  }

  predicate Open(r: Runner, k: Key, size: int) {
    k in r.queues && k in r.capacity && r.capacity[k] == size && |r.queues[k]| <= size
  }

  ghost predicate Unopened(r: Runner, k: Key) {
    && k !in r.queues
    && forall i :: 0 <= i < |r.submitters| && r.submitters[i].job.key == k ==>
         r.submitters[i].stage == Arrived
  }

  function SizeFor(job: Job): int { if job.queueSize < 1 then 1 else job.queueSize }

  /** A submitter moves on and the job's queue is opened if there was none. */
  predicate Asks(r: Runner, t: Runner, i: nat, st: Stage)
    requires i < |r.submitters|
  {
    var job := r.submitters[i].job;
    && t.submitters == r.submitters[i := r.submitters[i].(stage := st)]
    && t.queues == (if job.key in r.queues then r.queues else r.queues[job.key := []])
    && t.capacity == if job.key in r.queues then r.capacity else r.capacity[job.key := SizeFor(job)]
  }

  lemma OpenAsks(r: Runner, i: nat, st: Stage)
    requires i < |r.submitters|
    ensures Asks(r, OpenQueue(Move(r, i, st), r.submitters[i].job), i, st)
  {
  }

  lemma EnsureAsks(r: Runner, i: nat)
    requires IsAt(r, i, Arrived)
    ensures Asks(r, Ensuring(r, i), i, Ensured)
  {
    hide OpenQueue;
    OpenAsks(r, i, Ensured);
  }

  lemma EnsureFailsAsks(r: Runner, i: nat)
    requires IsAt(r, i, Arrived)
    ensures Asks(r, EnsureFailing(r, i), i, Broken)
  {
    hide OpenQueue;
    OpenAsks(r, i, Broken);
  }

  lemma AskingOpens(r: Runner, t: Runner, i: nat, st: Stage, k: Key)
    requires i < |r.submitters| && Asks(r, t, i, st) && Unopened(r, k)
    ensures if r.submitters[i].job.key == k then Open(t, k, SizeFor(r.submitters[i].job)) else Unopened(t, k)
  {
  }

  lemma AskingStaysOpen(r: Runner, t: Runner, i: nat, st: Stage, k: Key, size: int)
    requires i < |r.submitters| && Asks(r, t, i, st) && Open(r, k, size)
    ensures Open(t, k, size)
  {
  }

  lemma StepOpens(r: Runner, a: Action, k: Key)
    requires Enabled(r, a) && Unopened(r, k)
    ensures if Opens(r, a, k) then Open(Apply(r, a), k, SizeFor(r.submitters[a.i].job)) else Unopened(Apply(r, a), k)
  {
    match a
    case Ensure(i) =>
      EnsureAsks(r, i);
      AskingOpens(r, Ensuring(r, i), i, Ensured, k);
    case EnsureFails(i) =>
      EnsureFailsAsks(r, i);
      AskingOpens(r, EnsureFailing(r, i), i, Broken, k);
    case _ => OtherStaysUnopened(r, a, k);
  }

  lemma OtherStaysUnopened(r: Runner, a: Action, k: Key)
    requires Enabled(r, a) && Unopened(r, k) && !a.Ensure? && !a.EnsureFails?
    ensures Unopened(Apply(r, a), k)
  {
    match a
    case Arrive(job) => assert Unopened(Arriving(r, job), k);
    case Increment(i) => MovedStaysUnopened(r, Counting(r, i), i, Counted, k);
    case Put(i) => PutStaysUnopened(r, i, k);
    case Rollback(i) => MovedStaysUnopened(r, RollingBack(r, i), i, Dropped, k);
    case Take(w) => assert Unopened(Taking(r, w), k);
    case Finish(w) => assert Unopened(Finishing(r, w), k);
    case Die(w) => assert Unopened(Dying(r, w), k);
  }

  lemma PutStaysUnopened(r: Runner, i: nat, k: Key)
    requires IsAt(r, i, Counted) && Unopened(r, k)
    ensures Unopened(Putting(r, i), k)
  {
    MovedStaysUnopened(r, Accepting(r, i), i, Accepted, k);
    MovedStaysUnopened(r, Move(r, i, Overflowed), i, Overflowed, k);
  }

  lemma MovedStaysUnopened(r: Runner, t: Runner, i: nat, st: Stage, k: Key)
    requires i < |r.submitters| && r.submitters[i].stage != Arrived && Unopened(r, k)
    requires t.submitters == r.submitters[i := r.submitters[i].(stage := st)]
    requires t.queues.Keys <= r.queues.Keys + {r.submitters[i].job.key}
    ensures Unopened(t, k)
  {
  }

  lemma StepStaysOpen(r: Runner, a: Action, k: Key, size: int)
    requires Enabled(r, a) && Open(r, k, size)
    ensures Open(Apply(r, a), k, size)
  {
    match a
    case Ensure(i) =>
      EnsureAsks(r, i);
      AskingStaysOpen(r, Ensuring(r, i), i, Ensured, k, size);
    case EnsureFails(i) =>
      EnsureFailsAsks(r, i);
      AskingStaysOpen(r, EnsureFailing(r, i), i, Broken, k, size);
    case Put(i) => PutStaysOpen(r, i, k, size);
    case Take(w) => TakeStaysOpen(r, w, k, size);
    case _ => assert Apply(r, a).queues == r.queues && Apply(r, a).capacity == r.capacity;
  }

  lemma PutStaysOpen(r: Runner, i: nat, k: Key, size: int)
    requires Enabled(r, Put(i)) && Open(r, k, size)
    ensures Open(Putting(r, i), k, size)
  {
  }

  lemma TakeStaysOpen(r: Runner, w: nat, k: Key, size: int)
    requires Enabled(r, Take(w)) && Open(r, k, size)
    ensures Open(Taking(r, w), k, size)
  {
  }

  lemma {:induction false} ExecStaysOpen(r: Runner, acts: seq<Action>, k: Key, size: int)
    requires Open(r, k, size) && Runs(r, acts)
    ensures Open(Exec(r, acts), k, size)
    decreases |acts|
  {
    if acts != [] {
      StepStaysOpen(r, acts[0], k, size);
      ExecStaysOpen(Apply(r, acts[0]), acts[1..], k, size);
    }
  }

  lemma {:induction false} ExecOpens(r: Runner, acts: seq<Action>, k: Key)
    requires Unopened(r, k) && Runs(r, acts)
    ensures match Opener(r, acts, k)
            case None => Unopened(Exec(r, acts), k)
            case Some(job) => job.key == k && Open(Exec(r, acts), k, SizeFor(job))
    decreases |acts|
  {
    if acts != [] {
      var t := Apply(r, acts[0]);
      StepOpens(r, acts[0], k);
      if Opens(r, acts[0], k) {
        ExecStaysOpen(t, acts[1..], k, SizeFor(r.submitters[acts[0].i].job));
      } else {
        ExecOpens(t, acts[1..], k);
      }
    }
  }

  /** In every run a key's queue holds at most the queue size of the job that opened it,
      and at least one place; before that it does not exist. */
  lemma QueueStaysWithinItsSize(acts: seq<Action>, k: Key)
    requires Runs(EMPTY, acts)
    ensures var r := Exec(EMPTY, acts);
            match Opener(EMPTY, acts, k)
            case None => k !in r.queues
            case Some(job) => job.key == k && |JobsAt(r.queues, k)| <= if job.queueSize < 1 then 1 else job.queueSize
  {
    ExecOpens(EMPTY, acts, k);
  }

  /** And a job about to be put is refused exactly when its queue is that full. */
  lemma RefusedOnlyWhenFull(acts: seq<Action>, i: nat)
    requires Runs(EMPTY, acts) && IsAt(Exec(EMPTY, acts), i, Counted)
    ensures var r := Exec(EMPTY, acts);
            var k := r.submitters[i].job.key;
            && Opener(EMPTY, acts, k).Some?
            && var size := Opener(EMPTY, acts, k).value.queueSize;
               IsAt(Apply(r, Put(i)), i, Overflowed)
               <==> |JobsAt(r.queues, k)| == if size < 1 then 1 else size
  {
    var r := Exec(EMPTY, acts);
    var k := r.submitters[i].job.key;
    ExecOpens(EMPTY, acts, k);
    PutWhenFull(r, i);
  }

  lemma PutWhenFull(r: Runner, i: nat)
    requires IsAt(r, i, Counted)
    ensures IsAt(Apply(r, Put(i)), i, Overflowed) <==> !HasRoom(r, r.submitters[i].job.key)
  {
  }

  /* Who serves a key. */

  ghost predicate Registered(r: Runner) {
    forall k :: k in r.threads ==> r.threads[k] < |r.pool| && r.pool[r.threads[k]].key == k
  }

  lemma StepRegistered(r: Runner, a: Action)
    requires Registered(r) && Enabled(r, a)
    ensures Registered(Apply(r, a))
  {
    match a
    case Ensure(i) => EnsureRegistered(r, i);
    case EnsureFails(i) => EnsureRegistered(r, i);
    case Arrive(job) => SameRegistered(r, Arriving(r, job));
    case Increment(i) => SameRegistered(r, Counting(r, i));
    case Put(i) =>
      SameRegistered(r, Accepting(r, i));
      SameRegistered(r, Move(r, i, Overflowed));
    case Rollback(i) => SameRegistered(r, RollingBack(r, i));
    case Take(w) => SameRegistered(r, Taking(r, w));
    case Finish(w) => SameRegistered(r, Finishing(r, w));
    case Die(w) => SameRegistered(r, Dying(r, w));
  }

  lemma EnsureRegistered(r: Runner, i: nat)
    requires Registered(r) && i < |r.submitters|
    ensures Registered(Ensuring(r, i)) && Registered(EnsureFailing(r, i))
  {
    OpenRegistered(r, i, Ensured);
    OpenRegistered(r, i, Broken);
    hide OpenQueue, Move, StartThread, Registered;
    var job := r.submitters[i].job;
    StartRegistered(OpenQueue(Move(r, i, Ensured), job), job.key, Waiting);
    StartRegistered(OpenQueue(Move(r, i, Broken), job), job.key, Dead);
  }

  lemma OpenRegistered(r: Runner, i: nat, st: Stage)
    requires Registered(r) && i < |r.submitters|
    ensures Registered(OpenQueue(Move(r, i, st), r.submitters[i].job))
  {
  }

  lemma StartRegistered(r: Runner, k: Key, st: ThreadState)
    requires Registered(r)
    ensures Registered(StartThread(r, k, st))
  {
  }

  lemma SameRegistered(r: Runner, t: Runner)
    requires Registered(r) && t.threads == r.threads && |t.pool| == |r.pool|
    requires forall v :: 0 <= v < |r.pool| ==> t.pool[v].key == r.pool[v].key
    ensures Registered(t)
  {
  }

  lemma {:induction false} ExecRegistered(r: Runner, acts: seq<Action>)
    requires Registered(r) && Runs(r, acts)
    ensures Registered(Exec(r, acts))
    decreases |acts|
  {
    if acts != [] {
      StepRegistered(r, acts[0]);
      ExecRegistered(Apply(r, acts[0]), acts[1..]);
    }
  }

  lemma StillOneWorker(r: Runner, t: Runner)
    requires OneWorker(r) && t.pool == r.pool && t.threads == r.threads
    ensures OneWorker(t)
  {
  }

  lemma LeavesServed(r: Runner, job: Job) returns (w: nat)
    requires Registered(r) && OneWorker(r)
    ensures var t := EnsureWorker(r, job);
            && w < |t.pool| && t.pool[w].key == job.key && t.pool[w].state != Dead && r.pool <= t.pool
            && (t.pool != r.pool <==> forall v :: 0 <= v < |r.pool| && r.pool[v].key == job.key ==> r.pool[v].state == Dead)
  {
    w := if Alive(r, job.key) then r.threads[job.key] else |r.pool|;
  }

  /** In every run a submitter that goes on to queue its job leaves a thread of the key
      behind that is not dead: the one there was, or a new one in the place of none. */
  lemma EnsuredIsServed(acts: seq<Action>, i: nat) returns (w: nat)
    requires Runs(EMPTY, acts) && IsAt(Exec(EMPTY, acts), i, Arrived)
    ensures var r, k := Exec(EMPTY, acts), Exec(EMPTY, acts).submitters[i].job.key;
            var t := Apply(r, Ensure(i));
            && w < |t.pool| && t.pool[w].key == k && t.pool[w].state != Dead && r.pool <= t.pool
            && (t.pool != r.pool <==> forall v :: 0 <= v < |r.pool| && r.pool[v].key == k ==> r.pool[v].state == Dead)
  {
    ExecRegistered(EMPTY, acts);
    ExecInv(EMPTY, acts);
    var r := Exec(EMPTY, acts);
    SameRegistered(r, Move(r, i, Ensured));
    hide EnsureWorker, OneWorker, Registered;
    assert OneWorker(Move(r, i, Ensured)) by { StillOneWorker(r, Move(r, i, Ensured)); }
    w := LeavesServed(Move(r, i, Ensured), r.submitters[i].job);
  }
}
