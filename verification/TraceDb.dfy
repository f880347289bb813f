/** The part of the trace database the shadow gate relies on, for one task: the
    comparison rows in insertion order with their per-epoch sequence numbers, the
    retention prune, and the window statistics.  The lifecycle record is the list
    of statuses the task has had: every writer raises the epoch by one, so entry
    `e` is the status at epoch `e`.
 */
module TraceDb {

  datatype Status = Tracing | Compiling | Shadow | Ready | Failed

  datatype Phase = ShadowPhase | AuditPhase

  datatype Verdict = Agree | Disagree | Error | TeacherError | PoolExhausted

  datatype Row = Row(epoch: nat, seqNo: nat, phase: Phase, verdict: Verdict)

  datatype Option<T> = None | Some(value: T)

  datatype Stats = Unfillable | Counts(samples: nat, agree: nat)

  /** Infrastructure failures and teacher failures are not comparisons. */
  predicate Countable(v: Verdict) {
    v != TeacherError && v != PoolExhausted
  }

  predicate CountsAt(r: Row, epoch: nat) {
    r.epoch == epoch && Countable(r.verdict)
  }

  function Max(a: nat, b: nat): nat { if a < b then b else a }

  /** `COALESCE(MAX(seq), 0)` over the rows of an epoch. */
  function MaxSeq(rows: seq<Row>, epoch: nat): nat {
    if rows == [] then 0
    else
      var last := rows[|rows| - 1];
      var m := MaxSeq(rows[..|rows| - 1], epoch);
      if last.epoch == epoch then Max(m, last.seqNo) else m
  }

  /** The sequence number `record_shadow_pair` gives a new row. */
  function NextSeq(rows: seq<Row>, epoch: nat, v: Verdict): nat {
    if Countable(v) then MaxSeq(rows, epoch) + 1 else 0
  }

  function Record(rows: seq<Row>, epoch: nat, phase: Phase, v: Verdict): seq<Row> {
    rows + [Row(epoch, NextSeq(rows, epoch, v), phase, v)]
  }

  /** Oldest-first retention: the newest `cap` rows stay. */
  function Pruned(rows: seq<Row>, cap: nat): seq<Row> {
    if cap == 0 || |rows| <= cap then rows else rows[|rows| - cap..]
  }

  /** The countable rows of an epoch, in insertion order. */
  function CountableRows(rows: seq<Row>, epoch: nat): seq<Row> {
    if rows == [] then []
    else
      var last := rows[|rows| - 1];
      CountableRows(rows[..|rows| - 1], epoch) + if CountsAt(last, epoch) then [last] else []
  }

  /** Those of one phase: what the window query filters on. */
  function Matching(rows: seq<Row>, epoch: nat, phase: Phase): seq<Row> {
    if rows == [] then []
    else
      var last := rows[|rows| - 1];
      Matching(rows[..|rows| - 1], epoch, phase) +
      if CountsAt(last, epoch) && last.phase == phase then [last] else []
  }

  function LastOf(rows: seq<Row>, n: nat): seq<Row> {
    if |rows| <= n then rows else rows[|rows| - n..]
  }

  /** The newest `window` rows the query selects (fewer when there are fewer). */
  function Newest(rows: seq<Row>, epoch: nat, phase: Phase, window: nat): seq<Row> {
    LastOf(Matching(rows, epoch, phase), window)
  }

  /** How many rows carry a verdict. */
  function Tally(rows: seq<Row>, v: Verdict): (n: nat)
    ensures n <= |rows|
  {
    if rows == [] then 0
    else Tally(rows[..|rows| - 1], v) + if rows[|rows| - 1].verdict == v then 1 else 0
  }

  function Agreements(rows: seq<Row>): nat { Tally(rows, Agree) }

  /** The statistics of the newest window; a window that retention has already eaten
      into is refused rather than computed. */
  function AgreementStats(rows: seq<Row>, epoch: nat, phase: Phase, window: nat): Stats {
    var w := Newest(rows, epoch, phase, window);
    if 0 < window <= MaxSeq(rows, epoch) && |w| < window then Unfillable
    else Counts(|w|, Agreements(w))
  }

  /* The sequence counter. */

  /** Excluded rows carry 0, and the countable rows of every epoch that are still
      retained are numbered consecutively from some positive number on. */
  ghost predicate WellNumbered(rows: seq<Row>) {
    && (forall i :: 0 <= i < |rows| && !Countable(rows[i].verdict) ==> rows[i].seqNo == 0)
    && (forall epoch :: Consecutive(CountableRows(rows, epoch)))
  }

  ghost predicate Consecutive(xs: seq<Row>) {
    forall i :: 0 <= i < |xs| ==> xs[i].seqNo == xs[0].seqNo + i && xs[i].seqNo > 0
  }

  function LastSeq(xs: seq<Row>): nat {
    if xs == [] then 0 else xs[|xs| - 1].seqNo
  }

  lemma {:induction false} CountableRowsSplit(a: seq<Row>, b: seq<Row>, epoch: nat)
    ensures CountableRows(a + b, epoch) == CountableRows(a, epoch) + CountableRows(b, epoch)
    decreases |b|
  {
    if b == [] {
      assert a + b == a;
    } else {
      var b' := b[..|b| - 1];
      assert (a + b)[..|a + b| - 1] == a + b';
      CountableRowsSplit(a, b', epoch);
    }
  }

  /** With the numbering intact, the maximum is the number of the newest countable
      row, and 0 when none is retained. */
  lemma {:induction false} MaxSeqIsNewest(rows: seq<Row>, epoch: nat)
    requires WellNumbered(rows)
    ensures var c := CountableRows(rows, epoch);
            MaxSeq(rows, epoch) == LastSeq(c)
    decreases |rows|
  {
    if rows != [] {
      var rest := rows[..|rows| - 1];
      WellNumberedPrefix(rows, |rest|);
      MaxSeqIsNewest(rest, epoch);
      var c, d := CountableRows(rest, epoch), CountableRows(rows, epoch);
      if d != [] && c != [] && |d| > |c| {
        assert d[|d| - 1].seqNo == d[0].seqNo + |c|;
        assert d[|c| - 1] == c[|c| - 1];
      }
    }
  }

  lemma WellNumberedPrefix(rows: seq<Row>, n: nat)
    requires WellNumbered(rows) && n <= |rows|
    ensures WellNumbered(rows[..n])
  {
    forall epoch ensures Consecutive(CountableRows(rows[..n], epoch)) {
      assert rows == rows[..n] + rows[n..];
      CountableRowsSplit(rows[..n], rows[n..], epoch);
      var c, d := CountableRows(rows[..n], epoch), CountableRows(rows, epoch);
      assert Consecutive(d);
      forall i | 0 <= i < |c| ensures c[i].seqNo == c[0].seqNo + i && c[i].seqNo > 0 {
        assert c[i] == d[i] && c[0] == d[0];
      }
    }
  }

  lemma WellNumberedSuffix(rows: seq<Row>, n: nat)
    requires WellNumbered(rows) && n <= |rows|
    ensures WellNumbered(rows[n..])
  {
    forall epoch ensures Consecutive(CountableRows(rows[n..], epoch)) {
      assert rows == rows[..n] + rows[n..];
      CountableRowsSplit(rows[..n], rows[n..], epoch);
      var k := |CountableRows(rows[..n], epoch)|;
      var c, d := CountableRows(rows[n..], epoch), CountableRows(rows, epoch);
      assert Consecutive(d);
      forall i | 0 <= i < |c| ensures c[i].seqNo == c[0].seqNo + i && c[i].seqNo > 0 {
        assert c[i] == d[k + i] && c[0] == d[k + 0];
      }
    }
  }

  lemma ConsecutiveSnoc(c: seq<Row>, r: Row)
    requires Consecutive(c) && r.seqNo == 1 + LastSeq(c)
    ensures Consecutive(c + [r])
  {
    var d := c + [r];
    forall i | 0 <= i < |d| ensures d[i].seqNo == d[0].seqNo + i && d[i].seqNo > 0 {
      if i < |c| {
        assert d[i] == c[i] && d[0] == c[0];
      } else if c != [] {
        assert c[|c| - 1].seqNo == c[0].seqNo + |c| - 1;
      }
    }
  }

  /** Recording keeps the numbering. */
  lemma RecordKeepsNumbering(rows: seq<Row>, epoch: nat, phase: Phase, v: Verdict)
    requires WellNumbered(rows)
    ensures WellNumbered(Record(rows, epoch, phase, v))
  {
    var rows' := Record(rows, epoch, phase, v);
    forall e ensures Consecutive(CountableRows(rows', e)) {
      RecordCountable(rows, epoch, phase, v, e);
      var c := CountableRows(rows, e);
      assert Consecutive(c);
      if e == epoch && Countable(v) {
        MaxSeqIsNewest(rows, epoch);
        ConsecutiveSnoc(c, rows'[|rows|]);
      }
    }
  }

  lemma RecordCountable(rows: seq<Row>, epoch: nat, phase: Phase, v: Verdict, e: nat)
    ensures var rows' := Record(rows, epoch, phase, v);
            CountableRows(rows', e) == CountableRows(rows, e) + if e == epoch && Countable(v) then [rows'[|rows|]] else []
  {
    assert Record(rows, epoch, phase, v)[..|rows|] == rows;
  }

  /** So does retention. */
  lemma PruneKeepsNumbering(rows: seq<Row>, cap: nat)
    requires WellNumbered(rows)
    ensures WellNumbered(Pruned(rows, cap))
  {
    if cap != 0 && |rows| > cap { WellNumberedSuffix(rows, |rows| - cap); }
  }

  /** Retention leaves the counter of an epoch alone exactly when it keeps at least
      one countable row of that epoch, or there was none to begin with. */
  lemma SeqSurvivesPruning(rows: seq<Row>, cap: nat, epoch: nat)
    requires WellNumbered(rows)
    ensures MaxSeq(Pruned(rows, cap), epoch) == MaxSeq(rows, epoch)
            <==> (CountableRows(Pruned(rows, cap), epoch) != [] || CountableRows(rows, epoch) == [])
  {
    if cap != 0 && |rows| > cap {
      var n := |rows| - cap;
      var kept := rows[n..];
      WellNumberedSuffix(rows, n);
      MaxSeqIsNewest(kept, epoch);
      MaxSeqIsNewest(rows, epoch);
      assert rows == rows[..n] + kept;
      CountableRowsSplit(rows[..n], kept, epoch);
      assert Consecutive(CountableRows(rows, epoch));
      KeptNewest(CountableRows(rows[..n], epoch), CountableRows(kept, epoch), MaxSeq(kept, epoch), MaxSeq(rows, epoch));
    }
  }

  lemma KeptNewest(a: seq<Row>, c: seq<Row>, kept: nat, all: nat)
    requires Consecutive(a + c) && kept == LastSeq(c) && all == LastSeq(a + c)
    ensures kept == all <==> c != [] || a + c == []
  {
    if c != [] { assert (a + c)[|a + c| - 1] == c[|c| - 1]; }
  }

  function Excluded(rows: seq<Row>, epoch: nat, phase: Phase, n: nat): seq<Row> {
    if n == 0 then rows else Record(Excluded(rows, epoch, phase, n - 1), epoch, phase, TeacherError)
  }

  /** The counter does not survive pruning in general: once a run of excluded rows is
      as long as the retention cap, every countable row is gone and the next
      comparison of the epoch is number 1 again. */
  lemma {:induction false} ExcludedRunRestartsSeq(rows: seq<Row>, epoch: nat, phase: Phase, cap: nat)
    requires cap > 0
    ensures var kept := Pruned(Excluded(rows, epoch, phase, cap), cap);
            MaxSeq(kept, epoch) == 0 && NextSeq(kept, epoch, Agree) == 1
  {
    ExcludedShape(rows, epoch, phase, cap);
    var all := Excluded(rows, epoch, phase, cap);
    var kept := Pruned(all, cap);
    assert kept == all[|rows|..];
    AllZero(kept, epoch);
  }

  lemma {:induction false} ExcludedShape(rows: seq<Row>, epoch: nat, phase: Phase, n: nat)
    ensures var x := Excluded(rows, epoch, phase, n);
            |x| == |rows| + n && forall i :: |rows| <= i < |x| ==> x[i].seqNo == 0
  {
    if n > 0 { ExcludedShape(rows, epoch, phase, n - 1); }
  }

  lemma {:induction false} AllZero(rows: seq<Row>, epoch: nat)
    requires forall i :: 0 <= i < |rows| ==> rows[i].seqNo == 0
    ensures MaxSeq(rows, epoch) == 0
  {
    if rows != [] { AllZero(rows[..|rows| - 1], epoch); }
  }

  /* The window query. */

  lemma {:induction false} MatchingAll(rows: seq<Row>, epoch: nat, phase: Phase)
    ensures forall i :: 0 <= i < |Matching(rows, epoch, phase)| ==>
              var r := Matching(rows, epoch, phase)[i];
              CountsAt(r, epoch) && r.phase == phase && r in rows
  {
    if rows != [] { MatchingAll(rows[..|rows| - 1], epoch, phase); }
  }

  lemma {:induction false} MatchingSplit(a: seq<Row>, b: seq<Row>, epoch: nat, phase: Phase)
    ensures Matching(a + b, epoch, phase) == Matching(a, epoch, phase) + Matching(b, epoch, phase)
    decreases |b|
  {
    if b == [] {
      assert a + b == a;
    } else {
      var b' := b[..|b| - 1];
      assert (a + b)[..|a + b| - 1] == a + b';
      MatchingSplit(a, b', epoch, phase);
    }
  }

  lemma LastOfSplit(a: seq<Row>, b: seq<Row>, n: nat)
    requires |b| >= n
    ensures LastOf(a + b, n) == LastOf(b, n)
  {
  }

  /** Retention does not change what a full window holds. */
  lemma NewestOfSuffix(ever: seq<Row>, n: nat, epoch: nat, phase: Phase, w: nat)
    requires n <= |ever| && |Newest(ever[n..], epoch, phase, w)| == w
    ensures Newest(ever, epoch, phase, w) == Newest(ever[n..], epoch, phase, w)
  {
    assert ever == ever[..n] + ever[n..];
    MatchingSplit(ever[..n], ever[n..], epoch, phase);
    LastOfSplit(Matching(ever[..n], epoch, phase), Matching(ever[n..], epoch, phase), w);
  }

  /** When all rows of an epoch are of one phase, the phase filter changes nothing. */
  lemma {:induction false} OnePhaseMatching(rows: seq<Row>, epoch: nat, phase: Phase)
    requires forall i :: 0 <= i < |rows| && rows[i].epoch == epoch ==> rows[i].phase == phase
    ensures Matching(rows, epoch, phase) == CountableRows(rows, epoch)
  {
    if rows != [] { OnePhaseMatching(rows[..|rows| - 1], epoch, phase); }
  }

  /** What a scored window holds: exactly `window` countable comparisons of this
      epoch and phase, the newest there are. */
  lemma FullWindow(rows: seq<Row>, epoch: nat, phase: Phase, window: nat)
    requires var st := AgreementStats(rows, epoch, phase, window);
             st.Counts? && st.samples == window
    ensures var w := Newest(rows, epoch, phase, window);
            && |w| == window && AgreementStats(rows, epoch, phase, window).agree == Agreements(w)
            && (forall i :: 0 <= i < |w| ==> CountsAt(w[i], epoch) && w[i].phase == phase && w[i] in rows)
  {
    MatchingAll(rows, epoch, phase);
  }

  /* What one more comparison changes. */

  /** A comparison the adapter failed counts like one it got wrong: it is numbered next
      and enters the newest window, where only an agreement counts as one.  A failure of
      the teacher or of the pool is recorded without a number and changes no window. */
  lemma RecordingCounts(rows: seq<Row>, epoch: nat, phase: Phase, v: Verdict, e: nat, ph: Phase, window: nat)
    requires WellNumbered(rows) && window > 0
    ensures var t := Record(rows, epoch, phase, v);
            && |t| == |rows| + 1
            && var r := t[|rows|];
            if v == TeacherError || v == PoolExhausted then
              && r.seqNo == 0 && MaxSeq(t, epoch) == MaxSeq(rows, epoch)
              && Newest(t, e, ph, window) == Newest(rows, e, ph, window)
            else
              && r.seqNo == 1 + LastSeq(CountableRows(rows, epoch)) && MaxSeq(t, epoch) == r.seqNo
              && Newest(t, e, ph, window) ==
                   (if e == epoch && ph == phase then Newest(rows, e, ph, window - 1) + [r] else Newest(rows, e, ph, window))
              && Agreements([r]) == if v == Agree then 1 else 0
  {
    hide Matching, MaxSeq;
    RecordNumbers(rows, epoch, phase, v);
    RecordMatching(rows, epoch, phase, v, e, ph);
    var r := Record(rows, epoch, phase, v)[|rows|];
    LastOfSnoc(Matching(rows, e, ph), r, window);
    assert [r][..0] == [] && Tally([], Agree) == 0;
  }

  lemma RecordNumbers(rows: seq<Row>, epoch: nat, phase: Phase, v: Verdict)
    requires WellNumbered(rows)
    ensures var t := Record(rows, epoch, phase, v);
            && t[|rows|].seqNo == (if Countable(v) then 1 + LastSeq(CountableRows(rows, epoch)) else 0)
            && MaxSeq(t, epoch) == Max(MaxSeq(rows, epoch), t[|rows|].seqNo)
            && MaxSeq(rows, epoch) == LastSeq(CountableRows(rows, epoch))
  {
    MaxSeqIsNewest(rows, epoch);
    assert Record(rows, epoch, phase, v)[..|rows|] == rows;
  }

  lemma RecordMatching(rows: seq<Row>, epoch: nat, phase: Phase, v: Verdict, e: nat, ph: Phase)
    ensures var t := Record(rows, epoch, phase, v);
            Matching(t, e, ph) == Matching(rows, e, ph) + if e == epoch && ph == phase && Countable(v) then [t[|rows|]] else []
  {
    assert Record(rows, epoch, phase, v)[..|rows|] == rows;
  }

  lemma LastOfSnoc(m: seq<Row>, r: Row, window: nat)
    requires window > 0
    ensures LastOf(m + [r], window) == LastOf(m, window - 1) + [r]
  {
  }

  /** The positions of the rows that carry a verdict. */
  function Carrying(rows: seq<Row>, v: Verdict): set<int> {
    set i | 0 <= i < |rows| && rows[i].verdict == v
  }

  lemma {:induction false} TallyCounts(rows: seq<Row>, v: Verdict)
    ensures Tally(rows, v) == |Carrying(rows, v)|
  {
    if rows != [] {
      var n := |rows| - 1;
      TallyCounts(rows[..n], v);
      assert Carrying(rows, v) == Carrying(rows[..n], v) + if rows[n].verdict == v then {n} else {};
    }
  }

  /** Retention keeps the newest rows: `cap` of them when there are more, else all; a cap
      of 0 keeps everything. */
  lemma PruningKeepsTheNewest(rows: seq<Row>, cap: nat)
    ensures var kept := Pruned(rows, cap);
            && |kept| == (if 0 < cap < |rows| then cap else |rows|)
            && forall i :: 0 <= i < |kept| ==> kept[i] == rows[|rows| - |kept| + i]
  {
  }

  /** Once an epoch has completed a window, and while the counter is intact, its newest
      window is refused exactly when retention has eaten into it; otherwise its figures
      are those of all comparisons ever recorded. */
  lemma RefusedWhenEatenInto(ever: seq<Row>, n: nat, epoch: nat, phase: Phase, window: nat)
    requires n <= |ever| && WellNumbered(ever) && window > 0
    requires forall i :: 0 <= i < |ever| && ever[i].epoch == epoch ==> ever[i].phase == phase
    requires var c := CountableRows(ever, epoch); |c| >= window && c[0].seqNo == 1
    requires CountableRows(ever[n..], epoch) != []
    ensures var st := AgreementStats(ever[n..], epoch, phase, window);
            && (st.Unfillable? <==> Newest(ever[n..], epoch, phase, window) != Newest(ever, epoch, phase, window))
            && (st.Counts? ==> st == AgreementStats(ever, epoch, phase, window) && st.samples == window)
  {
    var kept := ever[n..];
    var c, d := CountableRows(ever, epoch), CountableRows(kept, epoch);
    assert ever == ever[..n] + kept;
    CountableRowsSplit(ever[..n], kept, epoch);
    WellNumberedSuffix(ever, n);
    MaxSeqIsNewest(ever, epoch);
    MaxSeqIsNewest(kept, epoch);
    OnePhaseMatching(ever, epoch, phase);
    OnePhaseMatching(kept, epoch, phase);
    assert Consecutive(c);
    assert c[|c| - 1].seqNo == c[0].seqNo + (|c| - 1);
    assert d[|d| - 1] == c[|c| - 1];
    if |d| >= window { LastOfSplit(CountableRows(ever[..n], epoch), d, window); }
  }
}
