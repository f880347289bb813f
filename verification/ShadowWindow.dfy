/** The window arithmetic of the promotion gate: when a completed comparison makes a
    window due, what the record of scored windows becomes, and how the windows that
    are scored relate to each other and to the offline recomputation.
 */
module ShadowWindow {
  import opened TraceDb

  const STALL_FACTOR := 5

  /** Due at or past the next unscored boundary, and never past the stall point in
      the shadow phase. */
  predicate Due(phase: Phase, window: int, seqNo: nat, scored: nat) {
    && window > 0 && seqNo > 0
    && seqNo >= (scored + 1) * window
    && !(phase == ShadowPhase && seqNo > STALL_FACTOR * window)
  }

  function NextScored(window: int, seqNo: nat, scored: nat): nat
    requires window > 0
  {
    Max(scored + 1, seqNo / window)
  }

  lemma QuotientAtLeast(s: nat, w: int, k: nat)
    requires w > 0
    ensures s >= k * w <==> s / w >= k
  {
    var q := s / w;
    assert q * w <= s < q * w + w;
    if q >= k { MulMono(k, q, w); } else { MulMono(q + 1, k, w); }
  }

  lemma MulMono(a: nat, b: nat, w: int)
    requires a <= b && w > 0
    ensures a * w <= b * w
  {
  }

  /** One scoring strictly raises the record and leaves it at the number of windows
      completed so far; in the shadow phase that is never above the stall factor,
      whatever the window size. */
  lemma ScoringAdvances(phase: Phase, window: int, seqNo: nat, scored: nat)
    requires Due(phase, window, seqNo, scored)
    ensures NextScored(window, seqNo, scored) == seqNo / window > scored
    ensures NextScored(window, seqNo, scored) * window <= seqNo
    ensures phase == ShadowPhase ==> NextScored(window, seqNo, scored) <= STALL_FACTOR
  {
    QuotientAtLeast(seqNo, window, scored + 1);
    if phase == ShadowPhase {
      QuotientAtLeast(seqNo, window, STALL_FACTOR + 1);
      assert seqNo < STALL_FACTOR * window + window;
    }
  }

  /* A whole epoch of one worker. */

  /** One comparison as the worker sees it: the number it got (0 when it is not
      countable) and whether the statistics could be computed then. */
  datatype Seen = Seen(seqNo: nat, scorable: bool)

  /** The numbers at which windows were scored, in order. */
  function Scorings(seen: seq<Seen>, phase: Phase, window: int, scored: nat): seq<nat>
    requires window > 0
  {
    if seen == [] then []
    else if Due(phase, window, seen[0].seqNo, scored) && seen[0].scorable then
      [seen[0].seqNo] + Scorings(seen[1..], phase, window, NextScored(window, seen[0].seqNo, scored))
    else Scorings(seen[1..], phase, window, scored)
  }

  /** Each scoring lies in a strictly later window than the one before. */
  ghost predicate Tumbling(t: seq<nat>, window: int, scored: nat) {
    && window > 0
    && (forall i :: 0 <= i < |t| ==> t[i] / window > scored + i)
    && (forall i, j :: 0 <= i < j < |t| ==> t[i] / window < t[j] / window)
  }

  lemma TumblingCons(s: nat, u: seq<nat>, window: int, scored: nat)
    requires window > 0 && Tumbling(u, window, s / window) && s / window > scored
    ensures Tumbling([s] + u, window, scored)
  {
    var t := [s] + u;
    forall i | 0 <= i < |t| ensures t[i] / window > scored + i {
      if i > 0 { assert t[i] == u[i - 1] && u[i - 1] / window > s / window + (i - 1); }
    }
    forall i, j | 0 <= i < j < |t| ensures t[i] / window < t[j] / window {
      assert t[j] == u[j - 1] && u[j - 1] / window > s / window;
      if i > 0 { assert t[i] == u[i - 1]; }
    }
  }

  /** Whatever mix of late, unscorable, skipped and renumbered comparisons the worker
      meets: successive scorings lie in strictly later windows, and in the shadow
      phase there are at most as many as the stall factor. */
  lemma {:induction false} ScoringsTumble(seen: seq<Seen>, phase: Phase, window: int, scored: nat)
    requires window > 0
    ensures Tumbling(Scorings(seen, phase, window, scored), window, scored)
    ensures phase == ShadowPhase && scored <= STALL_FACTOR ==>
              scored + |Scorings(seen, phase, window, scored)| <= STALL_FACTOR
  {
    if seen != [] {
      var s := seen[0].seqNo;
      if Due(phase, window, s, scored) && seen[0].scorable {
        ScoringAdvances(phase, window, s, scored);
        ScoringsTumble(seen[1..], phase, window, s / window);
        TumblingCons(s, Scorings(seen[1..], phase, window, s / window), window, scored);
      } else {
        ScoringsTumble(seen[1..], phase, window, scored);
      }
    }
  }

  /** The comparison numbers a window scored at `s` covers. */
  predicate Covers(s: nat, window: int, k: nat) {
    s - window < k <= s
  }

  /** Two windows scored by one worker share at most `s % window` comparisons, the
      ones past the boundary the earlier scoring was late for; on-time windows are
      disjoint; and no comparison is ever in three scored windows. */
  lemma WindowsBarelyOverlap(seen: seq<Seen>, phase: Phase, window: int, i: nat, j: nat, k: nat)
    requires window > 0
    requires i < j < |Scorings(seen, phase, window, 0)|
    ensures var t := Scorings(seen, phase, window, 0);
            && (Covers(t[i], window, k) && Covers(t[j], window, k) ==> t[i] - t[i] % window < k <= t[i])
            && (t[i] % window == 0 ==> !(Covers(t[i], window, k) && Covers(t[j], window, k)))
            && (forall l :: j < l < |t| ==> !(Covers(t[i], window, k) && Covers(t[l], window, k)))
  {
    var t := Scorings(seen, phase, window, 0);
    ScoringsTumble(seen, phase, window, 0);
    PairOverlap(t[i], t[j], window, k);
    forall l | j < l < |t| ensures !(Covers(t[i], window, k) && Covers(t[l], window, k)) {
      ThirdIsClear(t[i], t[j], t[l], window, k);
    }
  }

  lemma PairOverlap(s: nat, s': nat, window: int, k: nat)
    requires window > 0 && s / window < s' / window
    ensures Covers(s, window, k) && Covers(s', window, k) ==> s - s % window < k <= s
  {
    Later(s, s', window);
  }

  lemma ThirdIsClear(s: nat, s': nat, s'': nat, window: int, k: nat)
    requires window > 0 && s / window < s' / window < s'' / window
    ensures !(Covers(s, window, k) && Covers(s'', window, k))
  {
    Later(s', s'', window);
    Later(s, s', window);
    QuotientAtLeast(s', window, s / window + 1);
    assert s' - s' % window == (s' / window) * window;
    MulMono(s / window + 1, s' / window, window);
    assert (s / window + 1) * window == (s / window) * window + window > s;
  }

  lemma Later(s: nat, s': nat, window: int)
    requires window > 0 && s / window < s' / window
    ensures s' - window >= s - s % window
  {
    QuotientAtLeast(s', window, s / window + 1);
    assert s - s % window == (s / window) * window;
    assert (s / window + 1) * window == (s / window) * window + window;
  }

  /* The offline recomputation. */

  datatype WindowRate = WindowRate(
    window: nat, first: nat, last: nat, agree: nat, disagree: nat, error: nat, rate: real)

  /** Rows of an epoch and phase with a positive number. */
  function Numbered(rows: seq<Row>, epoch: nat, phase: Phase): seq<Row> {
    if rows == [] then []
    else
      var r := rows[|rows| - 1];
      Numbered(rows[..|rows| - 1], epoch, phase) +
      if r.epoch == epoch && r.phase == phase && r.seqNo > 0 then [r] else []
  }

  /** A stable sort by sequence number. */
  function Insert(r: Row, rows: seq<Row>): seq<Row> {
    if rows == [] then [r]
    else if rows[|rows| - 1].seqNo <= r.seqNo then rows + [r]
    else Insert(r, rows[..|rows| - 1]) + [rows[|rows| - 1]]
  }

  function SortedBySeq(rows: seq<Row>): seq<Row> {
    if rows == [] then [] else Insert(rows[|rows| - 1], SortedBySeq(rows[..|rows| - 1]))
  }

  function Chunk(rows: seq<Row>, window: nat, k: nat): seq<Row>
    requires window > 0 && (k + 1) * window <= |rows|
  {
    Nonneg(k, window);
    rows[k * window..(k + 1) * window]
  }

  lemma Nonneg(k: nat, window: nat)
    ensures 0 <= k * window <= (k + 1) * window
  {
  }

  function RateOf(chunk: seq<Row>, k: nat): WindowRate
    requires chunk != []
  {
    WindowRate(k + 1, chunk[0].seqNo, chunk[|chunk| - 1].seqNo, Tally(chunk, Agree), Tally(chunk, Disagree),
               Tally(chunk, Error), Tally(chunk, Agree) as real / |chunk| as real)
  }

  /** `r` is the figure of chunk `k`. */
  ghost predicate IsRate(c: seq<Row>, window: nat, k: nat, r: WindowRate) {
    window > 0 && (k + 1) * window <= |c| && r == RateOf(Chunk(c, window, k), k)
  }

  /** Per-completed-window agreement from the raw rows.  A zero step is an error. */
  method WindowRates(rows: seq<Row>, epoch: nat, phase: Phase, window: int) returns (out: Option<seq<WindowRate>>)
    ensures out == None <==> window == 0
    ensures window < 0 ==> out == Some([])
    ensures window > 0 ==>
              var c := SortedBySeq(Numbered(rows, epoch, phase));
              && |out.value| == |c| / window
              && forall k :: 0 <= k < |out.value| ==> IsRate(c, window, k, out.value[k])
  {
    if window == 0 { return None; }
    if window < 0 { return Some([]); }
    var c := SortedBySeq(Numbered(rows, epoch, phase));
    var rates: seq<WindowRate> := [];
    var start := 0;
    while start < |c| - window + 1
      invariant 0 <= start == |rates| * window <= |c|
      invariant forall k :: 0 <= k < |rates| ==> IsRate(c, window, k, rates[k])
    {
      var chunk := c[start..start + window];
      NextChunk(c, window, |rates|, start);
      rates := rates + [RateOf(chunk, |rates|)];
      start := start + window;
    }
    ChunkCount(|c|, window, |rates|);
    out := Some(rates);
  }

  lemma NextChunk(c: seq<Row>, window: nat, k: nat, start: nat)
    requires window > 0 && start == k * window && start + window <= |c|
    ensures (k + 1) * window == start + window && Chunk(c, window, k) == c[start..start + window]
  {
  }

  lemma ChunkCount(n: nat, window: nat, k: nat)
    requires window > 0 && k * window <= n < k * window + window
    ensures n / window == k
  {
    QuotientAtLeast(n, window, k);
    QuotientAtLeast(n, window, k + 1);
    assert (k + 1) * window == k * window + window;
  }

  /** Every row has one verdict. */
  lemma {:induction false} VerdictsAddUp(rows: seq<Row>)
    requires forall i :: 0 <= i < |rows| ==> Countable(rows[i].verdict)
    ensures Tally(rows, Agree) + Tally(rows, Disagree) + Tally(rows, Error) == |rows|
  {
    if rows != [] { VerdictsAddUp(rows[..|rows| - 1]); }
  }

  /** What the figure of a window says of the sorted comparisons: which ones it covers,
      how many of them carry each verdict, and their rate of agreement over the whole
      window, errors included. */
  lemma RateFigures(c: seq<Row>, window: nat, k: nat, r: WindowRate)
    requires IsRate(c, window, k, r)
    ensures var lo := k * window;
            && lo + window <= |c| && r.window == k + 1
            && r.first == c[lo].seqNo && r.last == c[lo + window - 1].seqNo
            && var chunk := c[lo..lo + window];
            && r.agree == |Carrying(chunk, Agree)| && r.disagree == |Carrying(chunk, Disagree)|
            && r.error == |Carrying(chunk, Error)| && r.rate * window as real == r.agree as real
            && ((forall i :: 0 <= i < |chunk| ==> Countable(chunk[i].verdict)) ==> r.agree + r.disagree + r.error == window)
  {
    hide Tally, RateOf;
    var lo := k * window;
    NextChunk(c, window, k, lo);
    ChunkFigures(c[lo..lo + window], k);
  }

  lemma ChunkFigures(chunk: seq<Row>, k: nat)
    requires chunk != []
    ensures var r := RateOf(chunk, k);
            && r.window == k + 1 && r.first == chunk[0].seqNo && r.last == chunk[|chunk| - 1].seqNo
            && r.agree == |Carrying(chunk, Agree)| && r.disagree == |Carrying(chunk, Disagree)|
            && r.error == |Carrying(chunk, Error)| && r.rate * |chunk| as real == r.agree as real
            && ((forall i :: 0 <= i < |chunk| ==> Countable(chunk[i].verdict)) ==> r.agree + r.disagree + r.error == |chunk|)
  {
    hide Tally;
    TallyCounts(chunk, Agree);
    TallyCounts(chunk, Disagree);
    TallyCounts(chunk, Error);
    if forall i :: 0 <= i < |chunk| ==> Countable(chunk[i].verdict) { VerdictsAddUp(chunk); }
  }

  ghost predicate OnePhase(rows: seq<Row>, epoch: nat, phase: Phase) {
    forall i :: 0 <= i < |rows| && rows[i].epoch == epoch ==> rows[i].phase == phase
  }

  /** The rows the offline figure is computed from are the countable ones. */
  lemma {:induction false} NumberedAreCountable(rows: seq<Row>, epoch: nat, phase: Phase)
    requires WellNumbered(rows) && OnePhase(rows, epoch, phase)
    ensures Numbered(rows, epoch, phase) == CountableRows(rows, epoch)
    decreases |rows|
  {
    if rows != [] {
      var n := |rows| - 1;
      WellNumberedPrefix(rows, n);
      NumberedAreCountable(rows[..n], epoch, phase);
      if CountsAt(rows[n], epoch) {
        var c := CountableRows(rows, epoch);
        assert Consecutive(c);
        assert c[|c| - 1] == rows[n];
      }
    }
  }

  /** Consecutively numbered rows are already sorted. */
  lemma {:induction false} ConsecutiveIsSorted(rows: seq<Row>)
    requires Consecutive(rows)
    ensures SortedBySeq(rows) == rows
    decreases |rows|
  {
    if rows != [] {
      var n := |rows| - 1;
      var rest := rows[..n];
      forall i | 0 <= i < |rest| ensures rest[i].seqNo == rest[0].seqNo + i && rest[i].seqNo > 0 {
        assert rest[i] == rows[i] && rest[0] == rows[0];
      }
      ConsecutiveIsSorted(rest);
    }
  }

  /** While nothing of the epoch has been pruned, the figures recomputed offline are
      the ones the gate saw: at the comparison numbered `(k + 1) * window` the window
      statistics are those of chunk `k`. */
  lemma OfflineMatchesTheGate(rows: seq<Row>, epoch: nat, phase: Phase, window: nat, n: nat, k: nat)
    requires window > 0 && 0 < n <= |rows|
    requires WellNumbered(rows) && OnePhase(rows, epoch, phase)
    requires var c := CountableRows(rows, epoch); c != [] ==> c[0].seqNo == 1
    requires CountsAt(rows[n - 1], epoch) && rows[n - 1].seqNo == (k + 1) * window
    ensures var c := SortedBySeq(Numbered(rows, epoch, phase));
            && (k + 1) * window <= |c|
            && AgreementStats(rows[..n], epoch, phase, window) == Counts(window, Tally(Chunk(c, window, k), Agree))
  {
    var c := CountableRows(rows, epoch);
    NumberedAreCountable(rows, epoch, phase);
    assert Consecutive(c);
    ConsecutiveIsSorted(c);
    PrefixCount(rows, n, epoch);
    OnePhaseMatching(rows[..n], epoch, phase);
    Nonneg(k, window);
    LastChunk(rows[..n], c, epoch, phase, window, k);
  }

  lemma PrefixCount(rows: seq<Row>, n: nat, epoch: nat)
    requires 0 < n <= |rows| && WellNumbered(rows) && CountsAt(rows[n - 1], epoch)
    requires var c := CountableRows(rows, epoch); c != [] ==> c[0].seqNo == 1
    ensures var c, m := CountableRows(rows, epoch), rows[n - 1].seqNo;
            0 < m <= |c| && CountableRows(rows[..n], epoch) == c[..m]
  {
    var c, p := CountableRows(rows, epoch), CountableRows(rows[..n], epoch);
    assert Consecutive(c);
    assert rows == rows[..n] + rows[n..];
    CountableRowsSplit(rows[..n], rows[n..], epoch);
    EndsCountable(rows[..n], epoch);
    NumberedPrefix(c, p);
  }

  lemma EndsCountable(rows: seq<Row>, epoch: nat)
    requires rows != [] && CountsAt(rows[|rows| - 1], epoch)
    ensures var p := CountableRows(rows, epoch); p != [] && p[|p| - 1] == rows[|rows| - 1]
  {
  }

  lemma NumberedPrefix(c: seq<Row>, p: seq<Row>)
    requires Consecutive(c) && p != [] && p <= c && c[0].seqNo == 1
    ensures p[|p| - 1].seqNo == |p| && p == c[..|p|]
  {
    assert c[|p| - 1].seqNo == c[0].seqNo + (|p| - 1);
  }

  lemma LastChunk(prefix: seq<Row>, c: seq<Row>, epoch: nat, phase: Phase, window: nat, k: nat)
    requires window > 0 && (k + 1) * window <= |c| && Matching(prefix, epoch, phase) == c[..(k + 1) * window]
    ensures AgreementStats(prefix, epoch, phase, window) == Counts(window, Tally(Chunk(c, window, k), Agree))
  {
    var m := (k + 1) * window;
    Nonneg(k, window);
    assert m == k * window + window;
    assert Newest(prefix, epoch, phase, window) == c[..m][k * window..] == Chunk(c, window, k);
  }
}
