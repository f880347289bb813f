/** The exact chance that an adapter which agrees at random clears one window, and one
    of several windows, over the reals.
 */
module Binomial {

  function Pow(x: real, n: nat): real {
    if n == 0 then 1.0 else x * Pow(x, n - 1)
  }

  /** `math.comb` where it is defined; below 0 it raises. */
  function Choose(n: nat, k: int): nat {
    if k < 0 || k > n then 0
    else if k == 0 || k == n then 1
    else Choose(n - 1, k - 1) + Choose(n - 1, k)
  }

  function Term(p: real, n: nat, k: int): real {
    if 0 <= k <= n then Choose(n, k) as real * Pow(p, k) * Pow(1.0 - p, n - k) else 0.0
  }

  /** The sum of the terms from `k` on. */
  function Tail(p: real, n: nat, k: int): real
    decreases n + 1 - k
  {
    if k > n then 0.0 else Term(p, n, k) + Tail(p, n, k + 1)
  }

  function Ceil(x: real): int { -((-x).Floor) }

  /** `successes_needed`. */
  function Need(window: nat, threshold: real): int { Ceil(threshold * window as real) }

  /** `p_one_window_clears`. */
  function OneWindowClears(p: real, window: nat, threshold: real): real {
    Tail(p, window, Need(window, threshold))
  }

  /** `p_promotes_within_stall`. */
  function ClearsWithin(q: real, windows: nat): real {
    1.0 - Pow(1.0 - q, windows)
  }

  /** What the whole computation gives: the two figures, or the error for a negative
      number of successes. */
  datatype Residual = Raises | Figures(oneWindowClears: real, promotesWithinStall: real)

  function BinomialResidual(p: real, window: nat, threshold: real, windows: nat): Residual {
    if Need(window, threshold) < 0 then Raises
    else
      var q := OneWindowClears(p, window, threshold);
      Figures(q, ClearsWithin(q, windows))
  }

  /** It raises exactly when the threshold asks for one agreement less than none. */
  lemma RaisesBelowNone(p: real, window: nat, threshold: real, windows: nat)
    ensures BinomialResidual(p, window, threshold, windows).Raises? <==> threshold * window as real <= -1.0
    ensures threshold >= 0.0 ==> BinomialResidual(p, window, threshold, windows).Figures?
  {
    var x := threshold * window as real;
    CeilMeans(x, -1);
    if threshold >= 0.0 { Product(threshold, window as real); }
  }

  /* The reference: every sequence of verdicts, weighed. */

  function Prefixed(b: bool, runs: seq<seq<bool>>): (r: seq<seq<bool>>)
    ensures |r| == |runs| && forall i :: 0 <= i < |r| ==> r[i] == [b] + runs[i]
  {
    seq(|runs|, i requires 0 <= i < |runs| => [b] + runs[i])
  }

  /** All sequences of agreements and disagreements of a length. */
  function AllRuns(n: nat): seq<seq<bool>> {
    if n == 0 then [[]] else Prefixed(true, AllRuns(n - 1)) + Prefixed(false, AllRuns(n - 1))
  }

  function Agreed(run: seq<bool>): nat {
    if run == [] then 0 else (if run[0] then 1 else 0) + Agreed(run[1..])
  }

  function Coin(p: real, b: bool): real { if b then p else 1.0 - p }

  function Weight(p: real, run: seq<bool>): real {
    if run == [] then 1.0 else Coin(p, run[0]) * Weight(p, run[1..])
  }

  function Share(p: real, run: seq<bool>, need: real): real {
    if Agreed(run) as real >= need then Weight(p, run) else 0.0
  }

  /** The total weight of the runs with enough agreements. */
  function Mass(p: real, runs: seq<seq<bool>>, need: real): real {
    if runs == [] then 0.0 else Share(p, runs[0], need) + Mass(p, runs[1..], need)
  }

  lemma {:induction false} AllRunsLength(n: nat, i: nat)
    requires i < |AllRuns(n)|
    ensures |AllRuns(n)[i]| == n
  {
    if n > 0 {
      var m := |AllRuns(n - 1)|;
      AllRunsLength(n - 1, if i < m then i else i - m);
    }
  }

  /** Every run is listed, and none twice. */
  lemma {:induction false} EachRunListed(run: seq<bool>)
    ensures run in AllRuns(|run|)
  {
    if run != [] {
      EachRunListed(run[1..]);
      var rest := AllRuns(|run| - 1);
      PrefixedHas(rest, run);
    }
  }

  lemma PrefixedHas(rest: seq<seq<bool>>, run: seq<bool>)
    requires run != [] && run[1..] in rest
    ensures run in Prefixed(true, rest) + Prefixed(false, rest)
  {
    var k :| 0 <= k < |rest| && rest[k] == run[1..];
    assert Prefixed(run[0], rest)[k] == run;
    assert run in Prefixed(run[0], rest);
  }

  lemma {:induction false} NoRunTwice(n: nat, i: nat, j: nat)
    requires i < j < |AllRuns(n)|
    ensures AllRuns(n)[i] != AllRuns(n)[j]
  {
    if n > 0 {
      var rest := AllRuns(n - 1);
      forall i, j | 0 <= i < j < |rest| ensures rest[i] != rest[j] { NoRunTwice(n - 1, i, j); }
      RunsDiffer(rest, i, j);
    }
  }

  lemma RunsDiffer(rest: seq<seq<bool>>, i: nat, j: nat)
    requires i < j < 2 * |rest|
    requires forall i, j :: 0 <= i < j < |rest| ==> rest[i] != rest[j]
    ensures (Prefixed(true, rest) + Prefixed(false, rest))[i] != (Prefixed(true, rest) + Prefixed(false, rest))[j]
  {
    var m := |rest|;
    var x, y := rest[if i < m then i else i - m], rest[if j < m then j else j - m];
    var all := Prefixed(true, rest) + Prefixed(false, rest);
    assert all[i] == [i < m] + x && all[j] == [j < m] + y;
    if (i < m) == (j < m) {
      assert x != y;
      assert all[i][1..] == x && all[j][1..] == y;
    } else {
      assert all[i][0] != all[j][0];
    }
  }

  lemma {:induction false} MassSplit(p: real, a: seq<seq<bool>>, b: seq<seq<bool>>, need: real)
    ensures Mass(p, a + b, need) == Mass(p, a, need) + Mass(p, b, need)
    decreases |a|
  {
    if a == [] {
      assert a + b == b;
    } else {
      assert (a + b)[1..] == a[1..] + b;
      MassSplit(p, a[1..], b, need);
    }
  }

  function Needed(b: bool, need: real): real { if b then need - 1.0 else need }

  lemma SharePrefixed(p: real, b: bool, run: seq<bool>, need: real)
    ensures Share(p, [b] + run, need) == Coin(p, b) * Share(p, run, Needed(b, need))
  {
    assert ([b] + run)[1..] == run;
    Zero(Coin(p, b));
  }

  lemma Zero(c: real)
    ensures c * 0.0 == 0.0
  {
  }

  lemma {:induction false} MassPrefixed(p: real, b: bool, runs: seq<seq<bool>>, need: real)
    ensures Mass(p, Prefixed(b, runs), need) == Coin(p, b) * Mass(p, runs, Needed(b, need))
  {
    hide Share, Coin, Prefixed, Needed;
    if runs == [] {
      Zero(Coin(p, b));
    } else {
      assert Prefixed(b, runs)[1..] == Prefixed(b, runs[1..]);
      MassPrefixed(p, b, runs[1..], need);
      SharePrefixed(p, b, runs[0], need);
      Distribute(Coin(p, b), Share(p, runs[0], Needed(b, need)), Mass(p, runs[1..], Needed(b, need)));
    }
  }

  lemma Distribute(c: real, x: real, y: real)
    ensures c * (x + y) == c * x + c * y
  {
  }

  function Mix(p: real, a: real, b: real): real { p * a + (1.0 - p) * b }

  lemma MassStep(p: real, n: nat, need: real)
    requires n > 0
    ensures Mass(p, AllRuns(n), need) == Mix(p, Mass(p, AllRuns(n - 1), need - 1.0), Mass(p, AllRuns(n - 1), need))
  {
    hide Mass, Prefixed;
    var rest := AllRuns(n - 1);
    MassSplit(p, Prefixed(true, rest), Prefixed(false, rest), need);
    MassPrefixed(p, true, rest, need);
    MassPrefixed(p, false, rest, need);
  }

  /* The binomial tail obeys the same recurrence. */

  lemma Middle(a: real, b: real, x: real, y: real, p: real, q: real)
    ensures (a + b) * (p * x) * (q * y) == p * (a * x * (q * y)) + q * (b * (p * x) * y)
  {
    calc {
      (a + b) * (p * x) * (q * y);
      a * (p * x) * (q * y) + b * (p * x) * (q * y);
      p * (a * x * (q * y)) + q * (b * (p * x) * y);
    }
  }

  lemma TermStep(p: real, n: nat, k: int)
    requires n > 0
    ensures Term(p, n, k) == Mix(p, Term(p, n - 1, k - 1), Term(p, n - 1, k))
  {
    if 0 < k < n {
      MiddleTerm(p, n, k);
    } else {
      EndTerm(p, n, k);
    }
  }

  lemma MiddleTerm(p: real, n: nat, k: nat)
    requires 0 < k < n
    ensures Term(p, n, k) == Mix(p, Term(p, n - 1, k - 1), Term(p, n - 1, k))
  {
    hide Term, Mix, Prod3;
    var q := 1.0 - p;
    var a, b := Choose(n - 1, k - 1) as real, Choose(n - 1, k) as real;
    var x, y := Pow(p, k - 1), Pow(q, n - k - 1);
    assert Choose(n, k) as real == a + b;
    TermAt(p, n, k, a + b, p * x, q * y);
    TermAt(p, n - 1, k - 1, a, x, q * y);
    TermAt(p, n - 1, k, b, p * x, y);
    MiddleMix(p, q, a, b, x, y, Term(p, n, k), Term(p, n - 1, k - 1), Term(p, n - 1, k));
  }

  lemma MiddleMix(p: real, q: real, a: real, b: real, x: real, y: real, t: real, u: real, v: real)
    requires q == 1.0 - p
    requires t == Prod3(a + b, p * x, q * y) && u == Prod3(a, x, q * y) && v == Prod3(b, p * x, y)
    ensures t == Mix(p, u, v)
  {
    Middle(a, b, x, y, p, q);
  }

  function Prod3(c: real, x: real, y: real): real { c * x * y }

  lemma TermAt(p: real, n: nat, k: nat, c: real, x: real, y: real)
    requires k <= n && c == Choose(n, k) as real && x == Pow(p, k) && y == Pow(1.0 - p, n - k)
    ensures Term(p, n, k) == Prod3(c, x, y)
  {
  }

  lemma EndTerm(p: real, n: nat, k: int)
    requires n > 0 && !(0 < k < n)
    ensures Term(p, n, k) == Mix(p, Term(p, n - 1, k - 1), Term(p, n - 1, k))
  {
    if k == 0 {
      assert Pow(1.0 - p, n) == (1.0 - p) * Pow(1.0 - p, n - 1);
      assert Term(p, n - 1, k) == Pow(1.0 - p, n - 1);
    } else if k == n {
      assert Pow(p, n) == p * Pow(p, n - 1);
      assert Term(p, n - 1, k - 1) == Pow(p, n - 1);
    }
  }

  lemma TailUnfold(p: real, n: nat, k: int)
    ensures Tail(p, n, k) == Term(p, n, k) + Tail(p, n, k + 1)
  {
  }

  lemma MixSum(p: real, a: real, b: real, c: real, d: real)
    ensures Mix(p, a + c, b + d) == Mix(p, a, b) + Mix(p, c, d)
  {
    Distribute(p, a, c);
    Distribute(1.0 - p, b, d);
  }

  lemma {:induction false} TailStep(p: real, n: nat, k: int)
    requires n > 0
    ensures Tail(p, n, k) == Mix(p, Tail(p, n - 1, k - 1), Tail(p, n - 1, k))
    decreases n + 1 - k
  {
    hide Term, Mix;
    if k <= n {
      TailStep(p, n, k + 1);
      TermStep(p, n, k);
      TailUnfold(p, n - 1, k - 1);
      TailUnfold(p, n - 1, k);
      MixSum(p, Term(p, n - 1, k - 1), Term(p, n - 1, k), Tail(p, n - 1, k), Tail(p, n - 1, k + 1));
    } else {
      MixZero(p);
    }
  }

  lemma MixZero(p: real)
    ensures Mix(p, 0.0, 0.0) == 0.0
  {
  }

  lemma CeilMeans(x: real, k: int)
    ensures k >= Ceil(x) <==> k as real >= x
  {
  }

  lemma {:induction false} TailOfNone(p: real, k: int)
    ensures Tail(p, 0, k) == if k <= 0 then 1.0 else 0.0
    decreases 1 - k
  {
    if k < 0 {
      TailOfNone(p, k + 1);
    } else if k == 0 {
      assert Term(p, 0, 0) == 1.0 && Tail(p, 0, 1) == 0.0;
    }
  }

  lemma NoRuns(p: real, need: real)
    ensures Tail(p, 0, Ceil(need)) == Mass(p, AllRuns(0), need)
  {
    TailOfNone(p, Ceil(need));
    CeilMeans(need, 0);
    var none: seq<bool> := [];
    assert AllRuns(0) == [none] && AllRuns(0)[1..] == [];
    assert Weight(p, none) == 1.0 && Agreed(none) == 0;
  }

  /** The binomial sum is the total weight of the runs with enough agreements. */
  lemma {:induction false} TailIsMass(p: real, n: nat, need: real)
    ensures Tail(p, n, Ceil(need)) == Mass(p, AllRuns(n), need)
    decreases n
  {
    hide Tail, Mass, Mix;
    if n == 0 {
      NoRuns(p, need);
    } else {
      TailStep(p, n, Ceil(need));
      MassStep(p, n, need);
      TailIsMass(p, n - 1, need);
      TailIsMass(p, n - 1, need - 1.0);
      assert Ceil(need - 1.0) == Ceil(need) - 1;
    }
  }

  /** The closed form is the chance that a window of random agreements has a rate at or
      above the threshold, summed over every possible window. */
  lemma ResidualIsTheChance(p: real, window: nat, threshold: real)
    ensures OneWindowClears(p, window, threshold) == Mass(p, AllRuns(window), threshold * window as real)
  {
    TailIsMass(p, window, threshold * window as real);
  }

  predicate Chance(x: real) { 0.0 <= x <= 1.0 }

  lemma Mixed(p: real, a: real, b: real)
    requires Chance(p)
    requires Chance(a) && Chance(b)
    ensures Chance(Mix(p, a, b))
  {
    Product(p, a);
    Product(1.0 - p, b);
    Product(p, 1.0 - a);
    Product(1.0 - p, 1.0 - b);
    Complement(p, a);
    Complement(1.0 - p, b);
  }

  lemma Product(x: real, y: real)
    requires x >= 0.0 && y >= 0.0
    ensures x * y >= 0.0
  {
  }

  lemma Complement(x: real, y: real)
    ensures x * (1.0 - y) == x - x * y
  {
  }

  lemma Difference(x: real, y: real, z: real)
    ensures x * (y - z) == x * y - x * z
  {
  }

  lemma {:induction false} TailIsAChance(p: real, n: nat, k: int)
    requires Chance(p)
    ensures Chance(Tail(p, n, k))
    decreases n
  {
    hide Tail, Mix;
    if n == 0 {
      TailOfNone(p, k);
    } else {
      TailStep(p, n, k);
      TailIsAChance(p, n - 1, k - 1);
      TailIsAChance(p, n - 1, k);
      Mixed(p, Tail(p, n - 1, k - 1), Tail(p, n - 1, k));
    }
  }

  lemma MixedUp(p: real, a: real, b: real, a': real, b': real)
    requires Chance(p) && a <= a' && b <= b'
    ensures Mix(p, a, b) <= Mix(p, a', b')
  {
    Product(p, a' - a);
    Product(1.0 - p, b' - b);
    Difference(p, a', a);
    Difference(1.0 - p, b', b);
  }

  lemma MixedMore(p: real, p': real, a: real, b: real)
    requires p <= p' && b <= a
    ensures Mix(p, a, b) <= Mix(p', a, b)
  {
    Product(p' - p, a - b);
    MixShift(p, p', a, b);
  }

  lemma MixShift(p: real, p': real, a: real, b: real)
    ensures Mix(p', a, b) - Mix(p, a, b) == (p' - p) * (a - b)
  {
  }

  lemma {:induction false} TailFalls(p: real, n: nat, k: int, k': int)
    requires Chance(p) && k <= k'
    ensures Tail(p, n, k') <= Tail(p, n, k)
    decreases n
  {
    hide Tail, Mix;
    if n == 0 {
      TailOfNone(p, k);
      TailOfNone(p, k');
    } else {
      TailStep(p, n, k);
      TailStep(p, n, k');
      TailFalls(p, n - 1, k - 1, k' - 1);
      TailFalls(p, n - 1, k, k');
      MixedUp(p, Tail(p, n - 1, k' - 1), Tail(p, n - 1, k'), Tail(p, n - 1, k - 1), Tail(p, n - 1, k));
    }
  }

  lemma {:induction false} TailRises(p: real, p': real, n: nat, k: int)
    requires Chance(p) && Chance(p') && p <= p'
    ensures Tail(p, n, k) <= Tail(p', n, k)
    decreases n
  {
    hide Tail, Mix;
    if n == 0 {
      TailOfNone(p, k);
      TailOfNone(p', k);
    } else {
      TailStep(p, n, k);
      TailStep(p', n, k);
      TailRises(p, p', n - 1, k - 1);
      TailRises(p, p', n - 1, k);
      TailFalls(p', n - 1, k - 1, k);
      var a, b, a', b' := Tail(p, n - 1, k - 1), Tail(p, n - 1, k), Tail(p', n - 1, k - 1), Tail(p', n - 1, k);
      MixedUp(p, a, b, a', b');
      MixedMore(p, p', a', b');
    }
  }

  lemma NeedMonotone(window: nat, x: real, y: real)
    requires x <= y
    ensures Need(window, x) <= Need(window, y)
  {
    Product(y - x, window as real);
    Difference(window as real, y, x);
  }

  /** It is a probability; it never falls when the adapter agrees more often, and never
      rises when the threshold does. */
  lemma ResidualIsMonotone(p: real, p': real, window: nat, threshold: real, threshold': real)
    requires Chance(p) && Chance(p') && p <= p' && threshold' <= threshold
    ensures Chance(OneWindowClears(p, window, threshold))
    ensures OneWindowClears(p, window, threshold) <= OneWindowClears(p', window, threshold')
  {
    hide Tail, Need;
    NeedMonotone(window, threshold', threshold);
    TailIsAChance(p, window, Need(window, threshold));
    TailRises(p, p', window, Need(window, threshold));
    TailFalls(p', window, Need(window, threshold'), Need(window, threshold));
  }

  lemma {:induction false} PowChance(x: real, n: nat)
    requires Chance(x)
    ensures Chance(Pow(x, n))
    ensures n > 0 ==> Pow(x, n) <= x
  {
    if n > 0 {
      PowChance(x, n - 1);
      Product(x, Pow(x, n - 1));
      Product(x, 1.0 - Pow(x, n - 1));
      Complement(x, Pow(x, n - 1));
    }
  }

  lemma {:induction false} Bernoulli(q: real, n: nat)
    requires Chance(q)
    ensures Pow(1.0 - q, n) >= 1.0 - n as real * q
  {
    if n > 0 {
      Bernoulli(q, n - 1);
      BernoulliStep(q, Pow(1.0 - q, n - 1), (n - 1) as real);
    }
  }

  lemma BernoulliStep(q: real, x: real, m: real)
    requires Chance(q) && m >= 0.0 && x >= 1.0 - m * q
    ensures (1.0 - q) * x >= 1.0 - (m + 1.0) * q
  {
    Product(1.0 - q, x - (1.0 - m * q));
    Difference(1.0 - q, x, 1.0 - m * q);
    Product(q, q);
    Product(m, q * q);
    BernoulliProduct(q, m);
  }

  lemma BernoulliProduct(q: real, m: real)
    ensures (1.0 - q) * (1.0 - m * q) == 1.0 - (m + 1.0) * q + m * (q * q)
  {
  }

  /** Over several windows the chance lies between that of one and their sum. */
  lemma WithinStallBounds(q: real, windows: nat)
    requires Chance(q)
    ensures Chance(ClearsWithin(q, windows))
    ensures windows > 0 ==> q <= ClearsWithin(q, windows)
    ensures ClearsWithin(q, windows) <= windows as real * q
  {
    PowChance(1.0 - q, windows);
    Bernoulli(q, windows);
  }

  /** The chance that none of several independent windows clears, over every sequence
      of windows that do or do not. */
  lemma {:induction false} WithinStallIsTheChance(q: real, windows: nat)
    ensures ClearsWithin(q, windows) == Mass(q, AllRuns(windows), 1.0)
    decreases windows
  {
    hide Mass, Mix;
    if windows == 0 {
      NoRuns(q, 1.0);
      TailOfNone(q, 1);
    } else {
      MassStep(q, windows, 1.0);
      WithinStallIsTheChance(q, windows - 1);
      WholeMass(q, windows - 1);
      NoneClears(q, Pow(1.0 - q, windows - 1));
    }
  }

  lemma NoneClears(q: real, x: real)
    ensures Mix(q, 1.0, 1.0 - x) == 1.0 - (1.0 - q) * x
  {
  }

  lemma {:induction false} WholeMass(p: real, n: nat)
    ensures Mass(p, AllRuns(n), 0.0) == 1.0
    decreases n
  {
    hide Mass;
    if n == 0 {
      NoRuns(p, 0.0);
      TailOfNone(p, 0);
    } else {
      MassStep(p, n, 0.0);
      WholeMass(p, n - 1);
      NegativeNeed(p, AllRuns(n - 1), -1.0);
    }
  }

  lemma {:induction false} NegativeNeed(p: real, runs: seq<seq<bool>>, need: real)
    requires need <= 0.0
    ensures Mass(p, runs, need) == Mass(p, runs, 0.0)
  {
    if runs != [] { NegativeNeed(p, runs[1..], need); }
  }
}
