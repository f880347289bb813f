/** The fiscal-week labels of the finetune measurement, over the Gregorian calendar, and
    the evaluation set drawn from four years of dates.  A date is its proleptic
    ordinal: 1 is the first of January of year 1.
 */
module FiscalCalendar {

  predicate IsLeap(y: int) { y % 4 == 0 && (y % 100 != 0 || y % 400 == 0) }

  /** The ordinal of the first of January. */
  function NewYear(y: int): int {
    365 * (y - 1) + (y - 1) / 4 - (y - 1) / 100 + (y - 1) / 400 + 1
  }

  function DaysBeforeMonth(y: int, m: int): int
    requires 1 <= m <= 12
  {
    [0, 31, 59, 90, 120, 151, 181, 212, 243, 273, 304, 334][m - 1] + if m > 2 && IsLeap(y) then 1 else 0
  }

  function Ordinal(y: int, m: int, d: int): int
    requires 1 <= m <= 12
  {
    NewYear(y) + DaysBeforeMonth(y, m) + d - 1
  }

  /** Monday is 0. */
  function Weekday(n: int): int { (n + 6) % 7 }

  lemma YearLength(y: int)
    ensures NewYear(y + 1) - NewYear(y) == if IsLeap(y) then 366 else 365
  {
    assert y / 4 - (y - 1) / 4 == if y % 4 == 0 then 1 else 0;
    assert y / 100 - (y - 1) / 100 == if y % 100 == 0 then 1 else 0;
    assert y / 400 - (y - 1) / 400 == if y % 400 == 0 then 1 else 0;
  }

  lemma {:induction false} YearsApart(y: int, z: int)
    requires y <= z
    ensures NewYear(z) - NewYear(y) >= 365 * (z - y)
    decreases z - y
  {
    if y < z {
      YearsApart(y, z - 1);
      YearLength(z - 1);
    }
  }

  function YearFrom(n: int, y: int): (r: int)
    requires NewYear(y) <= n
    ensures NewYear(r) <= n < NewYear(r + 1) && r >= y
    decreases n - NewYear(y)
  {
    YearLength(y);
    if n < NewYear(y + 1) then y else YearFrom(n, y + 1)
  }

  /** The calendar year of a date. */
  function YearOf(n: nat): (y: int)
    requires n >= 1
    ensures NewYear(y) <= n < NewYear(y + 1)
  {
    YearFrom(n, 1)
  }

  /** The first Monday on or after the first of February. */
  function FirstMonday(y: int): int {
    var d := Ordinal(y, 2, 1);
    d + (0 - Weekday(d)) % 7
  }

  lemma NextMonday(d: int)
    ensures var r := d + (0 - Weekday(d)) % 7;
            && d <= r <= d + 6 && Weekday(r) == 0
            && forall n :: d <= n < r ==> Weekday(n) != 0
  {
    var k := (d + 6) % 7;
    var q := (d + 6) / 7;
    assert d + 6 == 7 * q + k;
    assert (0 - k) % 7 == if k == 0 then 0 else 7 - k;
    forall n | d <= n < d + (0 - k) % 7 ensures Weekday(n) != 0 {
      assert n + 6 == 7 * q + (k + n - d);
    }
  }

  lemma FirstMondayIsOne(y: int)
    ensures Weekday(FirstMonday(y)) == 0
    ensures NewYear(y) + 31 <= FirstMonday(y) <= NewYear(y) + 37
    ensures forall n :: Ordinal(y, 2, 1) <= n < FirstMonday(y) ==> Weekday(n) != 0
  {
    hide NewYear, Weekday;
    NextMonday(Ordinal(y, 2, 1));
  }

  function FiscalYearOf(n: nat): int
    requires n >= 1
  {
    if n >= FirstMonday(YearOf(n)) then YearOf(n) else YearOf(n) - 1
  }

  function FiscalYearWeeks(fy: int): int {
    (FirstMonday(fy + 1) - FirstMonday(fy)) / 7
  }

  datatype Label = Label(fy: int, week: int)

  function FiscalLabel(n: nat): Label
    requires n >= 1
  {
    var fy := FiscalYearOf(n);
    Label(fy, (n - FirstMonday(fy)) / 7 + 1)
  }

  /** A fiscal year is a whole number of weeks, 52 or 53. */
  lemma WholeWeeks(fy: int)
    ensures FirstMonday(fy + 1) - FirstMonday(fy) == 7 * FiscalYearWeeks(fy)
    ensures FiscalYearWeeks(fy) == 52 || FiscalYearWeeks(fy) == 53
  {
    hide FirstMonday, NewYear;
    FirstMondayIsOne(fy);
    FirstMondayIsOne(fy + 1);
    YearLength(fy);
    SameWeekday(FirstMonday(fy), FirstMonday(fy + 1));
  }

  lemma SameWeekday(a: int, b: int)
    requires Weekday(a) == Weekday(b)
    ensures (b - a) % 7 == 0
  {
  }

  lemma InItsFiscalYear(n: nat)
    requires n >= 1
    ensures FirstMonday(FiscalYearOf(n)) <= n < FirstMonday(FiscalYearOf(n) + 1)
  {
    var y := YearOf(n);
    hide FirstMonday, NewYear;
    FirstMondayIsOne(y - 1);
    FirstMondayIsOne(y);
    FirstMondayIsOne(y + 1);
    YearLength(y - 1);
  }

  /** Every date lies in exactly one fiscal year. */
  lemma InFiscalYear(n: nat, fy: int)
    requires n >= 1
    ensures fy == FiscalYearOf(n) <==> FirstMonday(fy) <= n < FirstMonday(fy + 1)
  {
    hide FirstMonday, FiscalYearOf;
    InItsFiscalYear(n);
    StartsRise(FiscalYearOf(n), fy);
    StartsRise(fy, FiscalYearOf(n));
  }

  lemma {:induction false} StartsRise(a: int, b: int)
    ensures a < b ==> FirstMonday(a + 1) <= FirstMonday(b)
    decreases b - a
  {
    if a + 1 < b {
      StartsRise(a, b - 1);
      WholeWeeks(b - 1);
    }
  }

  /** A label is held by exactly seven days, a Monday to a Sunday, and its week number
      is between 1 and the number of weeks of its year. */
  lemma LabelMeansSevenDays(n: nat, fy: int, week: int)
    requires n >= 1
    ensures FiscalLabel(n) == Label(fy, week)
            <==> 1 <= week <= FiscalYearWeeks(fy)
                 && FirstMonday(fy) + 7 * (week - 1) <= n < FirstMonday(fy) + 7 * week
  {
    InFiscalYear(n, fy);
    WholeWeeks(fy);
    var f := FirstMonday(fy);
    assert (n - f) / 7 + 1 == week <==> 7 * (week - 1) <= n - f < 7 * week;
  }

  lemma WeeksOn(n: int, k: int)
    ensures Weekday(n + 7 * k) == Weekday(n)
  {
    var q, r := (n + 6) / 7, (n + 6) % 7;
    assert n + 7 * k + 6 == 7 * (q + k) + r;
  }

  lemma WeekStartsOnMonday(fy: int, week: int)
    ensures Weekday(FirstMonday(fy) + 7 * (week - 1)) == 0
  {
    hide FirstMonday;
    FirstMondayIsOne(fy);
    WeeksOn(FirstMonday(fy), week - 1);
  }

  predicate LabelAtMost(a: Label, b: Label) {
    a.fy < b.fy || (a.fy == b.fy && a.week <= b.week)
  }

  /** Labels never go back. */
  lemma LabelsNeverDecrease(n: nat, m: nat)
    requires 1 <= n <= m
    ensures LabelAtMost(FiscalLabel(n), FiscalLabel(m))
  {
    var a, b := FiscalYearOf(n), FiscalYearOf(m);
    InFiscalYear(n, a);
    InFiscalYear(m, b);
    StartsRise(b, a);
    if a == b { assert (n - FirstMonday(a)) / 7 <= (m - FirstMonday(a)) / 7; }
  }

  function NextLabel(l: Label): Label {
    if l.week < FiscalYearWeeks(l.fy) then Label(l.fy, l.week + 1) else Label(l.fy + 1, 1)
  }

  /** A week later is the next label, across year ends as well. */
  lemma WeekLaterIsNextLabel(n: nat)
    requires n >= 1
    ensures FiscalLabel(n + 7) == NextLabel(FiscalLabel(n))
  {
    var l := FiscalLabel(n);
    hide FirstMonday, FiscalLabel, FiscalYearWeeks;
    LabelMeansSevenDays(n, l.fy, l.week);
    if l.week < FiscalYearWeeks(l.fy) {
      LabelMeansSevenDays(n + 7, l.fy, l.week + 1);
    } else {
      LastWeekLater(n, l.fy);
    }
  }

  lemma LastWeekLater(n: nat, fy: int)
    requires n >= 1 && FiscalLabel(n) == Label(fy, FiscalYearWeeks(fy))
    ensures FiscalLabel(n + 7) == Label(fy + 1, 1)
  {
    hide FirstMonday, FiscalLabel, FiscalYearWeeks;
    LabelMeansSevenDays(n, fy, FiscalYearWeeks(fy));
    WholeWeeks(fy);
    WholeWeeks(fy + 1);
    LabelMeansSevenDays(n + 7, fy + 1, 1);
  }

  /* Boundaries. */

  const BOUNDARY_WINDOW := 10

  predicate Near(n: int, y: int) {
    -BOUNDARY_WINDOW <= n - FirstMonday(y) <= BOUNDARY_WINDOW
  }

  predicate IsBoundary(n: nat)
    requires n >= 1
  {
    Near(n, YearOf(n) - 1) || Near(n, YearOf(n)) || Near(n, YearOf(n) + 1)
  }

  /** Looking at three years is looking at all of them: a date is near the start of
      some fiscal year exactly when it is near that of its own calendar year. */
  lemma ThreeYearsAreEnough(n: nat, y: int)
    requires n >= 1
    ensures Near(n, y) ==> y == YearOf(n)
    ensures Near(n, y) ==> IsBoundary(n)
    ensures IsBoundary(n) <==> Near(n, YearOf(n))
  {
    hide Near;
    if Near(n, y) { OwnYearOnly(n, y); }
    if Near(n, YearOf(n) - 1) { OwnYearOnly(n, YearOf(n) - 1); }
    if Near(n, YearOf(n) + 1) { OwnYearOnly(n, YearOf(n) + 1); }
  }

  lemma OwnYearOnly(n: nat, y: int)
    requires n >= 1 && Near(n, y)
    ensures y == YearOf(n)
  {
    hide FirstMonday, NewYear;
    FirstMondayIsOne(y);
    var z := YearOf(n);
    if y < z {
      YearsApart(y + 1, z);
      YearLength(y);
    } else if z < y {
      YearsApart(z + 1, y);
    }
  }

  /* The evaluation set. */

  type Day = n: nat | n >= 1 witness 1

  const N_EVAL := 300

  /** 1 January 2024 and 31 December 2027. */
  const RANGE_START: Day := 738886
  const RANGE_END: Day := 740346

  /** The dates kept for the folding pool. */
  predicate Reserved(n: int) {
    || n == Ordinal(2024, 2, 5) || n == Ordinal(2024, 2, 4) || n == Ordinal(2026, 2, 2) || n == Ordinal(2025, 3, 15)
    || n == Ordinal(2025, 11, 20) || n == Ordinal(2024, 12, 1) || n == Ordinal(2027, 1, 9) || n == Ordinal(2026, 6, 23)
  }

  lemma RangeIsFourYears()
    ensures RANGE_START == Ordinal(2024, 1, 1) && RANGE_END == Ordinal(2027, 12, 31)
    ensures Weekday(RANGE_START) == 0
  {
  }

  /** The unreserved days of an interval, in order. */
  function Pool(lo: Day, hi: int): seq<Day>
    decreases hi - lo
  {
    if hi < lo then [] else Pool(lo, hi - 1) + if Reserved(hi) then [] else [hi]
  }

  function Only(ds: seq<Day>, boundary: bool): seq<Day> {
    if ds == [] then []
    else Only(ds[..|ds| - 1], boundary) + if IsBoundary(ds[|ds| - 1]) == boundary then [ds[|ds| - 1]] else []
  }

  predicate Increasing(ds: seq<Day>) {
    forall i, j :: 0 <= i < j < |ds| ==> ds[i] < ds[j]
  }

  ghost predicate Unreserved(ds: seq<Day>, lo: Day, hi: int) {
    forall n: Day :: n in ds <==> lo <= n <= hi && !Reserved(n)
  }

  ghost predicate Selects(ds: seq<Day>, kept: seq<Day>, boundary: bool) {
    forall n: Day :: n in kept <==> n in ds && IsBoundary(n) == boundary
  }

  lemma {:induction false} PoolHolds(lo: Day, hi: int)
    ensures Increasing(Pool(lo, hi))
    ensures Unreserved(Pool(lo, hi), lo, hi)
    decreases hi - lo
  {
    hide Reserved;
    if lo <= hi {
      PoolHolds(lo, hi - 1);
      IncreasingSnoc(Pool(lo, hi - 1), hi);
      forall n: Day ensures n in Pool(lo, hi) <==> n in Pool(lo, hi - 1) || (n == hi && !Reserved(hi)) {}
    }
  }

  lemma IncreasingSnoc(ds: seq<Day>, n: Day)
    requires Increasing(ds) && forall d: Day :: d in ds ==> d < n
    ensures Increasing(ds + [n])
  {
    forall i | 0 <= i < |ds| ensures ds[i] < n { assert ds[i] in ds; }
  }

  lemma OnlySnoc(ds: seq<Day>, boundary: bool)
    requires ds != [] && Increasing(ds)
    requires var rest := ds[..|ds| - 1]; Increasing(Only(rest, boundary)) && Selects(rest, Only(rest, boundary), boundary)
    ensures Increasing(Only(ds, boundary)) && Selects(ds, Only(ds, boundary), boundary)
  {
    hide IsBoundary;
    var rest, last := ds[..|ds| - 1], ds[|ds| - 1];
    forall n: Day ensures n in ds <==> n in rest || n == last {}
    forall n: Day | n in rest ensures n < last { BelowLast(ds, n); }
    IncreasingSnoc(Only(rest, boundary), last);
  }

  lemma BelowLast(ds: seq<Day>, n: Day)
    requires ds != [] && Increasing(ds) && n in ds[..|ds| - 1]
    ensures n < ds[|ds| - 1]
  {
    var i :| 0 <= i < |ds| - 1 && ds[i] == n;
  }

  lemma {:induction false} OnlyHolds(ds: seq<Day>, boundary: bool)
    requires Increasing(ds)
    ensures Increasing(Only(ds, boundary))
    ensures Selects(ds, Only(ds, boundary), boundary)
  {
    hide IsBoundary;
    if ds != [] {
      OnlyHolds(ds[..|ds| - 1], boundary);
      OnlySnoc(ds, boundary);
    }
  }

  /* How many there are. */

  const F24 := 738921
  const F25 := 739285
  const F26 := 739649
  const F27 := 740013

  lemma {:induction false} NewYearsRise(y: int, z: int)
    ensures y < z ==> NewYear(y + 1) <= NewYear(z)
  {
    if y < z { YearsApart(y + 1, z); }
  }

  lemma YearIs(n: Day, y: int)
    requires NewYear(y) <= n < NewYear(y + 1)
    ensures YearOf(n) == y
  {
    hide NewYear;
    NewYearsRise(y, YearOf(n));
    NewYearsRise(YearOf(n), y);
  }

  lemma YearStarts()
    ensures NewYear(2024) == 738886 && NewYear(2025) == 739252 && NewYear(2026) == 739617
    ensures NewYear(2027) == 739982 && NewYear(2028) == 740347
  {
  }

  lemma Starts()
    ensures FirstMonday(2024) == F24 && FirstMonday(2025) == F25 && FirstMonday(2026) == F26 && FirstMonday(2027) == F27
  {
    hide NewYear;
    YearStarts();
  }

  predicate Around(n: int, f: int) { f - 10 <= n <= f + 10 }

  predicate InWindows(n: int) {
    Around(n, F24) || Around(n, F25) || Around(n, F26) || Around(n, F27)
  }

  lemma BoundaryInRange(n: Day)
    requires RANGE_START <= n <= RANGE_END
    ensures IsBoundary(n) <==> InWindows(n)
  {
    Starts();
    YearStarts();
    var y := if n < 739252 then 2024 else if n < 739617 then 2025 else if n < 739982 then 2026 else 2027;
    hide NewYear, FirstMonday, YearOf, IsBoundary;
    YearIs(n, y);
    ThreeYearsAreEnough(n, y);
  }

  predicate IsReserved(n: int) {
    || n == 738920 || n == 738921 || n == 739221 || n == 739325
    || n == 739575 || n == 739649 || n == 739790 || n == 739990
  }

  lemma ReservedAre(n: int)
    ensures Reserved(n) <==> IsReserved(n)
  {
  }

  lemma {:induction false} PoolSplit(lo: Day, mid: int, hi: int)
    requires lo <= mid + 1 && mid <= hi
    ensures Pool(lo, hi) == Pool(lo, mid) + Pool(mid + 1, hi)
    decreases hi - mid
  {
    hide Reserved;
    if mid < hi { PoolSplit(lo, mid, hi - 1); }
  }

  lemma {:induction false} OnlySplit(a: seq<Day>, b: seq<Day>, boundary: bool)
    ensures Only(a + b, boundary) == Only(a, boundary) + Only(b, boundary)
    decreases |b|
  {
    hide IsBoundary;
    if b == [] {
      assert a + b == a;
    } else {
      assert (a + b)[..|a + b| - 1] == a + b[..|b| - 1];
      OnlySplit(a, b[..|b| - 1], boundary);
    }
  }

  lemma {:induction false} BothKinds(ds: seq<Day>)
    ensures |Only(ds, true)| + |Only(ds, false)| == |ds|
  {
    hide IsBoundary;
    if ds != [] { BothKinds(ds[..|ds| - 1]); }
  }

  function Boundaries(lo: Day, hi: int): nat { |Only(Pool(lo, hi), true)| }

  lemma BoundariesSplit(lo: Day, mid: int, hi: int)
    requires lo <= mid + 1 && mid <= hi
    ensures Boundaries(lo, hi) == Boundaries(lo, mid) + Boundaries(mid + 1, hi)
  {
    hide Only, Pool;
    PoolSplit(lo, mid, hi);
    OnlySplit(Pool(lo, mid), Pool(mid + 1, hi), true);
  }

  lemma OnlyOne(d: Day)
    ensures Only([d], true) == if IsBoundary(d) then [d] else []
    ensures Only([], true) == []
  {
    hide IsBoundary;
    assert [d][..0] == [];
  }

  /** A stretch of days that are all boundary days, or none of them. */
  lemma {:induction false} Stretch(lo: Day, hi: int, all: bool)
    requires RANGE_START <= lo && hi <= RANGE_END && lo <= hi + 1
    requires forall n :: lo <= n <= hi ==> if all then InWindows(n) && !IsReserved(n) else !InWindows(n) || IsReserved(n)
    ensures Boundaries(lo, hi) == if all then hi - lo + 1 else 0
    decreases hi - lo
  {
    hide Reserved, IsBoundary;
    if lo <= hi {
      Stretch(lo, hi - 1, all);
      BoundaryInRange(hi);
      ReservedAre(hi);
      var tail: seq<Day> := if Reserved(hi) then [] else [hi];
      OnlySplit(Pool(lo, hi - 1), tail, true);
      OnlyOne(hi);
    }
  }

  lemma StretchThen(lo: Day, mid: int, all: bool, rest: nat)
    requires RANGE_START <= lo && mid <= RANGE_END && lo <= mid + 1
    requires forall n :: lo <= n <= mid ==> if all then InWindows(n) && !IsReserved(n) else !InWindows(n) || IsReserved(n)
    requires Boundaries(mid + 1, RANGE_END) == rest
    ensures Boundaries(lo, RANGE_END) == rest + if all then mid - lo + 1 else 0
  {
    hide Boundaries;
    Stretch(lo, mid, all);
    BoundariesSplit(lo, mid, RANGE_END);
  }

  lemma LastTwoYears()
    ensures Boundaries(F25 + 11, RANGE_END) == 41
  {
    hide Boundaries;
    Stretch(F27 + 11, RANGE_END, false);
    StretchThen(F27 - 10, F27 + 10, true, 0);
    StretchThen(F26 + 11, F27 - 11, false, 21);
    StretchThen(F26 + 1, F26 + 10, true, 21);
    StretchThen(F26, F26, false, 31);
    StretchThen(F26 - 10, F26 - 1, true, 31);
    StretchThen(F25 + 11, F26 - 11, false, 41);
  }

  /** Four windows of 21 days, less the three reserved ones. */
  lemma EightyOneBoundaryDays()
    ensures Boundaries(RANGE_START, RANGE_END) == 81
  {
    hide Boundaries;
    LastTwoYears();
    StretchThen(F25 - 10, F25 + 10, true, 41);
    StretchThen(F24 + 11, F25 - 11, false, 62);
    StretchThen(F24 + 1, F24 + 10, true, 62);
    StretchThen(F24 - 1, F24, false, 72);
    StretchThen(F24 - 10, F24 - 2, true, 72);
    StretchThen(RANGE_START, F24 - 11, false, 81);
  }

  lemma {:induction false} FreeStretch(lo: Day, hi: int)
    requires lo <= hi + 1 && forall n :: lo <= n <= hi ==> !IsReserved(n)
    ensures |Pool(lo, hi)| == hi - lo + 1
    decreases hi - lo
  {
    hide Reserved;
    if lo <= hi {
      FreeStretch(lo, hi - 1);
      ReservedAre(hi);
    }
  }

  /** Up to and including the next reserved day. */
  lemma SkipReserved(lo: Day, r: Day, rest: nat)
    requires lo <= r <= RANGE_END && IsReserved(r) && forall n :: lo <= n < r ==> !IsReserved(n)
    requires |Pool(r + 1, RANGE_END)| == rest
    ensures |Pool(lo, RANGE_END)| == r - lo + rest
  {
    hide Reserved;
    FreeStretch(lo, r - 1);
    ReservedAre(r);
    PoolSplit(lo, r, RANGE_END);
  }

  lemma PoolSize()
    ensures |Pool(RANGE_START, RANGE_END)| == 1453
  {
    hide Pool;
    FreeStretch(739991, RANGE_END);
    SkipReserved(739791, 739990, 356);
    SkipReserved(739650, 739790, 555);
    SkipReserved(739576, 739649, 695);
    SkipReserved(739326, 739575, 768);
    SkipReserved(739222, 739325, 1017);
    SkipReserved(738922, 739221, 1120);
    SkipReserved(738921, 738921, 1419);
    SkipReserved(RANGE_START, 738920, 1419);
  }

  /** 81 boundary days go in, and the other 219 are drawn from 1372, so the draw that
      the construction asks for is always possible. */
  lemma FixtureCounts()
    ensures |Only(Pool(RANGE_START, RANGE_END), true)| == 81
    ensures |Only(Pool(RANGE_START, RANGE_END), false)| == 1372
  {
    hide Pool, Only;
    EightyOneBoundaryDays();
    PoolSize();
    BothKinds(Pool(RANGE_START, RANGE_END));
  }

  /** Positions drawn without replacement. */
  predicate ValidDraw(picks: seq<nat>, population: nat, k: int) {
    && |picks| == k
    && (forall i :: 0 <= i < |picks| ==> picks[i] < population)
    && (forall i, j :: 0 <= i < j < |picks| ==> picks[i] != picks[j])
  }

  function Drawn(ds: seq<Day>, picks: seq<nat>): (r: seq<Day>)
    requires forall i :: 0 <= i < |picks| ==> picks[i] < |ds|
    ensures |r| == |picks| && forall i :: 0 <= i < |r| ==> r[i] == ds[picks[i]]
  {
    seq(|picks|, i requires 0 <= i < |picks| => ds[picks[i]])
  }

  /** Every day from the start of the range to its end that is not reserved. */
  method AllDates() returns (all: seq<Day>)
    ensures all == Pool(RANGE_START, RANGE_END)
    ensures Increasing(all) && Unreserved(all, RANGE_START, RANGE_END)
  {
    hide Reserved, Increasing, Unreserved;
    all := [];
    var d: Day := RANGE_START;
    while d <= RANGE_END
      invariant RANGE_START <= d <= RANGE_END + 1 && all == Pool(RANGE_START, d - 1)
    {
      if !Reserved(d) { all := all + [d]; }
      d := d + 1;
    }
    PoolHolds(RANGE_START, RANGE_END);
  }

  /** One draw per position, of a position no later. */
  predicate Draws(draws: seq<nat>, n: nat) {
    |draws| == n && forall i :: 0 <= i < |draws| ==> draws[i] <= i
  }

  function Swapped(ds: seq<Day>, i: nat, j: nat): (r: seq<Day>)
    requires i < |ds| && j < |ds|
    ensures |r| == |ds|
  {
    ds[i := ds[j]][j := ds[i]]
  }

  /** The first `n` positions shuffled, from the last of them down. */
  function Shuffled(ds: seq<Day>, draws: seq<nat>, n: nat): (r: seq<Day>)
    requires Draws(draws, |draws|) && n <= |draws| <= |ds|
    ensures |r| == |ds|
    decreases n
  {
    if n == 0 then ds else Shuffled(Swapped(ds, n - 1, draws[n - 1]), draws, n - 1)
  }

  /** `random.shuffle`: swap each position, from the last down, with one at or before
      it, whatever the draws. */
  method Shuffle(ds: seq<Day>, draws: seq<nat>) returns (r: seq<Day>)
    requires Draws(draws, |ds|)
    ensures r == Shuffled(ds, draws, |ds|) && multiset(r) == multiset(ds)
  {
    r := ds;
    var i := |ds|;
    while i > 0
      invariant 0 <= i <= |ds| == |r| && multiset(r) == multiset(ds)
      invariant Shuffled(r, draws, i) == Shuffled(ds, draws, |ds|)
    {
      i := i - 1;
      r := r[i := r[draws[i]]][draws[i] := r[i]];
    }
  }

  lemma SwappedPrefix(ds: seq<Day>, n: nat, j: nat)
    requires j < n <= |ds|
    ensures var t := Swapped(ds, n - 1, j);
            t[..n] == t[..n - 1] + [ds[j]] && multiset(t[..n]) == multiset(ds[..n]) && t[n..] == ds[n..]
  {
    var t := Swapped(ds, n - 1, j);
    assert t[..n] == Swapped(ds[..n], n - 1, j);
  }

  /** The draws past `n` do not matter for the first `n` positions. */
  lemma {:induction false} EarlierDraws(ds: seq<Day>, a: seq<nat>, b: seq<nat>, n: nat)
    requires Draws(a, |a|) && Draws(b, |b|) && n <= |a| <= |ds| && n <= |b| <= |ds| && a[..n] == b[..n]
    ensures Shuffled(ds, a, n) == Shuffled(ds, b, n)
    decreases n
  {
    if n > 0 {
      assert a[n - 1] == a[..n][n - 1] && b[n - 1] == b[..n][n - 1];
      assert a[..n - 1] == a[..n][..n - 1] && b[..n - 1] == b[..n][..n - 1];
      EarlierDraws(Swapped(ds, n - 1, a[n - 1]), a, b, n - 1);
    }
  }

  lemma {:induction false} OrderOfPrefix(ds: seq<Day>, target: seq<Day>, n: nat) returns (draws: seq<nat>)
    requires n <= |ds| == |target| && multiset(target[..n]) == multiset(ds[..n]) && target[n..] == ds[n..]
    ensures Draws(draws, n) && Shuffled(ds, draws, n) == target
    decreases n
  {
    if n == 0 {
      draws := [];
      assert target[0..] == target && ds[0..] == ds;
    } else {
      var j := Source(ds, target, n);
      var t := Swapped(ds, n - 1, j);
      var earlier := OrderOfPrefix(t, target, n - 1);
      draws := earlier + [j];
      EarlierDraws(t, draws, earlier, n - 1);
    }
  }

  /** Where the day that belongs at position `n - 1` is now. */
  lemma Source(ds: seq<Day>, target: seq<Day>, n: nat) returns (j: nat)
    requires 0 < n <= |ds| == |target| && multiset(target[..n]) == multiset(ds[..n]) && target[n..] == ds[n..]
    ensures j < n
    ensures var t := Swapped(ds, n - 1, j);
            multiset(target[..n - 1]) == multiset(t[..n - 1]) && target[n - 1..] == t[n - 1..]
  {
    Peel(target, n);
    assert target[n - 1] in multiset(ds[..n]);
    j :| 0 <= j < n && ds[..n][j] == target[n - 1];
    SwappedPrefix(ds, n, j);
    var t := Swapped(ds, n - 1, j);
    assert t[n - 1] == t[..n][n - 1] == ds[j];
    Peel(t, n);
  }

  lemma Peel(ds: seq<Day>, n: nat)
    requires 0 < n <= |ds|
    ensures multiset(ds[..n - 1]) == multiset(ds[..n]) - multiset{ds[n - 1]}
    ensures ds[n - 1] in multiset(ds[..n]) && ds[n - 1..] == [ds[n - 1]] + ds[n..]
  {
    assert ds[..n] == ds[..n - 1] + [ds[n - 1]];
  }

  /** Every order can come out: for any arrangement of the days some draws produce it. */
  lemma AnyOrderCanComeOut(ds: seq<Day>, target: seq<Day>) returns (draws: seq<nat>)
    requires multiset(target) == multiset(ds)
    ensures Draws(draws, |ds|) && Shuffled(ds, draws, |ds|) == target
  {
    assert |target| == |multiset(target)| == |multiset(ds)| == |ds|;
    assert target[..|ds|] == target && ds[..|ds|] == ds;
    draws := OrderOfPrefix(ds, target, |ds|);
  }

  /** No day twice, none of the folding pool and none from outside the range, and
      every unreserved boundary day of it. */
  ghost predicate GoodFixture(days: seq<Day>) {
    && |days| == N_EVAL
    && (forall n: Day :: multiset(days)[n] <= 1)
    && (forall n: Day :: n in days ==> RANGE_START <= n <= RANGE_END && !Reserved(n))
    && (forall n: Day :: RANGE_START <= n <= RANGE_END && !Reserved(n) && IsBoundary(n) ==> n in days)
  }

  /** The whole construction: all unreserved boundary days, a sample of the rest drawn
      without replacement, in any order. */
  method BuildFixture(picks: seq<nat>, draws: seq<nat>) returns (evaluation: seq<Day>)
    requires ValidDraw(picks, |Only(Pool(RANGE_START, RANGE_END), false)|, N_EVAL - |Only(Pool(RANGE_START, RANGE_END), true)|)
    requires Draws(draws, N_EVAL)
    ensures GoodFixture(evaluation)
    ensures var all := Pool(RANGE_START, RANGE_END);
            multiset(evaluation) == multiset(Only(all, true) + Drawn(Only(all, false), picks))
  {
    hide GoodFixture, Only, Pool;
    var all := AllDates();
    var boundaryDates, otherDates := Only(all, true), Only(all, false);
    var chosen := boundaryDates + Drawn(otherDates, picks);
    evaluation := Shuffle(chosen, draws);
    FixtureIsGood(all, picks, evaluation);
  }

  lemma FixtureIsGood(all: seq<Day>, picks: seq<nat>, days: seq<Day>)
    requires Increasing(all) && Unreserved(all, RANGE_START, RANGE_END)
    requires ValidDraw(picks, |Only(all, false)|, N_EVAL - |Only(all, true)|) && |days| == N_EVAL
    requires multiset(days) == multiset(Only(all, true) + Drawn(Only(all, false), picks))
    ensures GoodFixture(days)
  {
    hide Only, GoodFixture, Increasing, Unreserved, Selects;
    OnlyHolds(all, true);
    OnlyHolds(all, false);
    GoodFrom(all, Only(all, true), Only(all, false), picks, days);
  }

  lemma GoodFrom(all: seq<Day>, b: seq<Day>, o: seq<Day>, picks: seq<nat>, days: seq<Day>)
    requires Increasing(b) && Increasing(o) && ValidDraw(picks, |o|, N_EVAL - |b|)
    requires Unreserved(all, RANGE_START, RANGE_END) && Selects(all, b, true) && Selects(all, o, false)
    requires |days| == N_EVAL && multiset(days) == multiset(b + Drawn(o, picks))
    ensures GoodFixture(days)
  {
    hide IsBoundary, Reserved;
    var chosen := b + Drawn(o, picks);
    ChosenOnce(b, o, picks);
    SameDays(days, chosen);
    forall n: Day ensures n in chosen ==> n in all {
      if n in chosen && n !in b { assert n in Drawn(o, picks); }
    }
  }

  lemma SameDays(a: seq<Day>, b: seq<Day>)
    requires multiset(a) == multiset(b)
    ensures forall n: Day :: n in a <==> n in b
  {
    forall n: Day ensures n in a <==> n in b {
      assert n in a <==> n in multiset(a);
      assert n in b <==> n in multiset(b);
    }
  }

  predicate Distinct(ds: seq<Day>) {
    forall i, j :: 0 <= i < j < |ds| ==> ds[i] != ds[j]
  }

  lemma {:induction false} DistinctOnce(ds: seq<Day>, n: Day)
    requires Distinct(ds)
    ensures multiset(ds)[n] <= 1
  {
    if ds != [] {
      var rest, last := ds[..|ds| - 1], ds[|ds| - 1];
      DistinctOnce(rest, n);
      assert ds == rest + [last];
      if n == last { assert n !in rest; }
    }
  }

  lemma ChosenOnce(boundary: seq<Day>, other: seq<Day>, picks: seq<nat>)
    requires Increasing(boundary) && Increasing(other) && forall n: Day :: n in boundary ==> n !in other
    requires ValidDraw(picks, |other|, |picks|)
    ensures forall n: Day :: multiset(boundary + Drawn(other, picks))[n] <= 1
  {
    var d := Drawn(other, picks);
    var chosen := boundary + d;
    assert Distinct(chosen) by {
      forall i, j | 0 <= i < j < |chosen| ensures chosen[i] != chosen[j] {
        if i < |boundary| <= j {
          assert chosen[i] in boundary && chosen[j] in other;
        }
      }
    }
    forall n: Day ensures multiset(chosen)[n] <= 1 { DistinctOnce(chosen, n); }
  }
}
