/** The salary-position display of components/SocialPyramid.tsx: where a net
    monthly salary falls on a 0–7000 € scale, and the density of French net
    salaries at that point, read off a piecewise-linear table. */
module Pyramid {
  import opened Wrappers

  datatype Benchmark = Benchmark(labelText: string, value: real)

  /** `BENCHMARKS`: reference salaries marked on the scale. */
  const BENCHMARKS: seq<Benchmark> := [
    Benchmark("SMIC Net", 1398.0),
    Benchmark("Médian", 2100.0),
    Benchmark("Moyen", 2600.0),
    Benchmark("Top 10%", 4000.0),
    Benchmark("Top 1%", 7000.0)
  ]

  const SCALE_MAX: real := 7000.0

  /** One breakpoint of the density table. */
  datatype Point = Point(salary: real, density: real)

  /** `DISTRIBUTION`: relative density of net monthly salaries. */
  const DISTRIBUTION: seq<Point> := [
    Point(0.0, 0.0),
    Point(400.0, 0.3),
    Point(700.0, 1.2),
    Point(950.0, 3.2),
    Point(1150.0, 5.8),
    Point(1300.0, 8.5),
    Point(1398.0, 10.2),
    Point(1550.0, 12.1),
    Point(1750.0, 13.5),
    Point(1950.0, 14.0),
    Point(2100.0, 13.0),
    Point(2300.0, 11.0),
    Point(2550.0, 8.8),
    Point(2900.0, 6.2),
    Point(3300.0, 4.0),
    Point(3800.0, 2.5),
    Point(4500.0, 1.4),
    Point(5500.0, 0.65),
    Point(6500.0, 0.25),
    Point(7000.0, 0.1)
  ]

  const CHART_W: real := 1000.0
  const CHART_H: real := 80.0

  function Min(x: real, y: real): real { if x <= y then x else y }

  function Max(x: real, y: real): real { if x >= y then x else y }

  // ---------------------------------------------------------------------
  // Tables of breakpoints

  /** Salaries strictly increase from one breakpoint to the next, so no
      segment has zero width. */
  predicate Increasing(t: seq<Point>)
  {
    forall i :: 0 <= i < |t| - 1 ==> t[i].salary < t[i + 1].salary
  }

  /** The same check, computed from index `i` on. */
  predicate IncreasingFrom(t: seq<Point>, i: nat)
    decreases |t| - i
  {
    i + 1 >= |t| || (t[i].salary < t[i + 1].salary && IncreasingFrom(t, i + 1))
  }

  lemma {:induction false} IncreasingFromHolds(t: seq<Point>, i: nat)
    requires IncreasingFrom(t, i)
    ensures forall k :: i <= k < |t| - 1 ==> t[k].salary < t[k + 1].salary
    decreases |t| - i
  {
    if i + 1 < |t| {
      IncreasingFromHolds(t, i + 1);
    }
  }

  /** Every breakpoint from index `i` on lies within the given bounds. */
  predicate WithinFrom(t: seq<Point>, i: nat, maxSalary: real, maxDensity: real)
    decreases |t| - i
  {
    i >= |t| ||
    (&& 0.0 <= t[i].salary <= maxSalary
     && 0.0 <= t[i].density <= maxDensity
     && WithinFrom(t, i + 1, maxSalary, maxDensity))
  }

  lemma {:induction false} WithinFromHolds(t: seq<Point>, i: nat, maxSalary: real, maxDensity: real)
    requires WithinFrom(t, i, maxSalary, maxDensity)
    ensures forall k :: i <= k < |t| ==>
      0.0 <= t[k].salary <= maxSalary && 0.0 <= t[k].density <= maxDensity
    decreases |t| - i
  {
    if i < |t| {
      WithinFromHolds(t, i + 1, maxSalary, maxDensity);
    }
  }

  /** The distribution's salaries strictly increase, from 0 to 7000. */
  lemma DistributionIncreasing()
    ensures |DISTRIBUTION| == 20 && Increasing(DISTRIBUTION)
    ensures DISTRIBUTION[0] == Point(0.0, 0.0) && DISTRIBUTION[19] == Point(7000.0, 0.1)
  {
    assert IncreasingFrom(DISTRIBUTION, 19);
    assert IncreasingFrom(DISTRIBUTION, 18);
    assert IncreasingFrom(DISTRIBUTION, 17);
    assert IncreasingFrom(DISTRIBUTION, 16);
    assert IncreasingFrom(DISTRIBUTION, 15);
    assert IncreasingFrom(DISTRIBUTION, 14);
    assert IncreasingFrom(DISTRIBUTION, 13);
    assert IncreasingFrom(DISTRIBUTION, 12);
    assert IncreasingFrom(DISTRIBUTION, 11);
    assert IncreasingFrom(DISTRIBUTION, 10);
    assert IncreasingFrom(DISTRIBUTION, 9);
    assert IncreasingFrom(DISTRIBUTION, 8);
    assert IncreasingFrom(DISTRIBUTION, 7);
    assert IncreasingFrom(DISTRIBUTION, 6);
    assert IncreasingFrom(DISTRIBUTION, 5);
    assert IncreasingFrom(DISTRIBUTION, 4);
    assert IncreasingFrom(DISTRIBUTION, 3);
    assert IncreasingFrom(DISTRIBUTION, 2);
    assert IncreasingFrom(DISTRIBUTION, 1);
    assert IncreasingFrom(DISTRIBUTION, 0);
    IncreasingFromHolds(DISTRIBUTION, 0);
  }

  /** The distribution's salaries lie in [0, 7000] and its densities in [0, 14]. */
  lemma DistributionWithinScale()
    ensures |DISTRIBUTION| == 20
    ensures forall k :: 0 <= k < |DISTRIBUTION| ==>
      0.0 <= DISTRIBUTION[k].salary <= SCALE_MAX && 0.0 <= DISTRIBUTION[k].density <= 14.0
  {
    assert WithinFrom(DISTRIBUTION, 20, SCALE_MAX, 14.0);
    assert WithinFrom(DISTRIBUTION, 19, SCALE_MAX, 14.0);
    assert WithinFrom(DISTRIBUTION, 18, SCALE_MAX, 14.0);
    assert WithinFrom(DISTRIBUTION, 17, SCALE_MAX, 14.0);
    assert WithinFrom(DISTRIBUTION, 16, SCALE_MAX, 14.0);
    assert WithinFrom(DISTRIBUTION, 15, SCALE_MAX, 14.0);
    assert WithinFrom(DISTRIBUTION, 14, SCALE_MAX, 14.0);
    assert WithinFrom(DISTRIBUTION, 13, SCALE_MAX, 14.0);
    assert WithinFrom(DISTRIBUTION, 12, SCALE_MAX, 14.0);
    assert WithinFrom(DISTRIBUTION, 11, SCALE_MAX, 14.0);
    assert WithinFrom(DISTRIBUTION, 10, SCALE_MAX, 14.0);
    assert WithinFrom(DISTRIBUTION, 9, SCALE_MAX, 14.0);
    assert WithinFrom(DISTRIBUTION, 8, SCALE_MAX, 14.0);
    assert WithinFrom(DISTRIBUTION, 7, SCALE_MAX, 14.0);
    assert WithinFrom(DISTRIBUTION, 6, SCALE_MAX, 14.0);
    assert WithinFrom(DISTRIBUTION, 5, SCALE_MAX, 14.0);
    assert WithinFrom(DISTRIBUTION, 4, SCALE_MAX, 14.0);
    assert WithinFrom(DISTRIBUTION, 3, SCALE_MAX, 14.0);
    assert WithinFrom(DISTRIBUTION, 2, SCALE_MAX, 14.0);
    assert WithinFrom(DISTRIBUTION, 1, SCALE_MAX, 14.0);
    assert WithinFrom(DISTRIBUTION, 0, SCALE_MAX, 14.0);
    WithinFromHolds(DISTRIBUTION, 0, SCALE_MAX, 14.0);
  }

  lemma {:induction false} IncreasingPairwise(t: seq<Point>, i: nat, j: nat)
    requires Increasing(t) && i < j < |t|
    ensures t[i].salary < t[j].salary
    decreases j - i
  {
    if i + 1 < j {
      IncreasingPairwise(t, i + 1, j);
    }
  }

  // ---------------------------------------------------------------------
  // Interpolation

  /** The density on the segment from `a` to `b` at salary `s`. */
  function Lerp(a: Point, b: Point, s: real): real
    requires a.salary < b.salary
  {
    var t := (s - a.salary) / (b.salary - a.salary);
    a.density + t * (b.density - a.density)
  }

  /** The scan of `interpolateDensity` from segment `i` on: the first segment
      whose closed salary range holds `s` gives the value, and no segment gives 0. */
  function Scan(t: seq<Point>, s: real, i: nat): real
    requires Increasing(t)
    decreases |t| - i
  {
    if i + 1 >= |t| then 0.0
    else if s >= t[i].salary && s <= t[i + 1].salary then Lerp(t[i], t[i + 1], s)
    else Scan(t, s, i + 1)
  }

  /** The density the component shows for a salary: salaries above the
      scale are read at its top. */
  function DensityAt(salary: real): real
  {
    DistributionIncreasing();
    Scan(DISTRIBUTION, Min(salary, SCALE_MAX), 0)
  }

  /** The loop of `interpolateDensity`, over a table of breakpoints: the first
      segment whose closed salary range holds `s` gives the interpolated
      density; when none does, 0. */
  method InterpolateIn(table: seq<Point>, s: real) returns (d: real)
    requires Increasing(table)
    ensures d == Scan(table, s, 0)
  {
    var i := 0;
    while i + 1 < |table|
      invariant Scan(table, s, i) == Scan(table, s, 0)
      decreases |table| - i
    {
      var a := table[i];
      var b := table[i + 1];
      if s >= a.salary && s <= b.salary {
        var t := (s - a.salary) / (b.salary - a.salary);
        return a.density + t * (b.density - a.density);
      }
      i := i + 1;
    }
    return 0.0;
  }

  /** `interpolateDensity`: the salary, capped at the top of the scale, is
      looked up in the distribution. */
  method InterpolateDensity(salary: real) returns (d: real)
    ensures d == DensityAt(salary)
  {
    DistributionIncreasing();
    var s := Min(salary, SCALE_MAX);
    d := InterpolateIn(DISTRIBUTION, s);
  }

  /** The scan reaches segment `k` when `s` lies past the start of it (or in
      the first one) and inside it. */
  lemma {:induction false} ScanFindsSegment(t: seq<Point>, s: real, k: nat, i: nat)
    requires Increasing(t) && i <= k && k + 1 < |t|
    requires t[k].salary <= s <= t[k + 1].salary
    requires k == 0 || s > t[k].salary
    ensures Scan(t, s, i) == Lerp(t[k], t[k + 1], s)
    decreases k - i
  {
    if i < k {
      if i + 1 < k {
        IncreasingPairwise(t, i + 1, k);
      }
      assert s > t[i + 1].salary;
      ScanFindsSegment(t, s, k, i + 1);
    }
  }

  /** A salary below the first breakpoint lies in no segment. */
  lemma {:induction false} ScanBelowTable(t: seq<Point>, s: real, i: nat)
    requires Increasing(t) && |t| > 0 && s < t[0].salary
    ensures Scan(t, s, i) == 0.0
    decreases |t| - i
  {
    if i + 1 < |t| {
      if i > 0 {
        IncreasingPairwise(t, 0, i);
      }
      ScanBelowTable(t, s, i + 1);
    }
  }

  lemma FractionInUnit(x: real, y: real)
    requires 0.0 <= x <= y && y > 0.0
    ensures 0.0 <= x / y <= 1.0
  {
    var q := x / y;
    assert q * y == x;
  }

  /** A fraction in [0, 1] of a difference lies between 0 and that difference. */
  lemma FractionOfDifference(t: real, d: real)
    requires 0.0 <= t <= 1.0
    ensures d >= 0.0 ==> 0.0 <= t * d <= d
    ensures d < 0.0 ==> d <= t * d <= 0.0
  {
    assert d - t * d == (1.0 - t) * d;
    if d >= 0.0 {
      NonNegativeProduct(t, d);
      NonNegativeProduct(1.0 - t, d);
    } else {
      NonNegativeProduct(t, -d);
      NonNegativeProduct(1.0 - t, -d);
    }
  }

  lemma NonNegativeProduct(x: real, y: real)
    requires x >= 0.0 && y >= 0.0
    ensures x * y >= 0.0
  {
  }

  /** On a segment, the interpolated density lies between the segment's two densities. */
  lemma LerpBetween(a: Point, b: Point, s: real)
    requires a.salary <= s <= b.salary && a.salary < b.salary
    ensures Min(a.density, b.density) <= Lerp(a, b, s) <= Max(a.density, b.density)
  {
    var t := (s - a.salary) / (b.salary - a.salary);
    FractionInUnit(s - a.salary, b.salary - a.salary);
    FractionOfDifference(t, b.density - a.density);
  }

  /** With every density within [0, m], so is the scan. */
  lemma {:induction false} ScanBounded(t: seq<Point>, s: real, i: nat, m: real)
    requires Increasing(t) && m >= 0.0
    requires forall k :: 0 <= k < |t| ==> 0.0 <= t[k].density <= m
    ensures 0.0 <= Scan(t, s, i) <= m
    decreases |t| - i
  {
    if i + 1 < |t| {
      if s >= t[i].salary && s <= t[i + 1].salary {
        LerpBetween(t[i], t[i + 1], s);
      } else {
        ScanBounded(t, s, i + 1, m);
      }
    }
  }

  /** In any table of two or more breakpoints, the scan returns the tabulated
      density at each breakpoint. */
  lemma ScanAtBreakpoint(t: seq<Point>, k: nat)
    requires Increasing(t) && 2 <= |t| && k < |t|
    ensures Scan(t, t[k].salary, 0) == t[k].density
  {
    var s := t[k].salary;
    if k == 0 {
      ScanFindsSegment(t, s, 0, 0);
    } else {
      ScanFindsSegment(t, s, k - 1, 0);
      var w := t[k].salary - t[k - 1].salary;
      assert w > 0.0;
      assert s - t[k - 1].salary == w;
      DivSelf(w);
    }
  }

  lemma DivSelf(w: real)
    requires w != 0.0
    ensures w / w == 1.0
  {
  }

  /** At each breakpoint the tabulated density comes back exactly. */
  lemma DensityAtBreakpoint(k: nat)
    requires k < |DISTRIBUTION|
    ensures DensityAt(DISTRIBUTION[k].salary) == DISTRIBUTION[k].density
  {
    DistributionIncreasing();
    DistributionWithinScale();
    ScanAtBreakpoint(DISTRIBUTION, k);
  }

  /** Strictly inside a segment, the density is that segment's interpolation
      and lies between its two ends. */
  lemma DensityInSegment(k: nat, salary: real)
    requires k + 1 < |DISTRIBUTION|
    requires DISTRIBUTION[k].salary < salary < DISTRIBUTION[k + 1].salary
    ensures DensityAt(salary) == Lerp(DISTRIBUTION[k], DISTRIBUTION[k + 1], salary)
    ensures Min(DISTRIBUTION[k].density, DISTRIBUTION[k + 1].density) <= DensityAt(salary)
            <= Max(DISTRIBUTION[k].density, DISTRIBUTION[k + 1].density)
  {
    DistributionIncreasing();
    DistributionWithinScale();
    ScanFindsSegment(DISTRIBUTION, salary, k, 0);
    LerpBetween(DISTRIBUTION[k], DISTRIBUTION[k + 1], salary);
  }

  /** Above the scale the salary is read at 7000, where the density is 0.1. */
  lemma DensityAboveScale(salary: real)
    requires salary > SCALE_MAX
    ensures DensityAt(salary) == 0.1
  {
    DistributionIncreasing();
    ScanAtBreakpoint(DISTRIBUTION, 19);
  }

  /** A negative salary lies in no segment: its density is 0. */
  lemma DensityBelowZero(salary: real)
    requires salary < 0.0
    ensures DensityAt(salary) == 0.0
  {
    DistributionIncreasing();
    ScanBelowTable(DISTRIBUTION, salary, 0);
  }

  /** Every density read off the table lies in [0, 14]. */
  lemma DensityBounded(salary: real)
    ensures 0.0 <= DensityAt(salary) <= 14.0
  {
    DistributionIncreasing();
    DistributionWithinScale();
    ScanBounded(DISTRIBUTION, Min(salary, SCALE_MAX), 0, 14.0);
  }

  // ---------------------------------------------------------------------
  // Scale and chart

  /** `toPercent`: a salary's place on the scale, capped at 100. */
  function ToPercent(value: real): (r: real)
    ensures r <= 100.0
    ensures value <= SCALE_MAX ==> r == value / 70.0
    ensures value >= SCALE_MAX ==> r == 100.0
    ensures value >= 0.0 ==> r >= 0.0
  {
    Min((value / SCALE_MAX) * 100.0, 100.0)
  }

  /** The left offset, in percent, of a benchmark's tick and label on the
      scale; unlike `ToPercent` it is not capped at 100. */
  function BenchmarkLeft(b: Benchmark): real
  {
    (b.value / SCALE_MAX) * 100.0
  }

  /** The benchmarks are in increasing order, every tick lies on the scale at
      the place `ToPercent` gives its value, and the last one, drawn
      right-aligned, sits at the right end. */
  lemma BenchmarksOnScale()
    ensures forall i, j :: 0 <= i < j < |BENCHMARKS| ==> BENCHMARKS[i].value < BENCHMARKS[j].value
    ensures forall i :: 0 <= i < |BENCHMARKS| ==>
              0.0 <= BenchmarkLeft(BENCHMARKS[i]) <= 100.0
              && BenchmarkLeft(BENCHMARKS[i]) == ToPercent(BENCHMARKS[i].value)
    ensures BenchmarkLeft(BENCHMARKS[|BENCHMARKS| - 1]) == 100.0
  {
  }

  /** The label position: the percentage kept within [6, 94]. */
  function LabelLeft(pct: real): (r: real)
    ensures 6.0 <= r <= 94.0
    ensures 6.0 <= pct <= 94.0 ==> r == pct
    ensures pct <= 6.0 ==> r == 6.0
    ensures pct >= 94.0 ==> r == 94.0
  {
    Min(Max(pct, 6.0), 94.0)
  }

  /** `Math.max(...densities)`. */
  function MaxDensity(t: seq<Point>): (r: real)
    requires |t| > 0
    ensures forall k :: 0 <= k < |t| ==> t[k].density <= r
    ensures exists k :: 0 <= k < |t| && t[k].density == r
  {
    if |t| == 1 then t[0].density
    else
      var rest := MaxDensity(t[1..]);
      assert forall k :: 1 <= k < |t| ==> t[k] == t[1..][k - 1];
      Max(t[0].density, rest)
  }

  /** The peak density is 14, at 1950 €. */
  lemma MaxDensityOfDistribution()
    ensures MaxDensity(DISTRIBUTION) == 14.0
  {
    DistributionWithinScale();
    assert DISTRIBUTION[9].density == 14.0;
  }

  datatype ChartPoint = ChartPoint(x: real, y: real)

  /** The chart coordinates of a breakpoint, on a 1000 x 80 view box with the
      peak density at the top. */
  function ToChart(p: Point, maxDensity: real): ChartPoint
    requires maxDensity > 0.0
  {
    ChartPoint((p.salary / SCALE_MAX) * CHART_W, CHART_H - (p.density / maxDensity) * CHART_H)
  }

  function ChartPoints(t: seq<Point>, maxDensity: real): (r: seq<ChartPoint>)
    requires maxDensity > 0.0
    ensures |r| == |t|
    ensures forall k :: 0 <= k < |t| ==> r[k] == ToChart(t[k], maxDensity)
  {
    seq(|t|, k requires 0 <= k < |t| => ToChart(t[k], maxDensity))
  }

  /** Every chart point of the distribution lies in the view box. */
  lemma ChartPointsInViewBox()
    ensures var pts := ChartPoints(DISTRIBUTION, 14.0);
            forall k :: 0 <= k < |pts| ==>
              0.0 <= pts[k].x <= CHART_W && 0.0 <= pts[k].y <= CHART_H
  {
    DistributionWithinScale();
    var pts := ChartPoints(DISTRIBUTION, 14.0);
    forall k | 0 <= k < |pts|
      ensures 0.0 <= pts[k].x <= CHART_W && 0.0 <= pts[k].y <= CHART_H
    {
      InViewBox(DISTRIBUTION[k].salary, DISTRIBUTION[k].density);
    }
  }

  lemma InViewBox(salary: real, density: real)
    requires 0.0 <= salary <= SCALE_MAX && 0.0 <= density <= 14.0
    ensures 0.0 <= ToChart(Point(salary, density), 14.0).x <= CHART_W
    ensures 0.0 <= ToChart(Point(salary, density), 14.0).y <= CHART_H
  {
    assert (salary / SCALE_MAX) * CHART_W <= CHART_W;
    assert (density / 14.0) * CHART_H <= CHART_H;
  }

  /** The x of the user's line: the salary's place on the chart, capped at its width. */
  function UserX(mensuelNet: real): (r: real)
    ensures r <= CHART_W
    ensures mensuelNet >= 0.0 ==> r >= 0.0
    ensures mensuelNet <= SCALE_MAX ==> r == mensuelNet / 7.0
    ensures mensuelNet >= SCALE_MAX ==> r == CHART_W
  {
    Min((mensuelNet / SCALE_MAX) * CHART_W, CHART_W)
  }

  /** The y of the user's dot: the density at the salary, peak at the top. */
  function UserDotY(mensuelNet: real, maxDensity: real): real
    requires maxDensity > 0.0
  {
    CHART_H - (DensityAt(mensuelNet) / maxDensity) * CHART_H
  }

  /** With the distribution's peak density, the dot stays within the chart's height. */
  lemma UserDotOnChart(mensuelNet: real)
    ensures 0.0 <= UserDotY(mensuelNet, 14.0) <= CHART_H
  {
    DensityBounded(mensuelNet);
    var d := DensityAt(mensuelNet);
    assert (d / 14.0) * CHART_H <= CHART_H;
  }

  /** The user's marker. */
  datatype Marker = Marker(pct: real, labelLeft: real, isAboveScale: bool, userX: real, userDotY: real)

  /** The component for a net monthly salary: nothing when it is not positive. */
  function Position(mensuelNet: real): (r: Option<Marker>)
    ensures r.None? <==> mensuelNet <= 0.0
    ensures r.Some? ==> (r.value.isAboveScale <==> mensuelNet > SCALE_MAX)
    ensures r.Some? ==> 6.0 <= r.value.labelLeft <= 94.0 && 0.0 <= r.value.pct <= 100.0
    ensures r.Some? ==> 0.0 <= r.value.userX <= CHART_W
    ensures r.Some? ==> r.value.pct == ToPercent(mensuelNet) && r.value.labelLeft == LabelLeft(r.value.pct)
    ensures r.Some? ==> r.value.userX == UserX(mensuelNet) && r.value.userDotY == UserDotY(mensuelNet, 14.0)
  {
    if mensuelNet <= 0.0 then None
    else
      var pct := ToPercent(mensuelNet);
      DistributionWithinScale();
      MaxDensityOfDistribution();
      var maxDensity := MaxDensity(DISTRIBUTION);
      Some(Marker(pct, LabelLeft(pct), mensuelNet > SCALE_MAX, UserX(mensuelNet),
                  UserDotY(mensuelNet, maxDensity)))
  }

  /** The marker's dot is drawn against the peak density 14, so it stays on the chart. */
  lemma MarkerDotOnChart(mensuelNet: real)
    requires mensuelNet > 0.0
    ensures 0.0 <= Position(mensuelNet).value.userDotY <= CHART_H
  {
    MaxDensityOfDistribution();
    UserDotOnChart(mensuelNet);
  }
}
