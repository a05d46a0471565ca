/** The forecasting library of utils/predictionModels.js: four base predictors, the weighted
  * ensemble, the series statistics they use and the stock-out simulation. Quantities are exact
  * reals; the square root inside the volatility is never taken: the volatility is carried as its
  * square, which is all the library compares. */
module Forecast {
  import opened Wrappers
  import opened RealMath
  import opened Calendar

  /** One point of a daily series: `{ date, quantity }`. The library only ever asks a date for its
    * weekday, so the date is carried as its day number (`Calendar.DayNumber`). */
  datatype Observation = Observation(day: int, quantity: real)

  /** The weights of the four base forecasts in the ensemble. */
  datatype Weights = Weights(ma: real, lr: real, es: real, sa: real)

  /** The result of `predictStockOut` (its wall-clock `date` field is not modelled). */
  datatype StockOut = StockOut(daysUntilStockOut: Option<nat>, recommendedRestock: int)

  const DefaultWindow: nat := 7
  const TrendWindow: nat := 14
  const DefaultAlpha: real := 0.3

  predicate NonNegativeSeries(data: seq<Observation>)
  {
    forall i :: 0 <= i < |data| ==> data[i].quantity >= 0.0
  }

  function Quantities(data: seq<Observation>): (qs: seq<real>)
    ensures |qs| == |data|
    ensures forall i :: 0 <= i < |data| ==> qs[i] == data[i].quantity
  {
    seq(|data|, i requires 0 <= i < |data| => data[i].quantity)
  }

  /** `data.slice(-k)`: the last k points, or all of them when there are fewer. */
  function LastPoints(data: seq<Observation>, k: nat): (r: seq<Observation>)
    ensures |r| == if |data| <= k then |data| else k
    ensures forall i :: 0 <= i < |r| ==> r[i] == data[|data| - |r| + i]
  {
    if |data| <= k then data else data[|data| - k..]
  }

  function Mean(qs: seq<real>): real
    requires |qs| > 0
  {
    Sum(qs) / AsReal(|qs|)
  }

  // ---------------------------------------------------------------------------------------------
  // Least-squares trend against the position index (calculateTrend, and the fit in linearRegression)

  /** The running sums of a fit: the number of points n (which is also the position of the next
    * point), and the sums of x, y, x*y and x*x. */
  datatype FitSums = FitSums(n: real, sumX: real, sumY: real, sumXY: real, sumXX: real)

  /** A fitted line: `slope` and `intercept`. */
  datatype Line = Line(slope: real, intercept: real)

  const NoPoints: FitSums := FitSums(0.0, 0.0, 0.0, 0.0, 0.0)

  /** The sums after one more point y at position x = n. */
  function AddPoint(f: FitSums, y: real): FitSums
  {
    FitSums(f.n + 1.0, f.sumX + f.n, f.sumY + y, f.sumXY + f.n * y, f.sumXX + f.n * f.n)
  }

  /** The sums of a fit of ys against the positions 0 .. |ys|-1. */
  function Fit(ys: seq<real>): FitSums
  {
    if |ys| == 0 then NoPoints else AddPoint(Fit(ys[..|ys| - 1]), ys[|ys| - 1])
  }

  /** The least-squares line of the sums f: slope (n*sumXY - sumX*sumY) / (n*sumXX - sumX^2) and
    * intercept (sumY - slope*sumX) / n. The slope is 0 below two points, and also when the
    * denominator vanishes, which `NoZeroDenominator` shows never happens for the sums of a fit. */
  function LineOf(f: FitSums): Line
  {
    var den := f.n * f.sumXX - f.sumX * f.sumX;
    var slope := if f.n < 2.0 || den == 0.0 then 0.0 else (f.n * f.sumXY - f.sumX * f.sumY) / den;
    Line(slope, if f.n == 0.0 then 0.0 else (f.sumY - slope * f.sumX) / f.n)
  }

  /** One pass over the points from position i on, adding each to the running sums f, then the
    * line of the totals: the four `reduce` calls evaluated together. */
  function FitFrom(ys: seq<real>, i: nat, f: FitSums): Line
    requires i <= |ys|
    decreases |ys| - i
  {
    if i == |ys| then LineOf(f) else FitFrom(ys, i + 1, AddPoint(f, ys[i]))
  }

  /** The least-squares line of ys against its positions, as `linearRegression` fits it. */
  function FittedLine(ys: seq<real>): Line
  {
    FitFrom(ys, 0, NoPoints)
  }

  /** `calculateTrend`: 0 below two points, otherwise the slope of the fitted line. */
  function CalculateTrend(data: seq<Observation>): real
  {
    if |data| < 2 then 0.0 else FittedLine(Quantities(data)).slope
  }

  lemma FitPrefixStep(ys: seq<real>, i: nat)
    requires i < |ys|
    ensures Fit(ys[..i + 1]) == AddPoint(Fit(ys[..i]), ys[i])
  {
    assert ys[..i + 1][..i] == ys[..i];
  }

  /** Continuing the pass from position i with the sums of the first i points gives the line of
    * the sums of all points. */
  lemma {:induction false} FitFromPrefix(ys: seq<real>, i: nat)
    requires i <= |ys|
    ensures FitFrom(ys, i, Fit(ys[..i])) == LineOf(Fit(ys))
    decreases |ys| - i
  {
    if i == |ys| {
      assert ys[..i] == ys;
    } else {
      FitPrefixStep(ys, i);
      FitFromPrefix(ys, i + 1);
    }
  }

  /** The one-pass line is the least-squares line of the sums. */
  lemma FittedLineIsLeastSquares(ys: seq<real>)
    ensures FittedLine(ys) == LineOf(Fit(ys))
  {
    assert ys[..0] == [];
    FitFromPrefix(ys, 0);
  }

  /** The point count of a fit is the length of the series. */
  lemma {:induction false} FitCount(ys: seq<real>)
    ensures Fit(ys).n == AsReal(|ys|)
    decreases |ys|
  {
    if |ys| > 0 {
      FitCount(ys[..|ys| - 1]);
    }
  }

  /** The index sums in closed form: sumX = n(n-1)/2 and sumXX = n(n-1)(2n-1)/6. */
  predicate IndexSumsClosed(f: FitSums)
  {
    f.sumX == f.n * (f.n - 1.0) / 2.0 && f.sumXX == f.n * (f.n - 1.0) * (2.0 * f.n - 1.0) / 6.0
  }

  lemma IndexSumsStep(f: FitSums, y: real)
    requires IndexSumsClosed(f)
    ensures IndexSumsClosed(AddPoint(f, y))
  {
  }

  lemma {:induction false} IndexSums(ys: seq<real>)
    ensures IndexSumsClosed(Fit(ys))
    decreases |ys|
  {
    if |ys| > 0 {
      var init := ys[..|ys| - 1];
      IndexSums(init);
      IndexSumsStep(Fit(init), ys[|ys| - 1]);
    }
  }

  /** From two points on the slope denominator `n*sumXX - sumX^2` is strictly positive (it is
    * n^2(n^2-1)/12), so the zero-denominator guard of `LineOf` never applies to a fit. */
  lemma NoZeroDenominator(ys: seq<real>)
    requires |ys| >= 2
    ensures Fit(ys).n >= 2.0
    ensures Fit(ys).n * Fit(ys).sumXX - Fit(ys).sumX * Fit(ys).sumX > 0.0
  {
    FitCount(ys);
    assert AsReal(|ys| - 1) >= 1.0;
    IndexSums(ys);
    VarianceAlgebra(Fit(ys));
  }

  lemma VarianceAlgebra(f: FitSums)
    requires f.n >= 2.0 && IndexSumsClosed(f)
    ensures f.n * f.sumXX - f.sumX * f.sumX > 0.0
  {
    var m := f.n;
    assert m * f.sumXX - f.sumX * f.sumX == m * m * (m * m - 1.0) / 12.0;
    assert m * m >= 4.0 by { MulMonotone(2.0, 2.0, m, m); }
    assert m * m * (m * m - 1.0) >= 4.0 * 3.0 by { MulMonotone(4.0, 3.0, m * m, m * m - 1.0); }
  }

  /** The sums of a constant series c: sumY = n*c and sumXY = sumX*c. */
  predicate ConstantSumsClosed(f: FitSums, c: real)
  {
    f.sumY == f.n * c && f.sumXY == f.sumX * c
  }

  lemma ConstantSumsStep(f: FitSums, c: real)
    requires ConstantSumsClosed(f, c)
    ensures ConstantSumsClosed(AddPoint(f, c), c)
  {
  }

  lemma {:induction false} ConstantSums(ys: seq<real>, c: real)
    requires forall i :: 0 <= i < |ys| ==> ys[i] == c
    ensures ConstantSumsClosed(Fit(ys), c)
    decreases |ys|
  {
    if |ys| > 0 {
      var init := ys[..|ys| - 1];
      assert forall i :: 0 <= i < |init| ==> init[i] == ys[i];
      ConstantSums(init, c);
      ConstantSumsStep(Fit(init), c);
    }
  }

  /** The sums of a constant series, with a non-vanishing denominator, give the flat line at c. */
  lemma ConstantFitAlgebra(f: FitSums, c: real)
    requires f.n >= 2.0 && f.n * f.sumXX - f.sumX * f.sumX > 0.0 && ConstantSumsClosed(f, c)
    ensures LineOf(f) == Line(0.0, c)
  {
    assert f.n * f.sumXY - f.sumX * f.sumY == 0.0;
    assert (f.sumY - 0.0 * f.sumX) / f.n == c;
  }

  /** A constant series of two or more points is fitted by the flat line at that constant. */
  lemma LineOfConstant(ys: seq<real>, c: real)
    requires |ys| >= 2
    requires forall i :: 0 <= i < |ys| ==> ys[i] == c
    ensures FittedLine(ys) == Line(0.0, c)
  {
    FittedLineIsLeastSquares(ys);
    ConstantSums(ys, c);
    NoZeroDenominator(ys);
    ConstantFitAlgebra(Fit(ys), c);
  }

  /** The trend of a series is 0 below two points and 0 for a constant series. */
  lemma TrendOfConstant(data: seq<Observation>, c: real)
    requires forall i :: 0 <= i < |data| ==> data[i].quantity == c
    ensures CalculateTrend(data) == 0.0
  {
    if |data| >= 2 {
      LineOfConstant(Quantities(data), c);
    }
  }

  // ---------------------------------------------------------------------------------------------
  // Moving average

  /** The per-step multiplier, the trend's influence capped to [0.8, 1.2]. */
  function TrendFactor(trend: real): (tf: real)
    ensures 0.8 <= tf <= 1.2
  {
    Max(0.8, Min(1.2, 1.0 + trend * 0.1))
  }

  /** `Array(periods).fill(v)`. */
  function Flat(v: real, periods: nat): (r: seq<real>)
    ensures |r| == periods
    ensures forall i :: 0 <= i < periods ==> r[i] == v
  {
    seq(periods, _ => v)
  }

  /** The compounded steps: step i is base * tf^(i+1). */
  function Compounded(base: real, tf: real, periods: nat): (r: seq<real>)
    ensures |r| == periods
  {
    seq(periods, i requires 0 <= i < periods => base * Pow(tf, i + 1))
  }

  /** The loop of `movingAverage`: push base * tf^(i+1) for i = 0 .. periods-1. */
  method Compound(base: real, tf: real, periods: nat) returns (steps: seq<real>)
    ensures steps == Compounded(base, tf, periods)
  {
    steps := [];
    var i := 0;
    while i < periods
      invariant 0 <= i <= periods
      invariant |steps| == i
      invariant forall j :: 0 <= j < i ==> steps[j] == base * Pow(tf, j + 1)
    {
      steps := steps + [base * Pow(tf, i + 1)];
      i := i + 1;
    }
    assert forall j :: 0 <= j < periods ==> steps[j] == Compounded(base, tf, periods)[j];
  }

  /** The first compounded step is base*tf and each next step is the previous one times tf. */
  lemma CompoundedSteps(base: real, tf: real, periods: nat)
    ensures periods > 0 ==> Compounded(base, tf, periods)[0] == base * tf
    ensures forall i :: 0 <= i < periods - 1 ==>
      Compounded(base, tf, periods)[i + 1] == Compounded(base, tf, periods)[i] * tf
  {
    if periods > 0 {
      assert Pow(tf, 1) == tf * Pow(tf, 0);
    }
    forall i | 0 <= i < periods - 1
      ensures Compounded(base, tf, periods)[i + 1] == Compounded(base, tf, periods)[i] * tf
    {
      assert Pow(tf, i + 2) == tf * Pow(tf, i + 1);
      assert base * (tf * Pow(tf, i + 1)) == (base * Pow(tf, i + 1)) * tf;
    }
  }

  /** For a non-negative base and tf in [0.8, 1.2], step i lies between base*0.8^(i+1) and
    * base*1.2^(i+1); in particular it is non-negative. */
  lemma CompoundedBounds(base: real, tf: real, periods: nat)
    requires base >= 0.0 && 0.8 <= tf <= 1.2
    ensures forall i :: 0 <= i < periods ==> Compounded(base, tf, periods)[i] >= 0.0
    ensures forall i :: 0 <= i < periods ==> base * Pow(0.8, i + 1) <= Compounded(base, tf, periods)[i]
    ensures forall i :: 0 <= i < periods ==> Compounded(base, tf, periods)[i] <= base * Pow(1.2, i + 1)
  {
    forall i | 0 <= i < periods
      ensures 0.0 <= base * Pow(0.8, i + 1) <= Compounded(base, tf, periods)[i] <= base * Pow(1.2, i + 1)
    {
      StepBounds(base, tf, i + 1);
    }
  }

  lemma StepBounds(base: real, tf: real, k: nat)
    requires base >= 0.0 && 0.8 <= tf <= 1.2
    ensures 0.0 <= base * Pow(0.8, k) <= base * Pow(tf, k) <= base * Pow(1.2, k)
  {
    PowBounds(tf, k, 0.8, 1.2);
    MulMonotone(0.0, 0.0, base, Pow(0.8, k));
    MulMonotone(base, Pow(0.8, k), base, Pow(tf, k));
    MulMonotone(base, Pow(tf, k), base, Pow(1.2, k));
  }

  /** With factor 1 the compounded steps are flat. */
  lemma CompoundedByOne(base: real, periods: nat)
    ensures Compounded(base, 1.0, periods) == Flat(base, periods)
  {
    forall i | 0 <= i < periods
      ensures Compounded(base, 1.0, periods)[i] == base
    {
      PowOne(i + 1);
    }
  }

  /** The base level of the moving average: the mean of the last `window` points. */
  function RecentMean(data: seq<Observation>, window: nat): real
    requires window >= 1 && |data| >= window
  {
    Sum(Quantities(LastPoints(data, window))) / AsReal(window)
  }

  /** The per-step factor of the moving average: the trend of the last 14 points, capped. */
  function RecentTrendFactor(data: seq<Observation>): (tf: real)
    ensures 0.8 <= tf <= 1.2
  {
    TrendFactor(CalculateTrend(LastPoints(data, TrendWindow)))
  }

  /** What `movingAverage` returns. Below `window` points: the whole-series mean, repeated.
    * Otherwise the mean of the last `window` points compounded by the trend factor of the last
    * 14 points. An empty series (0/0 in the source) is excluded. */
  function MovingAverageForecast(data: seq<Observation>, periods: nat, window: nat): (r: seq<real>)
    requires window >= 1 && |data| > 0
    ensures |r| == periods
  {
    if |data| < window then Flat(Mean(Quantities(data)), periods)
    else Compounded(RecentMean(data, window), RecentTrendFactor(data), periods)
  }

  method MovingAverage(data: seq<Observation>, periods: nat, window: nat) returns (predictions: seq<real>)
    requires window >= 1 && |data| > 0
    ensures predictions == MovingAverageForecast(data, periods, window)
  {
    if |data| < window {
      var avg := Sum(Quantities(data)) / AsReal(|data|);
      predictions := Flat(avg, periods);
      return;
    }
    var avg := RecentMean(data, window);
    var trend := CalculateTrend(LastPoints(data, TrendWindow));
    var trendFactor := TrendFactor(trend);
    predictions := Compound(avg, trendFactor, periods);
  }

  /** With enough points the forecast is the compounded sequence of base and tf (each step the
    * previous one times tf, by `CompoundedSteps`), starting from base*tf, where base is the mean
    * of the last `window` points and tf, the capped trend factor of the last 14 points, lies in
    * [0.8, 1.2]. */
  lemma MovingAverageCompounds(data: seq<Observation>, periods: nat, window: nat, base: real, tf: real)
    requires window >= 1 && |data| >= window
    requires base == RecentMean(data, window) && tf == RecentTrendFactor(data)
    ensures 0.8 <= tf <= 1.2
    ensures MovingAverageForecast(data, periods, window) == Compounded(base, tf, periods)
    ensures periods > 0 ==> MovingAverageForecast(data, periods, window)[0] == base * tf
  {
    CompoundedSteps(base, tf, periods);
  }

  /** Below `window` points the forecast is `periods` copies of the whole-series mean. */
  lemma MovingAverageFallback(data: seq<Observation>, periods: nat, window: nat)
    requires window >= 1 && 0 < |data| < window
    ensures forall i :: 0 <= i < periods ==>
      MovingAverageForecast(data, periods, window)[i] == Sum(Quantities(data)) / AsReal(|data|)
  {
  }

  /** A non-negative history gives a non-negative moving-average forecast. */
  lemma MovingAverageNonNegative(data: seq<Observation>, periods: nat, window: nat)
    requires window >= 1 && |data| > 0 && NonNegativeSeries(data)
    ensures forall i :: 0 <= i < periods ==> MovingAverageForecast(data, periods, window)[i] >= 0.0
  {
    if |data| < window {
      SumNonNegative(Quantities(data));
    } else {
      SumNonNegative(Quantities(LastPoints(data, window)));
      CompoundedBounds(RecentMean(data, window), RecentTrendFactor(data), periods);
    }
  }

  /** A constant history of length at least `window` forecasts that constant at every step. */
  lemma MovingAverageOfConstant(data: seq<Observation>, periods: nat, window: nat, c: real)
    requires window >= 1 && |data| >= window
    requires forall i :: 0 <= i < |data| ==> data[i].quantity == c
    ensures MovingAverageForecast(data, periods, window) == Flat(c, periods)
  {
    var recent := Quantities(LastPoints(data, window));
    SumConstant(recent, c);
    assert RecentMean(data, window) == c by {
      assert Sum(recent) == AsReal(window) * c;
      DivCancel(AsReal(window), c);
    }
    var last := LastPoints(data, TrendWindow);
    assert forall i :: 0 <= i < |last| ==> last[i].quantity == c;
    TrendOfConstant(last, c);
    assert RecentTrendFactor(data) == 1.0;
    CompoundedByOne(c, periods);
  }

  // ---------------------------------------------------------------------------------------------
  // Linear regression

  /** The line's value at position x, clamped at 0. */
  function Projected(line: Line, x: nat): (p: real)
    ensures p >= 0.0
  {
    Max(0.0, line.slope * AsReal(x) + line.intercept)
  }

  /** A fitted line continued from position n: step i is the line at n+i, clamped at 0. */
  function LineForecast(line: Line, n: nat, periods: nat): (r: seq<real>)
    ensures |r| == periods
  {
    seq(periods, i requires 0 <= i < periods => Projected(line, n + i))
  }

  /** What `linearRegression` returns: below two points the first value (or 0) repeated;
    * otherwise the fitted line continued from position n, each step clamped at 0. */
  function LinearRegressionForecast(data: seq<Observation>, periods: nat): (r: seq<real>)
    ensures |r| == periods
  {
    if |data| < 2 then
      Flat(if |data| > 0 then data[0].quantity else 0.0, periods)
    else
      LineForecast(FittedLine(Quantities(data)), |data|, periods)
  }

  method LinearRegression(data: seq<Observation>, periods: nat) returns (predictions: seq<real>)
    ensures predictions == LinearRegressionForecast(data, periods)
  {
    if |data| < 2 {
      var avg := if |data| > 0 then data[0].quantity else 0.0;
      predictions := Flat(avg, periods);
      return;
    }
    var line := FittedLine(Quantities(data));
    predictions := Extend(line, |data|, periods);
  }

  /** The loop of `linearRegression`: push max(0, slope*(n+i) + intercept) for i = 0 .. periods-1. */
  method Extend(line: Line, n: nat, periods: nat) returns (steps: seq<real>)
    ensures steps == LineForecast(line, n, periods)
  {
    steps := [];
    var i := 0;
    while i < periods
      invariant 0 <= i <= periods
      invariant |steps| == i
      invariant forall j :: 0 <= j < i ==> steps[j] == Projected(line, n + j)
    {
      var futureX := AsReal(n + i);
      steps := steps + [Max(0.0, line.slope * futureX + line.intercept)];
      i := i + 1;
    }
    assert forall j :: 0 <= j < periods ==> steps[j] == LineForecast(line, n, periods)[j];
  }

  /** From two points on, every regression step is non-negative; below two points the forecast
    * repeats the first quantity, or 0 for an empty series. */
  lemma LinearRegressionShape(data: seq<Observation>, periods: nat)
    ensures |data| >= 2 ==> forall i :: 0 <= i < periods ==> LinearRegressionForecast(data, periods)[i] >= 0.0
    ensures |data| == 1 ==> LinearRegressionForecast(data, periods) == Flat(data[0].quantity, periods)
    ensures |data| == 0 ==> LinearRegressionForecast(data, periods) == Flat(0.0, periods)
  {
    if |data| >= 2 {
      var r := LineForecast(FittedLine(Quantities(data)), |data|, periods);
      assert LinearRegressionForecast(data, periods) == r;
      forall i | 0 <= i < periods
        ensures r[i] >= 0.0
      {
        assert r[i] == Projected(FittedLine(Quantities(data)), |data| + i);
      }
    }
  }

  /** A constant non-negative history of two or more points forecasts that constant. */
  lemma LinearRegressionOfConstant(data: seq<Observation>, periods: nat, c: real)
    requires |data| >= 2 && c >= 0.0
    requires forall i :: 0 <= i < |data| ==> data[i].quantity == c
    ensures LinearRegressionForecast(data, periods) == Flat(c, periods)
  {
    LineOfConstant(Quantities(data), c);
    var r := LineForecast(Line(0.0, c), |data|, periods);
    assert LinearRegressionForecast(data, periods) == r;
    forall i | 0 <= i < periods
      ensures r[i] == c
    {
      assert r[i] == Projected(Line(0.0, c), |data| + i);
    }
  }

  /** The worked example: the history 1,2,3,4,5 has slope 1 and intercept 1, and forecasts 6 and
    * 7 for the next two periods. */
  lemma LinearRegressionExample(data: seq<Observation>)
    requires Quantities(data) == [1.0, 2.0, 3.0, 4.0, 5.0]
    ensures FittedLine(Quantities(data)) == Line(1.0, 1.0)
    ensures LinearRegressionForecast(data, 2) == [6.0, 7.0]
  {
    ExampleFit(Quantities(data));
    var r := LineForecast(Line(1.0, 1.0), 5, 2);
    assert AsReal(5) == 5.0 && AsReal(6) == 6.0;
    assert r[0] == Projected(Line(1.0, 1.0), 5) == 6.0;
    assert r[1] == Projected(Line(1.0, 1.0), 6) == 7.0;
  }

  lemma ExampleFit(ys: seq<real>)
    requires ys == [1.0, 2.0, 3.0, 4.0, 5.0]
    ensures FittedLine(ys) == Line(1.0, 1.0)
  {
    ExampleFirstPoints(ys);
    ExampleLastPoints(ys);
    ExampleLine();
  }

  lemma ExampleFirstPoints(ys: seq<real>)
    requires ys == [1.0, 2.0, 3.0, 4.0, 5.0]
    ensures FittedLine(ys) == FitFrom(ys, 3, FitSums(3.0, 3.0, 6.0, 8.0, 5.0))
  {
    FitFromStep(ys, 0, NoPoints);
    FitFromStep(ys, 1, FitSums(1.0, 0.0, 1.0, 0.0, 0.0));
    FitFromStep(ys, 2, FitSums(2.0, 1.0, 3.0, 2.0, 1.0));
  }

  lemma ExampleLastPoints(ys: seq<real>)
    requires ys == [1.0, 2.0, 3.0, 4.0, 5.0]
    ensures FitFrom(ys, 3, FitSums(3.0, 3.0, 6.0, 8.0, 5.0)) == LineOf(FitSums(5.0, 10.0, 15.0, 40.0, 30.0))
  {
    FitFromStep(ys, 3, FitSums(3.0, 3.0, 6.0, 8.0, 5.0));
    FitFromStep(ys, 4, FitSums(4.0, 6.0, 10.0, 20.0, 14.0));
  }

  lemma FitFromStep(ys: seq<real>, i: nat, f: FitSums)
    requires i < |ys|
    ensures FitFrom(ys, i, f) == FitFrom(ys, i + 1, AddPoint(f, ys[i]))
  {
  }

  lemma ExampleLine()
    ensures LineOf(FitSums(5.0, 10.0, 15.0, 40.0, 30.0)) == Line(1.0, 1.0)
  {
  }

  // ---------------------------------------------------------------------------------------------
  // Exponential smoothing

  /** The final smoothed level: start at the first value, then alpha*q + (1-alpha)*level. */
  function SmoothedLevel(qs: seq<real>, alpha: real): real
    requires |qs| > 0
  {
    if |qs| == 1 then qs[0]
    else alpha * qs[|qs| - 1] + (1.0 - alpha) * SmoothedLevel(qs[..|qs| - 1], alpha)
  }

  /** What `exponentialSmoothing` returns: all zeros for an empty series, otherwise the final
    * level (clamped at 0) at every step: the forecast is flat. */
  function ExponentialSmoothingForecast(data: seq<Observation>, periods: nat, alpha: real): (r: seq<real>)
    ensures |r| == periods
  {
    if |data| == 0 then Flat(0.0, periods)
    else Flat(Max(0.0, SmoothedLevel(Quantities(data), alpha)), periods)
  }

  method ExponentialSmoothing(data: seq<Observation>, periods: nat, alpha: real) returns (predictions: seq<real>)
    ensures predictions == ExponentialSmoothingForecast(data, periods, alpha)
  {
    if |data| == 0 {
      predictions := Flat(0.0, periods);
      return;
    }
    var smoothed := data[0].quantity;
    var i := 1;
    while i < |data|
      invariant 1 <= i <= |data|
      invariant smoothed == SmoothedLevel(Quantities(data)[..i], alpha)
    {
      assert Quantities(data)[..i + 1][..i] == Quantities(data)[..i];
      smoothed := alpha * data[i].quantity + (1.0 - alpha) * smoothed;
      i := i + 1;
    }
    assert Quantities(data)[..|data|] == Quantities(data);
    predictions := Repeat(Max(0.0, smoothed), periods);
  }

  /** The prediction loop of `exponentialSmoothing`: push the same value `periods` times. */
  method Repeat(v: real, periods: nat) returns (steps: seq<real>)
    ensures steps == Flat(v, periods)
  {
    steps := [];
    var i := 0;
    while i < periods
      invariant 0 <= i <= periods
      invariant |steps| == i
      invariant forall j :: 0 <= j < i ==> steps[j] == v
    {
      steps := steps + [v];
      i := i + 1;
    }
  }

  /** For 0 <= alpha <= 1 the smoothed level is a convex combination of the inputs, so it lies
    * between their minimum and maximum. */
  lemma {:induction false} SmoothedLevelBounds(qs: seq<real>, alpha: real, lo: real, hi: real)
    requires |qs| > 0 && 0.0 <= alpha <= 1.0
    requires forall i :: 0 <= i < |qs| ==> lo <= qs[i] <= hi
    ensures lo <= SmoothedLevel(qs, alpha) <= hi
    decreases |qs|
  {
    if |qs| > 1 {
      var init := qs[..|qs| - 1];
      assert forall i :: 0 <= i < |init| ==> init[i] == qs[i];
      SmoothedLevelBounds(init, alpha, lo, hi);
      Convex(alpha, qs[|qs| - 1], SmoothedLevel(init, alpha), lo, hi);
    }
  }

  /** A convex combination of two values in [lo, hi] stays in [lo, hi]. */
  lemma Convex(a: real, x: real, y: real, lo: real, hi: real)
    requires 0.0 <= a <= 1.0 && lo <= x <= hi && lo <= y <= hi
    ensures lo <= a * x + (1.0 - a) * y <= hi
  {
    MulMonotone(0.0, 0.0, a, x - lo);
    MulMonotone(0.0, 0.0, a, hi - x);
    MulMonotone(0.0, 0.0, 1.0 - a, y - lo);
    MulMonotone(0.0, 0.0, 1.0 - a, hi - y);
  }

  /** The exponential-smoothing forecast is flat and, for alpha in [0, 1], each step lies between
    * max(0, min) and max(0, max) of the history's quantities. */
  lemma ExponentialSmoothingFlat(data: seq<Observation>, periods: nat, alpha: real, lo: real, hi: real)
    requires |data| > 0 && 0.0 <= alpha <= 1.0
    requires forall i :: 0 <= i < |data| ==> lo <= data[i].quantity <= hi
    ensures var r := ExponentialSmoothingForecast(data, periods, alpha);
      (forall i, j :: 0 <= i < periods && 0 <= j < periods ==> r[i] == r[j])
      && (forall i :: 0 <= i < periods ==> Max(0.0, lo) <= r[i] <= Max(0.0, hi))
  {
    SmoothedLevelBounds(Quantities(data), alpha, lo, hi);
  }

  lemma {:induction false} SmoothedLevelOfConstant(qs: seq<real>, alpha: real, c: real)
    requires |qs| > 0
    requires forall i :: 0 <= i < |qs| ==> qs[i] == c
    ensures SmoothedLevel(qs, alpha) == c
    decreases |qs|
  {
    if |qs| > 1 {
      var init := qs[..|qs| - 1];
      assert forall i :: 0 <= i < |init| ==> init[i] == qs[i];
      SmoothedLevelOfConstant(init, alpha, c);
    }
  }

  // ---------------------------------------------------------------------------------------------
  // Weekly pattern and seasonal adjustment

  /** Sum of the quantities observed on weekday w. */
  function WeekdayTotal(data: seq<Observation>, w: int): real
  {
    if |data| == 0 then 0.0
    else
      var last := data[|data| - 1];
      WeekdayTotal(data[..|data| - 1], w) + (if DayOfWeek(last.day) == w then last.quantity else 0.0)
  }

  /** Number of observations on weekday w. */
  function WeekdayCount(data: seq<Observation>, w: int): nat
  {
    if |data| == 0 then 0
    else
      var last := data[|data| - 1];
      WeekdayCount(data[..|data| - 1], w) + (if DayOfWeek(last.day) == w then 1 else 0)
  }

  /** One entry of the weekly pattern: the weekday's average (`weeklyCounts[i] || 1` as divisor)
    * over the overall average. */
  function WeekdayRatio(total: real, count: nat, avgDaily: real): real
    requires avgDaily != 0.0
  {
    (total / AsReal(if count == 0 then 1 else count)) / avgDaily
  }

  /** What `calculateWeeklyPattern` returns: for each weekday, its average quantity over the
    * overall average. Needs a non-zero overall average; with a zero average every ratio is 0/0,
    * which `SeasonalFactor` handles. */
  function WeeklyPattern(data: seq<Observation>): (p: seq<real>)
    requires |data| > 0 && Sum(Quantities(data)) != 0.0
    ensures |p| == 7
  {
    var avgDaily := Mean(Quantities(data));
    seq(7, w => WeekdayRatio(WeekdayTotal(data, w), WeekdayCount(data, w), avgDaily))
  }

  method CalculateWeeklyPattern(data: seq<Observation>) returns (pattern: seq<real>)
    requires |data| > 0 && Sum(Quantities(data)) != 0.0
    ensures pattern == WeeklyPattern(data)
  {
    var weeklyTotals := new real[7](_ => 0.0);
    var weeklyCounts := new nat[7](_ => 0);
    var i := 0;
    while i < |data|
      invariant 0 <= i <= |data|
      invariant forall w :: 0 <= w < 7 ==> weeklyTotals[w] == WeekdayTotal(data[..i], w)
      invariant forall w :: 0 <= w < 7 ==> weeklyCounts[w] == WeekdayCount(data[..i], w)
    {
      assert data[..i + 1][..i] == data[..i];
      var dayOfWeek := DayOfWeek(data[i].day);
      weeklyTotals[dayOfWeek] := weeklyTotals[dayOfWeek] + data[i].quantity;
      weeklyCounts[dayOfWeek] := weeklyCounts[dayOfWeek] + 1;
      i := i + 1;
    }
    assert data[..|data|] == data;
    var avgDaily := Sum(Quantities(data)) / AsReal(|data|);
    pattern := seq(7, w requires 0 <= w < 7 reads weeklyTotals, weeklyCounts =>
      WeekdayRatio(weeklyTotals[w], weeklyCounts[w], avgDaily));
  }

  /** The ratios of the weekly pattern are numbers or NaN (never infinite): a zero overall sum
    * only arises from an all-zero series. Every non-negative series qualifies. */
  predicate PatternDefined(data: seq<Observation>)
  {
    Sum(Quantities(data)) == 0.0 ==> forall i :: 0 <= i < |data| ==> data[i].quantity == 0.0
  }

  lemma NonNegativePatternDefined(data: seq<Observation>)
    requires NonNegativeSeries(data)
    ensures PatternDefined(data)
  {
    if Sum(Quantities(data)) == 0.0 {
      forall k | 0 <= k < |data|
        ensures data[k].quantity == 0.0
      {
        var qs := Quantities(data);
        SumAppend(qs[..k], qs[k..]);
        assert qs[k..] == [qs[k]] + qs[k + 1..];
        SumCons(qs[k], qs[k + 1..]);
        assert qs == qs[..k] + qs[k..];
        SumNonNegative(qs[..k]);
        SumNonNegative(qs[k + 1..]);
      }
    }
  }

  /** A JavaScript number as far as the weekly pattern needs one: a real, NaN or an infinity. */
  datatype JsNumber = Num(value: real) | NaN | Infinity(positive: bool)

  /** `(total / count) / avgDaily` as JavaScript computes it, overall average 0 included: the
    * weekday total over +0 is NaN when the total is 0 as well and an infinity of its sign
    * otherwise. */
  function PatternEntry(data: seq<Observation>, w: int): JsNumber
    requires |data| > 0 && 0 <= w < 7
  {
    if Sum(Quantities(data)) != 0.0 then Num(WeeklyPattern(data)[w])
    else if WeekdayTotal(data, w) == 0.0 then NaN
    else Infinity(WeekdayTotal(data, w) > 0.0)
  }

  /** `x || 1`: 0 and NaN are falsy and become 1; any other number, infinities included, stays. */
  function OrOne(x: JsNumber): (r: JsNumber)
    ensures r == (if x == Num(0.0) || x == NaN then Num(1.0) else x)
  {
    match x
    case Num(v) => if v == 0.0 then Num(1.0) else x
    case NaN => Num(1.0)
    case Infinity(_) => x
  }

  /** `weeklyPattern[i % 7] || 1` where it is a number: a zero ratio, and the 0/0 ratios of a
    * zero overall average, become 1. */
  function SeasonalFactor(data: seq<Observation>, w: int): real
    requires |data| > 0 && 0 <= w < 7
  {
    if Sum(Quantities(data)) == 0.0 then 1.0
    else
      var f := WeeklyPattern(data)[w];
      if f == 0.0 then 1.0 else f
  }

  /** The model's factor is the source's `weeklyPattern[w] || 1` whenever that is a number; it is
    * an infinity exactly when the quantities cancel to a zero sum while weekday w's total does
    * not; and a series whose zero sum means all zeros (every non-negative one) never gives one. */
  lemma SeasonalFactorIsPatternOrOne(data: seq<Observation>, w: int)
    requires |data| > 0 && 0 <= w < 7
    ensures OrOne(PatternEntry(data, w)).Num? ==> SeasonalFactor(data, w) == OrOne(PatternEntry(data, w)).value
    ensures OrOne(PatternEntry(data, w)).Infinity? <==> Sum(Quantities(data)) == 0.0 && WeekdayTotal(data, w) != 0.0
    ensures PatternDefined(data) ==> OrOne(PatternEntry(data, w)).Num?
  {
    if PatternDefined(data) && Sum(Quantities(data)) == 0.0 {
      ConstantWeekdayTotal(data, w, 0.0);
    }
  }

  /** With non-negative quantities every factor is the source's, a real number. */
  lemma NonNegativeSeasonalFactor(data: seq<Observation>, w: int)
    requires |data| > 0 && 0 <= w < 7 && NonNegativeSeries(data)
    ensures OrOne(PatternEntry(data, w)).Num? && SeasonalFactor(data, w) == OrOne(PatternEntry(data, w)).value
  {
    NonNegativePatternDefined(data);
    SeasonalFactorIsPatternOrOne(data, w);
  }

  /** The seven factors, Sunday first. */
  function SeasonalFactors(data: seq<Observation>): (f: seq<real>)
    requires |data| > 0
    ensures |f| == 7
  {
    seq(7, w requires 0 <= w < 7 => SeasonalFactor(data, w))
  }

  /** One step of the seasonal map: base * factor, clamped at 0. */
  function Scaled(base: real, factor: real): (s: real)
    ensures s >= 0.0
  {
    Max(0.0, base * factor)
  }

  /** `basePredictions.map(...)`: step i scaled by the factor of slot i mod 7, clamped at 0. */
  function Adjusted(base: seq<real>, factors: seq<real>): (r: seq<real>)
    requires |factors| == 7
    ensures |r| == |base|
    ensures forall i :: 0 <= i < |r| ==> r[i] >= 0.0
  {
    seq(|base|, i requires 0 <= i < |base| => Scaled(base[i], factors[i % 7]))
  }

  /** What `seasonalAdjustment` returns: below 7 points the moving average; otherwise the
    * moving average adjusted by the seasonal factors. */
  function SeasonalAdjustment(data: seq<Observation>, periods: nat): (r: seq<real>)
    requires |data| > 0
    ensures |r| == periods
  {
    if |data| < 7 then MovingAverageForecast(data, periods, DefaultWindow)
    else Adjusted(MovingAverageForecast(data, periods, DefaultWindow), SeasonalFactors(data))
  }

  /** A weekday slot that was never observed has ratio 0/1/avg = 0, which `|| 1` turns into 1: the
    * step keeps its moving-average value (clamped at 0). */
  lemma UnobservedWeekdayKeepsBase(data: seq<Observation>, periods: nat, i: nat)
    requires |data| >= 7 && i < periods
    requires WeekdayCount(data, i % 7) == 0
    ensures SeasonalAdjustment(data, periods)[i] == Max(0.0, MovingAverageForecast(data, periods, DefaultWindow)[i])
  {
    var base := MovingAverageForecast(data, periods, DefaultWindow);
    var factors := SeasonalFactors(data);
    UnobservedFactorIsOne(data, i % 7);
    assert factors[i % 7] == 1.0;
    assert SeasonalAdjustment(data, periods) == Adjusted(base, factors);
    AdjustedByOne(base, factors, i);
  }

  /** A step whose factor is 1 keeps its base value, clamped at 0. */
  lemma AdjustedByOne(base: seq<real>, factors: seq<real>, i: nat)
    requires |factors| == 7 && i < |base| && factors[i % 7] == 1.0
    ensures Adjusted(base, factors)[i] == Max(0.0, base[i])
  {
    assert Adjusted(base, factors)[i] == Scaled(base[i], factors[i % 7]);
  }

  lemma UnobservedFactorIsOne(data: seq<Observation>, w: int)
    requires |data| > 0 && 0 <= w < 7 && WeekdayCount(data, w) == 0
    ensures SeasonalFactor(data, w) == 1.0
  {
    UnobservedTotalZero(data, w);
    if Sum(Quantities(data)) != 0.0 {
      var avg := Mean(Quantities(data));
      assert WeeklyPattern(data)[w] == WeekdayRatio(0.0, 0, avg);
      ZeroRatio(avg);
    }
  }

  lemma ZeroRatio(avg: real)
    requires avg != 0.0
    ensures WeekdayRatio(0.0, 0, avg) == 0.0
  {
  }

  lemma {:induction false} UnobservedTotalZero(data: seq<Observation>, w: int)
    requires WeekdayCount(data, w) == 0
    ensures WeekdayTotal(data, w) == 0.0
    decreases |data|
  {
    if |data| > 0 {
      UnobservedTotalZero(data[..|data| - 1], w);
    }
  }

  lemma {:induction false} ConstantWeekdayTotal(data: seq<Observation>, w: int, c: real)
    requires forall i :: 0 <= i < |data| ==> data[i].quantity == c
    ensures WeekdayTotal(data, w) == c * (WeekdayCount(data, w) as real)
    decreases |data|
  {
    if |data| > 0 {
      var init := data[..|data| - 1];
      assert forall i :: 0 <= i < |init| ==> init[i] == data[i];
      ConstantWeekdayTotal(init, w, c);
    }
  }

  /** The mean of a constant series is that constant. */
  lemma MeanOfConstant(qs: seq<real>, c: real)
    requires |qs| > 0
    requires forall i :: 0 <= i < |qs| ==> qs[i] == c
    ensures Sum(qs) == AsReal(|qs|) * c
    ensures Mean(qs) == c
  {
    SumConstant(qs, c);
    DivCancel(AsReal(|qs|), c);
  }

  /** A weekday observed `count` times in a constant series c != 0 has ratio 1 (0 if unobserved). */
  lemma ConstantRatio(total: real, count: nat, c: real)
    requires c != 0.0 && total == c * (count as real)
    ensures WeekdayRatio(total, count, c) == if count == 0 then 0.0 else 1.0
  {
    if count == 0 {
      assert total == 0.0;
    } else {
      AsRealIsCast(count);
      DivCancel(count as real, c);
      assert total == (count as real) * c;
      assert total / AsReal(count) == c;
      assert WeekdayRatio(total, count, c) == c / c;
      assert c / c == 1.0;
    }
  }

  /** A constant history has no seasonality: every factor is 1. */
  lemma SeasonalFactorOfConstant(data: seq<Observation>, w: int, c: real)
    requires |data| > 0 && 0 <= w < 7
    requires forall i :: 0 <= i < |data| ==> data[i].quantity == c
    ensures SeasonalFactor(data, w) == 1.0
  {
    MeanOfConstant(Quantities(data), c);
    if Sum(Quantities(data)) != 0.0 {
      ConstantWeekdayTotal(data, w, c);
      assert WeeklyPattern(data)[w] == WeekdayRatio(WeekdayTotal(data, w), WeekdayCount(data, w), c);
      ConstantRatio(WeekdayTotal(data, w), WeekdayCount(data, w), c);
    }
  }

  /** Scaling a flat non-negative sequence by factors that are all 1 leaves it unchanged. */
  lemma AdjustedByOnes(c: real, periods: nat, factors: seq<real>)
    requires c >= 0.0 && |factors| == 7
    requires forall w :: 0 <= w < 7 ==> factors[w] == 1.0
    ensures Adjusted(Flat(c, periods), factors) == Flat(c, periods)
  {
    var r := Adjusted(Flat(c, periods), factors);
    forall i | 0 <= i < periods
      ensures r[i] == c
    {
      assert r[i] == Scaled(c, factors[i % 7]);
    }
  }

  /** A constant non-negative history of at least 7 points forecasts that constant. */
  lemma SeasonalOfConstant(data: seq<Observation>, periods: nat, c: real)
    requires |data| >= 7 && c >= 0.0
    requires forall i :: 0 <= i < |data| ==> data[i].quantity == c
    ensures SeasonalAdjustment(data, periods) == Flat(c, periods)
  {
    MovingAverageOfConstant(data, periods, DefaultWindow, c);
    var factors := SeasonalFactors(data);
    forall w | 0 <= w < 7
      ensures factors[w] == 1.0
    {
      SeasonalFactorOfConstant(data, w, c);
    }
    AdjustedByOnes(c, periods, factors);
  }

  // ---------------------------------------------------------------------------------------------
  // Volatility (as its square) and the ensemble weights

  function Deviations(qs: seq<real>, mean: real): (d: seq<real>)
    ensures |d| == |qs|
    ensures forall i :: 0 <= i < |qs| ==> d[i] == Square(qs[i] - mean)
  {
    seq(|qs|, i requires 0 <= i < |qs| => Square(qs[i] - mean))
  }

  /** The square of `calculateVolatility` (population standard deviation over the mean): 0 below
    * two points or when the mean is not positive, otherwise variance / mean^2, never negative. */
  function VolatilitySquared(data: seq<Observation>): (v: real)
    ensures v >= 0.0
    ensures (|data| < 2 || Sum(Quantities(data)) <= 0.0) ==> v == 0.0
  {
    if |data| < 2 then 0.0
    else
      var qs := Quantities(data);
      var n := AsReal(|data|);
      var mean := Sum(qs) / n;
      var variance := Sum(Deviations(qs, mean)) / n;
      SumNonNegative(Deviations(qs, mean));
      DivSigns(Sum(qs), n);
      DivSigns(Sum(Deviations(qs, mean)), n);
      if mean > 0.0 then
        DivSigns(variance, mean * mean);
        variance / (mean * mean)
      else 0.0
  }

  /** Any volatility v >= 0 with v^2 = VolatilitySquared exceeds 0.3 exactly when the square
    * exceeds 0.09, so the threshold can be tested on the square. */
  lemma HighVolatilityBySquare(data: seq<Observation>, v: real)
    requires v >= 0.0 && v * v == VolatilitySquared(data)
    ensures v > 0.3 <==> VolatilitySquared(data) > 0.09
  {
    if v > 0.3 {
      assert v * v > 0.3 * 0.3 by { MulMonotone(0.3, 0.3, v, v); assert v * v >= 0.3 * v; }
    } else {
      MulMonotone(v, v, 0.3, 0.3);
    }
  }

  /** A constant series has volatility 0. */
  lemma VolatilityOfConstant(data: seq<Observation>, c: real)
    requires forall i :: 0 <= i < |data| ==> data[i].quantity == c
    ensures VolatilitySquared(data) == 0.0
  {
    if |data| >= 2 {
      var qs := Quantities(data);
      MeanOfConstant(qs, c);
      var d := Deviations(qs, c);
      forall i | 0 <= i < |d|
        ensures d[i] == 0.0
      {
        assert qs[i] == data[i].quantity == c;
        assert d[i] == Square(0.0);
      }
      SumConstant(d, 0.0);
    }
  }

  /** `calculateWeights`, given the outcome of its three tests. Each adjustment moves weight
    * between methods without changing the total, so the weights sum to 1 in exact arithmetic,
    * and no weight falls below 0.05 under any combination. */
  function AdjustedWeights(strongTrend: bool, highVolatility: bool, longSeries: bool): (w: Weights)
    ensures w.ma + w.lr + w.es + w.sa == 1.0
    ensures w.ma >= 0.05 && w.lr >= 0.05 && w.es >= 0.05 && w.sa >= 0.05
  {
    var w0 := Weights(0.3, 0.3, 0.2, 0.2);
    var w1 := if strongTrend then w0.(lr := w0.lr + 0.2, ma := w0.ma - 0.1, es := w0.es - 0.1) else w0;
    var w2 := if highVolatility then w1.(es := w1.es + 0.2, lr := w1.lr - 0.1, ma := w1.ma - 0.1) else w1;
    if longSeries then w2.(sa := w2.sa + 0.1, ma := w2.ma - 0.05, lr := w2.lr - 0.05) else w2
  }

  /** The three tests of `calculateWeights`: |trend| > 0.5, volatility > 0.3 (on the square), n >= 14. */
  function WeightsFor(data: seq<Observation>): Weights
  {
    var trend := CalculateTrend(data);
    var absTrend := if trend < 0.0 then -trend else trend;
    AdjustedWeights(absTrend > 0.5, VolatilitySquared(data) > 0.09, |data| >= 14)
  }

  method CalculateWeights(data: seq<Observation>) returns (w: Weights)
    ensures w == WeightsFor(data)
    ensures w.ma + w.lr + w.es + w.sa == 1.0
  {
    var n := |data|;
    var t := CalculateTrend(data);
    var trend := if t < 0.0 then -t else t;
    var volatilitySquared := VolatilitySquared(data);
    var maWeight, lrWeight, esWeight, saWeight := 0.3, 0.3, 0.2, 0.2;
    if trend > 0.5 {
      lrWeight := lrWeight + 0.2;
      maWeight := maWeight - 0.1;
      esWeight := esWeight - 0.1;
    }
    if volatilitySquared > 0.09 {
      esWeight := esWeight + 0.2;
      lrWeight := lrWeight - 0.1;
      maWeight := maWeight - 0.1;
    }
    if n >= 14 {
      saWeight := saWeight + 0.1;
      maWeight := maWeight - 0.05;
      lrWeight := lrWeight - 0.05;
    }
    w := Weights(maWeight, lrWeight, esWeight, saWeight);
  }

  /** With all three adjustments applied the weights are 0.05, 0.35, 0.3, 0.3: additive, not renormalised. */
  lemma AllAdjustmentsApplied()
    ensures AdjustedWeights(true, true, true) == Weights(0.05, 0.35, 0.3, 0.3)
  {
  }

  // ---------------------------------------------------------------------------------------------
  // Ensemble

  /** The weighted sum of one step of the four forecasts, clamped at 0. */
  function Blended(ma: real, lr: real, es: real, sa: real, w: Weights): (b: real)
    ensures b >= 0.0
  {
    Max(0.0, ma * w.ma + lr * w.lr + es * w.es + sa * w.sa)
  }

  /** The combining step of `advancedPrediction`: each step blended from the four forecasts. */
  function Combine(ma: seq<real>, lr: seq<real>, es: seq<real>, sa: seq<real>, w: Weights): (r: seq<real>)
    requires |lr| == |ma| && |es| == |ma| && |sa| == |ma|
    ensures |r| == |ma|
    ensures forall i :: 0 <= i < |r| ==> r[i] >= 0.0
  {
    seq(|ma|, i requires 0 <= i < |ma| => Blended(ma[i], lr[i], es[i], sa[i], w))
  }

  /** What `advancedPrediction` returns: below 7 points the moving average; otherwise the four
    * base forecasts combined with the weights of the history. */
  function AdvancedForecast(data: seq<Observation>, periods: nat): (r: seq<real>)
    requires |data| > 0
    ensures |r| == periods
  {
    if |data| < 7 then MovingAverageForecast(data, periods, DefaultWindow)
    else
      Combine(MovingAverageForecast(data, periods, DefaultWindow), LinearRegressionForecast(data, periods),
              ExponentialSmoothingForecast(data, periods, DefaultAlpha), SeasonalAdjustment(data, periods),
              WeightsFor(data))
  }

  method AdvancedPrediction(data: seq<Observation>, periods: nat) returns (predictions: seq<real>)
    requires |data| > 0
    ensures predictions == AdvancedForecast(data, periods)
  {
    if |data| < 7 {
      predictions := MovingAverage(data, periods, DefaultWindow);
      return;
    }
    var maPred := MovingAverage(data, periods, DefaultWindow);
    var lrPred := LinearRegression(data, periods);
    var esPred := ExponentialSmoothing(data, periods, DefaultAlpha);
    var saPred := SeasonalAdjustment(data, periods);
    var weights := CalculateWeights(data);
    predictions := Blend(maPred, lrPred, esPred, saPred, weights);
  }

  /** The combining loop of `advancedPrediction`. */
  method Blend(ma: seq<real>, lr: seq<real>, es: seq<real>, sa: seq<real>, w: Weights) returns (predictions: seq<real>)
    requires |lr| == |ma| && |es| == |ma| && |sa| == |ma|
    ensures predictions == Combine(ma, lr, es, sa, w)
  {
    predictions := [];
    var i := 0;
    while i < |ma|
      invariant 0 <= i <= |ma|
      invariant |predictions| == i
      invariant forall j :: 0 <= j < i ==> predictions[j] == Blended(ma[j], lr[j], es[j], sa[j], w)
    {
      var combined := ma[i] * w.ma + lr[i] * w.lr + es[i] * w.es + sa[i] * w.sa;
      predictions := predictions + [Max(0.0, combined)];
      i := i + 1;
    }
    assert forall j :: 0 <= j < |ma| ==> predictions[j] == Combine(ma, lr, es, sa, w)[j];
  }

  /** Combining four copies of the same flat non-negative forecast with weights that sum to 1
    * gives that forecast back. */
  lemma CombineFlat(c: real, periods: nat, w: Weights)
    requires c >= 0.0 && w.ma + w.lr + w.es + w.sa == 1.0
    ensures var f := Flat(c, periods); Combine(f, f, f, f, w) == f
  {
    var f := Flat(c, periods);
    forall i | 0 <= i < periods
      ensures Combine(f, f, f, f, w)[i] == c
    {
      BlendedOfEqual(c, w);
    }
  }

  lemma BlendedOfEqual(c: real, w: Weights)
    requires c >= 0.0 && w.ma + w.lr + w.es + w.sa == 1.0
    ensures Blended(c, c, c, c, w) == c
  {
    assert c * w.ma + c * w.lr + c * w.es + c * w.sa == c * (w.ma + w.lr + w.es + w.sa);
  }

  /** A constant non-negative history of at least 7 points: all four base forecasts are that
    * constant, and since the weights sum to 1 so is the ensemble. */
  lemma EnsembleOfConstant(data: seq<Observation>, periods: nat, c: real)
    requires |data| >= 7 && c >= 0.0
    requires forall i :: 0 <= i < |data| ==> data[i].quantity == c
    ensures AdvancedForecast(data, periods) == Flat(c, periods)
  {
    MovingAverageOfConstant(data, periods, DefaultWindow, c);
    LinearRegressionOfConstant(data, periods, c);
    SmoothedLevelOfConstant(Quantities(data), DefaultAlpha, c);
    assert ExponentialSmoothingForecast(data, periods, DefaultAlpha) == Flat(c, periods);
    SeasonalOfConstant(data, periods, c);
    CombineFlat(c, periods, WeightsFor(data));
  }

  // ---------------------------------------------------------------------------------------------
  // Stock-out simulation

  /** `slice(i, i + 7)` clamps its end to the length. */
  function WeekEnd(i: nat, n: nat): nat
  {
    if i + 7 <= n then i + 7 else n
  }

  /** The first day d (1-based, after day i) at which the running stock
    * `currentStock - Sum(predictions[..d])` is at most 0, if there is one. */
  function FirstStockOut(currentStock: real, predictions: seq<real>, i: nat): (d: Option<nat>)
    requires i <= |predictions|
    ensures d.Some? ==> i < d.value <= |predictions|
    decreases |predictions| - i
  {
    if i == |predictions| then None
    else if currentStock - Sum(predictions[..i + 1]) <= 0.0 then Some(i + 1)
    else FirstStockOut(currentStock, predictions, i + 1)
  }

  /** What `predictStockOut` returns: the first day the stock runs out, with the ceiling of the
    * (up to) 7 forecasts from that day on; if it never does, none and the ceiling of the first
    * week's forecasts. The returned `date` is `Date.now()` plus those days, left out. */
  function StockOutOf(currentStock: real, predictions: seq<real>): StockOut
  {
    var n := |predictions|;
    match FirstStockOut(currentStock, predictions, 0)
    case Some(d) => StockOut(Some(d), Ceil(Sum(predictions[d - 1..WeekEnd(d - 1, n)])))
    case None => StockOut(None, Ceil(Sum(predictions[..WeekEnd(0, n)])))
  }

  /** Day d is reported exactly when the running stock first reaches 0 on day d; none is
    * reported exactly when it stays positive over the whole horizon. */
  lemma {:induction false} FirstStockOutIsFirst(currentStock: real, predictions: seq<real>, i: nat)
    requires i <= |predictions|
    requires forall j :: 1 <= j <= i ==> currentStock - Sum(predictions[..j]) > 0.0
    ensures var d := FirstStockOut(currentStock, predictions, i);
      (d.Some? ==>
        currentStock - Sum(predictions[..d.value]) <= 0.0
        && (forall j :: 1 <= j < d.value ==> currentStock - Sum(predictions[..j]) > 0.0))
      && (d.None? ==> forall j :: 1 <= j <= |predictions| ==> currentStock - Sum(predictions[..j]) > 0.0)
    decreases |predictions| - i
  {
    if i < |predictions| && currentStock - Sum(predictions[..i + 1]) > 0.0 {
      FirstStockOutIsFirst(currentStock, predictions, i + 1);
    }
  }

  /** `predictStockOut` as a first-crossing search: a reported day d lies within the horizon, the
    * stock is gone on day d and on no earlier day, and the restock covers the week from d; with
    * none reported the stock lasts the whole horizon and the restock covers the first week. */
  lemma StockOutFirstCrossing(currentStock: real, predictions: seq<real>)
    ensures var r := StockOutOf(currentStock, predictions);
      (r.daysUntilStockOut.Some? ==>
        var d := r.daysUntilStockOut.value;
        1 <= d <= |predictions|
        && currentStock - Sum(predictions[..d]) <= 0.0
        && (forall j :: 1 <= j < d ==> currentStock - Sum(predictions[..j]) > 0.0)
        && r.recommendedRestock == Ceil(Sum(predictions[d - 1..WeekEnd(d - 1, |predictions|)])))
      && (r.daysUntilStockOut.None? ==>
        (forall j :: 1 <= j <= |predictions| ==> currentStock - Sum(predictions[..j]) > 0.0)
        && r.recommendedRestock == Ceil(Sum(predictions[..WeekEnd(0, |predictions|)])))
  {
    FirstStockOutIsFirst(currentStock, predictions, 0);
  }

  method PredictStockOut(currentStock: real, predictions: seq<real>) returns (r: StockOut)
    ensures r == StockOutOf(currentStock, predictions)
  {
    var runningStock := currentStock;
    var i := 0;
    while i < |predictions|
      invariant 0 <= i <= |predictions|
      invariant runningStock == currentStock - Sum(predictions[..i])
      invariant FirstStockOut(currentStock, predictions, i) == FirstStockOut(currentStock, predictions, 0)
    {
      assert predictions[..i + 1][..i] == predictions[..i];
      runningStock := runningStock - predictions[i];
      if runningStock <= 0.0 {
        var restock := Ceil(Sum(predictions[i..WeekEnd(i, |predictions|)]));
        return StockOut(Some(i + 1), restock);
      }
      i := i + 1;
    }
    r := StockOut(None, Ceil(Sum(predictions[..WeekEnd(0, |predictions|)])));
  }
}
