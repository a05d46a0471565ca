/** The pure logic of routes/predictionRoutes.js: reading the query parameters, choosing the
  * forecasting model, rounding the forecasts into days, the stock-alert tier, the confidence
  * score, the alert-only filter and the dashboard summary. */
module Routes {
  import opened Wrappers
  import opened RealMath
  import opened Calendar
  import Forecast
  import opened Aggregation

  // ---------------------------------------------------------------------------------------------
  // The `method` query parameter

  /** `toLowerCase` on one character; letters outside ASCII are left as they are. */
  function LowerChar(c: char): char
  {
    if 'A' <= c <= 'Z' then (c as int + 32) as char else c
  }

  function Lower(s: string): (r: string)
    ensures |r| == |s|
    ensures forall i :: 0 <= i < |s| ==> r[i] == LowerChar(s[i])
  {
    seq(|s|, i requires 0 <= i < |s| => LowerChar(s[i]))
  }

  /** Lower-casing twice is lower-casing once. */
  lemma LowerIdempotent(s: string)
    ensures Lower(Lower(s)) == Lower(s)
  {
  }

  /** The five forecasting models a route can run. */
  datatype Model = MovingAverageModel | LinearRegressionModel | ExponentialSmoothingModel | SeasonalModel | AdvancedModel

  /** The name a query uses for each model. */
  function ModelName(m: Model): string
  {
    match m
    case MovingAverageModel => "moving_average"
    case LinearRegressionModel => "linear_regression"
    case ExponentialSmoothingModel => "exponential_smoothing"
    case SeasonalModel => "seasonal"
    case AdvancedModel => "advanced"
  }

  /** `(q || fallback).toLowerCase()`: a missing or empty parameter takes the fallback. */
  function MethodName(query: Option<string>, fallback: string): string
  {
    Lower(if query.None? || query.value == "" then fallback else query.value)
  }

  /** The switch of the product route: the four named models, and advanced for 'advanced',
    * for a missing parameter and for any other name. */
  function ProductModel(query: Option<string>): Model
  {
    var name := MethodName(query, "advanced");
    if name == "moving_average" then MovingAverageModel
    else if name == "linear_regression" then LinearRegressionModel
    else if name == "exponential_smoothing" then ExponentialSmoothingModel
    else if name == "seasonal" then SeasonalModel
    else AdvancedModel
  }

  /** The switch of the category route: it has no advanced case, so 'advanced', a missing
    * parameter and any other name all run the seasonal model. */
  function CategoryModel(query: Option<string>): (m: Model)
    ensures m != AdvancedModel
  {
    var name := MethodName(query, "seasonal");
    if name == "moving_average" then MovingAverageModel
    else if name == "linear_regression" then LinearRegressionModel
    else if name == "exponential_smoothing" then ExponentialSmoothingModel
    else SeasonalModel
  }

  lemma LowerOfNames(m: Model)
    ensures Lower(ModelName(m)) == ModelName(m)
  {
    var n := ModelName(m);
    assert forall i :: 0 <= i < |n| ==> LowerChar(n[i]) == n[i];
  }

  /** Each model's own name selects it on the product route, and a missing parameter selects
    * the advanced model. */
  lemma ProductModelByName(m: Model)
    ensures ProductModel(Some(ModelName(m))) == m
    ensures ProductModel(None) == AdvancedModel
  {
    LowerOfNames(m);
    LowerOfNames(AdvancedModel);
  }

  /** Each model but advanced is selected by its name on the category route; 'advanced' and a
    * missing parameter select the seasonal model. */
  lemma CategoryModelByName(m: Model)
    ensures m != AdvancedModel ==> CategoryModel(Some(ModelName(m))) == m
    ensures CategoryModel(Some(ModelName(AdvancedModel))) == SeasonalModel
    ensures CategoryModel(None) == SeasonalModel
  {
    LowerOfNames(m);
    LowerOfNames(AdvancedModel);
    LowerOfNames(SeasonalModel);
  }

  /** The parameter is read without regard to case. */
  lemma ModelIgnoresCase(s: string)
    requires s != ""
    ensures ProductModel(Some(s)) == ProductModel(Some(Lower(s)))
    ensures CategoryModel(Some(s)) == CategoryModel(Some(Lower(s)))
  {
    LowerIdempotent(s);
  }

  // ---------------------------------------------------------------------------------------------
  // The `periods` query parameter

  predicate IsDigit(c: char)
  {
    '0' <= c <= '9'
  }

  /** The white space `parseInt` skips: the ASCII spaces and line breaks, no-break space, the
    * byte-order mark, the Unicode space separators and the line and paragraph separators. */
  predicate IsSpace(c: char)
  {
    c == ' ' || c == '\t' || c == '\n' || c == '\r' || c == '\U{000B}' || c == '\U{000C}'
    || c == '\U{00A0}' || c == '\U{FEFF}' || c == '\U{1680}' || ('\U{2000}' <= c <= '\U{200A}')
    || c == '\U{2028}' || c == '\U{2029}' || c == '\U{202F}' || c == '\U{205F}' || c == '\U{3000}'
  }

  function SkipSpaces(s: string): (r: string)
    ensures |r| <= |s| && r == s[|s| - |r|..]
    ensures |r| > 0 ==> !IsSpace(r[0])
  {
    if |s| > 0 && IsSpace(s[0]) then SkipSpaces(s[1..]) else s
  }

  /** The length of the run of digits s starts with. */
  function DigitRun(s: string): (n: nat)
    ensures n <= |s|
    ensures forall i :: 0 <= i < n ==> IsDigit(s[i])
    ensures n < |s| ==> !IsDigit(s[n])
  {
    if |s| == 0 || !IsDigit(s[0]) then 0 else 1 + DigitRun(s[1..])
  }

  function DigitValue(c: char): nat
    requires IsDigit(c)
  {
    c as int - '0' as int
  }

  /** The number a run of decimal digits denotes, read left to right. */
  function DigitsValue(ds: string): nat
    requires forall i :: 0 <= i < |ds| ==> IsDigit(ds[i])
  {
    if |ds| == 0 then 0 else DigitsValue(ds[..|ds| - 1]) * 10 + DigitValue(ds[|ds| - 1])
  }

  /** `parseInt(s, 10)`: leading white space, an optional sign, then the longest run of
    * digits; anything after it is ignored. None stands for NaN, when there is no digit. */
  function ParseInt(s: string): Option<int>
  {
    var t := SkipSpaces(s);
    var negative := |t| > 0 && t[0] == '-';
    var body := if |t| > 0 && (t[0] == '-' || t[0] == '+') then t[1..] else t;
    var n := DigitRun(body);
    if n == 0 then None
    else
      var v: int := DigitsValue(body[..n]);
      Some(if negative then -v else v)
  }

  /** `Math.max(1, Math.min(60, v))`. */
  function Clamp(v: int): (p: nat)
    ensures 1 <= p <= 60
    ensures 1 <= v <= 60 ==> p == v
    ensures v < 1 ==> p == 1
    ensures v > 60 ==> p == 60
  {
    MaxInt(1, MinInt(60, v))
  }

  /** `Math.max(1, Math.min(60, parseInt(q || '7', 10)))`. None when `parseInt` gives NaN:
    * both clamps pass NaN through. */
  function Horizon(query: Option<string>): (p: Option<nat>)
    ensures p.Some? ==> 1 <= p.value <= 60
  {
    var text := if query.None? || query.value == "" then "7" else query.value;
    match ParseInt(text)
    case None => None
    case Some(v) => Some(Clamp(v))
  }

  /** The decimal digits of n, a reference encoding for the parser. */
  function Decimal(n: nat): (s: string)
    ensures |s| > 0 && forall i :: 0 <= i < |s| ==> IsDigit(s[i])
  {
    if n < 10 then [('0' as int + n) as char] else Decimal(n / 10) + [('0' as int + n % 10) as char]
  }

  lemma {:induction false} DecimalValue(n: nat)
    ensures DigitsValue(Decimal(n)) == n
  {
    if n >= 10 {
      DecimalValue(n / 10);
      var s := Decimal(n);
      assert s[..|s| - 1] == Decimal(n / 10);
    }
  }

  lemma {:induction false} DigitRunOfDigits(ds: string, rest: string)
    requires forall i :: 0 <= i < |ds| ==> IsDigit(ds[i])
    requires rest == [] || !IsDigit(rest[0])
    ensures DigitRun(ds + rest) == |ds|
    decreases |ds|
  {
    if |ds| > 0 {
      assert (ds + rest)[1..] == ds[1..] + rest;
      DigitRunOfDigits(ds[1..], rest);
    } else {
      assert ds + rest == rest;
    }
  }

  /** Text that starts with a digit is read as its leading run of digits. */
  lemma ParseFromDigit(s: string)
    requires |s| > 0 && IsDigit(s[0])
    ensures ParseInt(s) == Some(DigitsValue(s[..DigitRun(s)]))
  {
    assert !IsSpace(s[0]) && s[0] != '-' && s[0] != '+';
    assert SkipSpaces(s) == s;
  }

  /** `parseInt` reads back any decimal numeral, whatever non-digit text follows it. */
  lemma ParseDecimal(n: nat, rest: string)
    requires rest == [] || !IsDigit(rest[0])
    ensures ParseInt(Decimal(n) + rest) == Some(n)
  {
    var d := Decimal(n);
    var s := d + rest;
    assert s[0] == d[0];
    ParseFromDigit(s);
    DigitRunOfDigits(d, rest);
    assert s[..|d|] == d;
    DecimalValue(n);
  }

  /** A missing or empty parameter gives 7 periods. */
  lemma HorizonDefault()
    ensures Horizon(None) == Some(7) && Horizon(Some("")) == Some(7)
  {
    ParseDecimal(7, []);
    assert Decimal(7) + [] == "7";
  }

  /** A numeral n, whatever non-digit text follows it, gives n clamped to [1, 60]. */
  lemma HorizonOfNumeral(n: nat, junk: string)
    requires junk == [] || !IsDigit(junk[0])
    ensures Horizon(Some(Decimal(n) + junk)) == Some(Clamp(n))
  {
    ParseDecimal(n, junk);
  }

  /** Text without any digit is NaN, and so is the horizon it asks for. */
  lemma NoDigitsNaN(s: string)
    requires forall i :: 0 <= i < |s| ==> !IsDigit(s[i])
    ensures ParseInt(s) == None
    ensures s != "" ==> Horizon(Some(s)) == None
  {
    var t := SkipSpaces(s);
    assert |t| > 0 ==> !IsDigit(t[0]);
    if |t| > 1 {
      assert t[1] == s[|s| - |t| + 1];
    }
  }

  // ---------------------------------------------------------------------------------------------
  // The forecasts a route shows

  /** The series of the chosen model (window 7, alpha 0.3 as the routes call them). None stands
    * for the all-NaN series an empty history gives the models that start from its mean
    * (0 / 0). */
  function Series(m: Model, data: seq<Forecast.Observation>, periods: nat): (r: Option<seq<real>>)
    ensures r.Some? ==> |r.value| == periods
    ensures r.None? <==> |data| == 0 && m != LinearRegressionModel && m != ExponentialSmoothingModel
  {
    match m
    case MovingAverageModel =>
      if |data| == 0 then None else Some(Forecast.MovingAverageForecast(data, periods, Forecast.DefaultWindow))
    case LinearRegressionModel => Some(Forecast.LinearRegressionForecast(data, periods))
    case ExponentialSmoothingModel => Some(Forecast.ExponentialSmoothingForecast(data, periods, Forecast.DefaultAlpha))
    case SeasonalModel => if |data| == 0 then None else Some(Forecast.SeasonalAdjustment(data, periods))
    case AdvancedModel => if |data| == 0 then None else Some(Forecast.AdvancedForecast(data, periods))
  }

  /** One forecast day: `{ day: i + 1, predictedSales: Math.round(q) }`. */
  datatype DayForecast = DayForecast(day: nat, predictedSales: int)

  /** The forecast as days 1, 2, ... with each value rounded to the nearest integer. */
  function NextDays(series: seq<real>): (next: seq<DayForecast>)
    ensures |next| == |series|
    ensures forall i :: 0 <= i < |series| ==>
      next[i].day == i + 1 && series[i] - 0.5 < next[i].predictedSales as real <= series[i] + 0.5
  {
    seq(|series|, i requires 0 <= i < |series| => DayForecast(i + 1, Round(series[i])))
  }

  /** The rounded sales the stock-out simulation is run on. */
  function Predicted(next: seq<DayForecast>): (qs: seq<real>)
    ensures |qs| == |next|
    ensures forall i :: 0 <= i < |next| ==> qs[i] == next[i].predictedSales as real
  {
    seq(|next|, i requires 0 <= i < |next| => next[i].predictedSales as real)
  }

  /** A non-negative forecast rounds to non-negative sales. */
  lemma RoundedNonNegative(series: seq<real>)
    requires forall i :: 0 <= i < |series| ==> series[i] >= 0.0
    ensures forall i :: 0 <= i < |series| ==> Predicted(NextDays(series))[i] >= 0.0
  {
  }

  // ---------------------------------------------------------------------------------------------
  // The alert tier and the confidence score

  datatype Alert = Good | Info | Warning | Critical

  /** The tier of the product route: critical when the stock runs out within 7 days, warning
    * within 14, info when the stock is below 15 days of average sales, good otherwise.
    * (`daysUntilStockOut && ...` also fails on 0, which a reported day never is.) */
  function AlertLevel(daysUntilStockOut: Option<nat>, stock: real, avgDailySales: real): Alert
  {
    if daysUntilStockOut.Some? && daysUntilStockOut.value != 0 && daysUntilStockOut.value <= 7 then Critical
    else if daysUntilStockOut.Some? && daysUntilStockOut.value != 0 && daysUntilStockOut.value <= 14 then Warning
    else if stock < avgDailySales * 15.0 then Info
    else Good
  }

  /** The running stock after j days of the rounded forecast is at most 0. */
  predicate RunsOutBy(stock: real, sales: seq<real>, j: nat)
  {
    1 <= j <= |sales| && stock - Sum(sales[..j]) <= 0.0
  }

  /** Critical exactly when the stock runs out on one of the first 7 forecast days. */
  lemma CriticalIffRunsOutInAWeek(stock: real, sales: seq<real>, avgDailySales: real)
    ensures AlertLevel(Forecast.StockOutOf(stock, sales).daysUntilStockOut, stock, avgDailySales) == Critical
      <==> exists j :: 1 <= j <= 7 && RunsOutBy(stock, sales, j)
  {
    Forecast.StockOutFirstCrossing(stock, sales);
    var d := Forecast.StockOutOf(stock, sales).daysUntilStockOut;
    if d.Some? {
      assert RunsOutBy(stock, sales, d.value);
    }
  }

  /** Warning exactly when the stock lasts the first week but runs out by day 14; so a horizon
    * of at most 7 days never warns. */
  lemma WarningIffRunsOutInTwoWeeks(stock: real, sales: seq<real>, avgDailySales: real)
    ensures AlertLevel(Forecast.StockOutOf(stock, sales).daysUntilStockOut, stock, avgDailySales) == Warning
      <==> (forall j :: 1 <= j <= 7 ==> !RunsOutBy(stock, sales, j)) && exists j :: 8 <= j <= 14 && RunsOutBy(stock, sales, j)
    ensures |sales| <= 7 ==> AlertLevel(Forecast.StockOutOf(stock, sales).daysUntilStockOut, stock, avgDailySales) != Warning
  {
    Forecast.StockOutFirstCrossing(stock, sales);
    var d := Forecast.StockOutOf(stock, sales).daysUntilStockOut;
    if d.Some? {
      assert RunsOutBy(stock, sales, d.value);
    }
  }

  /** Info exactly when the stock lasts 14 forecast days yet is below 15 days of average sales. */
  lemma InfoIffLowCover(stock: real, sales: seq<real>, avgDailySales: real)
    ensures AlertLevel(Forecast.StockOutOf(stock, sales).daysUntilStockOut, stock, avgDailySales) == Info
      <==> (forall j :: 1 <= j <= 14 ==> !RunsOutBy(stock, sales, j)) && stock < avgDailySales * 15.0
  {
    Forecast.StockOutFirstCrossing(stock, sales);
    var d := Forecast.StockOutOf(stock, sales).daysUntilStockOut;
    if d.Some? {
      assert RunsOutBy(stock, sales, d.value);
    }
  }

  /** The largest score n in [50, cap] with 30v <= 80.5 - n, where s = v^2: the rounded score
    * `Math.round(80 - v * 30)` kept at 50 or above, computed from the square. */
  function ConfidenceFrom(s: real, n: int): (c: int)
    ensures 50 <= c <= MaxInt(50, n)
    decreases n
  {
    if n <= 50 then 50
    else if 900.0 * s <= (80.5 - n as real) * (80.5 - n as real) then n
    else ConfidenceFrom(s, n - 1)
  }

  /** The confidence score of a history whose volatility has square s; never above 80, since
    * the volatility is never negative, so the 95 cap of the source never applies. */
  function Confidence(s: real): (c: int)
    ensures 50 <= c <= 80
  {
    ConfidenceFrom(s, 80)
  }

  lemma SquareMonotone(a: real, b: real)
    requires a >= 0.0 && b >= 0.0
    ensures a <= b <==> a * a <= b * b
  {
    if a <= b {
      MulMonotone(a, a, b, b);
    } else {
      var d := a - b;
      assert a * a == b * b + 2.0 * b * d + d * d;
      assert d * d > 0.0;
      assert b * d >= 0.0;
    }
  }

  /** An integer n is at most the rounded score exactly when 30v <= 80.5 - n. */
  lemma ScoreStep(s: real, v: real, n: int)
    requires v >= 0.0 && v * v == s && n <= 80
    ensures n <= Round(80.0 - v * 30.0) <==> 900.0 * s <= (80.5 - n as real) * (80.5 - n as real)
  {
    var b := 80.5 - n as real;
    SquareMonotone(v * 30.0, b);
    assert (v * 30.0) * (v * 30.0) == 900.0 * s;
  }

  lemma {:induction false} ConfidenceFromIsScore(s: real, v: real, n: int)
    requires v >= 0.0 && v * v == s && 50 <= n <= 80
    ensures ConfidenceFrom(s, n) == MaxInt(50, MinInt(n, Round(80.0 - v * 30.0)))
    decreases n
  {
    if n > 50 {
      ScoreStep(s, v, n);
      if !(900.0 * s <= (80.5 - n as real) * (80.5 - n as real)) {
        ConfidenceFromIsScore(s, v, n - 1);
      }
    }
  }

  /** For the volatility v (v >= 0, v^2 = s) the score is the source's formula
    * `Math.max(50, Math.min(95, Math.round(80 - v * 30)))`. */
  lemma ConfidenceIsScore(s: real, v: real)
    requires v >= 0.0 && v * v == s
    ensures Confidence(s) == MaxInt(50, MinInt(95, Round(80.0 - v * 30.0)))
  {
    ConfidenceFromIsScore(s, v, 80);
  }

  /** A more volatile history never scores higher. */
  lemma {:induction false} ConfidenceMonotone(s1: real, s2: real, n: int)
    requires 0.0 <= s1 <= s2
    ensures ConfidenceFrom(s2, n) <= ConfidenceFrom(s1, n)
    decreases n
  {
    if n > 50 {
      var b := 80.5 - n as real;
      if 900.0 * s2 <= b * b {
        assert 900.0 * s1 <= b * b;
      } else if !(900.0 * s1 <= b * b) {
        ConfidenceMonotone(s1, s2, n - 1);
      }
    }
  }

  /** A steady history (volatility 0) scores 80. */
  lemma SteadyConfidence(data: seq<Forecast.Observation>, c: real)
    requires forall i :: 0 <= i < |data| ==> data[i].quantity == c
    ensures Confidence(Forecast.VolatilitySquared(data)) == 80
  {
    Forecast.VolatilityOfConstant(data, c);
  }

  // ---------------------------------------------------------------------------------------------
  // The product route

  /** A product with its current stock and its daily sales of the last months. */
  datatype ProductRecord = ProductRecord(id: ProductId, title: string, category: string, stock: real, recentSales: seq<SalesPoint>)

  /** One entry of the product route's answer. `predictions` None stands for days whose
    * predicted sales are all NaN; `stockOut` None for the simulation over them, which never
    * runs out and recommends a NaN restock. */
  datatype ProductPrediction = ProductPrediction(
    id: ProductId, title: string, category: string, currentStock: real,
    avgDailySales: int, daysOfStock: int, alert: Alert, confidence: int,
    predictions: Option<seq<DayForecast>>, stockOut: Option<Forecast.StockOut>)

  function PredictProduct(p: ProductRecord, m: Model, periods: nat): (r: ProductPrediction)
    requires ValidPoints(p.recentSales)
  {
    var summary := ProductStock(p.stock, p.recentSales);
    var data := ToObservations(p.recentSales);
    var series := Series(m, data, periods);
    var next := if series.Some? then Some(NextDays(series.value)) else None;
    var stockOut := if next.Some? then Some(Forecast.StockOutOf(p.stock, Predicted(next.value))) else None;
    var days := if stockOut.Some? then stockOut.value.daysUntilStockOut else None;
    ProductPrediction(p.id, p.title, p.category, p.stock,
                      Round(summary.avgDailySales), MaxInt(0, Round(summary.daysOfStock)),
                      AlertLevel(days, p.stock, summary.avgDailySales),
                      Confidence(Forecast.VolatilitySquared(data)), next, stockOut)
  }

  /** One product's entry: the forecast has `periods` days numbered from 1 (absent only for an
    * empty history under a mean-based model), the score lies in [50, 80], the days of stock
    * shown are never negative, and the entry is critical exactly when the stock runs out
    * within 7 days of the rounded forecast. */
  lemma ProductPredictionFacts(p: ProductRecord, m: Model, periods: nat)
    requires ValidPoints(p.recentSales)
    ensures var r := PredictProduct(p, m, periods);
      (r.predictions.None? <==> |p.recentSales| == 0 && m != LinearRegressionModel && m != ExponentialSmoothingModel)
      && (r.predictions.Some? ==>
            (|r.predictions.value| == periods
             && (forall i :: 0 <= i < periods ==> r.predictions.value[i].day == i + 1)
             && (r.alert == Critical <==> exists j :: 1 <= j <= 7 && RunsOutBy(p.stock, Predicted(r.predictions.value), j))))
      && (r.predictions.None? ==> r.alert != Critical && r.alert != Warning)
      && 50 <= r.confidence <= 80 && r.daysOfStock >= 0
  {
    var r := PredictProduct(p, m, periods);
    if r.predictions.Some? {
      CriticalIffRunsOutInAWeek(p.stock, Predicted(r.predictions.value), ProductStock(p.stock, p.recentSales).avgDailySales);
    }
  }

  /** `alertOnly`: only the critical entries, in order; otherwise all of them. */
  function CriticalOnly(ps: seq<ProductPrediction>, alertOnly: bool): (r: seq<ProductPrediction>)
    ensures |r| <= |ps|
  {
    if !alertOnly || |ps| == 0 then ps
    else
      var rest := CriticalOnly(ps[..|ps| - 1], alertOnly);
      if ps[|ps| - 1].alert == Critical then rest + [ps[|ps| - 1]] else rest
  }

  /** With `alertOnly` an entry is kept exactly when it is critical; without it all are kept. */
  lemma {:induction false} CriticalOnlyMembers(ps: seq<ProductPrediction>, alertOnly: bool, x: ProductPrediction)
    ensures !alertOnly ==> CriticalOnly(ps, alertOnly) == ps
    ensures alertOnly ==> (x in CriticalOnly(ps, alertOnly) <==> x in ps && x.alert == Critical)
    decreases |ps|
  {
    if alertOnly && |ps| > 0 {
      var init := ps[..|ps| - 1];
      CriticalOnlyMembers(init, alertOnly, x);
      assert ps == init + [ps[|ps| - 1]];
    }
  }

  /** A history of n days sends model m down a branch that answers `Array(periods).fill(..)`,
    * which throws for a NaN horizon; every other branch loops `i < periods` and returns `[]`. */
  predicate FillBranch(m: Model, n: nat)
  {
    match m
    case MovingAverageModel => n < Forecast.DefaultWindow
    case LinearRegressionModel => n < 2
    case ExponentialSmoothingModel => n == 0
    case SeasonalModel => n < 7
    case AdvancedModel => n < 7
  }

  /** With a NaN horizon the handler fails (None) as soon as one product's history takes a fill
    * branch; otherwise every series is empty, which the zero-day horizon gives. */
  function NaNProductsAnswer(products: seq<ProductRecord>, m: Model, alertOnly: bool): Option<seq<ProductPrediction>>
    requires forall i :: 0 <= i < |products| ==> ValidPoints(products[i].recentSales)
  {
    if exists i :: 0 <= i < |products| && FillBranch(m, |products[i].recentSales|) then None
    else Some(CriticalOnly(PredictAll(products, m, 0), alertOnly))
  }

  /** The product route: `alertOnly` is the text 'true', the model and the horizon come from
    * their parameters, and every product is predicted. None when the handler fails. */
  function ProductsRoute(products: seq<ProductRecord>, alertQuery: Option<string>, methodQuery: Option<string>,
                         periodsQuery: Option<string>): Option<seq<ProductPrediction>>
    requires forall i :: 0 <= i < |products| ==> ValidPoints(products[i].recentSales)
  {
    match Horizon(periodsQuery)
    case None => NaNProductsAnswer(products, ProductModel(methodQuery), alertQuery == Some("true"))
    case Some(periods) => Some(CriticalOnly(PredictAll(products, ProductModel(methodQuery), periods), alertQuery == Some("true")))
  }

  function PredictAll(products: seq<ProductRecord>, m: Model, periods: nat): (r: seq<ProductPrediction>)
    requires forall i :: 0 <= i < |products| ==> ValidPoints(products[i].recentSales)
    ensures |r| == |products|
    ensures forall i :: 0 <= i < |products| ==> r[i] == PredictProduct(products[i], m, periods)
  {
    seq(|products|, i requires 0 <= i < |products| => PredictProduct(products[i], m, periods))
  }

  /** With no critical entry, `alertOnly` keeps nothing. */
  lemma {:induction false} NoneCritical(ps: seq<ProductPrediction>)
    requires forall i :: 0 <= i < |ps| ==> ps[i].alert != Critical
    ensures CriticalOnly(ps, true) == [] && CriticalOnly(ps, false) == ps
    decreases |ps|
  {
    if |ps| > 0 {
      NoneCritical(ps[..|ps| - 1]);
    }
  }

  /** A history that takes no fill branch forecasts no day for a zero-day horizon, and the entry
    * is then never critical. */
  lemma EmptyForecastProduct(p: ProductRecord, m: Model)
    requires ValidPoints(p.recentSales) && !FillBranch(m, |p.recentSales|)
    ensures PredictProduct(p, m, 0).predictions == Some([]) && PredictProduct(p, m, 0).alert != Critical
  {
    ProductPredictionFacts(p, m, 0);
  }

  lemma EmptyForecastProducts(products: seq<ProductRecord>, m: Model)
    requires forall i :: 0 <= i < |products| ==> ValidPoints(products[i].recentSales)
    requires forall i :: 0 <= i < |products| ==> !FillBranch(m, |products[i].recentSales|)
    ensures forall i :: 0 <= i < |products| ==>
      PredictAll(products, m, 0)[i].predictions == Some([]) && PredictAll(products, m, 0)[i].alert != Critical
  {
    forall i | 0 <= i < |products|
      ensures PredictAll(products, m, 0)[i].predictions == Some([]) && PredictAll(products, m, 0)[i].alert != Critical
    {
      EmptyForecastProduct(products[i], m);
    }
  }

  /** A NaN horizon fails exactly when some product's history takes a fill branch of the
    * model. */
  lemma NaNProductsFails(products: seq<ProductRecord>, m: Model, alertOnly: bool)
    requires forall i :: 0 <= i < |products| ==> ValidPoints(products[i].recentSales)
    ensures NaNProductsAnswer(products, m, alertOnly).None? <==>
      exists i :: 0 <= i < |products| && FillBranch(m, |products[i].recentSales|)
  {
  }

  /** When no history takes a fill branch, a NaN horizon answers every product, in order, with
    * an empty forecast that is never critical, so `alertOnly` answers `[]`. */
  lemma NaNProductsEmpty(products: seq<ProductRecord>, m: Model, alertOnly: bool)
    requires forall i :: 0 <= i < |products| ==> ValidPoints(products[i].recentSales)
    requires forall i :: 0 <= i < |products| ==> !FillBranch(m, |products[i].recentSales|)
    ensures NaNProductsAnswer(products, m, alertOnly).Some?
    ensures var r := NaNProductsAnswer(products, m, alertOnly).value;
      (!alertOnly ==>
         |r| == |products|
         && forall i :: 0 <= i < |r| ==> r[i].id == products[i].id && r[i].predictions == Some([]) && r[i].alert != Critical)
      && (alertOnly ==> r == [])
  {
    EmptyForecastProducts(products, m);
    NoneCritical(PredictAll(products, m, 0));
  }

  /** The product route fails only on a NaN horizon, and then as the previous lemma says. */
  lemma ProductsRouteNaN(products: seq<ProductRecord>, alertQuery: Option<string>, methodQuery: Option<string>,
                         periodsQuery: Option<string>)
    requires forall i :: 0 <= i < |products| ==> ValidPoints(products[i].recentSales)
    ensures Horizon(periodsQuery).Some? ==> ProductsRoute(products, alertQuery, methodQuery, periodsQuery).Some?
    ensures Horizon(periodsQuery).None? ==>
      ProductsRoute(products, alertQuery, methodQuery, periodsQuery)
        == NaNProductsAnswer(products, ProductModel(methodQuery), alertQuery == Some("true"))
  {
  }

  /** For a horizon of `periods` days the product route answers for every product, in order,
    * unless `alertOnly=true` keeps only the critical answers. */
  lemma ProductsRouteFacts(products: seq<ProductRecord>, alertQuery: Option<string>, methodQuery: Option<string>,
                           periodsQuery: Option<string>, periods: nat, x: ProductPrediction)
    requires forall i :: 0 <= i < |products| ==> ValidPoints(products[i].recentSales)
    ensures Horizon(periodsQuery) == Some(periods) ==>
      var all := PredictAll(products, ProductModel(methodQuery), periods);
      var r := ProductsRoute(products, alertQuery, methodQuery, periodsQuery);
      r.Some?
      && (alertQuery != Some("true") ==> r.value == all)
      && (alertQuery == Some("true") ==> (x in r.value <==> x in all && x.alert == Critical))
  {
    if Horizon(periodsQuery) == Some(periods) {
      CriticalOnlyMembers(PredictAll(products, ProductModel(methodQuery), periods), alertQuery == Some("true"), x);
    }
  }

  // ---------------------------------------------------------------------------------------------
  // The category route

  /** A category with its daily sales of the last months. */
  datatype CategoryRecord = CategoryRecord(category: string, salesData: seq<SalesPoint>)

  datatype CategoryPrediction = CategoryPrediction(
    category: string, totalSales: real, totalRevenue: real, avgDailySales: int, trend: real,
    predictions: Option<seq<DayForecast>>)

  /** `Math.round(x * 100) / 100`: x to two decimals, halves rounded up. */
  function Round2(x: real): (r: real)
    ensures x - 0.005 < r <= x + 0.005
  {
    Round(x * 100.0) as real / 100.0
  }

  function PredictCategory(c: CategoryRecord, m: Model, periods: nat): (r: CategoryPrediction)
    requires ValidPoints(c.salesData)
  {
    var summary := CategorySales(c.salesData);
    var series := Series(m, ToObservations(c.salesData), periods);
    CategoryPrediction(c.category, summary.totalSales, summary.totalRevenue, Round(summary.avgDailySales),
                       Round2(CalculateTrend(c.salesData)),
                       if series.Some? then Some(NextDays(series.value)) else None)
  }

  function PredictCategories(categories: seq<CategoryRecord>, m: Model, periods: nat): (r: seq<CategoryPrediction>)
    requires forall i :: 0 <= i < |categories| ==> ValidPoints(categories[i].salesData)
    ensures |r| == |categories|
    ensures forall i :: 0 <= i < |categories| ==> r[i] == PredictCategory(categories[i], m, periods)
  {
    seq(|categories|, i requires 0 <= i < |categories| => PredictCategory(categories[i], m, periods))
  }

  /** With a NaN horizon the handler fails as soon as one category's history takes a fill
    * branch; otherwise every series is empty, which the zero-day horizon gives. */
  function NaNCategoriesAnswer(categories: seq<CategoryRecord>, m: Model): Option<seq<CategoryPrediction>>
    requires forall i :: 0 <= i < |categories| ==> ValidPoints(categories[i].salesData)
  {
    if exists i :: 0 <= i < |categories| && FillBranch(m, |categories[i].salesData|) then None
    else Some(PredictCategories(categories, m, 0))
  }

  /** The category route; None when the handler fails. */
  function CategoriesRoute(categories: seq<CategoryRecord>, methodQuery: Option<string>, periodsQuery: Option<string>)
    : Option<seq<CategoryPrediction>>
    requires forall i :: 0 <= i < |categories| ==> ValidPoints(categories[i].salesData)
  {
    match Horizon(periodsQuery)
    case None => NaNCategoriesAnswer(categories, CategoryModel(methodQuery))
    case Some(periods) => Some(PredictCategories(categories, CategoryModel(methodQuery), periods))
  }

  /** A category's entry keeps its totals, shows its trend to two decimals and forecasts
    * `periods` days; a category never gets the advanced model. */
  lemma CategoryPredictionFacts(c: CategoryRecord, query: Option<string>, periods: nat)
    requires ValidPoints(c.salesData)
    ensures var r := PredictCategory(c, CategoryModel(query), periods);
      r.totalSales == Sum(PointQuantities(c.salesData))
      && r.totalRevenue == Sum(PointRevenues(c.salesData))
      && CalculateTrend(c.salesData) - 0.005 < r.trend <= CalculateTrend(c.salesData) + 0.005
      && (r.predictions.Some? ==> |r.predictions.value| == periods)
      && (r.predictions.None? <==>
            (|c.salesData| == 0 && CategoryModel(query) != LinearRegressionModel && CategoryModel(query) != ExponentialSmoothingModel))
  {
  }

  lemma EmptyForecastCategory(c: CategoryRecord, m: Model)
    requires ValidPoints(c.salesData) && !FillBranch(m, |c.salesData|)
    ensures PredictCategory(c, m, 0).predictions == Some([])
  {
    var series := Series(m, ToObservations(c.salesData), 0);
    assert series.Some?;
  }

  lemma EmptyForecastCategories(categories: seq<CategoryRecord>, m: Model)
    requires forall i :: 0 <= i < |categories| ==> ValidPoints(categories[i].salesData)
    requires forall i :: 0 <= i < |categories| ==> !FillBranch(m, |categories[i].salesData|)
    ensures forall i :: 0 <= i < |categories| ==>
      PredictCategories(categories, m, 0)[i].category == categories[i].category
      && PredictCategories(categories, m, 0)[i].predictions == Some([])
  {
    forall i | 0 <= i < |categories|
      ensures PredictCategories(categories, m, 0)[i].category == categories[i].category
              && PredictCategories(categories, m, 0)[i].predictions == Some([])
    {
      EmptyForecastCategory(categories[i], m);
    }
  }

  /** A NaN horizon fails exactly when some category's history takes a fill branch of the
    * model. */
  lemma NaNCategoriesFails(categories: seq<CategoryRecord>, m: Model)
    requires forall i :: 0 <= i < |categories| ==> ValidPoints(categories[i].salesData)
    ensures NaNCategoriesAnswer(categories, m).None? <==>
      exists i :: 0 <= i < |categories| && FillBranch(m, |categories[i].salesData|)
  {
  }

  /** When no history takes a fill branch, a NaN horizon answers every category, in order, with
    * an empty forecast. */
  lemma NaNCategoriesEmpty(categories: seq<CategoryRecord>, m: Model)
    requires forall i :: 0 <= i < |categories| ==> ValidPoints(categories[i].salesData)
    requires forall i :: 0 <= i < |categories| ==> !FillBranch(m, |categories[i].salesData|)
    ensures NaNCategoriesAnswer(categories, m).Some?
    ensures var r := NaNCategoriesAnswer(categories, m).value;
      |r| == |categories|
      && forall i :: 0 <= i < |categories| ==> r[i].category == categories[i].category && r[i].predictions == Some([])
  {
    EmptyForecastCategories(categories, m);
  }

  /** For a horizon of `periods` days the category route answers for every category, in order,
    * under the category model; a NaN horizon gets `NaNCategoriesAnswer`. */
  lemma CategoriesRouteFacts(categories: seq<CategoryRecord>, methodQuery: Option<string>, periodsQuery: Option<string>)
    requires forall i :: 0 <= i < |categories| ==> ValidPoints(categories[i].salesData)
    ensures Horizon(periodsQuery).Some? ==>
      CategoriesRoute(categories, methodQuery, periodsQuery).Some? &&
      var r := CategoriesRoute(categories, methodQuery, periodsQuery).value;
      |r| == |categories|
      && forall i :: 0 <= i < |categories| ==>
        r[i] == PredictCategory(categories[i], CategoryModel(methodQuery), Horizon(periodsQuery).value)
    ensures Horizon(periodsQuery).None? ==>
      CategoriesRoute(categories, methodQuery, periodsQuery) == NaNCategoriesAnswer(categories, CategoryModel(methodQuery))
  {
  }

  // ---------------------------------------------------------------------------------------------
  // The dashboard

  /** What the dashboard reads of a product: title, stock and the two derived figures. */
  datatype StockRow = StockRow(title: string, stock: real, avgDailySales: real, daysOfStock: real)

  function StockRows(products: seq<ProductRecord>): (rows: seq<StockRow>)
    ensures |rows| == |products|
  {
    seq(|products|, i requires 0 <= i < |products| =>
      var s := ProductStock(products[i].stock, products[i].recentSales);
      StockRow(products[i].title, products[i].stock, s.avgDailySales, s.daysOfStock))
  }

  datatype CriticalProduct = CriticalProduct(title: string, currentStock: real, daysOfStock: int)

  /** The products with at most 7 days of stock, in order, their days rounded and shown no
    * lower than 0. */
  function CriticalProducts(rows: seq<StockRow>): (r: seq<CriticalProduct>)
    ensures |r| <= |rows|
  {
    if |rows| == 0 then []
    else
      var row := rows[|rows| - 1];
      CriticalProducts(rows[..|rows| - 1])
      + (if row.daysOfStock <= 7.0 then [CriticalProduct(row.title, row.stock, MaxInt(0, Round(row.daysOfStock)))] else [])
  }

  /** How many rows have days of stock in (lo, hi]. */
  function CountBetween(rows: seq<StockRow>, lo: Option<real>, hi: Option<real>): nat
  {
    if |rows| == 0 then 0
    else
      var d := rows[|rows| - 1].daysOfStock;
      CountBetween(rows[..|rows| - 1], lo, hi)
      + (if (lo.None? || d > lo.value) && (hi.None? || d <= hi.value) then 1 else 0)
  }

  /** Every critical product comes from a row with at most 7 days, its days shown in [0, 7];
    * there are as many as such rows; and critical, warning (7 < d <= 14) and the rest
    * (d > 14) partition the products. */
  lemma {:induction false} CriticalProductsFacts(rows: seq<StockRow>)
    ensures |CriticalProducts(rows)| == CountBetween(rows, None, Some(7.0))
    ensures forall k :: 0 <= k < |CriticalProducts(rows)| ==> 0 <= CriticalProducts(rows)[k].daysOfStock <= 7
    ensures CountBetween(rows, None, Some(7.0)) + CountBetween(rows, Some(7.0), Some(14.0))
      + CountBetween(rows, Some(14.0), None) == |rows|
    decreases |rows|
  {
    if |rows| > 0 {
      CriticalProductsFacts(rows[..|rows| - 1]);
      var d := rows[|rows| - 1].daysOfStock;
      if d <= 7.0 {
        assert Round(d) <= 7;
      }
    }
  }

  /** A product without recent sales has its whole stock as days of stock, so it is critical
    * exactly when at most 7 units are left. */
  lemma NoSalesCritical(p: ProductRecord)
    requires p.recentSales == []
    ensures StockRows([p])[0].daysOfStock <= 7.0 <==> p.stock <= 7.0
  {
    NoSalesSummary(p.stock);
  }

  datatype TopCategory = TopCategory(category: string, totalSales: real, totalRevenue: real, trend: real)

  predicate SortedBySales(cs: seq<TopCategory>)
  {
    forall i, j :: 0 <= i < j < |cs| ==> cs[i].totalSales >= cs[j].totalSales
  }

  /** Places c before the first entry with no more sales than c: among equal totals the
    * earlier category stays first, as the stable `sort` keeps them. */
  function InsertBySales(c: TopCategory, sorted: seq<TopCategory>): (r: seq<TopCategory>)
    ensures |r| == |sorted| + 1
    ensures multiset(r) == multiset(sorted) + multiset{c}
  {
    if |sorted| == 0 || sorted[0].totalSales <= c.totalSales then [c] + sorted
    else
      assert sorted == [sorted[0]] + sorted[1..];
      [sorted[0]] + InsertBySales(c, sorted[1..])
  }

  /** `sort((a, b) => b.totalSales - a.totalSales)`. */
  function SortBySales(cs: seq<TopCategory>): (r: seq<TopCategory>)
    ensures |r| == |cs|
    ensures multiset(r) == multiset(cs)
  {
    if |cs| == 0 then []
    else
      assert cs == [cs[0]] + cs[1..];
      InsertBySales(cs[0], SortBySales(cs[1..]))
  }

  lemma {:induction false} InsertSorted(c: TopCategory, sorted: seq<TopCategory>)
    requires SortedBySales(sorted)
    ensures SortedBySales(InsertBySales(c, sorted))
    ensures |sorted| > 0 ==> InsertBySales(c, sorted)[0] == c || InsertBySales(c, sorted)[0] == sorted[0]
    decreases |sorted|
  {
    if |sorted| > 0 && sorted[0].totalSales > c.totalSales {
      InsertSorted(c, sorted[1..]);
      var r := InsertBySales(c, sorted);
      var tail := InsertBySales(c, sorted[1..]);
      assert r == [sorted[0]] + tail;
      forall j | 0 < j < |r|
        ensures r[0].totalSales >= r[j].totalSales
      {
        assert tail[j - 1] in multiset(tail);
        assert tail[j - 1] in multiset(sorted[1..]) + multiset{c};
        if tail[j - 1] != c {
          assert tail[j - 1] in sorted[1..];
        }
      }
    }
  }

  lemma {:induction false} SortBySalesSorted(cs: seq<TopCategory>)
    ensures SortedBySales(SortBySales(cs))
    decreases |cs|
  {
    if |cs| > 0 {
      SortBySalesSorted(cs[1..]);
      InsertSorted(cs[0], SortBySales(cs[1..]));
    }
  }

  function TopCategoryOf(c: CategoryRecord): TopCategory
  {
    var s := CategorySales(c.salesData);
    TopCategory(c.category, s.totalSales, s.totalRevenue, Round2(s.trend))
  }

  /** The five best-selling categories, best first. */
  function TopCategories(categories: seq<CategoryRecord>): (top: seq<TopCategory>)
  {
    var sorted := SortBySales(seq(|categories|, i requires 0 <= i < |categories| => TopCategoryOf(categories[i])));
    sorted[..MinInt(5, |sorted|)]
  }

  /** The top list holds min(5, n) categories, sorted by sales, and none of the categories left
    * out sold more than any listed one: the list is a prefix of all categories sorted by
    * sales, a permutation of them. */
  lemma TopCategoriesFacts(categories: seq<CategoryRecord>)
    ensures var all := seq(|categories|, i requires 0 <= i < |categories| => TopCategoryOf(categories[i]));
      var sorted := SortBySales(all);
      var top := TopCategories(categories);
      |top| == MinInt(5, |categories|)
      && multiset(sorted) == multiset(all)
      && top == sorted[..|top|]
      && SortedBySales(top)
      && (forall i, j :: 0 <= i < |top| <= j < |sorted| ==> top[i].totalSales >= sorted[j].totalSales)
  {
    var all := seq(|categories|, i requires 0 <= i < |categories| => TopCategoryOf(categories[i]));
    SortBySalesSorted(all);
  }

  /** `Number(x.toFixed(1))`: x to one decimal, halves rounded away from zero. */
  function Fixed1(x: real): (r: real)
    ensures x - 0.05 <= r <= x + 0.05
  {
    if x < 0.0 then -(Round(-x * 10.0) as real / 10.0) else Round(x * 10.0) as real / 10.0
  }

  /** A sum divided by `n || 1`. */
  function MeanOr(total: real, n: nat): real
  {
    total / AsReal(if n == 0 then 1 else n)
  }

  datatype Summary = Summary(totalProducts: nat, criticalAlerts: nat, warningAlerts: nat, totalCategories: nat,
                             salesGrowth: real, avgDailySales: real)

  datatype Dashboard = Dashboard(summary: Summary, topCategories: seq<TopCategory>, criticalProducts: seq<CriticalProduct>)

  function Averages(rows: seq<StockRow>): (a: seq<real>)
    ensures |a| == |rows|
    ensures forall i :: 0 <= i < |rows| ==> a[i] == rows[i].avgDailySales
  {
    seq(|rows|, i requires 0 <= i < |rows| => rows[i].avgDailySales)
  }

  function Trends(categories: seq<CategoryRecord>): (t: seq<real>)
    ensures |t| == |categories|
    ensures forall i :: 0 <= i < |categories| ==> t[i] == CalculateTrend(categories[i].salesData)
  {
    seq(|categories|, i requires 0 <= i < |categories| => CalculateTrend(categories[i].salesData))
  }

  /** The dashboard: counts of products and categories, the critical products and how many there
    * are, the warning count, the mean category trend to two decimals as growth, the mean
    * daily sales to one decimal, and the top categories. */
  function DashboardOf(products: seq<ProductRecord>, categories: seq<CategoryRecord>): (d: Dashboard)
  {
    var rows := StockRows(products);
    var critical := CriticalProducts(rows);
    var growth := Round(MeanOr(Sum(Trends(categories)), |categories|) * 100.0) as real / 100.0;
    var avg := Fixed1(MeanOr(Sum(Averages(rows)), |products|));
    Dashboard(Summary(|products|, |critical|, CountBetween(rows, Some(7.0), Some(14.0)), |categories|, growth, avg),
              TopCategories(categories), critical)
  }

  /** The summary's alert counts split the products: critical, warning and the rest add up to
    * the product count; no more than five top categories are shown. */
  lemma DashboardFacts(products: seq<ProductRecord>, categories: seq<CategoryRecord>)
    ensures var d := DashboardOf(products, categories);
      d.summary.criticalAlerts == |d.criticalProducts|
      && d.summary.criticalAlerts + d.summary.warningAlerts <= d.summary.totalProducts
      && |d.topCategories| == MinInt(5, |categories|)
      && (forall k :: 0 <= k < |d.criticalProducts| ==> 0 <= d.criticalProducts[k].daysOfStock <= 7)
  {
    CriticalProductsFacts(StockRows(products));
    TopCategoriesFacts(categories);
  }
}
