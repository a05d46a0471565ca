# Sales forecasting, stock alerts and order stock keeping — a Dafny model

This project models the back-end core of a small retail application. It covers four parts:

- **The forecasting library** (`utils/predictionModels.js`):
  - four base predictors: moving average, linear regression, exponential smoothing and weekly seasonal adjustment;
  - the weighted ensemble ("advanced prediction") that blends them;
  - the series statistics they use: trend, weekly pattern and volatility;
  - the stock-out simulation.
- **The data processor** (`utils/predictionDataProcessor.js`):
  - extracts per-product and per-category sale records from orders;
  - buckets them by day, week or month (`getPeriodStart`);
  - computes the sliding-window average, the trend, the average daily sales and the days of stock.
- **The prediction routes** (`routes/predictionRoutes.js`, pure logic only):
  - parses the `method`, `periods` and `alertOnly` queries;
  - dispatches to a model;
  - rounds the series into day forecasts;
  - assigns alert levels and confidence scores;
  - filters on alerts;
  - builds the dashboard: critical products, warning count, averages, growth and the top five categories.
- **The order stock machine** (`routes/orderRoutes.js`):
  - checkout validation (empty items, unknown product, insufficient stock, price and title fallbacks) and payment normalisation;
  - creation of the order, the stock decrement and the two sale records per line;
  - the status patch that restores stock when an order becomes `Cancelled`.

**Files**

| file | contents |
|---|---|
| `realmath.dfy` | `Wrappers`: `Option` and `Result`. `RealMath`: sums, `Math.round`, `Math.ceil`, `Math.pow`, min and max on exact reals. |
| `calendar.dfy` | `Calendar`: proleptic Gregorian dates, day numbers counted from 1970-01-01, weekdays, and `getPeriodStart`. |
| `forecast.dfy` | `Forecast`: the forecasting library. |
| `aggregation.dfy` | `Aggregation`: the data processor. |
| `routes.dfy` | `Routes`: the two prediction routes and the dashboard. |
| `orders.dfy` | `Orders`: checkout and the status patch, over an in-memory `Store` class. |

**How the model is built**

Numbers of the JavaScript code are exact reals, and dates are calendar values. Each loop of the source is a `method` proved equal to a specification function. The properties the code promises are lemmas about those functions.

The order store is a class. It holds the product table, the orders and the two sale-record collections:

- its methods name what they modify;
- they state the whole new state in terms of the functions `Validate`, `Decremented`, `Restored`, `ProductSales` and `CategorySales`;
- the lemmas beside those functions give their meaning (stock minus the quantity ordered, round trip with cancellation, sale-record contents).

## Model

| member | source | states |
|---|---|---|
| Calendar.EpochIsThursday | utils/predictionModels.js:183 | day 0 of the day count is 1970-01-01 and is a Thursday (weekday 4, Sunday = 0), as `Date.getDay` numbers it |
| Calendar.WeekStartIsSunday | utils/predictionDataProcessor.js:211-214 | the week start is a valid date on a Sunday, exactly weekday-many days before the date, so at most six days earlier |
| Calendar.PeriodStartShape | utils/predictionDataProcessor.js:204-222 | daily: the same date at midnight; weekly: a Sunday midnight within the six preceding days; monthly: the first of the same month and year at midnight; an unrecognised period returns the timestamp unchanged |
| Calendar.PeriodStartValid | utils/predictionDataProcessor.js:204-222 | the period start is again a valid timestamp, and for a recognised period its time of day is zero |
| Calendar.PeriodStartIdempotent | utils/predictionDataProcessor.js:204-222 | taking the period start of a period start changes nothing |
| Forecast.LastPoints | utils/predictionModels.js:21-25 | `slice(-k)`: the last min(k, n) points, in order |
| Forecast.FittedLineIsLeastSquares | utils/predictionModels.js:160-173 | the one-pass accumulation of the trend loop yields the least-squares line computed from the closed sums over the whole series |
| Forecast.FitCount | utils/predictionModels.js:160-173 | the point count accumulated by the fit equals the length of the series |
| Forecast.IndexSums | utils/predictionModels.js:47-54 | the accumulated index sums are the closed forms n(n-1)/2 and (n-1)n(2n-1)/6 |
| Forecast.NoZeroDenominator | utils/predictionModels.js:56 | with at least two points the slope denominator n·Σx² − (Σx)² is strictly positive, so the slope is never a division by zero |
| Forecast.LineOfConstant | utils/predictionModels.js:46-57 | a constant series of two or more points fits slope 0 and intercept equal to the constant |
| Forecast.TrendOfConstant | utils/predictionModels.js:160-173 | the trend of any constant series is 0 |
| Forecast.TrendFactor | utils/predictionModels.js:26 | the trend factor always lies in [0.8, 1.2] |
| Forecast.Compound | utils/predictionModels.js:28-30 | the compounding loop builds exactly the compounded series |
| Forecast.CompoundedSteps | utils/predictionModels.js:28-30 | the first value is base·tf and each next value is the previous one times tf |
| Forecast.CompoundedBounds | utils/predictionModels.js:26-30 | for a non-negative base and tf in [0.8, 1.2], value i lies between base·0.8^(i+1) and base·1.2^(i+1) and is non-negative |
| Forecast.CompoundedByOne | utils/predictionModels.js:26-30 | a trend factor of 1 gives a flat series of the base |
| Forecast.RecentTrendFactor | utils/predictionModels.js:25-26 | the factor taken from the trend of the last 14 points lies in [0.8, 1.2] |
| Forecast.MovingAverage | utils/predictionModels.js:13-33 | the method returns the moving-average forecast for every input with at least one point |
| Forecast.MovingAverageCompounds | utils/predictionModels.js:20-30 | with at least `window` points the forecast is the mean of the last `window` quantities compounded by the clamped trend factor; the first value is mean·tf |
| Forecast.MovingAverageFallback | utils/predictionModels.js:14-18 | with fewer than `window` points every forecast value is the mean of all quantities |
| Forecast.MovingAverageNonNegative | utils/predictionModels.js:13-33 | non-negative sales give non-negative forecasts on both branches |
| Forecast.MovingAverageOfConstant | utils/predictionModels.js:13-33 | a constant history of at least `window` points forecasts that constant on every day |
| Forecast.Projected | utils/predictionModels.js:63 | each regression projection is clamped at 0 |
| Forecast.LinearRegression | utils/predictionModels.js:40-67 | the method returns the regression forecast |
| Forecast.Extend | utils/predictionModels.js:61-64 | the projection loop extends the fitted line from index n onwards |
| Forecast.LinearRegressionShape | utils/predictionModels.js:40-67 | two or more points give non-negative projections; one point repeats that point's quantity; no points repeat 0 |
| Forecast.LinearRegressionOfConstant | utils/predictionModels.js:40-67 | a non-negative constant history of two or more points forecasts that constant |
| Forecast.LinearRegressionExample | utils/predictionModels.js:40-67 | the history 1,2,3,4,5 fits slope 1 and intercept 1 and forecasts 6 then 7 |
| Forecast.ExponentialSmoothing | utils/predictionModels.js:75-95 | the method returns the smoothing forecast (the level smoothed with alpha, clamped at 0, repeated) |
| Forecast.Repeat | utils/predictionModels.js:88-92 | the repeat loop builds a flat series of the given value |
| Forecast.SmoothedLevelBounds | utils/predictionModels.js:79-86 | for alpha in [0, 1] the smoothed level stays within the bounds of the observed quantities |
| Forecast.ExponentialSmoothingFlat | utils/predictionModels.js:75-95 | all forecast values are equal and lie between the clamped lower and upper bounds of the history |
| Forecast.SmoothedLevelOfConstant | utils/predictionModels.js:79-86 | smoothing a constant series yields that constant, whatever alpha |
| Forecast.CalculateWeeklyPattern | utils/predictionModels.js:178-194 | the two weekday loops yield the seven ratios of weekday mean to overall mean, Sunday first |
| Forecast.NonNegativePatternDefined | utils/predictionModels.js:188-192 | for non-negative sales a zero overall average only arises from an all-zero history, so no ratio is infinite |
| Forecast.SeasonalFactorIsPatternOrOne | utils/predictionModels.js:114-117 | whenever the source's factor (the pattern entry, or 1 for an entry of 0 or NaN) is a number the model's factor equals it; it is an infinity exactly when the quantities cancel to a zero sum while weekday w's total is non-zero; a history whose zero sum means all zeros always gives a number |
| Forecast.NonNegativeSeasonalFactor | utils/predictionModels.js:114-117 | with non-negative quantities every seasonal factor is the source's, a real number |
| Forecast.Adjusted | utils/predictionModels.js:114-118 | the seasonal map keeps the length of the base forecast and never produces a negative value |
| Forecast.UnobservedFactorIsOne | utils/predictionModels.js:190-193 | a weekday with no observation has ratio 0, which the fallback to 1 turns into factor 1 |
| Forecast.UnobservedWeekdayKeepsBase | utils/predictionModels.js:102-121 | the forecast for a day whose weekday index was never observed is the moving-average base clamped at 0 |
| Forecast.AdjustedByOne | utils/predictionModels.js:114-118 | a factor of 1 leaves the base value, clamped at 0 |
| Forecast.SeasonalFactorOfConstant | utils/predictionModels.js:178-194 | a constant history gives factor 1 on every weekday (observed weekdays have ratio 1; unobserved ones and an all-zero history fall back to 1) |
| Forecast.SeasonalOfConstant | utils/predictionModels.js:102-121 | a non-negative constant history of at least 7 points forecasts that constant on every day |
| Forecast.VolatilitySquared | utils/predictionModels.js:237-246 | the squared volatility is non-negative, and 0 with fewer than two points or a non-positive mean |
| Forecast.HighVolatilityBySquare | utils/predictionModels.js:218 | for the true volatility v (v ≥ 0, v² = the squared volatility), v > 0.3 exactly when the square exceeds 0.09 |
| Forecast.VolatilityOfConstant | utils/predictionModels.js:237-246 | a constant history has volatility 0 |
| Forecast.AdjustedWeights | utils/predictionModels.js:199-232 | for every combination of strong trend, high volatility and long history the four weights sum to 1 and each is at least 0.05 |
| Forecast.CalculateWeights | utils/predictionModels.js:199-232 | the method returns the weights chosen by the data's trend, volatility and length, and they sum to 1 |
| Forecast.AllAdjustmentsApplied | utils/predictionModels.js:205-229 | with all three adjustments the weights are 0.05, 0.35, 0.3 and 0.3 |
| Forecast.Blended | utils/predictionModels.js:146-151 | each blended value is clamped at 0 |
| Forecast.Combine | utils/predictionModels.js:143-152 | the blend keeps the length of its inputs and is non-negative everywhere |
| Forecast.AdvancedPrediction | utils/predictionModels.js:128-155 | the method returns the four base forecasts blended with the data's weights |
| Forecast.Blend | utils/predictionModels.js:143-152 | the blending loop builds exactly the combined series |
| Forecast.BlendedOfEqual | utils/predictionModels.js:143-152 | blending four equal non-negative values with weights summing to 1 returns that value |
| Forecast.CombineFlat | utils/predictionModels.js:143-152 | blending four copies of a flat series returns it |
| Forecast.EnsembleOfConstant | utils/predictionModels.js:128-155 | a non-negative constant history of at least 7 points makes the ensemble forecast that constant |
| Forecast.FirstStockOut | utils/predictionModels.js:256-265 | a reported stock-out day lies after the start index and within the horizon |
| Forecast.FirstStockOutIsFirst | utils/predictionModels.js:256-265 | the day found is the first on which the running stock reaches 0 or below, and no day is found only if the stock stays positive throughout |
| Forecast.StockOutFirstCrossing | utils/predictionModels.js:253-272 | the stock-out day is the first crossing of zero by the stock minus the cumulative predicted sales (none if it never crosses); the restock is the ceiling of the predicted sales of the 7 days from that day, or of the first 7 days when there is no stock-out |
| Forecast.PredictStockOut | utils/predictionModels.js:253-272 | the simulation loop returns the stock-out result characterised above |
| Aggregation.ItemSales | utils/predictionDataProcessor.js:47-55 | at most one record per order line, one per line when every line is kept, each dated with the order's time |
| Aggregation.ExtractSales | utils/predictionDataProcessor.js:44-57 | the nested order and line loops return exactly the extracted records |
| Aggregation.AppendItemSales | utils/predictionDataProcessor.js:47-55 | the line loop appends the kept lines' records to those collected so far |
| Aggregation.ItemSalesMembers | utils/predictionDataProcessor.js:47-55 | a record is produced iff some kept line of the order gives it (order time, quantity, quantity·price) |
| Aggregation.ExtractMembers | utils/predictionDataProcessor.js:44-57 | a record is extracted iff some order has a kept line that gives it |
| Aggregation.DateOrder | utils/predictionDataProcessor.js:198 | the date order used to sort buckets is a strict total order |
| Aggregation.AddToSorted | utils/predictionDataProcessor.js:185-198 | adding a record to the buckets keeps them sorted by date |
| Aggregation.AddToKeys | utils/predictionDataProcessor.js:185-196 | adding a record adds its period-start date to the set of bucket keys and nothing else |
| Aggregation.AddToTotals | utils/predictionDataProcessor.js:185-196 | adding a record raises total quantity and revenue by its amounts and the record count by one |
| Aggregation.AddToAt | utils/predictionDataProcessor.js:185-196 | adding a record raises its own date's bucket by its quantity, its revenue and one item, and leaves every other date's bucket unchanged |
| Aggregation.BucketAt | utils/predictionDataProcessor.js:178-199 | the bucket keyed k holds the summed quantity and revenue, and the number, of exactly the records whose period start is on k |
| Aggregation.AddToLast | utils/predictionDataProcessor.js:185-196 | a record dated after every bucket opens a new last bucket holding just that record |
| Aggregation.BucketDistinct | utils/predictionDataProcessor.js:178-199 | records on strictly increasing dates, each at its own period start, come back unchanged |
| Aggregation.AggregateIdempotent | utils/predictionDataProcessor.js:178-199 | aggregating the aggregate by the same period returns it unchanged |
| Aggregation.AggregateByPeriod | utils/predictionDataProcessor.js:178-199 | the bucketing loop returns the bucketed points |
| Aggregation.AggregateByPeriodFacts | utils/predictionDataProcessor.js:178-199 | the result is sorted by date; its dates are exactly the period starts of the records; each bucket's quantity and revenue are the totals of the records with that start; total quantity and revenue are preserved |
| Aggregation.AggregateSalesData | utils/predictionDataProcessor.js:148-173 | the nested loop over orders and lines returns exactly the period buckets of all sale lines |
| Aggregation.AddOrderItems | utils/predictionDataProcessor.js:155-169 | the line loop adds each line of one order to the buckets of that order's period start |
| Aggregation.SalesDataIsBucketedRecords | utils/predictionDataProcessor.js:148-173 | adding line by line per order equals bucketing the flat list of all line records |
| Aggregation.RecordItemsOn | utils/predictionDataProcessor.js:155-169 | the line records whose period start is on k are as many as the lines of the orders whose period start is on k |
| Aggregation.AggregateSalesDataFacts | utils/predictionDataProcessor.js:148-173 | the buckets are sorted; a date is a key iff some order with lines starts its period on it; the counts add up to the number of lines; quantity and revenue totals are preserved; the bucket keyed k holds the quantity and revenue of the lines of the orders starting their period on k, and its `orders` field is the number of those lines |
| Aggregation.AllRecordsCount | utils/predictionDataProcessor.js:155-169 | one record per order line |
| Aggregation.ProductSalesData | utils/predictionDataProcessor.js:34-59 | a product's series is the daily bucketing of its extracted records and keeps their total quantity and revenue |
| Aggregation.CategorySalesData | utils/predictionDataProcessor.js:64-93 | a category's series is the daily bucketing of the records of its products and keeps their total quantity and revenue |
| Aggregation.SharedTrend | utils/predictionDataProcessor.js:227-241 | the processor's trend equals the forecasting library's trend on the same series |
| Aggregation.SlidingAverage | utils/predictionDataProcessor.js:246-261 | fewer points than the window return the data unchanged; otherwise one point per full window |
| Aggregation.CalculateMovingAverage | utils/predictionDataProcessor.js:246-261 | the window loop returns the sliding average |
| Aggregation.LastWindowIsRecentMean | utils/predictionDataProcessor.js:246-261 | the last sliding-average point equals the moving-average base used by the forecasting library |
| Aggregation.LastWindowMean | utils/predictionDataProcessor.js:246-261 | the processor's last window mean equals the forecasting library's moving-average base |
| Aggregation.LastWindowQuantities | utils/predictionModels.js:21 | the library's last `window` observations hold the same quantities as the processor's last window |
| Aggregation.WindowOfConstant | utils/predictionDataProcessor.js:250-257 | every window over a constant series averages to that constant |
| Aggregation.SlidingAverageOfConstant | utils/predictionDataProcessor.js:246-261 | the sliding average of a constant series is constant |
| Aggregation.AvgDailySales | utils/predictionDataProcessor.js:105 | the average times the number of points is the total; with no points the divisor is 1 |
| Aggregation.DaysOfStock | utils/predictionDataProcessor.js:112 | days of stock times the average is the stock; a zero average divides by 1 |
| Aggregation.ProductStock | utils/predictionDataProcessor.js:102-113 | a product's summary: total sales are the sum of its quantities, and the average and days of stock are as above |
| Aggregation.CategorySales | utils/predictionDataProcessor.js:126-139 | a category's summary: total sales and total revenue are the sums of its series, the average is as above, and the trend is the processor's trend |
| Aggregation.NoSalesSummary | utils/predictionDataProcessor.js:104-112 | a product with no sales has total 0, average 0 and days of stock equal to its stock |
| Routes.LowerIdempotent | routes/predictionRoutes.js:67 | lowering twice is lowering once |
| Routes.ProductModelByName | routes/predictionRoutes.js:67-91 | each model name selects its model on the products route, and a missing method selects the ensemble |
| Routes.CategoryModel | routes/predictionRoutes.js:135-148 | the categories route never selects the ensemble |
| Routes.CategoryModelByName | routes/predictionRoutes.js:129-148 | names other than `advanced` select their model on the categories route; `advanced` and a missing method select seasonal |
| Routes.ModelIgnoresCase | routes/predictionRoutes.js:67 | the chosen model does not depend on the letter case of the query |
| Routes.SkipSpaces | routes/predictionRoutes.js:68 | `parseInt` skips a suffix-preserving run of leading white space |
| Routes.DigitRun | routes/predictionRoutes.js:68 | the digit run is the longest all-digit prefix |
| Routes.Clamp | routes/predictionRoutes.js:68 | the horizon always lies in 1..60; values inside are kept, values below become 1, values above become 60 |
| Routes.Horizon | routes/predictionRoutes.js:68 | a parsed horizon lies in 1..60 |
| Routes.DecimalValue | routes/predictionRoutes.js:68 | the decimal numeral of n reads back as n |
| Routes.ParseDecimal | routes/predictionRoutes.js:68 | `parseInt` of a decimal numeral followed by a non-digit tail is that number |
| Routes.HorizonDefault | routes/predictionRoutes.js:68 | a missing or empty `periods` gives 7 |
| Routes.HorizonOfNumeral | routes/predictionRoutes.js:68 | a numeral with any non-digit tail gives the numeral clamped to 1..60 |
| Routes.NoDigitsNaN | routes/predictionRoutes.js:68 | a query with no digit at all parses to NaN, and a non-empty one yields no horizon |
| Routes.Series | routes/predictionRoutes.js:74-91 | the chosen model's forecast has the horizon's length; it is undefined (NaN in the source) exactly when the history is empty and the model divides by its length |
| Routes.NextDays | routes/predictionRoutes.js:93 | day i+1 carries the forecast value rounded to the nearest integer (within one half) |
| Routes.RoundedNonNegative | routes/predictionRoutes.js:93 | rounding a non-negative series keeps it non-negative |
| Routes.CriticalIffRunsOutInAWeek | routes/predictionRoutes.js:95-97 | the alert is critical iff the predicted sales exhaust the stock within 7 days |
| Routes.WarningIffRunsOutInTwoWeeks | routes/predictionRoutes.js:95-98 | the alert is a warning iff the stock lasts the first week and runs out in the second; a horizon of at most 7 days never warns |
| Routes.InfoIffLowCover | routes/predictionRoutes.js:95-99 | the alert is info iff the stock lasts two weeks but is below 15 days of average sales |
| Routes.ConfidenceFrom | routes/predictionRoutes.js:101 | the searched score lies between 50 and its starting point |
| Routes.Confidence | routes/predictionRoutes.js:101 | the confidence lies in 50..80 |
| Routes.ConfidenceIsScore | routes/predictionRoutes.js:101 | for the true volatility v, the confidence is max(50, min(95, round(80 − 30v))) |
| Routes.ConfidenceMonotone | routes/predictionRoutes.js:101 | higher volatility never raises the confidence |
| Routes.SteadyConfidence | routes/predictionRoutes.js:101 | a constant history has confidence 80 |
| Routes.ProductPredictionFacts | routes/predictionRoutes.js:71-116 | per product: the series is undefined exactly as `Series` says; otherwise it has the horizon's length and days 1..n, and the alert is critical iff the rounded predictions exhaust the stock within 7 days; an undefined series never alerts critical or warning; confidence is in 50..80 and days of stock is non-negative |
| Routes.CriticalOnly | routes/predictionRoutes.js:117 | the filter never lengthens the list |
| Routes.CriticalOnlyMembers | routes/predictionRoutes.js:117 | without `alertOnly` the list is unchanged; with it, exactly the critical predictions remain |
| Routes.NoneCritical | routes/predictionRoutes.js:117 | with no critical prediction `alertOnly` keeps nothing, and without it everything is kept |
| Routes.EmptyForecastProduct | routes/predictionRoutes.js:75-93 | a history that takes no `Array(periods).fill` branch forecasts no day for a zero horizon and is then never critical |
| Routes.EmptyForecastProducts | routes/predictionRoutes.js:71-93 | the same for every product of the route |
| Routes.NaNProductsFails | routes/predictionRoutes.js:71-91 | with a NaN horizon the handler fails (`Array(NaN)` throws) exactly when some product's history takes a fill branch of the chosen model |
| Routes.NaNProductsEmpty | routes/predictionRoutes.js:71-117 | otherwise a NaN horizon answers every product, in order, with an empty forecast that is never critical, so `alertOnly=true` answers an empty list |
| Routes.ProductsRouteNaN | routes/predictionRoutes.js:68-117 | a numeric horizon always gets an answer; a NaN horizon gets `NaNProductsAnswer`, which `NaNProductsFails` and `NaNProductsEmpty` describe |
| Routes.ProductsRouteFacts | routes/predictionRoutes.js:64-119 | with a horizon the route answers: all product predictions when `alertOnly` is not `true`, otherwise exactly the critical ones |
| Routes.Round2 | routes/predictionRoutes.js:156 | rounding to two decimals moves a value by at most half a hundredth |
| Routes.CategoryPredictionFacts | routes/predictionRoutes.js:132-159 | per category: totals copied from the sales summary; the trend is the processor's trend to two decimals; the series has the horizon's length and is undefined exactly for an empty history under a mean-based model |
| Routes.EmptyForecastCategory | routes/predictionRoutes.js:134-149 | a category history that takes no fill branch forecasts no day for a zero horizon |
| Routes.EmptyForecastCategories | routes/predictionRoutes.js:132-149 | the same for every category of the route, which keeps its name |
| Routes.NaNCategoriesFails | routes/predictionRoutes.js:132-149 | with a NaN horizon the handler fails (`Array(NaN)` throws) exactly when some category's history takes a fill branch of the category model |
| Routes.NaNCategoriesEmpty | routes/predictionRoutes.js:132-160 | otherwise a NaN horizon answers every category, in order and under its name, with an empty forecast |
| Routes.CategoriesRouteFacts | routes/predictionRoutes.js:126-160 | a numeric horizon predicts each category, in order, with the categories-route model; a NaN horizon gets `NaNCategoriesAnswer`, which `NaNCategoriesFails` and `NaNCategoriesEmpty` describe |
| Routes.StockRows | utils/predictionDataProcessor.js:98-117 | one stock row per product |
| Routes.CriticalProducts | routes/predictionRoutes.js:13-19 | the critical list never exceeds the product list |
| Routes.CriticalProductsFacts | routes/predictionRoutes.js:13-23 | the critical count is the number of products with at most 7 days of stock; each displayed day count is clamped to 0..7; the critical, warning and remaining counts partition the products |
| Routes.NoSalesCritical | routes/predictionRoutes.js:14 | a product with no sales is critical iff its stock is at most 7 |
| Routes.InsertBySales | routes/predictionRoutes.js:42 | an insertion adds exactly the one element |
| Routes.SortBySales | routes/predictionRoutes.js:42 | the sort is a permutation of its input |
| Routes.InsertSorted | routes/predictionRoutes.js:42 | insertion into a list sorted by descending sales keeps it sorted |
| Routes.SortBySalesSorted | routes/predictionRoutes.js:42 | the sort yields descending total sales |
| Routes.TopCategoriesFacts | routes/predictionRoutes.js:35-43 | the top list holds min(5, n) categories: the first entries of a descending permutation of all of them, none selling less than any category left out |
| Routes.Fixed1 | routes/predictionRoutes.js:24-28 | `toFixed(1)` moves a value by at most half a tenth |
| Routes.DashboardFacts | routes/predictionRoutes.js:8-57 | the critical-alert count is the length of the critical list; critical and warning alerts together never exceed the products; the top list has min(5, n) entries; displayed day counts lie in 0..7 |
| Orders.PaymentOf | routes/orderRoutes.js:20-26 | no payment gives COD and unpaid; a missing or empty method becomes `COD`, any other method is kept as given; the transaction id is the client's (none without a payment); an order is paid iff its method is `Direct` or the client said `paid: true` |
| Orders.ValidateOk | routes/orderRoutes.js:31-48 | validation succeeds iff every line names a known product with enough stock; the lines keep product and quantity, take the product price when no numeric price is given, and take the product title when none is given |
| Orders.ValidateErr | routes/orderRoutes.js:31-40 | a failed validation reports the error of the first failing line, and all earlier lines pass |
| Orders.Store.ValidateLines | routes/orderRoutes.js:31-48 | the loop with early returns yields the validation result |
| Orders.Decremented | routes/orderRoutes.js:55-60 | decrementing never adds or drops a product |
| Orders.Restored | routes/orderRoutes.js:152-159 | restoring never adds or drops a product |
| Orders.DecrementedStock | routes/orderRoutes.js:55-60 | after fulfilment each product's stock is its old stock minus the total quantity ordered of it; its other fields are unchanged |
| Orders.RestoredStock | routes/orderRoutes.js:152-159 | after a cancellation each product's stock is its old stock plus the total quantity ordered of it; its other fields are unchanged |
| Orders.CreateThenCancel | routes/orderRoutes.js:55-60 | cancelling an order restores exactly the product table its creation decremented |
| Orders.DuplicateLinesOverdraw | routes/orderRoutes.js:31-40 | each line is checked against the stock before any decrement, so two lines of 3 on a stock of 5 pass validation and leave a stock of −1 |
| Orders.QuantityOfDistinct | routes/orderRoutes.js:55-60 | when each product appears once, its total ordered quantity is its line's quantity |
| Orders.DistinctLinesKeepStock | routes/orderRoutes.js:31-60 | when no product appears twice, a validated order never drives a stock below zero |
| Orders.ProductSales | routes/orderRoutes.js:62-72 | one product sale record per line |
| Orders.CategorySales | routes/orderRoutes.js:74-82 | one category sale record per line |
| Orders.SaleRecordsFacts | routes/orderRoutes.js:55-82 | record k carries line k's product, quantity and price, the order's date, and the product's category and title; its `stockLeft` is the stock after lines 0..k |
| Orders.LastSaleRecord | routes/orderRoutes.js:59-67 | for the last line of a product, `stockLeft` is that product's final stock |
| Orders.StatusChanges | routes/orderRoutes.js:147-160 | re-cancelling and un-cancelling leave stock unchanged; cancelling, reopening and cancelling again restores the quantities twice |
| Orders.Fulfilment | routes/orderRoutes.js:55-83 | the fulfilment loop produces the decremented products and both sale-record lists |
| Orders.Store.Fulfil | routes/orderRoutes.js:55-83 | the store's products become the decremented table and both record lists grow by the order's records; the orders are unchanged |
| Orders.Store.CreateOrder | routes/orderRoutes.js:11-83 | a rejected checkout (no items, unknown product, insufficient stock) returns that error and changes nothing; an accepted one appends a `Confirmed` order with the normalised payment, returns its index, decrements the stock and appends the sale records |
| Orders.Store.Restock | routes/orderRoutes.js:152-160 | the restore loop leaves the products restored by the order's lines and changes nothing else |
| Orders.Store.UpdateStatus | routes/orderRoutes.js:141-166 | an unknown order id changes nothing; otherwise the order takes the new status and the products are restored iff the order becomes `Cancelled` from another status; sale records never change |

## Left out

- Database and HTTP plumbing: `find`, `save`, `findByIdAndUpdate`, `populate`, response codes and JSON shapes. The store is an in-memory value, and request bodies are datatypes.
- The order queries' filters on the products that exist and on order status (`Delivered`, `Shipped`, `Processing`), and the 3- and 6-month lookback windows. They are database queries on the clock. The model takes the orders those queries return.
- Clocks: `Date.now`, `new Date()` and the `date` field of the stock-out prediction. The order time is a parameter of `Orders.Store.CreateOrder`.
- Time zones. A date is a calendar day in one fixed zone, and a timestamp is a date plus milliseconds within the day.
- Floating point. Every quantity is an exact real, so rounding error and `Infinity` are not modelled.
- `Math.sqrt` in the volatility. The model carries the squared volatility and states every comparison on the square.
- Routes.Series: the JavaScript value on an empty history is a NaN series; the model has no series there (`None`). The alert of such a product is therefore computed with no stock-out, as in the source, where every comparison with NaN is false.
- Routes.ProductsRouteNaN: a failing handler is `None`. The 500 response and its message are not modelled.
- Routes.CategoriesRouteFacts: a failing handler is `None`, as on the products route. The 500 response is not modelled.
- Forecast.CalculateWeeklyPattern: requires a non-zero overall sum. With a zero sum the source divides by an average of 0. `PatternEntry` states the resulting JavaScript values (NaN for a zero weekday total, an infinity otherwise).
- Forecast.SeasonalFactor: when the quantities cancel to a zero sum while some weekday total is non-zero, the source's factor is an infinity; the model uses 1 there. Infinite and NaN predictions are not carried into the forecasts. Non-negative histories never reach this case (`Forecast.NonNegativeSeasonalFactor`).
- Forecast.MovingAverage: requires at least one point, because the source divides by zero on an empty history. `Routes.Series` handles that case.
- Routes.TopCategoriesFacts: proves sortedness, permutation and the top-five selection, but not the stability of JavaScript's sort; `InsertBySales` is written stably.
- Routes.CriticalOnlyMembers: states which predictions remain, not that their order is kept.
- Orders: quantities and stock are integers. The source stores numbers, and a fractional quantity is not modelled.
- `!item.title` is modelled as an empty title. Other falsy values (`null`, `undefined`) are not distinguished. A non-numeric price is `None`.
- The JavaScript `Order` and `ProductSale` models beyond the fields used here, such as `total`, shipping and the user. `models/Order.js` is not part of this model.
- The confirmation e-mail (`utils/mailer.js`), the other order routes (list, get, update, delete) and the front-end pages.
- Concurrency. Requests are applied one at a time. A product deleted between validation and decrement, where the source would throw, is excluded by `Known`.
- The order's `_id` is its index in the store.
- The three weight adjustments each add and remove the same amount, so the weights always sum to 1 (`Forecast.AdjustedWeights`); nothing renormalises them.
- Only an average of exactly 0 is replaced by 1 (`avgDailySales || 1`); a small positive average is used as it is (`Aggregation.DaysOfStock`).
