# Stock market sentiment analysis — a Dafny model of its data pipeline

The application forecasts a stock's next-day price from the news. It pulls
news articles, copies the provider's sentiment scores, dates them, averages
them per day and joins them onto Yahoo Finance price rows. On the combined
table it then:

- builds direction labels for a classifier;
- finds the last trading day's close;
- computes the 11-entry feature row for the regression forecast (daily
  return, moving averages, RSI, MACD, ATR, average volume, the last close),
  using the same-day sentiment fetched again from the news service.

This project models those transforms and proves what they promise.

Conventions:

- Prices, volumes and scores are `real`.
- A NaN or missing cell is `None` of `Option`.
- A calendar date is a day number: day 0 is 1970-01-01, a Thursday.
  `Calendar.Weekday` numbers the days the way pandas does, with Monday as 0.
- Exceptions the code would raise are the `Failure` side of `Result`.

Modules, one per source file or concern:

| module | file | models |
|---|---|---|
| `Values` | values.dfy | `Option`, `Result`, `Sum`, `Mean`, Python's NaN-aware `max` |
| `Calendar` | calendar.dfy | day numbers, weekday, civil-date day count |
| `Sentiments` | sentiments.dfy | neg/neu/pos scores, the provider's sentiment mapping |
| `TradingDay` | trading_day.dfy | `is_trading_day` |
| `NewsSentiment` | news_sentiment.dfy | `fetch_news_sentiment` (its loop as a method) |
| `Indicators` | indicators.dfy | rolling means, RSI, EMA/MACD, true range/ATR |
| `Frame` | frame.dfy | combined-table rows and the `dropna` |
| `NextDayFeatures` | next_day_features.dfy | the feature row of `predict_next_trading_day_price` |
| `SentimentFetch` | sentiment_fetch.dfy | `fetch_sentiment_data` and the shared `description_list` (a class) |
| `SentimentAnalysis` | sentiment_analysis.dfy | `get_sentiments_list` and the shared `sentiments_list` (a class) |
| `Combiner` | combiner.dfy | `get_combined_sentiment_and_stock_data`, with the caller's stock frame as a class |
| `LastTradingDay` | last_trading_day.dfy | `get_last_trading_day_price` (its search loop as a method) |
| `DirectionTraining` | direction_training.dfy | target and feature construction of `get_model_accuracy`, with the caller's table as a class |

Three behaviours of the code differ from what their names suggest, and the model follows the code:

- When the 14-row average loss is 0, the code sets `rs` to 0. The RSI then
  comes out as 0, not the textbook 100 (`Indicators.Rsi`,
  `Indicators.RsiOfNonFallingWindowIsZero`).
- The "previous close" feature is the last surviving row's own close, not
  the close before it (`NextDayFeatures.InferenceFeatures`, entry 10).
- `get_model_accuracy` builds data for an up/down classifier; no
  regression is trained there (`DirectionTraining`).

The entries `fetch_sentiment_data` builds carry only date, title and
content. `get_sentiments_list` reads a `sentiment` key from each entry, so
fed those entries it raises at the first one. The model shows this in
`SentimentAnalysis.FetchedDescriptionsCannotBeAnalysed`.

## Model

| member | source | states |
|---|---|---|
| Values.PyMax | predict_next_trading_day_price.py:112 | Python's `max(a, b)` with `b` possibly NaN is at least both defined operands, is one of them, and is `a` when `b` is NaN |
| Values.Abs | predict_next_trading_day_price.py:108-109 | the absolute value is non-negative and is `x` or `-x` |
| Values.Sum | predict_next_trading_day_price.py:41-49 | defines the running total over a sequence, accumulated from the front; characterized by SumAppend, SumAtLeast and SumAtMost |
| Values.Mean | predict_next_trading_day_price.py:52-56 | defines the arithmetic mean, the sum divided by the count; characterized by MeanAtLeast, MeanAtMost and MeanOfConstant |
| Values.SumAppend | predict_next_trading_day_price.py:41-49 | the sum of a concatenation is the sum of the sums |
| Values.SumAtLeast | predict_next_trading_day_price.py:41-49 | a sum of n values each at least `lo` is at least `n * lo` |
| Values.SumAtMost | predict_next_trading_day_price.py:41-49 | a sum of n values each at most `hi` is at most `n * hi` |
| Values.MeanAtLeast | predict_next_trading_day_price.py:52-56 | a mean of values each at least `lo` is at least `lo` |
| Values.MeanAtMost | predict_next_trading_day_price.py:52-56 | a mean of values each at most `hi` is at most `hi` |
| Values.MeanOfConstant | combine_sentiment_and_stock_data.py:24 | the mean of a constant sequence is that constant |
| Calendar.Weekday | trading_day_price_fetcher.py:16 | the weekday of a day number is in 0..6, with Monday as 0 |
| Calendar.DaysFromCivil | trading_day_price_fetcher.py:20-28 | defines the day number of a calendar date (day 0 is 1970-01-01); pinned by CalendarAnchors |
| Calendar.WeekdayNext | trading_day_price_fetcher.py:16 | consecutive days advance the weekday by one, and seven days bring it back |
| Calendar.CalendarAnchors | trading_day_price_fetcher.py:20-28 | 1970-01-01 is day 0, a Thursday; 2024-01-01 is a Monday, 2024-07-04 a Thursday and 2024-12-25 a Wednesday |
| TradingDay.IsTradingDay | trading_day_price_fetcher.py:16-30 | a trading day is always a Monday to Friday |
| TradingDay.WeekendIsNotTradingDay | trading_day_price_fetcher.py:16-17 | Saturdays and Sundays are never trading days |
| TradingDay.Holidays2024AreNotTradingDays | trading_day_price_fetcher.py:20-30 | the three listed 2024 holidays fall on weekdays and are not trading days |
| TradingDay.OtherWeekdaysAreTradingDays | trading_day_price_fetcher.py:20-30 | every Monday to Friday outside the list is a trading day |
| TradingDay.SameHolidaysInOtherYearsAreTradingDays | trading_day_price_fetcher.py:20-30 | the same holidays in 2025 and Independence Day 2023 are trading days: the list is fixed to 2024 |
| NewsSentiment.Contribution | predict_next_trading_day_price.py:46-49 | defines what one item adds to a running total: its score, or 0 for a missing mapping or key; see ItemWithoutSentimentStillCounted |
| NewsSentiment.Contributions | predict_next_trading_day_price.py:45-49 | entry i is item i's contribution, one per item |
| NewsSentiment.AveragedSentiment | predict_next_trading_day_price.py:36-59 | defines the returned scores: zeros without news, otherwise the per-component mean of the contributions; the loop is proved equal to it by FetchNewsSentiment, and it is bounded by AveragesInUnitRange |
| NewsSentiment.FetchNewsSentiment | predict_next_trading_day_price.py:31-59 | the loop's three running totals divided by the item count equal the per-component mean of the items' contributions, and a failed request or an empty or non-list payload gives zeros |
| NewsSentiment.DefaultWithoutNews | predict_next_trading_day_price.py:36-38 | status other than 200, a non-list body or an empty list all give `{neg: 0, neu: 0, pos: 0}` |
| NewsSentiment.ItemWithoutSentimentStillCounted | predict_next_trading_day_price.py:42-55 | an item without a sentiment mapping adds 0 to the totals but 1 to the divisor |
| NewsSentiment.AveragesInUnitRange | predict_next_trading_day_price.py:45-56 | when every provided score is in [0, 1], every returned average is in [0, 1] |
| Indicators.RollingMeanLast | predict_next_trading_day_price.py:91-92 | the last value of a k-row rolling mean is defined exactly when at least k values exist |
| Indicators.RollingMeanBetween | predict_next_trading_day_price.py:91-92 | the rolling mean lies between any bounds on its window's values |
| Indicators.RollingMeanAtLeast | predict_next_trading_day_price.py:96-97 | the rolling mean of values each at least `lo` is at least `lo` |
| Indicators.Gains | predict_next_trading_day_price.py:95-96 | each row's gain is non-negative, and the first row's is 0 |
| Indicators.Losses | predict_next_trading_day_price.py:95-97 | each row's loss is non-negative, and the first row's is 0 |
| Indicators.GainsLossesSplitChange | predict_next_trading_day_price.py:95-97 | at the first row gain and loss are both 0; after it the gain minus the loss is the change from the previous close, and at least one of the two is 0 |
| Indicators.AverageGain | predict_next_trading_day_price.py:96 | the 14-row average gain is defined exactly when at least 14 rows exist |
| Indicators.AverageLoss | predict_next_trading_day_price.py:97 | the 14-row average loss is defined exactly when at least 14 rows exist |
| Indicators.Rsi | predict_next_trading_day_price.py:95-99 | the RSI is defined exactly when at least 14 rows exist, lies in [0, 100), and is exactly 0 when the average loss is 0 |
| Indicators.RsiRange | predict_next_trading_day_price.py:99 | `100 - 100 / (1 + rs)` lies in [0, 100) for every `rs >= 0` |
| Indicators.RsiAtLeastFiftyIffGainsDominate | predict_next_trading_day_price.py:96-99 | with a positive average loss, the RSI is at least 50 exactly when the average gain is at least the average loss |
| Indicators.RsiOfNonFallingWindowIsZero | predict_next_trading_day_price.py:97-99 | a 14-row window in which no close falls gives an RSI of 0 |
| Indicators.SpanAlpha | predict_next_trading_day_price.py:102-103 | the smoothing factor `2 / (span + 1)` lies in (0, 1] |
| Indicators.Ema | predict_next_trading_day_price.py:102-103 | defines `ewm(adjust=False).mean().iloc[-1]`: the first value starts the average and each later value moves it by the smoothing factor; characterized by EmaBetween |
| Indicators.EmaBetween | predict_next_trading_day_price.py:102-103 | the exponential average never leaves the range of the values it averages |
| Indicators.ConvexBetween | predict_next_trading_day_price.py:102-103 | one smoothing step `a * x + (1 - a) * e` stays within bounds that hold for `x` and `e` |
| Indicators.Macd | predict_next_trading_day_price.py:102-104 | defines the 12-span minus the 26-span average, without a signal line; characterized by MacdWithinRange and MacdOfConstantIsZero |
| Indicators.MacdWithinRange | predict_next_trading_day_price.py:102-104 | the MACD is no wider than the range of the closes |
| Indicators.MacdOfConstantIsZero | predict_next_trading_day_price.py:102-104 | a constant close series has MACD 0 |
| Indicators.TrueRange | predict_next_trading_day_price.py:107-112 | the true range is at least high - low and at least both distances to the previous close, and equals one of them; at the first row it is high - low |
| Indicators.TrueRanges | predict_next_trading_day_price.py:107-112 | one true range per row: high - low at the first row, and at every later row the true range of that row against the previous row's close |
| Indicators.Atr | predict_next_trading_day_price.py:107-113 | the ATR is defined exactly when at least 14 rows exist |
| Indicators.AtrNonNegative | predict_next_trading_day_price.py:107-113 | the ATR is non-negative when no high is below its low |
| Frame.DropMissing | predict_next_trading_day_price.py:77 | the surviving rows are never more than the input rows, and a table with no NaN in the seven checked columns survives whole |
| Frame.DropMissingAppend | predict_next_trading_day_price.py:77 | dropping distributes over concatenation, so the survivors keep their order |
| Frame.DropMissingFromRows | predict_next_trading_day_price.py:77 | every surviving row is a complete input row |
| Frame.DropMissingPricesAgree | predict_next_trading_day_price.py:77 | tables agreeing on completeness and price cells keep the same surviving prices |
| Frame.Closes | predict_next_trading_day_price.py:88 | entry i is the close of surviving row i, and there is one per row |
| Frame.Highs | predict_next_trading_day_price.py:107 | entry i is the high of surviving row i, and there is one per row |
| Frame.Lows | predict_next_trading_day_price.py:107 | entry i is the low of surviving row i, and there is one per row |
| Frame.Volumes | predict_next_trading_day_price.py:116 | entry i is the volume of surviving row i, and there is one per row |
| NextDayFeatures.DailyReturn | predict_next_trading_day_price.py:88 | the daily return is undefined exactly when the second-to-last close is 0; otherwise applying it to that close gives the last close |
| NextDayFeatures.InferenceFeatures | predict_next_trading_day_price.py:77-124 | the feature row fails exactly when fewer than two complete rows remain; otherwise it has 11 entries: the fetched neg/neu/pos, then daily return, SMA 5, SMA 20, RSI, MACD, ATR, 5-row average volume, and the last row's own close |
| NextDayFeatures.IncompleteRowIsIgnored | predict_next_trading_day_price.py:77 | a row with a NaN in a checked column has no effect on any feature, wherever it stands |
| NextDayFeatures.HistoricalSentimentIsUnused | predict_next_trading_day_price.py:77-124 | the history's sentiment values never reach the feature row, only the fetched ones do |
| NextDayFeatures.LongHistoryDefinesEveryFeature | predict_next_trading_day_price.py:88-124 | with 20 or more complete rows and a non-zero second-to-last close, all 11 entries are defined |
| NextDayFeatures.FlatMarketFeatures | predict_next_trading_day_price.py:88-124 | a flat market of 20 or more rows gives return, RSI, MACD and ATR 0, both averages the price and the average volume the volume |
| NextDayFeatures.FlatIndicators | predict_next_trading_day_price.py:88-116 | on 20 or more rows at one positive price and one volume, the return, RSI, MACD and ATR are 0, both moving averages are the price and the average volume is the volume |
| SentimentFetch.RepairTimezone | fetch_sentiment_data.py:36-37 | a date ending in `+00:0` gets its last character replaced by `00`, so it ends in `+00:00`; any other date is unchanged; no result ends in `+00:0` |
| SentimentFetch.RepairIsIdempotent | fetch_sentiment_data.py:36-37 | repairing a repaired date changes nothing |
| SentimentFetch.Describe | fetch_sentiment_data.py:40-51 | an article whose date does not parse gives nothing; otherwise an entry with the formatted date, the title and content copied, and no sentiment |
| SentimentFetch.Kept | fetch_sentiment_data.py:30-53 | a call appends at most one entry per article |
| SentimentFetch.KeptAppend | fetch_sentiment_data.py:30-53 | skipping does not stop the loop and entries keep the articles' order |
| SentimentFetch.KeptAllParse | fetch_sentiment_data.py:30-53 | when every date parses, entry i is article i's description |
| SentimentFetch.UnparsableArticleIsSkipped | fetch_sentiment_data.py:40-44 | an article whose date fails to parse contributes nothing |
| SentimentFetch.FetchSentimentData | fetch_sentiment_data.py:27-58 | the shared list grows by exactly the kept entries on status 200 and not at all otherwise, and the returned list is the shared one |
| SentimentFetch.FetchTwice | fetch_sentiment_data.py:14-58 | two identical calls append the same entries twice: the function is not idempotent |
| SentimentAnalysis.Analyse | perform_sentiment_analysis.py:23-28 | a record exists exactly when the description has a sentiment with polarity, neg, neu and pos; its compound is the polarity and the rest are copied |
| SentimentAnalysis.Records | perform_sentiment_analysis.py:21-30 | record i is the analysis of description i, one per description |
| SentimentAnalysis.GetSentimentsList | perform_sentiment_analysis.py:21-32 | on success the shared list grows by the records in input order and is the result; a missing key stops at its index with the earlier records already appended |
| SentimentAnalysis.AnalyseTwice | perform_sentiment_analysis.py:8-32 | two identical calls append the records twice, and an empty input changes nothing |
| SentimentAnalysis.FetchedDescriptionsCannotBeAnalysed | perform_sentiment_analysis.py:23-27 | the entries `fetch_sentiment_data` builds have no sentiment, so a non-empty list of them cannot be analysed |
| SentimentAnalysis.KeptHaveNoSentiment | fetch_sentiment_data.py:47-51 | no kept entry carries a sentiment mapping |
| Combiner.ParseDates | combine_sentiment_and_stock_data.py:19-20 | the dates parse as a whole exactly when each one does, and date i is description i's |
| Combiner.Pair | combine_sentiment_and_stock_data.py:19-20 | record i is sentiment record i with date i, one per sentiment record |
| Combiner.PairUnzips | combine_sentiment_and_stock_data.py:19-20 | the dated records give back exactly the date list and the record list |
| Combiner.MapCompound | combine_sentiment_and_stock_data.py:21 | a positive compound becomes the number -1, a negative one the set {-1}, zero the set {0} |
| Combiner.ValuesOn | combine_sentiment_and_stock_data.py:24 | a date's group holds at most one cell per record; characterized by ValuesOnAppend, ValuesOnOneDay, RecordInItsGroup and GroupCellsFromDay |
| Combiner.ValuesOnAppend | combine_sentiment_and_stock_data.py:24 | grouping distributes over concatenation, so each record of the date contributes its cell once, in record order |
| Combiner.ValuesOnOneDay | combine_sentiment_and_stock_data.py:24 | records that all carry the date give exactly their cells, repeated values included |
| Combiner.ValuesOnNonEmpty | combine_sentiment_and_stock_data.py:24 | every date that occurs has at least one record, so its mean is defined |
| Combiner.RecordInItsGroup | combine_sentiment_and_stock_data.py:24 | every record contributes to the group of its own date |
| Combiner.GroupCellsFromDay | combine_sentiment_and_stock_data.py:24 | every value in a group comes from a record of that date |
| Combiner.MeanOn | combine_sentiment_and_stock_data.py:24 | defines a date's group mean, the mean of its cells, defined for every occurring date; characterized by GroupMeanInUnitRange, UniformDayMean and CombinedRowsCarryGroupMeans |
| Combiner.GroupByDate | combine_sentiment_and_stock_data.py:24 | there is one group per distinct sentiment date and none other |
| Combiner.GroupCompoundIsMinusOne | combine_sentiment_and_stock_data.py:21-24 | a numeric compound column averages to -1 on every date |
| Combiner.GroupMeanInUnitRange | combine_sentiment_and_stock_data.py:24 | group means of scores in [0, 1] are in [0, 1] |
| Combiner.UniformDayMean | combine_sentiment_and_stock_data.py:24 | a date whose records share one value has that value as its mean |
| Combiner.Joined | combine_sentiment_and_stock_data.py:33-34 | defines a merged row: the stock row's cells and its date's group; see InnerJoinRowsFromBars |
| Combiner.InnerJoin | combine_sentiment_and_stock_data.py:33-34 | the join has at most as many rows as the stock table, each dated with a grouped date |
| Combiner.InnerJoinAppend | combine_sentiment_and_stock_data.py:33-34 | the join distributes over concatenation, so rows follow the stock order |
| Combiner.InnerJoinDates | combine_sentiment_and_stock_data.py:33-34 | the joined dates are the stock dates that have a group |
| Combiner.InnerJoinRowsFromBars | combine_sentiment_and_stock_data.py:33-34 | every joined row is a stock row, unchanged, with the group of its date |
| Combiner.InnerJoinKeepsMatches | combine_sentiment_and_stock_data.py:33-34 | every stock row whose date has a group reaches the output |
| Combiner.InnerJoinTotal | combine_sentiment_and_stock_data.py:33-34 | when every stock date has a group, no stock row is lost |
| Combiner.Combine | combine_sentiment_and_stock_data.py:14-34 | an unparsable date, a date list whose length differs from a non-empty record list, and an empty record list (no `compound` column) each raise, exactly in those cases; the call succeeds exactly when every date parses and the two lists are non-empty and of equal length, and the table then has at most as many rows as the stock table |
| Combiner.CombinedDatesAreIntersection | combine_sentiment_and_stock_data.py:19-34 | the combined dates are exactly the stock dates that are also sentiment dates |
| Combiner.CombinedRowsCarryGroupMeans | combine_sentiment_and_stock_data.py:24-34 | each combined row carries a stock row's Close/High/Low/Volume unchanged and the mean neg, neu and pos of its date's records |
| Combiner.CombinedCompound | combine_sentiment_and_stock_data.py:21-24 | each combined row's compound is -1 when every record's compound is positive, and absent when any is not |
| Combiner.NoCommonDateGivesEmptyTable | combine_sentiment_and_stock_data.py:33-34 | with no common date the result is an empty table, not an error |
| Combiner.RowDatesEmpty | combine_sentiment_and_stock_data.py:33-34 | a table has no dates exactly when it has no rows |
| Combiner.FirstLevel | combine_sentiment_and_stock_data.py:27-28 | each column label is cut to its first level |
| Combiner.Flattened | combine_sentiment_and_stock_data.py:27-28 | every label has one level afterwards, and one-level labels are left as they are |
| Combiner.IndexColumnName | combine_sentiment_and_stock_data.py:31 | the inserted column is `Date` for the dated index, `index` for an unnamed index while no `index` column exists, and `level_0` once it does |
| Combiner.RepeatedCallsNameTheIndexColumn | combine_sentiment_and_stock_data.py:27-31 | repeated calls on one frame insert `Date`, then `index`, then `level_0`, and the fourth call finds its label taken |
| Combiner.CallFourTimes | combine_sentiment_and_stock_data.py:27-34 | four calls on one fresh frame with well-formed sentiment return the combined table three times, inserting `Date`, `index` and `level_0`, and the fourth raises because `level_0` is taken |
| Combiner.GetCombinedSentimentAndStockData | combine_sentiment_and_stock_data.py:14-34 | a sentiment-side error is returned with the frame untouched; otherwise the columns are flattened to one level; an index label that is already a column raises with the frame left flattened; otherwise that label is put first and the index reset; a frame with no `Date` column then raises, and any other gives the combined table above; the price rows never change |
| LastTradingDay.LatestDate | get_last_trading_day_price.py:20-23 | the latest date is a table date no earlier than any other |
| LastTradingDay.CloseOn | get_last_trading_day_price.py:28-35 | the close returned is the close of some row with that date |
| LastTradingDay.SearchBack | get_last_trading_day_price.py:32-36 | defines the search of the days 1 to 7 back for the first table date; characterized by SearchBackFindsNearest and computed by the loop of GetLastTradingDayPrice |
| LastTradingDay.SearchBackFindsNearest | get_last_trading_day_price.py:32-36 | the search finds the nearest earlier table date in the window, and finds nothing exactly when that part of the window holds no table date |
| LastTradingDay.LastTradingDayQuote | get_last_trading_day_price.py:17-38 | an empty table raises, and only an empty table |
| LastTradingDay.GetLastTradingDayPrice | get_last_trading_day_price.py:17-38 | the bounded loop returns what the lookup specifies |
| LastTradingDay.QuoteComesFromTable | get_last_trading_day_price.py:23-36 | any returned date is a table date in [latest - 7, latest], with a close of a row of that date |
| LastTradingDay.WeekdayLatestIsReturned | get_last_trading_day_price.py:26-29 | a latest date on Monday to Friday is returned |
| LastTradingDay.WeekendFallsBackToNearest | get_last_trading_day_price.py:32-36 | on a weekend the returned date is earlier than the latest, and no table date lies between them |
| LastTradingDay.NothingFoundIffEmptyWindow | get_last_trading_day_price.py:26-38 | `(None, None)` comes back exactly when the latest date is a weekend and the 7 days before it hold no table date |
| LastTradingDay.SaturdayCanBeReturned | get_last_trading_day_price.py:33-36 | the fallback date is not checked for being a weekday: a Saturday can be returned |
| DirectionTraining.NextCloses | train_machine_learning_model.py:13 | row t of the shifted column is the close of row t + 1, and the last row's cell is NaN |
| DirectionTraining.DirectionLabels | train_machine_learning_model.py:13 | one label per row; for every row but the last it is 1 exactly when the next close is strictly higher; every label is 0 or 1; the last is 0 |
| DirectionTraining.CloseColumn | train_machine_learning_model.py:13 | the Close column, row by row |
| DirectionTraining.SentimentFeatures | train_machine_learning_model.py:16 | feature row i is row i's neg, neu and pos, in that order |
| DirectionTraining.DropLast | train_machine_learning_model.py:20-21 | `[:-1]` keeps every element but the last, and an empty sequence stays empty |
| DirectionTraining.BuildTrainingSet | train_machine_learning_model.py:13-24 | X and y both have one row fewer than the table (none for an empty table) |
| DirectionTraining.TrainingRowsAlign | train_machine_learning_model.py:13-24 | row t of X is row t's neg/neu/pos and row t of y is 1 exactly when row t + 1 closes strictly higher, else 0 |
| DirectionTraining.FlatOrMissingCloseIsDown | train_machine_learning_model.py:13 | an unchanged close, or a missing close on either side, gives the label 0 |
| DirectionTraining.RisingSeriesIsAllUp | train_machine_learning_model.py:13-21 | a strictly rising close series labels every kept day 1 |
| DirectionTraining.PrepareTrainingData | train_machine_learning_model.py:13-24 | the caller's table gains a target column of one label per row, its rows unchanged, and X and y are the training set above |

## Left out

- HTTP requests, `.env` key loading and the "now in US/Eastern" date. The response status and decoded body are parameters of `NewsSentiment.FetchNewsSentiment` and `SentimentFetch.FetchSentimentData`.
- `datetime.fromisoformat`, `strftime('%d %b %Y')` and `pd.to_datetime` of the description dates are abstract functions. They are a partial parse and a format supplied by the caller.
- `strftime('%Y-%m-%d')` on the returned date: `LastTradingDay` returns the day number itself.
- The imputer, scaler and model of the forecast. The train/test split, classifier, `model.score` and printing in `get_model_accuracy` are also left out. These are foreign library calls. The model stops at the values handed to them.
- IEEE floating point. Values are exact reals. The NaN or infinity of a division by zero, or of a window not yet full, is `None`.
- `NewsSentiment.FetchNewsSentiment`: a provider item that is itself not a mapping raises AttributeError at `item.get` (predict_next_trading_day_price.py:46), and an item whose `sentiment` is JSON `null` or not a mapping raises one line later. The model has mapping items with or without a sentiment mapping only. A score key that is present but `null` is not modelled either: `.get('neg', 0)` then returns None and the `+=` at predict_next_trading_day_price.py:47-49 raises TypeError, while the model, whose None means an absent key, adds 0.
- `SentimentAnalysis.Analyse`: a sentiment key that is present but `null` is not modelled. The source copies a `null` polarity into the record as a None compound without raising. What happens later depends on the other records. If no record has a numeric polarity, the comparison `None > 0` in the lambda of combine_sentiment_and_stock_data.py:21 raises TypeError. If any record has one, `pd.DataFrame` at line 14 stores the None as NaN; the lambda maps NaN to the set `{0}`, nothing raises, and the compound column, no longer numeric, is dropped by the mean at line 24. The model, whose None means an absent key, reports the missing-key error instead.
- `LastTradingDay.CloseOn`: among several rows of the latest date, which close the unstable sort puts first is not modelled. The contract only says the close is that of a row with that date.
- `LastTradingDay.GetLastTradingDayPrice`: the in-place `pd.to_datetime` of the caller's `Date` column is the identity on day numbers, so the caller's table is not modelled as changed.
- `Combiner.GetCombinedSentimentAndStockData`: of the five columns line 33 selects, only a missing `Date` is modelled as an error; the price rows always carry Close, High, Low and Volume. The merged table's second date column (`date`) is not kept, since it equals `Date`.
- SentimentFetch.FetchSentimentData: an article missing its date, title or content key raises KeyError mid-loop after the earlier entries were appended, and a status-200 body that is not a list of mappings fails in the loop of line 30; the article type always carries these keys and the articles arrive as a list, so these paths are not modelled.
- `Combiner.Cell`: the compound column is averaged only when it is numeric, that is when every cell is -1. The value of a set-valued cell is never read.
- pandas representation details: dtype inference, the `DatetimeIndex` membership test of `is_trading_day`, intraday times and time zones.
- app.py (the Streamlit interface), preprocess_text.py, stock_price_data.py, stock_price_plotter.py and `fetch_current_stock_price`. They are user interface, text cleanup against library lexicons, network calls and plotting, and they are not part of this model.
