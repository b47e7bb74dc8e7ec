# Cloudy&Shiny Index — a Dafny model

The Cloudy&Shiny Index is a 0–100 market "weather" gauge. Each of thirteen
components (eleven market instruments, the US dollar index and a news
sentiment score) gets a 0–100 score; the index is the weight-averaged score of
the components that produced data, clamped to [0, 100] and labelled Extreme
Shiny, Shiny, Neutral, Cloudy or Extreme Cloudy.

This project models the calculation and the scheduled builder around it:

- `scoring.dfy` (`Scoring`): the distance score of a close against its
  50-row moving average (standard and reversed), the technical indicators and
  the score of one component, including its "No Data" and fallback paths.
- `sentiment.dfy` (`Sentiment`): the keyword tables, the keyword score, the
  classifier score, the keyword/classifier blend, per-page and overall news
  sentiment with its disagreement damping, strength and impact weight, and the
  RSS feed sentiment.
- `aggregation.dfy` (`Aggregation`): the weight table, the sentiment bands and
  `calculate_index`.
- `history.dfy` (`History`): the builder's history update (one point per
  minute, sorted by timestamp, capped at 10 000 points) and the calculator's
  rolling 500-point series, on a `HistoryStore` class whose `series` field is
  a history file: `AppendHistory` models the builder's `data/history.json`
  (scripts/build_index.py:58), `AppendAndTrim` the calculator's separate
  `website/data/history.json` (cloudy_shiny_index.py:623).
- `builder.dfy` (`Builder`): `compute_index` with its hourly placeholder, and
  one run of the builder's `main` on a `Site` class whose fields are the
  snapshot, health and history files.
- `forecast.dfy` (`Forecast`): rolling an AR(p) model forward, the guards of
  `fit_ar` and `advanced_forecast` with its confidence band.
- `common.dfy` (`Common`) and `text.dfy` (`Text`): sums, means, variance,
  clamping, and ASCII lower-casing, stripping and substring search.

Inputs the calculator reads from the outside world are parameters: the closes
each price symbol returned (a map, a missing key meaning the fetch failed),
the raw headings of each news page, the parsed RSS entries, the transformer
classifier (a function from text to an optional verdict), the fitted AR model,
the calculator's result for the builder, and which file write fails.

Behaviour worth knowing:

- when no component is active the base index is 50
  (cloudy_shiny_index.py:538); with the real weight table that branch never
  runs, because the news component is always active with weight 0.08
  (`NoMarketDataMeansNewsOnly`);
- `compute_index` never raises (its exception handler returns the
  placeholder), so the builder's failure branch is reachable only through a
  failing write or a history file that `append_history` cannot process. The
  model takes the failure as an input: `CurrentWriteFails` for the snapshot
  write, `HistoryWriteFails` for a failing history write and for a history
  object holding an entry without a "timestamp" key or a non-object entry,
  which leave the same state;
- the RSS keyword score clamps the net count to [-8, 8] before the score to
  [10, 90]; the news score clamps only the score. `KeywordSentimentRss` proves
  both give the same value.

## Model

| member | source | states |
|---|---|---|
| Scoring.DistanceScore | cloudy_shiny_index.py:35-70 | the score lies in [0, 100]; a zero average gives (50, 0); otherwise the reported ratio is (current - ma) / ma |
| Scoring.DistanceScoreReversed | cloudy_shiny_index.py:72-88 | the reversed score lies in [0, 100]; a zero average gives (50, 0) |
| Scoring.DistanceScoreAnchors | cloudy_shiny_index.py:48-53 | the documented examples: 50 at the average, 75 at 10% above, 25 at 10% below |
| Scoring.DistanceScoreSaturates | cloudy_shiny_index.py:52-53 | at 20% or more above a positive average the score is 100, at 20% or more below it is 0 |
| Scoring.DistanceScoreMonotone | cloudy_shiny_index.py:58-68 | over a positive average a higher price never gets a lower score |
| Scoring.ReversedIsComplement | cloudy_shiny_index.py:72-88 | the reversed score is 100 minus the standard score and reports the same signed ratio |
| Scoring.Window | cloudy_shiny_index.py:229 | the moving-average window is at most 50 rows and at most the series length, and non-empty for a non-empty series |
| Scoring.TechnicalIndicators | cloudy_shiny_index.py:221-237 | no indicators for fewer than two closes; otherwise the current price is the last close and the average is the mean of the last min(50, n) closes |
| Scoring.MovingAverageWithin | cloudy_shiny_index.py:228-229 | the moving average and the current price lie in any band holding every close |
| Scoring.InstrumentScore | cloudy_shiny_index.py:487-504 | an instrument score lies in [0, 100] and is 50 when the price or the average is zero |
| Scoring.ComponentScore | cloudy_shiny_index.py:435-517 | the news component is active with the news score; a price component is "No Data" with score 50 exactly when its fetch failed or returned fewer than two closes, and its score lies in [0, 100]; contribution is weight times score |
| Scoring.InverseFlagMirrorsScore | cloudy_shiny_index.py:493-496 | flipping a component's inverse flag mirrors its score around 50 |
| Scoring.PositivePricesUseDistanceFormula | cloudy_shiny_index.py:487-497 | two or more positive closes make the component active with the distance score of the last close against the moving average |
| Scoring.FlatSeriesIsNeutral | cloudy_shiny_index.py:487-504 | a series that never moves is active and scores exactly 50, inverse or not |
| Text.StripSpec | cloudy_shiny_index.py:390 | the stripped text occurs inside the original and neither begins nor ends with whitespace |
| Text.StripLeftSpec | cloudy_shiny_index.py:390 | left stripping drops only leading whitespace and stops at the first other character |
| Text.StripRightSpec | cloudy_shiny_index.py:390 | right stripping keeps a prefix, drops only trailing whitespace and stops at the last other character |
| Text.Lower | cloudy_shiny_index.py:390 | lower-casing keeps the length and maps every character on its own |
| Sentiment.KeywordTotalSpec | cloudy_shiny_index.py:395-396 | a keyword counts once however often it occurs, so the total is at most the table's weight; it is zero exactly when no keyword of positive weight occurs |
| Sentiment.KeywordSentimentNews | cloudy_shiny_index.py:397-401 | the keyword score lies in [10, 90], is 50 when positives and negatives balance, and equals 50 + 5 * net clamped to [10, 90] |
| Sentiment.KeywordSentimentRss | cloudy_shiny_index.py:307-312 | the RSS formula, with its extra clamp of the net count, gives the same score as the news formula |
| Sentiment.NoKeywordIsNeutral | cloudy_shiny_index.py:397-398 | a text without any keyword scores 50 |
| Sentiment.ModelScoreOf | cloudy_shiny_index.py:246-253 | a negative verdict maps into [0, 50], any other verdict into [50, 100] |
| Sentiment.ModelScoreMonotone | cloudy_shiny_index.py:249-253 | more confidence lowers a negative verdict's score and raises any other's |
| Sentiment.ModelSentimentScore | cloudy_shiny_index.py:239-256 | a classifier score exists exactly when a classifier is loaded, the text is not blank and the classifier answers on the first 450 characters |
| Sentiment.HeadlineScore | cloudy_shiny_index.py:402-403 | without a classifier score the keyword score; with one, their midpoint, lying between the two |
| Sentiment.HeadlineScoreWithin | cloudy_shiny_index.py:395-403 | a headline scores in [10, 90] without a classifier and in [5, 95] with one |
| Sentiment.OverallSentiment | cloudy_shiny_index.py:413-420 | 50 without page means; otherwise their mean, pulled 10% toward 50 when two or more means have a standard deviation above 15 |
| Sentiment.Strength | cloudy_shiny_index.py:421-422 | strength lies in [0, 1] and is 1 at 40 or more points from 50 |
| Sentiment.ImpactWeight | cloudy_shiny_index.py:428 | the impact weight runs from 0.15 at strength 0 to 0.25 at strength 1 |
| Sentiment.KeptHeadlinesSpec | cloudy_shiny_index.py:389-392 | a text is kept exactly when it is the lower-cased, stripped form of a raw heading and has 10 or more characters and names no navigation word |
| Sentiment.KeptHeadlinesAppend | cloudy_shiny_index.py:389-392 | filtering keeps the order of the headings: kept headings of a concatenation are those of each part, in turn |
| Sentiment.ScorePage | cloudy_shiny_index.py:386-404 | the headings kept on a page are the lower-cased, stripped headings of 10 or more characters naming no navigation word, in order, each with its headline score |
| Sentiment.AnalyzeNewsSentiment | cloudy_shiny_index.py:350-433 | over the first three pages: the score is the overall sentiment of the per-page means, one mean per page with a kept heading; the counts, the first ten 140-character samples, strength and impact weight (in [0.15, 0.25]) follow |
| Sentiment.HeadlineScoresWithin | cloudy_shiny_index.py:389-404 | every headline score of a page lies in any band holding every possible headline score |
| Sentiment.SourceMeansWithin | cloudy_shiny_index.py:405-407 | every page mean lies in that band too |
| Sentiment.OverallWithin | cloudy_shiny_index.py:413-420 | averaging and damping keep the overall score inside any band around 50 holding every page mean |
| Sentiment.NewsScoreWithin | cloudy_shiny_index.py:350-433 | the news score lies in [10, 90] without a classifier and in [5, 95] with one whose probabilities lie in [0, 1] |
| Sentiment.RssScoreIsNewsScore | cloudy_shiny_index.py:304-319 | a feed entry's text scores exactly as the same heading on a news page |
| Sentiment.ScoreFeedEntries | cloudy_shiny_index.py:294-321 | every entry whose joined, lower-cased, stripped text has 10 or more characters is scored, in order |
| Sentiment.AnalyzeReutersRss | cloudy_shiny_index.py:258-348 | a feed that fails to parse gives (50, 0, 0); otherwise the first 20 entries are scored and the score is their mean, 50 without any, with its strength and count |
| Sentiment.RssScoresWithin | cloudy_shiny_index.py:294-321 | every feed entry score lies in [5, 95] |
| Sentiment.RssScoreWithin | cloudy_shiny_index.py:330-334 | the feed's score lies in [5, 95] |
| Aggregation.Classify | scripts/build_index.py:92-101 | each of the five labels holds exactly on its band: [75, ∞), [51, 75), [50, 51), [25, 50), below 25 |
| Aggregation.ClassifyMonotone | cloudy_shiny_index.py:545-560 | a higher value never gets a cloudier label |
| Aggregation.WeightsSumToOne | cloudy_shiny_index.py:99-124 | the thirteen static weights add up to exactly 1 |
| Aggregation.ActiveCount | cloudy_shiny_index.py:571 | the number of active components never exceeds the number of components |
| Aggregation.CalculateIndex | cloudy_shiny_index.py:519-581 | the results are the component scores in table order; the base index is the active-weighted mean (50 when no weight is active); the index is its clamp to [0, 100], labelled by its band; active count at most total count |
| Aggregation.ResultsSpec | cloudy_shiny_index.py:529-531 | result i is the score of component i with its own fetched closes |
| Aggregation.ContributionWithin | cloudy_shiny_index.py:533-535 | the active contributions lie between lo and hi times the active weight, which is non-negative |
| Aggregation.BaseIndexWithin | cloudy_shiny_index.py:538 | the base index is a convex combination: it lies in any band around 50 holding every active score |
| Aggregation.ResultsWellFormed | cloudy_shiny_index.py:528-535 | with non-negative weights and a news score in [0, 100] every result has a score in [0, 100] and contribution weight times score |
| Aggregation.ComponentWellFormed | cloudy_shiny_index.py:435-517 | a single component result is well formed under the same conditions |
| Aggregation.ClampIsIdentity | cloudy_shiny_index.py:538-544 | under those conditions the base index already lies in [0, 100], so the clamp never changes it |
| Aggregation.NoDataInactive | cloudy_shiny_index.py:459-471 | price components whose fetch failed are all inactive and contribute nothing |
| Aggregation.NoMarketDataMeansNewsOnly | cloudy_shiny_index.py:528-538 | when every market fetch fails only the news component is active and the base index is the news score |
| History.MinuteKey | scripts/build_index.py:124 | the minute key is the first 16 characters of the timestamp (all of a shorter one) |
| History.LexLeTotal | scripts/build_index.py:133 | any two timestamps are ordered one way or the other |
| History.LexLeTransitive | scripts/build_index.py:133 | the timestamp order is transitive |
| History.LexLeReflexive | scripts/build_index.py:133 | every timestamp is ordered with itself |
| History.SortedPairwise | scripts/build_index.py:133 | in a sorted series every earlier point has a timestamp not greater than every later one |
| History.Insert | scripts/build_index.py:133 | inserting a point adds it once and changes nothing else as a bag |
| History.SortByTimestamp | scripts/build_index.py:133 | sorting keeps the length and the bag of points |
| History.InsertSorted | scripts/build_index.py:133 | inserting into a sorted series keeps it sorted |
| History.SortSorts | scripts/build_index.py:133 | the sorted series is ordered by timestamp and is a permutation of the input |
| History.LastInMinuteSpec | scripts/build_index.py:125-127 | the minute lookup gives the last point of that minute, or -1 exactly when the minute is absent |
| History.UpsertSpec | scripts/build_index.py:126-131 | a present minute has its last point replaced by the new point, length unchanged; an absent one gets the point appended |
| History.UpsertMultiset | scripts/build_index.py:126-131 | as a bag the series loses at most the replaced point and gains the new one |
| History.UpsertKeepsUnique | scripts/build_index.py:123-131 | replacing or appending keeps one point per minute |
| History.InsertKeepsUnique | scripts/build_index.py:133 | inserting a point of a new minute keeps one point per minute |
| History.SortKeepsUnique | scripts/build_index.py:133 | sorting keeps one point per minute |
| History.KeepLast | scripts/build_index.py:134-135 | the trimmed series is the last min(len, cap) points |
| History.KeepLastKeeps | scripts/build_index.py:134-135 | trimming keeps a series sorted and one point per minute |
| History.AppendedSpec | scripts/build_index.py:120-138 | after an update the series is sorted and within 10 000 points, keeps one point per minute, and holds the new point unless the cap cut it off |
| History.SameMinuteDoesNotGrow | scripts/build_index.py:125-129 | a second point within a recorded minute does not grow the series |
| History.HistoryStore.constructor | scripts/build_index.py:121-122 | the store starts with the series read from the file |
| History.HistoryStore.FindMinute | scripts/build_index.py:125 | the loop over the series finds the last point of the minute, or -1 |
| History.HistoryStore.AppendHistory | scripts/build_index.py:120-138 | the series becomes the updated, sorted, trimmed series and the count returned is its length, at most 10 000 |
| History.HistoryStore.AppendAndTrim | cloudy_shiny_index.py:622-639 | the rolling series gets the new point appended and keeps its last 500 points; the new point is last |
| Builder.HourHash | scripts/build_index.py:85 | the hour hash lies in [0, 99] |
| Builder.Placeholder | scripts/build_index.py:82-88 | the placeholder lies in [20, 79.4] |
| Builder.PlaceholderAtMidnight | scripts/build_index.py:82-88 | sanity check of the hash arithmetic: the placeholder for 2025-01-01 hour 00 is 44.6 (hash 41) |
| Builder.PlaceholderAtOne | scripts/build_index.py:82-88 | sanity check of the hash arithmetic: the placeholder for 2025-01-01 hour 01 is 52.4 (hash 54) |
| Builder.ComputeIndex | scripts/build_index.py:62-88 | the value lies in [0, 100]: the calculator's value clamped, or the placeholder in [20, 79.4] when the calculator failed |
| Builder.OkPayload | scripts/build_index.py:153-162 | a successful snapshot carries the time, the value, its band label and status ok |
| Builder.ErrorPayload | scripts/build_index.py:172-181 | the error marker has status error, value 0 and label Unknown |
| Builder.AfterFailure | scripts/build_index.py:168-181 | a failed run keeps an existing snapshot and otherwise leaves the error marker (time `now`, value 0, label Unknown, status error) |
| Builder.FailureKeepsGoodSnapshot | scripts/build_index.py:171-172 | a failed run never replaces a good snapshot |
| Builder.Site.constructor | scripts/build_index.py:141-146 | a site starts with the given snapshot and history and no health record |
| Builder.Site.Run | scripts/build_index.py:141-193 | a clean run writes the ok snapshot and updates the history; a failing snapshot write keeps or marks the snapshot and leaves the history; a failing history write keeps the new snapshot and the old history; health records time, history length, value and success; exit code 0 exactly on success |
| Forecast.DotUsesLastValues | ml_forecast.py:30-31 | only the last `order` values enter the lag product |
| Forecast.Step | ml_forecast.py:25-35 | with fewer values than the order the step repeats the last value, otherwise it lies in [0, 100] |
| Forecast.Rollout | ml_forecast.py:21-36 | a roll-out of n steps has n predictions |
| Forecast.Forecast | ml_forecast.py:21-36 | the loop produces the roll-out: each prediction is made from the history followed by the predictions before it |
| Forecast.RolloutWithin | ml_forecast.py:30-35 | from a history in [0, 100] every prediction lies in [0, 100] |
| Forecast.ShortHistoryRepeatsLast | ml_forecast.py:25-29 | while history and predictions are shorter than the order, every prediction repeats the last observed value |
| Forecast.FirstStepUsesLags | ml_forecast.py:30-33 | with enough history the first prediction is the clamped intercept plus the lag product of the last `order` values |
| Forecast.Range | ml_forecast.py:46 | the range holds exactly the numbers from lo to hi |
| Forecast.CandidateOrders | ml_forecast.py:42-46 | the orders tried are exactly 2 to min(max order, n - 2), none for fewer than 8 points |
| Forecast.FittedModelUsesLags | ml_forecast.py:39-74 | a fitted model is well formed and has an order between 2 and n - 2, so forecasting from its series never falls back |
| Forecast.AdvancedForecast | ml_forecast.py:77-93 | naive exactly when no model was fitted (always below 8 points), and then the prediction is the last value; otherwise the first AR prediction with its order and rmse, and a band 0 <= lower <= prediction <= upper <= 100 |
| Forecast.RolloutPrefix | ml_forecast.py:81-83 | the first k predictions of a longer roll-out are the roll-out of k steps |

## Left out

- Network access: `get_market_data` (Yahoo Finance download and the live
  price patch of the last row), the news page download and HTML heading
  extraction (tag choice and the 15/20 heading limits), and the RSS download
  and parse are not modelled; their results are parameters.
- The transformer classifier is a parameter; loading it is not modelled.
- The least-squares fit, AIC selection and ridge term of `fit_ar` are not
  modelled: the fitted model is a parameter constrained by what `fit_ar`
  guarantees (`Forecast.Admissible`).
- File I/O is modelled as fields of `Site` and `HistoryStore`; JSON
  encoding, atomic replacement, unreadable files falling back to defaults,
  the CSV/JSON archive files of `save_results` and `news_sentiment.json` are
  not modelled. History entries without a "timestamp" key, or that are not
  objects, are modelled only through their effect: the run fails as with
  `HistoryWriteFails`. A failing health-file write is not modelled.
- Builder.Site.Run: a run in which the error-marker write itself raises (so
  `main` ends by exception with no snapshot written) is not modelled;
  `CurrentWriteFails` assumes the error marker is written. Nor is a history
  file whose JSON is not an object (a list, `null`) or whose "series" has no
  length: there the health record's own reading of the file raises too, so
  `main` ends by exception without writing health or returning 1.
- Floating point: values are exact reals. Rounding of published values to 2,
  3 or 4 decimals, NaN and infinity checks (`math.isfinite`, `pd.isna`) are
  not modelled; a non-finite calculator value is the `None` case of
  `Builder.ComputeIndex`.
- Scoring.InstrumentScore: a NaN price or average (the `pd.isna` fallback to
  50) is not modelled, because values are reals.
- Sentiment.OverallSentiment: the standard-deviation test `std > 15` is
  written as the population variance exceeding 225, the same test on
  non-negative reals without a square root.
- Sentiment.AnalyzeReutersRss: the 100-character samples of analysed entries
  are built but not returned by the source, so they are not modelled.
- Sentiment.AnalyzeNewsSentiment: a page that raises part-way through its
  headings is modelled as a page with no headings.
- Text: lower-casing and whitespace are ASCII only; Python's Unicode case
  mapping and whitespace classes are not modelled.
- Forecast.Forecast and Forecast.AdvancedForecast require a non-empty history
  (and at least one step when a model was fitted), because the source raises
  `IndexError` there; that error path is not modelled.
- Timestamps, logging, colours, timing (`calculation_time`), the message
  strings of the snapshot and health files, and the snapshot's always-empty
  component list are not modelled.
- api_server.py and scripts/update_pages_data.py are not part of this model.
