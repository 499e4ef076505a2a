# Ethereum node map: the metric engine

This Dafny project models the computing core of the Ethereum node map viewer, the React
component in `src/App.js`. The viewer loads two datasets:

- node records, one country code and a count per record;
- country statistics: code, name, GDP, population and land area.

It joins the two datasets by country code, then derives one of ten per-country metrics:

- 1: node count;
- 2–4: GDP, land area or population, floored at 1;
- 5–7: nodes per trillion USD of GDP, per million km² or per million people;
- 8–10: the same three ratios expressed as z-scores.

For each metric it colours a world map, with the colour axis, legend and tooltip chosen for that
metric. It also lists the same points in a table, sorted from greatest to smallest value.

The model follows the code's structure:

- `Joiner`: `preprocessData`. The per-country dictionary is built by a loop (`CountNodes`) and
  proved against a reference total (`NodeTotal`).
- `Stats`: `getStandardDeviation`, and the mean and z-score steps of metrics 8–10.
- `Numbers`: the JavaScript number semantics the branches depend on:
  - NaN, which also stands for `undefined`;
  - ±Infinity;
  - `<` and `> 0`, which are false on NaN;
  - `v || 0` and `Math.max`.
- `Metrics`: the ten branches of `updateMap`, collapsed into one descriptor table (`Lookup`)
  plus the shared pipeline `Derive` → `KeepPositive` → `Standardize` → `AxisFor`.
- `Sorting`: the final in-place sort, as an insertion sort on an array.
- `App`: the component state.
  - `updateMap` mutates the shared `colorAxis`, `legend.title` and `tooltip` objects. Every
    shallow copy of `mapBaseOptions` points at them, so they are one `Style` object.
  - The series data and the table data are one array, which is sorted in place.
  - Metric selection and the initial load re-run `updateMap` only when the metric id changes.

## Model

| member | source | states |
|---|---|---|
| Joiner.AddCount | src/App.js:142 | An absent key contributes the record's count alone; a present total grows by exactly that count (the `\|\|` fallback never changes a present sum). |
| Joiner.NodeTotalUnobserved | src/App.js:145 | A country code that no node record carries totals 0. |
| Joiner.NodeTotalAppend | src/App.js:141-143 | Totals are additive over concatenated node lists. |
| Joiner.CountNodes | src/App.js:140-143 | The dictionary's keys are exactly the codes that occur in the node records, and each key maps to the sum of that code's counts. |
| Joiner.PreprocessData | src/App.js:138-148 | One output per country record, in the same order: the record unchanged plus `nodes`, which is its code's total, or 0 when no node record has that code. |
| Joiner.JoinIgnoresUnmatched | src/App.js:144-146 | Node records whose code matches no country record leave the join unchanged. |
| Joiner.JoinAddsToMatching | src/App.js:140-146 | One more node record raises exactly the matching country's total by its count. |
| Joiner.JoinExample | src/App.js:138-148 | Node records USA 10, USA 5 and DEU 3 joined with USA, DEU and FRA: USA 10 + 5 gives 15, DEU 3, FRA with no records 0. |
| Stats.Mean | src/App.js:152 | n copies of the mean add up to the sum of the values. |
| Stats.SumOfSquaresNonNegative | src/App.js:153 | The summed squared deviations from any centre are never negative. |
| Stats.Variance | src/App.js:150-154 | The population variance (divisor n) is never negative. |
| Stats.ZScoresRoundTrip | src/App.js:371-373 | Every z-score maps back to its value: `z * sd + mean == x`. |
| Stats.SumScaledBack | src/App.js:367-373 | Terms that scale back to `x - m` have a sum that scales back to `Sum(x) - n * m`. |
| Stats.SumOfSquaresScaledBack | src/App.js:150-154 | For such terms, the sum of squares is the sum of squared deviations divided by `sd²`. |
| Stats.ZScoresSumToZero | src/App.js:366-373 | Z-scores taken about the true mean sum to 0, so their mean is 0. |
| Stats.ZScoresUnitVariance | src/App.js:150-154 | With `sd` the population standard deviation (`sd > 0`), the z-scores have population variance exactly 1. |
| Stats.TwoValueExample | src/App.js:150-154 | For [10, 20]: mean 15, variance 25, standard deviation 5, z-scores [-1, 1]. |
| Numbers.Less | src/App.js:482 | JavaScript `<`: false when either side is NaN, the real order on finite values, -Infinity below and +Infinity above every finite value. |
| Numbers.OrZero | src/App.js:177 | `v \|\| 0` is never NaN, keeps every positive value, and maps NaN to 0. |
| Numbers.MathMax | src/App.js:177 | `Math.max` of two values is NaN if either is NaN; otherwise it is one of the two and not below either. |
| Numbers.LessTotal | src/App.js:482 | Off NaN, `<` is a strict total order: two values that are not less than each other are equal. |
| Numbers.NotLessTransitive | src/App.js:482 | "Not less than" is transitive among values that are all NaN or none NaN. |
| Metrics.RawValue | src/App.js:160-445 | Metric 1's value is the node count. Metrics 2–4 give at least 1, equal to the statistic unless it is below 1. A ratio times its denominator is nodes × scale. Over a zero denominator the ratio is NaN with no nodes and +Infinity with some. |
| Metrics.Lookup | src/App.js:156-481 | A branch exists exactly for ids 1–10. Ids 1–7 drop non-positive values; ids 8–10 standardise. Each id is paired with its rule: field and scale 1e3 or 1e6. |
| Metrics.KeepPositive | src/App.js:164 | `filter(c => c.value > 0)`: every kept value is positive, and each point occurs as often as in the input if positive, otherwise never. |
| Metrics.KeepPositiveKeepsAll | src/App.js:193 | The filter is the identity on an all-positive series. |
| Metrics.KeepPositiveMembers | src/App.js:164 | A point survives the filter exactly when it is in the series and positive. |
| Metrics.DeriveCount | src/App.js:160-162 | A derived series holds each joined row exactly as often as the rows do, paired with its value, and no other point. |
| Metrics.DeriveMembers | src/App.js:160-162 | A derived point pairs a joined row with that row's value, and every row appears. |
| Metrics.Standardize | src/App.js:366-373 | An empty series throws; rows are kept in order. With finite values and `sd > 0`, the values are z-scores that scale back to the input, sum to 0 and have variance 1. Otherwise every value is NaN. |
| Metrics.Compute | src/App.js:158-373 | One branch's series. Only the standardisation throws, and only on an empty series. Without it the series holds exactly the joined rows valued by the branch's rule (only the positive ones when the branch filters), each as often as it occurs among the rows. With it there is one point per row, in order. |
| Metrics.AxisFor | src/App.js:177-182 | Metrics 8–10 get the fixed linear axis from -1 to 1 with the red, red, white, blue stops, whatever the data (src/App.js:387-398). Metrics 1–7 get a logarithmic white-to-blue axis from 1. Its top is not below any value (`v \|\| 0`), is one of them, or is -Infinity for an empty series. |
| Metrics.MaxValue | src/App.js:177 | `Math.max(...values.map(v => v \|\| 0))` is -Infinity when empty, never NaN, not below any mapped value, and is one of them. |
| Metrics.NodeCountSeries | src/App.js:160-164 | Metric 1 keeps exactly the countries with at least one node, each valued at its node count and each as often as it occurs among the rows. |
| Metrics.FlooredSeries | src/App.js:189-193 | Metrics 2–4 keep every country, in order, valued at its statistic or at 1 when the statistic is below 1. |
| Metrics.FlooredKeepsAll | src/App.js:187-193 | For any floored rule the `> 0` filter removes nothing. |
| Metrics.RatioPositive | src/App.js:276-280 | A ratio is positive if and only if the country has nodes and a non-negative denominator. |
| Metrics.RatioSeries | src/App.js:276-280 | Metrics 5–7 keep exactly the countries with nodes and a non-negative denominator, each as often as it occurs among the rows. Every kept value is positive, and it is +Infinity exactly when the denominator is 0. |
| Metrics.LogAxisCoversSeries | src/App.js:177-184 | For metrics 1–7 the axis is logarithmic and starts at 1. Its top is not below any kept value and is one of them, or -Infinity when nothing is kept. |
| Metrics.StandardizedSeries | src/App.js:363-373 | Metrics 8–10 throw on an empty table and otherwise keep every country in order. When `sd > 0` and every ratio is finite, each country's value is its own ratio's z-score: times `sd` plus the mean of all ratios it gives back that ratio. The values then sum to 0 and have variance 1. They are all NaN when `sd = 0` or some denominator is 0. |
| Metrics.StandardizedRatios | src/App.js:363-373 | The same facts, each value the z-score of its own row's ratio, for any descriptor that standardises a ratio. |
| Metrics.TableSeriesUniform | src/App.js:482 | Every computed series is all NaN or free of NaN, which is what the sort needs. |
| Metrics.NodeCountExample | src/App.js:158-186 | For USA with 15 nodes, DEU with 3 and FRA with none, metric 1 drops France and gives [USA 15, DEU 3], already descending. |
| Metrics.KeepFirstTwo | src/App.js:164 | Filtering three points of which only the last is not positive keeps the first two. |
| Metrics.GdpExample | src/App.js:187-215 | For the same three countries, metric 2 keeps all three: USA 25000, DEU 4000, FRA 2800. |
| Metrics.StandardizedExample | src/App.js:361-373 | Ratios 10 and 20 have standard deviation 5 and become z-scores -1 and +1. |
| Sorting.SortDescending | src/App.js:482 | The array ends sorted descending under JavaScript's `<` and is a permutation of its input. The input must be all NaN or free of NaN. |
| Sorting.InsertLast | src/App.js:482 | One insertion step extends the sorted prefix by one, preserving the multiset. |
| Sorting.SwapStep | src/App.js:482 | Swapping the moving value with a smaller left neighbour keeps the insertion invariant and the multiset. |
| Sorting.SortedAfterInsert | src/App.js:482 | When the moving value stops, the prefix up to it is sorted. |
| App.Style.constructor | src/App.js:10-51 | The shared objects start as `mapBaseOptions` has them: axis 1–1000, white to blue, logarithmic; legend "Ethereum Nodes"; the node tooltip. |
| App.Style.Restyle | src/App.js:178-185 | After a branch's assignments the shared axis, legend title and tooltip hold exactly that branch's values. |
| App.Unvalued | src/App.js:157 | Before a branch runs, every joined row has an undefined (NaN) value. |
| App.SortedArray | src/App.js:482-483 | The table array is fresh, sorted descending, and a permutation of the computed series. |
| App.App.constructor | src/App.js:82-87 | The initial state: no data, metric 0, an empty table, and the base options, whose shared style holds the base axis, the legend "Ethereum Nodes" and the node tooltip. |
| App.App.UpdateMap | src/App.js:156-484 | With no branch for the id, the options and shared style are unchanged and the table gets the unvalued join, sorted. When the standardisation throws, nothing changes. Otherwise the shared style holds the branch's axis, legend and tooltip, and the options' series and the table are one array: the computed series, sorted and permuted. |
| App.App.Show | src/App.js:178-185 | The end of `updateMap`: with a branch, the shared style holds its axis, legend and tooltip and the map shows the table array; without one, the options and style are untouched. In both cases the table is a fresh array, sorted descending and a permutation of the series (src/App.js:482-483). |
| App.App.Load | src/App.js:116-121 | The data is stored and metric 1 selected. If the metric changed, the shared style holds metric 1's axis, legend and tooltip, and the map's series and the table are one fresh array: metric 1's series, sorted and permuted. If metric 1 was already selected, the map, table and style stay as they were. |
| App.App.SelectMetric | src/App.js:486-488 | Selecting the current metric changes nothing. A new metric is stored, and `updateMap` runs for it. With a branch, the shared style holds the branch's axis, legend and tooltip, and the map's series and the table are one fresh array: the series, sorted and permuted. When the standardisation throws, the map, table and style stay as they were. With no branch, the map and style are kept and the table gets the unvalued join. |

## Left out

- Not modelled:
  - the React machinery: hooks, effects and re-rendering;
  - fetching and parsing the two JSON files;
  - Highcharts, the data table, the JSX layout and the modals.
- Display settings are not part of this model, because they never depend on the data:
  - `joinBy`;
  - the hover colour;
  - the chart size.
- `scripts/1_map_nodes_to_countries.py`, the offline preparation of the node file, is not part of
  this model.
- `Math.sqrt` is not modelled. The standard deviation is a parameter `sd`, constrained to be the
  non-negative root of the population variance whenever every value is finite (`StdevOf`).
- Numbers are exact reals. IEEE-754 rounding and negative zero are not modelled.
  - Equal floating-point values can give a mean that differs from them in the last bit. The
    model then has `sd = 0`, where a browser may get a tiny non-zero deviation.
- Only the values a division can produce appear: NaN, ±Infinity and finite values. Missing
  `gdp`/`landArea`/`population` fields are not modelled; every country record carries numbers.
- JavaScript object-key quirks are not modelled. Country codes are plain strings, and
  `nodeCount` is a map.
- `filterClients`, `filterSyncStatus` and the `nodeData.filter(() => true)` placeholder are not
  modelled: they filter nothing.
- Sorting.SortDescending does not fix the order of equal values. The comparator never returns 0,
  so it is not a consistent comparator, and the ECMAScript language specification (section
  23.1.3.30, `Array.prototype.sort`) then leaves the order implementation-defined. The model
  keeps ties in input order.
- Sorting.SortDescending requires a series that is all NaN or free of NaN. Every series
  `updateMap` produces has this property (`Metrics.TableSeriesUniform`). On a mixed series the
  source comparator is inconsistent, and its result is not specified.

## Notes on the code as written

In these cases the code behaves differently from what its comments or labels suggest. The model
follows the code:

- Metrics 2–4 still apply the `> 0` filter. It removes nothing, because the floor makes every
  value at least 1 (`Metrics.FlooredKeepsAll`).
- In metrics 5–7, a country with nodes and a zero denominator gets +Infinity. That value passes
  the `> 0` filter and becomes the top of the colour axis (`Metrics.RatioSeries`,
  `Metrics.LogAxisCoversSeries`).
- In metrics 8–10, a zero standard deviation or a zero denominator anywhere turns every value
  into NaN; no error is raised. An empty table makes `getStandardDeviation` throw, because its
  `reduce` has no initial value, and the map and table then stay as they were.
- Loading data while metric 1 is already selected (the "Nodes" button is live during the load,
  src/App.js:506) makes `setMapType(1)` a no-op. The effect then does not run, and the loaded data
  is not shown until another metric is chosen (`App.App.Load`).
- With a metric id outside 1–10, the map options are left unchanged, but the table is still
  replaced by the joined rows with undefined values.
