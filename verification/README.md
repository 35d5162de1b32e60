# Rainfall prediction dashboard: the data-shaping core

The dashboard (`app.py`) is a single Streamlit page that shows rainfall
predictions computed elsewhere by a ConvLSTM model. It loads a results
table, derives a few values from it, and draws them. This project models
that derivation as functions over the ordered table, a `seq<Record>` whose
records carry the four columns `Aktual_Rain`, `Prediksi_Rain`,
`Kategori_Aktual` and `Kategori_Prediksi`. The derived values are:

- the rainfall category classifier `kategori_hujan`: Rendah below 5 mm,
  Sedang from 5 to under 20 mm, Tinggi from 20 mm;
- the three headline metrics, one per predicted category;
- the category distribution in the fixed order Rendah, Sedang, Tinggi,
  with 0 for a category that does not occur;
- the cross-tabulation of actual against predicted category;
- the N-day forecast table, labelled `Hari +1` … `Hari +N` and
  re-classified;
- the head preview of the first rows.

Rainfall values are Dafny `real`s. The classifier only compares them with
5 and 20, so nothing depends on floating-point rounding. NaN values are not
represented (see "## Left out"). Category labels
stay `string`s, so a label other than the three categories can appear in
the data, and the model shows what each aggregate does with it.

Files:

- `kategori.dfy` (module `Kategori`): the classifier and the ordinal rank of its labels.
- `dashboard.dfy` (module `Dashboard`): the record type, the aggregates and one render pass.
- `counting.dfy` (module `Counting`): counting occurrences in sequences. This module holds the
  induction proofs that the aggregates rely on.
- `decimal.dfy` (module `Decimal`): decimal text of a natural number, as the
  f-string `f"Hari +{i+1}"` writes it, with a parser that reads it back.

Behaviour of app.py that shapes the model:

- **Short dataset.** When the table has fewer rows than `hari_prediksi`,
  `tail(hari_prediksi)` (app.py:170) yields fewer values than the
  `hari_prediksi` day labels built at app.py:173, and the `pd.DataFrame`
  constructor (app.py:172-175) raises on the column-length mismatch.
  `ForecastSlice` returns `Err(ColumnLengthMismatch(N, |data|))` exactly
  then. `RenderPass` then stops with the widgets drawn before that point,
  as a Streamlit script does when it raises.
- **Horizon bounds.** app.py does not check the horizon itself. The only
  bound is the slider's range, 1 to 7 (app.py:60-65), which `RenderPass`
  takes as its `requires`. `ForecastSlice` accepts any `nat`.
- **Labels.** The day labels are `Hari +k` (app.py:173), and the category
  names are Rendah, Sedang and Tinggi (app.py:17-23, 120).
- **Zero cells.** `pd.crosstab` (app.py:156-159) gives the full grid: every
  observed actual label against every observed predicted label, so pairs
  that never occur together hold 0. The worked example (`ExampleCrosstab`)
  shows such a zero cell.

## Model

| member | source | states |
|---|---|---|
| `Kategori.KategoriHujan` | app.py:17-23 | Always returns one of Rendah, Sedang, Tinggi. It returns Rendah iff v < 5, Sedang iff 5 <= v < 20, and Tinggi iff v >= 20, for every real v, negative values included. |
| `Kategori.KategoriMonotone` | app.py:17-23 | If a <= b, the rank of the category of a in Rendah < Sedang < Tinggi is at most the rank of the category of b. |
| `Kategori.KategoriBoundaries` | app.py:18-20 | Each cut point goes to the upper bucket: 5 gives Sedang and 20 gives Tinggi. 4.999 gives Rendah and 19.999 gives Sedang. |
| `Kategori.Rank` | app.py:17-23 | Gives each of the three labels its position in the display order Rendah, Sedang, Tinggi. |
| `Dashboard.PredictedLabels` | app.py:80-82 | The `Kategori_Prediksi` column (also read at app.py:122 and 158) has one entry per row, in row order, and entry i is row i's predicted label. |
| `Dashboard.ActualLabels` | app.py:157 | The `Kategori_Aktual` column has one entry per row, in row order, and entry i is row i's actual label. |
| `Dashboard.LabelPairs` | app.py:156-159 | The pairs that `pd.crosstab` counts: one per row, in row order, and entry i is row i's (actual label, predicted label). |
| `Dashboard.CountPredicted` | app.py:80-82 | `(data["Kategori_Prediksi"] == k).sum()` is at most the number of rows. It is 0 iff no row has predicted label k. |
| `Dashboard.CountPredictedRows` | app.py:80-82 | The boolean-sum count for a label is the number of row indices whose `Kategori_Prediksi` is exactly that label. |
| `Dashboard.Headline` | app.py:80-82 | The three metrics together equal the number of rows whose predicted label is one of the three categories. |
| `Dashboard.HeadlineRows` | app.py:80-82 | The Rendah, Sedang and Tinggi metrics are each the number of rows whose `Kategori_Prediksi` is exactly that category. |
| `Dashboard.HeadlineTotal` | app.py:80-82 | The metrics sum to at most the number of rows. They sum to exactly that number iff every predicted label is Rendah, Sedang or Tinggi, so a row with any other label counts toward no metric. |
| `Dashboard.ValueCounts` | app.py:122-123 | `value_counts` has a key for exactly the labels that occur. Each key maps to its number of occurrences, which is positive. |
| `Dashboard.Reindex` | app.py:124-126 | `reindex(order).fillna(0)` has one entry per label of `order`, in that order. An entry holds the label's count, or 0 when the label is absent. |
| `Dashboard.Distribution` | app.py:120-127 | The distribution has exactly the keys Rendah, Sedang, Tinggi in that order. Each entry is that category's predicted-label count, and an absent category gets 0. |
| `Dashboard.DistributionMatchesHeadline` | app.py:120-127 | Each bar of the distribution equals the headline metric of the same category. |
| `Dashboard.Crosstab` | app.py:156-159 | The table has a cell (a, p) iff a occurs as an actual label and p occurs as a predicted label. The row and column label sets are each the labels observed on that axis. |
| `Dashboard.CrosstabCell` | app.py:156-159 | Cell (a, p) is the number of rows with `Kategori_Aktual == a` and `Kategori_Prediksi == p`. |
| `Dashboard.CrosstabColumn` | app.py:156-159 | Summing column p over any duplicate-free list of row labels that covers every actual label gives the number of rows predicted as p. |
| `Dashboard.CrosstabTotal` | app.py:156-159 | Summing all cells over duplicate-free row and column lists that cover the data gives the number of rows. |
| `Dashboard.CrosstabConsistent` | app.py:156-159 | Over the table's own row and column labels, the grid sums to the number of rows. The Rendah, Sedang and Tinggi columns sum to the matching headline metrics. |
| `Dashboard.PredictedRain` | app.py:170 | The `Prediksi_Rain` column has one entry per row, in row order, and entry i is row i's predicted value. |
| `Dashboard.Tail` | app.py:170 | `tail(n)` holds the last min(n, length) elements, in their original order. |
| `Decimal.NatToString` | app.py:173 | The decimal text of n is a non-empty digit string with no leading zero. It starts with 0 only when n is 0, and the text of 0 is exactly `0`. |
| `Decimal.ParseNatToString` | app.py:173 | Reading the decimal text of n back gives n. |
| `Decimal.NatToStringInjective` | app.py:173 | Different numbers have different decimal texts. |
| `Dashboard.DayLabel` | app.py:173 | The f-string `f"Hari +{k}"` is the prefix `Hari +` followed by the decimal text of k, so it is longer than the prefix alone. |
| `Dashboard.DayLabelReadsBack` | app.py:173 | A day label starts with `Hari +`, and the rest is a digit string that reads back as the day number. |
| `Dashboard.DayLabels` | app.py:173 | The label list for n days has length n, and entry i is the label of day i + 1. |
| `Dashboard.DayLabelInjective` | app.py:173 | Two different day numbers never get the same `Hari +k` label. |
| `Dashboard.DayLabelsDistinct` | app.py:173 | The n day labels are pairwise different. |
| `Dashboard.DayLabelText` | app.py:173 | Day 1 is labelled exactly `Hari +1` and day 7 exactly `Hari +7`. |
| `Dashboard.ForecastFrame` | app.py:172-175 | The two-column table is built iff its columns have the same length. Otherwise it is a length-mismatch error naming both lengths. |
| `Dashboard.AddKategori` | app.py:177-179 | The added `Kategori` of each row is `kategori_hujan` of that row's predicted value. Nothing else in the row changes. |
| `Dashboard.ForecastSlice` | app.py:170-179 | Succeeds iff N <= the number of rows, and otherwise fails with the column-length mismatch (N, number of rows). On success it has N rows. Row i is labelled day i + 1 and holds the predicted value of data row (number of rows - N + i), so the values are the last N predicted values in their original order. Each row's category is `kategori_hujan` of its value. |
| `Dashboard.ForecastDaysDistinct` | app.py:172-175 | The rows of a forecast table have pairwise different day labels. |
| `Dashboard.ForecastKategoriMonotone` | app.py:177-179 | Every forecast category is one of the three labels. A row with a smaller or equal predicted value never has a higher category. |
| `Dashboard.Head` | app.py:216-218 | `head(k)` is the unmodified prefix of the table of length min(k, number of rows). |
| `Dashboard.HeadMonotone` | app.py:216-218 | A preview of j <= k rows is a prefix of the preview of k rows. |
| `Dashboard.SliderRange` | app.py:53-65 | Admits exactly 5 to 200 preview rows and 1 to 7 forecast days. |
| `Dashboard.SliderBounds` | app.py:53-65 | The initial values (30 rows, 3 days) lie inside the ranges. Each end of a range is admitted, and the values just outside are not. |
| `Dashboard.RenderPass` | app.py:53-218 | Requires the slider ranges. The page completes iff the horizon is at most the number of rows. When it halts, its error is the column-length mismatch (horizon, number of rows). The metrics, the distribution (equal to the metrics in Rendah, Sedang, Tinggi order) and the cross-tabulation are always computed. A completed page has 1 to 7 forecast rows, as `ForecastSlice` gives them. Its preview is `Head(data, jumlahData)`, a prefix of the data with between min(5, rows) and 200 rows. |
| `Dashboard.ExampleHeadline` | app.py:80-82 | On the three-row example, the metrics are Rendah 1, Sedang 0 and Tinggi 2. |
| `Dashboard.ExampleCrosstab` | app.py:156-159 | On the same example, the grid is 3 actual labels by 2 predicted labels, with the co-occurring pairs at 1 and a non-occurring pair at 0. |
| `Dashboard.ExampleForecast` | app.py:170-179 | On the same example, the 2-day table is (`Hari +1`, 22, Tinggi), (`Hari +2`, 30, Tinggi). A 4-day table fails. |

## Left out

- Page shell: `set_page_config`, the HTML header and footer, the sidebar text, `st.metric`, `st.dataframe` and `st.download_button` (app.py:8-12, 28-37, 51, 67-71, 161, 181-185, 231-249). These only render. The two sliders are kept as the integer ranges of `SliderRange`.
- Charts: the trend chart of `Aktual_Rain` against `Prediksi_Rain`, the bar chart with its annotation loop, and the forecast line chart (app.py:91-111, 129-147, 188-202). These only draw, so `Aktual_Rain` is carried in `Record` but no operation reads it.
- Loading: `pd.read_csv` behind `@st.cache_data` (app.py:42-46). This is file I/O plus memoisation. The model starts from the loaded sequence.
- CSV export: `data.to_csv(index=False).encode("utf-8")` (app.py:229). pandas' CSV writer and reader are not part of this model, so no export round trip is stated.
- Missing values: pandas drops NaN labels in `value_counts` and `crosstab`. Every record here has string labels.
- Row and column order of the cross-tabulation: pandas sorts the labels, and the model's table is a map with no order. The sums in `CrosstabColumn` and `CrosstabTotal` hold for any duplicate-free enumeration of the labels.
- NaN and infinite rainfall values: a `real` cannot hold them. In app.py a NaN `Prediksi_Rain` (a blank cell read by `pd.read_csv`) reaches `kategori_hujan` through `.apply` (app.py:177-179). There both `nilai < 5` and `nilai < 20` are false, so it is classified Tinggi. `KategoriHujan` does not cover that case.
- Floating point: rainfall is an exact `real`. The classifier only compares against 5 and 20, and the other aggregates move values without arithmetic.
