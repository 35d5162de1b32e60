/** The data shaping of the rainfall prediction dashboard (app.py): the
    loaded results table is an ordered sequence of records, and every widget
    shows a value computed from it (headline counts per predicted category,
    the category distribution, the actual-versus-predicted cross-tabulation,
    the N-day forecast table and the head preview). */
module Dashboard {
  import opened Counting
  import opened Kategori
  import Decimal

  /** One row of the results file, with its four columns. Labels are kept as
      strings so that a label outside the three categories can occur. */
  datatype Record = Record(
    Aktual_Rain: real,
    Prediksi_Rain: real,
    Kategori_Aktual: string,
    Kategori_Prediksi: string)

  function Min(a: nat, b: nat): nat {
    if a <= b then a else b
  }

  // ---------------------------------------------------------------------
  // Columns of the table

  /** The column `Kategori_Prediksi`. */
  function PredictedLabels(data: seq<Record>): (c: seq<string>)
    ensures |c| == |data|
    ensures forall i :: 0 <= i < |data| ==> c[i] == data[i].Kategori_Prediksi
  {
    seq(|data|, i requires 0 <= i < |data| => data[i].Kategori_Prediksi)
  }

  /** The column `Kategori_Aktual`. */
  function ActualLabels(data: seq<Record>): (c: seq<string>)
    ensures |c| == |data|
    ensures forall i :: 0 <= i < |data| ==> c[i] == data[i].Kategori_Aktual
  {
    seq(|data|, i requires 0 <= i < |data| => data[i].Kategori_Aktual)
  }

  /** The two category columns zipped row by row, as `crosstab` pairs them. */
  function LabelPairs(data: seq<Record>): (c: seq<(string, string)>)
    ensures |c| == |data|
    ensures forall i :: 0 <= i < |data| ==> c[i] == (data[i].Kategori_Aktual, data[i].Kategori_Prediksi)
  {
    seq(|data|, i requires 0 <= i < |data| => (data[i].Kategori_Aktual, data[i].Kategori_Prediksi))
  }

  /** The column `Prediksi_Rain`. */
  function PredictedRain(data: seq<Record>): (c: seq<real>)
    ensures |c| == |data|
    ensures forall i :: 0 <= i < |data| ==> c[i] == data[i].Prediksi_Rain
  {
    seq(|data|, i requires 0 <= i < |data| => data[i].Prediksi_Rain)
  }

  // ---------------------------------------------------------------------
  // Headline metrics

  /** `(data["Kategori_Prediksi"] == kategori).sum()`: the rows whose predicted
      label is exactly `kategori`. */
  function CountPredicted(data: seq<Record>, kategori: string): (n: nat)
    ensures n <= |data|
    ensures n == 0 <==> forall i :: 0 <= i < |data| ==> data[i].Kategori_Prediksi != kategori
  {
    var c := PredictedLabels(data);
    assert kategori in c <==> exists i :: 0 <= i < |data| && data[i].Kategori_Prediksi == kategori;
    Count(c, kategori)
  }

  /** The count is the number of row indices holding that predicted label. */
  lemma CountPredictedRows(data: seq<Record>, kategori: string)
    ensures CountPredicted(data, kategori) == |set i | 0 <= i < |data| && data[i].Kategori_Prediksi == kategori|
  {
    var c := PredictedLabels(data);
    CountIsPositions(c, kategori);
    assert Positions(c, kategori) == set i | 0 <= i < |data| && data[i].Kategori_Prediksi == kategori;
  }

  /** The three headline metrics, one per category. */
  datatype Ringkasan = Ringkasan(rendah: nat, sedang: nat, tinggi: nat)

  function Headline(data: seq<Record>): (m: Ringkasan)
    ensures m.rendah + m.sedang + m.tinggi == CountIn(PredictedLabels(data), Elems(Order))
  {
    var c := PredictedLabels(data);
    OrderDistinct();
    SumCountsIsCountIn(c, Order);
    assert Order[1..] == [Sedang, Tinggi] && Order[1..][1..] == [Tinggi] && Order[1..][1..][1..] == [];
    assert SumCounts(c, [Tinggi]) == Count(c, Tinggi);
    assert SumCounts(c, [Sedang, Tinggi]) == Count(c, Sedang) + Count(c, Tinggi);
    Ringkasan(CountPredicted(data, Rendah), CountPredicted(data, Sedang), CountPredicted(data, Tinggi))
  }

  /** Each metric is the number of rows whose predicted label is exactly that category. */
  lemma HeadlineRows(data: seq<Record>)
    ensures Headline(data).rendah == |set i | 0 <= i < |data| && data[i].Kategori_Prediksi == Rendah|
    ensures Headline(data).sedang == |set i | 0 <= i < |data| && data[i].Kategori_Prediksi == Sedang|
    ensures Headline(data).tinggi == |set i | 0 <= i < |data| && data[i].Kategori_Prediksi == Tinggi|
  {
    CountPredictedRows(data, Rendah);
    CountPredictedRows(data, Sedang);
    CountPredictedRows(data, Tinggi);
  }

  /** The metrics add up to at most the number of rows, and to exactly that
      number when, and only when, every predicted label is one of the three
      categories: a row with any other label is counted by no metric. */
  lemma HeadlineTotal(data: seq<Record>)
    ensures Headline(data).rendah + Headline(data).sedang + Headline(data).tinggi <= |data|
    ensures Headline(data).rendah + Headline(data).sedang + Headline(data).tinggi == |data|
        <==> forall i :: 0 <= i < |data| ==> data[i].Kategori_Prediksi in Order
  {
  }

  // ---------------------------------------------------------------------
  // Category distribution

  /** `value_counts()`: each label that occurs, with its number of occurrences. */
  function ValueCounts(labels: seq<string>): (m: map<string, nat>)
    ensures forall l :: l in m <==> l in labels
    ensures forall l :: l in m ==> m[l] == Count(labels, l) > 0
  {
    map l | l in labels :: Count(labels, l)
  }

  /** `reindex(order).fillna(0)`: the entries for `order`, in that order, 0 where absent. */
  function Reindex(m: map<string, nat>, order: seq<string>): (r: seq<(string, nat)>)
    ensures |r| == |order|
    ensures forall i :: 0 <= i < |order| ==> r[i].0 == order[i]
    ensures forall i :: 0 <= i < |order| ==> r[i].1 == if order[i] in m then m[order[i]] else 0
  {
    seq(|order|, i requires 0 <= i < |order| => (order[i], if order[i] in m then m[order[i]] else 0))
  }

  /** `kategori_count`: the predicted-label counts for Rendah, Sedang and
      Tinggi in that order; a category that never occurs still has an entry, 0. */
  function Distribution(data: seq<Record>): (r: seq<(string, nat)>)
    ensures |r| == |Order|
    ensures forall i :: 0 <= i < |Order| ==> r[i].0 == Order[i] && r[i].1 == CountPredicted(data, Order[i])
  {
    Reindex(ValueCounts(PredictedLabels(data)), Order)
  }

  /** Each bar of the distribution equals the corresponding headline metric. */
  lemma DistributionMatchesHeadline(data: seq<Record>)
    ensures Distribution(data) == [(Rendah, Headline(data).rendah), (Sedang, Headline(data).sedang), (Tinggi, Headline(data).tinggi)]
  {
  }

  // ---------------------------------------------------------------------
  // Cross-tabulation of actual against predicted category

  /** The full grid of a row-label set and a column-label set. */
  function Grid(rows: set<string>, cols: set<string>): set<(string, string)> {
    set a, p | a in rows && p in cols :: (a, p)
  }

  /** `pd.crosstab(Kategori_Aktual, Kategori_Prediksi)`: one cell for every
      observed actual label against every observed predicted label (pairs
      that never co-occur hold 0), each cell the number of rows with that pair. */
  function Crosstab(data: seq<Record>): (t: map<(string, string), nat>)
    ensures forall a, p :: (a, p) in t <==> a in ActualLabels(data) && p in PredictedLabels(data)
  {
    var pairs := LabelPairs(data);
    map k | k in Grid(Elems(ActualLabels(data)), Elems(PredictedLabels(data))) :: Count(pairs, k)
  }

  /** A cell of the grid, reading 0 outside it. */
  function Cell(t: map<(string, string), nat>, a: string, p: string): nat {
    if (a, p) in t then t[(a, p)] else 0
  }

  /** Every cell counts the rows with that actual label and that predicted label. */
  lemma CrosstabCell(data: seq<Record>, a: string, p: string)
    ensures Cell(Crosstab(data), a, p)
         == |set i | 0 <= i < |data| && data[i].Kategori_Aktual == a && data[i].Kategori_Prediksi == p|
  {
    var pairs := LabelPairs(data);
    CellIsPairCount(data, a, p);
    CountIsPositions(pairs, (a, p));
    assert Positions(pairs, (a, p))
        == set i | 0 <= i < |data| && data[i].Kategori_Aktual == a && data[i].Kategori_Prediksi == p;
  }

  lemma CellIsPairCount(data: seq<Record>, a: string, p: string)
    ensures Cell(Crosstab(data), a, p) == Count(LabelPairs(data), (a, p))
  {
  }

  /** Sum of column `p` over the row labels `rows`. */
  function ColumnSum(t: map<(string, string), nat>, rows: seq<string>, p: string): nat {
    if rows == [] then 0 else Cell(t, rows[0], p) + ColumnSum(t, rows[1..], p)
  }

  lemma {:induction false} ColumnSumIsColumnCount(data: seq<Record>, rows: seq<string>, p: string)
    ensures ColumnSum(Crosstab(data), rows, p) == ColumnCount(LabelPairs(data), rows, p)
  {
    if rows != [] {
      CellIsPairCount(data, rows[0], p);
      ColumnSumIsColumnCount(data, rows[1..], p);
    }
  }

  /** Summing a column of the cross-tabulation over all actual labels gives the
      number of rows with that predicted label. */
  lemma CrosstabColumn(data: seq<Record>, rows: seq<string>, p: string)
    requires Distinct(rows)
    requires forall i :: 0 <= i < |data| ==> data[i].Kategori_Aktual in rows
    ensures ColumnSum(Crosstab(data), rows, p) == CountPredicted(data, p)
  {
    var pairs := LabelPairs(data);
    ColumnSumIsColumnCount(data, rows, p);
    ColumnCountIsCount(pairs, rows, p);
    SecondsOfLabelPairs(data);
  }

  lemma SecondsOfLabelPairs(data: seq<Record>)
    ensures Seconds(LabelPairs(data)) == PredictedLabels(data)
  {
  }

  /** Sum of the grid over the row labels `rows` and the column labels `cols`. */
  function GridSum(t: map<(string, string), nat>, rows: seq<string>, cols: seq<string>): nat {
    if cols == [] then 0 else ColumnSum(t, rows, cols[0]) + GridSum(t, rows, cols[1..])
  }

  lemma {:induction false} GridSumIsSumCounts(data: seq<Record>, rows: seq<string>, cols: seq<string>)
    requires Distinct(rows)
    requires forall i :: 0 <= i < |data| ==> data[i].Kategori_Aktual in rows
    ensures GridSum(Crosstab(data), rows, cols) == SumCounts(PredictedLabels(data), cols)
  {
    if cols != [] {
      CrosstabColumn(data, rows, cols[0]);
      GridSumIsSumCounts(data, rows, cols[1..]);
    }
  }

  /** All cells together count every row exactly once. */
  lemma CrosstabTotal(data: seq<Record>, rows: seq<string>, cols: seq<string>)
    requires Distinct(rows)
    requires forall i :: 0 <= i < |data| ==> data[i].Kategori_Aktual in rows
    requires Distinct(cols)
    requires forall i :: 0 <= i < |data| ==> data[i].Kategori_Prediksi in cols
    ensures GridSum(Crosstab(data), rows, cols) == |data|
  {
    var c := PredictedLabels(data);
    GridSumIsSumCounts(data, rows, cols);
    SumCountsIsCountIn(c, cols);
    assert forall i :: 0 <= i < |c| ==> c[i] in Elems(cols);
  }

  /** The same two facts over the grid's own labels: the distinct actual labels
      as rows, the distinct predicted labels as columns. Each column sums to its
      predicted label's count (for the three categories, the headline metric),
      and the whole grid sums to the number of rows. */
  lemma CrosstabConsistent(data: seq<Record>)
    ensures var rows := Unique(ActualLabels(data));
      && GridSum(Crosstab(data), rows, Unique(PredictedLabels(data))) == |data|
      && ColumnSum(Crosstab(data), rows, Rendah) == Headline(data).rendah
      && ColumnSum(Crosstab(data), rows, Sedang) == Headline(data).sedang
      && ColumnSum(Crosstab(data), rows, Tinggi) == Headline(data).tinggi
  {
    var rows := Unique(ActualLabels(data));
    var cols := Unique(PredictedLabels(data));
    assert forall i :: 0 <= i < |data| ==> ActualLabels(data)[i] in rows;
    assert forall i :: 0 <= i < |data| ==> PredictedLabels(data)[i] in cols;
    CrosstabTotal(data, rows, cols);
    CrosstabColumn(data, rows, Rendah);
    CrosstabColumn(data, rows, Sedang);
    CrosstabColumn(data, rows, Tinggi);
  }

  // ---------------------------------------------------------------------
  // N-day forecast table

  /** `tail(n)`: the last `n` elements, or all of them when there are fewer. */
  function Tail<T>(xs: seq<T>, n: nat): (r: seq<T>)
    ensures |r| == Min(n, |xs|)
    ensures forall i :: 0 <= i < |r| ==> r[i] == xs[|xs| - |r| + i]
  {
    xs[|xs| - Min(n, |xs|)..]
  }

  /** The day label `f"Hari +{k}"`. */
  function DayLabel(k: nat): (s: string)
    ensures |s| > |"Hari +"|
  {
    "Hari +" + Decimal.NatToString(k)
  }

  /** A day label is `Hari +` followed by digits that read back as the day number. */
  lemma DayLabelReadsBack(k: nat)
    ensures DayLabel(k)[..6] == "Hari +"
    ensures Decimal.IsDigits(DayLabel(k)[6..]) && Decimal.ParseNat(DayLabel(k)[6..]) == k
  {
    assert DayLabel(k)[6..] == Decimal.NatToString(k);
    Decimal.ParseNatToString(k);
  }

  /** `[f"Hari +{i+1}" for i in range(n)]`. */
  function DayLabels(n: nat): (r: seq<string>)
    ensures |r| == n
    ensures forall i :: 0 <= i < n ==> r[i] == DayLabel(i + 1)
  {
    seq(n, i requires 0 <= i < n => DayLabel(i + 1))
  }

  /** Different days get different labels. */
  lemma DayLabelInjective(j: nat, k: nat)
    ensures DayLabel(j) == DayLabel(k) ==> j == k
  {
    if DayLabel(j) == DayLabel(k) {
      assert DayLabel(j)[6..] == Decimal.NatToString(j);
      assert DayLabel(k)[6..] == Decimal.NatToString(k);
      Decimal.NatToStringInjective(j, k);
    }
  }

  /** The labels of an n-day table are pairwise different. */
  lemma DayLabelsDistinct(n: nat)
    ensures Distinct(DayLabels(n))
  {
    var labels := DayLabels(n);
    forall i, j | 0 <= i < j < n ensures labels[i] != labels[j] {
      DayLabelInjective(i + 1, j + 1);
    }
  }

  /** The first day labels, written out. */
  lemma DayLabelText()
    ensures DayLabel(1) == "Hari +1"
    ensures DayLabel(7) == "Hari +7"
  {
  }

  /** Raised when the columns given to the table constructor differ in length. */
  datatype FrameError = ColumnLengthMismatch(hariLen: nat, prediksiLen: nat)

  datatype Result<T> = Ok(value: T) | Err(error: FrameError)

  /** `pd.DataFrame({"Hari": hari, "Prediksi Curah Hujan (mm)": prediksi})`:
      a two-column table, or an error when the columns differ in length. */
  function ForecastFrame(hari: seq<string>, prediksi: seq<real>): (r: Result<seq<(string, real)>>)
    ensures r.Ok? <==> |hari| == |prediksi|
    ensures r.Err? ==> r.error == ColumnLengthMismatch(|hari|, |prediksi|)
    ensures r.Ok? ==> |r.value| == |hari| && forall i :: 0 <= i < |hari| ==> r.value[i] == (hari[i], prediksi[i])
  {
    if |hari| != |prediksi| then Err(ColumnLengthMismatch(|hari|, |prediksi|))
    else Ok(seq(|hari|, i requires 0 <= i < |hari| => (hari[i], prediksi[i])))
  }

  /** A row of the forecast table: day label, predicted rainfall, category. */
  datatype ForecastRow = ForecastRow(hari: string, prediksi: real, kategori: string)

  /** The `Kategori` column added by applying `kategori_hujan` to the predicted values. */
  function AddKategori(frame: seq<(string, real)>): (r: seq<ForecastRow>)
    ensures |r| == |frame|
    ensures forall i :: 0 <= i < |frame| ==> r[i] == ForecastRow(frame[i].0, frame[i].1, KategoriHujan(frame[i].1))
  {
    seq(|frame|, i requires 0 <= i < |frame| => ForecastRow(frame[i].0, frame[i].1, KategoriHujan(frame[i].1)))
  }

  /** `df_prediksi_harian` for a horizon of `hariPrediksi` days. The table is
      built when the dataset has at least that many rows: row i is day i + 1,
      holds the predicted value of row |data| - hariPrediksi + i (the last
      values, in their original order) and that value's freshly computed
      category. A shorter dataset makes `tail` return fewer values than there
      are day labels, and the table constructor fails. */
  function ForecastSlice(data: seq<Record>, hariPrediksi: nat): (r: Result<seq<ForecastRow>>)
    ensures r.Ok? <==> hariPrediksi <= |data|
    ensures r.Err? ==> r.error == ColumnLengthMismatch(hariPrediksi, |data|)
    ensures r.Ok? ==> |r.value| == hariPrediksi
    ensures r.Ok? ==> forall i :: 0 <= i < hariPrediksi ==>
      r.value[i] == ForecastRow(DayLabel(i + 1), data[|data| - hariPrediksi + i].Prediksi_Rain,
                                KategoriHujan(data[|data| - hariPrediksi + i].Prediksi_Rain))
  {
    var prediksiKeDepan := Tail(PredictedRain(data), hariPrediksi);
    assert |prediksiKeDepan| == hariPrediksi <==> hariPrediksi <= |data|;
    assert hariPrediksi <= |data| ==> forall i :: 0 <= i < hariPrediksi ==>
      prediksiKeDepan[i] == data[|data| - hariPrediksi + i].Prediksi_Rain;
    match ForecastFrame(DayLabels(hariPrediksi), prediksiKeDepan)
    case Err(e) => Err(e)
    case Ok(frame) => Ok(AddKategori(frame))
  }

  /** The day labels of a forecast table are pairwise different. */
  lemma ForecastDaysDistinct(data: seq<Record>, hariPrediksi: nat, rows: seq<ForecastRow>)
    requires ForecastSlice(data, hariPrediksi) == Ok(rows)
    ensures forall i, j :: 0 <= i < j < |rows| ==> rows[i].hari != rows[j].hari
  {
    DayLabelsDistinct(hariPrediksi);
    assert forall i :: 0 <= i < |rows| ==> rows[i].hari == DayLabels(hariPrediksi)[i];
  }

  /** The categories of a forecast table follow its predicted values monotonically. */
  lemma ForecastKategoriMonotone(data: seq<Record>, hariPrediksi: nat, rows: seq<ForecastRow>)
    requires ForecastSlice(data, hariPrediksi) == Ok(rows)
    ensures forall i :: 0 <= i < |rows| ==> rows[i].kategori in Order
    ensures forall i, j :: 0 <= i < |rows| && 0 <= j < |rows| && rows[i].prediksi <= rows[j].prediksi ==>
      Rank(rows[i].kategori) <= Rank(rows[j].kategori)
  {
  }

  // ---------------------------------------------------------------------
  // Head preview

  /** `head(k)`: the first `k` elements, or all of them when there are fewer. */
  function Head<T>(xs: seq<T>, k: nat): (r: seq<T>)
    ensures |r| == Min(k, |xs|)
    ensures r <= xs
  {
    xs[..Min(k, |xs|)]
  }

  /** A longer preview extends a shorter one. */
  lemma HeadMonotone<T>(xs: seq<T>, j: nat, k: nat)
    requires j <= k
    ensures Head(xs, j) <= Head(xs, k)
  {
  }

  // ---------------------------------------------------------------------
  // One render pass

  /** The two sidebar sliders: rows to preview and days to forecast. */
  datatype Controls = Controls(jumlahData: nat, hariPrediksi: nat)

  /** The ranges the sliders allow. */
  predicate SliderRange(c: Controls) {
    5 <= c.jumlahData <= 200 && 1 <= c.hariPrediksi <= 7
  }

  /** The sliders' initial values: 30 rows and 3 days. */
  const DefaultControls: Controls := Controls(30, 3)

  /** The initial values lie inside the sliders' ranges, and the bounds are the
      only values each range admits at its ends. */
  lemma SliderBounds()
    ensures SliderRange(DefaultControls)
    ensures SliderRange(Controls(5, 1)) && SliderRange(Controls(200, 7))
    ensures !SliderRange(Controls(4, 3)) && !SliderRange(Controls(201, 3))
    ensures !SliderRange(Controls(30, 0)) && !SliderRange(Controls(30, 8))
  {
  }

  /** What one pass of the page computes. When the forecast table cannot be
      built the page stops there, with the widgets drawn before it. */
  datatype Page =
    | Complete(
        ringkasan: Ringkasan,
        distribusi: seq<(string, nat)>,
        perbandingan: map<(string, string), nat>,
        prediksiHarian: seq<ForecastRow>,
        pratinjau: seq<Record>)
    | Halted(
        ringkasan: Ringkasan,
        distribusi: seq<(string, nat)>,
        perbandingan: map<(string, string), nat>,
        error: FrameError)

  function RenderPass(data: seq<Record>, c: Controls): (page: Page)
    requires SliderRange(c)
    ensures page.Complete? <==> c.hariPrediksi <= |data|
    ensures page.ringkasan == Headline(data)
    ensures page.distribusi == [(Rendah, page.ringkasan.rendah), (Sedang, page.ringkasan.sedang), (Tinggi, page.ringkasan.tinggi)]
    ensures page.perbandingan == Crosstab(data)
    ensures page.Complete? ==>
      && 1 <= |page.prediksiHarian| <= 7
      && page.prediksiHarian == ForecastSlice(data, c.hariPrediksi).value
      && page.pratinjau == Head(data, c.jumlahData)
      && Min(5, |data|) <= |page.pratinjau| <= 200
      && page.pratinjau <= data
    ensures page.Halted? ==> page.error == ColumnLengthMismatch(c.hariPrediksi, |data|)
  {
    var ringkasan := Headline(data);
    var distribusi := Distribution(data);
    DistributionMatchesHeadline(data);
    assert distribusi == [(Rendah, ringkasan.rendah), (Sedang, ringkasan.sedang), (Tinggi, ringkasan.tinggi)];
    var perbandingan := Crosstab(data);
    var harian := ForecastSlice(data, c.hariPrediksi);
    if harian.Err? then Halted(ringkasan, distribusi, perbandingan, harian.error)
    else
      var pratinjau := Head(data, c.jumlahData);
      assert |harian.value| == c.hariPrediksi;
      assert Min(5, |data|) <= |pratinjau| <= 200;
      Complete(ringkasan, distribusi, perbandingan, harian.value, pratinjau)
  }

  // ---------------------------------------------------------------------
  // A worked example

  const Example: seq<Record> := [
    Record(2.0, 1.0, Rendah, Rendah),
    Record(25.0, 22.0, Tinggi, Tinggi),
    Record(10.0, 30.0, Sedang, Tinggi)
  ]

  /** Three rows: counts 1, 0 and 2 per predicted category. */
  lemma ExampleHeadline()
    ensures Headline(Example) == Ringkasan(1, 0, 2)
  {
    OrderDistinct();
    var c := PredictedLabels(Example);
    assert c == [Rendah, Tinggi, Tinggi];
    assert c[..2] == [Rendah, Tinggi] && c[..2][..1] == [Rendah] && c[..2][..1][..0] == [];
  }

  /** The grid is the three actual labels against the two predicted ones. */
  lemma ExampleCrosstab()
    ensures Crosstab(Example).Keys == {
      (Rendah, Rendah), (Rendah, Tinggi),
      (Sedang, Rendah), (Sedang, Tinggi),
      (Tinggi, Rendah), (Tinggi, Tinggi)}
    ensures Cell(Crosstab(Example), Rendah, Rendah) == 1
    ensures Cell(Crosstab(Example), Sedang, Tinggi) == 1
    ensures Cell(Crosstab(Example), Tinggi, Tinggi) == 1
    ensures Cell(Crosstab(Example), Sedang, Rendah) == 0
  {
    OrderDistinct();
    var ps := LabelPairs(Example);
    assert ps == [(Rendah, Rendah), (Tinggi, Tinggi), (Sedang, Tinggi)];
    assert ps[..2] == [(Rendah, Rendah), (Tinggi, Tinggi)] && ps[..2][..1] == [(Rendah, Rendah)] && ps[..2][..1][..0] == [];
    assert ActualLabels(Example) == [Rendah, Tinggi, Sedang];
    assert PredictedLabels(Example) == [Rendah, Tinggi, Tinggi];
    CellIsPairCount(Example, Rendah, Rendah);
    CellIsPairCount(Example, Sedang, Tinggi);
    CellIsPairCount(Example, Tinggi, Tinggi);
    CellIsPairCount(Example, Sedang, Rendah);
  }

  /** A two-day forecast holds the last two predictions in order; four days
      is more than the three rows hold. */
  lemma ExampleForecast()
    ensures ForecastSlice(Example, 2) == Ok([
      ForecastRow("Hari +1", 22.0, Tinggi),
      ForecastRow("Hari +2", 30.0, Tinggi)])
    ensures ForecastSlice(Example, 4).Err?
  {
    assert Decimal.NatToString(2) == ['2'];
    DayLabelText();
    var r := ForecastSlice(Example, 2).value;
    assert r[0] == ForecastRow("Hari +1", 22.0, Tinggi);
    assert r[1] == ForecastRow("Hari +2", 30.0, Tinggi);
    assert r == [ForecastRow("Hari +1", 22.0, Tinggi), ForecastRow("Hari +2", 30.0, Tinggi)];
  }
}
