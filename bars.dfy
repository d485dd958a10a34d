/**
 * The per-centre bar chart (`updateBarChart`): one bar pair per health-centre
 * name found in the measles array. The BIAS bar adds measles and DT doses of
 * the centre, the UCI bar the completed booster doses of 2023. Names are read
 * through two spellings only, `d.Pukesmas || d.Puskesmas`.
 */
module BarChart {
  import opened JsValues
  import opened Normalizer
  import opened RecordFilter
  import opened Views
  import opened BiasAggregator
  import opened Dashboard

  const BAR_NAME_FIELDS: seq<string> := ["Pukesmas", "Puskesmas"]

  /** A record's normalised centre name, as the bar sums read it. */
  function BarKey(d: Record): string {
    NameKeyOf(d, BAR_NAME_FIELDS)
  }

  /** A label's normalised centre name. */
  function LabelKey(p: Value): string {
    NormalizeValue(Some(p))
  }

  /** The index of the first record whose name is `v`, or `|arr|` when there is none. */
  function FirstIndex(arr: seq<Record>, v: Value): (k: nat)
    ensures k <= |arr|
    ensures k < |arr| ==> FirstTruthy(arr[k], BAR_NAME_FIELDS) == Some(v)
    ensures forall m :: 0 <= m < k ==> FirstTruthy(arr[m], BAR_NAME_FIELDS) != Some(v)
  {
    if |arr| == 0 then 0
    else
      var init := arr[..|arr| - 1];
      var k := FirstIndex(init, v);
      if k < |init| || FirstTruthy(arr[|arr| - 1], BAR_NAME_FIELDS) == Some(v) then k else |arr|
  }

  /**
   * `[...new Set(campak.map(d => d.Pukesmas || d.Puskesmas))].filter(Boolean)`:
   * the truthy names, each once, in order of first occurrence.
   */
  function RawLabels(arr: seq<Record>): (r: seq<Value>)
    ensures forall i, j :: 0 <= i < j < |r| ==> r[i] != r[j]
    ensures forall i :: 0 <= i < |r| ==> Truthy(r[i])
    ensures forall v :: v in r <==> exists d :: d in arr && FirstTruthy(d, BAR_NAME_FIELDS) == Some(v)
    ensures forall i, j :: 0 <= i < j < |r| ==> FirstIndex(arr, r[i]) < FirstIndex(arr, r[j])
  {
    if |arr| == 0 then []
    else
      var init := arr[..|arr| - 1];
      var acc := RawLabels(init);
      var name := FirstTruthy(arr[|arr| - 1], BAR_NAME_FIELDS);
      assert forall d :: d in arr <==> d in init || d == arr[|arr| - 1];
      RawLabelsOrderStep(arr, init, acc);
      if name.None? || name.value in acc then acc else acc + [name.value]
  }

  /** The labels found before the last record keep their first indices, all below the last one's. */
  lemma RawLabelsOrderStep(arr: seq<Record>, init: seq<Record>, acc: seq<Value>)
    requires |arr| > 0 && init == arr[..|arr| - 1]
    requires forall v :: v in acc <==> exists d :: d in init && FirstTruthy(d, BAR_NAME_FIELDS) == Some(v)
    ensures forall v :: v in acc ==> FirstIndex(arr, v) == FirstIndex(init, v) < |init|
    ensures var name := FirstTruthy(arr[|arr| - 1], BAR_NAME_FIELDS);
            name.Some? && name.value !in acc ==> FirstIndex(arr, name.value) == |init|
  {
    forall v | v in acc
      ensures FirstIndex(arr, v) == FirstIndex(init, v) < |init|
    {
      KeptLabelIndex(arr, init, v);
    }
    var name := FirstTruthy(arr[|arr| - 1], BAR_NAME_FIELDS);
    if name.Some? && name.value !in acc {
      MissingLabelIndex(init, name.value);
      FirstIndexSnoc(arr, init, name.value);
    }
  }

  lemma MissingLabelIndex(arr: seq<Record>, v: Value)
    requires !exists d :: d in arr && FirstTruthy(d, BAR_NAME_FIELDS) == Some(v)
    ensures FirstIndex(arr, v) == |arr|
  {
  }

  lemma KeptLabelIndex(arr: seq<Record>, init: seq<Record>, v: Value)
    requires |arr| > 0 && init == arr[..|arr| - 1]
    requires exists d :: d in init && FirstTruthy(d, BAR_NAME_FIELDS) == Some(v)
    ensures FirstIndex(arr, v) == FirstIndex(init, v) < |init|
  {
    var d :| d in init && FirstTruthy(d, BAR_NAME_FIELDS) == Some(v);
    var m :| 0 <= m < |init| && init[m] == d;
    FirstIndexAtMost(init, m, v);
    FirstIndexSnoc(arr, init, v);
  }

  lemma FirstIndexAtMost(arr: seq<Record>, m: nat, v: Value)
    requires m < |arr| && FirstTruthy(arr[m], BAR_NAME_FIELDS) == Some(v)
    ensures FirstIndex(arr, v) <= m
  {
  }

  lemma FirstIndexSnoc(arr: seq<Record>, init: seq<Record>, v: Value)
    requires |arr| > 0 && init == arr[..|arr| - 1]
    ensures FirstIndex(init, v) < |init| ==> FirstIndex(arr, v) == FirstIndex(init, v)
    ensures FirstIndex(init, v) == |init| && FirstTruthy(arr[|arr| - 1], BAR_NAME_FIELDS) == Some(v)
            ==> FirstIndex(arr, v) == |init|
  {
  }

  /** `labels.filter(p => normalize(p) === normalize(filterPusk))` for a selected centre. */
  function KeepKey(labels: seq<Value>, norm: string): (r: seq<Value>)
    ensures forall p :: p in r <==> p in labels && LabelKey(p) == norm
    ensures (forall i, j :: 0 <= i < j < |labels| ==> labels[i] != labels[j])
            ==> forall i, j :: 0 <= i < j < |r| ==> r[i] != r[j]
  {
    if |labels| == 0 then []
    else
      var rest := KeepKey(labels[1..], norm);
      assert forall p :: p in labels <==> p == labels[0] || p in labels[1..];
      if LabelKey(labels[0]) == norm then
        assert (forall i, j :: 0 <= i < j < |labels| ==> labels[i] != labels[j]) ==> labels[0] !in labels[1..];
        [labels[0]] + rest
      else rest
  }

  function SelectLabels(labels: seq<Value>, filterPusk: string): (r: seq<Value>)
    ensures forall p :: p in r <==> p in labels && (filterPusk == ALL || LabelKey(p) == Normalize(filterPusk))
  {
    if filterPusk == ALL then labels else KeepKey(labels, Normalize(filterPusk))
  }

  /** `arr.filter(d => normalize(d.Pukesmas || d.Puskesmas) === norm)` */
  function OfCentre(arr: seq<Record>, norm: string): (r: seq<Record>)
    ensures forall d :: d in r <==> d in arr && BarKey(d) == norm
  {
    if |arr| == 0 then []
    else
      var rest := OfCentre(arr[1..], norm);
      assert forall d :: d in arr <==> d == arr[0] || d in arr[1..];
      if BarKey(arr[0]) == norm then [arr[0]] + rest else rest
  }

  /** The BIAS bar of one centre: its measles doses plus its DT doses. */
  function BiasBar(campak: seq<Record>, dt: seq<Record>, norm: string): int {
    SumField(OfCentre(campak, norm), "imun_cmk_jml") + SumField(OfCentre(dt, norm), "dt_imun_jml")
  }

  /** The UCI bar of one centre: its completed booster doses in the 2023 array. */
  function UciBar(booster2023: seq<Record>, norm: string): int {
    SumField(OfCentre(booster2023, norm), "lengkap_jml")
  }

  datatype BarOutcome =
    | NoChart   // nothing loaded yet
    | BarThrew  // a dereferenced part of the dataset is missing
    | Chart(labels: seq<Value>, dataBias: seq<int>, dataUci: seq<int>)

  /** The chart for a list of labels; the DT and booster arrays are only read when there is a label. */
  function ChartFor(labels: seq<Value>, campak: seq<Record>, ds: Dataset): (r: BarOutcome)
    requires ds.bias.Some?
    ensures r.Chart? ==> r.labels == labels && |r.dataBias| == |labels| && |r.dataUci| == |labels|
    ensures |labels| == 0 ==> r == Chart([], [], [])
    ensures r.BarThrew? <==>
      |labels| > 0 && (ds.bias.value.dt.None? || ds.uci.None? || "2023" !in ds.uci.value.booster)
    ensures r.Chart? ==> forall i :: 0 <= i < |labels| ==>
      && r.dataBias[i] == BiasBar(campak, ds.bias.value.dt.GetOr([]), LabelKey(labels[i]))
      && r.dataUci[i] == UciBar(ds.uci.value.booster["2023"], LabelKey(labels[i]))
  {
    if |labels| == 0 then Chart([], [], [])
    else if ds.bias.value.dt.None? || ds.uci.None? || "2023" !in ds.uci.value.booster then BarThrew
    else
      var dt := ds.bias.value.dt.value;
      var b23 := ds.uci.value.booster["2023"];
      Chart(labels,
        seq(|labels|, i requires 0 <= i < |labels| => BiasBar(campak, dt, LabelKey(labels[i]))),
        seq(|labels|, i requires 0 <= i < |labels| => UciBar(b23, LabelKey(labels[i]))))
  }

  /** `program_imunisasi.bias.campak` is present, so building the labels does not throw. */
  predicate HasCampak(j: Json) {
    j.program.Some? && j.program.value.bias.Some? && j.program.value.bias.value.campak.Some?
  }

  function CampakOf(j: Json): seq<Record>
    requires HasCampak(j)
  {
    j.program.value.bias.value.campak.value
  }

  /** The DT array and the 2023 booster array, which the bars read, are present. */
  predicate HasBarArrays(ds: Dataset) {
    ds.bias.Some? && ds.bias.value.dt.Some? && ds.uci.Some? && "2023" in ds.uci.value.booster
  }

  /**
   * `updateBarChart(filterPusk)` with the labels as the source builds them:
   * it throws when the measles array cannot be reached, or when there is a
   * label and the DT or 2023 booster array is missing; otherwise the labels
   * are the measles records' names, narrowed to the selected centre.
   */
  function BarChartOf(cache: Option<Json>, filterPusk: string): (r: BarOutcome)
    ensures r.NoChart? <==> cache.None?
    ensures r.BarThrew? <==>
      cache.Some? && (!HasCampak(cache.value)
                      || (|SelectLabels(RawLabels(CampakOf(cache.value)), filterPusk)| > 0
                          && !HasBarArrays(cache.value.program.value)))
    ensures r.Chart? ==> cache.Some? && HasCampak(cache.value)
    ensures r.Chart? ==> forall v :: v in r.labels <==>
      (exists d :: d in CampakOf(cache.value) && FirstTruthy(d, BAR_NAME_FIELDS) == Some(v))
      && (filterPusk == ALL || LabelKey(v) == Normalize(filterPusk))
    ensures r.Chart? ==> (forall i, j :: 0 <= i < j < |r.labels| ==> r.labels[i] != r.labels[j])
    ensures r.Chart? ==> forall i :: 0 <= i < |r.labels| ==> Truthy(r.labels[i])
  {
    if cache.None? then NoChart
    else if cache.value.program.None? then BarThrew
    else
      var ds := cache.value.program.value;
      if ds.bias.None? || ds.bias.value.campak.None? then BarThrew
      else
        var campak := ds.bias.value.campak.value;
        var raw := RawLabels(campak);
        var labels := SelectLabels(raw, filterPusk);
        SelectLabelsKeeps(raw, filterPusk);
        ChartFor(labels, campak, ds)
  }

  /** Selecting labels keeps them distinct and truthy. */
  lemma SelectLabelsKeeps(raw: seq<Value>, filterPusk: string)
    requires forall i, j :: 0 <= i < j < |raw| ==> raw[i] != raw[j]
    requires forall i :: 0 <= i < |raw| ==> Truthy(raw[i])
    ensures var r := SelectLabels(raw, filterPusk);
            && (forall i, j :: 0 <= i < j < |r| ==> r[i] != r[j])
            && (forall i :: 0 <= i < |r| ==> Truthy(r[i]))
  {
    var r := SelectLabels(raw, filterPusk);
    if filterPusk != ALL {
      assert r == KeepKey(raw, Normalize(filterPusk));
    }
    forall i | 0 <= i < |r| ensures Truthy(r[i]) {
      assert r[i] in raw;
    }
  }

  // ---------------------------------------------------------------------
  // Corrected labels: one per centre

  /** Some label of `labels` has the key `k`. */
  predicate HasKey(labels: seq<Value>, k: string) {
    exists i :: 0 <= i < |labels| && LabelKey(labels[i]) == k
  }

  /** The truthy names deduplicated by their normalised key, first spelling kept. */
  function CentreLabels(arr: seq<Record>): (r: seq<Value>)
    ensures forall i, j :: 0 <= i < j < |r| ==> LabelKey(r[i]) != LabelKey(r[j])
    ensures forall i :: 0 <= i < |r| ==> Truthy(r[i])
    ensures forall d :: d in arr && FirstTruthy(d, BAR_NAME_FIELDS).Some? ==> HasKey(r, BarKey(d))
  {
    if |arr| == 0 then []
    else
      var init := arr[..|arr| - 1];
      var acc := CentreLabels(init);
      var last := arr[|arr| - 1];
      var name := FirstTruthy(last, BAR_NAME_FIELDS);
      assert forall d :: d in arr <==> d in init || d == last;
      if name.None? || HasKey(acc, LabelKey(name.value)) then acc
      else
        LabelSnoc(acc, name.value);
        acc + [name.value]
  }

  /** Appending a label with a new key keeps the keys distinct and loses no key. */
  lemma LabelSnoc(acc: seq<Value>, v: Value)
    requires forall i, j :: 0 <= i < j < |acc| ==> LabelKey(acc[i]) != LabelKey(acc[j])
    requires !HasKey(acc, LabelKey(v))
    ensures forall i, j :: 0 <= i < j < |acc + [v]| ==> LabelKey((acc + [v])[i]) != LabelKey((acc + [v])[j])
    ensures forall k :: HasKey(acc, k) ==> HasKey(acc + [v], k)
    ensures HasKey(acc + [v], LabelKey(v))
  {
    var r := acc + [v];
    forall k | HasKey(acc, k) ensures HasKey(r, k) {
      var i :| 0 <= i < |acc| && LabelKey(acc[i]) == k;
      assert r[i] == acc[i];
    }
    assert r[|acc|] == v;
  }

  /** The bar chart with one bar per centre. */
  function CorrectedBarChartOf(cache: Option<Json>, filterPusk: string): (r: BarOutcome)
    ensures r.NoChart? <==> cache.None?
    ensures r.Chart? ==> forall i, j :: 0 <= i < j < |r.labels| ==> LabelKey(r.labels[i]) != LabelKey(r.labels[j])
  {
    if cache.None? then NoChart
    else if cache.value.program.None? then BarThrew
    else
      var ds := cache.value.program.value;
      if ds.bias.None? || ds.bias.value.campak.None? then BarThrew
      else
        var campak := ds.bias.value.campak.value;
        var all := CentreLabels(campak);
        var labels := if filterPusk == ALL then all else KeepKey(all, Normalize(filterPusk));
        assert filterPusk != ALL ==> |labels| <= 1 by {
          if filterPusk != ALL { KeepKeyAtMostOne(all, Normalize(filterPusk)); }
        }
        ChartFor(labels, campak, ds)
  }

  /** Among labels with distinct keys at most one has a given key. */
  lemma {:induction false} KeepKeyAtMostOne(labels: seq<Value>, norm: string)
    requires forall i, j :: 0 <= i < j < |labels| ==> LabelKey(labels[i]) != LabelKey(labels[j])
    ensures |KeepKey(labels, norm)| <= 1
  {
    if |labels| > 0 {
      if LabelKey(labels[0]) == norm {
        forall i | 0 <= i < |labels[1..]| ensures LabelKey(labels[1..][i]) != norm {
          assert labels[1..][i] == labels[i + 1];
        }
        KeepKeyNone(labels[1..], norm);
      } else {
        KeepKeyAtMostOne(labels[1..], norm);
      }
    }
  }

  lemma {:induction false} KeepKeyNone(labels: seq<Value>, norm: string)
    requires forall i :: 0 <= i < |labels| ==> LabelKey(labels[i]) != norm
    ensures KeepKey(labels, norm) == []
  {
    if |labels| > 0 {
      KeepKeyNone(labels[1..], norm);
    }
  }

  // ---------------------------------------------------------------------
  // Properties

  /** The record names the same centre through the card filter's three spellings as through the chart's two. */
  predicate TwoSpellings(d: Record) {
    FirstTruthy(d, NAME_FIELDS) == FirstTruthy(d, BAR_NAME_FIELDS)
  }

  predicate AllTwoSpellings(arr: seq<Record>) {
    forall i :: 0 <= i < |arr| ==> TwoSpellings(arr[i])
  }

  /** For a selected centre, the chart's per-centre filter is the card filter, when no record relies on the third spelling. */
  lemma {:induction false} OfCentreIsFilter(arr: seq<Record>, sel: Selection)
    requires sel.puskesmas != ALL && AllTwoSpellings(arr)
    ensures OfCentre(arr, sel.normalized) == FilterRecords(arr, sel, ALL)
  {
    if |arr| > 0 {
      assert TwoSpellings(arr[0]);
      assert AllTwoSpellings(arr[1..]) by {
        forall i | 0 <= i < |arr[1..]| ensures TwoSpellings(arr[1..][i]) {
          assert arr[1..][i] == arr[i + 1];
        }
      }
      OfCentreIsFilter(arr[1..], sel);
    }
  }

  /**
   * With a centre selected and the BIAS category on, every bar of the chart
   * shows the measles plus DT doses of the BIAS cards, provided no record
   * names its centre only through the lower-case `puskesmas` field.
   */
  lemma BarMatchesCards(j: Json, c: Controls)
    requires c.puskesmas != ALL && BiasActive(OrAll(c.category))
    requires j.program.Some? && j.program.value.bias.Some?
    requires AllTwoSpellings(j.program.value.bias.value.campak.GetOr([]))
    requires AllTwoSpellings(j.program.value.bias.value.dt.GetOr([]))
    ensures var r := BarChartOf(Some(j), c.puskesmas);
            var v := BuildBiasView(j.program.value.bias.value, OrAll(c.category), SelectionOf(c));
            r.Chart? ==> forall i :: 0 <= i < |r.labels| ==> r.dataBias[i] == CampakS(v) + DtS(v)
  {
    var src := j.program.value.bias.value;
    var r := BarChartOf(Some(j), c.puskesmas);
    var sel := SelectionOf(c);
    var v := BuildBiasView(src, OrAll(c.category), sel);
    if r.Chart? && src.campak.Some? {
      var campak := src.campak.value;
      var labels := SelectLabels(RawLabels(campak), c.puskesmas);
      assert r == ChartFor(labels, campak, j.program.value);
      OfCentreIsFilter(campak, sel);
      OfCentreIsFilter(src.dt.GetOr([]), sel);
      forall i | 0 <= i < |r.labels| ensures r.dataBias[i] == CampakS(v) + DtS(v) {
        assert labels[i] in labels;
        assert LabelKey(labels[i]) == sel.normalized;
      }
    }
  }

  /** Two records of one centre under two spellings of its name. */
  function GampingFull(): Record {
    map["Puskesmas" := Text("Puskesmas Gamping I"), "imun_cmk_jml" := Num(10)]
  }

  function GampingShort(): Record {
    map["Pukesmas" := Text("PUKESMAS GAMPING 1"), "imun_cmk_jml" := Num(5)]
  }

  function GampingJson(): Json {
    Json(Some(Dataset(Some(BiasSource(Some([GampingFull(), GampingShort()]), Some([]), None, None)),
                      Some(UciSource(map[], map["2023" := []], map[], map[])))))
  }

  lemma GampingFullName(rec: Record)
    requires rec == GampingFull()
    ensures FirstTruthy(rec, BAR_NAME_FIELDS) == Some(Text("Puskesmas Gamping I"))
  {
    assert "Pukesmas" !in rec;
    assert BAR_NAME_FIELDS[1..] == ["Puskesmas"];
  }

  lemma GampingFullKey(rec: Record)
    requires rec == GampingFull()
    ensures FirstTruthy(rec, BAR_NAME_FIELDS) == Some(Text("Puskesmas Gamping I"))
    ensures BarKey(rec) == "GAMPING 1"
  {
    GampingFullName(rec);
    NormalizeRomanAndPrefix("Puskesmas Gamping I");
  }

  lemma GampingShortName(rec: Record)
    requires rec == GampingShort()
    ensures FirstTruthy(rec, BAR_NAME_FIELDS) == Some(Text("PUKESMAS GAMPING 1"))
  {
  }

  lemma GampingShortKey(rec: Record)
    requires rec == GampingShort()
    ensures FirstTruthy(rec, BAR_NAME_FIELDS) == Some(Text("PUKESMAS GAMPING 1"))
    ensures BarKey(rec) == "GAMPING 1"
  {
    GampingShortName(rec);
    NormalizeMisspeltPrefix("PUKESMAS GAMPING 1");
  }

  lemma OfCentrePair(a: Record, b: Record, norm: string)
    requires BarKey(a) == norm && BarKey(b) == norm
    ensures OfCentre([a, b], norm) == [a, b]
  {
    assert [a, b][1..] == [b];
    assert [b][1..] == [];
    assert OfCentre([b], norm) == [b];
    assert [a] + [b] == [a, b];
  }

  lemma SumFieldPair(a: Record, b: Record, key: string)
    ensures SumField([a, b], key) == FieldNum(a, key) + FieldNum(b, key)
  {
    assert [a, b][..1] == [a];
    assert [a][..0] == [];
    assert SumField([a], key) == FieldNum(a, key);
  }

  /** Two records with different truthy names give two labels. */
  lemma RawLabelsPair(a: Record, b: Record, va: Value, vb: Value)
    requires FirstTruthy(a, BAR_NAME_FIELDS) == Some(va) && FirstTruthy(b, BAR_NAME_FIELDS) == Some(vb)
    requires va != vb
    ensures RawLabels([a, b]) == [va, vb]
  {
    assert [a, b][..1] == [a];
    assert [a][..0] == [];
    assert RawLabels([a]) == [va];
  }

  /** Two records whose names normalise alike give one corrected label, the first spelling. */
  lemma CentreLabelsPair(a: Record, b: Record, va: Value, vb: Value)
    requires FirstTruthy(a, BAR_NAME_FIELDS) == Some(va) && FirstTruthy(b, BAR_NAME_FIELDS) == Some(vb)
    requires LabelKey(va) == LabelKey(vb)
    ensures CentreLabels([a, b]) == [va]
  {
    CentreLabelsSingle(a, va);
    assert HasKey([va], LabelKey(vb)) by { assert LabelKey([va][0]) == LabelKey(vb); }
    CentreLabelsKnownKey([a, b], [va], vb);
  }

  /** A last record whose key is already labelled adds no label. */
  lemma CentreLabelsKnownKey(arr: seq<Record>, acc: seq<Value>, v: Value)
    requires |arr| > 0 && CentreLabels(arr[..|arr| - 1]) == acc
    requires FirstTruthy(arr[|arr| - 1], BAR_NAME_FIELDS) == Some(v) && HasKey(acc, LabelKey(v))
    ensures CentreLabels(arr) == acc
  {
  }

  lemma CentreLabelsSingle(a: Record, va: Value)
    requires FirstTruthy(a, BAR_NAME_FIELDS) == Some(va)
    ensures CentreLabels([a]) == [va]
  {
    assert [a][..0] == [];
  }

  /** Bars for labels that all name one centre are all alike. */
  lemma ChartForOneCentre(labels: seq<Value>, campak: seq<Record>, ds: Dataset, norm: string, x: int, y: int)
    requires ds.bias.Some? && ds.bias.value.dt.Some? && ds.uci.Some? && "2023" in ds.uci.value.booster
    requires |labels| > 0 && forall i :: 0 <= i < |labels| ==> LabelKey(labels[i]) == norm
    requires BiasBar(campak, ds.bias.value.dt.value, norm) == x && UciBar(ds.uci.value.booster["2023"], norm) == y
    ensures ChartFor(labels, campak, ds) == Chart(labels, Repeat(x, |labels|), Repeat(y, |labels|))
  {
    var r := ChartFor(labels, campak, ds);
    assert r.Chart?;
    AllEqual(r.dataBias, Repeat(x, |labels|), x);
    AllEqual(r.dataUci, Repeat(y, |labels|), y);
  }

  lemma AllEqual(a: seq<int>, b: seq<int>, x: int)
    requires |a| == |b|
    requires forall i :: 0 <= i < |a| ==> a[i] == x
    requires forall i :: 0 <= i < |b| ==> b[i] == x
    ensures a == b
  {
  }

  /** `n` copies of `x`. */
  function Repeat(x: int, n: nat): (r: seq<int>)
    ensures |r| == n && forall i :: 0 <= i < n ==> r[i] == x
  {
    if n == 0 then [] else Repeat(x, n - 1) + [x]
  }

  /** Measles data of two records, no DT record and an empty 2023 booster array. */
  predicate TwoRecordData(j: Json, r1: Record, r2: Record) {
    j.program == Some(Dataset(Some(BiasSource(Some([r1, r2]), Some([]), None, None)),
                              Some(UciSource(map[], map["2023" := []], map[], map[]))))
  }

  /** With every centre selected the chart has a bar pair per label of the measles array. */
  lemma BarChartAll(j: Json)
    requires j.program.Some? && j.program.value.bias.Some? && j.program.value.bias.value.campak.Some?
    ensures var campak := j.program.value.bias.value.campak.value;
            BarChartOf(Some(j), ALL) == ChartFor(RawLabels(campak), campak, j.program.value)
  {
  }

  lemma CorrectedBarChartAll(j: Json)
    requires j.program.Some? && j.program.value.bias.Some? && j.program.value.bias.value.campak.Some?
    ensures var campak := j.program.value.bias.value.campak.value;
            CorrectedBarChartOf(Some(j), ALL) == ChartFor(CentreLabels(campak), campak, j.program.value)
  {
  }

  /** The bars of labels naming the centre of two records, over the two-record data. */
  lemma TwoRecordBars(j: Json, r1: Record, r2: Record, labels: seq<Value>, norm: string, x: int)
    requires TwoRecordData(j, r1, r2)
    requires BarKey(r1) == norm && BarKey(r2) == norm
    requires |labels| > 0 && forall i :: 0 <= i < |labels| ==> LabelKey(labels[i]) == norm
    requires x == FieldNum(r1, "imun_cmk_jml") + FieldNum(r2, "imun_cmk_jml")
    ensures ChartFor(labels, [r1, r2], j.program.value) == Chart(labels, Repeat(x, |labels|), Repeat(0, |labels|))
  {
    var ds := j.program.value;
    PairBars(r1, r2, norm, x);
    ChartForOneCentre(labels, [r1, r2], ds, norm, x, 0);
  }

  lemma PairBars(r1: Record, r2: Record, norm: string, x: int)
    requires BarKey(r1) == norm && BarKey(r2) == norm
    requires x == FieldNum(r1, "imun_cmk_jml") + FieldNum(r2, "imun_cmk_jml")
    ensures BiasBar([r1, r2], [], norm) == x && UciBar([], norm) == 0
  {
    OfCentrePair(r1, r2, norm);
    SumFieldPair(r1, r2, "imun_cmk_jml");
  }

  lemma KeyOfName(r: Record, v: Value)
    requires FirstTruthy(r, BAR_NAME_FIELDS) == Some(v)
    ensures BarKey(r) == LabelKey(v)
  {
  }

  lemma RepeatTwo(x: int)
    ensures Repeat(x, 2) == [x, x]
  {
    assert Repeat(x, 1) == [x];
  }

  lemma TwoRecordLabels(j: Json, r1: Record, r2: Record, va: Value, vb: Value)
    requires TwoRecordData(j, r1, r2)
    requires FirstTruthy(r1, BAR_NAME_FIELDS) == Some(va) && FirstTruthy(r2, BAR_NAME_FIELDS) == Some(vb)
    requires va != vb
    ensures BarChartOf(Some(j), ALL) == ChartFor([va, vb], [r1, r2], j.program.value)
  {
    BarChartAll(j);
    RawLabelsPair(r1, r2, va, vb);
  }

  /**
   * The labels are deduplicated by the raw name but the bars are summed by
   * the normalised name: two records spelling one centre differently give
   * two bars, each with the doses of both records.
   */
  lemma SpellingsSplitBars(j: Json, r1: Record, r2: Record, va: Value, vb: Value, x: int)
    requires TwoRecordData(j, r1, r2)
    requires FirstTruthy(r1, BAR_NAME_FIELDS) == Some(va) && FirstTruthy(r2, BAR_NAME_FIELDS) == Some(vb)
    requires va != vb && LabelKey(va) == LabelKey(vb)
    requires x == FieldNum(r1, "imun_cmk_jml") + FieldNum(r2, "imun_cmk_jml")
    ensures BarChartOf(Some(j), ALL) == Chart([va, vb], [x, x], [0, 0])
  {
    TwoRecordLabels(j, r1, r2, va, vb);
    KeyOfName(r1, va);
    KeyOfName(r2, vb);
    SplitChartFor(j, r1, r2, va, vb, LabelKey(va), x);
  }

  lemma SplitChartFor(j: Json, r1: Record, r2: Record, va: Value, vb: Value, norm: string, x: int)
    requires TwoRecordData(j, r1, r2)
    requires BarKey(r1) == norm && BarKey(r2) == norm && LabelKey(va) == norm && LabelKey(vb) == norm
    requires x == FieldNum(r1, "imun_cmk_jml") + FieldNum(r2, "imun_cmk_jml")
    ensures ChartFor([va, vb], [r1, r2], j.program.value) == Chart([va, vb], [x, x], [0, 0])
  {
    var labels := [va, vb];
    forall i | 0 <= i < |labels|
      ensures LabelKey(labels[i]) == norm
    {
      if i == 0 { assert labels[i] == va; } else { assert labels[i] == vb; }
    }
    TwoRecordBars(j, r1, r2, labels, norm, x);
    RepeatedChart(ChartFor([va, vb], [r1, r2], j.program.value), va, vb, x);
  }

  lemma RepeatedChart(c: BarOutcome, va: Value, vb: Value, x: int)
    requires c == Chart([va, vb], Repeat(x, 2), Repeat(0, 2))
    ensures c == Chart([va, vb], [x, x], [0, 0])
  {
    RepeatTwo(x);
    RepeatTwo(0);
  }

  /** With labels deduplicated by centre, the same data gives one bar with the doses of both records. */
  lemma SpellingsShareBar(j: Json, r1: Record, r2: Record, va: Value, vb: Value, x: int)
    requires TwoRecordData(j, r1, r2)
    requires FirstTruthy(r1, BAR_NAME_FIELDS) == Some(va) && FirstTruthy(r2, BAR_NAME_FIELDS) == Some(vb)
    requires LabelKey(va) == LabelKey(vb)
    requires x == FieldNum(r1, "imun_cmk_jml") + FieldNum(r2, "imun_cmk_jml")
    ensures CorrectedBarChartOf(Some(j), ALL) == Chart([va], [x], [0])
  {
    CorrectedBarChartAll(j);
    CentreLabelsPair(r1, r2, va, vb);
    KeyOfName(r1, va);
    KeyOfName(r2, vb);
    TwoRecordBars(j, r1, r2, [va], LabelKey(va), x);
    assert Repeat(x, 1) == [x];
    assert Repeat(0, 1) == [0];
  }

  /** "Puskesmas Gamping I" with 10 doses and "PUKESMAS GAMPING 1" with 5: two bars of 15. */
  lemma DuplicateBars(j: Json)
    requires j == GampingJson()
    ensures BarChartOf(Some(j), ALL)
         == Chart([Text("Puskesmas Gamping I"), Text("PUKESMAS GAMPING 1")], [15, 15], [0, 0])
  {
    var r1, r2 := GampingFull(), GampingShort();
    GampingFullKey(r1);
    GampingShortKey(r2);
    KeyOfName(r1, Text("Puskesmas Gamping I"));
    KeyOfName(r2, Text("PUKESMAS GAMPING 1"));
    SpellingsSplitBars(j, r1, r2, Text("Puskesmas Gamping I"), Text("PUKESMAS GAMPING 1"), 15);
  }

  /** The same data under the corrected labels: one bar of 15. */
  lemma OneBarPerCentre(j: Json)
    requires j == GampingJson()
    ensures CorrectedBarChartOf(Some(j), ALL) == Chart([Text("Puskesmas Gamping I")], [15], [0])
  {
    var r1, r2 := GampingFull(), GampingShort();
    GampingFullKey(r1);
    GampingShortKey(r2);
    KeyOfName(r1, Text("Puskesmas Gamping I"));
    KeyOfName(r2, Text("PUKESMAS GAMPING 1"));
    SpellingsShareBar(j, r1, r2, Text("Puskesmas Gamping I"), Text("PUKESMAS GAMPING 1"), 15);
  }
}
