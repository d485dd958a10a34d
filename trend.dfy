/**
 * The yearly trend chart: for each displayed year, the doses given at the
 * selected centre over every UCI table of that year (`getCapaianAllUCI`).
 * The tables are read straight from the dataset, by calendar year.
 */
module Trend {
  import opened JsValues
  import opened Normalizer
  import opened RecordFilter
  import opened Views
  import opened BiasAggregator
  import opened UciAggregator

  const ALL_YEARS: seq<string> := ["2017", "2022", "2023", "2024", "2025"]

  /** The antigen families scanned, with their dose fields (`mappingKeys`), in scan order. */
  const FAMILIES: seq<string> := ["rv", "rotarix", "pcv", "je", "heksavalen"]
  const FAMILY_KEYS: seq<seq<string>> := [RV_KEYS, ROTARIX_KEYS, PCV_KEYS, JE_KEYS, HEKSAVALEN_KEYS]

  /** `listTahunTampil`: every year, or only the selected one. */
  function DisplayedYears(selectedYear: string): (r: seq<string>)
    ensures |r| >= 1
    ensures forall i :: 0 <= i < |r| ==> MatchYear(Selection(ALL, "", selectedYear), r[i])
    ensures selectedYear != ALL ==> selectedYear in r
    ensures forall i, j :: 0 <= i < j < |r| ==> r[i] != r[j]
  {
    if selectedYear == ALL then ALL_YEARS else [selectedYear]
  }

  /** The trend chart's centre test: the record filter's, with no year condition. */
  function CentreSelection(selectedPusk: string): Selection {
    Selection(selectedPusk, Normalize(selectedPusk), ALL)
  }

  /** What one table adds at one year: the listed fields of the records of the selected centre. */
  function TableTotal(t: YearTable, year: string, keys: seq<string>, sel: Selection): int {
    KeySum(FilterRecords(RawSlot(t, year), sel, ALL), keys)
  }

  /** The first n antigen families at one year. */
  function AntigenTotal(src: UciSource, year: string, sel: Selection, n: nat): int
    requires n <= |FAMILIES|
  {
    if n == 0 then 0
    else AntigenTotal(src, year, sel, n - 1) + TableTotal(Family(src, FAMILIES[n - 1]), year, FAMILY_KEYS[n - 1], sel)
  }

  /** `getCapaianAllUCI(year)`, as a function of the dataset. */
  function CapaianOf(src: UciSource, selectedPusk: string, year: string): int {
    var sel := CentreSelection(selectedPusk);
    AntigenTotal(src, year, sel, |FAMILIES|)
    + TableTotal(src.booster, year, LENGKAP_KEYS, sel)
    + TableTotal(src.hb0Bcg, year, LENGKAP_KEYS, sel)
    + TableTotal(src.tt, year, TT_KEYS, sel)
  }

  lemma KeySumSnoc(arr: seq<Record>, d: Record, keys: seq<string>)
    ensures KeySum(arr + [d], keys) == KeySum(arr, keys) + RecordKeySum(d, keys)
  {
    assert (arr + [d])[..|arr|] == arr;
  }

  /** The inner `keys.forEach` for one record: add each listed field, read with `Number(d[k]) || 0`. */
  method AddFields(total: int, d: Record, keys: seq<string>) returns (newTotal: int)
    ensures newTotal == total + RecordKeySum(d, keys)
  {
    newTotal := total;
    for k := 0 to |keys|
      invariant newTotal == total + RecordKeySum(d, keys[..k])
    {
      newTotal := newTotal + FieldNum(d, keys[k]);
      assert keys[..k + 1][..k] == keys[..k];
    }
    assert keys[..|keys|] == keys;
  }

  /** One `dataArray.forEach`: add the listed fields of every record of the selected centre. */
  method AddMatching(total: int, arr: seq<Record>, keys: seq<string>, sel: Selection) returns (newTotal: int)
    ensures newTotal == total + KeySum(FilterRecords(arr, sel, ALL), keys)
  {
    newTotal := total;
    for i := 0 to |arr|
      invariant newTotal == total + KeySum(FilterRecords(arr[..i], sel, ALL), keys)
    {
      var d := arr[i];
      ghost var kept := FilterRecords(arr[..i], sel, ALL);
      FilterSnoc(arr[..i], d, sel, ALL);
      assert arr[..i + 1] == arr[..i] + [d];
      if MatchPusk(d, sel) {
        newTotal := AddFields(newTotal, d, keys);
        assert FilterRecords(arr[..i + 1], sel, ALL) == kept + [d];
        KeySumSnoc(kept, d, keys);
      } else {
        assert FilterRecords(arr[..i + 1], sel, ALL) == kept;
      }
    }
    assert arr[..|arr|] == arr;
  }

  method CapaianAllUci(src: UciSource, selectedPusk: string, year: string) returns (totalYear: int)
    ensures totalYear == CapaianOf(src, selectedPusk, year)
  {
    var sel := CentreSelection(selectedPusk);
    totalYear := 0;
    for f := 0 to |FAMILIES|
      invariant totalYear == AntigenTotal(src, year, sel, f)
    {
      var dataArray := RawSlot(Family(src, FAMILIES[f]), year);
      totalYear := AddMatching(totalYear, dataArray, FAMILY_KEYS[f], sel);
    }
    totalYear := AddMatching(totalYear, RawSlot(src.booster, year), LENGKAP_KEYS, sel);
    totalYear := AddMatching(totalYear, RawSlot(src.hb0Bcg, year), LENGKAP_KEYS, sel);
    totalYear := AddMatching(totalYear, RawSlot(src.tt, year), TT_KEYS, sel);
  }

  /** The chart's series: `listTahunTampil.map(getCapaianAllUCI)`. */
  method TrendSeries(src: UciSource, selectedPusk: string, selectedYear: string) returns (years: seq<string>, values: seq<int>)
    ensures years == DisplayedYears(selectedYear)
    ensures |values| == |years|
    ensures forall i :: 0 <= i < |years| ==> values[i] == CapaianOf(src, selectedPusk, years[i])
  {
    years := DisplayedYears(selectedYear);
    values := CapaianPerYear(src, selectedPusk, years);
  }

  /** `years.map(getCapaianAllUCI)`: one total per year, in order. */
  method CapaianPerYear(src: UciSource, selectedPusk: string, years: seq<string>) returns (values: seq<int>)
    ensures |values| == |years|
    ensures forall i :: 0 <= i < |years| ==> values[i] == CapaianOf(src, selectedPusk, years[i])
  {
    values := [];
    for i := 0 to |years|
      invariant |values| == i
      invariant forall j :: 0 <= j < i ==> values[j] == CapaianOf(src, selectedPusk, years[j])
    {
      var v := CapaianAllUci(src, selectedPusk, years[i]);
      SeriesSnoc(src, selectedPusk, years, values, v);
      values := values + [v];
    }
  }

  /** One more year's total keeps the series in step with the years. */
  lemma SeriesSnoc(src: UciSource, selectedPusk: string, years: seq<string>, values: seq<int>, v: int)
    requires |values| < |years|
    requires forall j :: 0 <= j < |values| ==> values[j] == CapaianOf(src, selectedPusk, years[j])
    requires v == CapaianOf(src, selectedPusk, years[|values|])
    ensures forall j :: 0 <= j < |values| + 1 ==> (values + [v])[j] == CapaianOf(src, selectedPusk, years[j])
  {
  }

  // ---------------------------------------------------------------------
  // Properties

  /** Every table is only filled at the years the cards read it at. */
  predicate SlotYearsOnly(src: UciSource) {
    && (forall i :: 0 <= i < |FAMILIES| ==>
          var t := Family(src, FAMILIES[i]); "2022" !in t && "2023" !in t && "2025" !in t)
    && "2024" !in src.booster && "2025" !in src.booster
    && "2017" !in src.hb0Bcg && "2022" !in src.hb0Bcg && "2023" !in src.hb0Bcg
    && "2017" !in src.tt && "2022" !in src.tt && "2023" !in src.tt
  }

  lemma TableAbsent(t: YearTable, year: string, keys: seq<string>, sel: Selection)
    requires year !in t
    ensures TableTotal(t, year, keys, sel) == 0
  {
  }

  /** A slot of the card view is the table the trend reads, when every year is selected. */
  lemma SlotIsTable(t: YearTable, year: string, keys: seq<string>, sel: Selection)
    requires sel.year == ALL
    ensures KeySum(Slot(true, t, year, sel), keys) == TableTotal(t, year, keys, sel)
  {
    FilterYearContextIrrelevant(RawSlot(t, year), sel, year, ALL);
  }

  lemma AntigenTotalAll(src: UciSource, year: string, sel: Selection)
    ensures AntigenTotal(src, year, sel, |FAMILIES|) ==
      TableTotal(Family(src, "rv"), year, RV_KEYS, sel) + TableTotal(Family(src, "rotarix"), year, ROTARIX_KEYS, sel)
      + TableTotal(Family(src, "pcv"), year, PCV_KEYS, sel) + TableTotal(Family(src, "je"), year, JE_KEYS, sel)
      + TableTotal(Family(src, "heksavalen"), year, HEKSAVALEN_KEYS, sel)
  {
    assert AntigenTotal(src, year, sel, 1) == TableTotal(Family(src, "rv"), year, RV_KEYS, sel);
    assert AntigenTotal(src, year, sel, 2) == AntigenTotal(src, year, sel, 1) + TableTotal(Family(src, "rotarix"), year, ROTARIX_KEYS, sel);
    assert AntigenTotal(src, year, sel, 3) == AntigenTotal(src, year, sel, 2) + TableTotal(Family(src, "pcv"), year, PCV_KEYS, sel);
    assert AntigenTotal(src, year, sel, 4) == AntigenTotal(src, year, sel, 3) + TableTotal(Family(src, "je"), year, JE_KEYS, sel);
  }

  /** The antigen families' tables are empty outside 2017 and 2024. */
  lemma AntigenOffYears(src: UciSource, year: string, sel: Selection)
    requires SlotYearsOnly(src) && (year == "2022" || year == "2023" || year == "2025")
    ensures AntigenTotal(src, year, sel, |FAMILIES|) == 0
  {
    AntigenTotalAll(src, year, sel);
    assert Family(src, FAMILIES[0]) == Family(src, "rv");
    assert Family(src, FAMILIES[1]) == Family(src, "rotarix");
    assert Family(src, FAMILIES[2]) == Family(src, "pcv");
    assert Family(src, FAMILIES[3]) == Family(src, "je");
    assert Family(src, FAMILIES[4]) == Family(src, "heksavalen");
  }

  lemma SumSeqFive(xs: seq<int>)
    requires |xs| == 5
    ensures SumSeq(xs) == xs[0] + xs[1] + xs[2] + xs[3] + xs[4]
  {
    assert SumSeq(xs) == SumSeq(xs[..4]) + xs[4];
    assert xs[..4][..3] == xs[..3] && xs[..3][..2] == xs[..2] && xs[..2][..1] == xs[..1] && xs[..1][..0] == [];
    assert SumSeq(xs[..4]) == SumSeq(xs[..3]) + xs[3];
    assert SumSeq(xs[..3]) == SumSeq(xs[..2]) + xs[2];
    assert SumSeq(xs[..2]) == SumSeq(xs[..1]) + xs[1];
    assert SumSeq(xs[..1]) == xs[0];
  }

  /** The card view with every centre-year combination of one centre: the achieved doses of each group, table by table. */
  lemma CardAchievedByTable(src: UciSource, sel: Selection)
    requires sel.year == ALL
    ensures var v := BuildUciView(src, ALL, sel);
      UciOf(v).totalS ==
        TableTotal(Family(src, "rv"), "2017", RV_KEYS, sel) + TableTotal(Family(src, "rv"), "2024", RV_KEYS, sel)
      + TableTotal(Family(src, "rotarix"), "2017", ROTARIX_KEYS, sel) + TableTotal(Family(src, "rotarix"), "2024", ROTARIX_KEYS, sel)
      + TableTotal(Family(src, "pcv"), "2017", PCV_KEYS, sel) + TableTotal(Family(src, "pcv"), "2024", PCV_KEYS, sel)
      + TableTotal(Family(src, "je"), "2017", JE_KEYS, sel) + TableTotal(Family(src, "je"), "2024", JE_KEYS, sel)
      + TableTotal(Family(src, "heksavalen"), "2017", HEKSAVALEN_KEYS, sel) + TableTotal(Family(src, "heksavalen"), "2024", HEKSAVALEN_KEYS, sel)
      + TableTotal(src.booster, "2017", LENGKAP_KEYS, sel) + TableTotal(src.booster, "2022", LENGKAP_KEYS, sel)
      + TableTotal(src.booster, "2023", LENGKAP_KEYS, sel)
      + TableTotal(src.hb0Bcg, "2024", LENGKAP_KEYS, sel) + TableTotal(src.hb0Bcg, "2025", LENGKAP_KEYS, sel)
      + TableTotal(src.tt, "2024", TT_KEYS, sel) + TableTotal(src.tt, "2025", TT_KEYS, sel)
  {
    var v := BuildUciView(src, ALL, sel);
    TotalsOfEight(Groups(v));
    PairSums(v.rv, RV_KEYS); PairSums(v.rotarix, ROTARIX_KEYS); PairSums(v.pcv, PCV_KEYS);
    PairSums(v.je, JE_KEYS); PairSums(v.heksavalen, HEKSAVALEN_KEYS);
    TripleSums(v.booster, LENGKAP_KEYS); PairSums(v.hb0Bcg, LENGKAP_KEYS); PairSums(v.tt, TT_KEYS);
    SlotIsTable(Family(src, "rv"), "2017", RV_KEYS, sel); SlotIsTable(Family(src, "rv"), "2024", RV_KEYS, sel);
    SlotIsTable(Family(src, "rotarix"), "2017", ROTARIX_KEYS, sel); SlotIsTable(Family(src, "rotarix"), "2024", ROTARIX_KEYS, sel);
    SlotIsTable(Family(src, "pcv"), "2017", PCV_KEYS, sel); SlotIsTable(Family(src, "pcv"), "2024", PCV_KEYS, sel);
    SlotIsTable(Family(src, "je"), "2017", JE_KEYS, sel); SlotIsTable(Family(src, "je"), "2024", JE_KEYS, sel);
    SlotIsTable(Family(src, "heksavalen"), "2017", HEKSAVALEN_KEYS, sel); SlotIsTable(Family(src, "heksavalen"), "2024", HEKSAVALEN_KEYS, sel);
    SlotIsTable(src.booster, "2017", LENGKAP_KEYS, sel); SlotIsTable(src.booster, "2022", LENGKAP_KEYS, sel);
    SlotIsTable(src.booster, "2023", LENGKAP_KEYS, sel);
    SlotIsTable(src.hb0Bcg, "2024", LENGKAP_KEYS, sel); SlotIsTable(src.hb0Bcg, "2025", LENGKAP_KEYS, sel);
    SlotIsTable(src.tt, "2024", TT_KEYS, sel); SlotIsTable(src.tt, "2025", TT_KEYS, sel);
  }

  /** What the trend shows at each year, when every table holds data only at the years the cards read it at. */
  lemma CapaianAtSlotYears(src: UciSource, selectedPusk: string)
    requires SlotYearsOnly(src)
    ensures var sel := CentreSelection(selectedPusk);
      && CapaianOf(src, selectedPusk, "2017") == AntigenTotal(src, "2017", sel, |FAMILIES|) + TableTotal(src.booster, "2017", LENGKAP_KEYS, sel)
      && CapaianOf(src, selectedPusk, "2022") == TableTotal(src.booster, "2022", LENGKAP_KEYS, sel)
      && CapaianOf(src, selectedPusk, "2023") == TableTotal(src.booster, "2023", LENGKAP_KEYS, sel)
      && CapaianOf(src, selectedPusk, "2024") == AntigenTotal(src, "2024", sel, |FAMILIES|)
           + TableTotal(src.hb0Bcg, "2024", LENGKAP_KEYS, sel) + TableTotal(src.tt, "2024", TT_KEYS, sel)
      && CapaianOf(src, selectedPusk, "2025") == TableTotal(src.hb0Bcg, "2025", LENGKAP_KEYS, sel) + TableTotal(src.tt, "2025", TT_KEYS, sel)
  {
    var sel := CentreSelection(selectedPusk);
    AntigenOffYears(src, "2022", sel);
    AntigenOffYears(src, "2023", sel);
    AntigenOffYears(src, "2025", sel);
    TableAbsent(src.booster, "2024", LENGKAP_KEYS, sel); TableAbsent(src.booster, "2025", LENGKAP_KEYS, sel);
    TableAbsent(src.hb0Bcg, "2017", LENGKAP_KEYS, sel); TableAbsent(src.hb0Bcg, "2022", LENGKAP_KEYS, sel);
    TableAbsent(src.hb0Bcg, "2023", LENGKAP_KEYS, sel);
    TableAbsent(src.tt, "2017", TT_KEYS, sel); TableAbsent(src.tt, "2022", TT_KEYS, sel); TableAbsent(src.tt, "2023", TT_KEYS, sel);
  }

  /**
   * The trend over every year adds up to the UCI achieved card for the same
   * centre with every year selected, provided each table holds data only at
   * the years the card reads it at.
   */
  lemma TrendMatchesCard(src: UciSource, selectedPusk: string)
    requires SlotYearsOnly(src)
    ensures var years := DisplayedYears(ALL);
            SumSeq(seq(|years|, i requires 0 <= i < |years| => CapaianOf(src, selectedPusk, years[i])))
            == UciOf(BuildUciView(src, ALL, CentreSelection(selectedPusk))).totalS
  {
    var sel := CentreSelection(selectedPusk);
    TrendSum(src, selectedPusk);
    CapaianAtSlotYears(src, selectedPusk);
    CardAchievedByTable(src, sel);
    AntigenTotalAll(src, "2017", sel);
    AntigenTotalAll(src, "2024", sel);
  }

  /** The trend over every year, added up: one total per year. */
  lemma TrendSum(src: UciSource, selectedPusk: string)
    ensures var years := DisplayedYears(ALL);
            SumSeq(seq(|years|, i requires 0 <= i < |years| => CapaianOf(src, selectedPusk, years[i])))
            == CapaianOf(src, selectedPusk, "2017") + CapaianOf(src, selectedPusk, "2022") + CapaianOf(src, selectedPusk, "2023")
               + CapaianOf(src, selectedPusk, "2024") + CapaianOf(src, selectedPusk, "2025")
  {
    var years := DisplayedYears(ALL);
    var xs := seq(|years|, i requires 0 <= i < |years| => CapaianOf(src, selectedPusk, years[i]));
    SumSeqFive(xs);
    assert xs[0] == CapaianOf(src, selectedPusk, "2017");
    assert xs[1] == CapaianOf(src, selectedPusk, "2022");
    assert xs[2] == CapaianOf(src, selectedPusk, "2023");
    assert xs[3] == CapaianOf(src, selectedPusk, "2024");
    assert xs[4] == CapaianOf(src, selectedPusk, "2025");
  }
}
