/**
 * The page state and the filter-change handler: the loaded JSON is kept in
 * `cachedData`; every change of a selector rebuilds the filtered views,
 * runs both aggregators and recomputes the combined figures.
 */
module Dashboard {
  import opened JsValues
  import opened Normalizer
  import opened RecordFilter
  import opened Views
  import opened BiasAggregator
  import opened UciAggregator
  import opened Composite

  /** The parsed JSON file; `program_imunisasi` may be missing. */
  datatype Json = Json(program: Option<Dataset>)

  /**
   * The selectors as the handler reads them: the health-centre selector is
   * always on the page; the year and category selectors may be absent.
   */
  datatype Controls = Controls(puskesmas: string, year: Option<string>, category: Option<string>)

  /** `element?.value || 'all'`: an absent selector or an empty value reads as 'all'. */
  function OrAll(o: Option<string>): (r: string)
    ensures r != ""
    ensures r == ALL <==> o.None? || o.value == "" || o.value == ALL
  {
    if o.Some? && o.value != "" then o.value else ALL
  }

  function SelectionOf(c: Controls): Selection {
    Selection(c.puskesmas, Normalize(c.puskesmas), OrAll(c.year))
  }

  /** What one run of the handler produces. */
  datatype Refresh =
    | Skipped   // nothing loaded yet: the handler returns at once
    | Threw     // a switched-on part of the dataset is missing and is dereferenced
    | Shown(bias: BiasView, uci: UciView, resBias: BiasResult, resUci: UciResult, totals: Totals)

  const NO_BIAS: BiasSource := BiasSource(None, None, None, None)
  const NO_UCI: UciSource := UciSource(map[], map[], map[], map[])

  /**
   * The handler's outcome as a function of the cache and the selectors. A
   * subtree is only dereferenced when its category is switched on, so a
   * missing `uci` subtree is harmless under the 'bias' category and the other
   * way round.
   */
  function RefreshOf(cache: Option<Json>, c: Controls): Refresh {
    if cache.None? then Skipped
    else if cache.value.program.None? then Threw
    else
      var ds := cache.value.program.value;
      var category := OrAll(c.category);
      if (BiasActive(category) && ds.bias.None?) || (UciActive(category) && ds.uci.None?) then Threw
      else
        var sel := SelectionOf(c);
        Outcome(BuildBiasView(ds.bias.GetOr(NO_BIAS), category, sel), BuildUciView(ds.uci.GetOr(NO_UCI), category, sel))
  }

  /** Both aggregators and the combined figures over a pair of views. */
  function Outcome(bv: BiasView, uv: UciView): Refresh {
    var rb := ProcessBias(bv);
    var ru := UciOf(uv);
    Shown(bv, uv, rb, ru, Combine(rb, ru))
  }

  class Page {
    /** `cachedData`: null until the JSON has been loaded. */
    var cachedData: Option<Json>

    constructor()
      ensures cachedData == None
    {
      cachedData := None;
    }

    /** The assignment in `fetchImunisasiData`; None stands for a failed fetch or parse, which leaves the cache alone. */
    method Load(parsed: Option<Json>)
      modifies this
      ensures parsed.Some? ==> cachedData == parsed
      ensures parsed.None? ==> cachedData == old(cachedData)
    {
      if parsed.Some? {
        cachedData := parsed;
      }
    }

    method HandleFilterChange(c: Controls) returns (r: Refresh)
      ensures r == RefreshOf(cachedData, c)
      ensures r.Shown? ==> r.totals.jk == r.resBias.jk
    {
      if cachedData.None? {
        return Skipped;
      }
      var program := cachedData.value.program;
      if program.None? {
        return Threw;
      }
      var ds := program.value;
      var category := OrAll(c.category);
      var sel := SelectionOf(c);
      if BiasActive(category) && ds.bias.None? {
        return Threw;
      }
      var bv := BuildBiasView(ds.bias.GetOr(NO_BIAS), category, sel);
      if UciActive(category) && ds.uci.None? {
        return Threw;
      }
      var uv := BuildUciView(ds.uci.GetOr(NO_UCI), category, sel);
      var resBias := ProcessBias(bv);
      var resUci := ProcessUci(uv);
      r := Shown(bv, uv, resBias, resUci, Combine(resBias, resUci));
    }
  }

  // ---------------------------------------------------------------------
  // Properties

  /** Before the data has arrived nothing is recomputed. */
  lemma NothingBeforeLoad(c: Controls)
    ensures RefreshOf(None, c) == Skipped
  {
  }

  /** Under the 'bias' category the UCI subtree is never read and every UCI figure is 0. */
  lemma BiasCategoryIgnoresUci(j: Json, c: Controls)
    requires j.program.Some? && j.program.value.bias.Some?
    requires c.category == Some("bias")
    ensures var r := RefreshOf(Some(j), c);
            && r.Shown?
            && r.bias == BuildBiasView(j.program.value.bias.value, "bias", SelectionOf(c))
            && r.resBias == ProcessBias(r.bias)
            && r.uci == EMPTY_UCI
            && r.resUci == UciResult(0, 0, 0, Jk(0, 0))
            && r.totals.totalS == r.resBias.totalS && r.totals.totalT == r.resBias.totalT
            && r.totals.sasaran == r.resBias.sasaranBias
  {
    var ds := j.program.value;
    var sel := SelectionOf(c);
    var category := OrAll(c.category);
    assert category == "bias";
    UciViewGatedOff(ds.uci.GetOr(NO_UCI), category, sel);
    var bv := BuildBiasView(ds.bias.GetOr(NO_BIAS), category, sel);
    assert RefreshOf(Some(j), c) == Outcome(bv, EMPTY_UCI);
    OutcomeParts(bv, EMPTY_UCI);
    UciOfEmpty();
    CombineBiasOnly(ProcessBias(bv));
  }

  /** Under the 'uci' category the BIAS subtree is never read and every BIAS figure is 0. */
  lemma UciCategoryIgnoresBias(j: Json, c: Controls)
    requires j.program.Some? && j.program.value.uci.Some?
    requires c.category == Some("uci")
    ensures var r := RefreshOf(Some(j), c);
            && r.Shown?
            && r.bias == EMPTY_BIAS
            && r.resBias == BiasResult(0, 0, 0, [0, 0, 0, 0, 0], Jk(0, 0))
            && r.totals.totalS == r.resUci.totalS && r.totals.sasaran == r.resUci.sasaranUci
  {
    var ds := j.program.value;
    var sel := SelectionOf(c);
    var category := OrAll(c.category);
    BiasViewGatedOff(ds.bias.GetOr(NO_BIAS), category, sel);
    var uv := BuildUciView(ds.uci.GetOr(NO_UCI), category, sel);
    assert RefreshOf(Some(j), c) == Outcome(EMPTY_BIAS, uv);
    OutcomeParts(EMPTY_BIAS, uv);
    ProcessBiasEmpty();
    CombineUciOnly(UciOf(uv));
  }

  lemma OutcomeParts(bv: BiasView, uv: UciView)
    ensures Outcome(bv, uv).Shown?
    ensures Outcome(bv, uv).bias == bv && Outcome(bv, uv).uci == uv
    ensures Outcome(bv, uv).resBias == ProcessBias(bv) && Outcome(bv, uv).resUci == UciOf(uv)
    ensures Outcome(bv, uv).totals == Combine(ProcessBias(bv), UciOf(uv))
  {
  }

  /**
   * The percentage card of a shown refresh divides the combined target by the
   * combined achieved count, and shows +Infinity exactly when the target is
   * positive and nothing was achieved.
   */
  lemma ShownPercentCard(cache: Option<Json>, c: Controls, r: Refresh)
    requires r == RefreshOf(cache, c) && r.Shown?
    ensures var sasaran, achieved := r.resBias.sasaranBias + r.resUci.sasaranUci, r.resBias.totalS + r.resUci.totalS;
            && r.totals.PercentCard() == CompositePercent(sasaran, achieved)
            && (r.totals.PercentCard().PosInfinity? <==> sasaran > 0 && achieved == 0)
  {
    ShownIsCombined(cache, c, r);
    ShownCard(r);
  }

  lemma ShownIsCombined(cache: Option<Json>, c: Controls, r: Refresh)
    requires r == RefreshOf(cache, c) && r.Shown?
    ensures r.totals == Combine(r.resBias, r.resUci)
  {
  }

  lemma ShownCard(r: Refresh)
    requires r.Shown? && r.totals == Combine(r.resBias, r.resUci)
    ensures var sasaran, achieved := r.resBias.sasaranBias + r.resUci.sasaranUci, r.resBias.totalS + r.resUci.totalS;
            && r.totals.PercentCard() == CompositePercent(sasaran, achieved)
            && (r.totals.PercentCard().PosInfinity? <==> sasaran > 0 && achieved == 0)
  {
    CombinedPercentCard(r.resBias, r.resUci);
  }

  /** With both categories on, a missing subtree makes the handler throw. */
  lemma MissingSubtreeThrows(j: Json, c: Controls)
    requires j.program.Some? && (j.program.value.bias.None? || j.program.value.uci.None?)
    requires OrAll(c.category) == ALL
    ensures RefreshOf(Some(j), c) == Threw
  {
  }

  /** With every selector on 'all' the views are the raw data, and the figures are computed over them. */
  lemma SelectAllShowsRawData(ds: Dataset, c: Controls)
    requires ds.bias.Some? && ds.uci.Some?
    requires c.puskesmas == ALL && OrAll(c.year) == ALL && OrAll(c.category) == ALL
    ensures var r, src := RefreshOf(Some(Json(Some(ds))), c), ds.bias.value;
            && r.Shown?
            && r.bias == BiasView(src.campak.GetOr([]), src.dt.GetOr([]), src.td.GetOr([]),
                                  HpvClass(src, 5).GetOr([]), HpvClass(src, 6).GetOr([]), HpvClass(src, 9).GetOr([]))
            && r.uci == RawUciView(ds.uci.value)
            && r.resBias == ProcessBias(r.bias) && r.resUci == UciOf(r.uci)
  {
    var sel := SelectionOf(c);
    var category := OrAll(c.category);
    var bv := BuildBiasView(ds.bias.GetOr(NO_BIAS), category, sel);
    var uv := BuildUciView(ds.uci.GetOr(NO_UCI), category, sel);
    RefreshShows(Json(Some(ds)), c);
    BiasViewSelectAll(ds.bias.value, category, sel);
    UciViewSelectAll(ds.uci.value, category, sel);
    OutcomeParts(bv, uv);
  }

  /** When every switched-on subtree is present, the handler shows the outcome over the built views. */
  lemma RefreshShows(j: Json, c: Controls)
    requires j.program.Some?
    requires BiasActive(OrAll(c.category)) ==> j.program.value.bias.Some?
    requires UciActive(OrAll(c.category)) ==> j.program.value.uci.Some?
    ensures var ds, category, sel := j.program.value, OrAll(c.category), SelectionOf(c);
            RefreshOf(Some(j), c)
            == Outcome(BuildBiasView(ds.bias.GetOr(NO_BIAS), category, sel), BuildUciView(ds.uci.GetOr(NO_UCI), category, sel))
  {
  }

  /** The measles record of the scenario below, as the data spells it. */
  function MeaslesRecord(): Record {
    map["Puskesmas" := Text("Puskesmas Gamping I"), "imun_cmk_jml" := Num(50), "ttl_abs_cmk" := Num(5)]
  }

  lemma MeaslesNameKey(rec: Record)
    requires rec == MeaslesRecord()
    ensures NameKeyOf(rec, NAME_FIELDS) == "GAMPING 1"
  {
    assert "Pukesmas" !in rec;
    assert FirstTruthy(rec, NAME_FIELDS) == Some(Text("Puskesmas Gamping I"));
    NormalizeRomanAndPrefix("Puskesmas Gamping I");
  }

  lemma MeaslesRecordKept(rec: Record, sel: Selection)
    requires rec == MeaslesRecord() && sel.normalized == "GAMPING 1"
    ensures FilterRecords([rec], sel, ALL) == [rec]
  {
    MeaslesNameKey(rec);
    assert Keep(rec, sel, ALL);
    assert [rec][1..] == [];
  }

  lemma MeaslesFigures(rec: Record, bv: BiasView)
    requires rec == MeaslesRecord() && bv == BiasView([rec], [], [], [], [], [])
    ensures ProcessBias(bv).totalS == 50 && ProcessBias(bv).totalT == 5
  {
    assert SumField([rec], "imun_cmk_jml") == 50 by { assert [rec][..0] == []; }
    assert SumField([rec], "ttl_abs_cmk") == 5 by { assert [rec][..0] == []; }
  }

  /**
   * One centre with one measles record, spelt "Puskesmas Gamping I" in the
   * data and "Gamping 1" in the selector, under the 'bias' category: the
   * cards show 50 vaccinated and 5 absent.
   */
  lemma MeaslesScenario(j: Json, c: Controls)
    requires j == Json(Some(Dataset(Some(BiasSource(Some([MeaslesRecord()]), None, None, None)), None)))
    requires c == Controls("Gamping 1", None, Some("bias"))
    ensures var r := RefreshOf(Some(j), c);
            && r.Shown?
            && r.resBias.totalS == 50 && r.resBias.totalT == 5
            && r.totals.totalS == 50 && r.totals.totalT == 5
  {
    MeaslesFigures(MeaslesRecord(), BiasView([MeaslesRecord()], [], [], [], [], []));
    MeaslesView(j.program.value.bias.value, c);
    BiasCategoryIgnoresUci(j, c);
  }

  lemma MeaslesView(src: BiasSource, c: Controls)
    requires src == BiasSource(Some([MeaslesRecord()]), None, None, None)
    requires c == Controls("Gamping 1", None, Some("bias"))
    ensures BuildBiasView(src, "bias", SelectionOf(c)) == BiasView([MeaslesRecord()], [], [], [], [], [])
  {
    NormalizeBareName(c.puskesmas);
    MeaslesRecordKept(MeaslesRecord(), SelectionOf(c));
  }
}
