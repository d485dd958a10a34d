/**
 * `processDataBIAS`: the school-based immunisation (BIAS) figures computed
 * from the filtered BIAS arrays with `sumT`. The text-node updates the
 * source makes on the way are not part of the model; the returned record is.
 */
module BiasAggregator {
  import opened JsValues
  import opened Views

  /** Counts by sex, `{ L, P }` (laki-laki, perempuan). */
  datatype Jk = Jk(l: int, p: int)

  /** The record `processDataBIAS` returns. */
  datatype BiasResult = BiasResult(
    totalS: int,
    totalT: int,
    sasaranBias: int,
    detailSasaran: seq<int>,
    jk: Jk)

  // Per-grade targets (sasaran per kelas)
  function S1(v: BiasView): int {
    SumField(v.campak, "kls_1_mrd_br_jml") + SumField(v.campak, "tdk_nk_kls_cmk") + SumField(v.dt, "tdk_nk_kls_dt")
  }
  function S2(v: BiasView): int {
    SumField(v.td, "kls_2_mrd_br_jml") + SumField(v.td, "tdk_nk_kls_td_kls_2")
  }
  function S5(v: BiasView): int {
    SumField(v.td, "kls_5_mrd_L") + SumField(v.td, "tdk_nk_kls_td_kls_5") + SumField(v.kelas5, "ssrn_P_kls_5")
  }
  function S6(v: BiasView): int { SumField(v.kelas6, "ssrn_P_kls_6") }
  function S9(v: BiasView): int { SumField(v.kelas9, "ssrn_P_kls_9") }

  // Per-vaccine achieved (s) and absent (t) counts
  function CampakS(v: BiasView): int { SumField(v.campak, "imun_cmk_jml") }
  function CampakT(v: BiasView): int { SumField(v.campak, "ttl_abs_cmk") }
  function DtS(v: BiasView): int { SumField(v.dt, "dt_imun_jml") }
  function DtT(v: BiasView): int { SumField(v.dt, "ttl_abs_dt") }
  function TdS(v: BiasView): int {
    SumField(v.td, "td_imun_jml_kls_2") + SumField(v.td, "imun_td_jml_kls_5")
  }
  function TdT(v: BiasView): int {
    SumField(v.td, "ttl_abs_td_kls_2") + SumField(v.td, "ttl_abs_td_kls_5")
  }
  function HpvS(v: BiasView): int {
    SumField(v.kelas5, "hpv_ttl_kls_5") + SumField(v.kelas6, "hpv_ttl_kls_6") + SumField(v.kelas9, "hpv_ttl_kls_9")
  }
  function HpvT(v: BiasView): int {
    SumField(v.kelas5, "hpv_ttl_abs_kls_5") + SumField(v.kelas6, "hpv_ttl_abs_kls_6") + SumField(v.kelas9, "hpv_ttl_abs_kls_9")
  }

  /** Sum of a list of figures, left to right. */
  function SumSeq(xs: seq<int>): int {
    if |xs| == 0 then 0 else SumSeq(xs[..|xs| - 1]) + xs[|xs| - 1]
  }

  function ProcessBias(v: BiasView): BiasResult {
    var s1, s2, s5, s6, s9 := S1(v), S2(v), S5(v), S6(v), S9(v);
    var hpvS := HpvS(v);
    BiasResult(
      CampakS(v) + DtS(v) + TdS(v) + hpvS,
      CampakT(v) + DtT(v) + TdT(v) + HpvT(v),
      s1 + s2 + s5 + s6 + s9,
      [s1, s2, s5, s6, s9],
      Jk(SumField(v.campak, "imun_cmk_L") + SumField(v.dt, "dt_imun_L") + SumField(v.td, "td_imun_L_kls_2"),
         SumField(v.campak, "imun_cmk_P") + SumField(v.dt, "dt_imun_P") + hpvS))
  }

  // ---------------------------------------------------------------------
  // Properties

  /** The BIAS target is the sum of the five per-grade targets shown in the grade chart. */
  lemma {:induction false} SasaranIsSumOfGrades(v: BiasView)
    ensures |ProcessBias(v).detailSasaran| == 5
    ensures ProcessBias(v).sasaranBias == SumSeq(ProcessBias(v).detailSasaran)
  {
    var d := ProcessBias(v).detailSasaran;
    assert d[..4][..3][..2][..1][..0] == [];
    assert d[..2][..1] == d[..1] && d[..3][..2] == d[..2] && d[..4][..3] == d[..3] && d[..5][..4] == d[..4];
    assert d[..5] == d;
    assert SumSeq(d[..1]) == d[0];
    assert SumSeq(d[..2]) == d[0] + d[1];
    assert SumSeq(d[..3]) == d[0] + d[1] + d[2];
    assert SumSeq(d[..4]) == d[0] + d[1] + d[2] + d[3];
  }

  /** Empty input gives all-zero output (an empty category, a centre with no records). */
  lemma ProcessBiasEmpty()
    ensures ProcessBias(EMPTY_BIAS) == BiasResult(0, 0, 0, [0, 0, 0, 0, 0], Jk(0, 0))
  {
    var v := EMPTY_BIAS;
    assert S1(v) == 0 && S2(v) == 0 && S5(v) == 0 && S6(v) == 0 && S9(v) == 0;
    assert CampakS(v) == 0 && DtS(v) == 0 && TdS(v) == 0 && HpvS(v) == 0;
    assert CampakT(v) == 0 && DtT(v) == 0 && TdT(v) == 0 && HpvT(v) == 0;
    var r := ProcessBias(v);
    assert r.detailSasaran == [0, 0, 0, 0, 0];
    assert r.totalS == 0 && r.totalT == 0 && r.sasaranBias == 0 && r.jk == Jk(0, 0);
  }

  /** Arrays concatenated field by field. */
  function AppendBias(a: BiasView, b: BiasView): BiasView {
    BiasView(a.campak + b.campak, a.dt + b.dt, a.td + b.td, a.kelas5 + b.kelas5, a.kelas6 + b.kelas6, a.kelas9 + b.kelas9)
  }

  function AddBias(a: BiasResult, b: BiasResult): BiasResult
    requires |a.detailSasaran| == |b.detailSasaran| == 5
  {
    BiasResult(
      a.totalS + b.totalS, a.totalT + b.totalT, a.sasaranBias + b.sasaranBias,
      [a.detailSasaran[0] + b.detailSasaran[0], a.detailSasaran[1] + b.detailSasaran[1],
       a.detailSasaran[2] + b.detailSasaran[2], a.detailSasaran[3] + b.detailSasaran[3],
       a.detailSasaran[4] + b.detailSasaran[4]],
      Jk(a.jk.l + b.jk.l, a.jk.p + b.jk.p))
  }

  lemma TargetsAdditive(a: BiasView, b: BiasView)
    ensures var ab := AppendBias(a, b);
            && S1(ab) == S1(a) + S1(b) && S2(ab) == S2(a) + S2(b) && S5(ab) == S5(a) + S5(b)
            && S6(ab) == S6(a) + S6(b) && S9(ab) == S9(a) + S9(b)
  {
    SumFieldAppend(a.campak, b.campak, "kls_1_mrd_br_jml"); SumFieldAppend(a.campak, b.campak, "tdk_nk_kls_cmk");
    SumFieldAppend(a.dt, b.dt, "tdk_nk_kls_dt");
    SumFieldAppend(a.td, b.td, "kls_2_mrd_br_jml"); SumFieldAppend(a.td, b.td, "tdk_nk_kls_td_kls_2");
    SumFieldAppend(a.td, b.td, "kls_5_mrd_L"); SumFieldAppend(a.td, b.td, "tdk_nk_kls_td_kls_5");
    SumFieldAppend(a.kelas5, b.kelas5, "ssrn_P_kls_5");
    SumFieldAppend(a.kelas6, b.kelas6, "ssrn_P_kls_6");
    SumFieldAppend(a.kelas9, b.kelas9, "ssrn_P_kls_9");
  }

  lemma AchievedAdditive(a: BiasView, b: BiasView)
    ensures var ab := AppendBias(a, b);
            && CampakS(ab) == CampakS(a) + CampakS(b) && DtS(ab) == DtS(a) + DtS(b)
            && TdS(ab) == TdS(a) + TdS(b) && HpvS(ab) == HpvS(a) + HpvS(b)
  {
    SumFieldAppend(a.campak, b.campak, "imun_cmk_jml");
    SumFieldAppend(a.dt, b.dt, "dt_imun_jml");
    SumFieldAppend(a.td, b.td, "td_imun_jml_kls_2"); SumFieldAppend(a.td, b.td, "imun_td_jml_kls_5");
    SumFieldAppend(a.kelas5, b.kelas5, "hpv_ttl_kls_5");
    SumFieldAppend(a.kelas6, b.kelas6, "hpv_ttl_kls_6");
    SumFieldAppend(a.kelas9, b.kelas9, "hpv_ttl_kls_9");
  }

  lemma AbsentAdditive(a: BiasView, b: BiasView)
    ensures var ab := AppendBias(a, b);
            && CampakT(ab) == CampakT(a) + CampakT(b) && DtT(ab) == DtT(a) + DtT(b)
            && TdT(ab) == TdT(a) + TdT(b) && HpvT(ab) == HpvT(a) + HpvT(b)
  {
    SumFieldAppend(a.campak, b.campak, "ttl_abs_cmk");
    SumFieldAppend(a.dt, b.dt, "ttl_abs_dt");
    SumFieldAppend(a.td, b.td, "ttl_abs_td_kls_2"); SumFieldAppend(a.td, b.td, "ttl_abs_td_kls_5");
    SumFieldAppend(a.kelas5, b.kelas5, "hpv_ttl_abs_kls_5");
    SumFieldAppend(a.kelas6, b.kelas6, "hpv_ttl_abs_kls_6");
    SumFieldAppend(a.kelas9, b.kelas9, "hpv_ttl_abs_kls_9");
  }

  lemma CountsAdditive(a: BiasView, b: BiasView)
    ensures var ra, rb, rab := ProcessBias(a), ProcessBias(b), ProcessBias(AppendBias(a, b));
            rab.totalS == ra.totalS + rb.totalS && rab.totalT == ra.totalT + rb.totalT
  {
    AchievedAdditive(a, b);
    AbsentAdditive(a, b);
  }

  lemma SasaranAdditive(a: BiasView, b: BiasView)
    ensures var ra, rb, rab := ProcessBias(a), ProcessBias(b), ProcessBias(AppendBias(a, b));
            && rab.sasaranBias == ra.sasaranBias + rb.sasaranBias
            && |ra.detailSasaran| == |rb.detailSasaran| == |rab.detailSasaran| == 5
            && forall i :: 0 <= i < 5 ==> rab.detailSasaran[i] == ra.detailSasaran[i] + rb.detailSasaran[i]
  {
    TargetsAdditive(a, b);
  }

  lemma JkAdditive(a: BiasView, b: BiasView)
    ensures var ra, rb, rab := ProcessBias(a), ProcessBias(b), ProcessBias(AppendBias(a, b));
            rab.jk == Jk(ra.jk.l + rb.jk.l, ra.jk.p + rb.jk.p)
  {
    AchievedAdditive(a, b);
    SumFieldAppend(a.campak, b.campak, "imun_cmk_L"); SumFieldAppend(a.campak, b.campak, "imun_cmk_P");
    SumFieldAppend(a.dt, b.dt, "dt_imun_L"); SumFieldAppend(a.dt, b.dt, "dt_imun_P");
    SumFieldAppend(a.td, b.td, "td_imun_L_kls_2");
  }

  /**
   * Every BIAS figure is a sum-reduction: aggregating two sets of records
   * together gives the sum of aggregating them apart, so no record is lost
   * or counted twice.
   */
  lemma ProcessBiasAdditive(a: BiasView, b: BiasView)
    ensures |ProcessBias(a).detailSasaran| == |ProcessBias(b).detailSasaran| == 5
    ensures ProcessBias(AppendBias(a, b)) == AddBias(ProcessBias(a), ProcessBias(b))
  {
    CountsAdditive(a, b);
    SasaranAdditive(a, b);
    JkAdditive(a, b);
    AddBiasFieldwise(ProcessBias(a), ProcessBias(b), ProcessBias(AppendBias(a, b)));
  }

  lemma AddBiasFieldwise(ra: BiasResult, rb: BiasResult, rab: BiasResult)
    requires rab.totalS == ra.totalS + rb.totalS && rab.totalT == ra.totalT + rb.totalT
    requires rab.sasaranBias == ra.sasaranBias + rb.sasaranBias
    requires |ra.detailSasaran| == |rb.detailSasaran| == |rab.detailSasaran| == 5
    requires forall i :: 0 <= i < 5 ==> rab.detailSasaran[i] == ra.detailSasaran[i] + rb.detailSasaran[i]
    requires rab.jk == Jk(ra.jk.l + rb.jk.l, ra.jk.p + rb.jk.p)
    ensures rab == AddBias(ra, rb)
  {
    assert rab.detailSasaran == AddBias(ra, rb).detailSasaran;
  }

  ghost predicate NonNegView(v: BiasView) {
    NonNegRecords(v.campak) && NonNegRecords(v.dt) && NonNegRecords(v.td)
    && NonNegRecords(v.kelas5) && NonNegRecords(v.kelas6) && NonNegRecords(v.kelas9)
  }

  /**
   * With non-negative counts every output is non-negative, and the female
   * count is at least the HPV achieved count, which it includes whole.
   */
  lemma ProcessBiasNonNeg(v: BiasView)
    requires NonNegView(v)
    ensures var r := ProcessBias(v);
            && r.totalS >= 0 && r.totalT >= 0 && r.sasaranBias >= 0
            && (forall i :: 0 <= i < |r.detailSasaran| ==> r.detailSasaran[i] >= 0)
            && r.jk.l >= 0 && r.jk.p >= HpvS(v) >= 0
  {
    SumFieldNonNeg(v.campak, "kls_1_mrd_br_jml"); SumFieldNonNeg(v.campak, "tdk_nk_kls_cmk"); SumFieldNonNeg(v.campak, "imun_cmk_jml");
    SumFieldNonNeg(v.campak, "ttl_abs_cmk"); SumFieldNonNeg(v.campak, "imun_cmk_L"); SumFieldNonNeg(v.campak, "imun_cmk_P");
    SumFieldNonNeg(v.dt, "tdk_nk_kls_dt"); SumFieldNonNeg(v.dt, "dt_imun_jml"); SumFieldNonNeg(v.dt, "ttl_abs_dt");
    SumFieldNonNeg(v.dt, "dt_imun_L"); SumFieldNonNeg(v.dt, "dt_imun_P");
    SumFieldNonNeg(v.td, "kls_2_mrd_br_jml"); SumFieldNonNeg(v.td, "tdk_nk_kls_td_kls_2"); SumFieldNonNeg(v.td, "kls_5_mrd_L");
    SumFieldNonNeg(v.td, "tdk_nk_kls_td_kls_5"); SumFieldNonNeg(v.td, "td_imun_jml_kls_2"); SumFieldNonNeg(v.td, "imun_td_jml_kls_5");
    SumFieldNonNeg(v.td, "ttl_abs_td_kls_2"); SumFieldNonNeg(v.td, "ttl_abs_td_kls_5"); SumFieldNonNeg(v.td, "td_imun_L_kls_2");
    SumFieldNonNeg(v.kelas5, "ssrn_P_kls_5"); SumFieldNonNeg(v.kelas5, "hpv_ttl_kls_5"); SumFieldNonNeg(v.kelas5, "hpv_ttl_abs_kls_5");
    SumFieldNonNeg(v.kelas6, "ssrn_P_kls_6"); SumFieldNonNeg(v.kelas6, "hpv_ttl_kls_6"); SumFieldNonNeg(v.kelas6, "hpv_ttl_abs_kls_6");
    SumFieldNonNeg(v.kelas9, "ssrn_P_kls_9"); SumFieldNonNeg(v.kelas9, "hpv_ttl_kls_9"); SumFieldNonNeg(v.kelas9, "hpv_ttl_abs_kls_9");
  }

  /**
   * The HPV programme is counted as female only: replacing the HPV arrays
   * leaves the male count unchanged and moves the female count by exactly
   * the change in HPV achieved.
   */
  lemma HpvCountsAsFemale(v: BiasView, k5: seq<Record>, k6: seq<Record>, k9: seq<Record>)
    ensures var w := v.(kelas5 := k5, kelas6 := k6, kelas9 := k9);
            && ProcessBias(w).jk.l == ProcessBias(v).jk.l
            && ProcessBias(w).jk.p - HpvS(w) == ProcessBias(v).jk.p - HpvS(v)
  {
  }
}
