/**
 * The reasons-for-non-immunisation chart: for each BIAS vaccine, eight bars
 * (ill, refused for religious reasons, refused for other reasons, absent,
 * already had MMR, already had DT, already had TD, not promoted), each the
 * sum of a list of field spellings over the filtered records (`sumAlasan`,
 * `getDataAlasan`).
 */
module Reasons {
  import opened JsValues
  import opened Views

  /** The field spellings of each reason, in chart order. */
  const REASON_KEYS: seq<seq<string>> := [
    ["tdk_imun_skt", "tdk_imun_skt_kls_2", "tdk_imun_skt_kls_5", "hpv_tdk_imun_skt_kls_5", "hpv_tdk_imun_skt_kls_6", "hpv_tdk_imun_skt_kls_9"],
    ["tdk_blk_agm", "tdk_blk_agm_kls_2", "tdk_blk_agm_kls_5", "hpv_tdk_imun_agm_kls_5", "hpv_tdk_imun_agm_kls_6", "hpv_tdk_imun_agm_kls_9"],
    ["tdk_blk_alsn_ln", "tdk_blk_alsn_ln_kls_2", "tdk_blk_alsn_ln_kls_5", "hpv_tdk_blk_alsn_ln_kls_5", "hpv_tdk_blk_alsn_ln_kls_6", "hpv_tdk_blk_alsn_ln_kls_9"],
    ["tm", "tm_kls_2", "tm_kls_5", "hpv_tm_kls_5", "hpv_tm_kls_6", "hpv_tm_kls_9"],
    ["sdh_imun_mmr_2kl"],
    ["sdh_imun_dt"],
    ["sdh_imun_td_kls_2", "sdh_imun_td_kls_5"],
    ["tdk_nk_kls_cmk", "tdk_nk_kls_dt", "tdk_nk_kls_td_kls_2", "tdk_nk_kls_td_kls_5", "tdk_nk_kls_hpv_kls_5"]
  ]

  /** `sumAlasan(targetArray, keys)`: a missing or empty array returns 0 before the scan. */
  method SumAlasan(targetArray: Option<seq<Record>>, keys: seq<string>) returns (total: int)
    ensures total == KeySum(targetArray.GetOr([]), keys)
  {
    total := 0;
    if targetArray.None? || |targetArray.value| == 0 {
      return;
    }
    var arr := targetArray.value;
    for i := 0 to |arr|
      invariant total == KeySum(arr[..i], keys)
    {
      var d := arr[i];
      for k := 0 to |keys|
        invariant total == KeySum(arr[..i], keys) + RecordKeySum(d, keys[..k])
      {
        total := total + FieldNum(d, keys[k]);
        assert keys[..k + 1][..k] == keys[..k];
      }
      assert keys[..|keys|] == keys;
      assert arr[..i + 1][..i] == arr[..i];
    }
    assert arr[..|arr|] == arr;
  }

  /** The eight bars of one vaccine. */
  function ReasonsOf(arr: seq<Record>): (r: seq<int>)
    ensures |r| == |REASON_KEYS|
    ensures forall i :: 0 <= i < |r| ==> r[i] == KeySum(arr, REASON_KEYS[i])
  {
    seq(|REASON_KEYS|, i requires 0 <= i < |REASON_KEYS| => KeySum(arr, REASON_KEYS[i]))
  }

  /** `getDataAlasan(targetArray)`: one `sumAlasan` per reason. */
  method DataAlasan(targetArray: Option<seq<Record>>) returns (r: seq<int>)
    ensures r == ReasonsOf(targetArray.GetOr([]))
  {
    var sakit := SumAlasan(targetArray, REASON_KEYS[0]);
    var agama := SumAlasan(targetArray, REASON_KEYS[1]);
    var lain := SumAlasan(targetArray, REASON_KEYS[2]);
    var tidakMasuk := SumAlasan(targetArray, REASON_KEYS[3]);
    var mmr := SumAlasan(targetArray, REASON_KEYS[4]);
    var dt := SumAlasan(targetArray, REASON_KEYS[5]);
    var td := SumAlasan(targetArray, REASON_KEYS[6]);
    var tidakNaik := SumAlasan(targetArray, REASON_KEYS[7]);
    r := [sakit, agama, lain, tidakMasuk, mmr, dt, td, tidakNaik];
  }

  /** The four datasets of the chart: campak, DT, TD, and HPV over the three classes joined. */
  method AlasanDatasets(v: BiasView) returns (rows: seq<seq<int>>)
    ensures rows == [ReasonsOf(v.campak), ReasonsOf(v.dt), ReasonsOf(v.td), ReasonsOf(v.kelas5 + v.kelas6 + v.kelas9)]
  {
    var campak := DataAlasan(Some(v.campak));
    var dt := DataAlasan(Some(v.dt));
    var td := DataAlasan(Some(v.td));
    var hpv := DataAlasan(Some(v.kelas5 + v.kelas6 + v.kelas9));
    rows := [campak, dt, td, hpv];
  }

  // ---------------------------------------------------------------------
  // Properties

  /** Every bar is 0 for a missing array, as for an empty one. */
  lemma ReasonsOfNothing()
    ensures forall i :: 0 <= i < |REASON_KEYS| ==> ReasonsOf(Option<seq<Record>>.None.GetOr([]))[i] == 0
  {
  }

  /** Joining two arrays adds their bars, reason by reason. */
  lemma ReasonsAdditive(a: seq<Record>, b: seq<Record>)
    ensures forall i :: 0 <= i < |REASON_KEYS| ==> ReasonsOf(a + b)[i] == ReasonsOf(a)[i] + ReasonsOf(b)[i]
  {
    forall i | 0 <= i < |REASON_KEYS|
      ensures ReasonsOf(a + b)[i] == ReasonsOf(a)[i] + ReasonsOf(b)[i]
    {
      KeySumAppend(a, b, REASON_KEYS[i]);
    }
  }

  /** The HPV bars are the sums of the bars of grades 5, 6 and 9. */
  lemma HpvReasonsByGrade(v: BiasView)
    ensures forall i :: 0 <= i < |REASON_KEYS| ==>
      ReasonsOf(v.kelas5 + v.kelas6 + v.kelas9)[i] == ReasonsOf(v.kelas5)[i] + ReasonsOf(v.kelas6)[i] + ReasonsOf(v.kelas9)[i]
  {
    ReasonsAdditive(v.kelas5, v.kelas6);
    ReasonsAdditive(v.kelas5 + v.kelas6, v.kelas9);
  }

  /** Non-negative fields give non-negative bars. */
  lemma ReasonsNonNeg(arr: seq<Record>)
    requires NonNegRecords(arr)
    ensures forall i :: 0 <= i < |REASON_KEYS| ==> ReasonsOf(arr)[i] >= 0
  {
    forall i | 0 <= i < |REASON_KEYS| ensures ReasonsOf(arr)[i] >= 0 {
      KeySumNonNeg(arr, REASON_KEYS[i]);
    }
  }

  /** A reason with a single spelling is the plain field sum, as `sumT` computes it. */
  lemma SingleSpellingReasons(arr: seq<Record>)
    ensures ReasonsOf(arr)[4] == SumField(arr, "sdh_imun_mmr_2kl")
    ensures ReasonsOf(arr)[5] == SumField(arr, "sdh_imun_dt")
  {
    KeySumSingle(arr, "sdh_imun_mmr_2kl");
    KeySumSingle(arr, "sdh_imun_dt");
  }
}
