/**
 * `processDataUCI`: live-birth targets per calendar year, achieved doses per
 * group (`sumS`) and loss counts per group (`sumT_Uci`) over the filtered
 * UCI view. `sumS` and `sumT_Uci` accumulate into a local total inside
 * nested loops and are methods here, proved against the sum-reductions
 * they compute.
 */
module UciAggregator {
  import opened JsValues
  import opened Views
  import opened BiasAggregator

  // Dose fields per group
  const RV_KEYS: seq<string> := ["rv_1_jml", "rv_2_jml", "rv_3_jml"]
  const ROTARIX_KEYS: seq<string> := ["rotarix_1_jml", "rotarix_2_jml"]
  const PCV_KEYS: seq<string> := ["pcv_1_jml", "pcv_2_jml", "pcv_3_jml"]
  const JE_KEYS: seq<string> := ["je_1_jml"]
  const HEKSAVALEN_KEYS: seq<string> := ["heksavalen_1_jml", "heksavalen_2_jml", "heksavalen_3_jml"]
  const LENGKAP_KEYS: seq<string> := ["lengkap_jml"]
  const TT_KEYS: seq<string> := ["total"]

  // Loss fields: the spellings of each sex slot, in the order they are tried
  const MATI_L: seq<string> := ["mati_-_L", "mati_-"]
  const MATI_P: seq<string> := ["mati_-_P", "bumil_mati_-"]
  const PINDAH_L: seq<string> := ["pindah_-_L", "bumil_pindah_-"]
  const PINDAH_P: seq<string> := ["pindah_-_P", "pindah_-"]
  const MENOLAK_L: seq<string> := ["menolak_-_L", "bumil_menolak", "menolak_L"]
  const MENOLAK_P: seq<string> := ["menolak_-_P", "menolak_p", "menolak_P"]

  /** The record `processDataUCI` returns; `jk` is always zero. */
  datatype UciResult = UciResult(totalS: int, totalT: int, sasaranUci: int, jk: Jk)

  /** One entry of the internal `hasil` table: achieved (s) and loss (t) of a group. */
  datatype GroupTotals = GroupTotals(name: string, s: int, t: int)

  /**
   * `Number(d[k1]) || Number(d[k2]) || ... || 0`: the first spelling whose
   * value is a non-zero number; a zero, a missing field or a non-number
   * falls through to the next spelling.
   */
  function FirstNonzero(d: Record, keys: seq<string>): int {
    if |keys| == 0 then 0
    else if FieldNum(d, keys[0]) != 0 then FieldNum(d, keys[0])
    else FirstNonzero(d, keys[1..])
  }

  /** What one record adds to `sumT_Uci`: died + moved away + refused, each over both sexes. */
  function RecordLoss(d: Record): int {
    var mati := FirstNonzero(d, MATI_L) + FirstNonzero(d, MATI_P);
    var pindah := FirstNonzero(d, PINDAH_L) + FirstNonzero(d, PINDAH_P);
    var menolak := FirstNonzero(d, MENOLAK_L) + FirstNonzero(d, MENOLAK_P);
    mati + pindah + menolak
  }

  function ArrayLoss(arr: seq<Record>): int {
    if |arr| == 0 then 0 else ArrayLoss(arr[..|arr| - 1]) + RecordLoss(arr[|arr| - 1])
  }

  /** The loss of a group: every record of every slot array. */
  function GroupLoss(slots: seq<seq<Record>>): int {
    if |slots| == 0 then 0 else GroupLoss(slots[..|slots| - 1]) + ArrayLoss(slots[|slots| - 1])
  }

  /** The achieved count of a group: every listed dose field of every record of every slot array. */
  function GroupKeySum(slots: seq<seq<Record>>, keys: seq<string>): int {
    if |slots| == 0 then 0 else GroupKeySum(slots[..|slots| - 1], keys) + KeySum(slots[|slots| - 1], keys)
  }

  /** `sumS(obj, keys)`: 0 for a missing group. */
  method SumS(obj: Option<seq<seq<Record>>>, keys: seq<string>) returns (total: int)
    ensures obj.None? ==> total == 0
    ensures obj.Some? ==> total == GroupKeySum(obj.value, keys)
  {
    total := 0;
    if obj.None? { return; }
    var arrays := obj.value;
    var i := 0;
    while i < |arrays|
      invariant 0 <= i <= |arrays|
      invariant total == GroupKeySum(arrays[..i], keys)
    {
      var arr := arrays[i];
      var j := 0;
      while j < |arr|
        invariant 0 <= j <= |arr|
        invariant total == GroupKeySum(arrays[..i], keys) + KeySum(arr[..j], keys)
      {
        var d := arr[j];
        var k := 0;
        while k < |keys|
          invariant 0 <= k <= |keys|
          invariant total == GroupKeySum(arrays[..i], keys) + KeySum(arr[..j], keys) + RecordKeySum(d, keys[..k])
        {
          total := total + FieldNum(d, keys[k]);
          assert keys[..k + 1][..k] == keys[..k];
          k := k + 1;
        }
        assert keys[..k] == keys;
        assert arr[..j + 1][..j] == arr[..j];
        j := j + 1;
      }
      assert arr[..j] == arr;
      assert arrays[..i + 1][..i] == arrays[..i];
      i := i + 1;
    }
    assert arrays[..i] == arrays;
  }

  /** `sumT_Uci(obj)`: 0 for a missing group. */
  method SumTUci(obj: Option<seq<seq<Record>>>) returns (total: int)
    ensures obj.None? ==> total == 0
    ensures obj.Some? ==> total == GroupLoss(obj.value)
  {
    total := 0;
    if obj.None? { return; }
    var arrays := obj.value;
    var i := 0;
    while i < |arrays|
      invariant 0 <= i <= |arrays|
      invariant total == GroupLoss(arrays[..i])
    {
      var arr := arrays[i];
      var j := 0;
      while j < |arr|
        invariant 0 <= j <= |arr|
        invariant total == GroupLoss(arrays[..i]) + ArrayLoss(arr[..j])
      {
        var d := arr[j];
        var mati := FirstNonzero(d, MATI_L) + FirstNonzero(d, MATI_P);
        var pindah := FirstNonzero(d, PINDAH_L) + FirstNonzero(d, PINDAH_P);
        var menolak := FirstNonzero(d, MENOLAK_L) + FirstNonzero(d, MENOLAK_P);
        total := total + (mati + pindah + menolak);
        assert arr[..j + 1][..j] == arr[..j];
        j := j + 1;
      }
      assert arr[..j] == arr;
      assert arrays[..i + 1][..i] == arrays[..i];
      i := i + 1;
    }
    assert arrays[..i] == arrays;
  }

  // Live-birth targets per calendar year
  function U17(v: UciView): int {
    SumField(v.rv.t1, "bayi_lhr_hdp_2017_jml") + SumField(v.rotarix.t1, "bayi_lhr_hdp_2017_jml")
    + SumField(v.pcv.t1, "bayi_lhr_hdp_2017_jml") + SumField(v.je.t1, "bayi_lhr_hdp_2017_jml")
    + SumField(v.heksavalen.t1, "bayi_lhr_hdp_2017_jml") + SumField(v.booster.t1, "bayi_lhr_hdp_2017_jml")
  }
  function U22(v: UciView): int { SumField(v.booster.t2, "bayi_lhr_hdp_2022_jml") }
  function U23(v: UciView): int { SumField(v.booster.t3, "bayi_lhr_hdp_2023_jml") }
  function U24(v: UciView): int {
    SumField(v.hb0Bcg.t1, "bayi_lhr_hdp_2024_jml") + SumField(v.rv.t2, "bayi_lhr_hdp_2024_jml")
    + SumField(v.rotarix.t2, "bayi_lhr_hdp_2024_jml") + SumField(v.pcv.t2, "bayi_lhr_hdp_2024_jml")
    + SumField(v.je.t2, "bayi_lhr_hdp_2024_jml") + SumField(v.heksavalen.t2, "bayi_lhr_hdp_2024_jml")
    + SumField(v.tt.t1, "caten_2024")
  }
  function U25(v: UciView): int {
    SumField(v.hb0Bcg.t2, "bayi_lhr_hdp_2025_jml") + SumField(v.tt.t2, "caten_2025")
  }

  /** The `hasil` table: the eight groups with their achieved and loss counts, in the source's key order. */
  function Groups(v: UciView): seq<GroupTotals> {
    [ GroupTotals("rv", GroupKeySum(v.rv.Values(), RV_KEYS), GroupLoss(v.rv.Values())),
      GroupTotals("rotarix", GroupKeySum(v.rotarix.Values(), ROTARIX_KEYS), GroupLoss(v.rotarix.Values())),
      GroupTotals("pcv", GroupKeySum(v.pcv.Values(), PCV_KEYS), GroupLoss(v.pcv.Values())),
      GroupTotals("je", GroupKeySum(v.je.Values(), JE_KEYS), GroupLoss(v.je.Values())),
      GroupTotals("heksa", GroupKeySum(v.heksavalen.Values(), HEKSAVALEN_KEYS), GroupLoss(v.heksavalen.Values())),
      GroupTotals("booster", GroupKeySum(v.booster.Values(), LENGKAP_KEYS), GroupLoss(v.booster.Values())),
      GroupTotals("hb0_bcg", GroupKeySum(v.hb0Bcg.Values(), LENGKAP_KEYS), GroupLoss(v.hb0Bcg.Values())),
      GroupTotals("tt", GroupKeySum(v.tt.Values(), TT_KEYS), GroupLoss(v.tt.Values())) ]
  }

  /** `Object.values(hasil).reduce((a, b) => a + b.s, 0)` */
  function TotalOfS(gs: seq<GroupTotals>): int {
    if |gs| == 0 then 0 else TotalOfS(gs[..|gs| - 1]) + gs[|gs| - 1].s
  }

  /** `Object.values(hasil).reduce((a, b) => a + b.t, 0)` */
  function TotalOfT(gs: seq<GroupTotals>): int {
    if |gs| == 0 then 0 else TotalOfT(gs[..|gs| - 1]) + gs[|gs| - 1].t
  }

  /** The result `processDataUCI` promises, as a function of the view. */
  function UciOf(v: UciView): UciResult {
    var gs := Groups(v);
    UciResult(TotalOfS(gs), TotalOfT(gs), U17(v) + U22(v) + U23(v) + U24(v) + U25(v), Jk(0, 0))
  }

  method ProcessUci(v: UciView) returns (res: UciResult)
    ensures res == UciOf(v)
    ensures res.jk == Jk(0, 0)
  {
    var u17 := U17(v);
    var u22 := U22(v);
    var u23 := U23(v);
    var u24 := U24(v);
    var u25 := U25(v);

    var rvS := SumS(Some(v.rv.Values()), RV_KEYS);
    var rvT := SumTUci(Some(v.rv.Values()));
    var rotarixS := SumS(Some(v.rotarix.Values()), ROTARIX_KEYS);
    var rotarixT := SumTUci(Some(v.rotarix.Values()));
    var pcvS := SumS(Some(v.pcv.Values()), PCV_KEYS);
    var pcvT := SumTUci(Some(v.pcv.Values()));
    var jeS := SumS(Some(v.je.Values()), JE_KEYS);
    var jeT := SumTUci(Some(v.je.Values()));
    var heksaS := SumS(Some(v.heksavalen.Values()), HEKSAVALEN_KEYS);
    var heksaT := SumTUci(Some(v.heksavalen.Values()));
    var boosterS := SumS(Some(v.booster.Values()), LENGKAP_KEYS);
    var boosterT := SumTUci(Some(v.booster.Values()));
    var hb0S := SumS(Some(v.hb0Bcg.Values()), LENGKAP_KEYS);
    var hb0T := SumTUci(Some(v.hb0Bcg.Values()));
    var ttS := SumS(Some(v.tt.Values()), TT_KEYS);
    var ttT := SumTUci(Some(v.tt.Values()));

    var hasil := [
      GroupTotals("rv", rvS, rvT), GroupTotals("rotarix", rotarixS, rotarixT),
      GroupTotals("pcv", pcvS, pcvT), GroupTotals("je", jeS, jeT),
      GroupTotals("heksa", heksaS, heksaT), GroupTotals("booster", boosterS, boosterT),
      GroupTotals("hb0_bcg", hb0S, hb0T), GroupTotals("tt", ttS, ttT) ];
    assert hasil == Groups(v);
    res := UciResult(TotalOfS(hasil), TotalOfT(hasil), u17 + u22 + u23 + u24 + u25, Jk(0, 0));
  }

  // ---------------------------------------------------------------------
  // Properties of the loss fallback

  /** The first spelling with a non-zero value is the one counted; the spellings after it are ignored. */
  lemma {:induction false} FirstNonzeroPicksFirst(d: Record, keys: seq<string>, i: nat)
    requires i < |keys| && FieldNum(d, keys[i]) != 0
    requires forall j :: 0 <= j < i ==> FieldNum(d, keys[j]) == 0
    ensures FirstNonzero(d, keys) == FieldNum(d, keys[i])
  {
    if i > 0 {
      assert FieldNum(d, keys[0]) == 0;
      assert forall j :: 0 <= j < i - 1 ==> keys[1..][j] == keys[j + 1];
      FirstNonzeroPicksFirst(d, keys[1..], i - 1);
    }
  }

  /** When every spelling is zero, missing or not a number, the slot counts 0. */
  lemma {:induction false} FirstNonzeroNone(d: Record, keys: seq<string>)
    requires forall j :: 0 <= j < |keys| ==> FieldNum(d, keys[j]) == 0
    ensures FirstNonzero(d, keys) == 0
  {
    if |keys| > 0 {
      assert forall j :: 0 <= j < |keys| - 1 ==> keys[1..][j] == keys[j + 1];
      FirstNonzeroNone(d, keys[1..]);
    }
  }

  lemma {:induction false} RecordKeySumCons(d: Record, keys: seq<string>)
    requires |keys| > 0
    ensures RecordKeySum(d, keys) == FieldNum(d, keys[0]) + RecordKeySum(d, keys[1..])
  {
    if |keys| > 1 {
      RecordKeySumCons(d, keys[..|keys| - 1]);
      assert keys[..|keys| - 1][1..] == keys[1..][..|keys[1..]| - 1];
    } else {
      assert keys[1..] == [];
      assert keys[..0] == [];
    }
  }

  /**
   * Against `sumUciMultiKey`, which adds every spelling: with non-negative
   * fields the fallback never counts more, and counts the same when a record
   * carries at most one non-zero spelling of the slot.
   */
  lemma {:induction false} FirstNonzeroVersusAllSpellings(d: Record, keys: seq<string>)
    requires NonNegRecord(d)
    ensures FirstNonzero(d, keys) <= RecordKeySum(d, keys)
    ensures (forall i, j :: 0 <= i < j < |keys| ==> FieldNum(d, keys[i]) == 0 || FieldNum(d, keys[j]) == 0)
            ==> FirstNonzero(d, keys) == RecordKeySum(d, keys)
  {
    if |keys| > 0 {
      RecordKeySumCons(d, keys);
      FirstNonzeroVersusAllSpellings(d, keys[1..]);
      assert FieldNum(d, keys[0]) >= 0;
      RecordKeySumNonNeg(d, keys[1..]);
      if (forall i, j :: 0 <= i < j < |keys| ==> FieldNum(d, keys[i]) == 0 || FieldNum(d, keys[j]) == 0) {
        assert forall i, j :: 0 <= i < j < |keys[1..]| ==> keys[1..][i] == keys[i + 1] && keys[1..][j] == keys[j + 1];
        if FieldNum(d, keys[0]) != 0 {
          assert forall j :: 0 <= j < |keys[1..]| ==> FieldNum(d, keys[1..][j]) == 0 by {
            forall j | 0 <= j < |keys[1..]| ensures FieldNum(d, keys[1..][j]) == 0 {
              assert keys[1..][j] == keys[j + 1];
            }
          }
          RecordKeySumZero(d, keys[1..]);
        }
      }
    }
  }

  lemma {:induction false} RecordKeySumZero(d: Record, keys: seq<string>)
    requires forall j :: 0 <= j < |keys| ==> FieldNum(d, keys[j]) == 0
    ensures RecordKeySum(d, keys) == 0
  {
    if |keys| > 0 {
      RecordKeySumZero(d, keys[..|keys| - 1]);
    }
  }

  /** A record that carries none of a slot's spellings counts 0 in that slot. */
  lemma {:induction false} FirstNonzeroAbsent(d: Record, keys: seq<string>)
    requires forall j :: 0 <= j < |keys| ==> keys[j] !in d
    ensures FirstNonzero(d, keys) == 0
  {
    FirstNonzeroNone(d, keys);
  }

  /** A record holding nothing but one male-death field loses exactly that count, whichever of its two spellings it uses. */
  lemma LossOfSingleDeathField(key: string, a: int)
    requires key in MATI_L
    ensures RecordLoss(map[key := Num(a)]) == a
  {
    var r: Record := map[key := Num(a)];
    FirstNonzeroAbsent(r, MATI_P);
    FirstNonzeroAbsent(r, PINDAH_L);
    FirstNonzeroAbsent(r, PINDAH_P);
    FirstNonzeroAbsent(r, MENOLAK_L);
    FirstNonzeroAbsent(r, MENOLAK_P);
    if a == 0 {
      FirstNonzeroNone(r, MATI_L);
    } else if key == MATI_L[0] {
      FirstNonzeroPicksFirst(r, MATI_L, 0);
    } else {
      FirstNonzeroPicksFirst(r, MATI_L, 1);
    }
  }

  /** Two records of one group, in different year slots, spelling the male deaths differently: each is counted once. */
  lemma LossAcrossSpellings(a: int, b: int)
    ensures GroupLoss([[map["mati_-_L" := Num(a)]], [map["mati_-" := Num(b)]]]) == a + b
  {
    var r1: Record := map["mati_-_L" := Num(a)];
    var r2: Record := map["mati_-" := Num(b)];
    LossOfSingleDeathField("mati_-_L", a);
    LossOfSingleDeathField("mati_-", b);
    assert ArrayLoss([r1]) == a by { assert [r1][..0] == []; }
    assert ArrayLoss([r2]) == b by { assert [r2][..0] == []; }
    var g := [[r1], [r2]];
    assert GroupLoss([[r1]]) == a by { assert [[r1]][..0] == []; }
    assert g[..|g| - 1] == [[r1]] && g[|g| - 1] == [r2];
  }

  /** A record that carries both spellings of a slot is counted under the first only. */
  lemma LossNoDoubleCount(a: int, b: int)
    requires a != 0
    ensures RecordLoss(map["mati_-_L" := Num(a), "mati_-" := Num(b)]) == a
  {
    var r: Record := map["mati_-_L" := Num(a), "mati_-" := Num(b)];
    FirstNonzeroPicksFirst(r, MATI_L, 0);
    FirstNonzeroAbsent(r, MATI_P);
    FirstNonzeroAbsent(r, PINDAH_L);
    FirstNonzeroAbsent(r, PINDAH_P);
    FirstNonzeroAbsent(r, MENOLAK_L);
    FirstNonzeroAbsent(r, MENOLAK_P);
  }

  // ---------------------------------------------------------------------
  // Properties of the result

  lemma TotalsStep(gs: seq<GroupTotals>, k: nat)
    requires k < |gs|
    ensures TotalOfS(gs[..k + 1]) == TotalOfS(gs[..k]) + gs[k].s
    ensures TotalOfT(gs[..k + 1]) == TotalOfT(gs[..k]) + gs[k].t
  {
    assert gs[..k + 1][..k] == gs[..k];
  }

  lemma TotalsOfEight(gs: seq<GroupTotals>)
    requires |gs| == 8
    ensures TotalOfS(gs) == gs[0].s + gs[1].s + gs[2].s + gs[3].s + gs[4].s + gs[5].s + gs[6].s + gs[7].s
    ensures TotalOfT(gs) == gs[0].t + gs[1].t + gs[2].t + gs[3].t + gs[4].t + gs[5].t + gs[6].t + gs[7].t
  {
    assert gs[..0] == [];
    TotalsStep(gs, 0); TotalsStep(gs, 1); TotalsStep(gs, 2); TotalsStep(gs, 3);
    TotalsStep(gs, 4); TotalsStep(gs, 5); TotalsStep(gs, 6); TotalsStep(gs, 7);
    assert gs[..8] == gs;
  }

  lemma PairSums(p: Pair, keys: seq<string>)
    ensures GroupKeySum(p.Values(), keys) == KeySum(p.t1, keys) + KeySum(p.t2, keys)
    ensures GroupLoss(p.Values()) == ArrayLoss(p.t1) + ArrayLoss(p.t2)
  {
    var vs := p.Values();
    assert vs[..|vs| - 1] == [p.t1] && vs[|vs| - 1] == p.t2;
    assert [p.t1][..0] == [];
    assert GroupKeySum([p.t1], keys) == KeySum(p.t1, keys);
    assert GroupLoss([p.t1]) == ArrayLoss(p.t1);
  }

  lemma TripleSums(t: Triple, keys: seq<string>)
    ensures GroupKeySum(t.Values(), keys) == KeySum(t.t1, keys) + KeySum(t.t2, keys) + KeySum(t.t3, keys)
    ensures GroupLoss(t.Values()) == ArrayLoss(t.t1) + ArrayLoss(t.t2) + ArrayLoss(t.t3)
  {
    var vs := t.Values();
    assert vs[..|vs| - 1] == [t.t1, t.t2] && vs[|vs| - 1] == t.t3;
    PairSums(Pair(t.t1, t.t2), keys);
  }

  /** No records, nothing counted: an empty view (a category switched off) gives all zeros. */
  lemma UciOfEmpty()
    ensures UciOf(EMPTY_UCI) == UciResult(0, 0, 0, Jk(0, 0))
  {
    var v := EMPTY_UCI;
    TotalsOfEight(Groups(v));
    PairSums(v.rv, RV_KEYS); PairSums(v.rotarix, ROTARIX_KEYS); PairSums(v.pcv, PCV_KEYS);
    PairSums(v.je, JE_KEYS); PairSums(v.heksavalen, HEKSAVALEN_KEYS);
    TripleSums(v.booster, LENGKAP_KEYS); PairSums(v.hb0Bcg, LENGKAP_KEYS); PairSums(v.tt, TT_KEYS);
  }

  lemma {:induction false} ArrayLossAppend(a: seq<Record>, b: seq<Record>)
    ensures ArrayLoss(a + b) == ArrayLoss(a) + ArrayLoss(b)
  {
    if |b| == 0 {
      assert a + b == a;
    } else {
      assert (a + b)[..|a + b| - 1] == a + b[..|b| - 1];
      ArrayLossAppend(a, b[..|b| - 1]);
    }
  }

  lemma {:induction false} ArrayLossNonNeg(arr: seq<Record>)
    requires NonNegRecords(arr)
    ensures ArrayLoss(arr) >= 0
  {
    if |arr| > 0 {
      var d := arr[|arr| - 1];
      assert NonNegRecord(d);
      FirstNonzeroVersusAllSpellings(d, MATI_L); FirstNonzeroVersusAllSpellings(d, MATI_P);
      FirstNonzeroVersusAllSpellings(d, PINDAH_L); FirstNonzeroVersusAllSpellings(d, PINDAH_P);
      FirstNonzeroVersusAllSpellings(d, MENOLAK_L); FirstNonzeroVersusAllSpellings(d, MENOLAK_P);
      FirstNonzeroNonNeg(d, MATI_L); FirstNonzeroNonNeg(d, MATI_P);
      FirstNonzeroNonNeg(d, PINDAH_L); FirstNonzeroNonNeg(d, PINDAH_P);
      FirstNonzeroNonNeg(d, MENOLAK_L); FirstNonzeroNonNeg(d, MENOLAK_P);
      ArrayLossNonNeg(arr[..|arr| - 1]);
    }
  }

  lemma {:induction false} FirstNonzeroNonNeg(d: Record, keys: seq<string>)
    requires NonNegRecord(d)
    ensures FirstNonzero(d, keys) >= 0
  {
    if |keys| > 0 {
      assert FieldNum(d, keys[0]) >= 0;
      FirstNonzeroNonNeg(d, keys[1..]);
    }
  }

  // ---------------------------------------------------------------------
  // Additivity: the result over two disjoint sets of records is the sum of the results

  function AppendPair(p: Pair, q: Pair): Pair { Pair(p.t1 + q.t1, p.t2 + q.t2) }

  function AppendTriple(p: Triple, q: Triple): Triple { Triple(p.t1 + q.t1, p.t2 + q.t2, p.t3 + q.t3) }

  /** Slot-by-slot concatenation of two views. */
  function AppendUci(a: UciView, b: UciView): UciView {
    UciView(AppendPair(a.rv, b.rv), AppendPair(a.rotarix, b.rotarix), AppendPair(a.pcv, b.pcv),
            AppendPair(a.je, b.je), AppendPair(a.heksavalen, b.heksavalen),
            AppendTriple(a.booster, b.booster), AppendPair(a.hb0Bcg, b.hb0Bcg), AppendPair(a.tt, b.tt))
  }

  lemma PairAdditive(p: Pair, q: Pair, keys: seq<string>)
    ensures GroupKeySum(AppendPair(p, q).Values(), keys) == GroupKeySum(p.Values(), keys) + GroupKeySum(q.Values(), keys)
    ensures GroupLoss(AppendPair(p, q).Values()) == GroupLoss(p.Values()) + GroupLoss(q.Values())
  {
    PairSums(p, keys); PairSums(q, keys); PairSums(AppendPair(p, q), keys);
    KeySumAppend(p.t1, q.t1, keys); KeySumAppend(p.t2, q.t2, keys);
    ArrayLossAppend(p.t1, q.t1); ArrayLossAppend(p.t2, q.t2);
  }

  lemma TripleAdditive(p: Triple, q: Triple, keys: seq<string>)
    ensures GroupKeySum(AppendTriple(p, q).Values(), keys) == GroupKeySum(p.Values(), keys) + GroupKeySum(q.Values(), keys)
    ensures GroupLoss(AppendTriple(p, q).Values()) == GroupLoss(p.Values()) + GroupLoss(q.Values())
  {
    TripleSums(p, keys); TripleSums(q, keys); TripleSums(AppendTriple(p, q), keys);
    KeySumAppend(p.t1, q.t1, keys); KeySumAppend(p.t2, q.t2, keys); KeySumAppend(p.t3, q.t3, keys);
    ArrayLossAppend(p.t1, q.t1); ArrayLossAppend(p.t2, q.t2); ArrayLossAppend(p.t3, q.t3);
  }

  lemma EarlyGroupsAdditive(a: UciView, b: UciView)
    ensures var ga, gb, gab := Groups(a), Groups(b), Groups(AppendUci(a, b));
            && gab[0].s == ga[0].s + gb[0].s && gab[0].t == ga[0].t + gb[0].t
            && gab[1].s == ga[1].s + gb[1].s && gab[1].t == ga[1].t + gb[1].t
            && gab[2].s == ga[2].s + gb[2].s && gab[2].t == ga[2].t + gb[2].t
            && gab[3].s == ga[3].s + gb[3].s && gab[3].t == ga[3].t + gb[3].t
  {
    PairAdditive(a.rv, b.rv, RV_KEYS);
    PairAdditive(a.rotarix, b.rotarix, ROTARIX_KEYS);
    PairAdditive(a.pcv, b.pcv, PCV_KEYS);
    PairAdditive(a.je, b.je, JE_KEYS);
  }

  lemma LateGroupsAdditive(a: UciView, b: UciView)
    ensures var ga, gb, gab := Groups(a), Groups(b), Groups(AppendUci(a, b));
            && gab[4].s == ga[4].s + gb[4].s && gab[4].t == ga[4].t + gb[4].t
            && gab[5].s == ga[5].s + gb[5].s && gab[5].t == ga[5].t + gb[5].t
            && gab[6].s == ga[6].s + gb[6].s && gab[6].t == ga[6].t + gb[6].t
            && gab[7].s == ga[7].s + gb[7].s && gab[7].t == ga[7].t + gb[7].t
  {
    PairAdditive(a.heksavalen, b.heksavalen, HEKSAVALEN_KEYS);
    TripleAdditive(a.booster, b.booster, LENGKAP_KEYS);
    PairAdditive(a.hb0Bcg, b.hb0Bcg, LENGKAP_KEYS);
    PairAdditive(a.tt, b.tt, TT_KEYS);
  }

  lemma EarlyTargetsAdditive(a: UciView, b: UciView)
    ensures var ab := AppendUci(a, b);
            U17(ab) == U17(a) + U17(b) && U22(ab) == U22(a) + U22(b) && U23(ab) == U23(a) + U23(b)
  {
    var k := "bayi_lhr_hdp_2017_jml";
    SumFieldAppend(a.rv.t1, b.rv.t1, k); SumFieldAppend(a.rotarix.t1, b.rotarix.t1, k);
    SumFieldAppend(a.pcv.t1, b.pcv.t1, k); SumFieldAppend(a.je.t1, b.je.t1, k);
    SumFieldAppend(a.heksavalen.t1, b.heksavalen.t1, k); SumFieldAppend(a.booster.t1, b.booster.t1, k);
    SumFieldAppend(a.booster.t2, b.booster.t2, "bayi_lhr_hdp_2022_jml");
    SumFieldAppend(a.booster.t3, b.booster.t3, "bayi_lhr_hdp_2023_jml");
  }

  lemma LateTargetsAdditive(a: UciView, b: UciView)
    ensures var ab := AppendUci(a, b);
            U24(ab) == U24(a) + U24(b) && U25(ab) == U25(a) + U25(b)
  {
    var k := "bayi_lhr_hdp_2024_jml";
    SumFieldAppend(a.hb0Bcg.t1, b.hb0Bcg.t1, k); SumFieldAppend(a.rv.t2, b.rv.t2, k);
    SumFieldAppend(a.rotarix.t2, b.rotarix.t2, k); SumFieldAppend(a.pcv.t2, b.pcv.t2, k);
    SumFieldAppend(a.je.t2, b.je.t2, k); SumFieldAppend(a.heksavalen.t2, b.heksavalen.t2, k);
    SumFieldAppend(a.tt.t1, b.tt.t1, "caten_2024");
    SumFieldAppend(a.hb0Bcg.t2, b.hb0Bcg.t2, "bayi_lhr_hdp_2025_jml");
    SumFieldAppend(a.tt.t2, b.tt.t2, "caten_2025");
  }

  /** Splitting the records of every slot into two parts splits every figure of the result. */
  lemma UciOfAdditive(a: UciView, b: UciView)
    ensures var ra, rb, rab := UciOf(a), UciOf(b), UciOf(AppendUci(a, b));
            && rab.totalS == ra.totalS + rb.totalS
            && rab.totalT == ra.totalT + rb.totalT
            && rab.sasaranUci == ra.sasaranUci + rb.sasaranUci
            && rab.jk == Jk(0, 0)
  {
    var ab := AppendUci(a, b);
    EarlyGroupsAdditive(a, b);
    LateGroupsAdditive(a, b);
    TotalsOfEight(Groups(a)); TotalsOfEight(Groups(b)); TotalsOfEight(Groups(ab));
    EarlyTargetsAdditive(a, b);
    LateTargetsAdditive(a, b);
  }

  // ---------------------------------------------------------------------
  // Non-negativity

  ghost predicate NonNegPair(p: Pair) { NonNegRecords(p.t1) && NonNegRecords(p.t2) }

  ghost predicate NonNegView(v: UciView) {
    NonNegPair(v.rv) && NonNegPair(v.rotarix) && NonNegPair(v.pcv) && NonNegPair(v.je) && NonNegPair(v.heksavalen)
    && NonNegRecords(v.booster.t1) && NonNegRecords(v.booster.t2) && NonNegRecords(v.booster.t3)
    && NonNegPair(v.hb0Bcg) && NonNegPair(v.tt)
  }

  lemma PairNonNeg(p: Pair, keys: seq<string>)
    requires NonNegPair(p)
    ensures GroupKeySum(p.Values(), keys) >= 0 && GroupLoss(p.Values()) >= 0
  {
    PairSums(p, keys);
    KeySumNonNeg(p.t1, keys); KeySumNonNeg(p.t2, keys);
    ArrayLossNonNeg(p.t1); ArrayLossNonNeg(p.t2);
  }

  lemma TargetsNonNeg(v: UciView)
    requires NonNegView(v)
    ensures U17(v) >= 0 && U22(v) >= 0 && U23(v) >= 0 && U24(v) >= 0 && U25(v) >= 0
  {
    var k := "bayi_lhr_hdp_2017_jml";
    SumFieldNonNeg(v.rv.t1, k); SumFieldNonNeg(v.rotarix.t1, k); SumFieldNonNeg(v.pcv.t1, k);
    SumFieldNonNeg(v.je.t1, k); SumFieldNonNeg(v.heksavalen.t1, k); SumFieldNonNeg(v.booster.t1, k);
    SumFieldNonNeg(v.booster.t2, "bayi_lhr_hdp_2022_jml");
    SumFieldNonNeg(v.booster.t3, "bayi_lhr_hdp_2023_jml");
    var m := "bayi_lhr_hdp_2024_jml";
    SumFieldNonNeg(v.hb0Bcg.t1, m); SumFieldNonNeg(v.rv.t2, m); SumFieldNonNeg(v.rotarix.t2, m);
    SumFieldNonNeg(v.pcv.t2, m); SumFieldNonNeg(v.je.t2, m); SumFieldNonNeg(v.heksavalen.t2, m);
    SumFieldNonNeg(v.tt.t1, "caten_2024");
    SumFieldNonNeg(v.hb0Bcg.t2, "bayi_lhr_hdp_2025_jml");
    SumFieldNonNeg(v.tt.t2, "caten_2025");
  }

  /** Non-negative fields give non-negative achieved, loss and target figures. */
  lemma UciOfNonNeg(v: UciView)
    requires NonNegView(v)
    ensures var r := UciOf(v); r.totalS >= 0 && r.totalT >= 0 && r.sasaranUci >= 0
  {
    PairNonNeg(v.rv, RV_KEYS); PairNonNeg(v.rotarix, ROTARIX_KEYS); PairNonNeg(v.pcv, PCV_KEYS);
    PairNonNeg(v.je, JE_KEYS); PairNonNeg(v.heksavalen, HEKSAVALEN_KEYS);
    PairNonNeg(v.hb0Bcg, LENGKAP_KEYS); PairNonNeg(v.tt, TT_KEYS);
    TripleSums(v.booster, LENGKAP_KEYS);
    KeySumNonNeg(v.booster.t1, LENGKAP_KEYS); KeySumNonNeg(v.booster.t2, LENGKAP_KEYS); KeySumNonNeg(v.booster.t3, LENGKAP_KEYS);
    ArrayLossNonNeg(v.booster.t1); ArrayLossNonNeg(v.booster.t2); ArrayLossNonNeg(v.booster.t3);
    TotalsOfEight(Groups(v));
    TargetsNonNeg(v);
  }
}
