/**
 * The UCI sex chart: every slot array of the filtered UCI view is joined
 * into one array (`allUciData`), and each bar adds every spelling of its
 * field with `sumUciMultiKey`, unlike the loss card, which takes only the
 * first non-zero spelling. The lemmas here reconcile the two.
 */
module GenderChart {
  import opened JsValues
  import opened Views
  import opened UciAggregator

  /** Bars for boys: incoming, died, moved away, refused. */
  const GENDER_L: seq<seq<string>> := [
    ["pdtng_+_L", "pendatang_L"], ["mati_-_L", "mati_-"], ["pindah_-_L", "bumil_pindah_-"], ["menolak_-_L", "menolak_L"]]

  /** Bars for girls: incoming, died, moved away, refused. */
  const GENDER_P: seq<seq<string>> := [
    ["pdtng_+_P", "pendatang_+"], ["mati_-_P", "bumil_mati_-"], ["pindah_-_P", "pindah_-"],
    ["menolak_-_P", "menolak_p", "menolak_P", "bumil_menolak"]]

  /** Arrays joined in order, as the spread `[...a, ...b, ...]` does. */
  function Concat(ss: seq<seq<Record>>): seq<Record> {
    if |ss| == 0 then [] else Concat(ss[..|ss| - 1]) + ss[|ss| - 1]
  }

  /** Every slot of the view, in the order of `allUciData`. */
  function AllSlots(v: UciView): seq<seq<Record>> {
    v.rv.Values() + v.rotarix.Values() + v.pcv.Values() + v.je.Values() + v.heksavalen.Values()
    + v.booster.Values() + v.hb0Bcg.Values() + v.tt.Values()
  }

  function AllUciData(v: UciView): seq<Record> { Concat(AllSlots(v)) }

  /** Each listed spelling summed over the whole array on its own, then added up. */
  function SpellingSum(arr: seq<Record>, keys: seq<string>): int {
    if |keys| == 0 then 0 else SpellingSum(arr, keys[..|keys| - 1]) + SumField(arr, keys[|keys| - 1])
  }

  /**
   * The four bars of one sex over an array, one `sumUciMultiKey` per bar: bar
   * i is the total of every spelling of slot i, each spelling summed over
   * the whole array.
   */
  function Bars(arr: seq<Record>, lists: seq<seq<string>>): (r: seq<int>)
    ensures |r| == |lists|
    ensures forall i :: 0 <= i < |lists| ==> r[i] == SpellingSum(arr, lists[i])
  {
    BarsBySpelling(arr, lists);
    seq(|lists|, i requires 0 <= i < |lists| => KeySum(arr, lists[i]))
  }

  /** The sex chart: the boys' and the girls' bars, in the order incoming, died, moved away, refused. */
  datatype GenderBars = GenderBars(laki: seq<int>, perempuan: seq<int>) {
    /** The died, moved-away and refused bars of both sexes added up. */
    function Lost(): int
      requires |laki| == 4 && |perempuan| == 4
    {
      laki[1] + laki[2] + laki[3] + perempuan[1] + perempuan[2] + perempuan[3]
    }
  }

  /** `updateUciGenderChart(filteredUci)`: both sexes' bars over `allUciData`. */
  function GenderChartOf(v: UciView): (r: GenderBars)
    ensures |r.laki| == 4 && |r.perempuan| == 4
    ensures r.Lost() == ChartLoss(AllUciData(v))
  {
    ChartLossIsBars(AllUciData(v));
    GenderBars(Bars(AllUciData(v), GENDER_L), Bars(AllUciData(v), GENDER_P))
  }

  /** The died, moved-away and refused bars of both sexes, record by record. */
  function ChartLoss(arr: seq<Record>): int {
    KeySum(arr, GENDER_L[1]) + KeySum(arr, GENDER_L[2]) + KeySum(arr, GENDER_L[3])
    + KeySum(arr, GENDER_P[1]) + KeySum(arr, GENDER_P[2]) + KeySum(arr, GENDER_P[3])
  }

  /** One record's share of `ChartLoss`. */
  function RecordChartLoss(d: Record): int {
    RecordKeySum(d, GENDER_L[1]) + RecordKeySum(d, GENDER_L[2]) + RecordKeySum(d, GENDER_L[3])
    + RecordKeySum(d, GENDER_P[1]) + RecordKeySum(d, GENDER_P[2]) + RecordKeySum(d, GENDER_P[3])
  }

  /** At most one spelling of the slot carries a non-zero number. */
  predicate OneSpelling(d: Record, keys: seq<string>) {
    forall i, j :: 0 <= i < j < |keys| ==> FieldNum(d, keys[i]) == 0 || FieldNum(d, keys[j]) == 0
  }

  /** No loss slot of the record is filled under two spellings. */
  predicate SingleSpellings(d: Record) {
    OneSpelling(d, MATI_L) && OneSpelling(d, MATI_P) && OneSpelling(d, PINDAH_L)
    && OneSpelling(d, PINDAH_P) && OneSpelling(d, MENOLAK_L) && OneSpelling(d, MENOLAK_P)
  }

  // ---------------------------------------------------------------------
  // Properties

  lemma {:induction false} ConcatLoss(ss: seq<seq<Record>>)
    ensures ArrayLoss(Concat(ss)) == GroupLoss(ss)
  {
    if |ss| > 0 {
      ConcatLoss(ss[..|ss| - 1]);
      ArrayLossAppend(Concat(ss[..|ss| - 1]), ss[|ss| - 1]);
    }
  }

  lemma {:induction false} GroupLossAppend(a: seq<seq<Record>>, b: seq<seq<Record>>)
    ensures GroupLoss(a + b) == GroupLoss(a) + GroupLoss(b)
  {
    if |b| == 0 {
      assert a + b == a;
    } else {
      assert (a + b)[..|a + b| - 1] == a + b[..|b| - 1];
      GroupLossAppend(a, b[..|b| - 1]);
    }
  }

  /** The loss card is the first-spelling loss of every record of `allUciData`. */
  lemma CardLossIsAllData(v: UciView)
    ensures UciOf(v).totalT == ArrayLoss(AllUciData(v))
  {
    ConcatLoss(AllSlots(v));
    var s1 := v.rv.Values() + v.rotarix.Values();
    var s2 := s1 + v.pcv.Values();
    var s3 := s2 + v.je.Values();
    var s4 := s3 + v.heksavalen.Values();
    var s5 := s4 + v.booster.Values();
    var s6 := s5 + v.hb0Bcg.Values();
    GroupLossAppend(v.rv.Values(), v.rotarix.Values());
    GroupLossAppend(s1, v.pcv.Values());
    GroupLossAppend(s2, v.je.Values());
    GroupLossAppend(s3, v.heksavalen.Values());
    GroupLossAppend(s4, v.booster.Values());
    GroupLossAppend(s5, v.hb0Bcg.Values());
    GroupLossAppend(s6, v.tt.Values());
    TotalsOfEight(Groups(v));
  }

  lemma {:induction false} KeySumNoKeys(arr: seq<Record>)
    ensures KeySum(arr, []) == 0
  {
    if |arr| > 0 {
      KeySumNoKeys(arr[..|arr| - 1]);
    }
  }

  /** `sumUciMultiKey` adds record by record; the result is the sum of each spelling on its own. */
  lemma {:induction false} KeySumIsSpellingSum(arr: seq<Record>, keys: seq<string>)
    ensures KeySum(arr, keys) == SpellingSum(arr, keys)
  {
    if |keys| == 0 {
      KeySumNoKeys(arr);
    } else {
      KeySumByField(arr, keys);
      KeySumIsSpellingSum(arr, keys[..|keys| - 1]);
    }
  }

  lemma BarsBySpelling(arr: seq<Record>, lists: seq<seq<string>>)
    ensures forall i :: 0 <= i < |lists| ==> KeySum(arr, lists[i]) == SpellingSum(arr, lists[i])
  {
    forall i | 0 <= i < |lists| {
      KeySumIsSpellingSum(arr, lists[i]);
    }
  }

  lemma ChartLossIsBars(arr: seq<Record>)
    ensures var l, p := Bars(arr, GENDER_L), Bars(arr, GENDER_P);
            ChartLoss(arr) == l[1] + l[2] + l[3] + p[1] + p[2] + p[3]
  {
    BarsBySpelling(arr, GENDER_L);
    BarsBySpelling(arr, GENDER_P);
  }

  lemma RecordKeySum2(d: Record, a: string, b: string)
    ensures RecordKeySum(d, [a, b]) == FieldNum(d, a) + FieldNum(d, b)
  {
    assert [a][..0] == [];
    assert RecordKeySum(d, [a]) == FieldNum(d, a);
    assert [a, b][..1] == [a];
  }

  lemma RecordKeySum3(d: Record, a: string, b: string, c: string)
    ensures RecordKeySum(d, [a, b, c]) == FieldNum(d, a) + FieldNum(d, b) + FieldNum(d, c)
  {
    assert [a, b, c][..2] == [a, b];
    RecordKeySum2(d, a, b);
  }

  lemma RecordKeySum4(d: Record, a: string, b: string, c: string, e: string)
    ensures RecordKeySum(d, [a, b, c, e]) == FieldNum(d, a) + FieldNum(d, b) + FieldNum(d, c) + FieldNum(d, e)
  {
    assert [a, b, c, e][..3] == [a, b, c];
    RecordKeySum3(d, a, b, c);
  }

  /** The refused bars put `bumil_menolak` on the girls' side, the card on the boys' side: their sum is the same. */
  lemma RefusedRegrouped(d: Record)
    ensures RecordKeySum(d, GENDER_L[3]) + RecordKeySum(d, GENDER_P[3])
         == RecordKeySum(d, MENOLAK_L) + RecordKeySum(d, MENOLAK_P)
  {
    RecordKeySum2(d, "menolak_-_L", "menolak_L");
    RecordKeySum4(d, "menolak_-_P", "menolak_p", "menolak_P", "bumil_menolak");
    RecordKeySum3(d, "menolak_-_L", "bumil_menolak", "menolak_L");
    RecordKeySum3(d, "menolak_-_P", "menolak_p", "menolak_P");
  }

  /**
   * Per record, with non-negative fields: the card's loss never exceeds the
   * chart's, and the two agree when no slot is filled under two spellings.
   */
  lemma RecordLossVersusChart(d: Record)
    requires NonNegRecord(d)
    ensures RecordLoss(d) <= RecordChartLoss(d)
    ensures SingleSpellings(d) ==> RecordLoss(d) == RecordChartLoss(d)
  {
    RefusedRegrouped(d);
    FirstNonzeroVersusAllSpellings(d, MATI_L);
    FirstNonzeroVersusAllSpellings(d, MATI_P);
    FirstNonzeroVersusAllSpellings(d, PINDAH_L);
    FirstNonzeroVersusAllSpellings(d, PINDAH_P);
    FirstNonzeroVersusAllSpellings(d, MENOLAK_L);
    FirstNonzeroVersusAllSpellings(d, MENOLAK_P);
  }

  lemma {:induction false} ArrayLossVersusChart(arr: seq<Record>)
    requires NonNegRecords(arr)
    ensures ArrayLoss(arr) <= ChartLoss(arr)
    ensures (forall i :: 0 <= i < |arr| ==> SingleSpellings(arr[i])) ==> ArrayLoss(arr) == ChartLoss(arr)
  {
    if |arr| > 0 {
      var d := arr[|arr| - 1];
      var init := arr[..|arr| - 1];
      assert NonNegRecord(d);
      assert NonNegRecords(init);
      ArrayLossVersusChart(init);
      RecordLossVersusChart(d);
      assert ChartLoss(arr) == ChartLoss(init) + RecordChartLoss(d);
      if forall i :: 0 <= i < |arr| ==> SingleSpellings(arr[i]) {
        assert forall i :: 0 <= i < |init| ==> init[i] == arr[i];
      }
    }
  }

  /**
   * The UCI loss card and the sex chart, over the same filtered view: with
   * non-negative fields the card never shows more than the chart's died,
   * moved-away and refused bars together, and shows the same when no record
   * fills a slot under two spellings.
   */
  lemma CardVersusChart(v: UciView)
    requires NonNegRecords(AllUciData(v))
    ensures UciOf(v).totalT <= GenderChartOf(v).Lost()
    ensures (forall i :: 0 <= i < |AllUciData(v)| ==> SingleSpellings(AllUciData(v)[i]))
            ==> UciOf(v).totalT == GenderChartOf(v).Lost()
  {
    CardLossIsAllData(v);
    ArrayLossVersusChart(AllUciData(v));
  }

  /** A record filling the male-death slot under both spellings: the chart counts both, the card the first. */
  lemma ChartCountsBothSpellings(a: int, b: int)
    requires a > 0 && b > 0
    ensures var d: Record := map["mati_-_L" := Num(a), "mati_-" := Num(b)];
            Bars([d], GENDER_L)[1] == a + b && RecordLoss(d) == a
  {
    var d: Record := map["mati_-_L" := Num(a), "mati_-" := Num(b)];
    LossNoDoubleCount(a, b);
    RecordKeySum2(d, "mati_-_L", "mati_-");
    assert GENDER_L[1] == ["mati_-_L", "mati_-"];
    assert [d][..0] == [];
    assert KeySum([d], GENDER_L[1]) == RecordKeySum(d, GENDER_L[1]);
  }
}
