/**
 * The combined header figures of the filter-change handler: achieved,
 * absent and target counts of BIAS and UCI added together, the combined
 * percentage, and the combined counts by sex handed to the sex chart.
 */
module Composite {
  import opened Views
  import opened BiasAggregator
  import opened UciAggregator

  /** A JavaScript number produced by a division: finite, or +Infinity for a positive count divided by zero. */
  datatype Ratio = Finite(value: real) | PosInfinity

  /**
   * The combined percentage exactly as the handler computes it: the target
   * divided by the achieved count, times 100, when the target is positive;
   * 0 otherwise. A positive target over an achieved count of 0 is +Infinity.
   */
  function CompositePercent(sasaran: int, achieved: int): (r: Ratio)
    ensures sasaran <= 0 ==> r == Finite(0.0)
    ensures r.PosInfinity? <==> sasaran > 0 && achieved == 0
  {
    if sasaran > 0 then
      if achieved == 0 then PosInfinity else Finite(sasaran as real / achieved as real * 100.0)
    else Finite(0.0)
  }

  /**
   * The percentage the handler sets out to compute: achieved over target,
   * times 100, guarded against a target that is not positive.
   */
  function CoveragePercent(achieved: int, sasaran: int): (r: real)
    ensures sasaran <= 0 ==> r == 0.0
    ensures sasaran > 0 && 0 <= achieved <= sasaran ==> 0.0 <= r <= 100.0
    ensures sasaran > 0 && achieved == sasaran ==> r == 100.0
    ensures sasaran > 0 && achieved == 0 ==> r == 0.0
  {
    if sasaran > 0 then achieved as real / sasaran as real * 100.0 else 0.0
  }

  /** The combined figures of the header cards and the sex chart. */
  datatype Totals = Totals(totalS: int, totalT: int, sasaran: int, jk: Jk) {
    /** The percentage card as the handler writes it: the target over the achieved count. */
    function PercentCard(): (r: Ratio)
      ensures r.PosInfinity? <==> sasaran > 0 && totalS == 0
      ensures sasaran <= 0 ==> r == Finite(0.0)
    {
      CompositePercent(sasaran, totalS)
    }

    /** The percentage the comment on the card's formula asks for: achieved over target. */
    function IntendedPercent(): real {
      CoveragePercent(totalS, sasaran)
    }
  }

  function Combine(b: BiasResult, u: UciResult): Totals {
    Totals(b.totalS + u.totalS, b.totalT + u.totalT, b.sasaranBias + u.sasaranUci, Jk(b.jk.l + u.jk.l, b.jk.p + u.jk.p))
  }

  // ---------------------------------------------------------------------
  // Properties

  /** The combined card divides the two sides' targets added up by their achieved counts added up. */
  lemma CombinedPercentCard(b: BiasResult, u: UciResult)
    ensures Combine(b, u).PercentCard() == CompositePercent(b.sasaranBias + u.sasaranUci, b.totalS + u.totalS)
  {
  }

  /** The UCI side contributes nothing by sex, so the sex chart shows the BIAS counts. */
  lemma CombinedJkIsBiasJk(b: BiasResult, v: UciView)
    ensures Combine(b, UciOf(v)).jk == b.jk
  {
  }

  /** With the UCI side switched off the combined cards show the BIAS figures. */
  lemma CombineBiasOnly(b: BiasResult)
    ensures var t := Combine(b, UciOf(EMPTY_UCI));
            t.totalS == b.totalS && t.totalT == b.totalT && t.sasaran == b.sasaranBias && t.jk == b.jk
  {
    UciOfEmpty();
  }

  /** With the BIAS side switched off the combined cards show the UCI figures. */
  lemma CombineUciOnly(u: UciResult)
    ensures var t := Combine(ProcessBias(EMPTY_BIAS), u);
            t.totalS == u.totalS && t.totalT == u.totalT && t.sasaran == u.sasaranUci && t.jk == u.jk
  {
    ProcessBiasEmpty();
    CombineZeroBias(ProcessBias(EMPTY_BIAS), u);
  }

  lemma CombineZeroBias(b: BiasResult, u: UciResult)
    requires b == BiasResult(0, 0, 0, [0, 0, 0, 0, 0], Jk(0, 0))
    ensures var t := Combine(b, u);
            t.totalS == u.totalS && t.totalT == u.totalT && t.sasaran == u.sasaranUci && t.jk == u.jk
  {
  }

  /** The corrected percentage grows with the achieved count. */
  lemma CoverageMonotone(a1: int, a2: int, sasaran: int)
    requires a1 <= a2
    ensures CoveragePercent(a1, sasaran) <= CoveragePercent(a2, sasaran)
  {
    if sasaran > 0 {
      var d := sasaran as real;
      assert a1 as real / d <= a2 as real / d;
    }
  }

  /** Where both are finite and positive the formula as written is the reciprocal of the intended one, scaled by 100 squared. */
  lemma CompositeIsReciprocal(sasaran: int, achieved: int)
    requires sasaran > 0 && achieved > 0
    ensures CompositePercent(sasaran, achieved).Finite?
    ensures CompositePercent(sasaran, achieved).value * CoveragePercent(achieved, sasaran) == 10000.0
  {
    var s, a := sasaran as real, achieved as real;
    assert (s / a) * (a / s) == 1.0;
    calc {
      (s / a * 100.0) * (a / s * 100.0);
      ((s / a) * (a / s)) * 10000.0;
      10000.0;
    }
  }

  /** Where the card is finite and positive it is the reciprocal of the intended percentage, scaled by 100 squared. */
  lemma CardVersusIntended(t: Totals)
    requires t.sasaran > 0 && t.totalS > 0
    ensures t.PercentCard().Finite?
    ensures t.PercentCard().value * t.IntendedPercent() == 10000.0
  {
    CompositeIsReciprocal(t.sasaran, t.totalS);
  }

  /** Half the target reached: the card shows 200 %, where 50 % is meant. */
  lemma CompositePercentInverted()
    ensures CompositePercent(200, 100) == Finite(200.0)
    ensures CoveragePercent(100, 200) == 50.0
  {
  }

  /** A positive target with nothing achieved divides by zero. */
  lemma CompositePercentDividesByZero()
    ensures CompositePercent(10, 0) == PosInfinity
    ensures CoveragePercent(0, 10) == 0.0
  {
  }
}
