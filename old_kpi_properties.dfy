/** Properties of the dictionary `calculate_kpis` builds in the old SCAT
    calculator (module `OldKpiCalculator`): which counters each entry is
    computed from, and the ranges of its rates and averages. */
module OldKpiProperties {
  import opened Counters
  import opened OldKpiCalculator
  import Rates

  /** A rate entry divides its successes by its attempts, `max` form. */
  lemma RateEntry(c: Calc, k: Kpi)
    requires !IsAverage(k)
    ensures Kpis(c)[k] == Rates.Rate(Successes(c, k), Attempts(c, k))
  {
    KpiEntry(c, k);
  }

  /** An average entry averages its samples. */
  lemma AverageEntry(c: Calc, k: Kpi)
    requires IsAverage(k)
    ensures Kpis(c)[k] == Rates.Average(Samples(c, k))
  {
    KpiEntry(c, k);
  }

  /** Each rate is `succ / max(att, 1) * 100`: with no attempts it is a
      hundred times the success count, so 0 only without successes. */
  lemma KpiWithoutAttempts(c: Calc)
    requires Get(c.counts, LteRrcRequest) == 0
    ensures Kpis(c)[LteRrcSuccessRate] == Get(c.counts, LteRrcSetupComplete) as real * 100.0
    ensures Kpis(c)[LteRrcSuccessRate] == 0.0 <==> Get(c.counts, LteRrcSetupComplete) == 0
  {
    assert Successes(c, LteRrcSuccessRate) == Get(c.counts, LteRrcSetupComplete);
    assert Attempts(c, LteRrcSuccessRate) == 0;
    RateEntry(c, LteRrcSuccessRate);
    Rates.RateTimesDen(Get(c.counts, LteRrcSetupComplete), 0);
  }

  /** The call drop rate divides disconnects by connects, not setups. */
  lemma CallDropOverConnects(c: Calc)
    ensures Kpis(c)[LteCallDropRate] == Rates.Rate(Get(c.counts, LteCallDisconnect), Get(c.counts, LteCallConnect))
  {
    assert Successes(c, LteCallDropRate) == Get(c.counts, LteCallDisconnect);
    assert Attempts(c, LteCallDropRate) == Get(c.counts, LteCallConnect);
    RateEntry(c, LteCallDropRate);
  }

  /** The abnormal release rate divides abnormal releases by all releases,
      so it is always a percentage. */
  lemma AbnormalReleaseRateBounded(c: Calc)
    ensures 0.0 <= Kpis(c)[LteRrcAbnormalReleaseRate] <= 100.0
  {
    assert Successes(c, LteRrcAbnormalReleaseRate) <= Attempts(c, LteRrcAbnormalReleaseRate);
    RateEntry(c, LteRrcAbnormalReleaseRate);
    Rates.RateBounds(Successes(c, LteRrcAbnormalReleaseRate), Attempts(c, LteRrcAbnormalReleaseRate));
  }

  /** Averages are 0 without samples and otherwise lie between the smallest
      and the largest sample. */
  lemma AveragesOfSamples(c: Calc, lo: int, hi: int)
    requires forall i :: 0 <= i < |c.lteRsrp| ==> lo <= c.lteRsrp[i] <= hi
    ensures c.lteRsrp == [] ==> Kpis(c)[LteRsrpAvg] == 0.0
    ensures c.lteRsrp != [] ==> lo as real <= Kpis(c)[LteRsrpAvg] <= hi as real
  {
    assert Samples(c, LteRsrpAvg) == c.lteRsrp;
    AverageEntry(c, LteRsrpAvg);
    if c.lteRsrp != [] {
      Rates.AverageBounds(c.lteRsrp, lo, hi);
    }
  }
}
