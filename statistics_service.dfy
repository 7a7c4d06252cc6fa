/**
 * StatisticsService: three counters that only ever grow and the time of the
 * last emitted report. The clock is a parameter. A report is the snapshot of
 * the counters that printStats logs.
 */
module StatisticsService {
  import ArbitrageConfig

  datatype Report = Report(time: int, checks: nat, skipped: nat, processed: nat)

  /** printStats emits only when strictly more than the interval has passed. */
  predicate Due(now: int, lastStatsPrintTime: int) {
    now - lastStatsPrintTime > ArbitrageConfig.StatsPrintIntervalMs
  }

  /** Right after an emission at `now`, a report at the same `now` is not due. */
  lemma NotDueAgain(now: int)
    ensures !Due(now, now)
  {
  }

  class StatisticsService {
    var checkCount: nat
    var skippedOpportunities: nat
    var processedOpportunities: nat
    var lastStatsPrintTime: int
    /** The reports logged so far, oldest first. */
    var reports: seq<Report>

    /** The counters start at zero and the print marker at the construction time. */
    constructor (now: int)
      ensures checkCount == 0 && skippedOpportunities == 0 && processedOpportunities == 0
      ensures lastStatsPrintTime == now && reports == []
    {
      checkCount, skippedOpportunities, processedOpportunities := 0, 0, 0;
      lastStatsPrintTime, reports := now, [];
    }

    method IncrementCheckCount()
      modifies this
      ensures checkCount == old(checkCount) + 1
      ensures skippedOpportunities == old(skippedOpportunities) && processedOpportunities == old(processedOpportunities)
      ensures lastStatsPrintTime == old(lastStatsPrintTime) && reports == old(reports)
    {
      checkCount := checkCount + 1;
    }

    method IncrementSkippedOpportunities()
      modifies this
      ensures skippedOpportunities == old(skippedOpportunities) + 1
      ensures checkCount == old(checkCount) && processedOpportunities == old(processedOpportunities)
      ensures lastStatsPrintTime == old(lastStatsPrintTime) && reports == old(reports)
    {
      skippedOpportunities := skippedOpportunities + 1;
    }

    method IncrementProcessedOpportunities()
      modifies this
      ensures processedOpportunities == old(processedOpportunities) + 1
      ensures checkCount == old(checkCount) && skippedOpportunities == old(skippedOpportunities)
      ensures lastStatsPrintTime == old(lastStatsPrintTime) && reports == old(reports)
    {
      processedOpportunities := processedOpportunities + 1;
    }

    /**
     * printStats: when the interval has elapsed, moves the marker to `now` and
     * logs the counters; otherwise changes nothing. The counters are never touched.
     */
    method PrintStats(now: int)
      modifies this
      ensures checkCount == old(checkCount) && skippedOpportunities == old(skippedOpportunities)
      ensures processedOpportunities == old(processedOpportunities)
      ensures Due(now, old(lastStatsPrintTime)) ==>
        lastStatsPrintTime == now
        && reports == old(reports) + [Report(now, checkCount, skippedOpportunities, processedOpportunities)]
      ensures !Due(now, old(lastStatsPrintTime)) ==>
        lastStatsPrintTime == old(lastStatsPrintTime) && reports == old(reports)
    {
      if Due(now, lastStatsPrintTime) {
        lastStatsPrintTime := now;
        reports := reports + [Report(now, checkCount, skippedOpportunities, processedOpportunities)];
      }
    }

    /** printFinalStats delegates to printStats, so it too emits only when the interval has elapsed. */
    method PrintFinalStats(now: int)
      modifies this
      ensures checkCount == old(checkCount) && skippedOpportunities == old(skippedOpportunities)
      ensures processedOpportunities == old(processedOpportunities)
      ensures Due(now, old(lastStatsPrintTime)) ==>
        lastStatsPrintTime == now
        && reports == old(reports) + [Report(now, checkCount, skippedOpportunities, processedOpportunities)]
      ensures !Due(now, old(lastStatsPrintTime)) ==>
        lastStatsPrintTime == old(lastStatsPrintTime) && reports == old(reports)
    {
      PrintStats(now);
    }

    /** The evidently intended printFinalStats: the final report is emitted whatever the marker says. */
    method PrintFinalStatsForced(now: int)
      modifies this
      ensures checkCount == old(checkCount) && skippedOpportunities == old(skippedOpportunities)
      ensures processedOpportunities == old(processedOpportunities)
      ensures lastStatsPrintTime == now
      ensures reports == old(reports) + [Report(now, checkCount, skippedOpportunities, processedOpportunities)]
    {
      lastStatsPrintTime := now;
      reports := reports + [Report(now, checkCount, skippedOpportunities, processedOpportunities)];
    }
  }

  /** As written: a service stopped within the interval of its last report logs no final statistics. */
  method FinalStatsSkippedWhenRecent(start: int) returns (s: StatisticsService)
    ensures |s.reports| == 0
  {
    s := new StatisticsService(start);
    s.IncrementCheckCount();
    s.PrintFinalStats(start + ArbitrageConfig.StatsPrintIntervalMs);
  }

  /** Corrected: the same shutdown logs exactly one final report with the counters. */
  method FinalStatsAlwaysLogged(start: int) returns (s: StatisticsService)
    ensures s.reports == [Report(start + ArbitrageConfig.StatsPrintIntervalMs, 1, 0, 0)]
  {
    s := new StatisticsService(start);
    s.IncrementCheckCount();
    s.PrintFinalStatsForced(start + ArbitrageConfig.StatsPrintIntervalMs);
  }

  /** Two printStats calls at the same instant emit at most one report. */
  method PrintTwice(s: StatisticsService, now: int)
    modifies s
    ensures |s.reports| <= |old(s.reports)| + 1
    ensures s.checkCount == old(s.checkCount)
  {
    s.PrintStats(now);
    var markerAfterFirst := s.lastStatsPrintTime;
    s.PrintStats(now);
    assert markerAfterFirst == now ==> !Due(now, markerAfterFirst);
  }
}
