/**
 * RealTimeArbitrageService: the price-update callback of the two exchange
 * clients. Each update is stored as the venue's latest quote (last write
 * wins) and handed to the market-data store, and then, if both configured
 * venues have a quote, one check is counted and either detection runs (both
 * quotes fresh) or the check is counted as skipped.
 *
 * The clock is a parameter: `now` is the reading that stamps the new quote
 * and `binanceClock`/`huobiClock` the readings isDataFresh takes. The
 * detector ArbitrageService.checkForArbitrage is not part of this model; its
 * calls are recorded in `detections`.
 */
module RealTimeArbitrageService {
  import opened Wrappers
  import opened Model
  import ArbitrageConfig
  import MarketDataService
  import StatisticsService
  import BinanceExchangeClient
  import HuobiExchangeClient
  import opened WebSocketMessageHandler

  /** isDataFresh: strictly less than the expiry has passed since the quote's timestamp. */
  predicate IsFresh(now: int, timestamp: int) {
    now - timestamp < ArbitrageConfig.PriceExpiryMs
  }

  /** A quote stamped exactly 5 seconds ago is already stale; one a millisecond younger is not. */
  lemma FreshnessBoundary(timestamp: int)
    ensures !IsFresh(timestamp + 5000, timestamp) && IsFresh(timestamp + 4999, timestamp)
  {
  }

  /** One call of the detector with the two stored quotes, as they were at that moment. */
  datatype Detection = Detection(binance: MarketDataFields, huobi: MarketDataFields)

  /** The venue names the two exchange clients pass to handlePriceUpdate. */
  const ClientNames: set<string> := {BinanceExchangeClient.ExchangeName, HuobiExchangeClient.ExchangeName}

  /** The store is written under the clients' names and read under the configured ones: they never meet. */
  lemma ShippedNamesNeverMatch()
    ensures ArbitrageConfig.BinanceExchangeName !in ClientNames
    ensures ArbitrageConfig.HuobiExchangeName !in ClientNames
  {
    assert BinanceExchangeClient.ExchangeName[0] != ArbitrageConfig.BinanceExchangeName[0];
    assert HuobiExchangeClient.ExchangeName[0] != ArbitrageConfig.BinanceExchangeName[0];
    assert BinanceExchangeClient.ExchangeName[0] != ArbitrageConfig.HuobiExchangeName[0];
    assert HuobiExchangeClient.ExchangeName[0] != ArbitrageConfig.HuobiExchangeName[0];
  }

  class RealTimeArbitrageService {
    /** latestMarketData: venue name to the last quote stored for it. */
    var latestMarketData: map<string, MarketData>
    var detections: seq<Detection>
    const marketDataService: MarketDataService.MarketDataService
    const statisticsService: StatisticsService.StatisticsService

    /** Every stored quote carries a timestamp, and no more checks are skipped than made. */
    ghost predicate Valid()
      reads this, statisticsService, latestMarketData.Values
    {
      && (forall k :: k in latestMarketData ==> latestMarketData[k].timestamp.Some?)
      && statisticsService.skippedOpportunities <= statisticsService.checkCount
    }

    constructor (marketDataService: MarketDataService.MarketDataService,
                 statisticsService: StatisticsService.StatisticsService)
      requires statisticsService.skippedOpportunities <= statisticsService.checkCount
      ensures Valid() && latestMarketData == map[] && detections == []
      ensures this.marketDataService == marketDataService && this.statisticsService == statisticsService
    {
      this.marketDataService := marketDataService;
      this.statisticsService := statisticsService;
      latestMarketData := map[];
      detections := [];
    }

    /** Both configured venues have a stored quote. */
    predicate BothPresent()
      reads this
    {
      ArbitrageConfig.BinanceExchangeName in latestMarketData && ArbitrageConfig.HuobiExchangeName in latestMarketData
    }

    /** Both stored quotes are fresh at the two clock readings (the second one is only taken if the first is fresh). */
    predicate BothFresh(binanceClock: int, huobiClock: int)
      requires BothPresent() && Valid()
      reads this, statisticsService, latestMarketData.Values
    {
      && IsFresh(binanceClock, latestMarketData[ArbitrageConfig.BinanceExchangeName].timestamp.value)
      && IsFresh(huobiClock, latestMarketData[ArbitrageConfig.HuobiExchangeName].timestamp.value)
    }

    /**
     * handlePriceUpdate: updateLatestPrice, then checkForArbitrageOpportunity.
     * `insertOk` is whether the mapper's insert succeeds.
     */
    method HandlePriceUpdate(exchange: string, bestBid: real, bestAsk: real, now: int,
                             binanceClock: int, huobiClock: int, insertOk: bool)
      requires Valid()
      modifies this, marketDataService, statisticsService
      ensures Valid()
      // the store: a new quote under `exchange`, every other entry as it was
      ensures latestMarketData.Keys == old(latestMarketData).Keys + {exchange}
      ensures fresh(latestMarketData[exchange])
      ensures latestMarketData[exchange].Fields() == NoMarketData.(exchange := Some(exchange),
        symbol := Some(ArbitrageConfig.Symbol), bidPrice := Some(bestBid), askPrice := Some(bestAsk),
        timestamp := Some(now))
      ensures forall k :: k in old(latestMarketData) && k != exchange ==> latestMarketData[k] == old(latestMarketData)[k]
      // the same quote goes to saveMarketData exactly once
      ensures marketDataService.insertCalls == old(marketDataService.insertCalls) +
        (if MarketDataService.ValidFields(latestMarketData[exchange].Fields()) then [latestMarketData[exchange].Fields()] else [])
      ensures marketDataService.rows == old(marketDataService.rows) +
        (if MarketDataService.ValidFields(latestMarketData[exchange].Fields()) && insertOk
         then [latestMarketData[exchange].Fields()] else [])
      // the check, on the store as it is after the write
      ensures statisticsService.processedOpportunities == old(statisticsService.processedOpportunities)
      ensures statisticsService.lastStatsPrintTime == old(statisticsService.lastStatsPrintTime)
      ensures statisticsService.reports == old(statisticsService.reports)
      ensures !BothPresent() ==>
        && statisticsService.checkCount == old(statisticsService.checkCount)
        && statisticsService.skippedOpportunities == old(statisticsService.skippedOpportunities)
        && detections == old(detections)
      ensures BothPresent() ==> statisticsService.checkCount == old(statisticsService.checkCount) + 1
      ensures BothPresent() && BothFresh(binanceClock, huobiClock) ==>
        && statisticsService.skippedOpportunities == old(statisticsService.skippedOpportunities)
        && detections == old(detections) + [Detection(latestMarketData[ArbitrageConfig.BinanceExchangeName].Fields(),
                                                      latestMarketData[ArbitrageConfig.HuobiExchangeName].Fields())]
      ensures BothPresent() && !BothFresh(binanceClock, huobiClock) ==>
        && statisticsService.skippedOpportunities == old(statisticsService.skippedOpportunities) + 1
        && detections == old(detections)
    {
      var md := new MarketData(Some(exchange), Some(ArbitrageConfig.Symbol), Some(bestBid), Some(bestAsk), Some(now));
      latestMarketData := latestMarketData[exchange := md];
      marketDataService.SaveMarketData(md, insertOk);
      CheckForArbitrageOpportunity(binanceClock, huobiClock);
    }

    /** checkForArbitrageOpportunity on the current store. */
    method CheckForArbitrageOpportunity(binanceClock: int, huobiClock: int)
      requires Valid()
      modifies this`detections, statisticsService
      ensures Valid()
      ensures statisticsService.processedOpportunities == old(statisticsService.processedOpportunities)
      ensures statisticsService.lastStatsPrintTime == old(statisticsService.lastStatsPrintTime)
      ensures statisticsService.reports == old(statisticsService.reports)
      ensures !BothPresent() ==>
        && statisticsService.checkCount == old(statisticsService.checkCount)
        && statisticsService.skippedOpportunities == old(statisticsService.skippedOpportunities)
        && detections == old(detections)
      ensures BothPresent() ==> statisticsService.checkCount == old(statisticsService.checkCount) + 1
      ensures BothPresent() && BothFresh(binanceClock, huobiClock) ==>
        && statisticsService.skippedOpportunities == old(statisticsService.skippedOpportunities)
        && detections == old(detections) + [Detection(latestMarketData[ArbitrageConfig.BinanceExchangeName].Fields(),
                                                      latestMarketData[ArbitrageConfig.HuobiExchangeName].Fields())]
      ensures BothPresent() && !BothFresh(binanceClock, huobiClock) ==>
        && statisticsService.skippedOpportunities == old(statisticsService.skippedOpportunities) + 1
        && detections == old(detections)
    {
      if ArbitrageConfig.BinanceExchangeName in latestMarketData && ArbitrageConfig.HuobiExchangeName in latestMarketData {
        var binanceData := latestMarketData[ArbitrageConfig.BinanceExchangeName];
        var huobiData := latestMarketData[ArbitrageConfig.HuobiExchangeName];
        statisticsService.IncrementCheckCount();
        if IsFresh(binanceClock, binanceData.timestamp.value) && IsFresh(huobiClock, huobiData.timestamp.value) {
          detections := detections + [Detection(binanceData.Fields(), huobiData.Fields())];
        } else {
          statisticsService.IncrementSkippedOpportunities();
        }
      }
    }
  }

  /**
   * A write under a shipped client's name keeps the store's keys among the
   * clients' names, so neither configured name is ever among them.
   */
  lemma ClientWritesKeepConfiguredNamesOut(keys: set<string>, exchange: string)
    requires keys <= ClientNames && exchange in ClientNames
    ensures keys + {exchange} <= ClientNames
    ensures ArbitrageConfig.BinanceExchangeName !in keys + {exchange}
    ensures ArbitrageConfig.HuobiExchangeName !in keys + {exchange}
  {
    ShippedNamesNeverMatch();
  }

  /**
   * One update from a shipped client, on a store only those clients wrote:
   * no check is counted, the detector is not called, and the store is still
   * keyed by the clients' names only, so the same holds for the next update.
   */
  method ClientUpdateNeverTriggersDetection(s: RealTimeArbitrageService, update: PriceUpdate,
                                            now: int, insertOk: bool)
    requires s.Valid() && s.latestMarketData.Keys <= ClientNames && update.exchange in ClientNames
    modifies s, s.marketDataService, s.statisticsService
    ensures s.Valid() && s.latestMarketData.Keys <= ClientNames
    ensures s.detections == old(s.detections)
    ensures s.statisticsService.checkCount == old(s.statisticsService.checkCount)
    ensures s.statisticsService.skippedOpportunities == old(s.statisticsService.skippedOpportunities)
  {
    ClientWritesKeepConfiguredNamesOut(s.latestMarketData.Keys, update.exchange);
    s.HandlePriceUpdate(update.exchange, update.bestBid, update.bestAsk, now, now, now, insertOk);
  }

  /**
   * The other side of the key mismatch: updates under the configured names
   * do reach the detector. A fresh service fed one quote per venue at the
   * same instant counts one check and calls the detector once, with exactly
   * those quotes.
   */
  method ConfiguredNamesReachDetector(now: int, binanceBid: real, binanceAsk: real, huobiBid: real, huobiAsk: real)
    returns (s: RealTimeArbitrageService)
    ensures s.statisticsService.checkCount == 1 && s.statisticsService.skippedOpportunities == 0
    ensures |s.detections| == 1
    ensures s.detections[0].binance.bidPrice == Some(binanceBid) && s.detections[0].binance.askPrice == Some(binanceAsk)
    ensures s.detections[0].huobi.bidPrice == Some(huobiBid) && s.detections[0].huobi.askPrice == Some(huobiAsk)
  {
    var marketData := new MarketDataService.MarketDataService();
    var statistics := new StatisticsService.StatisticsService(now);
    s := new RealTimeArbitrageService(marketData, statistics);
    s.HandlePriceUpdate(ArbitrageConfig.BinanceExchangeName, binanceBid, binanceAsk, now, now, now, true);
    s.HandlePriceUpdate(ArbitrageConfig.HuobiExchangeName, huobiBid, huobiAsk, now, now, now, true);
  }
}
