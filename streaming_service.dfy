/**
 * service/websocket/StreamingArbitrageService: the XChange-stream variant of
 * the detector. Its subscriber stores each Binance ticker under "BINANCE" and
 * then runs a check that, while the service is running and a Binance ticker
 * is stored, only shows the prices. The spread test checkArbitrage compares
 * the margin as a fraction, (sell - buy) / buy rounded to six places HALF_UP,
 * with 0.005, and reports it in percent set to three places HALF_UP; it is
 * private and its calls are commented out.
 */
module StreamingArbitrageService {
  import opened Wrappers
  import opened Decimal
  import ArbitrageService
  import ArbitrageConfig

  const ArbitrageThreshold: real := 0.005
  const MarginScale: nat := 6
  const PercentScale: nat := 3

  /** What checkArbitrage does: nothing, report a margin and its percent, or throw dividing by a zero buy price. */
  datatype Check = NoReport | Report(margin: real, percent: real) | DivisionByZero

  /** priceDiff.divide(buyPrice, 6, HALF_UP): a fraction, not a percentage. */
  function StreamingMargin(buyPrice: real, sellPrice: real): real
    requires buyPrice != 0.0
  {
    RoundHalfUp((sellPrice - buyPrice) / buyPrice, MarginScale)
  }

  /** checkArbitrage on two possibly-null prices. */
  function CheckArbitrage(buyPrice: Option<real>, sellPrice: Option<real>): (r: Check)
    ensures buyPrice.None? || sellPrice.None? ==> r == NoReport
    ensures r == DivisionByZero <==> buyPrice == Some(0.0) && sellPrice.Some?
    ensures r.Report? <==>
      buyPrice.Some? && sellPrice.Some? && buyPrice.value != 0.0 &&
      StreamingMargin(buyPrice.value, sellPrice.value) > ArbitrageThreshold
    ensures r.Report? ==> r.margin > ArbitrageThreshold
  {
    if buyPrice.None? || sellPrice.None? then NoReport
    else if buyPrice.value == 0.0 then DivisionByZero
    else
      var margin := StreamingMargin(buyPrice.value, sellPrice.value);
      if margin > ArbitrageThreshold then Report(margin, RoundHalfUp(margin * 100.0, PercentScale))
      else NoReport
  }

  /** The fraction is the percent margin ArbitrageService computes, divided by 100: the two differ only in units. */
  lemma StreamingMarginInPercent(buyPrice: real, sellPrice: real)
    requires buyPrice != 0.0
    ensures StreamingMargin(buyPrice, sellPrice) * 100.0 == ArbitrageService.ProfitMargin(buyPrice, sellPrice)
  {
  }

  /** The units matter: a 0.4% spread clears the configured minimum margin (0.03, read as percent) of ArbitrageService but is not reported here. */
  lemma UnitsDisagree()
    ensures ArbitrageService.ProfitMargin(1000.0, 1004.0) > ArbitrageConfig.MinArbitrageMargin
    ensures CheckArbitrage(Some(1000.0), Some(1004.0)) == NoReport
  {
    ArbitrageService.ScaleSix();
    assert (1004.0 - 1000.0) / 1000.0 == 0.004;
    assert RoundToInt(0.004 * 1000000.0) == 4000;
    assert StreamingMargin(1000.0, 1004.0) == 0.004;
  }

  /** A report means the exact spread, before rounding, was above 0.005 less half a unit of the sixth place. */
  lemma ReportedSpreadBound(buyPrice: real, sellPrice: real)
    requires buyPrice != 0.0 && CheckArbitrage(Some(buyPrice), Some(sellPrice)).Report?
    ensures (sellPrice - buyPrice) / buyPrice > 0.0049995
  {
    ArbitrageService.ScaleSix();
    RoundHalfUpError((sellPrice - buyPrice) / buyPrice, MarginScale);
  }

  /** A report at a positive buy price needs a sell price above it. */
  lemma ReportNeedsSpread(buyPrice: real, sellPrice: real)
    requires buyPrice > 0.0 && CheckArbitrage(Some(buyPrice), Some(sellPrice)).Report?
    ensures sellPrice > buyPrice
  {
    StreamingMarginInPercent(buyPrice, sellPrice);
    ArbitrageService.PositiveMarginNeedsSpread(buyPrice, sellPrice);
  }

  /** The percent shown is the margin times 100 to within half a unit of the third place. */
  lemma ReportedPercentError(buyPrice: real, sellPrice: real)
    requires CheckArbitrage(Some(buyPrice), Some(sellPrice)).Report?
    ensures var r := CheckArbitrage(Some(buyPrice), Some(sellPrice));
      -0.0005 <= r.percent - r.margin * 100.0 <= 0.0005
  {
    var r := CheckArbitrage(Some(buyPrice), Some(sellPrice));
    RoundHalfUpError(r.margin * 100.0, PercentScale);
    assert Scale(PercentScale) == 1000.0;
  }

  /** An XChange Ticker, as far as the service reads it. */
  datatype StreamTicker = StreamTicker(bid: Option<real>, ask: Option<real>)

  /** The key the subscriber stores Binance tickers under. */
  const BinanceKey: string := "BINANCE"

  class StreamingArbitrageService {
    var isRunning: bool
    var latestTickers: map<string, StreamTicker>

    constructor ()
      ensures !isRunning && latestTickers == map[]
    {
      isRunning := false;
      latestTickers := map[];
    }

    /**
     * startArbitrageDetection: `setupOk` is whether initializing, connecting
     * and subscribing succeeded; the flag is raised only after all three, and a
     * failure comes back as `ok` false (the RuntimeException).
     */
    method StartArbitrageDetection(setupOk: bool) returns (ok: bool)
      modifies this`isRunning
      ensures ok == setupOk
      ensures isRunning == (setupOk || old(isRunning))
    {
      if !setupOk {
        return false;
      }
      isRunning := true;
      return true;
    }

    /** stopArbitrageDetection clears the flag first; disposing and disconnecting are not modelled. */
    method StopArbitrageDetection()
      modifies this`isRunning
      ensures !isRunning
    {
      isRunning := false;
    }

    /** checkArbitrageOpportunity: whether it gets past its two guards to show the Binance prices. */
    method CheckArbitrageOpportunity() returns (reached: bool)
      ensures reached <==> isRunning && BinanceKey in latestTickers
    {
      if !isRunning {
        return false;
      }
      var binanceTicker := if BinanceKey in latestTickers then Some(latestTickers[BinanceKey]) else None;
      if binanceTicker.None? {
        return false;
      }
      return true;
    }

    /** The subscriber: store the ticker, then check; the check gets through exactly while running. */
    method OnBinanceTicker(ticker: StreamTicker) returns (reached: bool)
      modifies this`latestTickers
      ensures latestTickers == old(latestTickers)[BinanceKey := ticker]
      ensures reached == isRunning
    {
      latestTickers := latestTickers[BinanceKey := ticker];
      reached := CheckArbitrageOpportunity();
    }

    method IsRunning() returns (b: bool)
      ensures b == isRunning
    {
      b := isRunning;
    }

    /** getLatestTickers: a copy of the store. */
    method GetLatestTickers() returns (m: map<string, StreamTicker>)
      ensures m == latestTickers
    {
      m := latestTickers;
    }
  }
}
