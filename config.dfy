/** The constants of ArbitrageConfig that the modelled code reads. */
module ArbitrageConfig {
  /** The one pair the real-time service monitors. */
  const Symbol: string := "ethusdt"
  /** Minimum margin, in percent. */
  const MinArbitrageMargin: real := 0.03
  /** A stored quote is fresh while it is younger than this many milliseconds. */
  const PriceExpiryMs: int := 5000
  /** printStats emits only when more than this many milliseconds have passed since the last emission. */
  const StatsPrintIntervalMs: int := 60000
  const ReconnectDelayMs: int := 5000
  /** The keys under which the real-time service looks up the two venues' latest quotes. */
  const BinanceExchangeName: string := "Binance"
  const HuobiExchangeName: string := "Huobi"
}
