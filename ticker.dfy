/**
 * The ticker record the websocket clients cache and hand to their callback,
 * and the symbol-to-pair conversion the Huobi and Binance clients both use.
 * TickerData is a record {pair, exchange, bid, ask, last}; every field may be
 * unset. An XChange Exchange instance is kept abstract as an identity.
 */
module Ticker {
  import opened Wrappers
  import opened Text

  datatype CurrencyPair = ETH_USD | BTC_USD

  type ExchangeRef = nat

  datatype TickerData = TickerData(
    pair: Option<CurrencyPair>,
    exchange: Option<ExchangeRef>,
    bid: Option<real>,
    ask: Option<real>,
    last: Option<real>)

  /** `new TickerData(pair, exchange, bid, ask)`: the last price stays unset. */
  function Quoted(pair: CurrencyPair, exchange: Option<ExchangeRef>, bid: real, ask: real): TickerData {
    TickerData(Some(pair), exchange, Some(bid), Some(ask), None)
  }

  /** A `new TickerData()` filled in by setBid, setAsk, setLast and setExchange: the pair stays unset. */
  function WithLast(exchange: Option<ExchangeRef>, bid: real, ask: real, last: real): TickerData {
    TickerData(None, exchange, Some(bid), Some(ask), Some(last))
  }

  /** What a ticker update writes: the cache key and the ticker stored under it. */
  datatype CacheEntry = CacheEntry(key: string, ticker: TickerData)

  /** The exchange symbol each known pair is quoted under, in upper case. */
  function PairSymbol(p: CurrencyPair): string {
    match p
    case ETH_USD => "ETHUSDT"
    case BTC_USD => "BTCUSDT"
  }

  /** convertSymbolToCurrencyPair: a switch on the upper-cased symbol; anything else is null. */
  function ConvertSymbolToCurrencyPair(symbol: string): Option<CurrencyPair> {
    var u := ToUpper(symbol);
    if u == "ETHUSDT" then Some(ETH_USD)
    else if u == "BTCUSDT" then Some(BTC_USD)
    else None
  }

  /** A symbol converts to a pair exactly when it is that pair's symbol up to case. */
  lemma ConvertSymbolIff(symbol: string, p: CurrencyPair)
    ensures ConvertSymbolToCurrencyPair(symbol) == Some(p) <==> ToUpper(symbol) == PairSymbol(p)
  {
  }

  /** Converting a pair's own symbol, in any case, gives the pair back. */
  lemma ConvertPairSymbol(p: CurrencyPair)
    ensures ConvertSymbolToCurrencyPair(PairSymbol(p)) == Some(p)
    ensures ConvertSymbolToCurrencyPair(ToLower(PairSymbol(p))) == Some(p)
  {
    UpperOfLower(PairSymbol(p));
    assert ToUpper(PairSymbol(p)) == PairSymbol(p);
  }

  /** The conversion ignores case. */
  lemma ConvertIgnoresCase(symbol: string)
    ensures ConvertSymbolToCurrencyPair(ToLower(symbol)) == ConvertSymbolToCurrencyPair(symbol)
    ensures ConvertSymbolToCurrencyPair(ToUpper(symbol)) == ConvertSymbolToCurrencyPair(symbol)
  {
    UpperOfLower(symbol);
    UpperIdempotent(symbol);
  }

  /** A pair without the trailing T (ETH/USD written "ETHUSD") is not recognised. */
  lemma UsdSymbolUnknown()
    ensures ConvertSymbolToCurrencyPair("ethusd").None?
  {
    assert |ToUpper("ethusd")| == 6;
  }
}
