/**
 * websocket/PoloniexWebSocketClient: the pure part of the streaming Poloniex
 * client. A ticker message wraps its fields in `data`; the symbol, bid, ask
 * and last price are read from there. The subscription names the symbol with
 * its slash written as an underscore.
 */
module PoloniexStream {
  import opened Wrappers
  import opened Text
  import opened Json
  import opened Ticker
  import FlatTicker

  const DataLayout: FlatTicker.Layout := FlatTicker.Layout("symbol", "bid", "ask", "last")

  /** handleTickerUpdate: nothing without a `data` field, otherwise the flat ticker read from it. */
  function TickerUpdate(m: Json, exchange: Option<ExchangeRef>): (r: Option<CacheEntry>)
    ensures r.Some? ==> Has(m, "data")
    ensures Has(m, "data") ==> r == FlatTicker.Decode(Get(m, "data").value, DataLayout, exchange)
  {
    if Has(m, "data") then FlatTicker.Decode(Get(m, "data").value, DataLayout, exchange) else None
  }

  /** A ticker message with its fields wrapped in `data`. */
  function TickerPush(symbol: string, bid: Number, ask: Number, last: Number): Json {
    JObj([Field("data", FlatTicker.Encode(DataLayout, symbol, bid, ask, last))])
  }

  lemma TickerPushDecodes(symbol: string, bid: Number, ask: Number, last: Number, exchange: Option<ExchangeRef>)
    ensures TickerUpdate(TickerPush(symbol, bid, ask, last), exchange) ==
      Some(CacheEntry(symbol, WithLast(exchange, bid.value, ask.value, last.value)))
  {
    FlatTicker.DecodeEncode(DataLayout, symbol, bid, ask, last, exchange);
  }

  /** Poloniex's own push carries a list under `data`: reading a symbol from a list throws, so nothing is cached. */
  lemma ListedDataDropped(channel: Json, items: seq<Json>, exchange: Option<ExchangeRef>)
    ensures TickerUpdate(JObj([Field("channel", channel), Field("data", JArr(items))]), exchange).None?
  {
    var f := [Field("channel", channel), Field("data", JArr(items))];
    assert DistinctKeys(f);
    LookupDistinct(f, 1);
  }

  // ------------------------------------------------------ subscribeToTicker

  /** The symbol as Poloniex names it: every slash becomes an underscore. */
  function PoloniexSymbol(symbol: string): string {
    Replace(symbol, '/', "_")
  }

  /** The renaming loses nothing for a symbol without underscores. */
  lemma PoloniexSymbolBack(symbol: string)
    requires '_' !in symbol
    ensures '/' !in PoloniexSymbol(symbol)
    ensures Replace(PoloniexSymbol(symbol), '_', "/") == symbol
  {
    ReplaceBack(symbol, '/', '_');
  }

  const SubscriptionPrefix: string := "{\"event\": \"subscribe\", \"channel\": [\"ticker\"], \"symbols\": [\""
  const SubscriptionSuffix: string := "\"]}"

  function SubscriptionMessage(symbol: string): string {
    SubscriptionPrefix + PoloniexSymbol(symbol) + SubscriptionSuffix
  }

  lemma SubscriptionNamesSymbol(symbol: string)
    ensures Between(SubscriptionMessage(symbol), SubscriptionPrefix, SubscriptionSuffix) == Some(PoloniexSymbol(symbol))
  {
    BetweenFrame(SubscriptionPrefix, PoloniexSymbol(symbol), SubscriptionSuffix);
  }
}
