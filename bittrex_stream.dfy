/**
 * websocket/BittrexWebSocketClient: the pure part of the streaming Bittrex
 * client. A ticker message carries `symbol`, `bidRate`, `askRate` and
 * `lastTradeRate` at its top level. The subscription asks for the
 * `ticker_<symbol>` stream with the symbol's slash written as a hyphen.
 */
module BittrexStream {
  import opened Wrappers
  import opened Text
  import opened Json
  import opened Ticker
  import FlatTicker

  const TickerLayout: FlatTicker.Layout := FlatTicker.Layout("symbol", "bidRate", "askRate", "lastTradeRate")

  /** handleTickerUpdate: the flat ticker read from the message itself. */
  function TickerUpdate(m: Json, exchange: Option<ExchangeRef>): (r: Option<CacheEntry>)
    ensures r.Some? <==> FieldText(m, "symbol").Some? && FieldDecimal(m, "bidRate").Some?
                         && FieldDecimal(m, "askRate").Some? && FieldDecimal(m, "lastTradeRate").Some?
    ensures r.Some? ==> r.value == CacheEntry(FieldText(m, "symbol").value,
      WithLast(exchange, FieldDecimal(m, "bidRate").value, FieldDecimal(m, "askRate").value,
               FieldDecimal(m, "lastTradeRate").value))
  {
    FlatTicker.Decode(m, TickerLayout, exchange)
  }

  function TickerPush(symbol: string, bid: Number, ask: Number, last: Number): Json {
    FlatTicker.Encode(TickerLayout, symbol, bid, ask, last)
  }

  lemma TickerPushDecodes(symbol: string, bid: Number, ask: Number, last: Number, exchange: Option<ExchangeRef>)
    ensures TickerUpdate(TickerPush(symbol, bid, ask, last), exchange) ==
      Some(CacheEntry(symbol, WithLast(exchange, bid.value, ask.value, last.value)))
  {
    FlatTicker.DecodeEncode(TickerLayout, symbol, bid, ask, last, exchange);
  }

  // ------------------------------------------------------ subscribeToTicker

  /** The symbol as Bittrex names it: every slash becomes a hyphen. */
  function BittrexSymbol(symbol: string): string {
    Replace(symbol, '/', "-")
  }

  lemma BittrexSymbolBack(symbol: string)
    requires '-' !in symbol
    ensures '/' !in BittrexSymbol(symbol)
    ensures Replace(BittrexSymbol(symbol), '-', "/") == symbol
  {
    ReplaceBack(symbol, '/', '-');
  }

  const SubscriptionPrefix: string := "{\"protocol\":\"json\",\"version\":1,\"type\":1,\"target\":\"Subscribe\",\"arguments\":[\""
  const SubscriptionSuffix: string := "\"]}"

  /** The single argument is the stream name `ticker_` followed by the Bittrex symbol. */
  function SubscriptionMessage(symbol: string): string {
    SubscriptionPrefix + ("ticker_" + BittrexSymbol(symbol)) + SubscriptionSuffix
  }

  lemma SubscriptionNamesSymbol(symbol: string)
    ensures Between(SubscriptionMessage(symbol), SubscriptionPrefix, SubscriptionSuffix) == Some("ticker_" + BittrexSymbol(symbol))
  {
    BetweenFrame(SubscriptionPrefix, "ticker_" + BittrexSymbol(symbol), SubscriptionSuffix);
  }
}
