/**
 * websocket/BinanceWebSocketClient: the pure part of the streaming Binance
 * client. A 24-hour ticker push carries the symbol `s`, best bid `b` and best
 * ask `a`; a known pair is cached under the symbol exactly as sent.
 */
module BinanceStream {
  import opened Wrappers
  import opened Text
  import opened Json
  import opened Ticker

  /** Every test handleTickerUpdate makes before it writes the cache. */
  predicate IsTickerPush(m: Json) {
    && Has(m, "s") && Has(m, "b") && Has(m, "a")
    && FieldDecimal(m, "b").Some? && FieldDecimal(m, "a").Some?
    && ConvertSymbolToCurrencyPair(AsText(Get(m, "s").value)).Some?
  }

  /**
   * handleTickerUpdate: the cache entry it writes, if any. A price that is not
   * a numeral throws in `new BigDecimal` and is caught; an unknown symbol is
   * skipped.
   */
  function TickerUpdate(m: Json, exchange: Option<ExchangeRef>): (r: Option<CacheEntry>)
    ensures r.Some? <==> IsTickerPush(m)
    ensures r.Some? ==> r.value.key == AsText(Get(m, "s").value)
    ensures r.Some? ==>
      r.value.ticker == Quoted(ConvertSymbolToCurrencyPair(r.value.key).value, exchange,
                               FieldDecimal(m, "b").value, FieldDecimal(m, "a").value)
  {
    if Has(m, "s") && Has(m, "b") && Has(m, "a") then
      var symbol := AsText(Get(m, "s").value);
      match (FieldDecimal(m, "b"), FieldDecimal(m, "a"))
      case (Some(bid), Some(ask)) =>
        (match ConvertSymbolToCurrencyPair(symbol)
         case Some(pair) => Some(CacheEntry(symbol, Quoted(pair, exchange, bid, ask)))
         case None => None)
      case _ => None
    else None
  }

  /** A 24-hour ticker push as Binance sends it (the fields the client reads). */
  function TickerPush(symbol: string, bid: Number, ask: Number): Json {
    JObj([Field("e", JStr("24hrTicker")), Field("s", JStr(symbol)), Field("b", JNum(bid)), Field("a", JNum(ask))])
  }

  /** A push for a known pair is cached under its own symbol with exactly its bid and ask. */
  lemma TickerPushDecodes(symbol: string, bid: Number, ask: Number, exchange: Option<ExchangeRef>)
    requires ConvertSymbolToCurrencyPair(symbol).Some?
    ensures TickerUpdate(TickerPush(symbol, bid, ask), exchange) ==
      Some(CacheEntry(symbol, Quoted(ConvertSymbolToCurrencyPair(symbol).value, exchange, bid.value, ask.value)))
  {
    var f := TickerPush(symbol, bid, ask).fields;
    assert DistinctKeys(f);
    LookupDistinct(f, 1);
    LookupDistinct(f, 2);
    LookupDistinct(f, 3);
  }

  // ------------------------------------------------------ subscribeToTicker

  const SubscriptionPrefix: string := "{\"method\": \"SUBSCRIBE\", \"params\": [\""
  const SubscriptionSuffix: string := "@ticker\"], \"id\": 1}"

  /** subscribeToTicker's text: the stream of the lower-cased symbol. */
  function SubscriptionMessage(symbol: string): string {
    SubscriptionPrefix + ToLower(symbol) + SubscriptionSuffix
  }

  /** The stream subscribed to names the symbol in lower case, which converts to the same pair. */
  lemma SubscriptionNamesSymbol(symbol: string)
    ensures Between(SubscriptionMessage(symbol), SubscriptionPrefix, SubscriptionSuffix) == Some(ToLower(symbol))
    ensures ConvertSymbolToCurrencyPair(ToLower(symbol)) == ConvertSymbolToCurrencyPair(symbol)
  {
    BetweenFrame(SubscriptionPrefix, ToLower(symbol), SubscriptionSuffix);
    ConvertIgnoresCase(symbol);
  }
}
