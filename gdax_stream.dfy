/**
 * websocket/GDAXWebSocketClient: the pure part of the streaming GDAX client. A
 * ticker message carries `product_id`, `best_bid`, `best_ask` and `price` at
 * its top level; the product id is the cache key. The subscription names the
 * product with the symbol's slash written as a hyphen.
 */
module GdaxStream {
  import opened Wrappers
  import opened Text
  import opened Json
  import opened Ticker
  import FlatTicker

  const TickerLayout: FlatTicker.Layout := FlatTicker.Layout("product_id", "best_bid", "best_ask", "price")

  /** handleTickerUpdate: the flat ticker read from the message itself. */
  function TickerUpdate(m: Json, exchange: Option<ExchangeRef>): (r: Option<CacheEntry>)
    ensures r.Some? <==> FieldText(m, "product_id").Some? && FieldDecimal(m, "best_bid").Some?
                         && FieldDecimal(m, "best_ask").Some? && FieldDecimal(m, "price").Some?
    ensures r.Some? ==> r.value == CacheEntry(FieldText(m, "product_id").value,
      WithLast(exchange, FieldDecimal(m, "best_bid").value, FieldDecimal(m, "best_ask").value,
               FieldDecimal(m, "price").value))
  {
    FlatTicker.Decode(m, TickerLayout, exchange)
  }

  function TickerPush(productId: string, bid: Number, ask: Number, price: Number): Json {
    FlatTicker.Encode(TickerLayout, productId, bid, ask, price)
  }

  lemma TickerPushDecodes(productId: string, bid: Number, ask: Number, price: Number, exchange: Option<ExchangeRef>)
    ensures TickerUpdate(TickerPush(productId, bid, ask, price), exchange) ==
      Some(CacheEntry(productId, WithLast(exchange, bid.value, ask.value, price.value)))
  {
    FlatTicker.DecodeEncode(TickerLayout, productId, bid, ask, price, exchange);
  }

  // ------------------------------------------------------ subscribeToTicker

  /** The product id: every slash of the symbol becomes a hyphen. */
  function ProductId(symbol: string): string {
    Replace(symbol, '/', "-")
  }

  lemma ProductIdBack(symbol: string)
    requires '-' !in symbol
    ensures '/' !in ProductId(symbol)
    ensures Replace(ProductId(symbol), '-', "/") == symbol
  {
    ReplaceBack(symbol, '/', '-');
  }

  const SubscriptionPrefix: string := "{\"type\": \"subscribe\", \"product_ids\": [\""
  const SubscriptionSuffix: string := "\"], \"channels\": [\"ticker\"]}"

  function SubscriptionMessage(symbol: string): string {
    SubscriptionPrefix + ProductId(symbol) + SubscriptionSuffix
  }

  lemma SubscriptionNamesProduct(symbol: string)
    ensures Between(SubscriptionMessage(symbol), SubscriptionPrefix, SubscriptionSuffix) == Some(ProductId(symbol))
  {
    BetweenFrame(SubscriptionPrefix, ProductId(symbol), SubscriptionSuffix);
  }
}
