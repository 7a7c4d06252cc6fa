/**
 * The shape shared by the Poloniex, Bittrex and GDAX ticker handlers: a key
 * read with asText() and three prices (bid, ask, last) read with
 * `new BigDecimal(asText())`, cached as a `new TickerData()` filled in by the
 * setters. A missing field throws a NullPointerException and a price that is
 * not a numeral a NumberFormatException; both are caught, so nothing is
 * cached.
 */
module FlatTicker {
  import opened Wrappers
  import opened Json
  import opened Ticker

  /** The names of the four fields a handler reads. */
  datatype Layout = Layout(key: string, bid: string, ask: string, last: string)

  predicate Distinct(l: Layout) {
    && l.key != l.bid && l.key != l.ask && l.key != l.last
    && l.bid != l.ask && l.bid != l.last && l.ask != l.last
  }

  /** The cache entry written for message `m`, if any. */
  function Decode(m: Json, l: Layout, exchange: Option<ExchangeRef>): (r: Option<CacheEntry>)
    ensures r.Some? <==>
      && FieldText(m, l.key).Some? && FieldDecimal(m, l.bid).Some?
      && FieldDecimal(m, l.ask).Some? && FieldDecimal(m, l.last).Some?
    ensures r.Some? ==> r.value.key == AsText(Get(m, l.key).value)
    ensures r.Some? ==> r.value.ticker.pair.None? && r.value.ticker.exchange == exchange
    ensures r.Some? ==> r.value.ticker.bid == Decimal(Get(m, l.bid).value)
    ensures r.Some? ==> r.value.ticker.ask == Decimal(Get(m, l.ask).value)
    ensures r.Some? ==> r.value.ticker.last == Decimal(Get(m, l.last).value)
  {
    match (FieldText(m, l.key), FieldDecimal(m, l.bid), FieldDecimal(m, l.ask), FieldDecimal(m, l.last))
    case (Some(key), Some(bid), Some(ask), Some(last)) => Some(CacheEntry(key, WithLast(exchange, bid, ask, last)))
    case _ => None
  }

  /** A message of this layout as the venue sends it. */
  function Encode(l: Layout, key: string, bid: Number, ask: Number, last: Number): Json {
    JObj([Field(l.key, JStr(key)), Field(l.bid, JNum(bid)), Field(l.ask, JNum(ask)), Field(l.last, JNum(last))])
  }

  /** Decoding an encoded message gives back its key and its three prices. */
  lemma DecodeEncode(l: Layout, key: string, bid: Number, ask: Number, last: Number, exchange: Option<ExchangeRef>)
    requires Distinct(l)
    ensures Decode(Encode(l, key, bid, ask, last), l, exchange) ==
      Some(CacheEntry(key, WithLast(exchange, bid.value, ask.value, last.value)))
  {
    var f := Encode(l, key, bid, ask, last).fields;
    assert DistinctKeys(f);
    LookupDistinct(f, 0);
    LookupDistinct(f, 1);
    LookupDistinct(f, 2);
    LookupDistinct(f, 3);
  }

  /** A price sent as text that is not a numeral drops the whole message. */
  lemma TextPriceDropped(l: Layout, key: string, bid: string, ask: Number, last: Number, exchange: Option<ExchangeRef>)
    requires Distinct(l)
    ensures Decode(JObj([Field(l.key, JStr(key)), Field(l.bid, JStr(bid)), Field(l.ask, JNum(ask)),
                         Field(l.last, JNum(last))]), l, exchange).None?
  {
    var f := [Field(l.key, JStr(key)), Field(l.bid, JStr(bid)), Field(l.ask, JNum(ask)), Field(l.last, JNum(last))];
    assert DistinctKeys(f);
    LookupDistinct(f, 1);
  }
}
