/**
 * websocket/WebSocketClient: the package-private ExchangeWebSocketClient and
 * its six venue subclasses, flattened into one class tagged with its venue.
 * The base class keeps a connected flag, a connection future and a map from
 * message type to handler; its onMessage classifies each parsed frame and
 * hands ticker payloads to the handler registered under "ticker". The Huobi
 * subclass overrides both onMessage callbacks with its own processMessage.
 *
 * A text frame arrives as the tree readTree built from it, or None when
 * readTree threw (the exception is caught and the frame dropped). A binary
 * frame arrives as the tree of its inflated text, or None when inflation or
 * parsing threw. Whether the library has closed the socket is a parameter.
 * `sent` records the frames handed to send.
 */
module StreamClient {
  import opened Wrappers
  import opened Text
  import opened Json
  import opened Ticker
  import HuobiStream
  import BinanceStream
  import GeminiStream
  import PoloniexStream
  import BittrexStream
  import GdaxStream

  datatype Venue = Huobi | Binance | Gemini | Poloniex | Bittrex | Gdax

  /** Which of the client's own methods a registration names: its handleTickerUpdate or Huobi's handlePingMessage. */
  datatype Handler = TickerHandler | PingHandler

  /** The connection future: not yet done, completed, or completed exceptionally. */
  datatype FutureState = Incomplete | Completed | Failed

  // ------------------------------------------------------ classification

  /** Binance's 24-hour ticker tag. */
  predicate IsTaggedTicker(m: Json) {
    Has(m, "e") && AsText(Get(m, "e").value) == "24hrTicker"
  }

  /** A combined-stream wrapper naming a ticker stream. */
  predicate IsStreamWrapper(m: Json) {
    Has(m, "stream") && Contains(AsText(Get(m, "stream").value), "@ticker")
  }

  /** Kraken's array form. */
  predicate IsKrakenArray(m: Json) {
    IsArray(m) && Size(m) > 1
  }

  /** Huobi's channel form. */
  predicate IsHuobiTicker(m: Json) {
    Has(m, "ch") && Contains(AsText(Get(m, "ch").value), "ticker") && Has(m, "tick")
  }

  /**
   * onMessage's classification: the payload handed to the "ticker" handler,
   * or None when the frame is not a ticker message, or is a stream message
   * without `data`. The first rule that matches decides: a frame is handed
   * over whole unless it is an untagged stream wrapper, which hands over
   * its `data` (and nothing when `data` is missing, whatever later rules say).
   */
  function TickerPayload(m: Json): (r: Option<Json>)
    ensures r.Some? <==>
      || IsTaggedTicker(m)
      || (IsStreamWrapper(m) && Has(m, "data"))
      || (!IsStreamWrapper(m) && (IsKrakenArray(m) || IsHuobiTicker(m)))
    ensures r.Some? && !IsTaggedTicker(m) && IsStreamWrapper(m) ==> r == Get(m, "data")
    ensures r.Some? && (IsTaggedTicker(m) || !IsStreamWrapper(m)) ==> r == Some(m)
    ensures m.JArr? ==> (r.Some? <==> |m.items| > 1)
    ensures !m.JObj? && !m.JArr? ==> r.None?
  {
    if IsTaggedTicker(m) then Some(m)
    else if IsStreamWrapper(m) then Get(m, "data")
    else if IsKrakenArray(m) then Some(m)
    else if IsHuobiTicker(m) then Some(m)
    else None
  }

  /** A 24-hour ticker tag decides before anything else: the whole message is the payload, even a stream wrapper. */
  lemma TaggedTickerWins(name: string, d: Json, rest: seq<Field>)
    requires Contains(name, "@ticker")
    ensures var m := JObj([Field("e", JStr("24hrTicker")), Field("stream", JStr(name)), Field("data", d)] + rest);
      TickerPayload(m) == Some(m)
  {
  }

  /** A stream wrapper hands over its `data`, not itself. */
  lemma StreamWrapperHandsData(name: string, d: Json)
    requires Contains(name, "@ticker")
    ensures TickerPayload(JObj([Field("stream", JStr(name)), Field("data", d)])) == Some(d)
  {
    var f := [Field("stream", JStr(name)), Field("data", d)];
    assert DistinctKeys(f);
    LookupDistinct(f, 1);
  }

  /** Binance's push is the payload as it stands. */
  lemma BinancePushIsPayload(symbol: string, bid: Number, ask: Number)
    ensures TickerPayload(BinanceStream.TickerPush(symbol, bid, ask)) == Some(BinanceStream.TickerPush(symbol, bid, ask))
  {
  }

  /** Huobi's push matches the last rule, and is the payload as it stands. */
  lemma HuobiPushIsPayload(symbol: string, ts: Number, bid: Number, ask: Number)
    ensures TickerPayload(HuobiStream.TickerPush(symbol, ts, bid, ask)) == Some(HuobiStream.TickerPush(symbol, ts, bid, ask))
  {
    HuobiStream.TickerPushFields(symbol, ts, bid, ask);
    HuobiStream.ChannelMentionsTicker(symbol);
  }

  /** The flat pushes of Poloniex, Bittrex and GDAX match no rule: their handlers never see them. */
  lemma FlatPushesAreNotPayloads(symbol: string, bid: Number, ask: Number, last: Number)
    ensures TickerPayload(PoloniexStream.TickerPush(symbol, bid, ask, last)).None?
    ensures TickerPayload(BittrexStream.TickerPush(symbol, bid, ask, last)).None?
    ensures TickerPayload(GdaxStream.TickerPush(symbol, bid, ask, last)).None?
  {
  }

  // ------------------------------------------------------ handling

  /** The handlers each venue's constructor registers. */
  function InitialHandlers(venue: Venue): map<string, Handler> {
    match venue
    case Huobi => map["ticker" := TickerHandler, "ping" := PingHandler]
    case Binance => map["ticker" := TickerHandler]
    case _ => map[]
  }

  /** The handlers each venue's onOpen registers after the base class's. */
  function OpenHandlers(venue: Venue): map<string, Handler> {
    match venue
    case Gemini => map[GeminiStream.HandlerType := TickerHandler]
    case Poloniex => map["ticker" := TickerHandler]
    case Bittrex => map["ticker" := TickerHandler]
    case Gdax => map["ticker" := TickerHandler]
    case _ => map[]
  }

  /** The cache entry each venue's handleTickerUpdate writes for `data`, if any. */
  ghost function VenueUpdate(venue: Venue, data: Json, exchange: Option<ExchangeRef>): Option<CacheEntry> {
    match venue
    case Huobi => HuobiStream.TickerUpdate(data, exchange)
    case Binance => BinanceStream.TickerUpdate(data, exchange)
    case Gemini => GeminiStream.TickerUpdate(data, exchange)
    case Poloniex => PoloniexStream.TickerUpdate(data, exchange)
    case Bittrex => BittrexStream.TickerUpdate(data, exchange)
    case Gdax => GdaxStream.TickerUpdate(data, exchange)
  }

  /**
   * The cache entry a text frame leads to: Huobi's processMessage, or for the
   * other venues the "ticker" handler on the classified payload.
   */
  ghost function TextEntry(venue: Venue, handlers: map<string, Handler>, parsed: Option<Json>,
                           exchange: Option<ExchangeRef>): Option<CacheEntry>
  {
    if parsed.None? then None
    else if venue == Huobi then HuobiStream.ProcessMessage(parsed.value, exchange).entry
    else
      match TickerPayload(parsed.value)
      case Some(d) => if "ticker" in handlers then VenueUpdate(venue, d, exchange) else None
      case None => None
  }

  /** The cache after a handler wrote `entry`: that key now holds its ticker, and nothing else changed. */
  function CacheAfter(cache: map<string, TickerData>, entry: Option<CacheEntry>): (r: map<string, TickerData>)
    ensures entry.None? ==> r == cache
    ensures entry.Some? ==> r.Keys == cache.Keys + {entry.value.key} && r[entry.value.key] == entry.value.ticker
    ensures forall k :: k in cache && (entry.None? || k != entry.value.key) ==> k in r && r[k] == cache[k]
  {
    if entry.Some? then cache[entry.value.key := entry.value.ticker] else cache
  }

  /** The callback's calls after a handler wrote `entry`: this ticker once if a callback is set. */
  function DeliveredAfter(delivered: seq<TickerData>, entry: Option<CacheEntry>, hasCallback: bool): (r: seq<TickerData>)
    ensures |delivered| <= |r| <= |delivered| + 1 && r[..|delivered|] == delivered
    ensures |r| == |delivered| + 1 <==> entry.Some? && hasCallback
    ensures |r| == |delivered| + 1 ==> r[|delivered|] == entry.value.ticker
  {
    if entry.Some? && hasCallback then delivered + [entry.value.ticker] else delivered
  }

  /** A Binance ticker push for a known pair is cached under its symbol. */
  lemma BinancePushCached(handlers: map<string, Handler>, symbol: string, bid: Number, ask: Number,
                          exchange: Option<ExchangeRef>)
    requires "ticker" in handlers && ConvertSymbolToCurrencyPair(symbol).Some?
    ensures TextEntry(Binance, handlers, Some(BinanceStream.TickerPush(symbol, bid, ask)), exchange) ==
      Some(CacheEntry(symbol, Quoted(ConvertSymbolToCurrencyPair(symbol).value, exchange, bid.value, ask.value)))
  {
    BinancePushIsPayload(symbol, bid, ask);
    BinanceStream.TickerPushDecodes(symbol, bid, ask, exchange);
  }

  /** A Huobi ticker push for a known pair is cached under its upper-cased symbol, whatever handlers are registered. */
  lemma HuobiPushCached(handlers: map<string, Handler>, symbol: string, ts: Number, bid: Number, ask: Number,
                        exchange: Option<ExchangeRef>)
    requires '.' !in symbol && ConvertSymbolToCurrencyPair(symbol).Some?
    ensures TextEntry(Huobi, handlers, Some(HuobiStream.TickerPush(symbol, ts, bid, ask)), exchange) ==
      Some(CacheEntry(ToUpper(symbol), Quoted(ConvertSymbolToCurrencyPair(symbol).value, exchange, bid.value, ask.value)))
  {
    var m := HuobiStream.TickerPush(symbol, ts, bid, ask);
    assert !Has(m, "ping") && !Has(m, "subbed");
    HuobiStream.TickerPushDecodes(symbol, ts, bid, ask, exchange);
  }

  /** With only the handlers its own code registers, a Gemini client never caches anything from a frame. */
  lemma GeminiRegistrationNeverFires(parsed: Option<Json>, exchange: Option<ExchangeRef>)
    ensures TextEntry(Gemini, InitialHandlers(Gemini) + OpenHandlers(Gemini), parsed, exchange).None?
  {
    assert "ticker" !in InitialHandlers(Gemini) + OpenHandlers(Gemini);
  }

  /** The subscription frame each venue's subscribeToTicker builds; `now` is Huobi's millisecond clock reading. */
  function SubscriptionFor(venue: Venue, symbol: string, now: int): string {
    match venue
    case Huobi => HuobiStream.SubscriptionMessage(symbol, now)
    case Binance => BinanceStream.SubscriptionMessage(symbol)
    case Gemini => GeminiStream.SubscriptionMessage(symbol)
    case Poloniex => PoloniexStream.SubscriptionMessage(symbol)
    case Bittrex => BittrexStream.SubscriptionMessage(symbol)
    case Gdax => GdaxStream.SubscriptionMessage(symbol)
  }

  class ExchangeWebSocketClient {
    const venue: Venue
    /** The isConnected flag the callbacks set and clear. */
    var connected: bool
    var future: FutureState
    var handlers: map<string, Handler>
    var sent: seq<string>
    var tickerCache: map<string, TickerData>
    /** Whether a ticker callback is set, and the tickers it was called with, in order. */
    var hasCallback: bool
    var delivered: seq<TickerData>
    var exchange: Option<ExchangeRef>

    /** Binance always holds its own exchange instance, and only Huobi has a ping handler. */
    ghost predicate Valid()
      reads this
    {
      && (venue == Binance ==> exchange.Some?)
      && (forall k :: k in handlers && handlers[k] == PingHandler ==> venue == Huobi)
    }

    /**
     * The venue's constructor. Huobi and Binance register their handlers
     * here; the other four assign their exchange field to itself, so it stays
     * null whatever is passed.
     */
    constructor (venue: Venue, exchange: Option<ExchangeRef>)
      requires venue == Binance ==> exchange.Some?
      ensures Valid() && this.venue == venue
      ensures !connected && future == Incomplete && handlers == InitialHandlers(venue)
      ensures sent == [] && tickerCache == map[] && !hasCallback && delivered == []
      ensures this.exchange == if venue == Huobi || venue == Binance then exchange else None
    {
      this.venue := venue;
      connected := false;
      future := Incomplete;
      handlers := InitialHandlers(venue);
      sent := [];
      tickerCache := map[];
      hasCallback := false;
      delivered := [];
      this.exchange := if venue == Huobi || venue == Binance then exchange else None;
    }

    /** onOpen: connected, the future completed if it was not done, then the venue's own registrations. */
    method OnOpen()
      requires Valid()
      modifies this`connected, this`future, this`handlers
      ensures Valid() && connected
      ensures future == if old(future) == Incomplete then Completed else old(future)
      ensures handlers == old(handlers) + OpenHandlers(venue)
    {
      connected := true;
      if future == Incomplete {
        future := Completed;
      }
      handlers := handlers + OpenHandlers(venue);
    }

    method OnClose()
      modifies this`connected
      ensures !connected
    {
      connected := false;
    }

    /** onError: disconnected, and the future fails only if it was not already done. */
    method OnError()
      modifies this`connected, this`future
      ensures !connected
      ensures future == if old(future) == Incomplete then Failed else old(future)
    {
      connected := false;
      if future == Incomplete {
        future := Failed;
      }
    }

    /** registerMessageHandler: the key now names this handler; every other key is as it was. */
    method RegisterMessageHandler(messageType: string, handler: Handler)
      requires Valid() && (handler == PingHandler ==> venue == Huobi)
      modifies this`handlers
      ensures Valid() && handlers == old(handlers)[messageType := handler]
    {
      handlers := handlers[messageType := handler];
    }

    /** isConnected(): the flag, and the library has not closed the socket. */
    method IsConnected(socketClosed: bool) returns (b: bool)
      ensures b <==> connected && !socketClosed
    {
      b := connected && !socketClosed;
    }

    /** subscribe: the frame is sent only while connected. */
    method Subscribe(message: string, socketClosed: bool)
      modifies this`sent
      ensures sent == old(sent) + if connected && !socketClosed then [message] else []
    {
      var ok := IsConnected(socketClosed);
      if ok {
        sent := sent + [message];
      }
    }

    /** subscribeToTicker: the venue's subscription frame, sent only while connected. */
    method SubscribeToTicker(symbol: string, now: int, socketClosed: bool)
      modifies this`sent
      ensures sent == old(sent) + if connected && !socketClosed then [SubscriptionFor(venue, symbol, now)] else []
    {
      Subscribe(SubscriptionFor(venue, symbol, now), socketClosed);
    }

    method SetTickerUpdateCallback(callbackSet: bool)
      modifies this`hasCallback
      ensures hasCallback == callbackSet
    {
      hasCallback := callbackSet;
    }

    /** setExchange, which the four venues without their own exchange instance offer. */
    method SetExchange(e: Option<ExchangeRef>)
      requires venue != Huobi && venue != Binance
      requires Valid()
      modifies this`exchange
      ensures Valid() && exchange == e
    {
      exchange := e;
    }

    method GetLatestTicker(symbol: string) returns (t: Option<TickerData>)
      ensures t.Some? <==> symbol in tickerCache
      ensures t.Some? ==> t.value == tickerCache[symbol]
    {
      t := if symbol in tickerCache then Some(tickerCache[symbol]) else None;
    }

    /** The put into the cache, then the callback if set. */
    method Store(entry: Option<CacheEntry>)
      modifies this`tickerCache, this`delivered
      ensures tickerCache == CacheAfter(old(tickerCache), entry)
      ensures delivered == DeliveredAfter(old(delivered), entry, hasCallback)
    {
      if entry.Some? {
        tickerCache := tickerCache[entry.value.key := entry.value.ticker];
        if hasCallback {
          delivered := delivered + [entry.value.ticker];
        }
      }
    }

    /** The venue's handleTickerUpdate on a payload. */
    method HandleTickerUpdate(data: Json)
      modifies this`tickerCache, this`delivered
      ensures tickerCache == CacheAfter(old(tickerCache), VenueUpdate(venue, data, exchange))
      ensures delivered == DeliveredAfter(old(delivered), VenueUpdate(venue, data, exchange), hasCallback)
    {
      var entry: Option<CacheEntry>;
      match venue {
        case Huobi => entry := HuobiStream.TickerUpdate(data, exchange);
        case Binance => entry := BinanceStream.TickerUpdate(data, exchange);
        case Gemini => entry := GeminiStream.HandleTickerUpdate(data, exchange);
        case Poloniex => entry := PoloniexStream.TickerUpdate(data, exchange);
        case Bittrex => entry := BittrexStream.TickerUpdate(data, exchange);
        case Gdax => entry := GdaxStream.TickerUpdate(data, exchange);
      }
      Store(entry);
    }

    /** Huobi's processMessage: the pong it sends and the entry it writes. */
    method ProcessMessage(m: Json)
      requires venue == Huobi
      modifies this`tickerCache, this`delivered, this`sent
      ensures sent == old(sent) + HuobiStream.ProcessMessage(m, exchange).sent
      ensures tickerCache == CacheAfter(old(tickerCache), HuobiStream.ProcessMessage(m, exchange).entry)
      ensures delivered == DeliveredAfter(old(delivered), HuobiStream.ProcessMessage(m, exchange).entry, hasCallback)
    {
      var effect := HuobiStream.ProcessMessage(m, exchange);
      sent := sent + effect.sent;
      Store(effect.entry);
    }

    /** onMessage(String): Huobi's own processing, or the base class's classification and dispatch. */
    method OnTextMessage(parsed: Option<Json>)
      requires Valid()
      modifies this`tickerCache, this`delivered, this`sent
      ensures sent == old(sent) +
        if venue == Huobi && parsed.Some? then HuobiStream.ProcessMessage(parsed.value, exchange).sent else []
      ensures tickerCache == CacheAfter(old(tickerCache), TextEntry(venue, handlers, parsed, exchange))
      ensures delivered == DeliveredAfter(old(delivered), TextEntry(venue, handlers, parsed, exchange), hasCallback)
    {
      if parsed.None? {
        return;
      }
      if venue == Huobi {
        ProcessMessage(parsed.value);
        return;
      }
      var payload := TickerPayload(parsed.value);
      if payload.Some? && "ticker" in handlers {
        HandleTickerUpdate(payload.value);
      }
    }

    /** onMessage(ByteBuffer): Huobi processes the inflated frame like a text frame; the others ignore binary frames. */
    method OnBinaryMessage(parsed: Option<Json>)
      requires Valid()
      modifies this`tickerCache, this`delivered, this`sent
      ensures venue != Huobi ==> sent == old(sent) && tickerCache == old(tickerCache) && delivered == old(delivered)
      ensures venue == Huobi ==>
        && sent == old(sent) + (if parsed.Some? then HuobiStream.ProcessMessage(parsed.value, exchange).sent else [])
        && tickerCache == CacheAfter(old(tickerCache), TextEntry(venue, handlers, parsed, exchange))
        && delivered == DeliveredAfter(old(delivered), TextEntry(venue, handlers, parsed, exchange), hasCallback)
    {
      if venue == Huobi && parsed.Some? {
        ProcessMessage(parsed.value);
      }
    }
  }
}
