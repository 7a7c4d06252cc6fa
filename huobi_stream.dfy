/**
 * websocket/HuobiWebSocketClient: the pure part of the streaming Huobi
 * client. A message is a heartbeat (answered with a pong), a subscription
 * acknowledgement (ignored) or a ticker push on a `market.<symbol>.ticker`
 * channel, whose best bid and ask are cached under the upper-cased symbol.
 */
module HuobiStream {
  import opened Wrappers
  import opened Text
  import opened Json
  import opened Ticker

  /** extractSymbolFromChannel: the second dot-separated part, upper-cased; null with fewer than two parts. */
  function ExtractSymbolFromChannel(channel: string): (r: Option<string>)
    ensures r.Some? ==> |JavaSplit(channel, '.')| >= 2 && r.value == ToUpper(JavaSplit(channel, '.')[1])
    ensures r.None? ==> |JavaSplit(channel, '.')| < 2
  {
    var parts := JavaSplit(channel, '.');
    if |parts| >= 2 then Some(ToUpper(parts[1])) else None
  }

  /** The channel a subscription to `symbol` pushes on. */
  function TickerChannel(symbol: string): string {
    "market." + symbol + ".ticker"
  }

  /** The symbol comes back out of its own channel, upper-cased. */
  lemma ExtractFromTickerChannel(symbol: string)
    requires '.' !in symbol
    ensures ExtractSymbolFromChannel(TickerChannel(symbol)) == Some(ToUpper(symbol))
  {
    assert TickerChannel(symbol) == "market" + ['.'] + symbol + ['.'] + "ticker";
    SplitThree("market", symbol, "ticker", '.');
  }

  /** A channel with fewer than two dot-separated parts has no symbol. */
  lemma ExtractNeedsTwoParts(channel: string)
    requires '.' !in channel
    ensures ExtractSymbolFromChannel(channel).None?
    ensures ExtractSymbolFromChannel(channel + ".").None?
  {
    assert channel + "." == channel + ['.'] + "";
    PiecesAfterPlain(channel, '.', "");
    assert (channel + ".")[|channel|] == '.';
    assert Pieces(channel + ".", '.') == [channel, ""];
    assert DropTrailingEmpty([channel, ""]) == DropTrailingEmpty([channel]);
  }

  /** Every test handleTickerUpdate makes before it writes the cache. */
  ghost predicate IsTickerPush(m: Json) {
    && Has(m, "ch") && Contains(AsText(Get(m, "ch").value), "ticker") && Has(m, "tick")
    && Has(Get(m, "tick").value, "bid") && Has(Get(m, "tick").value, "ask")
    && FieldDecimal(Get(m, "tick").value, "bid").Some? && FieldDecimal(Get(m, "tick").value, "ask").Some?
    && ExtractSymbolFromChannel(AsText(Get(m, "ch").value)).Some?
    && ConvertSymbolToCurrencyPair(ExtractSymbolFromChannel(AsText(Get(m, "ch").value)).value).Some?
  }

  /**
   * handleTickerUpdate: the cache entry it writes, if any. A price that is
   * not a numeral throws in `new BigDecimal`, and a missing symbol throws in
   * the conversion; both are caught, so nothing is written.
   */
  function TickerUpdate(m: Json, exchange: Option<ExchangeRef>): (r: Option<CacheEntry>)
    ensures r.Some? <==> IsTickerPush(m)
    ensures r.Some? ==>
      var symbol := ExtractSymbolFromChannel(AsText(Get(m, "ch").value)).value;
      var tick := Get(m, "tick").value;
      r.value == CacheEntry(symbol, Quoted(ConvertSymbolToCurrencyPair(symbol).value, exchange,
                                           FieldDecimal(tick, "bid").value, FieldDecimal(tick, "ask").value))
  {
    if Has(m, "ch") && Contains(AsText(Get(m, "ch").value), "ticker") && Has(m, "tick") then
      var symbol := ExtractSymbolFromChannel(AsText(Get(m, "ch").value));
      var tick := Get(m, "tick").value;
      if Has(tick, "bid") && Has(tick, "ask") then
        match (FieldDecimal(tick, "bid"), FieldDecimal(tick, "ask"), symbol)
        case (Some(bid), Some(ask), Some(s)) =>
          (match ConvertSymbolToCurrencyPair(s)
           case Some(pair) => Some(CacheEntry(s, Quoted(pair, exchange, bid, ask)))
           case None => None)
        case _ => None
      else None
    else None
  }

  /** A ticker push as Huobi sends it. */
  function TickerPush(symbol: string, ts: Number, bid: Number, ask: Number): Json {
    JObj([Field("ch", JStr(TickerChannel(symbol))), Field("ts", JNum(ts)),
          Field("tick", JObj([Field("bid", JNum(bid)), Field("ask", JNum(ask))]))])
  }

  lemma TickerPushFields(symbol: string, ts: Number, bid: Number, ask: Number)
    ensures var m := TickerPush(symbol, ts, bid, ask);
      && Get(m, "ch") == Some(JStr(TickerChannel(symbol)))
      && Get(m, "tick").Some? && Has(Get(m, "tick").value, "bid") && Has(Get(m, "tick").value, "ask")
      && FieldDecimal(Get(m, "tick").value, "bid") == Some(bid.value)
      && FieldDecimal(Get(m, "tick").value, "ask") == Some(ask.value)
  {
    var m := TickerPush(symbol, ts, bid, ask);
    var tickFields := [Field("bid", JNum(bid)), Field("ask", JNum(ask))];
    assert m.fields[1..][1..] == [Field("tick", JObj(tickFields))];
    assert Lookup(m.fields[1..][1..], "tick") == Some(JObj(tickFields));
    assert Lookup(m.fields[1..], "tick") == Some(JObj(tickFields));
    assert tickFields[1..] == [Field("ask", JNum(ask))];
    assert Lookup(tickFields[1..], "ask") == Some(JNum(ask));
  }

  lemma ChannelMentionsTicker(symbol: string)
    ensures Contains(TickerChannel(symbol), "ticker")
  {
    ContainsInfix("market." + symbol + ".", "ticker", "");
    assert "market." + symbol + "." + "ticker" + "" == TickerChannel(symbol);
  }

  /** A push for a known pair is cached under its upper-cased symbol with exactly its bid and ask. */
  lemma TickerPushDecodes(symbol: string, ts: Number, bid: Number, ask: Number, exchange: Option<ExchangeRef>)
    requires '.' !in symbol && ConvertSymbolToCurrencyPair(symbol).Some?
    ensures TickerUpdate(TickerPush(symbol, ts, bid, ask), exchange) ==
      Some(CacheEntry(ToUpper(symbol), Quoted(ConvertSymbolToCurrencyPair(symbol).value, exchange, bid.value, ask.value)))
  {
    TickerPushFields(symbol, ts, bid, ask);
    ChannelMentionsTicker(symbol);
    ExtractFromTickerChannel(symbol);
    ConvertIgnoresCase(symbol);
  }

  // ------------------------------------------------------ processMessage

  /** String.format("{\"pong\": %d}", v). */
  function PongMessage(v: int): string {
    "{\"pong\": " + IntToString(v) + "}"
  }

  /** Reading the value back out of a pong frame. */
  function PongValue(msg: string): Option<int> {
    match Between(msg, "{\"pong\": ", "}")
    case None => None
    case Some(v) => ParseInt(v)
  }

  lemma PongRoundTrip(v: int)
    ensures PongValue(PongMessage(v)) == Some(v)
  {
    BetweenFrame("{\"pong\": ", IntToString(v), "}");
    IntToStringRoundTrip(v);
  }

  /** What processing one message does: the frames it sends and the cache entry it writes. */
  datatype Effect = Effect(sent: seq<string>, entry: Option<CacheEntry>)

  /** handlePingMessage: a pong echoing the ping's value as a long. */
  function PingReply(m: Json): seq<string> {
    if Has(m, "ping") then [PongMessage(AsLong(Get(m, "ping").value))] else []
  }

  /** processMessage: ping first, then subbed, then a ticker channel; the first that applies decides. */
  function ProcessMessage(m: Json, exchange: Option<ExchangeRef>): (r: Effect)
    ensures Has(m, "ping") ==> r == Effect([PongMessage(AsLong(Get(m, "ping").value))], None)
    ensures !Has(m, "ping") ==> r.sent == []
    ensures r.entry.Some? ==> !Has(m, "ping") && !Has(m, "subbed") && r.entry == TickerUpdate(m, exchange)
    ensures !Has(m, "ping") && !Has(m, "subbed") ==> r.entry == TickerUpdate(m, exchange)
  {
    if Has(m, "ping") then Effect(PingReply(m), None)
    else if Has(m, "subbed") then Effect([], None)
    else if Has(m, "ch") && Contains(AsText(Get(m, "ch").value), "ticker") then Effect([], TickerUpdate(m, exchange))
    else Effect([], None)
  }

  /** A server heartbeat {"ping": n} is answered with {"pong": n} and writes nothing. */
  lemma HeartbeatAnswered(n: int, text: string, exchange: Option<ExchangeRef>)
    ensures ProcessMessage(JObj([Field("ping", JNum(Number(text, n as real)))]), exchange)
      == Effect([PongMessage(n)], None)
  {
    assert Truncate(n as real) == n;
  }

  /** A message that carries both a ping and a ticker is only answered: the ticker is not cached. */
  lemma PingBeatsTicker(symbol: string, ts: Number, bid: Number, ask: Number, p: Json, exchange: Option<ExchangeRef>)
    ensures ProcessMessage(JObj([Field("ping", p)] + TickerPush(symbol, ts, bid, ask).fields), exchange).entry.None?
  {
  }

  // ------------------------------------------------------ subscribeToTicker

  /** subscribeToTicker's text; the millisecond clock reading `now` is rendered by %s. */
  function SubscriptionMessage(symbol: string, now: int): string {
    "{\"sub\": \"" + TickerChannel(ToLower(symbol)) + "\", \"id\": \"ticker_" + IntToString(now) + "\"}"
  }

  /** The channel subscribed to pushes tickers that are cached under the symbol in upper case. */
  lemma SubscribedChannelCachesUpper(symbol: string)
    requires '.' !in symbol
    ensures ExtractSymbolFromChannel(TickerChannel(ToLower(symbol))) == Some(ToUpper(symbol))
  {
    LowerKeepsNonLetter(symbol, '.');
    ExtractFromTickerChannel(ToLower(symbol));
    UpperOfLower(symbol);
  }
}
