/**
 * websocket/GeminiWebSocketClient: the pure part of the streaming Gemini
 * client. A level-2 update carries a `symbol` and a `changes` list; the
 * handler walks the list keeping the price of the last change on each side,
 * and caches a ticker when both sides were seen. The subscription names the
 * symbol with its slash removed, in lower case.
 */
module GeminiStream {
  import opened Wrappers
  import opened Text
  import opened Json
  import opened Ticker

  /** The message type the handler is registered under on open. */
  const HandlerType: string := "l2_updates"

  /** A change the loop reads without throwing: a `side` field and a numeral `price`. */
  predicate Readable(c: Json) {
    FieldText(c, "side").Some? && FieldDecimal(c, "price").Some?
  }

  predicate AllReadable(changes: seq<Json>) {
    forall i :: 0 <= i < |changes| ==> Readable(changes[i])
  }

  function Side(c: Json): Option<string> {
    FieldText(c, "side")
  }

  /** The price of the last change on `side`, or None when no change is on that side. */
  function LastPrice(changes: seq<Json>, side: string): Option<real> {
    if changes == [] then None
    else if Side(changes[|changes| - 1]) == Some(side) then FieldDecimal(changes[|changes| - 1], "price")
    else LastPrice(changes[..|changes| - 1], side)
  }

  /** Change `i` is on `side` and no later change is. */
  ghost predicate LastOn(changes: seq<Json>, side: string, i: int) {
    0 <= i < |changes| && Side(changes[i]) == Some(side)
    && forall j :: i < j < |changes| ==> Side(changes[j]) != Some(side)
  }

  /** Dropping the last change keeps the sides of the others. */
  lemma SidesOfInit(changes: seq<Json>)
    requires changes != []
    ensures var init := changes[..|changes| - 1];
      && (AllReadable(changes) ==> AllReadable(init))
      && forall i :: 0 <= i < |init| ==> init[i] == changes[i]
  {
  }

  /** No price on a side exactly when no change is on that side. */
  lemma {:induction false} LastPriceNoneIff(changes: seq<Json>, side: string)
    requires AllReadable(changes)
    ensures LastPrice(changes, side).None? <==> forall i :: 0 <= i < |changes| ==> Side(changes[i]) != Some(side)
  {
    if changes != [] {
      var n := |changes| - 1;
      SidesOfInit(changes);
      LastPriceNoneIff(changes[..n], side);
      assert Readable(changes[n]);
    }
  }

  /** Otherwise the price is that of the change that is last on its side. */
  lemma {:induction false} LastPriceIsLastOn(changes: seq<Json>, side: string)
    requires LastPrice(changes, side).Some?
    ensures exists i :: LastOn(changes, side, i) && LastPrice(changes, side) == FieldDecimal(changes[i], "price")
  {
    var n := |changes| - 1;
    if Side(changes[n]) == Some(side) {
      assert LastOn(changes, side, n);
    } else {
      var init := changes[..n];
      SidesOfInit(changes);
      LastPriceIsLastOn(init, side);
      var k :| LastOn(init, side, k) && LastPrice(init, side) == FieldDecimal(init[k], "price");
      assert LastOn(changes, side, k);
    }
  }

  /**
   * handleTickerUpdate: the cache entry it writes, if any. A missing symbol,
   * or a change without a side or a numeral price, throws and is caught:
   * nothing is written, whatever the other changes hold.
   */
  ghost function TickerUpdate(m: Json, exchange: Option<ExchangeRef>): (r: Option<CacheEntry>)
    ensures r.Some? <==>
      && FieldText(m, "symbol").Some? && Has(m, "changes")
      && AllReadable(Elements(Get(m, "changes").value))
      && LastPrice(Elements(Get(m, "changes").value), "bid").Some?
      && LastPrice(Elements(Get(m, "changes").value), "ask").Some?
    ensures r.Some? ==> r.value.key == FieldText(m, "symbol").value
  {
    if FieldText(m, "symbol").Some? && Has(m, "changes") then
      var changes := Elements(Get(m, "changes").value);
      if AllReadable(changes) then
        match (LastPrice(changes, "bid"), LastPrice(changes, "ask"))
        case (Some(bid), Some(ask)) => Some(CacheEntry(FieldText(m, "symbol").value, WithLast(exchange, bid, ask, bid)))
        case _ => None
      else None
    else None
  }

  /** The ticker cached: the last bid and ask seen, the bid again as the last price, and no pair. */
  lemma TickerFromLastChanges(m: Json, exchange: Option<ExchangeRef>)
    requires TickerUpdate(m, exchange).Some?
    ensures var changes := Elements(Get(m, "changes").value);
      TickerUpdate(m, exchange).value.ticker ==
        TickerData(None, exchange, LastPrice(changes, "bid"), LastPrice(changes, "ask"), LastPrice(changes, "bid"))
  {
  }

  /** An update that touches only one side of the book writes nothing. */
  lemma OneSidedUpdateDropped(m: Json, exchange: Option<ExchangeRef>)
    requires Has(m, "changes")
    requires forall c :: c in Elements(Get(m, "changes").value) ==> Side(c) != Some("ask")
    ensures TickerUpdate(m, exchange).None?
  {
    var changes := Elements(Get(m, "changes").value);
    if AllReadable(changes) {
      forall i | 0 <= i < |changes| ensures Side(changes[i]) != Some("ask") {
        assert changes[i] in changes;
      }
      LastPriceNoneIff(changes, "ask");
    }
  }

  /** The handler's loop: one pass over the changes, stopping at the first that throws. */
  method HandleTickerUpdate(m: Json, exchange: Option<ExchangeRef>) returns (r: Option<CacheEntry>)
    ensures r == TickerUpdate(m, exchange)
  {
    var symbol := FieldText(m, "symbol");
    if symbol.None? || !Has(m, "changes") {
      return None;
    }
    var changes := Elements(Get(m, "changes").value);
    var bestBid: Option<real> := None;
    var bestAsk: Option<real> := None;
    var i := 0;
    while i < |changes|
      invariant 0 <= i <= |changes|
      invariant AllReadable(changes[..i])
      invariant bestBid == LastPrice(changes[..i], "bid")
      invariant bestAsk == LastPrice(changes[..i], "ask")
    {
      var side := FieldText(changes[i], "side");
      if side.None? {
        assert !Readable(changes[i]);
        return None;
      }
      var price := FieldDecimal(changes[i], "price");
      if price.None? {
        assert !Readable(changes[i]);
        return None;
      }
      if side.value == "bid" {
        bestBid := price;
      } else if side.value == "ask" {
        bestAsk := price;
      }
      assert changes[..i + 1][..i] == changes[..i];
      i := i + 1;
    }
    assert changes[..i] == changes;
    if bestBid.Some? && bestAsk.Some? {
      return Some(CacheEntry(symbol.value, WithLast(exchange, bestBid.value, bestAsk.value, bestBid.value)));
    }
    return None;
  }

  // ------------------------------------------------------ subscribeToTicker

  /** The symbol as Gemini names it: slashes removed, lower case. */
  function GeminiSymbol(symbol: string): (r: string)
    ensures '/' !in r
    ensures forall i :: 0 <= i < |r| ==> !('A' <= r[i] <= 'Z')
    ensures '/' !in symbol ==> r == ToLower(symbol)
  {
    LowerKeepsNonLetter(Replace(symbol, '/', ""), '/');
    ToLower(Replace(symbol, '/', ""))
  }

  const SubscriptionPrefix: string := "{\"type\": \"subscribe\", \"subscriptions\": [{\"name\": \"l2\", \"symbols\": [\""
  const SubscriptionSuffix: string := "\"]}]}"

  function SubscriptionMessage(symbol: string): string {
    SubscriptionPrefix + GeminiSymbol(symbol) + SubscriptionSuffix
  }

  /** The symbol subscribed to is the Gemini name of the one asked for. */
  lemma SubscriptionNamesSymbol(symbol: string)
    ensures Between(SubscriptionMessage(symbol), SubscriptionPrefix, SubscriptionSuffix) == Some(GeminiSymbol(symbol))
  {
    BetweenFrame(SubscriptionPrefix, GeminiSymbol(symbol), SubscriptionSuffix);
  }
}
