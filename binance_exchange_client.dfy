/**
 * exchange/binance/BinanceWebSocketClient: Binance pushes plain JSON text; the
 * client reads the best bid `b` and best ask `a` and reports them. It keeps no
 * state of its own and never reconnects. readTree is an input: the tree built
 * from the frame, or None when it throws.
 */
module BinanceExchangeClient {
  import opened Wrappers
  import opened Json
  import opened WebSocketMessageHandler

  /** The venue name handed to handlePriceUpdate. */
  const ExchangeName: string := "币安"

  /**
   * handleBinanceMessage: get("b") and get("a") are null on a missing field or
   * a non-object, and the NullPointerException of asDouble() is caught, so an
   * update is reported exactly when both fields are present.
   */
  function Decode(parsed: Option<Json>): (r: Option<PriceUpdate>)
    ensures r.Some? <==> parsed.Some? && Has(parsed.value, "b") && Has(parsed.value, "a")
    ensures r.Some? ==> r.value.exchange == ExchangeName
    ensures r.Some? ==> r.value.bestBid == AsDouble(Get(parsed.value, "b").value)
    ensures r.Some? ==> r.value.bestAsk == AsDouble(Get(parsed.value, "a").value)
  {
    if parsed.None? then None
    else
      match (Get(parsed.value, "b"), Get(parsed.value, "a"))
      case (Some(b), Some(a)) => Some(PriceUpdate(ExchangeName, AsDouble(b), AsDouble(a)))
      case _ => None
  }

  /** The encoding a book-ticker push has on the wire, as far as the decoder looks. */
  function BookTicker(symbol: string, bid: Number, ask: Number): Json {
    JObj([Field("s", JStr(symbol)), Field("b", JNum(bid)), Field("a", JNum(ask))])
  }

  /** A book-ticker push decodes to its own bid and ask under the Binance name. */
  lemma BookTickerDecodes(symbol: string, bid: Number, ask: Number)
    ensures Decode(Some(BookTicker(symbol, bid, ask))) == Some(PriceUpdate(ExchangeName, bid.value, ask.value))
  {
    var f := BookTicker(symbol, bid, ask).fields;
    assert f[1..] == [Field("b", JNum(bid)), Field("a", JNum(ask))];
    assert f[1..][1..] == [Field("a", JNum(ask))];
    assert Lookup(f, "b") == Some(JNum(bid));
    assert Lookup(f[1..][1..], "a") == Some(JNum(ask));
    assert Lookup(f, "a") == Some(JNum(ask));
  }

  /** A frame that did not parse, or lacks either field, reports nothing. */
  lemma IncompleteFrameDropped(j: Json)
    requires !Has(j, "b") || !Has(j, "a")
    ensures Decode(None).None? && Decode(Some(j)).None?
  {
  }

  class BinanceWebSocketClient {
    /** Calls of messageHandler.handlePriceUpdate, in order. */
    var updates: seq<PriceUpdate>

    constructor ()
      ensures updates == []
    {
      updates := [];
    }

    /** onMessage: one update per decodable frame, none otherwise; no error escapes. */
    method OnMessage(parsed: Option<Json>)
      modifies this
      ensures Decode(parsed).Some? ==> updates == old(updates) + [Decode(parsed).value]
      ensures Decode(parsed).None? ==> updates == old(updates)
    {
      var u := Decode(parsed);
      if u.Some? {
        updates := updates + [u.value];
      }
    }

    /** onOpen, onClose and onError only log: nothing is sent and no reconnect is scheduled. */
    method OnOpen()
    {
    }

    method OnClose()
    {
    }

    method OnError()
    {
    }
  }
}
