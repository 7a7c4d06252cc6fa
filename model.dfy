/**
 * The two mutable records of the bot: a market quote row (MarketData) and a
 * detected arbitrage opportunity (ArbitrageOpportunity). Each Java field that
 * may hold null is an Option; BigDecimal is an exact real, Long an int and
 * LocalDateTime an abstract instant. Getters are the field reads themselves.
 */
module Model {
  import opened Wrappers
  import Text

  /** A java.time.LocalDateTime, kept abstract. */
  type Instant = int

  /** String.valueOf of a possibly null String, as `+` concatenation does it. */
  function Str(s: Option<string>): string {
    match s
    case None => "null"
    case Some(v) => v
  }

  /** String.valueOf of a possibly null Long. */
  function LongStr(n: Option<int>): string {
    match n
    case None => "null"
    case Some(v) => Text.IntToString(v)
  }

  /** String.valueOf of a possibly null BigDecimal; the digits of a non-null one come from `render`. */
  function DecStr(d: Option<real>, render: real -> string): string {
    match d
    case None => "null"
    case Some(v) => render(v)
  }

  // ---------------------------------------------------------------- MarketData

  datatype MarketDataFields = MarketDataFields(
    id: Option<int>,
    exchange: Option<string>,
    symbol: Option<string>,
    bidPrice: Option<real>,
    askPrice: Option<real>,
    bidVolume: Option<real>,
    askVolume: Option<real>,
    timestamp: Option<int>,
    createdAt: Option<Instant>)

  const NoMarketData := MarketDataFields(None, None, None, None, None, None, None, None, None)

  /** The text MarketData.toString assembles from the five rendered fields. */
  function MarketDataText(ex: string, sy: string, bid: string, ask: string, ts: string): string {
    "MarketData{exchange='" + ex + "', symbol='" + sy + "', bidPrice=" + bid
      + ", askPrice=" + ask + ", timestamp=" + ts + "}"
  }

  lemma MarketDataTextPieces(ex: string, sy: string, bid: string, ask: string, ts: string)
    ensures var r := MarketDataText(ex, sy, bid, ask, ts);
      && Text.StartsWith(r, "MarketData{exchange='" + ex + "', symbol='")
      && Text.EndsWith(r, ", timestamp=" + ts + "}")
  {
    var r := MarketDataText(ex, sy, bid, ask, ts);
    var head := "MarketData{exchange='" + ex + "', symbol='";
    var tail := ", timestamp=" + ts + "}";
    assert r == head + (sy + "', bidPrice=" + bid + ", askPrice=" + ask) + tail;
    Text.Unframe(head, sy + "', bidPrice=" + bid + ", askPrice=" + ask, tail);
  }

  lemma MarketDataSymbolPiece(ex: string, sy: string, bid: string, ask: string, ts: string)
    ensures Text.Contains(MarketDataText(ex, sy, bid, ask, ts), "', symbol='" + sy + "', bidPrice=")
  {
    var a := "MarketData{exchange='" + ex;
    var t := "', symbol='" + sy + "', bidPrice=";
    var b := bid + ", askPrice=" + ask + ", timestamp=" + ts + "}";
    assert MarketDataText(ex, sy, bid, ask, ts) == a + t + b;
    Text.ContainsInfix(a, t, b);
  }

  lemma MarketDataBidPiece(ex: string, sy: string, bid: string, ask: string, ts: string)
    ensures Text.Contains(MarketDataText(ex, sy, bid, ask, ts), "', bidPrice=" + bid + ", askPrice=")
  {
    var a := "MarketData{exchange='" + ex + "', symbol='" + sy;
    var t := "', bidPrice=" + bid + ", askPrice=";
    var b := ask + ", timestamp=" + ts + "}";
    assert MarketDataText(ex, sy, bid, ask, ts) == a + t + b;
    Text.ContainsInfix(a, t, b);
  }

  lemma MarketDataAskPiece(ex: string, sy: string, bid: string, ask: string, ts: string)
    ensures Text.Contains(MarketDataText(ex, sy, bid, ask, ts), ", askPrice=" + ask + ", timestamp=")
  {
    var a := "MarketData{exchange='" + ex + "', symbol='" + sy + "', bidPrice=" + bid;
    var t := ", askPrice=" + ask + ", timestamp=";
    var b := ts + "}";
    assert MarketDataText(ex, sy, bid, ask, ts) == a + t + b;
    Text.ContainsInfix(a, t, b);
  }

  /**
   * MarketData.toString on a snapshot of the fields: each field's text stands
   * between its own label and the next one's, in declaration order.
   */
  function ShowMarketData(f: MarketDataFields, render: real -> string): (r: string)
    ensures Text.StartsWith(r, "MarketData{exchange='" + Str(f.exchange) + "', symbol='")
    ensures Text.Contains(r, "', symbol='" + Str(f.symbol) + "', bidPrice=")
    ensures Text.Contains(r, "', bidPrice=" + DecStr(f.bidPrice, render) + ", askPrice=")
    ensures Text.Contains(r, ", askPrice=" + DecStr(f.askPrice, render) + ", timestamp=")
    ensures Text.EndsWith(r, ", timestamp=" + LongStr(f.timestamp) + "}")
  {
    var ex, sy, bid, ask, ts := Str(f.exchange), Str(f.symbol), DecStr(f.bidPrice, render), DecStr(f.askPrice, render), LongStr(f.timestamp);
    MarketDataTextPieces(ex, sy, bid, ask, ts);
    MarketDataSymbolPiece(ex, sy, bid, ask, ts);
    MarketDataBidPiece(ex, sy, bid, ask, ts);
    MarketDataAskPiece(ex, sy, bid, ask, ts);
    MarketDataText(ex, sy, bid, ask, ts)
  }

  /** toString shows exchange, symbol, the two prices and the timestamp, and nothing else. */
  lemma ShowMarketDataOmits(f: MarketDataFields, g: MarketDataFields, render: real -> string)
    requires f.exchange == g.exchange && f.symbol == g.symbol && f.bidPrice == g.bidPrice
    requires f.askPrice == g.askPrice && f.timestamp == g.timestamp
    ensures ShowMarketData(f, render) == ShowMarketData(g, render)
  {
  }

  class MarketData {
    var id: Option<int>
    var exchange: Option<string>
    var symbol: Option<string>
    var bidPrice: Option<real>
    var askPrice: Option<real>
    var bidVolume: Option<real>
    var askVolume: Option<real>
    var timestamp: Option<int>
    var createdAt: Option<Instant>

    function Fields(): MarketDataFields
      reads this
    {
      MarketDataFields(id, exchange, symbol, bidPrice, askPrice, bidVolume, askVolume, timestamp, createdAt)
    }

    /** The no-argument constructor: every field null. */
    constructor Empty()
      ensures Fields() == NoMarketData
    {
      id, exchange, symbol, bidPrice, askPrice := None, None, None, None, None;
      bidVolume, askVolume, timestamp, createdAt := None, None, None, None;
    }

    /** The five-argument constructor: id, the volumes and createdAt stay null. */
    constructor (exchange: Option<string>, symbol: Option<string>, bidPrice: Option<real>,
                 askPrice: Option<real>, timestamp: Option<int>)
      ensures Fields() == NoMarketData.(exchange := exchange, symbol := symbol, bidPrice := bidPrice,
                                        askPrice := askPrice, timestamp := timestamp)
    {
      this.id, this.exchange, this.symbol, this.bidPrice, this.askPrice := None, exchange, symbol, bidPrice, askPrice;
      this.bidVolume, this.askVolume, this.timestamp, this.createdAt := None, None, timestamp, None;
    }

    method SetId(v: Option<int>)
      modifies this
      ensures Fields() == old(Fields()).(id := v)
    {
      id := v;
    }

    method SetExchange(v: Option<string>)
      modifies this
      ensures Fields() == old(Fields()).(exchange := v)
    {
      exchange := v;
    }

    method SetSymbol(v: Option<string>)
      modifies this
      ensures Fields() == old(Fields()).(symbol := v)
    {
      symbol := v;
    }

    method SetBidPrice(v: Option<real>)
      modifies this
      ensures Fields() == old(Fields()).(bidPrice := v)
    {
      bidPrice := v;
    }

    method SetAskPrice(v: Option<real>)
      modifies this
      ensures Fields() == old(Fields()).(askPrice := v)
    {
      askPrice := v;
    }

    method SetBidVolume(v: Option<real>)
      modifies this
      ensures Fields() == old(Fields()).(bidVolume := v)
    {
      bidVolume := v;
    }

    method SetAskVolume(v: Option<real>)
      modifies this
      ensures Fields() == old(Fields()).(askVolume := v)
    {
      askVolume := v;
    }

    method SetTimestamp(v: Option<int>)
      modifies this
      ensures Fields() == old(Fields()).(timestamp := v)
    {
      timestamp := v;
    }

    method SetCreatedAt(v: Option<Instant>)
      modifies this
      ensures Fields() == old(Fields()).(createdAt := v)
    {
      createdAt := v;
    }

    /** toString(): see ShowMarketData. */
    function ToString(render: real -> string): string
      reads this
    {
      ShowMarketData(Fields(), render)
    }
  }

  // ------------------------------------------------------ ArbitrageOpportunity

  datatype OpportunityFields = OpportunityFields(
    id: Option<int>,
    symbol: Option<string>,
    buyExchange: Option<string>,
    sellExchange: Option<string>,
    buyPrice: Option<real>,
    sellPrice: Option<real>,
    profitMargin: Option<real>,
    profitAmount: Option<real>,
    detectedAt: Option<Instant>)

  const NoOpportunity := OpportunityFields(None, None, None, None, None, None, None, None, None)

  /** The snapshot the six-argument constructor produces from non-null arguments. */
  function Opportunity(symbol: string, buyExchange: string, sellExchange: string,
                       buyPrice: real, sellPrice: real, profitMargin: real): OpportunityFields
  {
    NoOpportunity.(symbol := Some(symbol), buyExchange := Some(buyExchange), sellExchange := Some(sellExchange),
                   buyPrice := Some(buyPrice), sellPrice := Some(sellPrice), profitMargin := Some(profitMargin))
  }

  /** The text ArbitrageOpportunity.toString assembles from the six rendered fields. */
  function OpportunityText(sy: string, be: string, se: string, bp: string, sp: string, pm: string): string {
    "ArbitrageOpportunity{symbol='" + sy + "', buyExchange='" + be + "', sellExchange='" + se
      + "', buyPrice=" + bp + ", sellPrice=" + sp + ", profitMargin=" + pm + "%}"
  }

  lemma OpportunityTextEnds(sy: string, be: string, se: string, bp: string, sp: string, pm: string)
    ensures var r := OpportunityText(sy, be, se, bp, sp, pm);
      && Text.StartsWith(r, "ArbitrageOpportunity{symbol='" + sy + "', buyExchange='")
      && Text.EndsWith(r, ", profitMargin=" + pm + "%}")
  {
    var head := "ArbitrageOpportunity{symbol='" + sy + "', buyExchange='";
    var mid := be + "', sellExchange='" + se + "', buyPrice=" + bp + ", sellPrice=" + sp;
    var tail := ", profitMargin=" + pm + "%}";
    assert OpportunityText(sy, be, se, bp, sp, pm) == head + mid + tail;
    Text.Unframe(head, mid, tail);
  }

  lemma OpportunityBuyExchangePiece(sy: string, be: string, se: string, bp: string, sp: string, pm: string)
    ensures Text.Contains(OpportunityText(sy, be, se, bp, sp, pm), "', buyExchange='" + be + "', sellExchange='")
  {
    var a := "ArbitrageOpportunity{symbol='" + sy;
    var t := "', buyExchange='" + be + "', sellExchange='";
    var b := se + "', buyPrice=" + bp + ", sellPrice=" + sp + ", profitMargin=" + pm + "%}";
    assert OpportunityText(sy, be, se, bp, sp, pm) == a + t + b;
    Text.ContainsInfix(a, t, b);
  }

  lemma OpportunitySellExchangePiece(sy: string, be: string, se: string, bp: string, sp: string, pm: string)
    ensures Text.Contains(OpportunityText(sy, be, se, bp, sp, pm), "', sellExchange='" + se + "', buyPrice=")
  {
    var a := "ArbitrageOpportunity{symbol='" + sy + "', buyExchange='" + be;
    var t := "', sellExchange='" + se + "', buyPrice=";
    var b := bp + ", sellPrice=" + sp + ", profitMargin=" + pm + "%}";
    assert OpportunityText(sy, be, se, bp, sp, pm) == a + t + b;
    Text.ContainsInfix(a, t, b);
  }

  lemma OpportunityBuyPricePiece(sy: string, be: string, se: string, bp: string, sp: string, pm: string)
    ensures Text.Contains(OpportunityText(sy, be, se, bp, sp, pm), "', buyPrice=" + bp + ", sellPrice=")
  {
    var a := "ArbitrageOpportunity{symbol='" + sy + "', buyExchange='" + be + "', sellExchange='" + se;
    var t := "', buyPrice=" + bp + ", sellPrice=";
    var b := sp + ", profitMargin=" + pm + "%}";
    assert OpportunityText(sy, be, se, bp, sp, pm) == a + t + b;
    Text.ContainsInfix(a, t, b);
  }

  lemma OpportunitySellPricePiece(sy: string, be: string, se: string, bp: string, sp: string, pm: string)
    ensures Text.Contains(OpportunityText(sy, be, se, bp, sp, pm), ", sellPrice=" + sp + ", profitMargin=")
  {
    var a := "ArbitrageOpportunity{symbol='" + sy + "', buyExchange='" + be + "', sellExchange='" + se
      + "', buyPrice=" + bp;
    var t := ", sellPrice=" + sp + ", profitMargin=";
    var b := pm + "%}";
    assert OpportunityText(sy, be, se, bp, sp, pm) == a + t + b;
    Text.ContainsInfix(a, t, b);
  }

  /**
   * ArbitrageOpportunity.toString on a snapshot of the fields: each field's
   * text stands between its own label and the next one's, and the margin is
   * followed by "%".
   */
  function ShowOpportunity(f: OpportunityFields, render: real -> string): (r: string)
    ensures Text.StartsWith(r, "ArbitrageOpportunity{symbol='" + Str(f.symbol) + "', buyExchange='")
    ensures Text.Contains(r, "', buyExchange='" + Str(f.buyExchange) + "', sellExchange='")
    ensures Text.Contains(r, "', sellExchange='" + Str(f.sellExchange) + "', buyPrice=")
    ensures Text.Contains(r, "', buyPrice=" + DecStr(f.buyPrice, render) + ", sellPrice=")
    ensures Text.Contains(r, ", sellPrice=" + DecStr(f.sellPrice, render) + ", profitMargin=")
    ensures Text.EndsWith(r, ", profitMargin=" + DecStr(f.profitMargin, render) + "%}")
  {
    var sy, be, se := Str(f.symbol), Str(f.buyExchange), Str(f.sellExchange);
    var bp, sp, pm := DecStr(f.buyPrice, render), DecStr(f.sellPrice, render), DecStr(f.profitMargin, render);
    OpportunityTextEnds(sy, be, se, bp, sp, pm);
    OpportunityBuyExchangePiece(sy, be, se, bp, sp, pm);
    OpportunitySellExchangePiece(sy, be, se, bp, sp, pm);
    OpportunityBuyPricePiece(sy, be, se, bp, sp, pm);
    OpportunitySellPricePiece(sy, be, se, bp, sp, pm);
    OpportunityText(sy, be, se, bp, sp, pm)
  }

  /** toString shows symbol through profitMargin; id, profitAmount and detectedAt do not appear. */
  lemma ShowOpportunityOmits(f: OpportunityFields, g: OpportunityFields, render: real -> string)
    requires f.symbol == g.symbol && f.buyExchange == g.buyExchange && f.sellExchange == g.sellExchange
    requires f.buyPrice == g.buyPrice && f.sellPrice == g.sellPrice && f.profitMargin == g.profitMargin
    ensures ShowOpportunity(f, render) == ShowOpportunity(g, render)
  {
  }

  class ArbitrageOpportunity {
    var id: Option<int>
    var symbol: Option<string>
    var buyExchange: Option<string>
    var sellExchange: Option<string>
    var buyPrice: Option<real>
    var sellPrice: Option<real>
    var profitMargin: Option<real>
    var profitAmount: Option<real>
    var detectedAt: Option<Instant>

    function Fields(): OpportunityFields
      reads this
    {
      OpportunityFields(id, symbol, buyExchange, sellExchange, buyPrice, sellPrice, profitMargin, profitAmount, detectedAt)
    }

    /** The no-argument constructor: every field null. */
    constructor Empty()
      ensures Fields() == NoOpportunity
    {
      id, symbol, buyExchange, sellExchange, buyPrice := None, None, None, None, None;
      sellPrice, profitMargin, profitAmount, detectedAt := None, None, None, None;
    }

    /** The six-argument constructor: each argument may be null; id, profitAmount and detectedAt stay null. */
    constructor (symbol: Option<string>, buyExchange: Option<string>, sellExchange: Option<string>,
                 buyPrice: Option<real>, sellPrice: Option<real>, profitMargin: Option<real>)
      ensures Fields() == NoOpportunity.(symbol := symbol, buyExchange := buyExchange, sellExchange := sellExchange,
                                         buyPrice := buyPrice, sellPrice := sellPrice, profitMargin := profitMargin)
    {
      this.id, this.symbol, this.buyExchange, this.sellExchange := None, symbol, buyExchange, sellExchange;
      this.buyPrice, this.sellPrice, this.profitMargin := buyPrice, sellPrice, profitMargin;
      this.profitAmount, this.detectedAt := None, None;
    }

    method SetId(v: Option<int>)
      modifies this
      ensures Fields() == old(Fields()).(id := v)
    {
      id := v;
    }

    method SetSymbol(v: Option<string>)
      modifies this
      ensures Fields() == old(Fields()).(symbol := v)
    {
      symbol := v;
    }

    method SetBuyExchange(v: Option<string>)
      modifies this
      ensures Fields() == old(Fields()).(buyExchange := v)
    {
      buyExchange := v;
    }

    method SetSellExchange(v: Option<string>)
      modifies this
      ensures Fields() == old(Fields()).(sellExchange := v)
    {
      sellExchange := v;
    }

    method SetBuyPrice(v: Option<real>)
      modifies this
      ensures Fields() == old(Fields()).(buyPrice := v)
    {
      buyPrice := v;
    }

    method SetSellPrice(v: Option<real>)
      modifies this
      ensures Fields() == old(Fields()).(sellPrice := v)
    {
      sellPrice := v;
    }

    method SetProfitMargin(v: Option<real>)
      modifies this
      ensures Fields() == old(Fields()).(profitMargin := v)
    {
      profitMargin := v;
    }

    method SetProfitAmount(v: Option<real>)
      modifies this
      ensures Fields() == old(Fields()).(profitAmount := v)
    {
      profitAmount := v;
    }

    method SetDetectedAt(v: Option<Instant>)
      modifies this
      ensures Fields() == old(Fields()).(detectedAt := v)
    {
      detectedAt := v;
    }

    /** toString(): see ShowOpportunity. */
    function ToString(render: real -> string): string
      reads this
    {
      ShowOpportunity(Fields(), render)
    }
  }
}
