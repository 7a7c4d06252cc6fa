/**
 * MarketDataService: validates a quote row and hands valid ones to the
 * MarketDataMapper. The mapper is an abstract sink: each call either succeeds
 * or throws, and the outcome is a parameter. Its queries are oracles whose
 * reply (or failure) is a parameter too.
 */
module MarketDataService {
  import opened Wrappers
  import opened Text
  import opened Model
  import opened Decimal

  /** isValidMarketData on a snapshot of the row's fields. */
  predicate ValidFields(f: MarketDataFields) {
    && !NullOrBlank(f.exchange)
    && !NullOrBlank(f.symbol)
    && Positive(f.bidPrice)
    && Positive(f.askPrice)
    && f.timestamp.Some? && f.timestamp.value > 0
  }

  /** isValidMarketData(marketData). */
  predicate IsValidMarketData(md: MarketData?)
    reads md
  {
    md != null && ValidFields(md.Fields())
  }

  /**
   * A row is valid exactly when its exchange and symbol each hold a character
   * above U+0020, both prices are positive and the timestamp is positive.
   */
  lemma ValidFieldsIff(f: MarketDataFields)
    ensures ValidFields(f) <==>
      && f.exchange.Some? && !Blank(f.exchange.value)
      && f.symbol.Some? && !Blank(f.symbol.value)
      && f.bidPrice.Some? && f.bidPrice.value > 0.0
      && f.askPrice.Some? && f.askPrice.value > 0.0
      && f.timestamp.Some? && f.timestamp.value > 0
  {
    NullOrBlankIff(f.exchange);
    NullOrBlankIff(f.symbol);
  }

  /** Validation does not look at the order of the prices: a crossed quote passes. */
  lemma CrossedQuoteIsValid()
    ensures var f := NoMarketData.(exchange := Some("Binance"), symbol := Some("ethusdt"),
                                   bidPrice := Some(2.0), askPrice := Some(1.0), timestamp := Some(1));
            ValidFields(f) && f.bidPrice.value > f.askPrice.value
  {
    var f := NoMarketData.(exchange := Some("Binance"), symbol := Some("ethusdt"),
                           bidPrice := Some(2.0), askPrice := Some(1.0), timestamp := Some(1));
    ValidFieldsIff(f);
    assert !Blank(f.exchange.value) by { assert !IsTrimmed(f.exchange.value[0]); }
    assert !Blank(f.symbol.value) by { assert !IsTrimmed(f.symbol.value[0]); }
  }

  class MarketDataService {
    /** Every insertMarketData call made, in order. */
    var insertCalls: seq<MarketDataFields>
    /** The rows the mapper accepted. */
    var rows: seq<MarketDataFields>

    constructor ()
      ensures insertCalls == [] && rows == []
    {
      insertCalls, rows := [], [];
    }

    /**
     * saveMarketData: an invalid row is never passed to the mapper; a valid one
     * is passed exactly once, and a mapper failure is swallowed.
     */
    method SaveMarketData(md: MarketData?, insertOk: bool)
      modifies this
      ensures insertCalls == old(insertCalls) + (if IsValidMarketData(md) then [md.Fields()] else [])
      ensures rows == old(rows) + (if IsValidMarketData(md) && insertOk then [md.Fields()] else [])
    {
      if IsValidMarketData(md) {
        insertCalls := insertCalls + [md.Fields()];
        if insertOk {
          rows := rows + [md.Fields()];
        }
      }
    }

    /** getLatestMarketData: the mapper's reply, or an empty list when the query threw. */
    method GetLatestMarketData(exchange: Option<string>, symbol: Option<string>, limit: int,
                               reply: Option<seq<MarketDataFields>>)
      returns (r: seq<MarketDataFields>)
      ensures reply.Some? ==> r == reply.value
      ensures reply.None? ==> r == []
    {
      r := reply.GetOr([]);
    }

    /** getTodayDataCount: the mapper's count, or 0 when the query threw. */
    method GetTodayDataCount(exchange: Option<string>, reply: Option<int>) returns (r: int)
      ensures reply.Some? ==> r == reply.value
      ensures reply.None? ==> r == 0
    {
      r := reply.GetOr(0);
    }
  }
}
