/**
 * ArbitrageService: validates two venues' quotes, evaluates both buy/sell
 * directions and records each direction whose margin, in percent, is strictly
 * above the threshold. The margin is ((sell - buy) / buy) rounded to six
 * places HALF_UP, times 100. The ArbitrageOpportunityMapper is an abstract
 * sink whose insert either succeeds or throws; a throw is swallowed.
 */
module ArbitrageService {
  import opened Wrappers
  import opened Text
  import opened Decimal
  import opened Model

  const ProfitMarginScale: nat := 6
  const PercentageMultiplier: real := 100.0

  /** isValidInput: names present and not blank after trim, all four prices present and positive. */
  predicate IsValidInput(symbol: Option<string>, exchange1: Option<string>, exchange2: Option<string>,
                         bid1: Option<real>, ask1: Option<real>, bid2: Option<real>, ask2: Option<real>)
  {
    && !NullOrBlank(symbol) && !NullOrBlank(exchange1) && !NullOrBlank(exchange2)
    && Positive(bid1) && Positive(ask1) && Positive(bid2) && Positive(ask2)
  }

  /** calculateProfitMargin; BigDecimal.divide throws on a zero divisor, so callers must not pass one. */
  function ProfitMargin(buyPrice: real, sellPrice: real): real
    requires buyPrice != 0.0
  {
    RoundHalfUp((sellPrice - buyPrice) / buyPrice, ProfitMarginScale) * PercentageMultiplier
  }

  /** The unrounded margin in percent, the reference the rounded one is measured against. */
  function ExactMargin(buyPrice: real, sellPrice: real): real
    requires buyPrice != 0.0
  {
    (sellPrice - buyPrice) / buyPrice * 100.0
  }

  lemma ScaleSix()
    ensures Scale(ProfitMarginScale) == 1000000.0
  {
  }

  /** The margin is within 0.00005 percentage points (half a unit of the sixth place, times 100) of the exact one. */
  lemma ProfitMarginError(buyPrice: real, sellPrice: real)
    requires buyPrice != 0.0
    ensures -0.00005 <= ProfitMargin(buyPrice, sellPrice) - ExactMargin(buyPrice, sellPrice) <= 0.00005
  {
    ScaleSix();
    RoundHalfUpError((sellPrice - buyPrice) / buyPrice, ProfitMarginScale);
  }

  /** Selling higher never lowers the margin. */
  lemma ProfitMarginMono(buyPrice: real, sell1: real, sell2: real)
    requires buyPrice > 0.0 && sell1 <= sell2
    ensures ProfitMargin(buyPrice, sell1) <= ProfitMargin(buyPrice, sell2)
  {
    DivMono(sell1 - buyPrice, sell2 - buyPrice, buyPrice);
    RoundHalfUpMono((sell1 - buyPrice) / buyPrice, (sell2 - buyPrice) / buyPrice, ProfitMarginScale);
  }

  /** Equal prices give a zero margin. */
  lemma ProfitMarginZero(price: real)
    requires price != 0.0
    ensures ProfitMargin(price, price) == 0.0
  {
    assert (price - price) / price == 0.0;
    assert 0.0 * Scale(ProfitMarginScale) == 0.0;
  }

  /** A positive margin needs a sell price above the buy price. */
  lemma PositiveMarginNeedsSpread(buyPrice: real, sellPrice: real)
    requires buyPrice > 0.0 && ProfitMargin(buyPrice, sellPrice) > 0.0
    ensures sellPrice > buyPrice
  {
    if sellPrice <= buyPrice {
      ProfitMarginMono(buyPrice, sellPrice, buyPrice);
      ProfitMarginZero(buyPrice);
    }
  }

  /** HALF_UP is symmetric: a loss of half a unit rounds away from zero, just as a gain does. */
  lemma ProfitMarginTies()
    ensures ProfitMargin(2000000.0, 2000001.0) == 0.0001
    ensures ProfitMargin(2000000.0, 1999999.0) == -0.0001
  {
    ScaleSix();
    assert (2000001.0 - 2000000.0) / 2000000.0 == 0.0000005;
    assert (1999999.0 - 2000000.0) / 2000000.0 == -0.0000005;
    assert RoundToInt(0.0000005 * 1000000.0) == 1;
    assert RoundToInt(-0.0000005 * 1000000.0) == -1;
  }

  function ToSeq<T>(o: Option<T>): seq<T> {
    match o
    case None => []
    case Some(v) => [v]
  }

  /** checkArbitrageDirection: the record it creates and saves, if the margin is strictly above the threshold. */
  function Direction(symbol: string, buyExchange: string, sellExchange: string,
                     buyPrice: real, sellPrice: real, minMargin: real): (r: Option<OpportunityFields>)
    requires buyPrice != 0.0
    ensures r.Some? <==> ProfitMargin(buyPrice, sellPrice) > minMargin
    ensures r.Some? ==> r.value == Opportunity(symbol, buyExchange, sellExchange, buyPrice, sellPrice,
                                               ProfitMargin(buyPrice, sellPrice))
  {
    var margin := ProfitMargin(buyPrice, sellPrice);
    if margin > minMargin then Some(Opportunity(symbol, buyExchange, sellExchange, buyPrice, sellPrice, margin))
    else None
  }

  /**
   * checkArbitrageOpportunity, as the ordered list of records it creates:
   * first buying on exchange2 at ask2 and selling on exchange1 at bid1, then
   * buying on exchange1 at ask1 and selling on exchange2 at bid2.
   */
  function Opportunities(symbol: Option<string>, exchange1: Option<string>, exchange2: Option<string>,
                         bid1: Option<real>, ask1: Option<real>, bid2: Option<real>, ask2: Option<real>,
                         minMargin: real): (r: seq<OpportunityFields>)
    ensures |r| <= 2
    ensures !IsValidInput(symbol, exchange1, exchange2, bid1, ask1, bid2, ask2) ==> r == []
  {
    if !IsValidInput(symbol, exchange1, exchange2, bid1, ask1, bid2, ask2) then []
    else
      ToSeq(Direction(symbol.value, exchange2.value, exchange1.value, ask2.value, bid1.value, minMargin))
      + ToSeq(Direction(symbol.value, exchange1.value, exchange2.value, ask1.value, bid2.value, minMargin))
  }

  /** What a valid input yields, direction by direction, stated through the margins alone. */
  lemma OpportunitiesOfValidInput(symbol: string, exchange1: string, exchange2: string,
                                  bid1: real, ask1: real, bid2: real, ask2: real, minMargin: real)
    requires IsValidInput(Some(symbol), Some(exchange1), Some(exchange2), Some(bid1), Some(ask1), Some(bid2), Some(ask2))
    ensures Opportunities(Some(symbol), Some(exchange1), Some(exchange2), Some(bid1), Some(ask1), Some(bid2), Some(ask2), minMargin)
      == (if ProfitMargin(ask2, bid1) > minMargin
          then [Opportunity(symbol, exchange2, exchange1, ask2, bid1, ProfitMargin(ask2, bid1))] else [])
       + (if ProfitMargin(ask1, bid2) > minMargin
          then [Opportunity(symbol, exchange1, exchange2, ask1, bid2, ProfitMargin(ask1, bid2))] else [])
  {
  }

  /** A missing or blank name, or a missing or non-positive price, yields no record. */
  lemma InvalidInputYieldsNothing(symbol: Option<string>, exchange1: Option<string>, exchange2: Option<string>,
                                  bid1: Option<real>, ask1: Option<real>, bid2: Option<real>, ask2: Option<real>,
                                  minMargin: real)
    requires || symbol.None? || Blank(symbol.value)
             || exchange1.None? || Blank(exchange1.value)
             || exchange2.None? || Blank(exchange2.value)
             || bid1.None? || bid1.value <= 0.0 || ask1.None? || ask1.value <= 0.0
             || bid2.None? || bid2.value <= 0.0 || ask2.None? || ask2.value <= 0.0
    ensures Opportunities(symbol, exchange1, exchange2, bid1, ask1, bid2, ask2, minMargin) == []
  {
    NullOrBlankIff(symbol);
    NullOrBlankIff(exchange1);
    NullOrBlankIff(exchange2);
  }

  /**
   * On two uncrossed books (bid at most ask on each venue) and a non-negative
   * threshold, at most one direction can qualify.
   */
  lemma AtMostOneDirection(symbol: string, exchange1: string, exchange2: string,
                           bid1: real, ask1: real, bid2: real, ask2: real, minMargin: real)
    requires IsValidInput(Some(symbol), Some(exchange1), Some(exchange2), Some(bid1), Some(ask1), Some(bid2), Some(ask2))
    requires bid1 <= ask1 && bid2 <= ask2 && minMargin >= 0.0
    ensures |Opportunities(Some(symbol), Some(exchange1), Some(exchange2), Some(bid1), Some(ask1), Some(bid2), Some(ask2), minMargin)| <= 1
  {
    OpportunitiesOfValidInput(symbol, exchange1, exchange2, bid1, ask1, bid2, ask2, minMargin);
    if ProfitMargin(ask2, bid1) > minMargin && ProfitMargin(ask1, bid2) > minMargin {
      PositiveMarginNeedsSpread(ask2, bid1);
      PositiveMarginNeedsSpread(ask1, bid2);
      assert false;
    }
  }

  /** Only positivity is checked: a crossed quote on exchange1 is accepted and can be recorded. */
  lemma CrossedQuoteRecorded()
    ensures Opportunities(Some("ethusdt"), Some("A"), Some("B"), Some(2000.0), Some(1000.0), Some(1000.0), Some(1000.0), 0.03)
      == [Opportunity("ethusdt", "B", "A", 1000.0, 2000.0, 100.0)]
  {
    ScaleSix();
    assert !IsTrimmed("ethusdt"[0]) && !IsTrimmed("A"[0]) && !IsTrimmed("B"[0]);
    NullOrBlankIff(Some("ethusdt"));
    NullOrBlankIff(Some("A"));
    NullOrBlankIff(Some("B"));
    assert (2000.0 - 1000.0) / 1000.0 == 1.0;
    assert RoundToInt(1.0 * 1000000.0) == 1000000;
    ProfitMarginZero(1000.0);
  }

  /** The threshold is strict: a margin exactly at it is not recorded. */
  lemma MarginAtThresholdNotRecorded()
    ensures ProfitMargin(1800.0, 1800.54) == 0.03
    ensures Direction("ethusdt", "A", "B", 1800.0, 1800.54, 0.03).None?
  {
    ScaleSix();
    assert (1800.54 - 1800.0) / 1800.0 == 0.0003;
    assert RoundToInt(0.0003 * 1000000.0) == 300;
  }

  /** An exact margin clear of the threshold by the rounding bound decides the outcome. */
  lemma ExactMarginDecides(buyPrice: real, sellPrice: real, minMargin: real)
    requires buyPrice != 0.0
    ensures ExactMargin(buyPrice, sellPrice) > minMargin + 0.00005 ==> ProfitMargin(buyPrice, sellPrice) > minMargin
    ensures ExactMargin(buyPrice, sellPrice) <= minMargin - 0.00005 ==> ProfitMargin(buyPrice, sellPrice) <= minMargin
  {
    ProfitMarginError(buyPrice, sellPrice);
  }

  /** The records a save produces in the table: the record when the insert succeeded, else nothing. */
  function Saved(o: Option<OpportunityFields>, insertOk: bool): seq<OpportunityFields> {
    if insertOk then ToSeq(o) else []
  }

  class ArbitrageService {
    /** Every insertArbitrageOpportunity call, in order. */
    var saveCalls: seq<OpportunityFields>
    /** The rows the mapper accepted. */
    var rows: seq<OpportunityFields>

    constructor ()
      ensures saveCalls == [] && rows == []
    {
      saveCalls, rows := [], [];
    }

    /** saveArbitrageOpportunity: the insert is attempted; a failure is swallowed. */
    method SaveArbitrageOpportunity(opportunity: ArbitrageOpportunity, insertOk: bool)
      modifies this
      ensures saveCalls == old(saveCalls) + [opportunity.Fields()]
      ensures rows == old(rows) + (if insertOk then [opportunity.Fields()] else [])
    {
      saveCalls := saveCalls + [opportunity.Fields()];
      if insertOk {
        rows := rows + [opportunity.Fields()];
      }
    }

    method CheckArbitrageDirection(symbol: string, buyExchange: string, sellExchange: string,
                                   buyPrice: real, sellPrice: real, minMargin: real, insertOk: bool)
      requires buyPrice != 0.0
      modifies this
      ensures saveCalls == old(saveCalls) + ToSeq(Direction(symbol, buyExchange, sellExchange, buyPrice, sellPrice, minMargin))
      ensures rows == old(rows) + Saved(Direction(symbol, buyExchange, sellExchange, buyPrice, sellPrice, minMargin), insertOk)
    {
      var profitMargin := ProfitMargin(buyPrice, sellPrice);
      if profitMargin > minMargin {
        var opportunity := new ArbitrageOpportunity(Some(symbol), Some(buyExchange), Some(sellExchange),
                                                 Some(buyPrice), Some(sellPrice), Some(profitMargin));
        SaveArbitrageOpportunity(opportunity, insertOk);
      }
    }

    /**
     * checkArbitrageOpportunity: the save calls are exactly Opportunities, in
     * order; `insertOk1`/`insertOk2` are the mapper's outcomes for the first and
     * second direction, and a failure in the first does not stop the second.
     */
    method CheckArbitrageOpportunity(symbol: Option<string>, exchange1: Option<string>, exchange2: Option<string>,
                                     bid1: Option<real>, ask1: Option<real>, bid2: Option<real>, ask2: Option<real>,
                                     minMargin: real, insertOk1: bool, insertOk2: bool)
      modifies this
      ensures saveCalls == old(saveCalls) + Opportunities(symbol, exchange1, exchange2, bid1, ask1, bid2, ask2, minMargin)
      ensures !IsValidInput(symbol, exchange1, exchange2, bid1, ask1, bid2, ask2) ==> rows == old(rows)
      ensures IsValidInput(symbol, exchange1, exchange2, bid1, ask1, bid2, ask2) ==>
        rows == old(rows)
          + Saved(Direction(symbol.value, exchange2.value, exchange1.value, ask2.value, bid1.value, minMargin), insertOk1)
          + Saved(Direction(symbol.value, exchange1.value, exchange2.value, ask1.value, bid2.value, minMargin), insertOk2)
    {
      if !IsValidInput(symbol, exchange1, exchange2, bid1, ask1, bid2, ask2) {
        return;
      }
      CheckArbitrageDirection(symbol.value, exchange2.value, exchange1.value, ask2.value, bid1.value, minMargin, insertOk1);
      CheckArbitrageDirection(symbol.value, exchange1.value, exchange2.value, ask1.value, bid2.value, minMargin, insertOk2);
    }

    /** getLatestOpportunities: the mapper's reply, or an empty list when the query threw. */
    method GetLatestOpportunities(symbol: Option<string>, limit: int, reply: Option<seq<OpportunityFields>>)
      returns (r: seq<OpportunityFields>)
      ensures reply.Some? ==> r == reply.value
      ensures reply.None? ==> r == []
    {
      r := reply.GetOr([]);
    }

    /** getTodayOpportunityCount: the mapper's count, or 0 when the query threw. */
    method GetTodayOpportunityCount(reply: Option<int>) returns (r: int)
      ensures reply.Some? ==> r == reply.value
      ensures reply.None? ==> r == 0
    {
      r := reply.GetOr(0);
    }
  }
}
