/**
 * The dashboard page's single-stock trading (`handleTechTrade`) and the
 * portfolio value it derives from cash, the TECH holding and the TECH quote.
 * Each handler call is one atomic transition of the page's state.
 */
module TradingPage {
  import opened Common

  /** Shares held and their weighted average purchase price. */
  datatype Holding = Holding(shares: int, avgPrice: real)

  datatype Action = Buy | Sell

  /** What a trade request ends in: the new holding and cash, or the reason nothing changed. */
  datatype TradeResult =
    | Traded(holding: Holding, cash: real)
    | NoQuote
    | InsufficientFunds
    | InsufficientShares

  /** The new average after buying n shares at `price`. */
  function AverageAfterBuy(h: Holding, n: int, price: real): real
    requires h.shares + n != 0
  {
    if h.shares > 0 then (h.shares as real * h.avgPrice + n as real * price) / (h.shares + n) as real
    else price
  }

  /**
   * One trade of n shares at the TECH quote's price (`None`: no TECH quote).
   * The share count comes from the share-count input, which never goes below 1.
   */
  function ApplyTrade(h: Holding, cash: real, quote: Option<real>, action: Action, n: int): (r: TradeResult)
    requires n >= 1 && h.shares >= 0
    ensures quote.None? <==> r == NoQuote
    ensures r == InsufficientFunds <==> quote.Some? && action == Buy && n as real * quote.value > cash
    ensures r == InsufficientShares <==> quote.Some? && action == Sell && n > h.shares
  {
    match quote
    case None => NoQuote
    case Some(price) =>
      var totalCost := n as real * price;
      match action
      case Buy =>
        if totalCost > cash then InsufficientFunds
        else Traded(Holding(h.shares + n, AverageAfterBuy(h, n, price)), cash - totalCost)
      case Sell =>
        if n > h.shares then InsufficientShares
        else Traded(Holding(h.shares - n, h.avgPrice), cash + totalCost)
  }

  /** An accepted buy adds the shares, pays for them, and folds their cost into the average. */
  lemma BuyAccepted(h: Holding, cash: real, price: real, n: int)
    requires n >= 1 && h.shares >= 0 && n as real * price <= cash
    ensures var r := ApplyTrade(h, cash, Some(price), Buy, n);
      r.Traded? && r.holding.shares == h.shares + n && r.cash == cash - n as real * price
      && r.holding.shares as real * r.holding.avgPrice == h.shares as real * h.avgPrice + n as real * price
      && (h.shares == 0 ==> r.holding.avgPrice == price)
  {
    var m := (h.shares + n) as real;
    if h.shares > 0 {
      var total := h.shares as real * h.avgPrice + n as real * price;
      assert m * (total / m) == total;
    }
  }

  /** An accepted sell removes the shares, pays out their value, and keeps the average, even at zero shares. */
  lemma SellAccepted(h: Holding, cash: real, price: real, n: int)
    requires n >= 1 && 0 <= n <= h.shares
    ensures ApplyTrade(h, cash, Some(price), Sell, n)
         == Traded(Holding(h.shares - n, h.avgPrice), cash + n as real * price)
  {
  }

  /** Starting from non-negative cash, shares and price, trading never makes cash, shares or average negative. */
  lemma TradeKeepsNonNegative(h: Holding, cash: real, price: real, action: Action, n: int)
    requires n >= 1 && h.shares >= 0 && h.avgPrice >= 0.0 && cash >= 0.0 && price >= 0.0
    ensures var r := ApplyTrade(h, cash, Some(price), action, n);
      r.Traded? ==> r.cash >= 0.0 && r.holding.shares >= 0 && r.holding.avgPrice >= 0.0
  {
    if action == Buy && h.shares > 0 && n as real * price <= cash {
      var total := h.shares as real * h.avgPrice + n as real * price;
      assert total >= 0.0;
      assert total / (h.shares + n) as real >= 0.0;
    }
  }

  /**
   * The page's portfolio value: cash plus the unrealised profit or loss of
   * the TECH holding, or just the cash without a quote or without shares.
   */
  function PortfolioValue(cash: real, h: Holding, quote: Option<real>): real {
    if quote.Some? && h.shares > 0 then
      var techValue := h.shares as real * quote.value;
      var techProfitLoss := techValue - h.shares as real * h.avgPrice;
      cash + techProfitLoss
    else cash
  }

  lemma SubDistributes(s: real, k: real, x: real)
    ensures (s - k) * x == s * x - k * x
  {
  }

  /**
   * Because the value counts unrealised profit and not the holding's
   * market value, a buy at the quoted price lowers it by what the shares
   * cost, and a sell raises it by the shares' cost basis.
   */
  lemma TradeMovesValue(h: Holding, cash: real, price: real, action: Action, n: int)
    requires n >= 1 && h.shares >= 0
    ensures var r := ApplyTrade(h, cash, Some(price), action, n);
      r.Traded? ==>
        PortfolioValue(r.cash, r.holding, Some(price)) ==
          if action == Buy then PortfolioValue(cash, h, Some(price)) - n as real * price
          else PortfolioValue(cash, h, Some(price)) + n as real * h.avgPrice
  {
    var r := ApplyTrade(h, cash, Some(price), action, n);
    if r.Traded? && action == Buy {
      BuyAccepted(h, cash, price, n);
      var s := (h.shares + n) as real;
      assert s * r.holding.avgPrice == h.shares as real * h.avgPrice + n as real * price;
      assert PortfolioValue(r.cash, r.holding, Some(price))
          == r.cash + s * price - s * r.holding.avgPrice;
    } else if r.Traded? {
      SellAccepted(h, cash, price, n);
      var s := h.shares as real;
      var k := n as real;
      assert (h.shares - n) as real == s - k;
      SubDistributes(s, k, price);
      SubDistributes(s, k, h.avgPrice);
    }
  }

  /**
   * Worked trades: buying into an empty holding, averaging up, a partial
   * sell, a refused sell and a refused buy, and one portfolio value.
   */
  lemma WorkedTrades()
    ensures ApplyTrade(Holding(0, 0.0), 1000.0, Some(100.0), Buy, 10) == Traded(Holding(10, 100.0), 0.0)
    ensures ApplyTrade(Holding(10, 100.0), 2000.0, Some(200.0), Buy, 10) == Traded(Holding(20, 150.0), 0.0)
    ensures ApplyTrade(Holding(20, 150.0), 0.0, Some(300.0), Sell, 5) == Traded(Holding(15, 150.0), 1500.0)
    ensures ApplyTrade(Holding(15, 150.0), 1500.0, Some(300.0), Sell, 16) == InsufficientShares
    ensures ApplyTrade(Holding(20, 150.0), 100.0, Some(1000.0), Buy, 5) == InsufficientFunds
    ensures PortfolioValue(500.0, Holding(10, 50.0), Some(60.0)) == 600.0
  {
  }

  /** The page state the trading handler and the value effect work on. */
  class Page {
    var userName: string
    var userMoney: real
    var techInvestments: Holding
    var portfolioValue: real

    /** The holding never goes short: no trade sells more shares than it holds. */
    ghost predicate Valid()
      reads this
    {
      techInvestments.shares >= 0
    }

    constructor ()
      ensures Valid()
      ensures userName == "You" && userMoney == 10000.0
      ensures techInvestments == Holding(0, 0.0) && portfolioValue == 10000.0
    {
      userName := "You";
      userMoney := 10000.0;
      techInvestments := Holding(0, 0.0);
      portfolioValue := 10000.0;
    }

    /**
     * `handleTechTrade`: a rejected or quote-less trade changes nothing and
     * returns the reason; an accepted one replaces holding and cash.
     */
    method HandleTechTrade(quote: Option<real>, action: Action, n: int) returns (r: TradeResult)
      requires n >= 1 && Valid()
      modifies this
      ensures Valid()
      ensures r == ApplyTrade(old(techInvestments), old(userMoney), quote, action, n)
      ensures r.Traded? ==> techInvestments == r.holding && userMoney == r.cash
      ensures !r.Traded? ==> techInvestments == old(techInvestments) && userMoney == old(userMoney)
      ensures portfolioValue == old(portfolioValue) && userName == old(userName)
    {
      if quote.None? {
        return NoQuote;
      }
      var currentPrice := quote.value;
      var totalCost := n as real * currentPrice;
      if action == Buy {
        if totalCost > userMoney {
          return InsufficientFunds;
        }
        var newShares := techInvestments.shares + n;
        var newAvgPrice := if techInvestments.shares > 0
          then (techInvestments.shares as real * techInvestments.avgPrice + totalCost) / newShares as real
          else currentPrice;
        assert newAvgPrice == AverageAfterBuy(techInvestments, n, currentPrice);
        techInvestments := Holding(newShares, newAvgPrice);
        userMoney := userMoney - totalCost;
      } else {
        if n > techInvestments.shares {
          return InsufficientShares;
        }
        techInvestments := Holding(techInvestments.shares - n, techInvestments.avgPrice);
        userMoney := userMoney + totalCost;
      }
      r := Traded(techInvestments, userMoney);
    }

    /** The portfolio-value effect, run whenever quote, holding or cash change. */
    method RecomputePortfolioValue(quote: Option<real>)
      requires Valid()
      modifies this
      ensures Valid()
      ensures portfolioValue == PortfolioValue(userMoney, techInvestments, quote)
      ensures userMoney == old(userMoney) && techInvestments == old(techInvestments) && userName == old(userName)
    {
      if quote.Some? && techInvestments.shares > 0 {
        var techValue := techInvestments.shares as real * quote.value;
        var techProfitLoss := techValue - techInvestments.shares as real * techInvestments.avgPrice;
        portfolioValue := userMoney + techProfitLoss;
      } else {
        portfolioValue := userMoney;
      }
    }

    /**
     * The profile editor's save callback: the new name and cash replace the
     * old ones and the shown portfolio value is reset to that cash, the
     * holding untouched, until the value effect runs again.
     */
    method SaveProfile(name: string, money: real)
      requires Valid()
      modifies this
      ensures Valid()
      ensures userName == name && userMoney == money && portfolioValue == money
      ensures techInvestments == old(techInvestments)
    {
      userName := name;
      userMoney := money;
      portfolioValue := money;
    }
  }
}
