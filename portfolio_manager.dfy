/**
 * The trading panel (`PortfolioManager`): its own copy of the portfolio
 * value, the share-count input and the conditions under which the buy and
 * sell buttons are enabled.
 */
module PortfolioManager {
  import opened Common
  import opened TradingPage

  /** Market value of the TECH holding; 0 without a quote or without shares. */
  function TechValue(quote: Option<real>, h: Holding): real {
    if quote.Some? && h.shares > 0 then h.shares as real * quote.value else 0.0
  }

  /** Unrealised profit of the TECH holding; 0 without a quote or without shares. */
  function TechProfitLoss(quote: Option<real>, h: Holding): real {
    if quote.Some? && h.shares > 0 then TechValue(quote, h) - h.shares as real * h.avgPrice else 0.0
  }

  /** The panel's total: cash plus unrealised profit. */
  function TotalValue(userMoney: real, quote: Option<real>, h: Holding): real {
    userMoney + TechProfitLoss(quote, h)
  }

  /** The panel computes the same portfolio value as the page. */
  lemma TotalValueAgreesWithPage(userMoney: real, quote: Option<real>, h: Holding)
    ensures TotalValue(userMoney, quote, h) == PortfolioValue(userMoney, h, quote)
    ensures quote.Some? && h.shares > 0 ==>
      TotalValue(userMoney, quote, h) == userMoney + h.shares as real * quote.value - h.shares as real * h.avgPrice
    ensures quote.None? || h.shares <= 0 ==> TotalValue(userMoney, quote, h) == userMoney
  {
  }

  /**
   * `Math.max(1, parseInt(input) || 1)` for the share-count input, given
   * what `parseInt` read (`None` for NaN): a 0 is falsy and also becomes 1.
   */
  function ClampShares(parsed: Option<int>): (n: int)
    ensures n >= 1
    ensures n == (if parsed.Some? && parsed.value >= 1 then parsed.value else 1)
  {
    var v := if parsed.Some? && parsed.value != 0 then parsed.value else 1;
    Max(1, v)
  }

  /** The buy button is enabled when a handler exists and the cash covers the cost. */
  function BuyEnabled(hasHandler: bool, n: int, price: real, userMoney: real): bool {
    hasHandler && !(n as real * price > userMoney)
  }

  /** The sell button is enabled when a handler exists and enough shares are held. */
  function SellEnabled(hasHandler: bool, n: int, h: Holding): bool {
    hasHandler && !(n > h.shares)
  }

  /** The cost or proceeds shown under the buttons. */
  function EstimatedAmount(n: int, price: real): (amount: real)
    ensures price >= 0.0 && n >= 1 ==> amount >= price
  {
    n as real * price
  }

  /**
   * With a handler attached, a button is enabled exactly when the page's
   * handler would carry the trade out, and the amount it shows is what moves
   * between cash and holding.
   */
  lemma ButtonsMatchHandler(h: Holding, userMoney: real, price: real, n: int)
    requires n >= 1 && h.shares >= 0
    ensures BuyEnabled(true, n, price, userMoney) <==> ApplyTrade(h, userMoney, Some(price), Buy, n).Traded?
    ensures SellEnabled(true, n, h) <==> ApplyTrade(h, userMoney, Some(price), Sell, n).Traded?
    ensures ApplyTrade(h, userMoney, Some(price), Buy, n).Traded? ==>
      ApplyTrade(h, userMoney, Some(price), Buy, n).cash == userMoney - EstimatedAmount(n, price)
    ensures ApplyTrade(h, userMoney, Some(price), Sell, n).Traded? ==>
      ApplyTrade(h, userMoney, Some(price), Sell, n).cash == userMoney + EstimatedAmount(n, price)
    ensures !BuyEnabled(false, n, price, userMoney) && !SellEnabled(false, n, h)
  {
  }

  /** The panel's inputs once absent props take their defaults. */
  datatype PanelProps = PanelProps(holding: Holding, userMoney: real)

  function ResolveProps(holding: Option<Holding>, userMoney: Option<real>): (p: PanelProps)
    ensures holding.None? ==> p.holding == Holding(0, 0.0)
    ensures userMoney.None? ==> p.userMoney == 10000.0
    ensures holding.Some? ==> p.holding == holding.value
    ensures userMoney.Some? ==> p.userMoney == userMoney.value
  {
    PanelProps(if holding.Some? then holding.value else Holding(0, 0.0),
               if userMoney.Some? then userMoney.value else 10000.0)
  }
}
