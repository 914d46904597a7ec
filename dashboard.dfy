/**
 * The stats panel of the decision game (`FinancialDashboard`): the
 * percentage bars for happiness, literacy and health, and the debt and
 * cash bars with their scales of one million and one thousand.
 */
module Dashboard {
  import opened Common
  import opened FinancialGame

  /** `capped(value, max)`: the value held to [0, max], with an absent value read as 0. */
  function Capped(value: Option<int>, max: int): (c: int)
    requires max >= 0
    ensures 0 <= c <= max
    ensures value.Some? && 0 <= value.value <= max ==> c == value.value
    ensures value.None? ==> c == 0
    ensures value.Some? && value.value > max ==> c == max
    ensures value.Some? && value.value < 0 ==> c == 0
  {
    var v := if value.Some? then value.value else 0;
    Max(0, Min(max, v))
  }

  /** Capping twice is capping once. */
  lemma CappedIdempotent(value: Option<int>, max: int)
    requires max >= 0
    ensures Capped(Some(Capped(value, max)), max) == Capped(value, max)
  {
  }

  /** The three percentage bars, each capped to 100. */
  function HappinessBar(p: Player): int { Capped(Some(p.happiness), 100) }
  function LiteracyBar(p: Player): int { Capped(Some(p.literacy), 100) }
  function HealthBar(p: Player): int { Capped(Some(p.health), 100) }

  /** On stats an answer has clamped, the happiness and health bars show the stats as they are. */
  lemma BarsShowClampedStats(p: Player)
    requires Clamped(p)
    ensures HappinessBar(p) == p.happiness && HealthBar(p) == p.health
    ensures 0 <= LiteracyBar(p) <= 100 && (p.literacy <= 100 ==> LiteracyBar(p) == p.literacy)
  {
  }

  /** The debt figure shown: never below 0. */
  function DisplayedDebt(p: Player): (d: int)
    ensures d >= 0 && (p.debt >= 0 ==> d == p.debt)
  {
    Max(0, p.debt)
  }

  /** The debt bar: the size of the debt as a rounded percentage of one million, at most 100. */
  function DebtBar(p: Player): (b: int)
    ensures 0 <= b <= 100
    ensures AbsR(p.debt as real) <= 1000000.0 ==> AbsR(b as real - AbsR(p.debt as real) / 10000.0) <= 0.5
  {
    var debt := AbsR(p.debt as real);
    Min(100, Round(debt / 1000000.0 * 100.0))
  }

  /** The cash bar: cash as a rounded percentage of one thousand, at most 100. */
  function CashBar(p: Player): (b: int)
    ensures b <= 100
    ensures p.cash >= 0 ==> b >= 0
    ensures p.cash >= 1000 ==> b == 100
    ensures p.cash <= 1000 ==> AbsR(b as real - p.cash as real / 10.0) <= 0.5
  {
    Min(100, Round(p.cash as real / 1000.0 * 100.0))
  }

  /** More cash never shortens the cash bar, and more debt never shortens the debt bar. */
  lemma BarsMonotone(p: Player, q: Player)
    ensures p.cash <= q.cash ==> CashBar(p) <= CashBar(q)
    ensures 0 <= p.debt <= q.debt ==> DebtBar(p) <= DebtBar(q)
  {
    if p.cash <= q.cash {
      RoundMonotone(p.cash as real / 1000.0 * 100.0, q.cash as real / 1000.0 * 100.0);
    }
    if 0 <= p.debt <= q.debt {
      RoundMonotone(AbsR(p.debt as real) / 1000000.0 * 100.0, AbsR(q.debt as real) / 1000000.0 * 100.0);
    }
  }
}
