/** Trade outcome resolution: the risk constants of the bot, how a position is
    sized from the current capital, the take-profit and stop-loss prices set
    around an entry price, and the signed profit of one trade.

    Amounts that the bot holds as `Decimal` are modelled as exact `real`s. */
module Resolver {

  /** Take-profit offset above the entry price (TP_PERCENT). */
  const TpPercent: real := 0.25
  /** Stop-loss offset below the entry price (SL_PERCENT). */
  const SlPercent: real := 0.05
  /** Share of the starting capital that makes the daily goal (DAILY_TARGET). */
  const DailyTarget: real := 0.20
  /** Share of the current capital risked on one trade (the literal in the sizing rule). */
  const PositionFraction: real := 0.2

  /** How a trade closed: at its take-profit or at its stop-loss price. */
  datatype Outcome = TakeProfit | StopLoss

  function Min(x: real, y: real): (m: real)
    ensures m <= x && m <= y && (m == x || m == y)
  {
    if x <= y then x else y
  }

  function Max(x: real, y: real): (m: real)
    ensures m >= x && m >= y && (m == x || m == y)
  {
    if x >= y then x else y
  }

  /** Position size: a fifth of the capital, capped by the capital itself. */
  function TradeAmount(capital: real): (amt: real)
    ensures amt <= capital
    ensures capital >= 0.0 ==> amt == 0.2 * capital && amt >= 0.0
    ensures capital < 0.0 ==> amt == capital
  {
    Min(capital * PositionFraction, capital)
  }

  /** The price at which a position is closed with a gain. */
  function TakeProfitPrice(entry: real): (tp: real)
    ensures entry > 0.0 ==> tp > entry
  {
    entry * (1.0 + TpPercent)
  }

  /** The price at which a position is closed with a loss. */
  function StopLossPrice(entry: real): (sl: real)
    ensures entry > 0.0 ==> 0.0 < sl < entry
  {
    entry * (1.0 - SlPercent)
  }

  /** Signed profit of a trade of `amt` bought at `entry` and closed at the
      price that `result` names. The entry price cancels out: a take-profit
      earns a quarter of the amount and a stop-loss loses a twentieth of it,
      whatever the price. Division by a zero entry price raises in the bot. */
  function Profit(entry: real, amt: real, result: Outcome): (p: real)
    requires entry != 0.0
    ensures result == TakeProfit ==> p == amt * TpPercent
    ensures result == StopLoss ==> p == -(amt * SlPercent)
  {
    var exit := if result == TakeProfit then TakeProfitPrice(entry) else StopLossPrice(entry);
    OffsetCancels(entry, amt, if result == TakeProfit then TpPercent else -SlPercent);
    (exit - entry) * amt / entry
  }

  /** A price offset of `k` times the entry price, applied to `amt`, yields `k * amt`. */
  lemma OffsetCancels(entry: real, amt: real, k: real)
    requires entry != 0.0
    ensures (entry * (1.0 + k) - entry) * amt / entry == k * amt
  {
    assert entry * (1.0 + k) - entry == k * entry;
    assert (k * entry) * amt == (k * amt) * entry;
  }

  /** Capital growth factor of one trade sized by `TradeAmount` at non-negative capital. */
  function Factor(result: Outcome): (f: real)
    ensures f > 0.0
  {
    if result == TakeProfit then 1.05 else 0.99
  }

  /** One trade moves non-negative capital to `capital * Factor(result)`:
      a take-profit multiplies it by 1.05 and a stop-loss by 0.99. */
  lemma CompoundsByFactor(capital: real, entry: real, result: Outcome)
    requires capital >= 0.0 && entry != 0.0
    ensures capital + Profit(entry, TradeAmount(capital), result) == capital * Factor(result)
  {
  }

  /** A trade at positive capital leaves positive capital. */
  lemma StaysPositive(capital: real, entry: real, result: Outcome)
    requires capital > 0.0 && entry != 0.0
    ensures capital + Profit(entry, TradeAmount(capital), result) > 0.0
  {
    CompoundsByFactor(capital, entry, result);
  }

  /** The worked figures: 10 units bought at 100 earn 2.5 at take-profit and lose 0.5 at stop-loss. */
  lemma WorkedProfit()
    ensures Profit(100.0, 10.0, TakeProfit) == 2.5
    ensures Profit(100.0, 10.0, StopLoss) == -0.5
  {
  }
}
