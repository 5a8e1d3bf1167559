/** The daily trading session: a loop that sizes a position, buys it, resolves
    it at its take-profit or stop-loss price and books the profit, until the
    day's goal is earned or the trade cap is reached.

    Everything the loop asks of the outside world in one pass (the token it
    picks, the quoted entry price, whether the two alerts and the swap went
    through, and the take-profit/stop-loss draw) is one `Draw`; pass `k` of
    the loop consumes `draws[k]`. */
module DailySession {
  import opened Resolver

  /** Most trades in one session. */
  const TradeCap: nat := 5

  /** What the price feed gave for the picked token: a price, or an exception. */
  datatype Quote = Quoted(price: real) | FeedError

  /** The outside world's answers for one pass of the loop. `symbol` is only a
      label: its effects reach the loop through the quote and the swap. An
      alert flag is false when that alert's HTTP request raised; with no alert
      credentials configured the alert does nothing and its flag is true. */
  datatype Draw = Draw(
    symbol: string,
    quote: Quote,
    buyAlertOk: bool,
    swapOk: bool,
    result: Outcome,
    resultAlertOk: bool)

  /** Why a session ended with an exception instead of a capital figure. */
  datatype Fault =
    | PriceFetchFailed   // the price request raised
    | BuyAlertFailed     // the alert announcing the buy raised
    | SwapFailed         // the approve/swap transactions raised
    | ZeroEntryPrice     // the profit divides by a zero entry price
    | ResultAlertFailed  // the alert reporting the result raised, after booking

  /** The loop's three counters. */
  datatype State = State(capital: real, earned: real, trades: nat)

  datatype StepResult = Traded(next: State) | Raised(fault: Fault)

  /** A finished session returns its final state. An aborted one carries the
      fault and the counters at the start of the pass that raised; the bot
      discards its counters when the exception escapes. */
  datatype SessionResult = Finished(final: State) | Aborted(fault: Fault, last: State)

  function Final(r: SessionResult): State
  {
    match r
    case Finished(f) => f
    case Aborted(_, l) => l
  }

  /** The day's goal, fixed from the starting capital before the first trade. */
  function Goal(start: real): (g: real)
    ensures g <= 0.0 <==> start <= 0.0
    ensures start > 0.0 ==> g < start
  {
    start * DailyTarget
  }

  function Start(capital: real): State
  {
    State(capital, 0.0, 0)
  }

  predicate KeepTrading(s: State, goal: real)
  {
    s.earned < goal && s.trades < TradeCap
  }

  /** A draw with which a pass of the loop completes: the price came back,
      both alerts and the swap went through, and the price can be divided by. */
  predicate Clean(d: Draw)
  {
    d.quote.Quoted? && d.buyAlertOk && d.swapOk && d.quote.price != 0.0 && d.resultAlertOk
  }

  /** One pass of the loop from state `s`. Faults are raised in the order the
      bot meets them: price fetch, buy alert, swap, the division by the entry
      price, and the result alert. A completed pass books the profit, whose
      size does not depend on the entry price, adds only gains to the day's
      earnings and counts one trade. */
  function TryTrade(s: State, d: Draw): (r: StepResult)
    ensures r.Traded? <==> Clean(d)
    ensures r == Raised(PriceFetchFailed) <==> d.quote.FeedError?
    ensures r == Raised(BuyAlertFailed) <==> d.quote.Quoted? && !d.buyAlertOk
    ensures r == Raised(SwapFailed) <==> d.quote.Quoted? && d.buyAlertOk && !d.swapOk
    ensures r == Raised(ZeroEntryPrice) <==>
      d.quote.Quoted? && d.buyAlertOk && d.swapOk && d.quote.price == 0.0
    ensures r == Raised(ResultAlertFailed) <==>
      d.quote.Quoted? && d.buyAlertOk && d.swapOk && d.quote.price != 0.0 && !d.resultAlertOk
    ensures r.Traded? ==>
      var amt := TradeAmount(s.capital);
      var p := if d.result == TakeProfit then amt * TpPercent else -(amt * SlPercent);
      r.next == State(s.capital + p, s.earned + Max(p, 0.0), s.trades + 1)
  {
    var amt := TradeAmount(s.capital);
    match d.quote
    case FeedError => Raised(PriceFetchFailed)
    case Quoted(entry) =>
      if !d.buyAlertOk then Raised(BuyAlertFailed)
      else if !d.swapOk then Raised(SwapFailed)
      else if entry == 0.0 then Raised(ZeroEntryPrice)
      else if !d.resultAlertOk then Raised(ResultAlertFailed)
      else
        var profit := Profit(entry, amt, d.result);
        Traded(State(s.capital + profit, s.earned + Max(profit, 0.0), s.trades + 1))
  }

  /** The session from state `s` on, against a fixed goal. */
  function Run(s: State, goal: real, draws: seq<Draw>): (r: SessionResult)
    requires s.trades <= TradeCap <= |draws|
    ensures s.trades <= Final(r).trades <= TradeCap
    ensures s.earned <= Final(r).earned
    decreases TradeCap - s.trades
  {
    if !KeepTrading(s, goal) then Finished(s)
    else
      match TryTrade(s, draws[s.trades])
      case Raised(f) => Aborted(f, s)
      case Traded(next) => Run(next, goal, draws)
  }

  /** A whole session from a starting capital. */
  function Session(start: real, draws: seq<Draw>): SessionResult
    requires TradeCap <= |draws|
  {
    Run(Start(start), Goal(start), draws)
  }

  /** The trading loop, over the three local counters. */
  method RunDailyTrade(start: real, draws: seq<Draw>) returns (r: SessionResult)
    requires TradeCap <= |draws|
    ensures r == Session(start, draws)
  {
    var capital := start;
    var earned := 0.0;
    var trades: nat := 0;
    var goal := Goal(start);
    while earned < goal && trades < TradeCap
      invariant trades <= TradeCap
      invariant Run(State(capital, earned, trades), goal, draws) == Session(start, draws)
      decreases TradeCap - trades
    {
      var before := State(capital, earned, trades);
      var d := draws[trades];
      var amt := TradeAmount(capital);
      if d.quote.FeedError? {
        assert Run(before, goal, draws) == Aborted(PriceFetchFailed, before);
        return Aborted(PriceFetchFailed, before);
      }
      var entry := d.quote.price;
      if !d.buyAlertOk {
        assert Run(before, goal, draws) == Aborted(BuyAlertFailed, before);
        return Aborted(BuyAlertFailed, before);
      }
      if !d.swapOk {
        assert Run(before, goal, draws) == Aborted(SwapFailed, before);
        return Aborted(SwapFailed, before);
      }
      if entry == 0.0 {
        assert Run(before, goal, draws) == Aborted(ZeroEntryPrice, before);
        return Aborted(ZeroEntryPrice, before);
      }
      var profit := Profit(entry, amt, d.result);
      capital := capital + profit;
      earned := earned + Max(profit, 0.0);
      trades := trades + 1;
      if !d.resultAlertOk {
        assert Run(before, goal, draws) == Aborted(ResultAlertFailed, before);
        return Aborted(ResultAlertFailed, before);
      }
      assert TryTrade(before, d) == Traded(State(capital, earned, trades));
    }
    r := Finished(State(capital, earned, trades));
  }

  /** Capital `c` compounded by the factors of the trades `ds`, in order. */
  function Compound(c: real, ds: seq<Draw>): (r: real)
    ensures c > 0.0 ==> r > 0.0
    decreases ds
  {
    if |ds| == 0 then c else Compound(c * Factor(ds[0].result), ds[1..])
  }

  /** A session that finishes normally stopped because the goal was met or
      the trade cap was reached, and for no other reason. */
  lemma {:induction false} FinishesAtGoalOrCap(s: State, goal: real, draws: seq<Draw>)
    requires s.trades <= TradeCap <= |draws|
    ensures var r := Run(s, goal, draws);
      r.Finished? ==> r.final.earned >= goal || r.final.trades == TradeCap
    decreases TradeCap - s.trades
  {
    if KeepTrading(s, goal) {
      match TryTrade(s, draws[s.trades])
      case Raised(_) =>
      case Traded(next) => FinishesAtGoalOrCap(next, goal, draws);
    }
  }

  /** No trade is booked once the goal is met: the pass that booked the last
      trade started below the goal (and below the cap). Earnings never fall,
      so every earlier pass started below the goal too, and the session stops
      at the first trade that reaches it. */
  lemma {:induction false} LastTradeBelowGoal(s: State, goal: real, draws: seq<Draw>)
    requires s.trades <= TradeCap <= |draws|
    ensures var f := Final(Run(s, goal, draws));
      f.trades > s.trades ==>
        exists p: State :: s.trades <= p.trades && KeepTrading(p, goal) &&
          TryTrade(p, draws[p.trades]) == Traded(f)
    decreases TradeCap - s.trades
  {
    var f := Final(Run(s, goal, draws));
    if KeepTrading(s, goal) {
      match TryTrade(s, draws[s.trades])
      case Raised(_) =>
      case Traded(next) =>
        LastTradeBelowGoal(next, goal, draws);
        if f.trades == next.trades {
          assert f == next;
          assert TryTrade(s, draws[s.trades]) == Traded(f);
        }
    }
  }

  /** Every trade a session books came from a clean draw, and a session is
      aborted only when it wanted another trade and the draw for that trade
      raised, with the fault that draw raises. */
  lemma {:induction false} AbortsOnlyOnFault(s: State, goal: real, draws: seq<Draw>)
    requires s.trades <= TradeCap <= |draws|
    ensures var r := Run(s, goal, draws);
      forall i :: s.trades <= i < Final(r).trades ==> Clean(draws[i])
    ensures var r := Run(s, goal, draws);
      r.Aborted? ==>
        KeepTrading(r.last, goal) && TryTrade(r.last, draws[r.last.trades]) == Raised(r.fault)
    decreases TradeCap - s.trades
  {
    if KeepTrading(s, goal) {
      match TryTrade(s, draws[s.trades])
      case Raised(_) =>
      case Traded(next) => AbortsOnlyOnFault(next, goal, draws);
    }
  }

  /** From non-negative capital, each booked trade multiplies capital by its
      factor (1.05 at take-profit, 0.99 at stop-loss). */
  lemma {:induction false} Compounds(s: State, goal: real, draws: seq<Draw>)
    requires s.trades <= TradeCap <= |draws|
    requires s.capital >= 0.0
    ensures var f := Final(Run(s, goal, draws));
      f.capital == Compound(s.capital, draws[s.trades..f.trades])
    decreases TradeCap - s.trades
  {
    var f := Final(Run(s, goal, draws));
    if !KeepTrading(s, goal) || !Clean(draws[s.trades]) {
      assert f == s;
    } else {
      var d := draws[s.trades];
      var next := TryTrade(s, d).next;
      assert TryTrade(s, d) == Traded(next);
      assert Run(s, goal, draws) == Run(next, goal, draws);
      StepCompounds(s, d);
      Compounds(next, goal, draws);
      assert draws[s.trades..f.trades][1..] == draws[next.trades..f.trades];
    }
  }

  /** One booked trade from non-negative capital multiplies it by the trade's factor. */
  lemma StepCompounds(s: State, d: Draw)
    requires s.capital >= 0.0 && Clean(d)
    ensures TryTrade(s, d).next.capital == s.capital * Factor(d.result)
  {
    CompoundsByFactor(s.capital, d.quote.price, d.result);
  }

  /** Losses lower capital but never the day's earnings, so capital can never
      have grown by more than was earned. */
  lemma {:induction false} GainWithinEarnings(s: State, goal: real, draws: seq<Draw>)
    requires s.trades <= TradeCap <= |draws|
    ensures var f := Final(Run(s, goal, draws));
      f.capital - s.capital <= f.earned - s.earned
    decreases TradeCap - s.trades
  {
    if KeepTrading(s, goal) {
      match TryTrade(s, draws[s.trades])
      case Raised(_) =>
      case Traded(next) => GainWithinEarnings(next, goal, draws);
    }
  }

  /** The session as a whole: at most five trades; a normal finish means the
      goal of a fifth of the STARTING capital was met or five trades were
      made; the last trade was booked from below that goal; every booked trade had a clean draw; an abort comes only from a
      draw that raised; and when the first five draws are all clean the
      session finishes normally. */
  lemma SessionOutcome(start: real, draws: seq<Draw>)
    requires TradeCap <= |draws|
    ensures var r := Session(start, draws);
      Final(r).trades <= TradeCap &&
      (r.Finished? ==> r.final.earned >= start * DailyTarget || r.final.trades == TradeCap) &&
      (forall i :: 0 <= i < Final(r).trades ==> Clean(draws[i])) &&
      (r.Aborted? ==> r.last.trades < TradeCap && !Clean(draws[r.last.trades])) &&
      ((forall i :: 0 <= i < TradeCap ==> Clean(draws[i])) ==> r.Finished?) &&
      (Final(r).trades > 0 ==>
        exists p: State :: p.earned < start * DailyTarget && p.trades < TradeCap &&
          TryTrade(p, draws[p.trades]) == Traded(Final(r)))
  {
    LastTradeBelowGoal(Start(start), Goal(start), draws);
    FinishesAtGoalOrCap(Start(start), Goal(start), draws);
    AbortsOnlyOnFault(Start(start), Goal(start), draws);
  }

  /** A positive starting capital stays positive through the whole session,
      and ends as the start compounded by the factors of the trades completed:
      all of them in a finished session, those completed before the pass that
      raised in an aborted one (a trade booked just before a failing result
      alert is not among them). */
  lemma CapitalStaysPositive(start: real, draws: seq<Draw>)
    requires TradeCap <= |draws| && start > 0.0
    ensures var f := Final(Session(start, draws));
      f.capital == Compound(start, draws[..f.trades]) && f.capital > 0.0
  {
    Compounds(Start(start), Goal(start), draws);
    var f := Final(Session(start, draws));
    assert draws[0..f.trades] == draws[..f.trades];
  }

  /** With no positive starting capital the goal is already met: no trade is
      made and the capital comes back unchanged. */
  lemma NothingToTrade(start: real, draws: seq<Draw>)
    requires TradeCap <= |draws| && start <= 0.0
    ensures Session(start, draws) == Finished(State(start, 0.0, 0))
  {
  }

  /** Starting from 50 with every pass a clean take-profit, the goal of 10 is
      first met after the fourth trade: 2.5 + 2.625 + 2.75625 + 2.8940625. */
  lemma WorkedSession(d: Draw)
    requires Clean(d) && d.result == TakeProfit
    ensures Session(50.0, [d, d, d, d, d]) == Finished(State(60.7753125, 10.7753125, 4))
  {
    var draws := [d, d, d, d, d];
    var s1 := State(52.5, 2.5, 1);
    var s2 := State(55.125, 5.125, 2);
    var s3 := State(57.88125, 7.88125, 3);
    var s4 := State(60.7753125, 10.7753125, 4);
    assert TryTrade(Start(50.0), d) == Traded(s1);
    assert TryTrade(s1, d) == Traded(s2);
    assert TryTrade(s2, d) == Traded(s3);
    assert TryTrade(s3, d) == Traded(s4);
    assert Run(s4, 10.0, draws) == Finished(s4);
    assert Run(s3, 10.0, draws) == Finished(s4);
    assert Run(s2, 10.0, draws) == Finished(s4);
    assert Run(s1, 10.0, draws) == Finished(s4);
  }
}
