# Daily trading session of the Arbitrum token-swap bot

This project models the decision logic of the bot's daily trading session
(`run_daily_trade`). It also proves properties of that model. The session keeps
three counters: the capital, the day's earnings and the number of trades. Each
pass of its loop:

1. sizes a position at a fifth of the current capital, never more than the
   capital itself;
2. fetches an entry price and places take-profit (+25%) and stop-loss (-5%)
   prices around it;
3. swaps into the token;
4. resolves the trade at one of the two prices and books the signed profit.

The loop stops once the day's earnings reach the goal or after five trades.
The goal is 20% of the starting capital and is fixed before the first trade.

Two modules:

- `Resolver` (`resolver.dfy`) holds the constants `TP_PERCENT`, `SL_PERCENT`
  and `DAILY_TARGET`, the position-size rule, the take-profit and stop-loss
  prices and the profit of one trade.
- `DailySession` (`session.dfy`) holds the loop. The method `RunDailyTrade` is
  a `while` loop over the local counters `capital`, `earned` and `trades`, as
  in the bot. It is proved equal to the recursive specification `Session`
  (through `Run` and the one-pass function `TryTrade`), and the lemmas state
  what the session does in terms of `Session`.

Collaborators and randomness become inputs. For pass `k`, the loop reads one
`Draw`, `draws[k]`, which holds:

- the token picked (a label only: its effects reach the loop through the price
  and the swap);
- the price feed's answer: a price, or an exception;
- whether the alert announcing the buy returned or raised;
- whether the approve-and-swap transactions returned or raised;
- the take-profit/stop-loss outcome;
- whether the alert reporting the result returned or raised.

A pass that completes adds exactly one trade, so pass `k` is trade number `k`.
At most five passes run, which is why the model asks for five draws. That
stands in for an endless random stream of which at most five answers are ever
used.

An exception ends the session as `Aborted`, with its cause and the counters at
the start of the pass that raised. The bot itself returns nothing in that case:
the exception escapes and no capital is saved. Five things can raise, checked
in the order the bot meets them:

- the price fetch (line 148);
- the buy alert (line 152), when alert credentials are set;
- the swap (line 153);
- the profit's division by a zero entry price (line 158; a `Decimal`
  division by zero raises);
- the result alert (line 163), when alert credentials are set. It comes after
  the trade has been booked, so it can end the session even after the fifth
  trade or the trade that meets the goal.

`Decimal` amounts are modelled as exact `real`s.

## Model

| member | source | states |
|---|---|---|
| `Resolver.TradeAmount` | crypto_narrative_bot.py:147 | The position never exceeds the capital. For non-negative capital it is exactly 0.2 × capital and non-negative. For negative capital it is the capital itself. |
| `Resolver.TakeProfitPrice` | crypto_narrative_bot.py:149 | For a positive entry price, the take-profit price lies above the entry. |
| `Resolver.StopLossPrice` | crypto_narrative_bot.py:150 | For a positive entry price, the stop-loss price lies strictly between 0 and the entry. |
| `Resolver.Profit` | crypto_narrative_bot.py:149-158 | For any non-zero entry price, the entry price cancels out. A take-profit earns amount × 0.25 and a stop-loss loses amount × 0.05. |
| `Resolver.OffsetCancels` | crypto_narrative_bot.py:158 | A price offset of k × entry, times the amount and divided by the entry, is k × amount. |
| `Resolver.CompoundsByFactor` | crypto_narrative_bot.py:147-159 | From non-negative capital, one sized trade multiplies capital by 1.05 on take-profit and by 0.99 on stop-loss. |
| `Resolver.StaysPositive` | crypto_narrative_bot.py:147-159 | One trade from positive capital leaves positive capital. |
| `Resolver.WorkedProfit` | crypto_narrative_bot.py:149-158 | Entry 100 and amount 10 give a profit of 2.5 on take-profit and -0.5 on stop-loss. |
| `DailySession.Goal` | crypto_narrative_bot.py:143 | The goal is positive exactly when the starting capital is positive. For positive capital it is below the capital. |
| `DailySession.TryTrade` | crypto_narrative_bot.py:146-161 | A pass completes exactly when the price came back, both alerts and the swap returned, and the price is non-zero. Each fault is raised exactly in its own case, in source order. A completed pass adds p to capital, adds max(p, 0) to earnings and adds 1 to trades, where p is ±(0.25 or 0.05) × TradeAmount(capital), whatever the price. Nothing else changes. |
| `DailySession.Run` | crypto_narrative_bot.py:145-161 | From any state, the trade count never goes past 5 and never falls. Earnings never fall. |
| `DailySession.RunDailyTrade` | crypto_narrative_bot.py:139-165 | The loop returns exactly `Session(start, draws)`, whose goal is fixed once from the starting capital. The session lemmas below then apply to the loop. |
| `DailySession.FinishesAtGoalOrCap` | crypto_narrative_bot.py:145 | A normal finish happens only when the earnings reached the goal or the trade count reached 5. |
| `DailySession.AbortsOnlyOnFault` | crypto_narrative_bot.py:145-163 | Every booked trade came from a clean draw. An abort happens only when the loop condition still held and that pass's draw raised the reported fault. |
| `DailySession.LastTradeBelowGoal` | crypto_narrative_bot.py:145-161 | No trade is booked once the goal is met: the pass that booked the last trade started with earnings below the goal and fewer than 5 trades. As earnings never fall, every earlier pass did too, so the session stops at the first trade that reaches the goal. |
| `DailySession.StepCompounds` | crypto_narrative_bot.py:147-159 | From non-negative capital, a completed pass multiplies capital by its trade's factor. |
| `DailySession.Compounds` | crypto_narrative_bot.py:145-159 | From non-negative capital, the final capital is the capital compounded by the factors (1.05 or 0.99) of the trades completed (before the raising pass, on an abort), in order. |
| `DailySession.GainWithinEarnings` | crypto_narrative_bot.py:158-160 | Capital never grows by more than the earnings do, because losses lower capital but not earnings. |
| `DailySession.SessionOutcome` | crypto_narrative_bot.py:141-165 | A whole session makes at most 5 trades. A normal finish means earnings ≥ 0.20 × the starting capital, or exactly 5 trades. The last trade was booked from a state with earnings below 0.20 × the starting capital. Every booked trade had a clean draw. An abort comes from an unclean draw at a trade below 5. Five clean draws always give a normal finish. |
| `DailySession.CapitalStaysPositive` | crypto_narrative_bot.py:141-165 | A positive starting capital ends as the start compounded by the factors of the trades completed: all trades of a finished session, or those completed before the pass that raised in an aborted one. The capital stays positive. |
| `DailySession.NothingToTrade` | crypto_narrative_bot.py:141-165 | A starting capital ≤ 0 gives a goal ≤ 0 = earnings. No trade is made and the capital is returned unchanged. |
| `DailySession.WorkedSession` | crypto_narrative_bot.py:139-165 | From 50, with clean take-profit passes, the goal of 10 is first met after the fourth trade. The session ends with capital 60.7753125 and earnings 10.7753125. |

## Left out

- Web3 set-up, address checksumming, contract construction and ABI loading
  (`load_abi`) at crypto_narrative_bot.py:16-51 and 61: library and file I/O
  with no decision logic.
- The price request (`get_token_price`, crypto_narrative_bot.py:78-83): an
  HTTP call. Its answer, or its exception, is an input of each `Draw`. Every
  symbol the loop can pick has an id in its table, so its `KeyError` cannot
  occur from this loop.
- Telegram alerts (`send_telegram_alert`, crypto_narrative_bot.py:86-91):
  HTTP that changes no state. An alert's exception is an input of each
  `Draw`; the message text is not modelled.
- A collaborator call that never returns would hang the session. The price
  request and the alerts pass no timeout to their HTTP calls, so they can
  wait forever; the model lets each of them either return or raise. The
  transaction receipt waits (lines 105, 135) raise after web3's default
  timeout of 120 seconds, which the swap flag of each `Draw` covers.
- `approve_token` and `execute_trade` (crypto_narrative_bot.py:94-136):
  signing, broadcast and receipt waiting. The swap is an input that either
  returns or raises. As written, line 110 multiplies a `Decimal` by the float
  `1e6`, which raises `TypeError` in Python. So every real swap would raise and
  end the session at its first trade. The model does not hard-wire that
  outcome.
- The random token pick and the 65/35 weighted outcome draw
  (crypto_narrative_bot.py:146, 157) are inputs. The weights are a
  probabilistic claim and are not modelled.
- `time.sleep` (line 154), the unused date string (line 140), and loading and
  saving the capital in `capital_live.json` (lines 70-75, 172-174) are I/O.
- Decimal rounding: `Decimal` works to 28 significant digits. The model uses
  exact reals, so rounding in long expansions is not captured.
- The bot has no retry or fallback for the price request, does not skip an
  unsupported symbol, and cannot be cancelled between passes. A failed price
  fetch ends the session, and the model does the same.
