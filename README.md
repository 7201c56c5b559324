# Spot/futures divergence monitor — a Dafny model

This project models the core of a price-divergence alerting service. Gate.io
futures quotes are the reference price of every tracked symbol. Spot quotes
from the enabled exchanges (Gate.io, Bybit) are compared with that reference.
An alert goes to Telegram when the gap reaches a threshold, either in percent
of the spot price or as an absolute amount.

The model covers three parts of the source:

- **The tiered monitor** (`monitors/price_monitor.py`). It has:
  - a price board written by the feed callback, modelled as the class
    `PriceMonitor.Monitor`;
  - the per-symbol breach collection;
  - severity: one breach entry is a WARN, two or more an EMERGENCY (an
    exchange listed twice in `ENABLED_EXCHANGES` is visited and counted twice,
    so one exchange alone can raise an EMERGENCY, as in the code);
  - per-level cooldowns and the WARN→EMERGENCY escalation override;
  - the timestamp update after a successful send;
  - the average and maximum reported in an EMERGENCY message.
- **The older single-pair monitor** (`price_monitor.py`): one spot price, one
  futures price and one cooldown, as the class
  `SinglePairMonitor.PairMonitor`.
- **The Bybit symbol mapping** (`monitors/exchanges/bybit.py`):
  - `BASE_QUOTE` becomes `BASEQUOTE` on the wire;
  - the first-match reverse lookup;
  - the filter that decides which messages become price updates.

The modules are:

- `Wrappers`: `Option`.
- `Divergence`: the arithmetic shared by both monitors, which is
  `futures - spot`, `diff / spot * 100`, `abs` and the `>=` threshold test.
- `PriceMonitor`, `SinglePairMonitor` and `Bybit`, one per source file.

Each operation's contract gives its result or new state either outright (the
board writes, the listeners) or through a pure function (`Assess`, `Step`,
`Steps`, `Exceeded`, `LatestQuote`, `Emit`). The lemmas prove the properties
the source promises about those functions.

Modelling conventions:
- Prices and times are `real`.
- The clock reading `now` and the notifier's success flag `delivered` are
  parameters. The multi-symbol loop reads the clock at most once per symbol,
  after the breach count is known (monitors/price_monitor.py:292). `Cycle`
  takes one reading per symbol; the reading of a symbol that is Cold or Calm
  is never used.
- Auxiliary ticker fields (24h change, mark price, …) are an opaque
  `map<string, string>` that is passed through unchanged.

Two facts about the code shape the model:
- **Zero spot prices.** The code has no zero-price guard before its divisions
  (monitors/price_monitor.py:256, 259 in both modes; price_monitor.py:188 in
  percentage mode), so a zero spot price raises `ZeroDivisionError` there. The
  model therefore requires non-zero spot prices (`SpotReady`, `BoardReady`,
  `PricesReady`); a zero price is not skipped. Such a price can reach the
  board: the Bybit adapter emits price 0 for a ticker without `lastPrice`
  (monitors/exchanges/bybit.py:60, modelled by `Bybit.Emit`), and
  `price_monitor()` (monitors/price_monitor.py:221-315) has no `try`, so one
  such message ends the monitor thread for good.
- **Thresholds.** There is one global threshold (monitors/price_monitor.py:33)
  and no per-symbol override.

## Model

| member | source | states |
|---|---|---|
| PriceMonitor.Monitor.constructor | monitors/price_monitor.py:57-63 | An empty spot board for every enabled exchange, no futures prices, and both timestamps 0 for every symbol. |
| PriceMonitor.Monitor.OnPriceUpdate | monitors/price_monitor.py:111-133 | A Gate.io futures sample overwrites only that symbol's futures price and data. A spot sample from an enabled exchange overwrites only that exchange/symbol cell. Everything else is dropped: a futures sample from another exchange, a spot sample from an unknown exchange, any other price type. Alert timestamps never change. |
| PriceMonitor.CollectExceeded | monitors/price_monitor.py:243-277 | The loop's appended list is exactly `Exceeded`: exchanges without a sample are skipped, and breaching ones are appended in configured order. |
| PriceMonitor.ExceededExact | monitors/price_monitor.py:245-277 | Every entry belongs to a configured exchange with a sample for the symbol, and carries the exact `futures - spot` and `diff/spot*100` of that sample. Its measure (`abs` of the percentage or of the difference) is `>=` the threshold. A configured exchange has an entry iff its sample breaches. |
| PriceMonitor.ExceededAppend | monitors/price_monitor.py:245-277 | Entries follow `ENABLED_EXCHANGES` order: splitting the exchange list splits the entry list the same way. |
| PriceMonitor.ExceededIgnoresOtherSymbol | monitors/price_monitor.py:247-250 | Writing another symbol's spot quote leaves this symbol's entries unchanged. |
| PriceMonitor.Record | monitors/price_monitor.py:315 | The dispatched level's timestamp becomes `now` and the other level's is kept. |
| PriceMonitor.Assess | monitors/price_monitor.py:237-303 | Cold iff no futures price. With a futures price, Calm iff no configured exchange breaches (`Exceeded` is empty). An alert's entries are exactly `Exceeded`, there is at least one, and it is WARN iff there is exactly one entry (EMERGENCY for two or more entries; entries are counted per list position, so a duplicated exchange counts twice). Escalation holds iff the level is EMERGENCY, last WARN > last EMERGENCY, and `now - lastWARN < WARN_COOLDOWN`. Dispatch iff escalation or `now - last[level] >= cooldown[level]`. |
| PriceMonitor.Step | monitors/price_monitor.py:303-315 | One symbol's evaluation keeps the key set of the timestamp table. |
| PriceMonitor.Steps | monitors/price_monitor.py:234-315 | A cycle over the symbols keeps the key set of the timestamp table. |
| PriceMonitor.StepsPrefix | monitors/price_monitor.py:234 | A cycle over the first `i + 1` symbols is the cycle over the first `i` followed by symbol `i`'s step, with that step's preconditions met. |
| PriceMonitor.Monitor.CheckSymbol | monitors/price_monitor.py:235-315 | The verdict is `Assess` of the current board and timestamps. Without a futures price it is Cold and nothing changes. The timestamp table becomes `Step`, so it is written only after a dispatch the notifier confirmed. The board invariant is kept. |
| PriceMonitor.Monitor.Cycle | monitors/price_monitor.py:234-315 | After the pass over `SYMBOLS`, the timestamp table is `Steps` over those symbols in order, with each symbol's clock reading and send outcome. |
| PriceMonitor.Summarize | monitors/price_monitor.py:176-189 | The loop computes `SumAbs` (the sum of `abs(diff_pct)`) and `Largest` (the running maximum that starts at (0, "")). |
| PriceMonitor.LargestBoundsAll | monitors/price_monitor.py:187-189 | Every entry's `abs(diff_pct)` is at most the reported maximum's. |
| PriceMonitor.LargestIsFirstMaximum | monitors/price_monitor.py:177-189 | The reported maximum is either (0, "") with all percentages 0, or the first entry of largest magnitude: positive, strictly larger than every earlier entry, and at least as large as every entry. |
| PriceMonitor.SumAbsAtMost | monitors/price_monitor.py:186 | Magnitudes each at most `hi` sum to at most `n * hi`. |
| PriceMonitor.SumAbsAtLeast | monitors/price_monitor.py:186 | Magnitudes each at least `lo` sum to at least `n * lo`. |
| PriceMonitor.MaxAtLeastAverage | monitors/price_monitor.py:201-203 | The reported maximum magnitude is at least the reported average. |
| PriceMonitor.AverageAtLeastThreshold | monitors/price_monitor.py:186-201 | If every entry's magnitude reaches the threshold, so does the average. |
| PriceMonitor.EmergencyStatistics | monitors/price_monitor.py:199-203 | In percentage mode, any alert's average is `>=` the threshold and its maximum is `>=` the average. |
| PriceMonitor.NoEscalationFromNever | monitors/price_monitor.py:296-301 | With both timestamps at their initial 0, an EMERGENCY is never an escalation. |
| PriceMonitor.NoRepeatWithinCooldown | monitors/price_monitor.py:292-303 | A level dispatched at `t0` is not dispatched again before `t0 + cooldown`, unless a WARN was sent after `t0` and escalates it. |
| PriceMonitor.FailedSendRetries | monitors/price_monitor.py:314-315 | A failed send leaves all timestamps unchanged. A non-escalation dispatch due now stays due at any later time. |
| PriceMonitor.StepTouchesOneCell | monitors/price_monitor.py:314-315 | A confirmed dispatch sets only `[symbol][level]` to `now`. The other level and every other symbol are unchanged, and without a confirmed dispatch nothing changes. |
| PriceMonitor.StepMonotone | monitors/price_monitor.py:292-315 | One step at a clock reading no earlier than every timestamp moves no timestamp backwards and none past that reading. |
| PriceMonitor.StepsMonotone | monitors/price_monitor.py:234-315 | Over a cycle with a non-decreasing clock that starts no earlier than every timestamp, no timestamp decreases and none ends after the last reading. |
| PriceMonitor.ColdSymbolUntouched | monitors/price_monitor.py:237-238 | Over a whole cycle, a symbol with no futures price keeps its timestamps, whatever the notifier reports. |
| PriceMonitor.FuturesUpdateIsLocal | monitors/price_monitor.py:237-240 | A futures price written for another symbol does not change this symbol's verdict. |
| PriceMonitor.SpotUpdateIsLocal | monitors/price_monitor.py:247-250 | A spot price written for another symbol does not change this symbol's verdict. |
| PriceMonitor.DuplicateExchangeCountsTwice | monitors/price_monitor.py:245-289 | With `ENABLED_EXCHANGES` = [e, e] and e breaching, the loop records two entries, both for e, so the verdict is an EMERGENCY. |
| PriceMonitor.EndToEndExample | monitors/price_monitor.py:253-289 | At 0.5%, futures 440.42 against bybit 437.00 and gateio 438.50 yields one entry, for bybit (diff 3.42), so a WARN that is dispatched. |
| PriceMonitor.WarnCooldownScenario | monitors/price_monitor.py:284-303 | A WARN sent at t=1000 blocks another WARN at t=1100 (cooldown 300 s). |
| PriceMonitor.EscalationScenario | monitors/price_monitor.py:296-303 | After a WARN at t=1000, an EMERGENCY at t=1060 escalates and is sent at once. After it, the next EMERGENCY is blocked at t=1100 and allowed at t=1240 (cooldown 180 s). |
| SinglePairMonitor.Assess | price_monitor.py:179-206 | Skipped iff either price is missing. A breach (attempted or cooling) holds iff both prices are present and the measure reaches the threshold. An attempt only happens once the cooldown has passed, and a cooling verdict only inside it. |
| SinglePairMonitor.LatestQuoteIsLast | price_monitor.py:145-148 | No quote iff no ticker names the symbol. Otherwise the quote is a ticker for the symbol with no later ticker for it. |
| SinglePairMonitor.AlertsAreSpaced | price_monitor.py:206-236 | After an alert sent at `t0`, nothing is attempted before `t0 + COOLDOWN_SECONDS`. |
| SinglePairMonitor.DefaultsScenario | price_monitor.py:180-206 | Under the defaults, a 1% premium is attempted at t=1000 and held back at t=1100 after a send at 1000. A missing futures price skips the pass. |
| SinglePairMonitor.AbsoluteModeRaisesInsteadOfAlerting | price_monitor.py:186-208 | As written, a pass raises iff it is in absolute mode and the intended logic would attempt an alert. Every other pass agrees with `Assess`, and absolute mode never attempts an alert. |
| SinglePairMonitor.AbsoluteModeCounterexample | price_monitor.py:192-208 | A 2.0 gap on spot 400 at a 1.0 absolute threshold raises, where the intended logic attempts the alert. |
| SinglePairMonitor.PairMonitor.constructor | price_monitor.py:30-34 | Both prices start missing, both data maps empty, and the last alert time 0. |
| SinglePairMonitor.PairMonitor.OnSpotMessage | price_monitor.py:101-112 | An `update` on `spot.tickers` overwrites the spot price and data with the latest ticker. Any other message changes nothing. |
| SinglePairMonitor.PairMonitor.OnFuturesMessage | price_monitor.py:142-158 | On an `update` of `futures.tickers`, the futures price and data become those of the last ticker whose contract is the symbol. They are unchanged when no ticker matches or the message is anything else. |
| SinglePairMonitor.PairMonitor.Check | price_monitor.py:179-236 | The outcome is `Assess` of the current state. The last alert time becomes `now` iff an alert was attempted and the send succeeded. |
| Bybit.ConvertSymbol | monitors/exchanges/bybit.py:17-22 | The wire symbol contains no `_` and is no longer than the input. |
| Bybit.ConvertKeepsCharacters | monitors/exchanges/bybit.py:22 | Exactly the input characters other than `_` occur in the result. |
| Bybit.ConvertKeepsPlain | monitors/exchanges/bybit.py:22 | A symbol without `_` is unchanged. |
| Bybit.ConvertIdempotent | monitors/exchanges/bybit.py:22 | Converting twice is converting once. |
| Bybit.ConvertConcat | monitors/exchanges/bybit.py:22 | The conversion distributes over concatenation, keeping order. |
| Bybit.ConvertJoin | monitors/exchanges/bybit.py:19-22 | `BASE_QUOTE` becomes `BASEQUOTE` for any separator-free base and quote. |
| Bybit.ConvertMerges | monitors/exchanges/bybit.py:53-57 | The distinct symbols `BASE_QUOTE` and `BASEQUOTE` share a wire form, so the reverse lookup can only keep the first. |
| Bybit.ConvertAll | monitors/exchanges/bybit.py:29 | No wire symbol contains `_`, and a string is a wire symbol iff some tracked symbol converts to it; position `i` holds the conversion of tracked symbol `i`. |
| Bybit.SubscribeArgs | monitors/exchanges/bybit.py:36 | Each subscription argument is `tickers.` followed by the corresponding wire symbol. |
| Bybit.FirstMatchIsFirst | monitors/exchanges/bybit.py:53-57 | Over the converted list, the lookup finds nothing iff no tracked symbol converts to the wire symbol. Otherwise it returns the first tracked symbol that does. |
| Bybit.ReverseLookup | monitors/exchanges/bybit.py:53-57 | The `for`/`break` loop returns exactly `FirstMatch` (first pair under `zip` semantics). |
| Bybit.HandleMessage | monitors/exchanges/bybit.py:47-74 | The receive-loop body produces exactly `Emit`. Only `tickers.` topics count; a tracked symbol that is missing or "" yields nothing; a missing `lastPrice` yields 0. |
| Bybit.EmittedUpdatesAreTracked | monitors/exchanges/bybit.py:47-74 | Every emitted update is exchange `bybit`, type `spot`, and has a non-empty tracked symbol whose wire form is the message's symbol. Its topic starts with `tickers.` and its price is `lastPrice` or 0. |
| Bybit.UnknownSymbolIsDropped | monitors/exchanges/bybit.py:53-59 | A wire symbol that no tracked symbol converts to emits nothing. |
| Bybit.SubscribedSymbolRoundTrips | monitors/exchanges/bybit.py:29-59 | A message on a subscribed topic for a non-empty tracked symbol whose wire form no earlier symbol shares is emitted under that very symbol. |

## Left out

- The Telegram send (`send_telegram_message`, an HTTP POST through an optional proxy) is not modelled. Its result is the `delivered` parameter.
- The clock (`time.time()`) is the `now` parameter.
- The WebSocket connect/receive/reconnect loops, JSON decoding and its failures, the threads, and the lock are not modelled. Each cycle and each callback is treated as atomic. `monitors/exchanges/base.py` (the connector start/stop) is not part of this model.
- Message text, emoji, `:.2f` rounding and time-zone formatting are not modelled. Only the numeric average and maximum are. A message whose maximum exchange is "" is possible when all percentages are 0, and `LargestIsFirstMaximum` states it.
- Environment-variable parsing is not modelled: the comma splitting and stripping of both `EXCHANGES` and `MONITOR_SYMBOLS`, and the lower-casing of `EXCHANGES` only. The configuration is a constructor parameter.
- Floating-point rounding is not modelled: prices and times are exact reals, and `float(...)` parsing of ticker fields is not modelled either.
- A zero spot price is not modelled: the unguarded divisions raise `ZeroDivisionError` in the source. The operations require non-zero spot prices (`SpotReady`, `BoardReady`, `PricesReady`) instead.
- The extraction of auxiliary ticker fields (24h change, mark/index price, funding rate) is reduced to an opaque map that is passed through.
- `monitors/exchanges/gateio.py`, `monitors/exchanges/__init__.py`, `monitors/jupiter_queto.py`, `monitors/price_jupiter_monitor.py`, `bot/*`, `services.py`, `spot_ws.py` and `future_ws.py` are not part of this model. They are socket plumbing, HTTP quote tools, bot glue and debug scripts.
- PriceMonitor.Monitor.Cycle: returns no verdicts, only the new timestamp table. Each symbol's verdict is stated by `CheckSymbol`.
- SinglePairMonitor.PairMonitor.Check: models the intended decision. The crash the source raises in absolute mode is modelled separately under Findings.

## Findings

| source | as written | input that shows it | evidently intended | confidence | as-written member | corrected member |
|---|---|---|---|---|---|---|
| price_monitor.py:186-208 | In absolute mode `price_diff_pct` is never assigned, yet the alert branch formats it for the premium line, so the pass raises instead of sending (and the monitor thread ends) | `USE_PERCENTAGE=false`, threshold 1.0, spot 400, futures 402, no earlier alert, t=1000 | Send the alert, computing the premium from `price_diff / spot_price * 100` | high for the code path; not executed | SinglePairMonitor.AbsoluteModeCounterexample | SinglePairMonitor.Assess |
