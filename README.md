# scanner-cripto signal engine, modelled in Dafny

`main.py` of scanner-cripto scans crypto pairs on 4-hour candles. For each pair it builds a frame of
100 OHLCV candles with technical indicators. It evaluates six trading "setups" in a fixed priority
order, acts on the first one that matches, and sends a chat alert unless the same pair and setup
were alerted within the last hour. This project models that signal engine:

- `frames.dfy` (module `Frames`): candles, the indicator columns and the whole-column statistics the
  rules use. These are the mean of a column (`Series.mean()`) and the largest `high` of the nine bars
  before the last (`iloc[-10:-1].max()`).
- `patterns.dfy` (module `Patterns`): the candle detectors `detectar_candle_forte`,
  `detectar_martelo` and `detectar_engolfo`.
- `setups.dfy` (module `Setups`): `verificar_setup_1` … `verificar_setup_6`. Setups 1 and 2 use
  `all(...)`, Setups 3 and 5 use `sum(...) >= k`, and Setups 4 and 6 use `and` chains. Each
  returns the setup's description or nothing. The module also proves how the setups relate to
  each other. A well-formed bar is one whose low and high enclose its open and close.
- `engine.dfy` (module `Engine`): the priority order 5, 6, 1, 2, 4, 3 and first-match-wins.
- `alerts.dfy` (module `Alerts`): the deduplication rules as pure functions. These cover the alert
  key `"{par}_{setup}"`, the one-hour check-and-set of `pode_enviar_alerta`, the stop/target levels,
  and the step `enviar_alerta_completo` takes on the alert map and on the set of alerted pairs.
- `scanner.dfy` (module `Scanning`): the module-level state as a class. `alertas_enviados` is a
  `map<string, int>` field and `pares_alertados_no_ciclo` a `set<string>` field. The class has
  methods for `pode_enviar_alerta`, `enviar_alerta_completo` and `analisar_moeda`. Each method is
  proved against the pure functions above. The caller's `resultados` list is the `Results` class.

Inputs the code gets from outside are parameters:

- the current time, in whole seconds;
- whether the message send succeeded;
- what the exchange fetch returned (`None` when it raised);
- the indicator columns computed by the `ta` and `pandas_ta` libraries.

EMA(200) needs 200 bars and the frame holds 100, so that column is `Option<real>`. An undefined
entry makes `close > ema200` false, as a comparison with NaN is in pandas.

Properties proved besides the contracts of each operation:

- Setup 3 matches exactly when two of its three conditions hold. Setup 5 matches exactly when at
  least six of its ten condition positions hold. While EMA(200) is undefined, Setup 5 needs six of
  the other nine.
- The Setup 6 breakout means closing above each of the nine preceding highs. With the last bar
  included, no well-formed bar could break out.
- With non-negative volumes, Setup 1 implies Setup 2, and Setup 2 implies Setup 3.
- With non-negative volumes, Setup 1 implies Setup 5. Setup 5 is tried first, so Setup 1 is never
  the setup acted on (`Engine.Setup1NeverWins`).
- The setup acted on is the first match in priority order, and no later setup decides anything.
- `analisar_moeda` appends the pair once when a setup matches and never otherwise. It does nothing
  for fewer than 100 candles.
- Within any hour, a pair-and-setup key is approved at most once, whatever the request times.
- Alert keys of different pairs or setups never collide.
- Once a pair is in the alerted set, every later Setup 3 for it is dropped.

Facts about `main.py` the model keeps:

- The minimum series length is `limite_candles = 100` (main.py:34, main.py:334).
- A pair joins the alerted-pairs set after any successful send, Setup 3 included (main.py:320-322).
- No code in `main.py` resets that set, so the model never resets it.
- The cooldown entry is written when eligibility is decided, before the send (main.py:129). A
  failed send therefore still starts the one-hour cooldown (`Alerts.AlertStep`, outcome
  `SendFailed`).
- A frame with RSI 35, a 9/21 cross, MACD above its signal, ADX 25, volume twice its mean and
  Supertrend up also matches Setup 5, so Setup 5 is the one acted on (`Setups.Setup1ImpliesSetup5`,
  `Engine.Setup1NeverWins`).

## Model

| member | source | states |
|---|---|---|
| `Frames.MeanBounds` | main.py:218 | the column mean lies between any lower and upper bound of the column |
| `Frames.MeanNonNegative` | main.py:206 | a column of non-negative values has a non-negative mean |
| `Frames.SumBounds` | main.py:218 | bounds on every entry bound the column sum by length times the bound |
| `Frames.NonNegativeSum` | main.py:206 | a sum of non-negative values is non-negative |
| `Frames.Mean` | main.py:218 | `Series.mean()` of a column is no larger than some entry and no smaller than some entry |
| `Frames.MaxOf` | main.py:264 | `max()` over a stretch of a column is at least every entry there and equals one of them |
| `Frames.ResistanceWindow` | main.py:264 | `iloc[-10:-1]` of a column is the nine entries right before the last (fewer, starting at the first entry, on a short column) |
| `Patterns.IsStrong` | main.py:135-140 | a strong well-formed candle is never a doji, and its body is more than a third of its range |
| `Patterns.IsHammerAsWritten` | main.py:142-147 | the hammer test as written never holds on a well-formed candle |
| `Patterns.HammerAsWrittenMissesHammer` | main.py:142-147 | a concrete textbook hammer that the test as written rejects and the corrected test accepts |
| `Patterns.IsHammer` | main.py:142-147 | corrected hammer: on a well-formed candle the body is non-empty and the lower shadow is over half the range |
| `Patterns.IsEngulfing` | main.py:149-152 | engulfing implies last open < previous close < previous open < last close, and a longer last body |
| `Setups.CountTrue` | main.py:229 | `sum()` over a condition list never exceeds the list's length |
| `Setups.CountTrueIsCardinality` | main.py:259 | the `sum()` count equals the number of positions whose condition holds |
| `Setups.CountTrueAll` | main.py:201-208 | `all()` holds exactly when every condition is counted |
| `Setups.CountTrueAppend` | main.py:259 | counting distributes over joining condition lists |
| `Setups.CheckSetup1` | main.py:200-210 | Setup 1 returns its own description or nothing, and a match needs a strict EMA 9/21 cross on the last bar |
| `Setups.CheckSetup2` | main.py:212-221 | Setup 2 returns its own description or nothing, and a match has EMA 9 above EMA 21 and volume above its mean |
| `Setups.CheckSetup3` | main.py:223-231 | Setup 3 returns its own description or nothing |
| `Setups.Setup3TwoOfThree` | main.py:223-231 | Setup 3 matches iff some two of EMA 9 > EMA 21, ADX > 15 and volume above mean hold together |
| `Setups.CheckSetup4` | main.py:233-244 | Setup 4 returns its own description or nothing; every match is a hammer on the last bar and never an engulfing |
| `Setups.Setup4AsWrittenNeverMatches` | main.py:233-244 | with the detectors as written, a bullish previous bar plus a reversal candle never holds on a well-formed last bar |
| `Setups.CheckSetup4AsWritten` | main.py:233-244 | Setup 4 with the hammer test as written returns its own description or nothing, and nothing at all on a well-formed last bar |
| `Setups.Setup4CanMatch` | main.py:233-244 | with the corrected hammer a concrete two-bar frame matches Setup 4 |
| `Setups.CheckSetup5` | main.py:246-261 | Setup 5 returns its own description or nothing |
| `Setups.Setup5SixOfTen` | main.py:246-261 | Setup 5 matches iff at least six of its ten condition positions hold |
| `Setups.Setup5WithoutEma200` | main.py:254 | while EMA(200) is undefined, Setup 5 matches iff six of its other nine conditions hold |
| `Setups.Resistance` | main.py:264 | the resistance is at least the `high` of each of the nine bars before the last and equals one of them |
| `Setups.CheckSetup6` | main.py:263-270 | Setup 6 returns its own description or nothing |
| `Setups.BreakoutAboveEachHigh` | main.py:264-265 | a close above the resistance is exactly a close above each `high` of the nine bars before the last |
| `Setups.Setup6Breakout` | main.py:263-270 | Setup 6 matches iff the close tops each preceding high, volume is above mean, RSI > 55 and rising, and Supertrend is set |
| `Setups.BreakoutIncludingLastImpossible` | main.py:264 | a window that included the last bar could never be broken by a well-formed last bar |
| `Setups.QuietBarFailsVolume` | main.py:218 | a last bar with the smallest volume of the window never passes the volume-above-mean test |
| `Setups.Setup1ImpliesSetup2` | main.py:200-221 | with non-negative volumes every Setup 1 match is a Setup 2 match |
| `Setups.Setup2ImpliesSetup3` | main.py:212-231 | every Setup 2 match is a Setup 3 match |
| `Setups.Setup1ImpliesSetup5` | main.py:200-261 | with non-negative volumes every Setup 1 match is a Setup 5 match |
| `Engine.InfoInjective` | main.py:209-269 | different setups return different descriptions |
| `Engine.Check` | main.py:359-367 | calling setup `id` yields that setup's description or nothing |
| `Engine.FirstMatch` | main.py:359-371 | the index found matches, every earlier setup does not, and none is found only when none matches |
| `Engine.Evaluate` | main.py:359-371 | the result is nothing iff no setup in the order 5, 6, 1, 2, 4, 3 matches, and otherwise the match of a setup all of whose predecessors in that order fail |
| `Engine.EvaluateAsWritten` | main.py:359-371 | with Setup 4 as written the dispatch never yields Setup 4 on a well-formed last bar |
| `Engine.EvaluateAsWrittenDiffersOnlyOnSetup4` | main.py:359-371 | on a well-formed last bar the as-written dispatch agrees with `Engine.Evaluate` except where the corrected Setup 4 wins, and there it yields Setup 3's result |
| `Engine.Rank` | main.py:359-366 | each setup has exactly one place in the order 5, 6, 1, 2, 4, 3 |
| `Engine.EvaluateWinner` | main.py:359-371 | setup `id` is acted on iff it matches and every setup ranked before it does not |
| `Engine.EvaluateNone` | main.py:359-371 | nothing is acted on iff no setup matches |
| `Engine.Setup5AlwaysWins` | main.py:359-371 | a Setup 5 match is always the one acted on |
| `Engine.Setup1NeverWins` | main.py:359-371 | with non-negative volumes Setup 1 is never the one acted on |
| `Engine.Setup3OnlyAlone` | main.py:359-371 | Setup 3 is acted on iff it matches and none of the other five do |
| `Alerts.AlertKeyInjective` | main.py:123 | when neither label contains `_`, the key determines its pair and its label |
| `Alerts.SeparatorInLongerLabel` | main.py:123 | equal keys with labels of different lengths put the separator inside the longer label |
| `Alerts.LabelHasNoUnderscore` | main.py:209-269 | no setup label contains `_` |
| `Alerts.SetupKeysDistinct` | main.py:123 | two alerts share a cooldown entry only for the same pair and the same setup |
| `Alerts.CheckAndSet` | main.py:121-131 | approved iff the key is absent or its last alert is at least 3600 s old; on approval the key holds `now`, else the map is unchanged; no other key changes |
| `Alerts.RefusedWithinCooldown` | main.py:125-128 | a second request less than an hour after an approved one is refused |
| `Alerts.ApprovedAfterCooldown` | main.py:125-129 | a request at least an hour after an approved one is approved again |
| `Alerts.Replay` | main.py:121-131 | successive requests give one answer each |
| `Alerts.ApprovalsAfterStored` | main.py:125-129 | every approval in a run of requests is at least an hour after the time stored at the start |
| `Alerts.ApprovalsSpaced` | main.py:121-131 | any two approvals of one key are at least 3600 s apart, whatever the request times |
| `Alerts.TradeLevels` | main.py:290-292 | the stop is 1.5 ATR below the close and the target twice as far above; with a positive ATR the price lies strictly between them |
| `Alerts.AlertStep` | main.py:285-329 | the outcome is `SkippedSetup3` iff the Setup 3 gate is closed, and then nothing changes; otherwise the cooldown check decides, the key records `now` when approved, and the pair joins the alerted set iff approved and sent |
| `Alerts.RunAlertsGrows` | main.py:320-323 | over any run of alerts no cooldown key and no alerted pair is ever removed |
| `Alerts.Setup3DroppedOnceAlerted` | main.py:286-288 | once a pair is alerted, every later Setup 3 for it is dropped with nothing changed |
| `Alerts.AlertStepKeepsOtherKeys` | main.py:320 | an alert touches no cooldown entry but its own |
| `Scanning.Scanner.constructor` | main.py:118-119 | the alert map starts as loaded and the alerted set starts empty |
| `Scanning.Scanner.CanSendAlert` | main.py:121-131 | returns the eligibility of the key and leaves the map as the check-and-set says |
| `Scanning.Scanner.SendFullAlert` | main.py:285-329 | the new alert map, alerted set and outcome are exactly those of the alert step |
| `Scanning.Scanner.AnalyzePair` | main.py:331-371 | a missing or short series changes nothing; otherwise the first match in priority order is alerted and the pair appended once, and with no match nothing changes |

## Left out

- Indicator computation (EMA, RSI, ATR, MACD, ADX, OBV, Supertrend, main.py:154-160 and
  main.py:345-355) is done by third-party libraries. The columns are inputs. Only EMA(200) may be
  undefined. Undefined entries elsewhere, such as early RSI values, are not modelled.
- The Supertrend flag is taken as the given boolean column. `SUPERT_10_3.0 > 0` tests the band value
  and not the direction column, so for positive prices it holds once defined. The model does not
  capture that.
- Floating-point arithmetic, NaN other than EMA(200), and the `round(..., 4)` of stop and target
  (main.py:291-292) are left out. Prices are exact reals.
- Time is whole seconds. The sub-second part of `total_seconds()` is left out.
- Persistence with `shelve` (`carregar_alertas` and `salvar_alertas`, main.py:102-116) is file I/O.
  The constructor takes the loaded map, and saving is not modelled.
- `lock_alertas` and the threads (main.py:55-56, main.py:124) are concurrency. Each operation is
  modelled as one atomic step.
- The Flask webhook, Telegram commands and `enviar_telegram` (main.py:61-97, main.py:272-283) are
  network code. The send result is a parameter.
- `obter_dados_fundamentais`, `obter_eventos_macroeconomicos` and `obter_top_moedas`
  (main.py:162-197, main.py:377-410) are HTTP calls, cache files and wall-clock dates.
- The alert message text (main.py:294-318) is presentation only. Only its stop and target are
  modelled.
- `formatar_string` (main.py:26-27) is unused.
- The exchange fetch and the exception logging (main.py:333, main.py:373-375) are I/O. A raised
  exception is a `None` fetch result and changes nothing.
- `main.py` contains no scan loop: nothing in it calls `analisar_moeda`, and the comment at
  main.py:133-134 says the rest of the program was never pasted in. So the scan cycle, and any
  reset of the alerted set, are not modelled.
- Setups.CheckSetup4: uses the corrected hammer test `Patterns.IsHammer`, not the test as written.
  As written, Setup 4 never matches a well-formed candle (see Findings). `Setups.CheckSetup4AsWritten`
  models the test as written.
- Engine.Evaluate: dispatches the corrected Setup 4. On a frame ending in a real hammer after a
  bullish bar (as in `Setups.Setup4CanMatch`) it yields Setup 4, where the code as written falls
  through to Setup 3. `Engine.EvaluateAsWritten` models the dispatch as written, and
  `Engine.EvaluateAsWrittenDiffersOnlyOnSetup4` proves this is the only difference.
- Scanning.Scanner.AnalyzePair: acts on `Engine.Evaluate`, so on such a frame it alerts under the
  Setup 4 key and appends the pair. The code as written alerts under Setup 3 when Setup 3 matches,
  and otherwise does nothing.

## Findings

| source | as written | input that shows it | evidently intended | confidence | as-written member | corrected member |
|---|---|---|---|---|---|---|
| main.py:145 | the lower shadow is `low - min(close, open)`, which is never positive when the low is below the body. The hammer test therefore never holds. Setup 4 also needs a bullish previous bar, which excludes the engulfing pattern, so Setup 4 can never match | candle open 10, high 11.2, low 7, close 11: a hammer that the test rejects | lower shadow `min(close, open) - low`, so hammers are detected and Setup 4 can match | not executed; high | `Patterns.IsHammerAsWritten` | `Patterns.IsHammer` |
