# Futures risk calculator — a Dafny model

This project models the calculation core of a small futures-trading risk
calculator that exists as two page scripts, `app.py` and `tradingapp.py`.
Both scripts declare the same registry of six futures instruments (name,
symbol, tick index, contract size) and a function `calculate_ticks_and_points`.
From an opening profit and a risk amount it computes:

- a target profit, as a fixed fraction of the opening profit;
- the ticks and points needed to reach that target;
- the ticks and points that the risk amount allows as a stop loss.

A tick is worth `tick_index * contract_size` dollars, and four ticks make a
point. The two scripts differ in three ways:

- **Fraction.** `app.py` uses 0.49 and `tradingapp.py` uses 0.30.
- **Return values.** `app.py`'s function also returns the tick value, six
  values in all; `tradingapp.py`'s returns five.
- **Call site.** `app.py` offers a placeholder entry in its instrument list.
  `tradingapp.py` passes the tick value where the function expects the tick
  index, so the contract size is applied twice (see Findings).

Modules:

- `Instruments` (`Instruments.dfy`): the registry. It is kept as the ordered
  entry list of the dictionary literal. `Table()` is the dictionary that
  literal denotes; a later duplicate key would win, as in Python. `Names()`
  is its key list in declaration order. The lemmas prove that every entry has
  a positive tick index and contract size, that the names are six distinct
  keys, and that no contract size is 1.
- `RiskCalculator` (`RiskCalculator.dfy`): the conversion, written once with
  the fraction as a parameter. It also holds the input guard
  `opening_profit > 0 and risk_amount >= 0` and the `Panel` datatype for the
  calculation area of the page: not requested, warning, or results.
- `App` (`App.dfy`): `app.py`. It fixes the fraction at 0.49 and adds the
  tick value as the sixth result. `Run` models one pass of the script over
  the selection, the two number inputs and the button.
- `TradingApp` (`TradingApp.dfy`): `tradingapp.py`. It fixes the fraction at
  0.30 and models the call site as written. `CorrectedPanel` is the call as
  evidently intended.

The scripts' behaviour is a single pass from inputs to a screen. Each script
is therefore a pure function from `(selection, opening profit, risk amount,
button pressed)` to a `Screen` value. The screen says which of the page's
branches ran and which numbers it shows.

Facts about the code that the model makes explicit:

- Neither script has an error path for an unknown name or a bad instrument.
  The dictionary lookup only ever receives a name taken from the selection
  list, and the division only ever receives a table entry. The model states
  both facts as preconditions and proves that every caller meets them.
- For the Nasdaq example at 30% (opening profit 1000, risk 200), the call as
  written in `tradingapp.py` shows 3 target ticks and 2 stop-loss ticks. The
  corrected call gives 60 and 40 (`TradingApp.NasdaqExample`).
- The comment at `app.py:19` says 30%. The code at line 20 and the help text
  at line 96 say 49%. The model follows the code.

## Model

| member | source | states |
|---|---|---|
| `Instruments.ToMap` | app.py:4-11 | a name is a key of the dictionary built from a literal exactly when some entry of the literal carries that name |
| `Instruments.KeyList` | app.py:107 | the key list has one name per entry, the i-th entry's name at position i (declaration order) |
| `Instruments.ToMapAt` | app.py:4-11 | with distinct names, the dictionary maps each entry's name to that entry's record |
| `Instruments.ToMapValue` | app.py:4-11 | every record the dictionary holds is the record of some entry under the same name |
| `Instruments.FuturesEntryFacts` | app.py:4-11 | each declared record has a positive tick index, a positive contract size, and a contract size other than 1 |
| `Instruments.FuturesNamesDistinct` | app.py:4-11 | the six declared names are pairwise distinct |
| `Instruments.WellFormedTickValue` | app.py:16 | an instrument with a positive tick index and contract size has a positive tick value |
| `Instruments.TableWellFormed` | tradingapp.py:4-11 | every registry instrument has tick index > 0 and contract size > 0, so its tick value is positive and every division by it is defined |
| `Instruments.NamesDistinct` | tradingapp.py:107 | the selection list built from the keys has six names without repetition |
| `Instruments.NamesAreKeys` | tradingapp.py:107-110 | a name is in the selection list exactly when it is a key of the registry, so the lookup always succeeds |
| `Instruments.NameLooksUpEntry` | tradingapp.py:107-110 | the i-th name of the selection list looks up the i-th declared record |
| `Instruments.ContractSizesNotOne` | tradingapp.py:4-11 | no registry instrument has a contract size of 1 |
| `RiskCalculator.CalculateTicksAndPoints` | app.py:14-32 | the target profit is the fraction of the opening profit; target ticks times the tick value gives back the target profit; stop-loss ticks times the tick value gives back the risk; four times the points gives the ticks, for target and for stop loss |
| `RiskCalculator.PointsConvertBack` | app.py:26-30 | when four times the points gives the ticks and the ticks convert back to a dollar amount at a tick value, the points convert back to that amount at four times the tick value |
| `RiskCalculator.GuardedSigns` | app.py:137-144 | when opening profit > 0, risk >= 0, the fraction is positive and the divisor is positive, the target profit, ticks and points are strictly positive and the stop-loss ticks and points are non-negative |
| `RiskCalculator.ZeroRiskZeroStopLoss` | tradingapp.py:29-30 | a risk amount of 0 gives 0 stop-loss ticks and 0 stop-loss points, whatever the other inputs |
| `App.CalculateTicksAndPoints` | app.py:14-32 | the sixth value is tick index × contract size; the target profit is 0.49 × the opening profit; ticks times that tick value give back the target profit and the risk; points are ticks / 4 |
| `App.CalculatePanel` | app.py:134-165 | no output unless the button is pressed; then the warning exactly when the guard fails and the results exactly when it holds; the results carry the instrument's tick value, 0.49 × the opening profit, ticks that convert back to the dollars, points that are the ticks / 4, positive target figures and non-negative stop-loss figures |
| `App.PointsConvertBack` | app.py:122 | whenever results are shown, target points times the displayed point value give back the target profit and stop-loss points times it give back the risk |
| `App.Run` | app.py:107-168 | the info prompt exactly when the placeholder is selected; otherwise the selected name is a registry key, its record is shown with its positive tick value and four times that as point value, and the calculation area is that of the looked-up instrument |
| `App.OptionsShape` | app.py:107 | the selection list is the placeholder followed by the six registry names in declaration order, and the placeholder is not a registry key |
| `App.OptionIsKey` | app.py:110-112 | every option other than the placeholder is a registry key, so the lookup never fails |
| `App.WarningOnlyForZeroProfit` | app.py:128-137 | with the number inputs bounded below by 0.0, the warning appears exactly when the button is pressed with an opening profit of 0 |
| `App.ZeroRiskShowsZeroStopLoss` | app.py:137-144 | a positive opening profit with 0 risk shows results with 0 stop-loss ticks and points |
| `App.NasdaqExample` | app.py:139-144 | Nasdaq 100 (Mini), opening profit 1000, risk 200: tick value 5, point value 20, target 490, 98 ticks, 24.5 points, 40 stop-loss ticks, 10 stop-loss points |
| `TradingApp.CalculateTicksAndPoints` | tradingapp.py:14-32 | exactly five values; target profit is 0.30 × the opening profit; ticks times (tick-index argument × contract size) give back the target profit and the risk; points are ticks / 4 |
| `TradingApp.CalculatePanel` | tradingapp.py:133-164 | no output unless pressed; the warning exactly when the guard fails; otherwise results whose ticks times tick value × contract size (the tick value shown, times the contract size once more) give back the target profit and the risk, and points that are the ticks / 4 |
| `TradingApp.Run` | tradingapp.py:107-142 | the selected name is a registry key whose record is shown with its positive tick value and four times that as point value; whenever results are shown, target ticks times the displayed tick value is not the target profit |
| `TradingApp.TicksMisscaled` | tradingapp.py:137-142 | for an instrument whose contract size is not 1, shown target ticks never convert back to the target profit at the displayed tick value, nor a positive risk from the stop-loss ticks |
| `TradingApp.PointsMisscaled` | tradingapp.py:121-122 | for an instrument whose contract size is not 1, shown target points never convert back to the target profit at the displayed point value, nor a positive risk from the stop-loss points |
| `TradingApp.CorrectedPanel` | tradingapp.py:119-122 | with the raw tick index passed, target ticks and stop-loss ticks convert back to the target profit and the risk at the displayed tick value; points are the ticks / 4; same guard and signs |
| `TradingApp.CorrectedPointsConvertBack` | tradingapp.py:121-122 | with the raw tick index passed, target points and stop-loss points convert back to the target profit and the risk at the displayed point value |
| `TradingApp.MisscaledByContractSize` | tradingapp.py:137-142 | the figures shown are the intended ones divided by the contract size: same target profit, ticks × contract size equal the intended ticks |
| `TradingApp.NasdaqExample` | tradingapp.py:137-142 | Nasdaq 100 (Mini), opening profit 1000, risk 200: tick value 5, point value 20, target 300, shown 3 target ticks and 2 stop-loss ticks where the corrected call gives 60 and 40 |

## Findings

| source | as written | input that shows it | evidently intended | confidence | as-written member | corrected member |
|---|---|---|---|---|---|---|
| tradingapp.py:137-142 | the call passes `tick_index * contract_size` as the `tick_index` argument, and the function multiplies by `contract_size` again, so ticks are dollars / (tick index × contract size²) | Nasdaq 100 (Mini), opening profit 1000, risk 200: 3 target ticks and 2 stop-loss ticks at a displayed tick value of 5 dollars | pass the raw tick index, as app.py:139-144 does: 60 target ticks and 40 stop-loss ticks, which convert back to 300 and 200 dollars at 5 dollars a tick | not executed; high (the displayed tick value at tradingapp.py:119 and the function's own tick value disagree for every instrument) | `TradingApp.TicksMisscaled` | `TradingApp.CorrectedPanel` |

## Left out

- Page rendering is not modelled: the style sheet, the image, the title, the help text, the cards and the `.2f` formatting.
- The Streamlit widgets are modelled only through their effect. The selection box yields one of its options, which is a precondition of each `Run`. The number inputs become the plain values `openingProfit` and `riskAmount`; their `min_value=0.0` bound is stated only as a precondition of `App.WarningOnlyForZeroProfit`. The button becomes the `pressed` flag. Streamlit's re-run model is left out.
- IEEE-754 float rounding is not modelled: all amounts are exact `real`s, so the equalities proved (such as ticks × tick value = dollars) hold exactly in the model and only approximately in Python.
- The `symbol` field is carried in each record and shown on the screen; no computation uses it.
- A zero tick value would make Python raise `ZeroDivisionError`. The model instead makes a non-zero divisor a precondition of `calculate_ticks_and_points`. Every call site meets it, since every table entry has a positive tick value.
