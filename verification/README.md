# Calculator key handling and weather-dashboard data, in Dafny

This project models two small desktop apps.

**The scientific calculator** (`calculator/src/calc.py`) is a state machine
driven by button presses. `CalculatorApp` keeps a pending left operand
(`operand1`), the stored binary operator (`operator`), a flag saying that the
next digit starts a new number (`new_operand`) and the display text.
`button_clicked` handles one key at a time:

- digit and point entry edits the display text;
- a binary operator folds the display into `operand1` with the operator stored
  before it, which gives left-to-right chaining with no precedence;
- `=` and `%` compute a value and reset;
- `+/-` negates without resetting;
- `sin`, `cos`, `tan`, `ln` and `log10` act on the displayed value only;
- while the display shows `"Error"`, the next key only clears.

Numbers are Dafny `real`s. The float formatter (`format_number`), the float
parser (`float()`) and the math library are not interpreted. They are the
fields of a `Numerics` value that the calculator is built with, so every
result holds whatever those routines compute. A failing `float()` is `None`,
and so is a `math.pow` that raises.

- `Calculator` (calculator.dfy) holds `Calculate`, one pure function per
  class of key, their dispatch `Press` and the class `CalculatorApp`. The
  class has the source's fields, and its `ButtonClicked` method runs the
  source's `elif` chain step by step. Its postcondition ties the new state to
  `Press` of the old state.
- `CalculatorProperties` (calculator_properties.dfy) proves what the key
  handling promises, over single presses and over whole sequences of presses
  (`Run`).

**The cached weather dashboard** (`lecture-4/weather-v2.py`) is modelled in
`Weather` (weather.dfy) and `WeatherProperties` (weather_properties.dfy). It
covers:

- the icon chosen for a forecast text;
- flattening the area hierarchy of the weather service's `area.json` into
  `(code, name, center_name)` rows, with its nested loops;
- building the forecast rows;
- the two SQLite tables, each modelled as a map keyed by its primary key, with
  `INSERT OR REPLACE` as a map update;
- grouping the sorted area rows into one tile per forecast center, with its
  loop;
- the bounds check that decides whether a tab shows a forecast.

`Wrappers` (wrappers.dfy) holds the `Option` type.

Three behaviours of the code are easy to misread:

- When `ln` or `log10` fails on a non-positive value, the code does not leave
  the state alone: it still sets `new_operand` (calc.py:204). It does leave
  `operand1` unchanged. `LogDomainError` states exactly this. It also proves
  that the difference cannot be seen once one more key is pressed, because the
  `"Error"` display turns that key into a plain clear.
- A display that `float()` cannot parse is not always a full reset. For a
  scientific key the code only shows `"Error"` (calc.py:206-207).
- The identity fallback of `calculate` (calc.py:243) is never reached from a
  key press: the stored operator is always one of `+ - * / ^`
  (`OperatorStaysBinary`).

## Model

| member | source | states |
|---|---|---|
| `Calculator.Calculate` | calculator/src/calc.py:220-243 | a zero divisor or a failing power gives `"Error"`, and when the formatter never writes `"Error"` these are the only cases; a non-zero divisor shows the formatted quotient; an unknown operator shows the formatted second operand |
| `Calculator.CalculatorApp.constructor` | calculator/src/calc.py:45-50 | a new calculator shows `"0"` with operator `+`, operand1 0 and new_operand set |
| `Calculator.CalculatorApp.Reset` | calculator/src/calc.py:245-248 | operator becomes `+`, operand1 0, new_operand true; the display is untouched |
| `Calculator.CalculatorApp.ButtonClicked` | calculator/src/calc.py:128-209 | the fields after the press are exactly `Press` of the fields before it, so every property below holds of the class |
| `CalculatorProperties.AllClearAfterAnyHistory` | calculator/src/calc.py:133-135 | `AC`, after any sequence of keys from any state, gives display `"0"`, operator `+`, operand1 0, new_operand true |
| `CalculatorProperties.ErrorSwallowsNextKey` | calculator/src/calc.py:133-135 | while the display is `"Error"`, any key gives the start state and has no other effect; the later keys run as on a fresh calculator |
| `CalculatorProperties.OperatorStaysBinary` | calculator/src/calc.py:148-157 | along any sequence of keys the stored operator stays one of `+ - * / ^` |
| `CalculatorProperties.DigitStartsNewOperand` | calculator/src/calc.py:139-141 | over `"0"` or at the start of a new operand, a digit replaces the display and `.` gives `"0."`; new_operand is cleared and nothing else changes |
| `CalculatorProperties.DigitExtendsOperand` | calculator/src/calc.py:142-145 | otherwise a second `.` changes nothing, and any other digit or `.` is appended to the display |
| `CalculatorProperties.BinaryOperatorFoldsWithStoredOperator` | calculator/src/calc.py:148-157 | an operator shows `Calculate(operand1, display, stored operator)`, stores the new operator, sets operand1 to the shown value and sets new_operand; when the fold shows `"Error"`, operand1 becomes 0 and the new operator is still stored |
| `CalculatorProperties.FinishKeys` | calculator/src/calc.py:163-174 | `=` shows the fold and resets; `%` shows display/100 and resets; `+/-` shows the negation and leaves operator, operand1 and new_operand as they were |
| `CalculatorProperties.LogDomainError` | calculator/src/calc.py:191-204 | `ln` or `log10` of a value ≤ 0 shows `"Error"`, keeps operand1 and the operator, and still sets new_operand; the next key then only clears |
| `CalculatorProperties.ScientificKeyFeedsChain` | calculator/src/calc.py:181-204 | a scientific key that succeeds shows its result, puts it in operand1, sets new_operand and keeps the stored operator |
| `CalculatorProperties.PressKeepsOnePoint` | calculator/src/calc.py:138-145 | if the formatter writes at most one decimal point, no key makes the display hold two |
| `CalculatorProperties.DisplayKeepsOnePoint` | calculator/src/calc.py:138-145 | along any sequence of keys the display holds at most one decimal point |
| `CalculatorProperties.TypingDigits` | calculator/src/calc.py:138-145 | typing digits at the start of a new operand shows the typed number without leading zeros (`"0"` for zeros only), clears new_operand and keeps the pending operation |
| `CalculatorProperties.ChainingHasNoPrecedence` | calculator/src/calc.py:148-174 | `2 + 3 * 4 =` shows `"20"`, i.e. `(2+3)*4` |
| `CalculatorProperties.DecimalEntryThenSum` | calculator/src/calc.py:138-174 | `9 0 . 1 + 1 0 =` shows `"100.1"` |
| `CalculatorProperties.DivideThenMultiply` | calculator/src/calc.py:228-235 | dividing by a non-zero b shows the formatted quotient; for a formatter whose text reads back within a relative error eps plus an absolute error delta (`ReadsBackWithin`), the shown quotient reads back, multiplying it by b shows the formatted product, and that product is within eps·\|a\| + delta·\|b\| of a |
| `Calculator.RStrip` | calculator/src/calc.py:218 | `s.rstrip(c)`: a prefix of s that does not end in c, and everything cut off is c |
| `Calculator.ExponentStart` | calculator/src/calc.py:218 | the index of the first `e` of a `%g` text (its length if there is none): no `e` before it, an `e` at it |
| `Calculator.TrimAsWritten` | calculator/src/calc.py:218 | the code's `.rstrip('0').rstrip('.')` on the whole `%.10g` text: the result is a prefix of the text, and everything cut off is a `0` or a `.` |
| `Calculator.Trim` | calculator/src/calc.py:218 | the intended clean-up of the `%.10g` text: a text without an exponent and with a point gets the code's `.rstrip('0').rstrip('.')`, a text without either is left unchanged, and an exponent survives whole at the end |
| `CalculatorProperties.TrimKeepsExponent` | calculator/src/calc.py:218 | for a mantissa m and an exponent e, the intended clean-up trims m when it has a point, leaves it alone otherwise, and keeps e unchanged |
| `CalculatorProperties.TrimAsWrittenEatsExponentZero` | calculator/src/calc.py:218 | the code's clean-up turns `5e-10` into `5e-1`; the intended one keeps `5e-10` |
| `CalculatorProperties.TrimAsWrittenEatsIntegerZero` | calculator/src/calc.py:218 | the code's clean-up turns `110` into `11`; the intended one keeps `110` |
| `CalculatorProperties.DivideThenMultiplyAsWritten` | calculator/src/calc.py:211-218 | with the code's clean-up, `1 / 2000000000` shows `5e-1`, read back as 0.5; such a formatter does not meet `ReadsBackWithin` for eps 5e-10 and delta 1e-12, and multiplying back by 2000000000 is off from 1 by more than 1 |
| `CalculatorProperties.ProductShownAsWritten` | calculator/src/calc.py:211-218 | with the code's clean-up, the non-integer 110.00000000000001 (the float value of 1.1 * 100) shows `11`, read back as 11; such a formatter does not meet `ReadsBackWithin` for eps 5e-10 and delta 1e-12 |
| `Weather.WeatherIcon` | lecture-4/weather-v2.py:83-87 | a text with 雪 gives AC_UNIT; otherwise 雨 gives UMBRELLA; otherwise 晴 gives WB_SUNNY; otherwise CLOUD (each case as an if-and-only-if) |
| `WeatherProperties.IconOfJoinedText` | lecture-4/weather-v2.py:83-87 | the icon of two texts joined is the higher-ranked of their icons, in either order |
| `Weather.AreaList` | lecture-4/weather-v2.py:34-42 | the nested loops build exactly `CenterRows` of the centers and offices, a missing key counting as empty |
| `WeatherProperties.AreaRowsSound` | lecture-4/weather-v2.py:39-42 | every row is `(code, offices[code].name, center.name)` for a known office code that a center lists as a child |
| `WeatherProperties.AreaRowsComplete` | lecture-4/weather-v2.py:39-42 | every child code of every center that is a known office has its row |
| `WeatherProperties.AreaRowsInCenterOrder` | lecture-4/weather-v2.py:39-42 | rows come center by center, in center order |
| `WeatherProperties.ChildRowsInChildOrder` | lecture-4/weather-v2.py:40-42 | within a center, rows follow the order of its children |
| `WeatherProperties.UnknownOfficeSkipped` | lecture-4/weather-v2.py:41 | a child code that is not a known office gives no row |
| `Weather.ForecastRows` | lecture-4/weather-v2.py:61 | there are `min(len(times), len(weathers))` rows, and row i is `((area_code, times[i][:10]), weathers[i])` |
| `Weather.DatePart` | lecture-4/weather-v2.py:61 | `t[:10]` is a prefix of t of length min(len(t), 10) |
| `Weather.Database.constructor` | lecture-4/weather-v2.py:11-28 | a fresh database has both tables empty |
| `Weather.Database.SaveAreasToDb` | lecture-4/weather-v2.py:30-46 | the areas table becomes the old table with the area rows upserted by code; the forecast table is unchanged |
| `Weather.Database.SaveForecastToDb` | lecture-4/weather-v2.py:57-64 | the forecast table becomes the old table with the forecast rows upserted by `(area_code, date)`; the areas table is unchanged |
| `Weather.ForecastFor` | lecture-4/weather-v2.py:66-72 | the dates an area has in the forecast table, each with its stored text |
| `WeatherProperties.UpsertKeys` | lecture-4/weather-v2.py:60-62 | after the upserts a key is present exactly when it was before or some row carries it |
| `WeatherProperties.UpsertLastWins` | lecture-4/weather-v2.py:60-62 | the last row with a key decides its value: an insert of an existing key replaces it |
| `WeatherProperties.UpsertLeavesOthers` | lecture-4/weather-v2.py:60-62 | a key no row carries keeps its entry or its absence |
| `WeatherProperties.SavedForecastReadsBack` | lecture-4/weather-v2.py:57-72 | after saving, the area's entry for the date of row i is weathers[i] when no later row has the same date |
| `WeatherProperties.SavingForecastKeepsOtherAreas` | lecture-4/weather-v2.py:57-64 | saving one area's forecast leaves every other area's forecast as it was |
| `WeatherProperties.SavedAreaReadsBack` | lecture-4/weather-v2.py:44 | after saving, an area code maps to the name and center of its last row |
| `Weather.GroupByCenter` | lecture-4/weather-v2.py:140-156 | the groups' members, concatenated, are the rows in their order; each group is non-empty, and all its rows have its center name; neighbouring groups differ; there is one group per change of center; the loop fails exactly when the first row's center name is empty |
| `WeatherProperties.ClusteredGroupsAreDistinct` | lecture-4/weather-v2.py:140-156 | when rows of one center stand together, as after `ORDER BY center_name`, every center has exactly one group |
| `Weather.CurrentWeather` | lecture-4/weather-v2.py:126-128 | the times and weathers lists have one entry per selected row, in row order |
| `Weather.TabCard` | lecture-4/weather-v2.py:98-115 | a tab shows a card exactly when its index is below the number of times; the card has that entry's icon, time and weather |
| `WeatherProperties.TabShowsSelectedRow` | lecture-4/weather-v2.py:126-130 | after a forecast is loaded, tab k shows the k-th selected row, and a tab past the last row shows nothing |

## Left out

- `format_number` is not modelled as a whole: its `%.10g` formatting and its snap of magnitudes below 1e-12 to 0 are left out, and it is the `format` field of `Numerics`. Only the text clean-up at calc.py:218 is modelled (`TrimAsWritten`, `Trim`).
- DivideThenMultiply: its error bound rests on `ReadsBackWithin`, a stated assumption about `format_number` and `float()` rather than a proved fact, because neither is modelled. `format_number` as written breaks the assumption for non-integers whose `%.10g` text has an exponent ending in 0, and for non-integers whose `%.10g` text has neither a point nor an exponent and ends in 0 (see "## Findings"), so for those values the bound does not cover the program. Only the real product q·b is bounded, not the read-back of the product text that `*` then displays.
- `float()` is not modelled either. It is the `parse` field of `Numerics`, and a `ValueError` is `None`.
- `math.sin`, `math.cos` and `math.tan` (with the degree conversion), `math.log`, `math.log10` and `math.pow` are opaque fields of `Numerics`. So is `pow`'s `OverflowError`/`ValueError`, which is `None`. Only the ≤ 0 guard of `ln`/`log10` and the zero-divisor guard are stated.
- IEEE floating point is not modelled: rounding, overflow to `inf`, and `nan` are absent, because numbers are reals. Python's `0` and `0.0` are the same real.
- The widget layer is not modelled: the button classes, the layout, `toggle_scientific_mode`, `self.update()`, `print`, `main` and `ft.app`.
- HTTP requests are not modelled. Neither are the JSON indexing in `show_weather`, including its status-code check and the errors a malformed response would raise.
- The SQLite connection, commit and close are not modelled. A table is a map from its primary key.
- The `ORDER BY` of the two `SELECT`s (lecture-4/weather-v2.py:52, 69) is not modelled. `ForecastFor` gives the selected dates as a map. `ClusteredGroupsAreDistinct` assumes only what the sort provides to the grouping: rows of one center stand together.
- `Weather.Database.constructor` models `init_db` on a new database file. Running it on an existing file keeps the stored rows, and that case is not modelled.
- A `KeyError` for a center or an office without a `"name"` key is not modelled: every `CenterInfo` and `OfficeInfo` has a name. A missing `"centers"`, `"offices"` or `"children"` key is modelled as the empty default the code uses.
- The iteration order of `centers.items()` is modelled by giving the centers as a sequence of pairs.
- `GroupByCenter` does not model the tiles' contents and click handlers. Its loop opens a group and adds the row in one step, where the source adds the row right after opening the group. The result is the same.
- `Weather.TabCard` requires the times and weathers lists to have the same length. The source always builds both lists from the same selected rows (`CurrentWeather`), so an `IndexError` on `weathers` cannot happen and is not modelled.
- lecture-3/weather.py is not part of this model. It fetches from the network and builds widgets.

## Findings

| source | as written | input that shows it | evidently intended | confidence | as-written member | corrected member |
|---|---|---|---|---|---|---|
| calculator/src/calc.py:218 | `.rstrip('0').rstrip('.')` runs on the whole `%.10g` text, so the zeros that end an exponent are stripped too | `1 / 2000000000 =`: `%.10g` gives `5e-10`, the display shows `5e-1`, and `float()` reads that back as 0.5 | strip trailing zeros and the point from the mantissa only, and keep the exponent whole | not executed | `CalculatorProperties.DivideThenMultiplyAsWritten` | `Calculator.Trim` |
| calculator/src/calc.py:218 | `.rstrip('0')` also runs on a `%.10g` text that has no point, so the zeros of its integer digits are stripped | `1 . 1 * 1 0 0 =`: the product is 110.00000000000001, not an integer, `%.10g` gives `110`, and the display shows `11` (`2 0 / 3 * 3 =` shows `2` the same way) | strip trailing zeros only after a point, and leave a text without one unchanged | not executed | `CalculatorProperties.ProductShownAsWritten` | `Calculator.Trim` |
