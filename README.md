# Unit converter conversion engine, in Dafny

This project models the conversion engine of a small browser unit converter
(a Vue `setup()` in `app.js`). The user picks a category (length, weight,
temperature or volume), enters a value and picks a source and a target unit.
The engine validates the input, converts it, and stores the result rounded
to six decimals. The model covers three parts:

- **The static tables** (`unit_tables.dfy`, module `UnitTables`). These are
  the unit list of each category and the linear factors of length, weight
  and volume. Lemmas prove that unit codes are distinct within a category. They
  also prove that the factor table of each linear category has keys for
  exactly the codes its unit list offers.
- **The pure conversions** (`conversions.dfy`, module `Conversions`). Linear
  conversion is `v * factor[from] / factor[to]`. Temperature converts through
  Celsius. `Number(x.toFixed(6))` is written out over reals: the magnitude is
  rounded to the nearest millionth, ties go away from zero, and values of
  magnitude 1e21 or more pass unchanged. A computation that JavaScript would
  end with NaN or `undefined` is `None`; that happens when a unit code is
  unknown.
- **The state machine** (`validation.dfy` and `engine.dfy`, modules
  `Validation` and `ConverterEngine`). Class `Engine` holds the fields
  `activeTab`, `value`, `fromUnit`, `toUnit`, `result` and `errors`. Each
  method mirrors one JavaScript function and uses `modifies` frames that
  name only the fields it writes. The pure function `ConvertEffect` states
  what `convert` does, and `Engine.Convert` is proved against it.

The raw value field is the datatype `Input = Empty | NotANumber | Num(x)`.
`Empty` covers both `null` and `''`. The watchers on the value and on the
units become the setters `SetValue`, `SetFromUnit` and `SetToUnit`, which
call the validator that the watcher would run. The `activeTab` watcher
becomes `SelectTab`. It clears the state only when the tab really changes,
because a Vue watcher fires only on a change.

In `validateUnits` an empty source unit returns early (app.js:120-123), so
only `errors.fromUnit` is set and `errors.toUnit` stays `''`; `UnitErrors`
states this.

## Model

| member | source | states |
|---|---|---|
| `UnitTables.UnitOptions` | app.js:30-63 | every category offers a non-empty list of units |
| `UnitTables.Factors` | app.js:158-186 | every factor is positive; temperature has no factor table |
| `UnitTables.BaseUnit` | app.js:158-188 | each linear category has a listed base unit (m, g, l) whose factor is 1 |
| `UnitTables.CodesAreDistinct` | app.js:30-63 | no two entries of a unit list share a code |
| `UnitTables.LengthCodes` | app.js:31-40 | the length list offers exactly m, km, cm, mm, in, ft, yd, mi |
| `UnitTables.WeightCodes` | app.js:41-48 | the weight list offers exactly g, kg, mg, lb, oz, ton |
| `UnitTables.TemperatureCodes` | app.js:49-53 | the temperature list offers exactly C, F, K |
| `UnitTables.VolumeCodes` | app.js:54-62 | the volume list offers exactly l, ml, m3, gal, qt, pt, floz |
| `UnitTables.FactorKeysMatchCodes` | app.js:158-186 | for length, weight and volume, the factor keys are exactly the listed codes |
| `UnitTables.FindName` | app.js:252 | the result is the name of the first entry with the code, or '' when no entry has it |
| `UnitTables.NameOfListedCode` | app.js:252 | looking up a listed code returns the name of the entry that carries that code |
| `Conversions.Rescale` | app.js:189-190 | the result in target units times the target factor equals the value times the source factor; equal factors give the value back |
| `Conversions.LinearConvert` | app.js:188-190 | defined exactly when both codes have a factor; the result and the input are the same amount of the base unit; equal codes give the value back |
| `Conversions.LinearIdentity` | app.js:189-190 | converting a unit to itself returns the value |
| `Conversions.LinearRoundTrip` | app.js:189-190 | converting a to b and back returns the value |
| `Conversions.LinearCompose` | app.js:189-190 | a to b then b to c equals a to c |
| `Conversions.LinearKeepsSign` | app.js:189-190 | a positive, negative or zero value stays positive, negative or zero |
| `Conversions.RescaleRoundTrip` | app.js:189-190 | rescaling there and back is the identity, for any positive factors |
| `Conversions.RescaleCompose` | app.js:189-190 | two rescalings compose into one |
| `Conversions.RescaleKeepsSign` | app.js:189-190 | rescaling by positive factors keeps the sign |
| `Conversions.KnownLinearConversions` | app.js:158-190 | 1 km is 1000 m, 1 lb is 453.592 g, 1 gal is 3.78541 l, 1000 m is 1 km |
| `Conversions.ToCelsius` | app.js:214-222 | defined exactly for C, F, K; Celsius passes through |
| `Conversions.FromCelsius` | app.js:224-231 | defined exactly for C, F, K; it is the inverse of ToCelsius |
| `Conversions.ConvertTemperature` | app.js:211-232 | the value unchanged when both units are equal; otherwise defined exactly for two known codes, and the result is the same Celsius temperature as the input |
| `Conversions.TemperatureRoundTrip` | app.js:211-232 | converting a to b and back returns the value exactly |
| `Conversions.ToCelsiusInjective` | app.js:214-222 | distinct values in one unit are distinct temperatures |
| `Conversions.KnownTemperatures` | app.js:211-232 | 0 C is 32 F, 32 F is 0 C, 0 C is 273.15 K, -40 F is -40 C |
| `Conversions.Compute` | app.js:153-191 | defined exactly when the category's conversion knows both codes (for temperature also whenever the codes are equal); equal codes give the value back; a linear result is the same amount of base unit as the input, a temperature result the same Celsius temperature |
| `Conversions.ComputeDefinedOnListedCodes` | app.js:153-196 | two codes the category lists always give a finite value, so the "invalid value" error cannot arise on them |
| `Conversions.RoundMagnitude` | app.js:199 | a non-negative value rounded to a millionth lies within half a millionth of it |
| `Conversions.Round6` | app.js:199 | below 1e21 in magnitude, the result is a whole number of millionths within half a millionth of the input, with the same sign, and a tie rounds away from zero; from 1e21 on, the input unchanged |
| `Conversions.GridNegation` | app.js:199 | negating a whole number of millionths gives one |
| `Conversions.Round6OnGrid` | app.js:199 | a value already a whole number of millionths is not changed by rounding |
| `Conversions.Round6Idempotent` | app.js:199 | rounding twice is rounding once |
| `Validation.AnyNonEmpty` | app.js:18 | true exactly when some string of the sequence is non-empty |
| `Validation.InputError` | app.js:88-111 | '' exactly when the value is a number of magnitude at most 1e15; otherwise the message of the first failing check (empty, not a number, too large) |
| `Validation.UnitErrors` | app.js:114-132 | a source error exactly when the source unit is empty; a target error exactly when the source is set and the target is empty; never both; neither exactly when both units are set |
| `Validation.InputExamples` | app.js:88-111 | '', 'abc' and ±1e16 are rejected with their messages; 0, -5.5 and ±1e15 are accepted |
| `ConverterEngine.ConvertEffect` | app.js:136-208 | the value error is always rewritten; unit errors are left alone when the value is rejected; a result is stored, rounded, with no errors left, exactly when both validators pass and the value is finite; otherwise the result is unchanged |
| `ConverterEngine.ListedCodesNonEmpty` | app.js:30-63 | no listed code is empty, so a listed unit counts as selected |
| `ConverterEngine.ConvertListedUnits` | app.js:141-199 | an accepted value with two listed units always stores a result |
| `ConverterEngine.ConvertSameUnit` | app.js:189-190 | converting a listed unit to itself stores the value, rounded |
| `ConverterEngine.KnownResultsStored` | app.js:153-199 | the stored results of 1 km→m, 1 lb→g, 1 gal→l, 0 C→F and 0 C→K are 1000, 453.592, 3.78541, 32 and 273.15 |
| `ConverterEngine.Engine.constructor` | app.js:7-14 | the initial state: tab length, empty value and units, no result, no errors |
| `ConverterEngine.Engine.HasErrors` | app.js:17-19 | true exactly when some error message is set |
| `ConverterEngine.Engine.GetUnitName` | app.js:252 | for a listed code, the name of the entry with that code; '' for any other code |
| `ConverterEngine.Engine.ValidateInput` | app.js:88-111 | returns whether the value is a number of magnitude at most 1e15; writes only the value error |
| `ConverterEngine.Engine.ValidateUnits` | app.js:114-132 | returns whether both units are set; writes only the two unit errors |
| `ConverterEngine.Engine.Convert` | app.js:136-208 | errors and result become what ConvertEffect gives; with listed units and an accepted value it always stores |
| `ConverterEngine.Engine.SwapUnits` | app.js:235-240 | a no-op unless both units are set; otherwise exchanges them and re-runs convert only when a result exists; value and tab are untouched |
| `ConverterEngine.Engine.Reset` | app.js:243-249 | clears value, units, result and errors; keeps the tab |
| `ConverterEngine.Engine.SelectTab` | app.js:69-75 | a change of tab clears value, units, result and errors; choosing the current tab changes nothing |
| `ConverterEngine.Engine.SetValue` | app.js:78-80 | stores the value and rewrites its error message |
| `ConverterEngine.Engine.SetFromUnit` | app.js:83-85 | stores the source unit and revalidates both units |
| `ConverterEngine.Engine.SetToUnit` | app.js:83-85 | stores the target unit and revalidates both units |
| `ConverterEngine.SwapTwiceRestoresUnits` | app.js:235-240 | swapping twice restores the original pair of units |
| `ConverterEngine.SwapRecomputes` | app.js:235-240 | with value 1, m→km stores 0.001, and a swap recomputes and stores 1000 |

## Left out

- Vue reactivity and watcher scheduling (app.js:1, 66, 293-316). Watchers are explicit calls inside the setters. The deferred run of the value and unit watchers after `reset` is not modelled.
- ConverterEngine.Engine.SwapUnits: does not model the deferred unit-watcher revalidation that follows the swap in Vue. That revalidation would only clear both unit errors, since both units are set.
- ConverterEngine.Engine.SelectTab: does not model the revalidation by the value and unit watchers that Vue runs after the tab watcher has cleared the value and the units. After a tab change from a state with a value and units, the app then shows the "Please enter a value" and "Please select a unit" errors, while the model leaves no errors.
- ConverterEngine.Engine.SetValue: revalidates on every call. Vue runs the watcher only when the raw value changes, and the `Input` datatype does not keep the raw text.
- The `setTimeout` debounce, `clearTimeout` cancellation and the `isLoading` flag (app.js:135-149, 204-207). These are timing behaviour. `Convert` validates and computes in one step.
- IEEE floating point. The model uses exact reals. So the factors are exact decimals, nothing overflows to Infinity, and round trips are exact rather than within rounding error. The only non-finite case left is an unknown unit code.
- JavaScript coercion in `isNaN`, `Math.abs` and `parseFloat` (app.js:99, 105, 155, 189). `Input` replaces it. So the model does not capture text that `isNaN` accepts but `parseFloat` reads differently, such as `' '` or `'0x10'`.
- `alert` and `console.error` (app.js:202-203) are I/O. They appear only as the `CalculationFailed` outcome that `Convert` returns.
- Theme handling (`toggleTheme`, `loadThemePreference`, the `matchMedia` listener, app.js:255-291). It uses the browser's storage and DOM and is independent of conversion.
- The tab list (app.js:22-27) is the `Category` datatype. Its display names are not modelled. `availableUnits` (app.js:66) is `UnitOptions(activeTab)`.
