# Basic and BMI calculator engines

A Dafny model of the two calculators of a small client-side web application.
Each calculator is a React component whose `useState` hooks become the fields
of a class, and whose handlers become methods that update those fields as one
atomic step.

- `input.dfy` (module `Input`): `Option`, and the two browser primitives the
  calculators use. `parseFloat` is a `Parser` (`string -> Option<real>`, None
  for NaN). `Number.prototype.toString` is a `Formatter` (`real -> string`).
  Each calculator's constructor is handed the parser, and the basic
  calculator's constructor also the formatter (the BMI calculator stores its
  value as a number); both are kept as `const` fields, so the model holds for
  any parser and any formatter.
- `basic.dfy` (module `Basic`): the basic calculator. It has two operand
  fields, each valid in [-999999, 999999]. It offers +, -, ×, ÷, and division
  by zero ends in an error message. A history keeps the five newest successful
  calculations, newest first. "Clear" and "clear history" each touch a
  different set of fields.
- `bmi.dfy` (module `Bmi`): the BMI calculator. Weight must lie in [20, 300] kg.
  Height must lie in [50, 250] cm or [0.5, 2.5] m, depending on the unit. A
  height that is empty or does not parse gets its own message, which takes
  precedence over the range check. BMI is weight / height², where the height is
  in metres. The category comes from four half-open bands of the unrounded
  BMI. The stored value is the BMI rounded half-up to one decimal. Reset keeps
  the unit.

Numbers are Dafny `real`s, so the arithmetic is exact. Division by zero shows
up as an `Option`. The timestamp and id of a history record come from the
clock, so `Calculate` takes them as parameters.

Error outcomes (division by zero) are never recorded in the history
(`src/components/BasicCalculator.tsx:63-66`). Switching tabs unmounts the
inactive calculator (`src/pages/Index.tsx:65`), so its state is not kept across
tab switches. The model has no cross-tab state.

## Model

| member | source | states |
|---|---|---|
| `Basic.Operand` | src/components/BasicCalculator.tsx:46-47 | an accepted field parses to a number inside [-999999, 999999] |
| `Basic.Apply` | src/components/BasicCalculator.tsx:51-73 | there is no numeric outcome exactly when the operator is ÷ and the divisor is 0; a sum minus the second operand, or a difference plus it, gives back the first operand; a product by 0 is 0; a product divided by a non-zero second factor, or a quotient multiplied by its non-zero divisor, gives back the first operand, which fixes a·b and a/b |
| `Basic.DivideUndoneByMultiply` | src/components/BasicCalculator.tsx:62-68 | a quotient by a non-zero divisor, multiplied back by it, is the dividend |
| `Basic.MultiplyUndoneByDivide` | src/components/BasicCalculator.tsx:58-59 | a product divided by its non-zero second factor is the first factor |
| `Basic.Symbol` | src/components/BasicCalculator.tsx:49-69 | each operator is shown as one character; + is shown as "+", - as "-", × for multiplication and ÷ for division |
| `Basic.SymbolInjective` | src/components/BasicCalculator.tsx:49-69 | distinct operators are shown with distinct symbols |
| `Basic.Expression` | src/components/BasicCalculator.tsx:76 | the expression is the raw first text, a space, the symbol, a space, the raw second text; both texts can be read back from their positions |
| `Basic.Take` | src/components/BasicCalculator.tsx:89 | `slice(0, n)` keeps the first min(n, length) elements in order |
| `Basic.PushHistory` | src/components/BasicCalculator.tsx:89 | the new history has the new record first, then the old records in order; its length is min(old length + 1, 5), so it never exceeds 5 |
| `Basic.PushAllKeepsNewest` | src/components/BasicCalculator.tsx:89 | starting from a history of at most 5, any run of successful calculations leaves the 5 newest records, newest first, followed by the surviving old ones |
| `Basic.SixthCalculationEvictsOldest` | src/components/BasicCalculator.tsx:89 | after six calculations from an empty history, the first is evicted and the other five are kept newest first |
| `Basic.BasicCalculator.constructor` | src/components/BasicCalculator.tsx:18-23 | the initial state: empty fields, no result, no operator, empty history, no errors |
| `Basic.BasicCalculator.SetFirstNumber` | src/components/BasicCalculator.tsx:134 | editing the first field changes only that field |
| `Basic.BasicCalculator.SetSecondNumber` | src/components/BasicCalculator.tsx:151 | editing the second field changes only that field |
| `Basic.BasicCalculator.ValidateInputs` | src/components/BasicCalculator.tsx:25-41 | each field independently gets the range message exactly when it is empty, does not parse, or lies outside [-999999, 999999]; the call succeeds exactly when neither field has a message; only `errors` changes |
| `Basic.BasicCalculator.Calculate` | src/components/BasicCalculator.tsx:43-90 | on a validation failure only `errors` changes. On ÷ with divisor 0, the result is "Error: Division by zero", the operator is ÷ and the history is unchanged. Otherwise the result is the formatted a+b, a−b, a·b or a/b, the operator is selected, and a record with the expression and that same result string is pushed onto the history. The fields never change, and the history stays at most 5 long |
| `Basic.BasicCalculator.Clear` | src/components/BasicCalculator.tsx:92-98 | both fields become "", the result and the operator become null, and the errors become empty; the history is not touched |
| `Basic.BasicCalculator.ClearHistory` | src/components/BasicCalculator.tsx:100-102 | the history becomes empty and nothing else changes; on an already empty history nothing changes, so the operation is idempotent |
| `Bmi.WeightBoundsInclusive` | src/components/BmiCalculator.tsx:27-29 | 20 and 300 are accepted weights; 19.9 and 300.1 are not |
| `Bmi.HeightError` | src/components/BmiCalculator.tsx:31-37 | an empty or unparseable height gets "Please enter a valid height" whatever the unit; a parsed height gets no message exactly when it lies in [50, 250] for cm or [0.5, 2.5] for m, and otherwise gets its unit's range message |
| `Bmi.InvalidHeightIsNotARangeMessage` | src/components/BmiCalculator.tsx:31-37 | the "valid height" message differs from both range messages |
| `Bmi.Flip` | src/components/BmiCalculator.tsx:140 | the toggle always changes the unit |
| `Bmi.FlipInvolution` | src/components/BmiCalculator.tsx:140 | toggling twice restores the unit |
| `Bmi.ToMetres` | src/components/BmiCalculator.tsx:49-51 | metres are left as they are; centimetres are divided by 100; a height is in its unit's range exactly when its value in metres is in [0.5, 2.5] |
| `Bmi.BmiOf` | src/components/BmiCalculator.tsx:53 | the BMI times the squared height in metres is the weight |
| `Bmi.BmiBounds` | src/components/BmiCalculator.tsx:24-53 | for an accepted weight and height, the BMI lies in [3.2, 1200]; so the divisor is non-zero and the BMI is positive |
| `Bmi.Categorize` | src/components/BmiCalculator.tsx:58-70 | the unrounded BMI lies in its category's band: <18.5 underweight, [18.5, 25) normal, [25, 30) overweight, ≥30 obese |
| `Bmi.BandsDisjoint` | src/components/BmiCalculator.tsx:58-70 | no BMI lies in two bands, so the category is a function of the BMI |
| `Bmi.CategorizeMonotone` | src/components/BmiCalculator.tsx:58-70 | a larger BMI never gets a lighter category |
| `Bmi.BoundariesGoUp` | src/components/BmiCalculator.tsx:58-70 | 18.5 is normal, 25 is overweight and 30 is obese: each boundary goes to the higher category |
| `Bmi.DescriptionInjective` | src/components/BmiCalculator.tsx:59-69 | each category has its own fixed description |
| `Bmi.RoundOneDecimal` | src/components/BmiCalculator.tsx:73 | `Math.round(x * 10) / 10` has at most one decimal and lies in (x − 0.05, x + 0.05] |
| `Bmi.RoundMonotone` | src/components/BmiCalculator.tsx:73 | rounding preserves order |
| `Bmi.RoundKeepsTenths` | src/components/BmiCalculator.tsx:73 | a value with one decimal is left unchanged by rounding |
| `Bmi.RoundedValueInClosedBand` | src/components/BmiCalculator.tsx:58-73 | the stored rounded value lies in the closed band of the category decided on the unrounded BMI |
| `Bmi.CategoryUsesUnroundedValue` | src/components/BmiCalculator.tsx:58-73 | 24.96 is normal, although its stored value 25.0 would be overweight |
| `Bmi.Compute` | src/components/BmiCalculator.tsx:46-76 | for an accepted weight and height, the result's category is the band of the unrounded BMI, and its description is that category's. Its value has one decimal, lies within 0.05 of the BMI, lies in [3.2, 1200], and lies in the category's closed band |
| `Bmi.SeventyKgAt175Cm` | src/components/BmiCalculator.tsx:46-76 | 70 kg at 175 cm is stored as 22.9, normal |
| `Bmi.FiftyKgAt160M` | src/components/BmiCalculator.tsx:46-76 | 50 kg at 1.60 m is stored as 19.5, normal |
| `Bmi.BmiCalculator.constructor` | src/components/BmiCalculator.tsx:15-19 | the initial state: empty fields, unit cm, no result, no errors |
| `Bmi.BmiCalculator.SetWeight` | src/components/BmiCalculator.tsx:113 | editing the weight changes only the weight |
| `Bmi.BmiCalculator.SetHeight` | src/components/BmiCalculator.tsx:131 | editing the height changes only the height |
| `Bmi.BmiCalculator.ValidateInputs` | src/components/BmiCalculator.tsx:21-41 | the weight gets its message exactly when it is empty, unparseable or outside [20, 300]; the height gets `HeightError`'s message; success means neither; only `errors` changes |
| `Bmi.BmiCalculator.CalculateBmi` | src/components/BmiCalculator.tsx:43-77 | on a validation failure only `errors` changes and the old result is kept; otherwise the result is `Compute` of the parsed weight, the parsed height and the unit; the fields and the unit never change; a stored result is always well formed |
| `Bmi.BmiCalculator.Reset` | src/components/BmiCalculator.tsx:79-84 | weight and height become "", and the result and errors are cleared; the unit is kept |
| `Bmi.BmiCalculator.ToggleUnit` | src/components/BmiCalculator.tsx:140 | the unit flips between cm and m and nothing else changes |

## Left out

- Rendering, styling, icons and CSS class choice, including `getOperationButton`
  and `getCategoryColor`: presentation only.
- The static table of BMI thresholds: display text, not logic.
- `src/pages/Index.tsx`, the tab shell: it holds only which calculator is shown.
- IEEE-754 behaviour: rounding error, −0, infinities, and NaN beyond
  validation. Numbers are exact reals, so `Basic.Apply` and `Bmi.BmiOf` state
  exact results, and `Basic.DivideUndoneByMultiply` and
  `Basic.MultiplyUndoneByDivide` are identities of exact arithmetic that
  doubles do not always satisfy (for example (1/49)·49 ≠ 1 in doubles).
- The concrete behaviour of `parseFloat` (prefix parsing, exponent syntax) and
  of the browser's number-input sanitising. Parsing is an arbitrary function
  from text to an optional real.
- The exact text produced by `Number.prototype.toString`. Formatting is an
  arbitrary function from reals to text.
- `Date.now()`: the id and timestamp of a history record are parameters of
  `Calculate`. Ids from the same millisecond can collide, and the model does
  not claim they are unique.
- The unreachable `default` branch of the operator switch: an `Operation`
  has exactly four values.
- React's batching and re-render scheduling: each handler is one atomic state
  transition.
