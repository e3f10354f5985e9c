# Corrected calcium calculator, modelled in Dafny

The calculator takes a serum calcium (mg/dL) and a serum albumin (g/dL) as
text, and on Calculate shows the albumin-corrected calcium
`calcium + 0.8 * (4.0 - albumin)`, rounded to hundredths and written with two
decimals. Before computing it rejects, in this order: a field that does not
read as a number, calcium outside [5, 15], albumin outside [1, 7]. A rejection
leaves everything as it was, including a result shown earlier. Reset empties
both fields and removes the result.

Files:

- `wrappers.dfy`: `Option`, used for NaN and for the component's `null`.
- `number_text.dfy` (module `NumberText`): JavaScript's `Math.round` over exact
  reals, `Round2` (`Math.round(x * 100) / 100`), `ToFixed2` (after the
  `Number.prototype.toFixed` algorithm of ECMA-262, section 21.1.3.3, with
  fraction digits 2), and `ParseDecimal`, a plain decimal reader
  (`-`, digits, `.`, digits). Proves that the shown text reads back as the
  rounded value.
- `calculator.dfy` (module `CorrectedCalcium`): the constants, the formula
  `Corrected`, the shown text `ResultText`, and the class `Calculator` with the
  three state fields and the four operations. `Calculator.Valid()` is the
  object invariant: whatever is shown reads as a whole number of hundredths
  in [2.6, 17.4].

`Calculate` takes the number reader as a parameter `parse: string -> Option<real>`.
It stands in for `parseFloat`, so every property of `Calculate` holds for any
reader. `ParseDecimal` is one such reader and is used in `Session`, a client
scenario of the class, checked by the verifier.

The range checks stop the calculation, it runs only when Calculate is pressed,
and `Math.round` sends halves toward +infinity.

## Model

| member | source | states |
|---|---|---|
| `NumberText.MathRound` | src/components/Calculator.tsx:46 | the result is the integer nearest to the argument, and a half goes up: `n - 0.5 <= y < n + 0.5` |
| `NumberText.Round2` | src/components/Calculator.tsx:46 | the rounded value is a whole number of hundredths within half a hundredth of the input (`r - 0.005 <= x < r + 0.005`) |
| `NumberText.Round2Monotone` | src/components/Calculator.tsx:46 | rounding to hundredths preserves order |
| `NumberText.Round2Fixes` | src/components/Calculator.tsx:46 | a value that is already a whole number of hundredths is unchanged by rounding |
| `NumberText.Round2Idempotent` | src/components/Calculator.tsx:46 | rounding twice gives the same as rounding once |
| `NumberText.ToFixed2` | src/components/Calculator.tsx:48 | the text ends in a '.' followed by exactly two digits, and starts with '-' exactly for negative values |
| `NumberText.ParseDecimal` | src/components/Calculator.tsx:23-24 | the empty field reads as NaN (`None`); text without a leading '-' never reads as a negative number |
| `NumberText.ToFixed2RoundTrip` | src/components/Calculator.tsx:48 | the two-decimal text of `n / 100` reads back as exactly `n / 100`, for every integer `n` |
| `NumberText.DisplayedValue` | src/components/Calculator.tsx:46-48 | the text made by rounding to hundredths and then `toFixed(2)` reads back as the rounded value |
| `NumberText.ToFixed2AbsorbsRound2` | src/components/Calculator.tsx:46-48 | for a non-negative value, the explicit rounding before `toFixed(2)` does not change the text shown |
| `CorrectedCalcium.Corrected` | src/components/Calculator.tsx:43 | the corrected value exceeds calcium exactly when albumin < 4.0, equals it exactly when albumin = 4.0, and lies in [2.6, 17.4] for inputs that pass both range checks |
| `CorrectedCalcium.CorrectedMonotone` | src/components/Calculator.tsx:43 | the corrected value does not decrease as calcium rises or as albumin falls, and strictly increases when calcium strictly rises or albumin strictly falls |
| `CorrectedCalcium.ResultText` | src/components/Calculator.tsx:43-48 | the shown text has the fixed form of a '.' followed by two digits at its end, reads back as `Round2` of the corrected value, and that is within 0.005 of the exact corrected value |
| `CorrectedCalcium.ResultPlausible` | src/components/Calculator.tsx:32-48 | every result shown after the range checks pass reads as a whole number of hundredths in [2.6, 17.4] |
| `CorrectedCalcium.LowAlbuminExample` | src/components/Calculator.tsx:43-48 | calcium 9.0 with albumin 2.0 is shown as "10.60" |
| `CorrectedCalcium.NormalAlbuminExample` | src/components/Calculator.tsx:43-48 | calcium 9.5 with albumin 4.0 is shown as "9.50" |
| `CorrectedCalcium.Calculator.constructor` | src/components/Calculator.tsx:17-19 | both fields start as "" and no result is shown |
| `CorrectedCalcium.Calculator.SetCalcium` | src/components/Calculator.tsx:103 | the calcium field holds the text as typed, unchecked; albumin and the result are unchanged |
| `CorrectedCalcium.Calculator.SetAlbumin` | src/components/Calculator.tsx:136 | the albumin field holds the text as typed, unchecked; calcium and the result are unchanged |
| `CorrectedCalcium.Calculator.Calculate` | src/components/Calculator.tsx:21-52 | reports ParseError exactly when a field reads as NaN; otherwise CalciumRange exactly when calcium is outside [5, 15] (bounds inclusive, checked before albumin); otherwise AlbuminRange exactly when albumin is outside [1, 7]; otherwise Calculated. Only Calculated replaces the result, with `ResultText` of the two values. The fields are never changed, and the object invariant is kept |
| `CorrectedCalcium.Calculator.Reset` | src/components/Calculator.tsx:54-58 | both fields become "" and the result is removed |

## Left out

- Rendering, labels, tooltips and layout (src/components/Calculator.tsx:61-185) and the page around the component (src/pages/Index.tsx). They hold no logic.
- The toast notifications (lines 27, 33, 38, 51, 58). They are side effects only. The `Outcome` that `Calculate` returns names which notification would appear. Reset's notification has no counterpart.
- `parseFloat` in full: leading whitespace, exponents, `Infinity`, and reading a number prefix such as "9.5abc". `Calculate` takes the reader as a parameter instead. `ParseDecimal` reads only plain decimals and is not claimed to agree with `parseFloat`.
- IEEE-754 doubles. All arithmetic is over exact reals, so the binary error in `result * 100` and in the literal 0.8 is not modelled. Which way a value near a half rounds may therefore differ from the program's.
- `NumberText.ToFixed2`: does not model the exponential form `toFixed` uses for magnitudes of 10^21 and above. No result of the calculator comes near that.
- The form's `type="number"` input filtering by the browser. The model accepts any text, as the change handlers do.
- A mmol/L unit, soft warnings and automatic recomputation. No code for these exists.
