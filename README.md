# Tax utilities of the meter-reading billing example

This project models the tax utility module of a small billing example, `src/tax-utils/index.js`.
The module holds two constant tables:

- the base rate per unit, keyed by the string `"month/year"`; every month of 2017 has rate 0.2;
- the tax-free threshold, keyed by year; 2017 has threshold 0.5.

Three functions read the tables:

- `baseRate(month, year)` builds the key with the template literal `${month}/${year}` and looks it up;
- `taxThreshold(year)` looks the year up;
- `taxableChargeFn(reading)` returns `Math.max(0, baseCharge - taxThreshold(year))`.

The model follows JavaScript's semantics for these lookups.
An object literal's keys are strings, and indexing with a number first converts it to its decimal numeral.
So both tables are `map<string, real>`: the threshold table's key is `"2017"`, and `TaxThreshold` looks up `IntToString(year)`.
A key that is absent yields `undefined` in JavaScript; here that is `None`.
When the threshold is missing, `taxableChargeFn` computes `NaN`; `TaxableCharge` returns `None` in that case.

Modules:

- `Wrappers` (`wrappers.dfy`): `Option`.
- `Decimal` (`decimal.dfy`): the decimal numeral of an integer, as JavaScript writes an integral number of magnitude below 2^53.
  It has no zero-padding and puts `-` before negative values.
  Its parsers are the inverses used to prove that distinct integers have distinct numerals.
- `TaxUtils` (`tax_utils.dfy`): the constants `RatesByMonthAndYear` (src/tax-utils/index.js:1-14) and `ThresholdsByYear` (src/tax-utils/index.js:16-18).
  It also holds `KeyOf` (the template literal of src/tax-utils/index.js:21), `BaseRate`, `TaxThreshold`, `Max` (for `Math.max`) and `TaxableCharge`.
  The ghost functions `ParseKey` and `FirstIndexOf` are the inverse of `KeyOf`, used only in proofs.

## Model

| member | source | states |
|---|---|---|
| `Decimal.NatToString` | src/tax-utils/index.js:21 | A natural renders as a non-empty string of digits, with a leading '0' only for zero itself (no zero-padding) |
| `Decimal.IntToString` | src/tax-utils/index.js:21 | An integer's numeral starts with '-' exactly when it is negative and never contains the key separator '/' |
| `Decimal.DigitsValueOfNatToString` | src/tax-utils/index.js:21 | Reading a rendered natural's digits back gives the natural |
| `Decimal.NatRoundTrip` | src/tax-utils/index.js:21 | Parsing a rendered natural gives the natural |
| `Decimal.IntRoundTrip` | src/tax-utils/index.js:21 | Parsing a rendered integer gives the integer |
| `Decimal.IntToStringInjective` | src/tax-utils/index.js:24-26 | Two integers have the same numeral (the same property key) if and only if they are equal |
| `TaxUtils.Lookup` | src/tax-utils/index.js:20-26 | A table lookup yields a value exactly when the key is present, and then the stored value; otherwise no value and no default |
| `TaxUtils.KeyRoundTrip` | src/tax-utils/index.js:21 | `KeyOf` loses neither component: splitting the key it builds at its first '/' (the ghost `ParseKey`, via `FirstIndexOf`) and parsing both halves gives back the month and year |
| `TaxUtils.KeyOfInjective` | src/tax-utils/index.js:21 | Two (month, year) pairs build the same key if and only if they are the same pair |
| `TaxUtils.Numeral2017` | src/tax-utils/index.js:16-18 | The year 2017 converts to the property key "2017" |
| `TaxUtils.MonthKeys2017` | src/tax-utils/index.js:1-14 | The key built for each month 1..12 of 2017 is the one spelled out in the rate table |
| `TaxUtils.RateTableLookup` | src/tax-utils/index.js:1-14 | Looking up the key of (month, year) in the rate table finds 0.2 for every month 1..12 of 2017 and nothing for every other pair |
| `TaxUtils.BaseRate` | src/tax-utils/index.js:20-22 | `baseRate` is 0.2 for every month 1..12 of 2017 and no value for every other (month, year), with no default and no nearest match |
| `TaxUtils.TaxThreshold` | src/tax-utils/index.js:24-26 | `taxThreshold` is 0.5 for 2017 and no value for every other year |
| `TaxUtils.Max` | src/tax-utils/index.js:29 | `Math.max` returns one of its arguments and is at least both |
| `TaxUtils.TaxableCharge` | src/tax-utils/index.js:28-30 | The taxable charge exists exactly when the year has a threshold. Then it is never negative and never below base charge minus threshold. It is 0 when the base charge is at most the threshold, and base charge minus threshold when it is at least the threshold |
| `TaxUtils.TaxableChargeSpec` | src/tax-utils/index.js:16-30 | For 2017 the taxable charge is 0 up to a base charge of 0.5 and base charge minus 0.5 above it; other years give no value |
| `TaxUtils.LookupExamples` | src/tax-utils/index.test.js:11-19 | 5/2017 has the table's rate 0.2, and 2017 has the table's threshold 0.5 |
| `TaxUtils.MissingEntryExamples` | src/tax-utils/index.js:20-26 | 13/2017 and 5/2018 have no rate, and 2018 has no threshold |
| `TaxUtils.TaxableChargeExamples` | src/tax-utils/index.test.js:23-29 | Base charge 0 in 2017 clamps to 0, and base charge 1 gives 0.5 |

## Left out

- Floating point: the rates, thresholds and charges are exact `real`s, so IEEE-754 rounding of 0.2, 0.5 and the subtraction is not modelled.
- `NaN` and `undefined` coercion: a missing rate or threshold is `None`, not a value that then flows through arithmetic.
  `Math.max` of a `NaN` base charge is not modelled either.
- Non-integral months and years, such as 5.5, are not modelled. Month and year are `int`.
- `IntToString` matches JavaScript's numeral only for integers of magnitude below 2^53. Not every larger integer is a JavaScript number. Those that are may be written with trailing zeros in place of digits (`${2**64}` is "18446744073709552000"), or in exponent notation from 10^21 on. No such key is in either table, so the results of `BaseRate` and `TaxThreshold` are the same either way.
- `TaxableCharge`: takes the base charge and year directly. `taxableChargeFn` reads only these two properties of its argument.
- The `Reading` class (src/reading/index.js) is not part of this model. Its implementation, and with it the base-charge formula, is not among the source files.
- The client scripts src/client1.js, src/client2.js and src/client3.js only acquire a reading and print to the console, so they are I/O with no logic to state.
- `module.exports` is not modelled. The exported tables and functions are the module's top-level declarations.
