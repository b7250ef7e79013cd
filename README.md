# 3DNavi part quoting, modelled in Dafny

3DNavi is an on-demand manufacturing platform. A customer submits a part
configuration through a form: material, surface treatment, length, width,
thickness, hole diameter and quantity. The `/configure` endpoint
(`configure_part`) answers with a quote. The quote echoes the configuration and
gives an estimated price rounded to two decimals and a fixed delivery estimate.
The price is

    BASE_PRICE × material multiplier × surface multiplier × (length × width × thickness) × quantity

Each multiplier is looked up by the lower-cased name in a fixed table. A name
missing from its table gets the neutral multiplier 1.0. The hole diameter is
accepted and echoed, but it does not affect the price.

This project models that computation, the pricing constants it reads, and the
endpoint's required-field contract. A form that lacks a field is answered with
HTTP 422, never with a quote.

Files and modules:

- `config.dfy` (`Config`): the pricing constants (base price, the two
  multiplier tables, the delivery estimate, the declared bounds) as immutable
  constants, with lemmas about their values.
- `part.dfy` (`Part`): the submitted configuration.
- `text.dfy` (`Text`): `str.lower()` on ASCII letters.
- `rounding.dfy` (`Rounding`): rounding to two decimals, half to even.
- `pricing.dfy` (`Pricing`): multiplier lookup with fallback, volume, the price
  formula, and the quoted price. Lemmas cover non-negativity, monotonicity and
  independence from the hole diameter.
- `validation.dfy` (`Validation`): the seven required form fields, their
  coercion, and the errors reported.
- `quoting.dfy` (`Quoting`): quote assembly (`ConfigurePart`) and the whole
  request path from form to quote or rejection (`ComputeQuote`).
- `scenarios.dfy` (`Scenarios`): the concrete quotes from the project's tests
  and demo script.
- `wrappers.dfy` (`Wrappers`): `Option` and `Result`.

Prices are exact `real`s. Every constant in the tables is an exact decimal.
The rounding function is round-half-to-even on hundredths. It is fully
characterised: `Rounding.RoundHalfEvenUnique` shows that nearest-integer plus
ties-to-even determine the result.

Behaviour as the code has it:

- The echoed material and surface treatment are the submitted text. They are
  not lower-cased; only the table lookup lower-cases them.
- Unknown names are accepted and priced with multiplier 1.0.
- The declared bounds `MIN_DIMENSION`, `MAX_DIMENSION` and `MAX_QUANTITY` are
  never checked. Zero, negative or oversized dimensions and quantities are
  priced like any other value, and the model does not reject them either.
- The quoted price never decreases when a multiplier, a dimension or the
  quantity grows (`Pricing.PriceMonotone`). It need not strictly increase:
  the unrounded price does (`Pricing.RawPriceStrictInQuantity`), but two
  unrounded prices can round to the same amount
  (`Scenarios.RoundedPriceNotStrictInQuantity`).

## Model

| member | source | states |
|---|---|---|
| `Config.BasePricePositive` | config.py:15 | the base price per cubic millimetre, 0.001, is strictly positive |
| `Config.MaterialTable` | config.py:18-23 | the material table has exactly the keys aluminum, steel, titanium and plastic, all lower case, with values 1.0, 1.2, 3.0 and 0.5, all positive; titanium's exceeds aluminum's |
| `Config.SurfaceTreatmentTable` | config.py:26-31 | the surface table has exactly the keys none, anodizing, powder_coating and machining, all lower case, every value at least 1.0; none is 1.0, anodizing is 1.3, above none |
| `Config.BoundsConsistent` | config.py:35-37 | 0 < MIN_DIMENSION < MAX_DIMENSION and MAX_QUANTITY is at least 1 |
| `Text.Lower` | main.py:50-51 | the lower-cased name has the same length as the input, has no upper-case letter, and lowers each character on its own |
| `Text.LowerOfLower` | main.py:50-51 | a name with no upper-case letter is unchanged by lower-casing |
| `Text.LowerIdempotent` | main.py:50-51 | lower-casing twice is the same as lower-casing once |
| `Pricing.Multiplier` | main.py:50-51 | the multiplier is the table's entry when the lower-cased key is in the table, and exactly 1.0 when it is not |
| `Pricing.MultiplierIgnoresCase` | main.py:50-51 | the lookup gives the same multiplier for a name and for its lower-cased form |
| `Pricing.MultiplierOfTableKey` | main.py:50-51 | a lower-case table key is looked up as itself |
| `Pricing.MaterialMultiplierCases` | main.py:50 | the material multiplier is 1.0, 1.2, 3.0 or 0.5 for aluminum, steel, titanium or plastic in any letter case, exactly 1.0 for any other material, and always positive |
| `Pricing.SurfaceMultiplierCases` | main.py:51 | the surface multiplier is 1.0, 1.3, 1.2 or 1.5 for none, anodizing, powder_coating or machining in any letter case, exactly 1.0 for any other treatment, and never below 1.0 |
| `Pricing.EstimatedPrice` | main.py:53-59 | the quoted price is a whole number of hundredths and lies within 0.005 of base price × both multipliers × volume × quantity |
| `Pricing.RawPriceFormula` | main.py:53-54 | the unrounded price is 0.001 × material multiplier × surface multiplier × (length × width × thickness) × quantity |
| `Pricing.PriceIgnoresHoleDiameter` | main.py:53-54 | changing only the hole diameter changes neither the unrounded nor the quoted price |
| `Pricing.PriceFormulaMonotone` | main.py:54 | with non-negative factors the price formula is non-negative and never decreases when any of its five factors grows |
| `Pricing.PriceFormulaStrict` | main.py:54 | with positive base price, multipliers and volume, a strictly larger quantity gives a strictly larger formula value |
| `Pricing.PriceNonNegative` | main.py:53-59 | for non-negative dimensions and quantity, the unrounded and quoted prices are non-negative |
| `Pricing.PriceMonotone` | main.py:50-59 | a configuration with multipliers, dimensions and quantity all at least those of another is priced at least as high, both unrounded and quoted |
| `Pricing.RawPriceStrictInQuantity` | main.py:53-54 | for positive dimensions, the unrounded price strictly increases with the quantity |
| `Rounding.RoundHalfEven` | main.py:59 | the result is an integer within 0.5 of the input, and an exact tie goes to the even integer |
| `Rounding.RoundHalfEvenUnique` | main.py:59 | any integer within 0.5 of the input that breaks ties to even is RoundHalfEven's result |
| `Rounding.RoundHalfEvenMonotone` | main.py:59 | rounding to an integer preserves order |
| `Rounding.RoundCents` | main.py:59 | the rounded amount is a whole number of hundredths within 0.005 of the input |
| `Rounding.RoundCentsMonotone` | main.py:59 | rounding to hundredths preserves order |
| `Rounding.RoundCentsOfCents` | main.py:59 | an amount already in whole hundredths is unchanged by rounding |
| `Rounding.RoundCentsIdempotent` | main.py:59 | rounding twice is rounding once |
| `Rounding.RoundCentsNonNegative` | main.py:59 | a non-negative amount rounds to a non-negative amount |
| `Rounding.RoundCentsTiesToEven` | main.py:59 | 0.125 rounds to 0.12, 0.135 to 0.14 and -0.125 to -0.12 |
| `Validation.Validate` | main.py:26-34 | a rejected form carries a non-empty list of field errors; an accepted form has all seven fields, and its configuration holds the material and surface text as given and the coerced numbers of the five numeric fields |
| `Validation.MissingFieldRejected` | main.py:27-33 | a required field that is absent or empty makes the form rejected, with that field reported missing |
| `Validation.FieldErrorsExact` | main.py:27-33 | a field is reported missing exactly when it is required and not given, and reported of the wrong type exactly when it is a numeric field given text that does not coerce |
| `Validation.CompleteFormAccepted` | main.py:27-33 | a form with all seven fields given and every numeric field coercible is accepted |
| `Quoting.ConfigurePart` | main.py:36-61 | the quote has status "success", the configuration exactly as given, the default delivery estimate, and a price in whole hundredths within 0.005 of the unrounded price |
| `Quoting.ComputeQuote` | main.py:25-61 | a request gives a quote exactly when the form validates, and that quote is ConfigurePart of the validated configuration (status "success", echoed configuration, rounded price, default delivery); otherwise it gives the non-empty list of field errors |
| `Quoting.MissingFieldNeverQuoted` | main.py:27-33 | a form missing any required field is answered with HTTP 422 naming that field, never with a quote |
| `Quoting.QuoteShape` | main.py:36-61 | every quote returned has status "success", the default delivery estimate, the material and surface treatment text exactly as submitted, and a price in whole hundredths |
| `Quoting.UnknownNamesPricedNeutral` | main.py:50-59 | a material and surface treatment missing from the tables still get a successful quote, priced with multiplier 1.0 for each |
| `Scenarios.QuotedAt` | main.py:59 | a configuration whose unrounded price is a whole number of hundredths is quoted at exactly that price |
| `Scenarios.AluminumMultiplier` | config.py:19 | aluminum is priced with multiplier 1.0 |
| `Scenarios.TitaniumMultiplier` | config.py:21 | titanium is priced with multiplier 3.0 |
| `Scenarios.NoneMultiplier` | config.py:27 | surface treatment none is priced with multiplier 1.0 |
| `Scenarios.AnodizingMultiplier` | config.py:28 | anodizing is priced with multiplier 1.3 |
| `Scenarios.MixedCaseTitaniumMultiplier` | main.py:50 | "TiTaNiUm" is priced as titanium, with multiplier 3.0 |
| `Scenarios.ScenarioMultipliers` | config.py:18-31 | the four multipliers used by the scenarios: aluminum 1.0, titanium 3.0, none 1.0, anodizing 1.3 |
| `Scenarios.BaselineQuote` | test_main.py:98-112 | the 10 × 10 × 1 mm aluminum part with no surface treatment, one piece, is quoted at 0.10 |
| `Scenarios.BaselineTitaniumDearer` | test_main.py:114-121 | the baseline part in titanium is quoted at 0.30, strictly more than the baseline |
| `Scenarios.BaselineAnodizingDearer` | test_main.py:123-130 | the baseline part anodized is quoted at 0.13, strictly more than the baseline |
| `Scenarios.BaselineFivePiecesDearer` | test_main.py:132-139 | five baseline parts are quoted at 0.50, strictly more than one |
| `Scenarios.BlockQuotes` | demo.py:37-45 | the 100 × 50 × 5 mm aluminum block is quoted at 25.00 for one piece and 125.00 for five |
| `Scenarios.BlockTitanium` | main.py:50-59 | the block in titanium, spelled in any letter case, is quoted at 75.00 |
| `Scenarios.BlockAnodized` | test_main.py:20-31 | the anodized aluminum block, the form of the valid-data test, is quoted at 32.50 |
| `Scenarios.PrecisionQuote` | test_main.py:201-220 | the 33.33 × 33.33 × 3.33 mm aluminum part, three pieces, has unrounded price 11.097780111 and is quoted at 11.10 |
| `Scenarios.RoundedPriceNotStrictInQuantity` | main.py:53-59 | for a 1 mm aluminum cube the unrounded price of two pieces exceeds that of one, yet both are quoted at 0.00 |

## Left out

- Floating point: lengths, multipliers and prices are exact reals. Python's binary `float` and `round(x, 2)` on the binary value are not modelled. For example, Python rounds the float 2.675 to 2.67 because its binary value lies just below 2.675; the model rounds the exact 2.675 to 2.68.
- Text.Lower: lower-cases only the ASCII letters A-Z. Python's `str.lower()` also lowers non-ASCII letters. No table key can be reached through a non-ASCII letter except through U+212A KELVIN SIGN, and no key contains a `k`, so lookups are unaffected.
- Form coercion: the framework's conversion of form text to `float` and `int` is not visible code. It is a parameter (`Validation.Coercion`) that says which texts coerce and to what.
- Validation.Validate: the framework's rule that an empty form value counts as missing is modelled. Its error records carry only the kind and the field name, not the framework's full error body.
- The FastAPI application, routing, static files, templating, the `/` page, the `/health` endpoint and the server start-up are not modelled. They do not affect pricing.
- Server, UI and renderer settings in config.py (lines 5-12 and 39-53) are not modelled. They do not affect pricing.
- The browser front end (static/js/app.js, static/js/three-renderer.js) and the client scripts demo.py and test_api.py are not part of this model. They hold no pricing logic.
- Range checks against MIN_DIMENSION, MAX_DIMENSION and MAX_QUANTITY are not modelled. The code does not perform them.
