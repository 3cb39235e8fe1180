# EB-2 PERM approval estimator: feature derivation

A Dafny model of the logic in `app.py` of the EB-2 PERM approval-probability
estimator. The app collects a labour-certification case from a form. It turns the
wage inputs into yearly figures and a wage ratio, then lays out a ten-column record
for a pre-trained classifier. Finally it shows the classifier's probability for
the "certified" class as a percentage.

Modules:

- `Units` (`units.dfy`): the pay-period unit, read from its spelling.
  `ToAnnual` is `to_annual`. `Multiplier` is the reference table it is proved
  against. `FromAnnual` is its inverse.
- `Features` (`features.dfy`): the form input (`CaseInput`) and the ten-field
  record (`FeatureVector`). `Derive` computes the record; `Describes` is a
  relational description of a correct record. Also here are the wage-ratio
  guard and the form's default scenario.
- `Columns` (`columns.dfy`): the record as one table row of named cells
  (`ToRow`). `FromRow` reads a record back by column name.
- `Scoring` (`scoring.dfy`): the classifier call. The classifier is a function
  parameter that returns a probability matrix or the message of the exception
  it raised.
- `Wrappers` (`wrappers.dfy`): `Option` and `Result`.

Wages are exact `real`s. Units and categorical fields are strings, because the
source copies the select-box strings into the record unchanged. The unit is
parsed into `Year | Hour | Week | Month | Other(name)`. `Other` is the
identity fallback at app.py:37-38.

Three behaviours of app.py that the model keeps:

- A unit is compared as a string. Any spelling other than the four it knows
  falls through to the identity branch (app.py:37-38).
- Education is passed through as the select-box string, e.g. `"Bachelor's"`
  (app.py:20, 49).
- The guard at app.py:42 is `> 0`, so a negative prevailing wage also gets a
  ratio of 1 (`RatioGuard`).

## Model

| member | source | states |
|---|---|---|
| Units.Parse | app.py:29-37 | the unit is matched by exact spelling; a spelling is recognised exactly when it is one of Year, Hour, Week, Month, and the unit's name is the spelling itself |
| Units.ParseName | app.py:19 | every unit the select boxes can produce reads back from its own name |
| Units.Multiplier | app.py:31-36 | every pay-period factor is at least 1 |
| Units.ToAnnual | app.py:28-38 | the annual amount is the amount times the unit's fixed factor from the reference table |
| Units.FromAnnual | app.py:28-38 | dividing by the unit's factor gives an amount that converts back to the given annual figure |
| Units.FromToAnnual | app.py:28-38 | converting to annual and back returns the original amount (the conversion loses nothing) |
| Units.ToAnnualTable | app.py:28-38 | Year and any unrecognised unit keep the amount; Hour, Week, Month multiply by 2080, 52, 12 |
| Units.ToAnnualSign | app.py:28-38 | the annual amount is positive, zero or non-negative exactly when the amount is |
| Units.ToAnnualMonotone | app.py:28-38 | for every unit, a <= b iff to_annual(a) <= to_annual(b), and the conversion is injective |
| Units.Midpoint | app.py:41 | the offer midpoint is equidistant from both ends of the range |
| Units.ToAnnualMidpoint | app.py:41 | converting the midpoint gives the midpoint of the converted ends, and lies between them when from <= to |
| Features.WageRatio | app.py:42 | with a positive prevailing wage the ratio times it is the offer; otherwise the ratio is exactly 1 |
| Features.Derive | app.py:40-55 | the record copies the seven categorical inputs verbatim, scales both wages by the unit table, and satisfies the ratio relation |
| Features.DeriveCharacterised | app.py:40-55 | a record satisfies the relational description of the derivation if and only if it is the derived record |
| Features.RatioGuard | app.py:42 | the ratio is 1 whenever the entered prevailing wage is <= 0, negative included; division happens exactly when it is > 0, and then the ratio is the unclamped quotient |
| Features.RatioMeetsPrevailing | app.py:42 | with a positive prevailing wage, ratio >= 1 iff the annual offer meets the annual prevailing wage |
| Features.RatioUnitFree | app.py:40-42 | when both wages use the same unit, the ratio is the raw offer midpoint over the raw prevailing wage |
| Features.OfferWithinRange | app.py:41 | the annual offer lies between the converted ends of the offer range when from <= to |
| Features.FeaturesNonNegative | app.py:40-42 | non-negative inputs (the widgets' minimum of 0) give non-negative annual wages and ratio |
| Features.DefaultScenario | app.py:16-42 | the default form gives 115000 prevailing, 135000 offered, ratio 27/23 |
| Features.HourlyScenario | app.py:40-42 | 50 an hour against 55 an hour gives 104000, 114400 and ratio 1.1 |
| Features.ZeroPrevailingScenario | app.py:42 | a zero prevailing wage gives ratio exactly 1 |
| Columns.ToRow | app.py:44-55 | the row has the ten schema columns in order, seven text cells followed by three numbers |
| Columns.LookupFinds | app.py:44-55 | in a row without repeated names, looking a column up by name yields that column's value |
| Columns.LookupMisses | app.py:44-55 | a name labelling no column is not found |
| Columns.SchemaDistinct | app.py:45-54 | the ten column names are pairwise different |
| Columns.RowMatchesSchema | app.py:45-54 | every record's row has exactly ten columns, named as the schema in order, with no name repeated |
| Columns.ReadBack | app.py:44-55 | reading the row back by column name recovers the record: nothing added, dropped, reordered or changed |
| Columns.FromRowNeedsSchema | app.py:44-55 | a row reads back only if it carries every schema column |
| Columns.DerivedRow | app.py:44-55 | the derived row holds the seven categorical inputs verbatim under their names, then the three derived wage figures |
| Scoring.ApprovalPercent | app.py:59-64 | scoring succeeds iff the classifier returns a matrix with a row-0, column-1 entry; the percentage divided by 100 is that entry; a raised exception becomes a reported error carrying its message |
| Scoring.PercentInRange | app.py:60 | a probability in [0, 1] gives a percentage in [0, 100] |
| Scoring.Estimate | app.py:58-64 | the request succeeds iff the classifier returns a matrix with a row-0, column-1 entry for the derived record's row, and then reports 100 times that entry; a raised exception becomes a reported error carrying its message |

## Left out

- Page setup, input widgets, the button and message rendering (app.py:7, 12-25, 58, 61-64) are user-interface code. The widgets' defaults appear only as `DefaultInput`. Their minimum of 0 appears only as the precondition of `FeaturesNonNegative`.
- Loading the classifier with `joblib.load` (app.py:10) is file I/O of an opaque artifact. The loaded classifier is a parameter of `Scoring`.
- The classifier's `predict_proba` is foreign code. It is a function parameter; nothing is assumed about it beyond its result type.
- The numpy and pandas error messages (an `IndexError` text, say) are not modelled. A missing positive-class entry is reported as `NoPositiveClass`.
- The `:.1f` formatting of the percentage (app.py:61) is float-to-string formatting and is not modelled.
- IEEE floating-point behaviour (rounding, overflow to infinity, NaN) is not modelled: wages, ratio and percentage are exact reals. The scenario ratios 27/23 and 1.1 are exact.
- The pandas `DataFrame` is modelled as a sequence of named cells, not as a library object.
- Determinism and idempotence of the derivation hold by construction, since every member is a pure Dafny function. No separate lemma states them.
