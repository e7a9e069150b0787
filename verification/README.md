# Photo-agent fee calculator, modelled in Dafny

The calculator page (`src/pages/Index.tsx`) keeps six inputs in React state:
hourly rate, shooting hours, post-production hours, extra fees, the URSSAF
contribution percentage and an optional VAT ("TVA") percentage. An effect
recomputes five amounts whenever one of them changes: the gross ("total
brut"), the URSSAF charges, the net, the VAT amount and the total including
VAT ("TTC"). Each input field has an `onChange` handler that turns the text
typed into the value stored.

This project models that logic over exact reals:

- `js_values.dfy` (`JsValues`): `Option<real>` for a `parseFloat` result
  (`None` is NaN) and for the nullable VAT percentage (`None` is `null`).
  It also holds JavaScript truthiness of such a value.
- `normalise.dfy` (`Normalise`): the handlers. `PlainNumber` models
  `parseFloat(v) || 0`. `Percent` is the URSSAF clamp. `OptionalPercent` is
  the VAT handler.
- `fees.dfy` (`Fees`): the input and output records, and the effect's
  formula as one pure function `Compute`. It also has the VAT line's
  "N/A"-or-amount choice and the identities and bounds of the formula.
- `form.dfy` (`Form`): the page state as stored inputs plus stored outputs.
  A `Step` is one handler followed by the effect it triggers, and `Run` folds
  a sequence of edits. Validity says the outputs are never stale and the
  percentages stay in [0,100]. It holds initially and after every sequence
  of edits.
- `scenarios.dfy` (`Scenarios`): the worked example (rate 50, 5 + 3 hours,
  20 of fees, 25 % URSSAF) with 20 % VAT, with VAT emptied and with VAT 0.
  It also shows a reachable negative gross and out-of-range URSSAF entries.

Two points of the page's behaviour shape the model:

- The plain fields carry `min="0"`, but their handlers only replace NaN and
  zero by 0, so a negative number is stored as typed. The bounds in
  `Fees.AmountsBounded` therefore carry a non-negativity precondition on
  those four inputs, and `Fees.NegativeRateGivesNegativeGross` and
  `Scenarios.NegativeRateIsReachable` show that it cannot be dropped.
- VAT is applied when the stored percentage is truthy (`vatPct ? … : 0`,
  line 35), so a present 0 takes the no-VAT branch.
  `Fees.VatIsPercentOfGross` shows this matches reading an absent
  percentage as 0. The VAT display instead tests `!== null` (line 182), so
  a present 0 shows an amount of 0, not "N/A"
  (`Scenarios.WorkedExampleWithZeroVat`).

## Model

| member | source | states |
|---|---|---|
| Normalise.PlainNumber | src/pages/Index.tsx:63 | the falsy-to-zero parse of the plain fields (also at lines 79, 95, 111): NaN gives 0; any parsed number is stored unchanged, negatives included |
| Normalise.PlainNumberKeepsNegatives | src/pages/Index.tsx:63 | the plain handler is not a clamp: a negative parse is stored as that negative number |
| Normalise.PlainNumberIdempotent | src/pages/Index.tsx:79 | re-entering a stored plain value stores the same value |
| Normalise.Percent | src/pages/Index.tsx:128-133 | the URSSAF value always lies in [0,100]; NaN or a negative gives 0, above 100 gives 100, a value in [0,100] is kept |
| Normalise.PercentIsClamp | src/pages/Index.tsx:129-131 | the URSSAF handler equals an independent clamp into [0,100] of the parse, NaN read as 0 |
| Normalise.PercentIdempotent | src/pages/Index.tsx:129-131 | clamping a clamped percentage changes nothing |
| Normalise.PercentExtremes | src/pages/Index.tsx:130-131 | the result is 0 exactly when the parse is NaN or not positive, and 100 exactly when it is at least 100 |
| Normalise.OptionalPercent | src/pages/Index.tsx:150-159 | VAT is absent exactly when the text is empty; otherwise it is present, in [0,100], and equal to the URSSAF clamp of the parse |
| Fees.Compute | src/pages/Index.tsx:21-41 | charges plus net equal the gross; TTC is gross plus VAT; with VAT absent, VAT is 0 and TTC is the gross |
| Fees.GrossIsBilledHoursPlusFees | src/pages/Index.tsx:23 | the gross is every shooting and post-production hour at the hourly rate, plus the extra fees, for any real inputs |
| Fees.GrossMonotone | src/pages/Index.tsx:23 | at a non-negative rate, more hours or fees never lower the gross, and extra fees add exactly their increase |
| Fees.ChargesSplitGross | src/pages/Index.tsx:27-31 | charges and net split the gross; the net is the gross scaled by (1 − urssafPct/100) |
| Fees.VatCases | src/pages/Index.tsx:35-39 | a `null` or zero VAT percentage gives VAT 0 and TTC equal to the gross; a non-zero one gives vatPct/100 of the gross, added to it |
| Fees.VatIsPercentOfGross | src/pages/Index.tsx:35 | the truthiness guard only matters for `null`: VAT is always the percentage share of the gross, absent counting as 0 |
| Fees.AmountsBounded | src/pages/Index.tsx:23-39 | with non-negative base inputs and percentages in range: 0 ≤ charges, net, VAT ≤ gross and gross ≤ TTC ≤ 2 × gross |
| Fees.NegativeRateGivesNegativeGross | src/pages/Index.tsx:23-27 | a negative rate on positive hours with no fees gives a negative gross, and negative charges under a positive URSSAF rate |
| Fees.DisplayVat | src/pages/Index.tsx:182 | the VAT line shows "N/A" exactly when the VAT percentage is `null`, and otherwise the VAT amount |
| Form.ApplyEdit | src/pages/Index.tsx:63-157 | each handler stores its normaliser's result (plain, URSSAF clamp or optional VAT) in its own field and changes no other; it keeps the percentages in range; a VAT edit clears the field exactly when its text is empty |
| Form.Step | src/pages/Index.tsx:21-41 | after an edit and its effect, the stored inputs are the handler's result and the outputs are the formula of them |
| Form.InitialIsValid | src/pages/Index.tsx:8-19 | the initial all-zero outputs are the formula applied to the initial inputs; the VAT line starts as "N/A" |
| Form.RunPreservesValid | src/pages/Index.tsx:21-41 | every sequence of edits keeps the outputs up to date and the percentages in [0,100] |
| Form.ReachableIsValid | src/pages/Index.tsx:8-41 | every page reachable from the initial one is valid |
| Form.RunIsReplay | src/pages/Index.tsx:21-41 | the effect never feeds back into the inputs: stored inputs are the handlers' replay, and outputs follow them after any edit |
| Form.RunFrame | src/pages/Index.tsx:63-157 | edits to other fields leave a field as it was |
| Scenarios.WorkedExampleOnPage | src/pages/Index.tsx:21-41 | after the worked example's edits from the initial page, the stored outputs are 420, 105, 315, 84, 504 |
| Scenarios.WorkedExampleWithVat | src/pages/Index.tsx:23-39 | rate 50, hours 5 + 3, fees 20, URSSAF 25, VAT 20 give 420, 105, 315, 84, 504, with the VAT amount shown |
| Scenarios.WorkedExampleWithoutVat | src/pages/Index.tsx:150-182 | the same with the VAT field emptied gives VAT 0, TTC 420, and "N/A" |
| Scenarios.WorkedExampleWithZeroVat | src/pages/Index.tsx:154-182 | VAT entered as 0 gives VAT 0 and TTC 420 but shows the amount 0, not "N/A" |
| Scenarios.NegativeRateIsReachable | src/pages/Index.tsx:63-79 | typing −10 as rate and 1 as shooting hours stores −10 and gives a gross of −10 |
| Scenarios.UrssafOutOfRange | src/pages/Index.tsx:129-131 | URSSAF entries −5 and 150 are stored as 0 and 100 |

## Left out

- `formatEuro` (lines 4-5): locale-dependent currency rendering by `toLocaleString`, a library routine not modelled. The display is modelled as the choice between "N/A" and an amount.
- `parseFloat` itself: string parsing is not modelled. Each edit carries the parse result as `Option<real>`, with `None` for NaN. The VAT edit also carries the raw text, and the two are not required to agree.
- Infinities and NaN from arithmetic: a parse that yields `Infinity` has no counterpart among the reals, and neither has a finite input whose formula overflows (a rate of 1e308 over 8 hours gives an infinite gross, then a NaN net). In the program the identities such as "charges + net = gross" fail in that case; the model's unbounded reals never overflow.
- Floating point: all arithmetic is exact over `real`. IEEE-754 rounding (for example of `urssafPct / 100`) and negative zero are not modelled.
- React scheduling: `useState` and `useEffect` are reduced to "store the handler's value, then recompute all five outputs". Batching, re-render timing and the skipped effect after an unchanged value are not modelled. Such a skip leaves the same outputs.
- The JSX markup and the HTML `min`, `max` and `step` attributes are not modelled. These are browser behaviour, not code, so the model assumes no field is bounded by them.
