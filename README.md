# Elevator order form: configuration logic

This project models the configuration logic of an order-intake form for
elevator products, in two variants:

- `components/company-form.tsx` (module `CompanyForm`). A passenger elevator
  (客梯) has a weight tier: 630, 1000, 1250 or a custom weight. A table
  derives the cabin width (`earlyPayment`) and depth (`latePayment`). For 630
  and 1000 the table gives a fixed pair. For 1250 it gives two independent
  option lists. Two React effects rewrite fields when the product type or
  the weight changes. On submit, a custom weight is collapsed into the
  `weight` field.
- `app/components/CompanyForm.tsx` (module `AppCompanyForm`). A weight
  handler writes the read-only width and depth from the chosen weight and
  records `selectedWeight`. That state decides whether the custom-weight
  input is shown. This variant has no effects and no product-type reset.

Each variant has its zod schema as field predicates and a set of rejected
fields. String checks and the small part of JavaScript's `Number()` the
schema relies on live in `FormText`. The product types and the
width/depth pair live in `Catalog`. Cross-variant comparisons are in
`Variants`.

The edits of the first variant are written twice:

- Pure transition functions on a `UiState` value: `ProductTypeReset`,
  `WeightEffectRun`, `WeightSelected`, `ProductTypeChanged`, `WeightChanged`
  and `TextEdited`. The lemmas about the form are stated over these.
- The class `CompanyForm.OrderForm`, whose methods make the same `setValue`
  writes one field at a time. Each method is proved to produce its
  transition function's state.

React's scheduling is written out as a call sequence. On a product-type
change, both effects run in declaration order. The weight effect's first
run sees the weight from before the reset. It runs again only when the
reset changed the weight. `CompanyForm.StaleWeightRunHarmless` proves that
this first run makes no difference on any state the page can reach
(`Settled`).

The model follows the code wherever the intended design says otherwise:

- At tier 1250 the width and depth selects are independent. There is no
  width-to-depth pairing.
- Choosing 1250 or "custom" keeps the previous width and depth. They are
  not reset to (1200, 2100).
- There is no "same as company address" toggle.
- The phone number is one field, not a region code plus a local number.
- Hidden fields are not exempt from validation: see Findings.

## Model

| member | source | states |
|---|---|---|
| `FormText.NumberOf` | components/company-form.tsx:36-37 | `Number` yields a number exactly for digit strings, and 0 for the empty string; anything else is NaN |
| `FormText.DecimalRoundTrip` | components/company-form.tsx:40-43 | `Number` of a number's decimal rendering is that number |
| `FormText.DecimalInRange` | components/company-form.tsx:41-44 | the `!isNaN(num) && lo <= num <= hi` refinement on a decimal string is exactly `lo <= n <= hi` |
| `FormText.PhonePatternAlternatives` | components/company-form.tsx:28 | the phone pattern is an unsigned number or `+` followed by one; an accepted number has 2 to 16 characters |
| `FormText.PhonePatternBuilds` | components/company-form.tsx:28 | optional `+`, a digit 1-9, then 1 to 14 digits is always accepted |
| `Catalog.ProductTypeFromName` | components/company-form.tsx:32 | the product-type enumeration accepts a string only when it names that product type |
| `Catalog.ProductTypeNameRoundTrip` | components/company-form.tsx:237-239 | each select option's value is accepted by the enumeration as its own product type |
| `CompanyForm.WeightCheckBoundaries` | components/company-form.tsx:33-38 | "custom" passes; 200 and 10000 pass; 199, 10001 and "" fail |
| `CompanyForm.RangeChecksOnNumbers` | components/company-form.tsx:33-58 | on decimal numbers, weight and custom weight pass exactly in [200,10000], width in [1000,2000] and depth in [1000,2500] |
| `CompanyForm.OptionalFieldChecks` | components/company-form.tsx:29-58 | absent optional fields pass; a present empty custom weight, width or depth fails; an empty extension passes |
| `CompanyForm.RejectedEmptyIff` | components/company-form.tsx:26-59 | the schema accepts exactly when every field check passes |
| `CompanyForm.GetPaymentOptions` | components/company-form.tsx:97-114 | width and depth are both fixed or both lists; lists have two entries; non-elevators get ("","") |
| `CompanyForm.PaymentOptionsTable` | components/company-form.tsx:97-114 | 630 gives (1100,1400), 1000 gives (1200,2100), 1250 gives the lists [1200,1600] and [2100,1400], anything else gives ("","") |
| `CompanyForm.FixedDimensionsExactly` | components/company-form.tsx:142 | the table yields a fixed non-empty pair exactly for an elevator at 630 or 1000 |
| `CompanyForm.WeightOptions` | components/company-form.tsx:117-119 | four weight options, the last being "custom" |
| `CompanyForm.WeightOptionsPass` | components/company-form.tsx:117-119 | every weight option passes the weight check, and all but "custom" are numbers in range |
| `CompanyForm.EffectsFrame` | components/company-form.tsx:125-147 | neither effect touches contact fields or product type; the weight effect never touches the custom weight; the elevator reset writes only weight and flag |
| `CompanyForm.WeightSyncDimensions` | components/company-form.tsx:138-147 | for elevators the flag follows the weight; 630 and 1000 set their pair; other weights keep width and depth; non-elevators are untouched |
| `CompanyForm.ResetThenSyncForElevator` | components/company-form.tsx:125-147 | reset then weight effect on an elevator yields weight 630, width 1100, depth 1400 and the flag false, from any earlier tier |
| `CompanyForm.MountedValues` | components/company-form.tsx:71-82 | after mounting: the defaults with width 1100, depth 1400 and the flag false, a settled state |
| `CompanyForm.ProductTypeChangeOutcome` | components/company-form.tsx:125-135 | switching to the elevator restores 630/1100/1400; switching away empties weight, custom weight, width and depth |
| `CompanyForm.StaleWeightRunHarmless` | components/company-form.tsx:138-147 | the effect run that sees the pre-reset weight does not change the outcome on a settled state |
| `CompanyForm.WeightChangedOutcome` | components/company-form.tsx:256-259 | a weight choice sets the weight and the flag; a changed 630 or 1000 sets its pair; 1250, "custom" or an unchanged weight keeps width and depth |
| `CompanyForm.EffectsIdempotent` | components/company-form.tsx:125-147 | running either effect a second time changes nothing |
| `CompanyForm.DoubleMount` | components/company-form.tsx:125-147 | mounting twice (reset, sync, reset, sync on the first render's values) gives the state one mount gives |
| `CompanyForm.SettledPreserved` | components/company-form.tsx:125-147 | product-type changes, weight choices among the options and edits of visible inputs keep the state settled |
| `CompanyForm.CustomWeightShownIff` | components/company-form.tsx:277 | in a settled state the custom-weight input is shown exactly for an elevator with weight "custom" |
| `CompanyForm.NormaliseCollapsesCustomWeight` | components/company-form.tsx:85-89 | the final weight is the custom weight when "custom" was chosen, else unchanged; all other fields pass through; normalising twice equals once |
| `CompanyForm.SubmittedWeightInRange` | components/company-form.tsx:33-45 | accepted values always submit a weight that is a number in [200,10000] |
| `CompanyForm.SubmitAsWritten` | components/company-form.tsx:85-91 | the callback runs exactly when every field check passes; it submits the values unchanged except that a custom weight replaces "custom", and that weight is a number in [200,10000]; otherwise the errors are a non-empty set naming exactly the failing fields |
| `CompanyForm.EmptyCustomWeightBlocksSubmit` | components/company-form.tsx:39-45 | an empty custom weight makes submission fail on that field |
| `CompanyForm.NonElevatorNeverSubmits` | components/company-form.tsx:129-134 | after the reset for an escalator or walkway, weight, custom weight, width and depth are all rejected |
| `CompanyForm.ExampleOrderRefusedAsWritten` | components/company-form.tsx:71-82 | the mounted form with contact fields filled in is refused, on the custom weight only |
| `CompanyForm.VisibleRejected` | components/company-form.tsx:247-296 | corrected gate: a field is rejected exactly when it is validated while on screen and fails its check; a subset of the as-written rejections |
| `CompanyForm.VisibleRejectedEmptyIff` | components/company-form.tsx:247-296 | corrected: the on-screen gate passes exactly when the contact fields pass and, for an elevator, weight, width and depth pass, plus the custom weight when "custom" is selected |
| `CompanyForm.Submit` | components/company-form.tsx:85-91 | corrected: the callback runs exactly when every on-screen field passes (only the contact fields for an escalator or walkway); it submits the values with a custom weight collapsed into `weight`, which for an elevator lies in [200,10000]; otherwise the errors name exactly the on-screen fields the schema rejects |
| `CompanyForm.NonElevatorSubmits` | components/company-form.tsx:247 | corrected: an escalator or walkway order submits exactly when its contact fields are valid |
| `CompanyForm.ElevatorSubmitWeight` | components/company-form.tsx:277-296 | corrected: at a fixed tier the hidden custom weight is irrelevant; a submitted elevator order weighs 200 to 10000 |
| `CompanyForm.CorrectedGateWeaker` | components/company-form.tsx:26-59 | the corrected gate agrees with the schema on everything the schema accepts, and accepts the example order |
| `CompanyForm.OrderForm.constructor` | components/company-form.tsx:67-83 | the new form holds the mounted state |
| `CompanyForm.OrderForm.RunProductTypeEffect` | components/company-form.tsx:125-135 | its field writes produce `ProductTypeReset` of the old state |
| `CompanyForm.OrderForm.RunWeightEffect` | components/company-form.tsx:138-147 | its field writes produce the weight effect for the rendered type and weight |
| `CompanyForm.OrderForm.SelectWeight` | components/company-form.tsx:256-259 | writes the weight and sets the flag to whether it is "custom" |
| `CompanyForm.OrderForm.SelectProductType` | components/company-form.tsx:230 | writes only the product type |
| `CompanyForm.OrderForm.EditText` | components/company-form.tsx:152-372 | an input's change writes its one field |
| `CompanyForm.OrderForm.ChangeProductType` | components/company-form.tsx:124-147 | the select write followed by the effects produces `ProductTypeChanged` |
| `CompanyForm.OrderForm.ChangeWeight` | components/company-form.tsx:250-275 | the handler followed by the weight effect produces `WeightChanged` |
| `AppCompanyForm.ValidatorCases` | app/components/CompanyForm.tsx:33-34 | the weight enumeration accepts exactly its four values; the custom weight is absent or in [200,10000] inclusive |
| `AppCompanyForm.PhoneExtRequired` | app/components/CompanyForm.tsx:29 | the extension must be present and one or more digits; empty is refused |
| `AppCompanyForm.DefaultsRejected` | app/components/CompanyForm.tsx:44-49 | the defaults are refused on exactly the four required contact fields |
| `AppCompanyForm.TierDimensionsTable` | app/components/CompanyForm.tsx:57-75 | 630 gives (1100,1400); 1000 and 1250 give (1200,2100); any other value, "custom" included, gives (1100,1400) |
| `AppCompanyForm.DefaultsMatchTier` | app/components/CompanyForm.tsx:40-49 | default weight equals the initial selected weight, and the default width and depth are its dimensions |
| `AppCompanyForm.OrderForm.constructor` | app/components/CompanyForm.tsx:40-50 | the new form holds the defaults, is consistent and hides the custom weight |
| `AppCompanyForm.OrderForm.HandleWeightChange` | app/components/CompanyForm.tsx:57-75 | records the selected weight and writes both dimensions from the table, nothing else |
| `AppCompanyForm.OrderForm.SelectWeight` | app/components/CompanyForm.tsx:179-182 | afterwards the state is consistent, and the custom weight is shown exactly when "custom" was chosen |
| `AppCompanyForm.OrderForm.SelectProductType` | app/components/CompanyForm.tsx:156 | writes only the product type and keeps consistency: there is no reset |
| `AppCompanyForm.OrderForm.VisibleIffCustom` | app/components/CompanyForm.tsx:200 | in a consistent state the custom weight is shown exactly when the weight is "custom" |
| `Variants.TierTablesAgree` | components/company-form.tsx:97-114 | both variants map 630 and 1000 alike; the second's 1250 pair is the first entry of each of the first's 1250 lists |
| `Variants.WeightOptionsAgree` | app/components/CompanyForm.tsx:33 | the weight enumeration equals the other variant's weight options |
| `Variants.InitialDimensionsAgree` | app/components/CompanyForm.tsx:44-49 | the first variant after mounting shows the second variant's default type, weight and dimensions |
| `Variants.Tier1250Diverges` | components/company-form.tsx:104-108 | choosing 1250 after mounting keeps width 1100, which is not a 1250 width option, while the other variant writes (1200,2100) |
| `Variants.CustomWeightChecksAgree` | app/components/CompanyForm.tsx:34 | the two custom-weight checks agree on every decimal number |
| `Variants.ContactChecksCompared` | app/components/CompanyForm.tsx:28-29 | same phone pattern; an empty extension passes in one variant and fails in the other; non-empty extensions are treated alike |

## Findings

| source | as written | input that shows it | evidently intended | confidence | as-written member | corrected member |
|---|---|---|---|---|---|---|
| components/company-form.tsx:39-45 | `.optional()` admits only an absent value, but the custom weight always holds a string, "" by default, and `/^\d+$/` refuses "" even while the input is hidden | the mounted form with company "Acme", phone "+8613800000000", address "1 Main St", weight "630" and the custom weight left at "" | check the custom weight only when "custom" is selected | medium (assumes the form library validates unmounted fields' default values); not executed | `CompanyForm.EmptyCustomWeightBlocksSubmit` | `CompanyForm.ElevatorSubmitWeight` |
| components/company-form.tsx:129-134 | the reset for an escalator or moving walkway writes "" into weight, custom weight, width and depth; all four are still validated, and each fails | product type 自动扶梯 with valid contact fields | validate only the fields that are on screen | medium (same assumption); not executed | `CompanyForm.NonElevatorNeverSubmits` | `CompanyForm.NonElevatorSubmits` |

`CompanyForm.Submit` uses the corrected gate `CompanyForm.VisibleRejected`.
`CompanyForm.SubmitAsWritten` keeps the schema as written.

## Left out

- JSX rendering, Tailwind classes and the UI components. They are presentation only.
- react-hook-form and zod internals: `useForm`, `setValue`, `watch`, `handleSubmit`, the resolver and issue ordering. The model keeps the predicates and the field writes the code passes to them. Validation yields the set of rejected fields, not zod's messages.
- React scheduling beyond the call sequence above. The double mount of development mode is covered by `CompanyForm.DoubleMount`; other interleavings are not modelled.
- `console.log` and `alert` on submit are output only.
- FormText.NumberOf: hexadecimal, exponents, surrounding whitespace and fractions are not modelled. Every string other than "" and ASCII digit strings is treated as NaN. This differs from JavaScript only for the weight check, whose value comes from a closed select.
- AppCompanyForm.CustomWeightOk: the custom weight is an integer or absent. `parseFloat` of the input, fractional weights and NaN are not modelled.
- The second variant's text inputs are plain field writes with no logic, so they have no methods.
- String lengths are counted in characters, not UTF-16 code units. Only the non-empty checks use a length, and ASCII digits are one unit each, so no check changes.
- `app/layout.tsx` and `app/page.tsx` are page scaffolding with no logic.
- Features the code does not implement are not modelled: the address toggle, a region-code/local-number split, width-to-depth pairing at tier 1250, and refusal of edits to hidden fields.
