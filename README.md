# Lawn-care booking site: pricing cards and booking form

This project models the two components of the lawn-care marketing site that hold logic, and proves properties of them.

- **The pricing section** has two tiers: town house / semi-detached ("jumelé", 175 a month, leaf option 40) and detached ("détaché", 195 a month, leaf option 50). Both run for six months. The section shows each tier's monthly total and an approximate price per visit. An early-bird switch takes 10 % off every price. Each tier has its own leaf clean-up toggle, and a separate card offers leaf pick-up alone. Each "choose" button hands a (property type, plan) pair to the booking form.
- **The booking form** keeps a record of the client's entries. It formats the phone number as the user types, normalises the address when the field loses focus, and warns about short addresses and incomplete numbers. On submit it checks the phone digit count, builds a flat semicolon-separated record (one row per party in a "Duo Voisin" booking), hands the message to an e-mail service, and shows either a confirmation or an error. A reset action starts a new request.

Modules, one per source file or part of one:

- `Types` (types.dfy) and `Constants` (constants.dfy) mirror `types.ts` and `constants.ts`.
- `BookingFormat` (booking_format.dfy) holds the pure string logic of `BookingForm.tsx`: the phone formatter, the address normaliser, the display names, the comment sanitiser, the flat record and the template parameters.
- `BookingForm` (booking_form.dfy) is the component itself: class `Form`, whose fields are the React state (`formData`, `errors`, `isSubmitting`, `isSuccess`, `errorMsg`) and whose methods are the event handlers.
- `Pricing` (pricing.dfy) holds the price arithmetic and display rule as functions, plus class `PricingPanel` with the `selectedLeaves` map and the `isEarlyBird` flag.
- `Text` (text.dfy) is shared helper code: the JavaScript `\d` and `\s` classes, `split`, and decimal rendering and parsing of naturals.

Amounts are exact `real`s, and the discount is the factor 9/10. The e-mail service is outside the model. `Form.Submit` takes its verdict as the parameter `sendSucceeds` and returns the message it hands over, or `None` when it sends nothing.

The functions that compute what the components compute are `BookingFormat.FormatPhoneNumber` (components/BookingForm.tsx:35-47), `BookingFormat.FormatAddress` (components/BookingForm.tsx:49-51), `BookingFormat.SafeComment` (components/BookingForm.tsx:119), `BookingFormat.ExcelLines` (components/BookingForm.tsx:121-128), `BookingFormat.TemplateParamsOf` (components/BookingForm.tsx:130-150), `Pricing.FormatPrice` (components/Pricing.tsx:33-35) and `Pricing.CardFor` (components/Pricing.tsx:82-93). What they promise is stated by the lemmas and methods in the table below.

While `isSuccess` holds, the component shows the confirmation instead of the form. So the field handlers and `Submit` require `!isSuccess`, `Reset` requires `isSuccess`, and `SyncSelection` runs in both views.

`Form.Valid()` is the form's invariant. It says that the stored phone is a fixed point of the formatter, and it holds because the formatter is proved idempotent. So a phone that passes the submit check (at least ten digits) has exactly ten digits, in the full `(XXX) XXX-XXXX` layout, and `Submit` states this.

The flat record reads back as its columns: split on line breaks, then on `;`.
- This holds only while no entered field contains a `;`.
- The component replaces line breaks in the comment and nothing else.
- A `;` typed into a name, address or comment shifts the columns of that row.

Behaviour a reader might not expect, which the model follows as the code has it:
- **Reset.** It keeps the property type and plan, the field warnings and the send error. It does not blank every field.
- **Neighbour fields.** `handleSubmit` does not check them. Only the browser's `required` attribute does, so `Submit` does not check them either.
- **Per-visit price.** It uses the constant 6 months, not the tier's `months` field. Both tiers have 6 months, so the results agree.
- **Duo rows.** The two rows differ in the duo marker column (`OUI (Client 1)` / `OUI (Client 2)`) as well as in the contact columns.
- **Address warning.** It never blocks submission.

## Model

| member | source | states |
|---|---|---|
| `BookingFormat.FormatPhoneKeepsDigits` | components/BookingForm.tsx:35-47 | the formatted value's digits are the first ten of the input's digits, after a leading `1` of an 11-digit number is dropped, in order |
| `BookingFormat.FormatPhoneOnlyDigitsMatter` | components/BookingForm.tsx:36-37 | the result depends on the digits of the input alone, including the empty input and an input with no digits |
| `BookingFormat.FormatPhoneLayout` | components/BookingForm.tsx:41-46 | under 4 digits the bare digits; from 4 the result fills the mask `(XXX) XXX-XXXX` from the left with length digits+3 (4-6 digits) or min(10, digits)+4 (7 or more); from 10 digits the full mask |
| `BookingFormat.FormatPhoneIdempotent` | components/BookingForm.tsx:35-47 | formatting a formatted value returns it unchanged, so re-formatting on every keystroke is stable |
| `BookingFormat.FormattedPhoneDigits` | components/BookingForm.tsx:97-98 | a formatter fixed point has at most ten digits, and with ten it is a full `(XXX) XXX-XXXX` number |
| `BookingFormat.TrimStartSuffix` | components/BookingForm.tsx:50 | what trimming the front keeps is a suffix of the input |
| `BookingFormat.TrimStartDropsSpaces` | components/BookingForm.tsx:50 | what trimming the front drops is whitespace only (with the function's own contract: it stops at the first non-space) |
| `BookingFormat.TrimEndPrefix` | components/BookingForm.tsx:50 | what trimming the end keeps is a prefix of the input |
| `BookingFormat.TrimEndDropsSpaces` | components/BookingForm.tsx:50 | what trimming the end drops is whitespace only (with the function's own contract: it stops at the last non-space) |
| `BookingFormat.CollapseSpacesShape` | components/BookingForm.tsx:50 | the collapsed string has only single plain spaces; empty exactly for empty input; starts with whitespace exactly when the input does |
| `BookingFormat.CollapseSpacesBlank` | components/BookingForm.tsx:50 | a non-empty run of whitespace of any kind collapses to exactly one plain space |
| `BookingFormat.CollapseSpacesAppend` | components/BookingForm.tsx:50 | collapsing a string cut next to a non-space character is collapsing the two pieces, so each run is replaced in its place and no run is merged across a word |
| `BookingFormat.CollapseSpacesLast` | components/BookingForm.tsx:50 | the collapsed string ends with whitespace exactly when the input does |
| `BookingFormat.FormatAddressJoin` | components/BookingForm.tsx:49-51 | a whitespace run of any length between two words becomes one space, and each side is normalised on its own |
| `BookingFormat.FormatAddressTidy` | components/BookingForm.tsx:49-51 | the normalised address has no leading or trailing whitespace, no two adjacent whitespace characters, and only plain spaces |
| `BookingFormat.FormatAddressOfTidy` | components/BookingForm.tsx:49-51 | a value already in that form is left unchanged |
| `BookingFormat.FormatAddressIdempotent` | components/BookingForm.tsx:49-51 | normalising twice equals normalising once |
| `BookingFormat.FormatAddressKeepsText` | components/BookingForm.tsx:49-51 | every non-whitespace character survives in order; the result is empty exactly when the input is blank |
| `BookingFormat.SelectionDisplaysCellSafe` | components/BookingForm.tsx:112-116 | the property and plan display names hold no `;` or line break |
| `BookingFormat.DisplaysIdentifySelection` | components/BookingForm.tsx:112-116 | different property types, and different plans, get different display names |
| `BookingFormat.ReplaceNewlinesChar` | components/BookingForm.tsx:119 | a line break becomes ` \| ` and every other character stays itself |
| `BookingFormat.ReplaceNewlinesAppend` | components/BookingForm.tsx:119 | the replacement of a concatenation is the concatenation of the replacements, so each line break is replaced in its place |
| `BookingFormat.ReplaceNewlinesSpec` | components/BookingForm.tsx:119 | no line break in the result; input without line breaks unchanged; other characters (besides the inserted ` \| `) present exactly when present in the input |
| `BookingFormat.SafeCommentSpec` | components/BookingForm.tsx:119 | the record's comment has no line break, is `Aucun` for an empty comment, is the comment itself when it has none, and has a `;` exactly when the comment does |
| `BookingFormat.OrNASpec` | components/BookingForm.tsx:126 | a neighbour cell is never empty and is safe whenever the entered field is |
| `BookingFormat.PrimaryLineColumns` | components/BookingForm.tsx:122 | the client row has no line break and splits on `;` into name, phone, e-mail, address, property, plan, duo marker, comment |
| `BookingFormat.NeighborLineColumns` | components/BookingForm.tsx:126 | the neighbour row has no line break and splits on `;` into its eight columns |
| `BookingFormat.FlatRecordRows` | components/BookingForm.tsx:121-128 | when no entered field holds a line break, the record splits at line breaks into exactly the client row, then the neighbour row for a duo, whatever `;` the entries hold |
| `BookingFormat.FlatRecordColumns` | components/BookingForm.tsx:121-128 | the record is one row without duo and two rows split by `\n` with duo; each row reads back as its columns |
| `BookingFormat.DuoRowsShareSelection` | components/BookingForm.tsx:122-127 | both rows have the same property, plan and sanitised comment; markers `OUI (Client 1)` / `OUI (Client 2)`; each empty neighbour field becomes `N/A` |
| `BookingForm.BuildExcelLines` | components/BookingForm.tsx:121-128 | the record built step by step (client row, then `\n` and the neighbour row for a duo) is the flat record |
| `BookingForm.Form.constructor` | components/BookingForm.tsx:13-33 | empty record, with an absent initial selection falling back to `jumele` / `tonte`; no errors, not submitting, no success, no message |
| `BookingForm.Form.SyncSelection` | components/BookingForm.tsx:76-82 | replaces the property type and plan and nothing else |
| `BookingForm.Form.SetName` | components/BookingForm.tsx:214 | replaces the name and nothing else |
| `BookingForm.Form.SetEmail` | components/BookingForm.tsx:251 | replaces the e-mail and nothing else |
| `BookingForm.Form.SetComment` | components/BookingForm.tsx:373 | replaces the comment and nothing else |
| `BookingForm.Form.SetDuoVoisin` | components/BookingForm.tsx:323 | sets the duo flag; the neighbour fields are kept |
| `BookingForm.Form.SetAddress` | components/BookingForm.tsx:236-239 | stores the raw address and clears the address warning only |
| `BookingForm.Form.PhoneChange` | components/BookingForm.tsx:53-57 | stores the formatted phone, clears the phone warning, leaves the address warning; the invariant is kept through idempotence |
| `BookingForm.Form.PhoneBlur` | components/BookingForm.tsx:59-64 | sets the phone warning exactly when the digit count is 1-9; never clears it; record unchanged |
| `BookingForm.Form.AddressBlur` | components/BookingForm.tsx:66-74 | stores the normalised address; the address warning is set exactly when 0 < length < 5 and cleared otherwise; phone warning untouched |
| `BookingForm.Form.NeighborChange` | components/BookingForm.tsx:84-92 | replaces the one named neighbour field |
| `BookingForm.Form.NeighborPhoneChange` | components/BookingForm.tsx:355 | stores the formatted neighbour phone |
| `BookingForm.Form.NeighborAddressBlur` | components/BookingForm.tsx:348 | stores the normalised neighbour address, with no warning |
| `BookingForm.Form.SendRequest` | components/BookingForm.tsx:103-162 | marks the form submitting, builds the parameters from the flat record for the unchanged data; success shows the confirmation, failure the send error with no confirmation; never in flight afterwards; field warnings unchanged |
| `BookingForm.Form.Submit` | components/BookingForm.tsx:94-163 | fewer than 10 digits (0 included): phone warning set, nothing sent, flags and send error unchanged. Otherwise: sends the parameters built with the flat record; success means confirmation, failure means the send error with no confirmation; never in flight afterwards; record unchanged; what is sent has exactly ten digits in full layout |
| `BookingForm.Form.Reset` | components/BookingForm.tsx:178-184 | leaves the confirmation; clears name, phone, e-mail, address, comment, duo flag and neighbour; keeps property type and plan |
| `Constants.TierIdsUnique` | constants.ts:3-32 | no two tiers share an id |
| `Pricing.ApplyDiscount` | components/Pricing.tsx:29-31 | the early-bird price is the price less a tenth of it; otherwise the price unchanged |
| `Pricing.DiscountDistributes` | components/Pricing.tsx:86-89 | discounting a sum equals summing the discounted parts |
| `Pricing.Round` | components/Pricing.tsx:26 | the result is the nearest integer, halves rounded up |
| `Pricing.CalculatePerVisit` | components/Pricing.tsx:23-27 | the nearest whole amount to the monthly price × 6 / 24 |
| `Pricing.FormatPriceShape` | components/Pricing.tsx:33-35 | a whole amount shows as bare digits and reads back as itself; any other shows exactly two decimals after a point and reads back as the amount rounded to the cent |
| `Pricing.FormatPriceExactForCents` | components/Pricing.tsx:33-35 | an amount in whole cents reads back from its display exactly |
| `Pricing.CardTotals` | components/Pricing.tsx:82-93 | the total is the discount of base plus add-on (when ticked); leaf price discounted alike; per-visit from the discounted base and the same with or without leaves |
| `Pricing.JumeleRegularCard` | components/Pricing.tsx:82-93 | the 175 tier, regular price, no leaves: `175`, about 44 a visit, leaf option `40` |
| `Pricing.DetacheEarlyBirdWithLeavesCard` | components/Pricing.tsx:82-93 | the 195 tier, early bird, leaves: total 220.5 shown `220.50`, leaf option `45`, about 44 a visit |
| `Pricing.LeavesOnlySeasonPrices` | components/Pricing.tsx:196-202 | the seasonal prices show `275` / `350` at regular price, `247.50` / `315` at early bird |
| `Pricing.Toggled` | components/Pricing.tsx:18-20 | the toggled key's flag is negated (a missing flag reads as false); every other flag unchanged |
| `Pricing.ToggleTwice` | components/Pricing.tsx:18-20 | toggling a tier twice restores the map |
| `Pricing.PricingPanel.constructor` | components/Pricing.tsx:11-16 | both leaf flags start false and the early-bird switch starts off |
| `Pricing.PricingPanel.ToggleLeaves` | components/Pricing.tsx:18-20 | the new map is the old one toggled at that tier; the switch unchanged |
| `Pricing.PricingPanel.ToggleEarlyBird` | components/Pricing.tsx:54 | flips the early-bird switch; leaf flags unchanged |
| `Pricing.PricingPanel.Card` | components/Pricing.tsx:82-93 | a card's total and per-visit price under the current switch and that tier's own leaf flag |
| `Pricing.PricingPanel.ChoosePlan` | components/Pricing.tsx:170 | emits the tier's id, with `tonte_feuilles` exactly when its leaf flag is set and `tonte` otherwise, never `feuilles_only` |

The standalone "leaves only" button always emits `('detache', 'feuilles_only')` (components/Pricing.tsx:209). It is the constant `Pricing.LeavesOnlyPlan`.

## Left out

- The e-mail service call and its identifiers (components/BookingForm.tsx:106-109, 154) are a network call outside the model. Its outcome is the parameter of `Form.Submit`, and `console.error` is dropped.
- Submission is not modelled as asynchronous. The disabled submit button while a send is in flight and the `finally` ordering are not modelled; `Submit` is one sequential step, so `isSubmitting` is true only inside it.
- The browser's `required` and `type="email"` checks are not modelled. They are HTML attributes, not component code.
- The radio-card selection of property type and plan (components/BookingForm.tsx:261-308) is not modelled. The props the form passes do not match the ones `RadioCard.tsx` declares, so there is no coherent behaviour to state; selections enter through `Form.SyncSelection` instead.
- Rendering is not modelled: markup and styling, the confirmation text, the `$` suffixes, the navigation bar, the theme switch, scrolling, the promotions and the footer.
- Floating point is not modelled. Amounts are exact reals. For the listed prices the JavaScript results are the same as exact arithmetic. Exponent notation, which `String` and `toFixed` use for amounts of 10^21 and above, is not modelled.
- String lengths differ for characters outside the Basic Multilingual Plane. JavaScript `length` counts UTF-16 code units and Dafny counts characters, so for such characters `AddressTooShort` in the address warning can differ.
- `neighborInfo` and `comment`, optional in `types.ts`, are always present. The form always initialises them, so `|| 'Aucun'` only ever sees the empty string.
- `SyncSelection` takes the two selections as values. The props are required in the component's interface, so the mount-time effect's copy of an `undefined` prop (components/BookingForm.tsx:76-82) is not modelled.
- `handleNeighborChange` accepts any string key. The model takes the four keys the form uses.
- BookingFormat.FlatRecordColumns: stated only for entries without `;` or line breaks, because the component does not escape `;` and such an entry changes the column count. The row count alone needs only the absence of line breaks, which `FlatRecordRows` states; browsers strip line breaks from single-line inputs.
