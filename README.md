# ProfessionalWeld site rules, modelled in Dafny

This project models the deterministic rules in the client-side scripts of
a welding company's marketing site. It leaves out the DOM, timer and
third-party glue around them. There are three core modules, one per
script:

- `Calculator` (`calculator.dfy`, js/calculator.js) is the price estimate.
  It covers the `calculateWeldingCost` formula (hourly rate table,
  complexity multiplier, a 200 floor, 23% VAT) and the values
  `calculateCostRealTime` feeds it. It also covers the required/number
  validator `validateInput`, the all-fields gate of `window.calculateCost`,
  and the `getNotificationIcon` lookup. Money is `real`, so the arithmetic
  is exact.
- `Contact` (`contact.dfy`, js/contact.js) is the contact form. It covers
  the `validationRules` table and the per-field validator `validateField`,
  proved equal to a "first failing check, then checkbox override" rule.
  It also covers the whole-form fold `validateForm`, the Polish phone-number
  formatter, and the template parameters of `sendEmailJS`. Its three
  regular expressions are written out as character-class predicates.
- `Site` (`site.dfy`, js/main.js) holds the UI state rules over an
  abstract document. It covers the portfolio category filter and the mobile
  menu's three lock-step class flags. It also covers choosing the active
  navigation link from the scroll position, the review star string, and the
  header and back-to-top scroll thresholds.

Two shared modules support them. `Wrappers` (`wrappers.dfy`) holds
`Option` and `Result`. `JsText` (`jstext.dfy`) writes out the JavaScript
string built-ins the rules use: `trim` and `\s`, `\d` and
`replace(/\D/g, '')`, `repeat`, and decimal rendering of counts.

Conventions:

- `parseFloat(x)` arrives already parsed, as an `Option<real>`. `None`
  stands for NaN.
- `parseFloat(x) || d` is `OrElse(p, d)`. A parsed 0 also falls back to `d`.
- DOM effects of a validator are returned as values rather than written
  into a document. Examples are the error shown or cleared for a field and
  the `active` flag of each navigation link.
- Event handlers that toggle classes are methods of small classes whose
  fields are the class flags.

Two behaviours of the code are worth stating up front:

- Hours and material cost are not clamped: js/calculator.js:110-111 only
  replaces NaN and 0 by 0, so negative values go into the formula as given
  (`Calculator.NegativeHoursGiveNegativeLabour`).
- `complexityMultipliers` is never consulted: the multiplier is whatever
  number the complexity string parses to (js/calculator.js:145), so a
  negative one reverses the effect of hours
  (`Calculator.NegativeMultiplierReversesHours`).

## Model

| member | source | states |
|---|---|---|
| Calculator.HourlyRate | js/calculator.js:123-141 | the rate is positive exactly for the five listed work types and equals the table entry; any other type gets 0 |
| Calculator.CalculateWeldingCost | js/calculator.js:121-170 | inputs are echoed; labour = rate × hours × multiplier = base + surcharge; subtotal ≥ 200; `isMinimumApplied` iff labour + material < 200, and then subtotal = 200, else subtotal = labour + material; VAT = 0.23 × subtotal; total = subtotal + VAT ≥ 246 |
| Calculator.TotalIsSubtotalWithVat | js/calculator.js:150-157 | the total is 246 when the floor applies, and (labour + material) × 1.23 otherwise |
| Calculator.UnknownWorkTypeChargesMaterialsOnly | js/calculator.js:141-153 | an unknown work type gives rate 0, labour 0, surcharge 0 and subtotal max(material, 200) |
| Calculator.StandardComplexityAddsNothing | js/calculator.js:145-147 | a complexity that parses to NaN, 0 or 1 adds no surcharge: labour = rate × hours |
| Calculator.MoreHoursNeverCheaper | js/calculator.js:142-157 | with a non-negative multiplier, more hours never lower labour, subtotal or total |
| Calculator.NegativeMultiplierReversesHours | js/calculator.js:145-147 | a negative parsed multiplier makes 2 h of TIG cheaper than 1 h, so the premise above is needed |
| Calculator.TierMultipliersAreTheirValues | js/calculator.js:130-135 | each tier of `complexityMultipliers`, parsed, is used as its own table value, which is at least 1, so the monotonicity above holds for every tier |
| Calculator.NegativeHoursGiveNegativeLabour | js/calculator.js:141-147 | negative hours with a known type and multiplier 1 give negative labour (no clamping) |
| Calculator.PresetEstimates | js/calculator.js:295-315 | the three presets price to 1320/1623.6, 2508/3084.84 and 9200/11316 (subtotal/total); 5 h TIG is 492, 1 h MIG and an unknown type hit the 246 minimum |
| Calculator.EstimateFromForm | js/calculator.js:107-119 | the estimate is the formula's for the form's own work type and complexity, with hours and material that are NaN or 0 counted as 0; with neither given the floor applies |
| Calculator.ValidateInput | js/calculator.js:54-79 | "missing" iff required and blank after trim; "out of range" only for a non-blank number field, with min = `parseFloat(min) \|\| 0` and max = `parseFloat(max) \|\| Infinity`; accepted iff neither holds (both directions) |
| Calculator.BlankOptionalInputAccepted | js/calculator.js:62-72 | a blank optional field is accepted whatever its type |
| Calculator.DegenerateBounds | js/calculator.js:69-72 | a `max` of NaN or 0 means no upper bound, and such a `min` means 0, so the number is accepted iff it is ≥ 0 |
| Calculator.ValidateAll | js/calculator.js:245-252 | every input is validated (verdict i is input i's), and the result is true iff every verdict is accepted |
| Calculator.CalculateCost | js/calculator.js:242-281 | fails with the form-error message iff some input is rejected; otherwise yields the estimate of the form's values |
| Calculator.NotificationIcon | js/calculator.js:399-407 | the four known types map to their icons; every other type maps to `info-circle` |
| Contact.NameMatches | js/contact.js:56 | the name regex read as one or more characters of the class `a-z`, `A-Z`, the eighteen Polish letters listed and `\s` (no `u` flag, so the class is those code points exactly); an accepted name is non-empty and holds no digit and no `@` |
| Contact.EmailMatches | js/contact.js:61 | the email regex read as `[^\s@]+`, `@`, `[^\s@]+`, `.`, `[^\s@]+`, with backtracking free to pick any later dot; an accepted address has at least five characters, a dot, and does not start or end with `@` |
| Contact.PhoneMatches | js/contact.js:66 | the phone regex read as an optional `+` then 9 to 15 characters of digits, `\s`, `-`, `(` and `)`; an accepted number has 9 to 16 characters and no `+` after the first |
| Contact.RuleFor | js/contact.js:51-87 | `validationRules[fieldName]`: exactly the five names have a rule; only `phone` is optional; name, email and phone have their own pattern and the others none; only name (2-50) and message (10-1000) have length limits, the others having 0 for both; each rule's message is the table's text |
| JsText.NatToStringRoundTrip | js/contact.js:101-109 | the count rendered into `Minimum ${minLength} znaków` and `Maksimum ${maxLength} znaków` reads back as exactly that number (with no leading zero) |
| Contact.EmailHasOneAtAndNoSpace | js/contact.js:61 | an address the email pattern accepts has no white space and exactly one `@` |
| Contact.PatternExamples | js/contact.js:56-66 | `Jan 3` fails and `Łucja Żak` passes the name pattern; `jan@firma.pl` passes and `jan@firma` fails the email pattern; `+48 600 100 200` passes and `600-100` fails the phone pattern |
| Contact.FirstFailureIsEarliest | js/contact.js:101-116 | the first-failure rule reports nothing iff no check fails, and otherwise reports the message of the earliest failing check |
| Contact.FirstFailureOfCheckOrder | js/contact.js:95-116 | over the code's order, the report is required, else minimum length, else maximum length, else pattern, else nothing |
| Contact.ValidateField | js/contact.js:84-132 | the guarded reassignments give valid iff the first-failure-then-checkbox verdict is empty; the display is untouched without a rule, else shows that verdict's message or clears the error |
| Contact.UnknownFieldIsValid | js/contact.js:87-89 | a field name outside the table is valid and its display is untouched |
| Contact.BlankRequiredFieldIsMissing | js/contact.js:95-99 | a blank required field (not an unticked checkbox) reports `To pole jest wymagane` |
| Contact.BlankOptionalFieldIsValid | js/contact.js:102-116 | a blank optional field passes, since length and pattern checks skip empty values; the only optional field is `phone` |
| Contact.UntickedRequiredCheckboxFails | js/contact.js:118-122 | an unticked required checkbox reports its rule's own message whatever the earlier checks gave |
| Contact.VerdictReportsEarliestCheck | js/contact.js:95-122 | without the checkbox override, a field fails iff some check rejects its trimmed value, and the message is the earliest rejecting check's |
| Contact.ShortNameExample | js/contact.js:102-105 | the name `A` reports `Minimum 2 znaków` |
| Contact.PrivacyExample | js/contact.js:118-122 | an unticked privacy box reports the consent message |
| Contact.ValidateForm | js/contact.js:163-176 | every field is validated with no early exit (display i is field i's), and the form is valid iff every field is |
| Contact.FormattedPhone | js/contact.js:404-412 | with d the input's digits: `+` and d when d starts with 48, else `+48 ` and d when d has nine digits, else d itself; the result's digits are d, with `48` added exactly in the middle case |
| Contact.FormattedPhoneSettles | js/contact.js:402-413 | a second round turns a fresh `+48 ` number into `+48` and the digits and changes nothing else; a third round changes nothing |
| Contact.NineDigitPhoneMatchesPattern | js/contact.js:404-412 | any input with nine digits is formatted into something the phone pattern accepts |
| Contact.PhoneInput.OnInput | js/contact.js:402-413 | the handler replaces the field's value by its formatted form |
| Contact.GetOr | js/contact.js:247-248 | an absent or empty value gives the fallback, and a non-empty one is kept (both cases stated) |
| Contact.BuildTemplateParams | js/contact.js:243-252 | `reply_to` equals `from_email` (the form's email); phone defaults to `Nie podano`, service to `Nie wybrano`; name and message are passed through |
| Site.OfCategory | js/main.js:293 | the result holds only items of the category, every such item of the input, and nothing not in the input |
| Site.OfCategoryAppend | js/main.js:293 | filtering distributes over concatenation, so kept items keep their original order |
| Site.FilterPortfolio | js/main.js:290-293 | `all` returns the item list unchanged; any other filter keeps exactly the items of that category |
| Site.ConstructionFilterExample | js/main.js:173-230 | on the site's eight items, `konstrukcje` shows items 1 and 5 in that order |
| Site.AllAndUnknownFilterExamples | js/main.js:290-293 | `all` shows all eight items, and an unused category shows none |
| Site.Portfolio.ClickFilter | js/main.js:283-296 | after a click only the clicked button is active, and the grid shows the filtered items |
| Site.Portfolio.constructor | js/main.js:299-300 | the initial render shows every item; the buttons keep the `active` flags the page starts with |
| Site.MobileMenu.ToggleFromHamburger | js/main.js:24-28 | all three flags are toggled, so lock-step is kept |
| Site.MobileMenu.Close | js/main.js:31-37 | all three flags become false |
| Site.MobileMenu.OnDocumentClick | js/main.js:40-46 | a click outside hamburger and menu clears all three flags; one inside changes nothing |
| Site.MobileMenu.OnKeyDown | js/main.js:570-582 | Escape on an open menu clears all three flags; otherwise nothing changes; lock-step is kept and the menu is never left open after Escape |
| Site.MobileMenu.Click | js/main.js:24-46 | with the document handler after the target's: the hamburger toggles, a link or an outside click closes, other clicks in the menu change nothing; lock-step is kept |
| Site.MobileMenu.constructor | js/main.js:17-46 | the three flags start as the page's markup sets them; the menu is in lock step iff they agree |
| Site.ActiveSectionIsLastInView | js/main.js:83-92 | the chosen id is the last section in document order with offsetTop − 100 ≤ scrollY < offsetTop − 100 + height, or `''` when none is |
| Site.HighlightActiveNavigation | js/main.js:79-100 | the loop's `current` is that id, and link j is active iff its href equals `#` + current |
| Site.NoSectionMarksBareHashLink | js/main.js:94-99 | with no section in view the target href is a bare `#` |
| Site.RatingStars | js/main.js:416 | ratings 0..5 give five characters, `rating` filled stars then empty ones; any other integer throws a RangeError (both directions) |
| Site.ScrollEffects.UpdateHeader | js/main.js:49-55 | the header has `scrolled` iff scrollY > 50 |
| Site.ScrollEffects.UpdateBackToTop | js/main.js:348-354 | the button has `visible` iff scrollY > 300 |
| Site.ScrollEffects.OnScroll | js/main.js:349-353 | after both listeners run, the classes depend only on the position, and `visible` implies `scrolled` |
| Site.ScrollEffects.constructor | js/main.js:49-55 | the two flags start as the page's markup sets them, before any scroll |

## Left out

- js/maps.js is not part of this model. It holds the map SDK calls, geolocation, sharing, clipboard, the floating-point haversine distance and the coordinate URLs.
- Sending mail (`emailjs.send`, its status check), the `mailto` fallback, analytics tracking and `collectFormData` (timestamp, user agent, referrer) are foreign calls or environment reads; only the pure parameter mapping is modelled, with the current time passed in as a string.
- Loading reviews with `fetch`, the fallback review data path, the review card HTML and `formatDate` are network I/O, presentation, or locale formatting; only the star string is modelled.
- Currency formatting with `Intl.NumberFormat`, `updateCostDisplay` and the minimum-cost note text are presentation of an `Estimate`.
- Error-message DOM (`showValidationError`, `showFieldError`, `clearFieldError`), notifications, spinners, every `setTimeout` delay, counter animation, Intersection Observer effects, the lightbox, smooth scrolling and injected styles are timer-driven or presentation only.
- The character counter of the contact form (js/contact.js:367-396) is not modelled; it is a display helper outside the validation rules.
- Contact.PhoneInput.OnInput: the model gives the phone field's `input` handler as it behaves once installed. As the scripts stand it is never installed: `initEnhancedFeatures` (js/contact.js:356-365) calls `initServiceAutoSuggest` at line 361, which none of the scripts defines, so the ReferenceError stops it before `initPhoneFormatting()` at line 364. No page-level definition of it is part of this model.
- Contact.FormattedPhone: describes the formatting the handler performs when installed; see the line above for why, as written, no field is ever reformatted.
- `initAdvancedFeatures` in js/calculator.js calls `initCalculatorHistory` and `initExportFeatures` (lines 289 and 292), which no script defines; the presets are installed before them (line 286), so `Calculator.PresetEstimates` is unaffected. Calculator history and export are not modelled.
- Calculator.ValidateInput: no message text is built. The missing-value verdict stands for the fixed text `To pole jest wymagane`, and the out-of-range text embeds JavaScript number-to-string rendering of min and max, so that verdict carries the two bounds instead.
- Calculator.CalculateWeldingCost: IEEE-754 rounding is not modelled; `real` arithmetic is exact, so values such as 1623.6 are exact here. `parseFloat` string parsing is an input, not a model.
- Calculator.HourlyRate: a work type naming an inherited object property (`constructor`, `toString`) would read a function in JavaScript and make the arithmetic NaN. The model treats every unlisted string as unknown; the form's select only offers listed types.
- Calculator.NotificationIcon: an inherited property name would return a function rather than `info-circle`; the callers only pass the four known types.
- Contact.ValidateField: a field name that is an inherited object property (`constructor`, `toString`, `__proto__`) finds a truthy value through `window.contactFormValidation[fieldName]` in JavaScript, so the code treats it as valid and clears its error; the model gives such a name no rule and leaves the display untouched. None of the form's control names is an inherited property name; `service` (read at js/contact.js:248) has no rule and is always valid (`Contact.UnknownFieldIsValid`).
- Contact.UnknownFieldIsValid: for the same inherited property names the code clears the error display rather than leaving it untouched; the lemma states the model's `Untouched`.
- Contact.ValidateField: lengths count Unicode scalar values, not UTF-16 code units, so a character outside the Basic Multilingual Plane counts once here and twice in JavaScript.
- Site.RatingStars: the rating is an integer. JavaScript's `repeat` truncates a fractional count, which is not modelled.
- Both scripts declare global `initFormValidation` and `getNotificationIcon`, so in a page that loads both, the later script's definitions replace the earlier ones. The script order is in the HTML, which is not part of this model, so each file's functions are modelled on their own. The contact form's `getNotificationIcon` (js/contact.js:327-335) is identical to `Calculator.NotificationIcon`.
