# Fuel Monitor — a verified model of the vehicle registry

Fuel Monitor is a small React screen for a fleet. It keeps a list of vehicles. Each vehicle has an id, a Brazilian licence plate and a fuel level given as a percentage of the tank. The screen colours each vehicle by fuel status and forecasts how many weeks the fuel will last. A form adds and edits vehicles; it validates the plate and the fuel level and formats the plate as it is typed.

The model has five modules:

- `VehicleTypes` (`vehicle_types.dfy`) holds the vehicle record and the pure fuel rules of `src/types/Vehicle.ts`:
  - the status thresholds and the colour each status is drawn in;
  - the forecast `round(level · 55 · 10 / 12 / 100)`.
- `JsText` (`js_text.dfy`) states the JavaScript built-ins the form depends on, over `string`:
  - `trim`, with the ECMA-262 WhiteSpace and LineTerminator characters;
  - `toUpperCase`, for ASCII letters;
  - `parseFloat`, read as the longest StrDecimalLiteral prefix, as the `parseFloat` algorithm of ECMA-262 does. It returns a `JsNumber`, which is NaN, a finite value or a signed infinity.
- `VehicleFormComponent` (`vehicle_form.dfy`) models `src/components/VehicleForm.tsx`:
  - the two plate grammars, as position-by-position character classes;
  - the as-you-type formatter;
  - the per-field error rules;
  - the form itself, as the class `VehicleForm`. Its fields are the two text inputs and the error object, and its methods are the change handlers and `handleSubmit`.
- `IndexPage` (`index_page.dfy`) models `src/pages/Index.tsx`:
  - the list operations (`map` to replace by id, `filter` to delete by id), as sequence functions with their algebra;
  - the page state (`vehicles`, `editingVehicle`, `showForm`), as the class `Index` whose methods are the handlers;
  - the `onSubmit` routing, composed with the form's submit in `SubmitForm`. Through it the registry only ever holds records the form accepted.
- `Wrappers` (`wrappers.dfy`) holds `Option`, which stands for the source's optional fields and nullable references.

Fuel levels are `real`. `Math.round(x)` is `⌊x + 0.5⌋`.

The forecast `level · 55 · 10 / 12 / 100` is 11·level/24 weeks, rounded half up.

The formatter removes every character outside `[A-Z0-9]` before upper-casing. A lower-case letter typed into the plate field is therefore dropped, not capitalised (`FormatDropsLowerCase`).

## Model

| member | source | states |
|---|---|---|
| VehicleTypes.WithId | src/pages/Index.tsx:16-19 | The stored record carries the given id and exactly the submitted plate and fuel level. |
| VehicleTypes.GetFuelStatus | src/types/Vehicle.ts:10-14 | The status is high exactly above 80, medium exactly in (30, 80], and low exactly at or below 30. |
| VehicleTypes.StatusMonotone | src/types/Vehicle.ts:10-14 | A fuller tank never shows a lower status. |
| VehicleTypes.StatusColor | src/types/Vehicle.ts:18-22 | The colour each status is drawn in. `GetFuelColor` and `ColorDeterminesStatus` state that the three colours are distinct and tied to the level ranges. |
| VehicleTypes.GetFuelColor | src/types/Vehicle.ts:16-23 | The colour is #4CAF50 exactly above 80, #FFC107 exactly in (30, 80], and #F44336 exactly at or below 30. |
| VehicleTypes.ColorDeterminesStatus | src/types/Vehicle.ts:16-23 | Two levels share a colour if and only if they share a status. |
| VehicleTypes.MathRound | src/types/Vehicle.ts:28 | The result is the integer nearest to x, and a tie goes up. |
| VehicleTypes.CalculateFuelWeeks | src/types/Vehicle.ts:25-29 | The forecast w satisfies 24w − 12 ≤ 11·level < 24w + 12, so it is 11·level/24 rounded half up. |
| VehicleTypes.FuelWeeksMonotone | src/types/Vehicle.ts:25-29 | More fuel never forecasts fewer weeks. |
| VehicleTypes.FuelWeeksBounds | src/types/Vehicle.ts:25-29 | A level in [0, 100] forecasts between 0 and 46 weeks. |
| VehicleTypes.FuelWeeksExamples | src/types/Vehicle.ts:25-29 | 0% forecasts 0 weeks, 12% (the tie 5.5) forecasts 6, and 100% forecasts 46. |
| JsText.TrimStart | src/components/VehicleForm.tsx:40 | The result is no longer than s and starts where the kept part of s starts. Every character before that point is white space, and the result does not start with white space. |
| JsText.TrimStartIsSuffix | src/components/VehicleForm.tsx:40 | What `trimStart` leaves is a suffix of its input. |
| JsText.TrimStartNone | src/components/VehicleForm.tsx:40 | Text that does not start with white space is left as it is. |
| JsText.TrimEnd | src/components/VehicleForm.tsx:40 | The result is no longer than s and ends where the kept part of s ends. Every character after that point is white space, and the result does not end with white space. |
| JsText.TrimEndIsPrefix | src/components/VehicleForm.tsx:40 | What `trimEnd` leaves is a prefix of its input. |
| JsText.Trim | src/components/VehicleForm.tsx:40 | The result is what `trimStart` leaves, cut before its trailing white space: a prefix of it, with only white space after the cut. A non-empty result starts and ends with a character that is not white space. The result is empty if and only if every character of s is white space, which is the blank test `!s.trim()`. |
| JsText.UpperChar | src/components/VehicleForm.tsx:31 | A lower-case letter becomes the capital at the same place in the alphabet. Every other character is unchanged, a letter of either case gives a capital, and the result is never lower-case. |
| JsText.ToUpperCase | src/components/VehicleForm.tsx:58 | The result has the same length, and every character is upper-cased in place. |
| JsText.UpperCaseNoLower | src/components/VehicleForm.tsx:68 | A string without lower-case letters is its own upper case. |
| JsText.UpperCaseIdempotent | src/components/VehicleForm.tsx:31 | Upper-casing twice gives the same result as upper-casing once. |
| JsText.Pow10 | src/components/VehicleForm.tsx:47 | A power of ten is at least 1. |
| JsText.DigitsValue | src/components/VehicleForm.tsx:47 | The value of k digits is below 10^k. |
| JsText.LeadingDigits | src/components/VehicleForm.tsx:47 | The result is the longest prefix of s made only of digits. |
| JsText.Fraction | src/components/VehicleForm.tsx:47 | The digits after the decimal point have a non-negative value. |
| JsText.Scale | src/components/VehicleForm.tsx:47 | Scaling by a power of ten keeps a non-negative mantissa non-negative. |
| JsText.ExponentPart | src/components/VehicleForm.tsx:47 | The value of an `e`/`E` exponent with an optional sign; 0 when no exponent digits follow. `ParseFloatExponent` states it on "1e2". |
| JsText.Unsigned | src/components/VehicleForm.tsx:47 | A leading `+` or `-` is removed, and the text changes if and only if it starts with one. |
| JsText.DecimalPrefixValue | src/components/VehicleForm.tsx:47 | An unsigned literal is never infinite and never negative. It is NaN if and only if the text starts with neither a digit nor a point followed by a digit. |
| JsText.ParseFloat | src/components/VehicleForm.tsx:47 | `parseFloat`: leading white space is skipped, then an optional sign, then `Infinity` or an unsigned decimal literal. Its outcomes are stated by `ParseFloatOutcome`, `ParseFloatDigits`, `ParseFloatNoSign` and `ParseFloatMinus`. |
| JsText.SignedValue | src/components/VehicleForm.tsx:47 | After the sign, `Infinity` gives an infinity of that sign, and anything else is read as an unsigned decimal literal and given the sign. Stated through `ParseFloatOutcome`. |
| JsText.ApplySign | src/components/VehicleForm.tsx:47 | A minus sign negates a finite value and leaves NaN alone. `ParseFloatMinus` and `ParseFloatNegative` state it on digit runs. |
| JsText.NotInfinity | src/components/VehicleForm.tsx:47 | Text not starting with `I` does not start with `Infinity`. |
| JsText.ParseFloatOutcome | src/components/VehicleForm.tsx:47 | `parseFloat` gives NaN if and only if no number starts the text after its white space and sign. It gives an infinity if and only if `Infinity` starts that text. A negative result requires a leading minus. |
| JsText.ParseFloatNoSign | src/components/VehicleForm.tsx:47 | Text starting with a digit is read as an unsigned literal. |
| JsText.ParseFloatMinus | src/components/VehicleForm.tsx:47 | A minus sign followed by a digit negates the literal after it. |
| JsText.ParseFloatBlank | src/components/VehicleForm.tsx:47-48 | Text made only of white space parses to NaN. |
| JsText.ParseFloatDigits | src/components/VehicleForm.tsx:47 | A run of digits parses to the natural number it denotes. |
| JsText.DecimalDigits | src/components/VehicleForm.tsx:47 | A run of digits has no fraction and no exponent, so it is worth its digit value. |
| JsText.LeadingDigitsAll | src/components/VehicleForm.tsx:47 | A run made only of digits is entirely leading digits. |
| JsText.LeadingDigitsSplit | src/components/VehicleForm.tsx:47 | A digit run followed by a non-digit is read up to that non-digit. |
| JsText.ParseFloatFraction | src/components/VehicleForm.tsx:47 | "12.5" parses to 12.5. |
| JsText.DecimalFraction | src/components/VehicleForm.tsx:47 | The unsigned literal "12.5" is worth 12.5. |
| JsText.ParseFloatTrailing | src/components/VehicleForm.tsx:47 | "  50abc" parses to 50: leading spaces are skipped and trailing junk is ignored. |
| JsText.DecimalTrailing | src/components/VehicleForm.tsx:47 | The unsigned literal at the head of "50abc" is worth 50. |
| JsText.ParseFloatExponent | src/components/VehicleForm.tsx:47 | "1e2" parses to 100. |
| JsText.DecimalExponent | src/components/VehicleForm.tsx:47 | The unsigned literal "1e2" is worth 100. |
| JsText.ParseFloatNegative | src/components/VehicleForm.tsx:47 | "-3" parses to −3. |
| JsText.DecimalDigit | src/components/VehicleForm.tsx:47 | The unsigned literal "3" is worth 3. |
| JsText.ParseFloatNaN | src/components/VehicleForm.tsx:47 | "abc" parses to NaN. |
| JsText.ParseFloatLonePoint | src/components/VehicleForm.tsx:47 | "." parses to NaN. |
| JsText.ParseFloatInfinity | src/components/VehicleForm.tsx:47 | "Infinity" parses to positive infinity. |
| VehicleFormComponent.Matches | src/components/VehicleForm.tsx:29-30 | An anchored pattern matches exactly the strings of its length whose every character is in its class. |
| VehicleFormComponent.LegacyPattern | src/components/VehicleForm.tsx:29 | The legacy regular expression accepts a string if and only if it is three capital letters, a hyphen and four digits. |
| VehicleFormComponent.MercosulPattern | src/components/VehicleForm.tsx:30 | The Mercosul regular expression accepts a string if and only if it is three capital letters, a digit, a capital letter and two digits. |
| VehicleFormComponent.ValidateLicensePlate | src/components/VehicleForm.tsx:27-32 | A plate is accepted if and only if its upper-case form is a legacy plate (AAA-9999) or a Mercosul plate (AAA9A99). An accepted plate has 7 or 8 characters. |
| VehicleFormComponent.ValidateIgnoresCase | src/components/VehicleForm.tsx:31 | A plate and its upper-case form are accepted together. |
| VehicleFormComponent.ValidateRawShape | src/components/VehicleForm.tsx:27-32 | Read on the raw text, a plate is accepted if and only if it is three letters of either case, a hyphen and four digits, or three letters, a digit, a letter and two digits. |
| VehicleFormComponent.ValidPlateNotBlank | src/components/VehicleForm.tsx:40-43 | An accepted plate is never blank. |
| VehicleFormComponent.ValidateLowerLegacy | src/components/VehicleForm.tsx:29-31 | "abc-1234" is accepted. |
| VehicleFormComponent.ValidateMercosul | src/components/VehicleForm.tsx:30 | "ABC1D23" is accepted. |
| VehicleFormComponent.ValidateRejects | src/components/VehicleForm.tsx:29-30 | "AB-1234" and "ABCD1234" are refused. |
| VehicleFormComponent.RemoveNonPlateChars | src/components/VehicleForm.tsx:68 | The filter never lengthens its input and keeps only capital letters and digits. |
| VehicleFormComponent.RemoveNonPlateCharsAppend | src/components/VehicleForm.tsx:68 | Filtering distributes over concatenation, so order is kept. |
| VehicleFormComponent.RemoveNonPlateCharsKeeps | src/components/VehicleForm.tsx:68 | Text made only of plate characters passes the filter unchanged. |
| VehicleFormComponent.Cleaned | src/components/VehicleForm.tsx:68 | The formatter's `cleaned` value: the `[^A-Z0-9]` filter, then `toUpperCase`. `CleanedIsFilter` states that it equals the filter alone. |
| VehicleFormComponent.CleanedIsFilter | src/components/VehicleForm.tsx:68 | The upper-casing after the filter changes nothing, and no lower-case letter of the input survives. |
| VehicleFormComponent.FormatLicensePlate | src/components/VehicleForm.tsx:66-82 | The formatted plate has at most 8 characters. |
| VehicleFormComponent.FormatShape | src/components/VehicleForm.tsx:66-82 | The result holds only plate characters, plus a hyphen that can appear only at index 3. The hyphen is present if and only if the cleaned input is a hyphenless legacy plate. Without the hyphen, the result is the first seven cleaned characters. |
| VehicleFormComponent.HyphenatedFilter | src/components/VehicleForm.tsx:68-75 | Filtering a seven-character plate with the inserted hyphen gives the plate back. |
| VehicleFormComponent.FormatTruncates | src/components/VehicleForm.tsx:81 | Input that cleans to more than 7 characters is cut to 7 and never gets a hyphen. |
| VehicleFormComponent.FormatIdempotent | src/components/VehicleForm.tsx:66-82 | Formatting the formatted text again changes nothing when the input cleaned to at most 7 characters. |
| VehicleFormComponent.FormatTruncationNotIdempotent | src/components/VehicleForm.tsx:74-81 | When more than seven characters clean to a text whose first seven are three letters and four digits, those seven are shown without a hyphen. The next format of that text adds the hyphen, so formatting is not idempotent there. |
| VehicleFormComponent.FormatKeepsPlateChars | src/components/VehicleForm.tsx:68 | Text made only of plate characters is its own cleaned value. |
| VehicleFormComponent.FormatLegacyIsValid | src/components/VehicleForm.tsx:74-75 | A hyphenless legacy plate is shown with the hyphen after the letters, and the result is accepted by the validator. |
| VehicleFormComponent.FormatMercosulIsValid | src/components/VehicleForm.tsx:77-78 | A Mercosul plate is shown as typed, and the result is accepted by the validator. |
| VehicleFormComponent.RemoveNonPlateCharsDrops | src/components/VehicleForm.tsx:68 | Text without a capital letter or digit filters to nothing. |
| VehicleFormComponent.FormatDropsLowerCase | src/components/VehicleForm.tsx:68 | Lower-case letters typed before the rest of a plate leave the formatted text exactly as the rest alone would give it; they are dropped, not capitalised. |
| VehicleFormComponent.LicensePlateError | src/components/VehicleForm.tsx:40-44 | The error is "Placa é obrigatória" if and only if the plate is blank. It is the format message if and only if the plate is not blank and not accepted. There is no error if and only if the plate is accepted. |
| VehicleFormComponent.InFuelRange | src/components/VehicleForm.tsx:50 | The range test `!(isNaN(n) \|\| n < 0 \|\| n > 100)` with JavaScript's comparisons, which are false for NaN. `InFuelRangeIff` states it as a finite number in [0, 100]. |
| VehicleFormComponent.FormErrors.IsEmpty | src/components/VehicleForm.tsx:56 | `Object.keys(errors).length === 0`: neither field has an error. `SubmissionAccepted` states when that holds. |
| VehicleFormComponent.InFuelRangeIff | src/components/VehicleForm.tsx:50 | `!(isNaN(n) \|\| n < 0 \|\| n > 100)` holds if and only if n is finite and in [0, 100]. |
| VehicleFormComponent.FuelLevelError | src/components/VehicleForm.tsx:47-52 | The error is "Nível de combustível é obrigatório" if and only if the field is blank. It is the range message if and only if the field is not blank and the parsed number is out of range. There is no error if and only if the field parses to a finite number in [0, 100]. |
| VehicleFormComponent.PlateErrorExample | src/components/VehicleForm.tsx:40-44 | "abc-1234" raises no plate error. |
| VehicleFormComponent.FuelDigitsError | src/components/VehicleForm.tsx:47-52 | A whole number typed as digits raises no error if and only if it is at most 100; above 100 it raises the range error. |
| VehicleFormComponent.FuelErrorRequired | src/components/VehicleForm.tsx:48-49 | An empty fuel field raises the required error. |
| VehicleFormComponent.SubmissionAccepted | src/components/VehicleForm.tsx:54-60 | Both fields are free of errors if and only if the plate is accepted and the fuel text parses to a number in [0, 100]. The record then handed on, the upper-cased plate with that number, is an accepted record. |
| VehicleFormComponent.CheckLicensePlate | src/components/VehicleForm.tsx:39-44 | The blank check, then the format check, computes exactly the plate error. |
| VehicleFormComponent.CheckFuelLevel | src/components/VehicleForm.tsx:46-52 | The number is `parseFloat` of the field. The blank check, then the NaN and range checks, computes exactly the fuel error. With no error, the number is finite and in [0, 100]. |
| VehicleFormComponent.VehicleForm.constructor | src/components/VehicleForm.tsx:16-18 | Both fields start empty, and there are no errors. |
| VehicleFormComponent.VehicleForm.HandleLicensePlateChange | src/components/VehicleForm.tsx:84-87 | The plate field becomes the formatted input, and nothing else changes. |
| VehicleFormComponent.VehicleForm.HandleFuelLevelChange | src/components/VehicleForm.tsx:125 | The fuel field becomes the input as typed, and nothing else changes. |
| VehicleFormComponent.VehicleForm.HandleSubmit | src/components/VehicleForm.tsx:34-64 | The errors shown are the two field errors, and a record is handed on if and only if there are none. The record carries the upper-cased plate and the parsed fuel level, and it is accepted. Both fields are cleared on success and kept on failure. |
| IndexPage.ReplaceById | src/pages/Index.tsx:26-30 | The length is kept. Every vehicle with the id becomes the submission under that id, and every other vehicle is unchanged. |
| IndexPage.RemoveById | src/pages/Index.tsx:37 | The result is no longer than the list. A vehicle remains if and only if it was in the list with a different id. |
| IndexPage.Ids | src/pages/Index.tsx:27 | Lists the ids position by position. |
| IndexPage.ReplaceByIdKeepsIds | src/pages/Index.tsx:26-30 | An edit leaves every id in place. |
| IndexPage.ReplaceByIdIdempotent | src/pages/Index.tsx:26-30 | Repeating the same edit changes nothing more. |
| IndexPage.ReplaceByIdAbsent | src/pages/Index.tsx:26-30 | Editing an id that is not in the list changes nothing. |
| IndexPage.RemoveByIdAppend | src/pages/Index.tsx:37 | Deleting distributes over concatenation, so the survivors keep their order. |
| IndexPage.RemoveByIdSingleton | src/pages/Index.tsx:37 | A single vehicle survives if and only if its id differs. |
| IndexPage.RemoveByIdLeavesNone | src/pages/Index.tsx:37 | After a delete, no vehicle with that id remains. |
| IndexPage.RemoveByIdAbsent | src/pages/Index.tsx:37 | Deleting an id that is not in the list changes nothing. |
| IndexPage.RemoveByIdIdempotent | src/pages/Index.tsx:37 | Deleting twice gives the same list as deleting once. |
| IndexPage.AddThenRemove | src/pages/Index.tsx:15-22 | Adding under a fresh id and then deleting that id restores the list. |
| IndexPage.RemoveAfterReplace | src/pages/Index.tsx:24-38 | Editing an id and then deleting it gives the same list as deleting it directly. |
| IndexPage.Index.constructor | src/pages/Index.tsx:11-13 | The page starts with no vehicles, nothing being edited, and the form closed. |
| IndexPage.Index.HandleAddVehicle | src/pages/Index.tsx:15-22 | The submission is appended under the given id and the form closes. Accepted records stay accepted. |
| IndexPage.Index.HandleEditVehicle | src/pages/Index.tsx:24-34 | While a vehicle is being edited, its id is replaced by the submission, editing stops and the form closes. Otherwise nothing changes. |
| IndexPage.Index.HandleDeleteVehicle | src/pages/Index.tsx:36-38 | Every vehicle with the id is dropped, and the rest of the state is unchanged. |
| IndexPage.Index.OpenEditForm | src/pages/Index.tsx:40-43 | The vehicle is being edited, the form is open, and the list is unchanged. |
| IndexPage.Index.OpenAddForm | src/pages/Index.tsx:67 | The form opens, and the rest of the state is unchanged. |
| IndexPage.Index.CloseForm | src/pages/Index.tsx:45-48 | The form closes and editing stops. The list is unchanged. |
| IndexPage.Index.HandleFormSubmit | src/pages/Index.tsx:80 | An edit is routed to the replace and an add to the append. The form ends closed with nothing being edited. |
| IndexPage.Index.SubmitForm | src/pages/Index.tsx:78-81 | The form's errors are the two field errors, and a record is handed on if and only if there are none. A refused submission leaves the page and the form's fields unchanged. An accepted one carries the upper-cased plate and the parsed fuel level; it is added, or edited in when a vehicle is being edited; the form closes with no vehicle being edited, and its fields are cleared. The list only ever holds accepted records, and "editing implies the form is open" is kept. |

## Left out

- The React rendering (JSX, class names, the empty-state card), `e.preventDefault()` and the cancel button's wiring are not modelled. Neither are `src/components/VehicleList.tsx` and `src/components/VehicleCard.tsx`, which only display the list and pass clicks to the page's handlers.
- The `useEffect` that prefills the form from the vehicle being edited (src/components/VehicleForm.tsx:20-25) is left out. It needs `Number.prototype.toString`, which is not part of this model.
- IndexPage.Index.HandleAddVehicle: the id `Date.now().toString()` is a parameter, because the clock is outside the model. The model therefore does not claim that ids are unique.
- Fuel levels are exact reals. Binary floating-point rounding in `parseFloat`, in the forecast's arithmetic and in `Math.round` is not modelled.
- JsText.ToUpperCase: upper-cases ASCII letters only. Unicode case mappings (for example `ß` to `SS`, or `ſ` to `S`) are not modelled. They could make a non-ASCII plate match the validator's patterns.
- VehicleFormComponent.FormatLicensePlate: its own contract states only the length bound. What it produces is stated by `FormatShape`, `FormatTruncates` and `FormatIdempotent`.
- JsText.Trim: stated for the white space set of ECMA-262 (WhiteSpace plus LineTerminator), with no Unicode category lookup beyond that list.
- IndexPage.Index.SubmitForm: the form is an object that outlives `CloseForm`. In src/pages/Index.tsx:76-84 the form is unmounted when it closes, so it reopens with empty fields and no errors. The model keeps the fields and errors of a refused submission across a close.
