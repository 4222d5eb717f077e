# Booking front-end logic

A model of the booking front end for a pest-control brand and a cleaning
brand. Each brand has a form with its own draft record. The submit handler
posts the draft to a booking-automation webhook and normalises every outcome
into a `BookingResponse`. On success a results page renders the scored
appointment recommendations that came back.

The modules follow the source files:

- `Types` covers `types.ts`: the two draft records, the response and the
  recommendation envelope. Optional properties are `Option` fields.
- `Results` covers `components/ResultsPage.tsx`:
  - splitting the recommendations into qualified and skill-mismatched ones;
  - choosing which blocks the page shows (header sentence, warning, ranked
    list, placeholder, options line, disclaimer);
  - the values each ranked entry shows (rank badge, quality label and
    colour).
- `Cleaning` and `PestControl` cover `components/CleaningForm.tsx` and
  `components/PestControlForm.tsx`. Each form is a class whose draft and
  error map change through its handlers. Their invariant says:
  - phone fields hold normalised digits;
  - the error map matches the phones;
  - add-ons have no duplicates;
  - the region / sub-district pair is one the catalog offers.
- `PhoneInput` holds the phone normaliser and error rule that both forms
  share. `Locations` holds the catalog lookups both forms do.
- `Select` covers `components/SearchableSelect.tsx`: the case-insensitive
  substring filter, plus a class for the open / search-term state.
- `Api` covers `services/api.ts`:
  - the posted payload;
  - the mapping from an abstract `FetchOutcome` to a `BookingResponse`,
    split into the `try` block and the `catch` clause as in the code.
- `Root` covers `App.tsx`:
  - parsing and writing back the `service` URL parameter;
  - an `App` class holding the controller fields and the submit, result
    and reset transitions;
  - the condition under which the results page replaces the forms.
- `Seqs` and `Strings` are shared helpers:
  - `Filter` stands for `Array.prototype.filter`.
  - `Contains` stands for `String.prototype.includes`.
  - `ToLower` is an ASCII lower-casing.
  - `NatToString` produces decimal text, with its inverse `DecimalValue`.

JavaScript truthiness is written out wherever the code relies on it:

- `rank || index + 1` uses the rank unless it is 0.
- `totalOptionsEvaluated || n` uses the count unless it is missing or 0.
- `meta?.disclaimer` shows only a non-empty string.
- `result.message || fallback` uses only a non-empty message.
- `value || placeholder || '請選擇'` uses only non-empty strings.

Where the intended behaviour of the booking system and its code differ,
the model follows the code:

- When every recommendation is skill-mismatched, the code renders the
  warning block and the generic placeholder together. The placeholder is
  the else-branch of the ranked list (components/ResultsPage.tsx:193, 332).
  It is not replaced by the warning. See `Results.PageModes`.
- The disclaimer is rendered only inside the ranked-list branch, and only
  when it is a non-empty string (components/ResultsPage.tsx:231, 323).
  A page without the ranked list shows no disclaimer. See
  `Results.RankedSectionExtras`.
- A network failure is recognised only as a `TypeError` whose message
  contains the lower-case word "fetch" (services/api.ts:45). A browser that
  reports it differently, for example as "Load failed", gets
  `SUBMISSION_ERROR` with that message. See `Api.NetworkFailureExamples`.
  Likewise, a thrown `Error` with an empty message yields an empty message,
  not the generic fallback.
- Both forms' `handleSubmit` checks only the primary phone
  (components/CleaningForm.tsx:68, components/PestControlForm.tsx:52). A
  non-empty alternate phone with fewer than 8 digits shows its error but
  does not stop the submission. See `Cleaning.CleaningForm.SubmitButton`
  and `PestControl.PestControlForm.SubmitButton`, whose gate does not
  mention the alternate phone.

## Model

| member | source | states |
|---|---|---|
| Locations.FindLocation | components/CleaningForm.tsx:59 | no result exactly when no catalog entry has the region; otherwise the first entry that has it |
| Locations.SubDistrictsOf | components/CleaningForm.tsx:59 | no sub-districts for a region the catalog lacks; for a region it has, exactly the list of the first catalog entry for that region |
| Locations.FirstSubDistrict | components/CleaningForm.tsx:145 | the first sub-district of the region's entry, or "" when the region is missing or has none |
| Locations.RegionChangeIsConsistent | components/PestControlForm.tsx:130 | whatever region is chosen, the sub-district it selects belongs to it (or is "" for a region with none) |
| Locations.InitialLocationIsConsistent | components/CleaningForm.tsx:25-26 | the initial first region and first sub-district form a consistent pair |
| PhoneInput.NormalizePhone | components/CleaningForm.tsx:40 | the stored value is digits only, at most 8 long, a prefix of the input's digits, and as long as possible |
| PhoneInput.UpdateErrors | components/CleaningForm.tsx:43-47 | the field's error is set (to the message) iff 0 < length < 8; the other field's entry is untouched |
| PhoneInput.NormalizeIdempotent | components/PestControlForm.tsx:38 | normalising a normalised value changes nothing |
| PhoneInput.NormalizeKeepsNormalized | components/PestControlForm.tsx:38 | any digits-only value of at most 8 characters passes through unchanged |
| PhoneInput.TypeOneCharacter | components/CleaningForm.tsx:40 | typing a digit appends it while fewer than 8 are stored; a non-digit or a ninth digit leaves the value unchanged |
| PhoneInput.GateAgreesWithError | components/CleaningForm.tsx:43-68 | for a normalised phone, submission is allowed iff it is non-empty and shows no error |
| Results.ValidRecommendations | components/ResultsPage.tsx:33-35 | exactly the recommendations whose skill-mismatch flag is not true |
| Results.SkippedRecommendations | components/ResultsPage.tsx:36-38 | exactly the recommendations whose skill-mismatch flag is true |
| Results.Partition | components/ResultsPage.tsx:29-38 | the two lists keep the received order, their lengths add up, and together they hold every recommendation exactly as often as received |
| Results.MissingRecommendationsAreEmpty | components/ResultsPage.tsx:29 | a missing recommendations property renders exactly like an empty list |
| Results.Band | components/ResultsPage.tsx:54-68 | the five bands with inclusive lower bounds 120, 100, 80 and 0, each stated as an iff on the score |
| Results.BandMonotone | components/ResultsPage.tsx:54-68 | a higher score never falls in a worse band |
| Results.ScoreLabel | components/ResultsPage.tsx:62-68 | the label is the label of the score's band |
| Results.ScoreColour | components/ResultsPage.tsx:54-60 | the colour classes are those of the score's band |
| Results.LabelAgreesWithColour | components/ResultsPage.tsx:54-68 | two scores share a label iff they share a colour iff they share a band |
| Results.BandExamples | components/ResultsPage.tsx:54-68 | the sample scores 125, 100, 90 and -5 get excellent/green, good/blue, workable/amber and unsuitable/red |
| Results.SkillWarningOf | components/ResultsPage.tsx:214-221 | the filtered count, the staff of the first min(3, n) skipped slots in order, and a remainder iff more than 3, which completes the count |
| Results.RankBadge | components/ResultsPage.tsx:263 | the rank when it is non-zero, else the 1-based position; never 0 |
| Results.RankedEntries | components/ResultsPage.tsx:246-271 | one entry per qualified recommendation, in order, with its badge, staff, band label and band colour |
| Results.EvaluatedCount | components/ResultsPage.tsx:240 | the evaluated-options count when present and non-zero, else the number of recommendations |
| Results.PageBlocks | components/ResultsPage.tsx:87-347 | ranked list iff some recommendation qualifies; warning iff there are recommendations and all are mismatched; placeholder iff no ranked list; header sentence in that priority order |
| Results.PageModes | components/ResultsPage.tsx:193-334 | exactly one of: ranked list alone, warning with placeholder, placeholder alone |
| Results.HeaderCountsEntries | components/ResultsPage.tsx:87-88 | the count in the header is the number of ranked entries |
| Results.HeaderNamesCount | components/ResultsPage.tsx:88 | the "found N slots" sentence carries N in decimal between its fixed opening and closing, and the digits read back as N |
| Results.WarningContents | components/ResultsPage.tsx:193-221 | the rendered warning lists the first min(3, n) skipped staff in order and "n - 3 more" iff n > 3 |
| Results.RankedSectionExtras | components/ResultsPage.tsx:231-331 | options line iff meta is present, with the fallback count and a filtered suffix iff something was skipped; disclaimer iff a non-empty one is given (it is part of the ranked section, so a page without the list has none) |
| Results.Render | components/ResultsPage.tsx:28-347 | the whole page: the placeholder stands exactly where the ranked list is missing, a warning always comes with the placeholder and the "no skilled staff" header, and a slot-count header is present iff the ranked list is, counting its entries |
| Cleaning.Without | components/CleaningForm.tsx:54 | every occurrence of the id is removed; every other id keeps its number of occurrences, and the result keeps the input's order (a subsequence) |
| Cleaning.Toggle | components/CleaningForm.tsx:50-57 | a present id is removed with all its occurrences, the rest kept in order; an absent id is appended at the end; no other id gains or loses an occurrence |
| Cleaning.ToggleKeepsNoDuplicates | components/CleaningForm.tsx:50-57 | toggling preserves "no duplicates" |
| Cleaning.ToggleTwiceAbsent | components/CleaningForm.tsx:50-57 | toggling an absent id twice restores the exact selection |
| Cleaning.ToggleTwicePresent | components/CleaningForm.tsx:50-57 | toggling a present id twice restores membership, with the id moved to the end |
| Cleaning.ToggleTwiceReorders | components/CleaningForm.tsx:53-55 | a concrete selection whose order is not restored by a double toggle |
| Cleaning.AvailableAddServices | components/CleaningForm.tsx:62-64 | exactly the catalog add-ons applicable to the main service, each as often as the catalog lists it, in catalog order |
| Cleaning.ShowSqFt | components/CleaningForm.tsx:75 | the square-footage selector shows unless the main service is drain clearing |
| Cleaning.ShowCarpetCount | components/CleaningForm.tsx:232 | the carpet count shows iff the carpet add-on is selected |
| Cleaning.ShowMattressCount | components/CleaningForm.tsx:240 | the mattress count shows iff the mattress add-on is selected |
| Cleaning.ShowCurtainCount | components/CleaningForm.tsx:248 | the curtain count shows iff the curtain add-on is selected |
| Cleaning.ShowQuantityPanel | components/CleaningForm.tsx:230 | the quantity panel shows iff one of the carpet, mattress and curtain add-ons is selected |
| Cleaning.ToggleFlipsOneSelector | components/CleaningForm.tsx:230-257 | toggling carpet, mattress or curtain flips that quantity selector and leaves the other two alone |
| Cleaning.CleaningForm.constructor | components/CleaningForm.tsx:20-37 | the initial draft (first region and sub-district, first service, no add-ons, counts "N/A", first size band), no errors, invariant holds |
| Cleaning.CleaningForm.HandlePhoneChange | components/CleaningForm.tsx:39-48 | the field gets the normalised input, the error map is updated for that field only, nothing else changes, invariant kept |
| Cleaning.CleaningForm.ToggleAddService | components/CleaningForm.tsx:50-57 | only the add-on list changes, by `Toggle`; no duplicates are introduced |
| Cleaning.CleaningForm.SelectRegion | components/CleaningForm.tsx:145 | the region changes and the sub-district resets to its first; the pair stays consistent |
| Cleaning.CleaningForm.SelectSubDistrict | components/CleaningForm.tsx:154 | only the sub-district changes, to one the region offers |
| Cleaning.CleaningForm.SelectMainService | components/CleaningForm.tsx:184 | the main service changes and the add-ons become empty, hiding the quantity panel |
| Cleaning.CleaningForm.HandleSubmit | components/CleaningForm.tsx:66-73 | the draft is handed on iff the phone has exactly 8 characters; the form state is left unchanged |
| Cleaning.CleaningForm.SubmitButton | components/CleaningForm.tsx:66-73 | with the `required` name, phone and address inputs (lines 89, 100, 160) checked first, the draft is posted iff name and address are non-empty and the phone has 8 characters; the alternate phone plays no part |
| Cleaning.CleaningForm.OfferedAddServices | components/CleaningForm.tsx:62-64 | the add-ons offered are exactly the catalog entries applicable to the current main service |
| PestControl.IsBedbug | components/PestControlForm.tsx:59 | the room and mattress selectors show iff the service is bedbug treatment |
| PestControl.ShowSqFt | components/PestControlForm.tsx:60 | the square-footage selector shows unless the service is hive removal or wood-borer treatment |
| PestControl.VisibilityByService | components/PestControlForm.tsx:59-60 | bedbug shows rooms, mattresses and size; hive removal and wood borer show none; any other service shows size only |
| PestControl.PestControlForm.constructor | components/PestControlForm.tsx:19-34 | the initial draft, no errors, invariant holds |
| PestControl.PestControlForm.HandlePhoneChange | components/PestControlForm.tsx:36-46 | the field gets the normalised input, the error entry for that field only is updated, nothing else changes |
| PestControl.PestControlForm.SelectRegion | components/PestControlForm.tsx:130 | the region changes and the sub-district resets to its first; the pair stays consistent |
| PestControl.PestControlForm.SelectSubDistrict | components/PestControlForm.tsx:139 | only the sub-district changes, to one the region offers |
| PestControl.PestControlForm.SelectService | components/PestControlForm.tsx:169 | only the service changes; room count, mattress count and size keep their values |
| PestControl.PestControlForm.HandleSubmit | components/PestControlForm.tsx:50-57 | the draft is handed on iff the phone has exactly 8 characters |
| PestControl.PestControlForm.SubmitButton | components/PestControlForm.tsx:50-57 | with the `required` name, phone and address inputs (lines 74, 85, 146) checked first, the draft is posted iff name and address are non-empty and the phone has 8 characters; the alternate phone plays no part |
| Select.FilteredOptions | components/SearchableSelect.tsx:28-30 | exactly the options whose lower-cased text contains the lower-cased term, each as often as it is given |
| Select.FilteredOptionsInOrder | components/SearchableSelect.tsx:28-30 | the filtered options keep the given order |
| Select.EmptySearchShowsAll | components/SearchableSelect.tsx:28-30 | an empty search term shows every option, in order |
| Select.NoMatchMeansNoOccurrence | components/SearchableSelect.tsx:59-74 | the "no match" row shows iff the term occurs at no position of any option |
| Select.DisplayText | components/SearchableSelect.tsx:40 | the value if non-empty, else the placeholder if non-empty, else "請選擇"; never empty |
| Select.SearchableSelect.constructor | components/SearchableSelect.tsx:14-15 | starts closed with an empty search term |
| Select.SearchableSelect.ToggleOpen | components/SearchableSelect.tsx:36 | flips the open flag and nothing else |
| Select.SearchableSelect.UpdateSearchTerm | components/SearchableSelect.tsx:54 | sets the search term and nothing else |
| Select.SearchableSelect.ChooseOption | components/SearchableSelect.tsx:64-68 | reports the chosen option, closes the list and clears the search term |
| Select.SearchableSelect.VisibleOptions | components/SearchableSelect.tsx:45-72 | no rows while closed; while open, exactly the options matching the current term |
| Api.PestFields | services/api.ts:11-15 | the pest-control draft's properties never include a header property |
| Api.CleaningFields | services/api.ts:11-15 | the cleaning draft's properties never include a header property |
| Api.KeyNamesDistinct | services/api.ts:11-15 | distinct keys have distinct JSON property names |
| Api.BuildPayload | services/api.ts:11-15 | the payload holds the header properties and every draft property; draft properties win over header ones |
| Api.SpreadKeepsDraft | services/api.ts:11-15 | with no clash, the header carries the tag and the timestamp, and removing it gives back exactly the draft's properties |
| Api.PestFieldsReadBack | services/api.ts:11-15 | a pest-control draft can be read back unchanged from its properties |
| Api.CleaningFieldsReadBack | services/api.ts:11-15 | a cleaning draft, add-on list included, can be read back unchanged from its properties |
| Api.PestPayloadCarriesDraft | services/api.ts:11-15 | the posted pest-control payload is tagged "pest", stamped, and carries the whole draft |
| Api.CleaningPayloadCarriesDraft | services/api.ts:11-15 | the posted cleaning payload is tagged "cleaning", stamped, and carries the whole draft |
| Api.ServerErrorMessage | services/api.ts:31 | the message starts with "Server error: " followed by the status |
| Api.ServerErrorMessageNamesStatus | services/api.ts:31 | the status can be read back from the message, so different statuses give different messages |
| Api.SuccessMessageOf | services/api.ts:39 | the body's message when it is non-empty, else the fixed success text; never empty |
| Api.TryBlock | services/api.ts:19-41 | returns iff the status is ok and the body parses, and then succeeds with the body as data; otherwise it throws |
| Api.CatchClause | services/api.ts:42-58 | always a failure without data: NETWORK_ERROR with the fixed text iff a TypeError mentions "fetch"; otherwise SUBMISSION_ERROR with the error's own message or the fallback |
| Api.SubmitResult | services/api.ts:19-58 | every outcome yields a response; success iff no error kind iff data present; a success always has a message |
| Api.SubmitResultCases | services/api.ts:28-57 | the response for an ok body, a non-ok status, an unparseable body, a network failure and any other throw |
| Api.NetworkFailureExamples | services/api.ts:45 | "Failed to fetch" is a network failure; "Load failed" is a submission error |
| Api.SubmissionExamples | services/api.ts:28-41 | a 500 gives SUBMISSION_ERROR "Server error: 500"; a 200 with message "ok" succeeds with "ok" and the body |
| Root.ParseServiceParam | App.tsx:12-22 | cleaning iff the parameter is "clean" or "cleaning"; pest otherwise, including when it is missing |
| Root.UrlServiceValue | App.tsx:84 | the written value parses back to the chosen service, and is never the long "cleaning" |
| Root.UrlValueIsCanonical | App.tsx:12-86 | writing the service read from any URL and reading it again gives the same service |
| Root.LongSpellingIsNormalised | App.tsx:12-86 | "cleaning" selects cleaning and is written back as "clean" |
| Root.ErrorBanner | App.tsx:189-197 | the banner shows the error iff it is a non-empty string |
| Root.BannerAfterSubmission | App.tsx:45-49 | a failure shows a non-empty banner unless it is a thrown Error other than a network failure, or a rejected body; a network failure, a non-ok status and a non-Error throw always show one |
| Root.App.CurrentScreen | App.tsx:99-108 | the results page iff the submission succeeded and the response has data, showing that data; otherwise the active form |
| Root.App.constructor | App.tsx:24-28 | the active form comes from the URL parameter; nothing submitted, loading, failed or stored |
| Root.App.HandleServiceChange | App.tsx:80-87 | switches the active form only, and writes a URL value that parses back to it |
| Root.App.HandlePopState | App.tsx:91-94 | the active form follows the URL parameter; nothing else changes |
| Root.App.BeginSubmit | App.tsx:37-38 | loading starts and the error is cleared |
| Root.App.CompleteSubmit | App.tsx:42-49 | loading stops and the result is stored; a success sets submitted, a failure sets the error to its message |
| Root.App.HandlePestSubmit | App.tsx:36-50 | posts the "pest" payload; the results page shows iff the request succeeded, else the error is the response message; the active form is unchanged |
| Root.App.HandleCleaningSubmit | App.tsx:52-66 | the same for the "cleaning" payload |
| Root.App.HandleReset | App.tsx:68-72 | clears submitted, error and response, keeps the active form, and returns to it |

## Left out

- `formatDate` (components/ResultsPage.tsx:45-52) is not modelled. It depends on JavaScript `Date` parsing and the local time zone. Entries carry the raw date.
- The network is not modelled: `fetch`, `response.json()`, `response.text()`, `JSON.stringify` and `console` logging. A `FetchOutcome` value stands for what they produced. The `new Date().toISOString()` timestamp is a parameter.
- A failure of `response.text()` on a non-ok response is not modelled.
- A JSON body that is not an object (`null`, a number, a string) is not modelled. The body is always a `BookingResultData` record.
- `Api.BuildPayload`: property names are an enumeration (`Api.Key`) with their JSON spellings (`Api.KeyName`, distinct by `Api.KeyNamesDistinct`), not free strings, and the order of properties in the serialised text is not modelled.
- The browser URL, `history.pushState`, and registering and removing the `popstate` listener are not modelled. The parameter read and the value written are arguments and results.
- The document `mousedown` handler that closes the select on an outside click is not modelled.
- The browser's constraint validation is modelled only for the `required` name, phone and address inputs, in the `SubmitButton` methods. `Cleaning.CleaningForm.HandleSubmit` and `PestControl.PestControlForm.HandleSubmit` state the handler alone: the browser cancels the submit event before they run when a required input is empty.
- `alert` is not modelled. A rejected submit returns `None` instead.
- `handleSelectSlot` is not modelled. It only shows an alert.
- Async interleaving is not modelled, nor a second submit while one is in flight (the button is only disabled by `isLoading`). Each submission is a begin step followed by a completion step.
- `toLowerCase` folds ASCII letters only. Unicode case mapping is not modelled.
- Scores, ranks and counts are integers. Fractional values and `NaN` are not modelled; a `NaN` count would also fall back to the number of recommendations.
- `skillNoMatch` is a boolean flag. Other truthy values that an untyped body could carry are not modelled.
- Plain field setters are not modelled as methods: name, alternative contact, address, remarks, and the count and size selects. Each is a single-property update.
- Cleared phone errors: the code keeps the key with the value `undefined`, and the model removes the key. Both render as no error.
- The handlers spread the `formData` captured at render time. The model applies events one at a time, which is what that gives for one event per render.
- The constants module (location catalog, service lists, add-on catalog, size and quantity options) is not part of this model. The catalogs are constructor parameters.
- The echoed submission fields are a string-to-string map. The one numeric echo (單位尺數) is not told apart.
- JSX markup, CSS classes other than the score colours, icons and logo fallbacks are not modelled.
