# smart-rx-frontend in Dafny

A model of the React front-end of smart-rx, a medication tracker. The patient
onboards with a health profile and then sees a dashboard of medications. From there
they can open one medication's detail card, add a medication after an AI safety check,
or scan a label to extract one. The remote service that stores profiles and medications
and answers safety, scan and translate requests is not modelled. Every reply it could give
is a parameter: `Call<T>` says whether the awaited call threw or answered, and JSON `null`
or a missing key becomes `None`.

Modules, one per source file:

- `App` (`app.dfy`): the application root, `src/App.jsx`. It is a class `AppState` holding
  the seven state hooks. Its handlers are methods, and its render is a function to a
  `Screen`. Shaping the profile-update body is a pure function.
- `Dashboard` (`dashboard.dfy`): `src/components/Dashboard.jsx`. It holds no state. The
  counters, the greeting, the "next dose" cell and the rows are functions of the list and
  the profile.
- `AddMedModal` (`add_med_modal.dfy`): `src/components/AddMedModal.jsx`. The class
  `AddMedState` holds the draft, the stored safety reply and the checking flag. The
  asynchronous `checkSafety` is split into `BeginCheck` (up to the call) and `EndCheck`
  (after it), so the in-flight state can be observed. `CheckSafety` composes the two.
- `ScannerModal` (`scanner_modal.dfy`): `src/components/ScannerModal.jsx`. The class
  `ScannerState` holds four state hooks under an invariant `Valid`. `handleFileSelect` is
  split the same way as `checkSafety`.
- `AISafetyBadge` (`safety_badge.dfy`): `src/components/AISafetyBadge.jsx`. The class
  `BadgeState` holds the props and the expanded flag.
- `MedCard` (`med_card.dfy`): `src/components/MedCard.jsx`. The class `CardState` holds the
  translate toggle and the selected language.
- `ProfileForm` (`profile_form.dfy`): `src/components/ProfileForm.jsx`. The class
  `FormState` holds the draft.
- `Records` (`records.dfy`): the JSON bodies and the drafts that pass between components.
- `Text` (`text.dfy`): JavaScript `split` on one character, `join` and `trim`, with
  their laws.
- `Scenarios` (`scenarios.dfy`): client code that drives the classes through the
  start-up, add, missing-selection and scan flows. It asserts the outcomes from the
  contracts alone.

## Model

| member | source | states |
|---|---|---|
| App.AppState.constructor | src/App.jsx:12-18 | starts on onboarding with no list, no profile, both modals closed, no selection, and loading |
| App.AppState.CheckProfile | src/App.jsx:30-45 | a 2xx reply stores its body as the profile (a `null` body stores none); it moves to the dashboard exactly when the body has a non-empty name; otherwise the view is unchanged; loading always ends; a list reload is requested exactly when the view changed to the dashboard |
| App.AppState.LoadMedications | src/App.jsx:47-55 | an answered call replaces the list with its body, or with the empty list for `null`; a failed call keeps the list |
| App.ShapeList | src/App.jsx:67-68 | empty text gives `[]`; any other text gives one entry per comma plus one; entry i is the i-th comma piece trimmed; no entry contains a comma |
| App.ShapeListOfBlank | src/App.jsx:67-68 | non-empty text of white space only gives one empty entry, not none |
| App.ShapeListOfJoin | src/App.jsx:67-68 | shaping inverts joining with commas for trimmed, comma-free entries (other than `[""]`) |
| App.ShapeListExample | src/App.jsx:67-68 | "peanuts, shellfish" is sent as ["peanuts", "shellfish"] |
| App.ShapeProfile | src/App.jsx:62-69 | the update body keeps the name and the age text, and shapes the allergies and the conditions |
| App.AppState.CompleteProfile | src/App.jsx:57-85 | the shaped draft is sent; on success the raw draft is stored and the view becomes the dashboard; on any failure nothing changes; a reload is requested exactly when the view changed to the dashboard |
| App.AppState.SubmitMedication | src/App.jsx:87-110 | with a parsed reply the modal closes and the list changes only for an added medication, which is put first; a failed call or a `null` body changes nothing |
| Records.ClassifyAdd | src/App.jsx:97-104 | the outcome is Added exactly when a medication is present, and carries it; it is Blocked exactly when there is no medication and the status is CRITICAL; otherwise it is Refused |
| App.AddedMedicationIsFirst | src/App.jsx:98 | after a prepend, looking up the new id finds the new medication, even when an older entry shares the id |
| App.TranslationOf | src/App.jsx:130-148 | resolves to nothing when the call threw or its body was `null`; otherwise to the body's `translation` (itself absent when the body has none) |
| App.FindById | src/App.jsx:150 | nothing exactly when no medication has the id; otherwise the medication at the first index with the id |
| App.AppState.SelectedMed | src/App.jsx:150 | the selection resolves to a listed medication with the selected id, and to nothing exactly when no listed id matches |
| App.EmptyDetailHasSelection | src/App.jsx:177-184 | an empty detail page (no panel) only happens with a selected id that is missing from the list |
| App.RowClickResolves | src/App.jsx:150 | an id taken from a row of the list always resolves |
| App.AppState.Render | src/App.jsx:152-199 | spinner exactly while loading; otherwise the form for onboarding, the dashboard for the dashboard, the card only for a detail view whose selection resolves (no panel when it does not), and the two modals exactly as their flags say |
| App.AppState.OpenAddModal | src/App.jsx:175 | the add modal opens |
| App.AppState.OpenScanModal | src/App.jsx:176 | the scan modal opens |
| App.AppState.ClickMedication | src/App.jsx:177-180 | selects the clicked id and enters the detail view; no reload is requested |
| App.AppState.Back | src/App.jsx:186 | returns to the dashboard and keeps the selection; a reload is requested exactly when the view was not already the dashboard |
| App.AppState.CloseAddModal | src/App.jsx:194 | the add modal closes |
| App.AppState.CloseScanModal | src/App.jsx:198 | the scan modal closes |
| Records.NameOf | src/components/Dashboard.jsx:11 | the name of a fetched profile is the body's `name` (possibly absent); the name of an entered profile is the draft's name |
| Dashboard.Taken | src/components/Dashboard.jsx:4 | the filter keeps only taken medications and is no longer than the list |
| Dashboard.TakenToday | src/components/Dashboard.jsx:4 | the counter never exceeds the list length |
| Dashboard.TakenTodayCountsPositions | src/components/Dashboard.jsx:4 | "Taken Today" equals the number of list positions holding a taken medication |
| Dashboard.TakenConcat | src/components/Dashboard.jsx:4 | filtering a concatenation filters each part |
| Dashboard.Upcoming | src/components/Dashboard.jsx:5 | "Upcoming" plus "Taken Today" is the list length |
| Dashboard.CountersAfterPrepend | src/components/Dashboard.jsx:4-5 | a prepended medication adds one to exactly one counter: "Taken Today" if it is taken, "Upcoming" otherwise |
| Dashboard.EmptyCounters | src/components/Dashboard.jsx:4-5 | the empty list shows zero on both counters |
| Dashboard.Greeting | src/components/Dashboard.jsx:11 | never empty; "User" without a profile, without a name, or for a name that is empty or starts with a space; otherwise the longest space-free prefix of the name |
| Dashboard.NextDose | src/components/Dashboard.jsx:48 | never empty; anything but "—" is the first scheduled time; a present, non-empty first time is shown as it is |
| Dashboard.RowsOf | src/components/Dashboard.jsx:34-53 | one row per medication, in order, each row showing that medication's id, drug name, dosage, instructions and next dose |
| Dashboard.ListingOf | src/components/Dashboard.jsx:28-37 | the empty-state message exactly for the empty list; otherwise a row per medication that reports its id when clicked |
| AddMedModal.With | src/components/AddMedModal.jsx:56-90 | an edit sets the edited input and leaves the other four as they were |
| AddMedModal.InitialDraft | src/components/AddMedModal.jsx:4-10 | empty name, dosage and instructions; frequency "Once daily"; the start date is the timestamp's prefix before its first "T" |
| AddMedModal.AddMedState.constructor | src/components/AddMedModal.jsx:4-12 | the initial draft, no stored reply, not checking |
| AddMedModal.AddMedState.Edit | src/components/AddMedModal.jsx:56-90 | the draft becomes the draft with that input replaced |
| AddMedModal.AddMedState.BeginCheck | src/components/AddMedModal.jsx:15-17 | a check starts exactly when name and dosage are filled in; it then clears the stored reply, marks checking and sends the current draft; otherwise nothing changes |
| AddMedModal.AddMedState.EndCheck | src/components/AddMedModal.jsx:27-35 | stores the parsed reply, or the network-error reply when the call threw; checking ends |
| AddMedModal.AddMedState.CheckSafety | src/components/AddMedModal.jsx:14-36 | the whole check: no request without a name and a dosage; with them, the current draft is sent, the reply or the network-error reply is stored, and checking ends |
| AddMedModal.AddMedState.Submit | src/components/AddMedModal.jsx:38-46 | the draft is handed on exactly when the stored reply is CRITICAL and confirmed, or is not CRITICAL and carries a medication |
| AddMedModal.SubmitNeedsReply | src/components/AddMedModal.jsx:38-46 | nothing is handed on without a stored reply; the confirmation matters only for a CRITICAL reply |
| AddMedModal.UnconfirmedSubmitIsAdded | src/components/AddMedModal.jsx:43-44 | whatever the form hands on without a confirmation, the root counts as an added medication |
| AddMedModal.CriticalWithMedication | src/components/AddMedModal.jsx:39-44 | a reply with both a medication and CRITICAL needs a confirmation in the form, while the root adds it |
| AddMedModal.AddMedState.CheckButtonDisabled | src/components/AddMedModal.jsx:96 | the check button is enabled exactly when no check is running and the name and dosage are filled in |
| AddMedModal.BannerTone | src/components/AddMedModal.jsx:102-107 | red exactly for CRITICAL, yellow exactly for WARNING, green exactly for SAFE or a medication otherwise, gray for the rest |
| AddMedModal.BannerText | src/components/AddMedModal.jsx:109 | never empty; the reply's message when it has a non-empty one, the default text otherwise |
| AddMedModal.BannerAgreesWithSubmit | src/components/AddMedModal.jsx:102-107 | a gray banner means nothing can be submitted and the root would refuse the reply; red means exactly a reply that needs a confirmation |
| AddMedModal.AddMedState.Banner | src/components/AddMedModal.jsx:102-111 | a banner is shown exactly when a reply is stored, with that reply's colour and text |
| AddMedModal.AddMedState.AddButtonDisabled | src/components/AddMedModal.jsx:115 | the add button is disabled exactly without a stored reply or while checking |
| ScannerModal.With | src/components/ScannerModal.jsx:186-215 | an edit sets that field, keeps the other three and the confidence |
| ScannerModal.TierOf | src/components/ScannerModal.jsx:155-173 | high confidence exactly from 0.8 up |
| ScannerModal.TierMonotone | src/components/ScannerModal.jsx:155-173 | a higher confidence never gives a lower tier |
| ScannerModal.ScannerState.constructor | src/components/ScannerModal.jsx:5-8 | not processing, with no data, no error and no preview; the invariant holds |
| ScannerModal.ScannerState.BeginScan | src/components/ScannerModal.jsx:12-16 | without a file nothing happens; with one the error is cleared and processing starts; the invariant is kept |
| ScannerModal.ScannerState.EndScan | src/components/ScannerModal.jsx:24-32 | a reply becomes the extracted data; a failure sets the fixed error message and keeps the data; processing ends; the invariant is kept |
| ScannerModal.ScannerState.HandleFileSelect | src/components/ScannerModal.jsx:12-33 | the whole selection: nothing without a file; with one, the reply's data and no error, or the error message after a failure; processing ends; the invariant is kept |
| ScannerModal.ScannerState.PreviewLoaded | src/components/ScannerModal.jsx:19-21 | the preview is set to the read data URL |
| ScannerModal.ScannerState.EditField | src/components/ScannerModal.jsx:186-215 | the data becomes the data with that field replaced; the invariant is kept |
| ScannerModal.ScannerState.ScanAgain | src/components/ScannerModal.jsx:224-227 | drops the data and the preview; the invariant is kept |
| ScannerModal.ScannerState.TryAgain | src/components/ScannerModal.jsx:249-252 | drops the error and the preview; the invariant is kept |
| ScannerModal.ScannerState.UseData | src/components/ScannerModal.jsx:35-40 | with data, hands the current data to the parent and then closes; without data, calls nothing |
| ScannerModal.ScannerState.ResultTier | src/components/ScannerModal.jsx:155-173 | a tier exactly when there is data, high exactly for a confidence of 0.8 or more |
| ScannerModal.OnePanel | src/components/ScannerModal.jsx:61-242 | under the invariant exactly one of picker, spinner and result is shown, and the error is shown only beside the picker |
| AISafetyBadge.ToneOf | src/components/AISafetyBadge.jsx:25-68 | "safe", "warning" and "danger" each select their own configuration; every other status selects the unknown one |
| AISafetyBadge.LabelsDistinct | src/components/AISafetyBadge.jsx:25-68 | the four labels differ, and the status of each configuration selects it back |
| AISafetyBadge.BadgeState.constructor | src/components/AISafetyBadge.jsx:4-11 | keeps the props and starts collapsed |
| AISafetyBadge.BadgeState.BadgeLabel | src/components/AISafetyBadge.jsx:82 | the label of the selected configuration; "Unknown" exactly for a status other than the three known ones |
| AISafetyBadge.BadgeState.ClickBadge | src/components/AISafetyBadge.jsx:76 | toggles the popover when details are enabled, and does nothing otherwise |
| AISafetyBadge.BadgeState.Dismiss | src/components/AISafetyBadge.jsx:86-111 | the backdrop and the close button both collapse the popover |
| AISafetyBadge.BadgeState.PopoverShown | src/components/AISafetyBadge.jsx:86-150 | shown exactly while expanded with details enabled; it shows the status's heading and advisory, the interactions, and the message only when it is non-empty |
| AISafetyBadge.Heading | src/components/AISafetyBadge.jsx:100 | "No Issues Detected" exactly for "safe", "Please Review" exactly for "warning", "Action Required" for every other status |
| AISafetyBadge.Advisory | src/components/AISafetyBadge.jsx:142-150 | none exactly for "safe"; the consult text exactly for "warning"; the contact text for every other status |
| AISafetyBadge.AdvisoryMatchesHeading | src/components/AISafetyBadge.jsx:100-150 | the advisory is absent exactly when the heading is the all-clear one |
| AISafetyBadge.InteractionsOf | src/components/AISafetyBadge.jsx:126-140 | a section exactly for a non-empty list, whose count is the list length and whose items are the list in order |
| MedCard.CodeInjective | src/components/MedCard.jsx:83-86 | each option value names one language |
| MedCard.CardState.constructor | src/components/MedCard.jsx:5-6 | translation hidden, Spanish selected |
| MedCard.CardState.HandleTranslate | src/components/MedCard.jsx:8-13 | flips the toggle; requests a translation (the medication's id and the selected language's code) exactly when turning it on |
| MedCard.CardState.SelectLanguage | src/components/MedCard.jsx:77-87 | the selection becomes the chosen language |
| MedCard.SafetyLabel | src/components/MedCard.jsx:37 | "Safe" exactly for "safe", "Check Interactions" exactly for "warning", "Contraindication" for every other status |
| MedCard.DisplayedInstructions | src/components/MedCard.jsx:91-93 | the translation exactly while shown and present and non-empty; the original otherwise |
| MedCard.CardState.Instructions | src/components/MedCard.jsx:90-94 | the card shows the original whenever the language selector is hidden |
| MedCard.MarkTakenClick | src/components/MedCard.jsx:97-99 | the button is disabled exactly for a taken medication; a click reports the medication's id |
| ProfileForm.With | src/components/ProfileForm.jsx:16-18 | an edit sets the named input and leaves the other three |
| ProfileForm.LastEditWins | src/components/ProfileForm.jsx:16-18 | editing one input twice keeps only the last value |
| ProfileForm.EditsCommute | src/components/ProfileForm.jsx:16-18 | edits of different inputs commute |
| ProfileForm.FormState.constructor | src/components/ProfileForm.jsx:4-9 | all four inputs start empty |
| ProfileForm.FormState.HandleChange | src/components/ProfileForm.jsx:16-18 | the draft becomes the draft with that input replaced |
| ProfileForm.FormState.HandleSubmit | src/components/ProfileForm.jsx:11-39 | hands on nothing exactly when the `required` name or age input is empty; otherwise hands on the draft exactly as entered |
| Text.Split | src/App.jsx:67-68 | one piece per separator plus one; no piece contains the separator; joining the pieces gives the text back; the first piece is the text's prefix up to the first separator |
| Text.SplitJoin | src/App.jsx:67-68 | `split` inverts `join` on a non-empty list of separator-free pieces |
| Text.Trim | src/App.jsx:67-68 | the result is a slice of the text with only white space before and after it, and it neither starts nor ends with white space |
| Text.TrimUnique | src/App.jsx:67-68 | any slice with that property is the trimmed text |
| Text.TrimIdempotent | src/App.jsx:67-68 | trimming twice is trimming once |
| Text.TrimKeepsOut | src/App.jsx:67-68 | trimming adds no character |
| Text.TrimAllSpace | src/App.jsx:67-68 | a text of white space only trims to the empty text |

## Left out

- The remote service: URLs, HTTP methods and headers, JSON encoding and decoding, and
  `FormData` uploads. Each reply is a parameter of the handler that awaits it.
- `handleExtractData` (src/App.jsx:111-119) is a plain request to the scan endpoint. It is
  the scan reply that `ScannerState.HandleFileSelect` takes as a parameter.
- `FileReader` decoding of the picked image. Only its completion is kept, as
  `ScannerState.PreviewLoaded`.
- Toasts and console output, including the text of a failed profile save.
- The loading spinner's markup, icons, class names and the badge's `size` prop.
- `Number(age)`: the age is sent as the text entered. `Math.round` of the confidence
  percentage is not shown.
- `new Date()` and `window.confirm` are parameters (`nowIso`, `confirmed`).
- React effect scheduling and the interleaving of concurrent awaits. Each handler runs
  from start to end. `checkSafety` and `handleFileSelect` are split at their await so the
  in-flight state is visible.
- App.AppState.LoadMedications: `res.ok` is not checked by the source. An error body that
  parses as a JSON object is not modelled; only a list or `null` is.
- App.AppState.SubmitMedication: the `med` argument is only sent, so it does not appear
  in the contract.
- The add form's safety check posts to the add endpoint, so a check may already store the
  medication on the service. The model keeps only the reply.
- The wiring between components is outside this model:
  - `handleUseExtractedData` reads an undefined `formData`;
  - the scanner is given `onUse` while it reads `onUseExtracted`;
  - the detail card is given `med` while it reads `medication`.
  Each component is modelled with the props it reads.
- The body of the translate request, and the per-medication language argument
  `handleTranslate` ignores.
- JSON values of unexpected types (a number as `name`, a string `taken`). JavaScript
  truthiness is modelled for strings and booleans only. `undefined` and `null` are both
  `None`.
- ProfileForm.FormState.HandleSubmit: the age input's `type="number"` restriction to numeric text is not modelled; any non-empty age text is accepted.
- The stray backslash rendered before the greeting heading (src/components/Dashboard.jsx:11).
