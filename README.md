# Pulse: onboarding, phone sign-in and location picking, modelled in Dafny

Pulse is a React Native app. This project models the parts of it that carry
decisions:

- **The location picker**: search with debounced autocomplete, a map pin, and up to
  three labelled favourites kept in device storage under `@saved_locations`. Two
  dialogs work beside it: one labels a new favourite, one relabels an existing one.
- **The phone-number field and its country picker**: case-insensitive country lookup,
  flag emoji built from regional indicator symbols, digits-only input, and the
  `+<calling code><number>` text the field hands to its parent.
- **The verification screen**: send a code, confirm it, create the profile of a new
  user, and mask the number shown while the user waits for the code.
- **The start-up route**: entry, onboarding or home, decided from the auth user and
  their profile document.
- **The onboarding pager**: three slides. The last one marks onboarding done and moves
  on to the location-permission screen.
- **The weather tile**: the icon for a WMO weather interpretation code (WMO code
  table 4677), and whether that icon spins or drifts.

The model follows the source's own form:

- Pure list and string transforms are functions, with lemmas about them
  (`favourites.dfy`, `js_string.dfy`, and the table functions of the pickers).
- Each component whose state handlers update is a class. Each handler is a method on
  that class, with `modifies` on the fields it sets and `ensures` clauses that state
  the new state and what it emits.
- Each handler that awaits something (an HTTP reply, a storage read or write, a
  Firebase call, the location service) runs as one step. The awaited result is a
  parameter of the method.
- What a handler does outside its component is returned as a sequence of effects:
  the parent's callbacks (`onLocationSelect`, `onClose`, `onSave`, `onSelect`), alerts
  and navigation.
- The picker's storage is a field, `storage`, beside the in-memory list. `InSync`
  says the two agree. Every handler that writes storage keeps `InSync`, the limit of
  three favourites (`Bounded`), and case-insensitive uniqueness of labels
  (`LabelsUnique`).

A few behaviours of the code are stated as the code has them:

- Delete compares labels exactly (`!==`). Save and rename compare them ignoring case.
  The delete lemmas are stated for exact comparison.
- A failed save is caught and alerts. A failed write in delete or rename is not caught:
  the handler rejects before it updates state. The model leaves the state unchanged
  and emits nothing in that case.
- At start-up, a profile read that fails is not caught either, so no route is taken.
  `AuthLoading.StartupRoute` returns `None` for that case. On every other event it
  routes to exactly one screen.
- Creating a new user's profile can fail. The verification screen's single catch then
  shows the "Incorrect code" alert. `Verification.PhoneVerification.VerifyCode` says so.

## Model

| member | source | states |
|---|---|---|
| JsString.TrimStart | src/components/SaveLocationModal.tsx:17-18 | the result is a suffix of the input, does not start with whitespace, and everything cut off is whitespace |
| JsString.TrimEnd | src/components/SaveLocationModal.tsx:17-18 | the result is a prefix of the input, does not end with whitespace, and everything cut off is whitespace |
| JsString.Trim | src/components/SaveLocationModal.tsx:17-18 | a non-empty trimmed label starts and ends with a non-whitespace character |
| JsString.TrimIsSlice | src/components/EditLocationModal.tsx:24-25 | `trim()` returns a contiguous slice of the input, starting after the leading whitespace |
| JsString.TrimEmptyIffBlank | src/components/SaveLocationModal.tsx:17 | `label.trim()` is falsy exactly when the label is all whitespace, in both directions |
| JsString.TrimIdempotent | src/components/SaveLocationModal.tsx:18 | trimming a trimmed label changes nothing |
| JsString.UpperOfLower | src/components/PhoneInput.tsx:28-29 | upper-casing after lower-casing, or twice, is upper-casing once |
| JsString.EqualsIgnoreCaseSameUpper | src/components/PhoneInput.tsx:24 | codes equal under `toLowerCase` are equal under `toUpperCase` |
| JsString.ToLowerCase | src/components/CountryPickerModal.tsx:56 | same length; no ASCII capital remains, and a character changes only when it was a capital, to its small letter |
| JsString.ToUpperCase | src/components/CountryPickerModal.tsx:19 | same length; no ASCII small letter remains, and a character changes only when it was one, to its capital |
| JsString.Includes | src/components/CountryPickerModal.tsx:56 | a found needle is no longer than the text and its first character occurs in the text; with IncludesIffOccurs, it is found exactly when it occurs at some index |
| JsString.IncludesIffOccurs | src/components/CountryPickerModal.tsx:56 | `includes` holds exactly when the needle occurs at some index, in both directions |
| JsString.IncludesEmpty | src/components/CountryPickerModal.tsx:54-56 | every string includes the empty string |
| Favourites.FindIgnoringCase | src/components/LocationPickerModal.tsx:178 | `find` succeeds exactly when some label equals the new one ignoring case; the result is the first such favourite in list order |
| Favourites.NewFavourite | src/components/LocationPickerModal.tsx:190 | the saved entry carries the typed label, the prediction's text as address and the details' coordinates |
| Favourites.AppendKeepsUnique | src/components/LocationPickerModal.tsx:178-193 | appending an entry whose label the `find` guard let through keeps labels unique ignoring case |
| Favourites.RemoveLabel | src/components/LocationPickerModal.tsx:246 | `filter` keeps exactly the favourites whose label differs from the deleted one, and never grows the list |
| Favourites.RemoveKeepsOrder | src/components/LocationPickerModal.tsx:246 | the surviving favourites keep their order (a subsequence of the old list) |
| Favourites.RemoveAbsentIsIdentity | src/components/LocationPickerModal.tsx:246 | deleting a label that no favourite carries leaves the list as it was |
| Favourites.RemoveCount | src/components/LocationPickerModal.tsx:246 | the list shrinks by exactly the number of favourites carrying that label |
| Favourites.RemoveKeepsUnique | src/components/LocationPickerModal.tsx:246-248 | deleting keeps labels unique ignoring case |
| Favourites.RenameLabel | src/components/LocationPickerModal.tsx:268-270 | `map` keeps length and every place, and relabels exactly the entries whose label is the edited one |
| Favourites.RenameKeepsUnique | src/components/LocationPickerModal.tsx:263-272 | a rename that the `some` guard lets through keeps labels unique ignoring case |
| Favourites.RenameToSameIsIdentity | src/components/LocationPickerModal.tsx:268-270 | renaming a label to itself changes nothing |
| LocationPicker.EmitAndClose | src/components/LocationPickerModal.tsx:131-136 | a successful selection calls `onLocationSelect` with the place, then `onClose` |
| LocationPicker.GeocodedAddress | src/components/LocationPickerModal.tsx:151-153 | a geocoding reply gives an address exactly when its status is OK and it has a result; the address is the first result's |
| LocationPicker.Picker.constructor | src/components/LocationPickerModal.tsx:62-76 | the initial state: search view, empty query, no favourites, no dialogs, the default region centre 37.7749, -122.4194 |
| LocationPicker.Picker.Open | src/components/LocationPickerModal.tsx:78-96 | on becoming visible, the favourites are read from storage: a stored list replaces them; nothing stored, a failed read or unparsable text keeps them. The query and predictions are cleared and the view is search; sync and bounds are kept |
| LocationPicker.Picker.SetQuery | src/components/LocationPickerModal.tsx:99-121 | a changed query under three characters clears the predictions and cancels the timer; a longer one restarts the debounce timer for itself; an unchanged query does nothing; a query under three characters never shows predictions (`ShortQueryShowsNothing`) before or after |
| LocationPicker.Picker.DebounceFires | src/components/LocationPickerModal.tsx:104-119 | the timer requests the query it was set for, which is the current one and at least three characters long; only an OK reply replaces the predictions, and a query under three characters still shows none |
| LocationPicker.Picker.ShowMap | src/components/LocationPickerModal.tsx:349 | "Choose on Map" shows the map view |
| LocationPicker.Picker.ShowSearch | src/components/LocationPickerModal.tsx:370 | the map's back button shows the search view |
| LocationPicker.Picker.MoveRegion | src/components/LocationPickerModal.tsx:362 | the region centre becomes where the map stopped |
| LocationPicker.Picker.SelectPlace | src/components/LocationPickerModal.tsx:123-143 | OK details emit the place and close; any other status gives the "Could not fetch" alert; a failed request gives the "An error occurred" alert |
| LocationPicker.Picker.ConfirmLocation | src/components/LocationPickerModal.tsx:145-164 | an OK reply with a result emits the first address with the region centre, then closes; otherwise one of the two alerts, by the kind of failure |
| LocationPicker.Picker.PreciseLocation | src/components/LocationPickerModal.tsx:204-234 | a refused permission gives the permission alert; success emits the device's position with its first address, then closes; every other failure gives the generic alert; the spinner is off afterwards |
| LocationPicker.Picker.TapFavourite | src/components/LocationPickerModal.tsx:291-294 | tapping a favourite emits its place and closes, with no request |
| LocationPicker.Picker.OpenSaveModal | src/components/LocationPickerModal.tsx:166-173 | with three favourites already, the limit alert and no change; otherwise the result waits in the open save dialog; the bound is kept |
| LocationPicker.Picker.CloseSaveModal | src/components/LocationPickerModal.tsx:400 | the save dialog's close hides it |
| LocationPicker.Picker.SaveLabeledLocation | src/components/LocationPickerModal.tsx:175-202 | a save that goes through appends exactly the new entry, writes the list and closes the dialog; otherwise nothing changes and the effect is none, the "Label Exists" alert or the save-error alert, in that order of checks; sync, bound and unique labels are kept |
| LocationPicker.Picker.DeleteLocation | src/components/LocationPickerModal.tsx:236-253 | a confirmed delete whose write succeeds keeps exactly the favourites with other labels and stores them; cancel or a failed write changes nothing; sync, bound and unique labels are kept |
| LocationPicker.Picker.OpenEditModal | src/components/LocationPickerModal.tsx:255-258 | the tapped favourite becomes the one being edited, and the edit dialog shows |
| LocationPicker.Picker.CloseEditModal | src/components/LocationPickerModal.tsx:406 | the edit dialog's close hides it |
| LocationPicker.Picker.EditLabel | src/components/LocationPickerModal.tsx:260-275 | a rename is refused with the "Label Exists" alert exactly when the new label differs ignoring case and another favourite carries it; an allowed rename with a successful write relabels, stores and closes; otherwise nothing changes; length, sync, bound and unique labels are kept |
| SaveLocationDialog.SubmittedLabel | src/components/SaveLocationModal.tsx:17-18 | a label is submitted exactly when it is not all whitespace, and what is submitted is the trimmed, non-empty label |
| SaveLocationDialog.SubmittedLabelIsTrimmed | src/components/SaveLocationModal.tsx:18 | a submitted label is already trimmed and starts with a non-whitespace character |
| SaveLocationDialog.SaveDialog.constructor | src/components/SaveLocationModal.tsx:14 | the field starts empty |
| SaveLocationDialog.SaveDialog.ChangeText | src/components/SaveLocationModal.tsx:39 | typing sets the field |
| SaveLocationDialog.SaveDialog.Save | src/components/SaveLocationModal.tsx:16-21 | a blank field calls nothing and stays; otherwise `onSave` gets the trimmed label and the field is emptied |
| SaveLocationDialog.SaveDialog.Cancel | src/components/SaveLocationModal.tsx:44 | "Cancel" calls only `onClose` |
| EditLocationDialog.EditDialog.constructor | src/components/EditLocationModal.tsx:15 | the field starts as the current label |
| EditLocationDialog.EditDialog.Rerender | src/components/EditLocationModal.tsx:17-21 | when `visible` or `initialLabel` changed and the dialog is visible, the field is set back to the label; otherwise the typed text stays |
| EditLocationDialog.EditDialog.ChangeText | src/components/EditLocationModal.tsx:45 | typing sets the field |
| EditLocationDialog.EditDialog.Save | src/components/EditLocationModal.tsx:23-27 | a blank field calls nothing; otherwise `onSave` gets the trimmed label |
| EditLocationDialog.EditDialog.Cancel | src/components/EditLocationModal.tsx:51 | "Cancel" calls only `onClose` |
| CountryPicker.Utf16 | src/components/CountryPickerModal.tsx:20-21 | `split('')` yields one or two code units per character, each below 0x10000; a BMP character is its own unit, and any other character is a high surrogate (0xD800-0xDBFF) followed by a low one (0xDC00-0xDFFF) that together encode it |
| CountryPicker.CodeUnits | src/components/CountryPickerModal.tsx:18-21 | every code unit of the string is below 0x10000 |
| CountryPicker.FlagEmoji | src/components/CountryPickerModal.tsx:17-23 | `getFlagEmoji` (copied unchanged at src/components/PhoneInput.tsx:27-33): one code point per UTF-16 unit of the upper-cased code, shifted by 127397. FlagIgnoresCase, Alpha2Flag and Alpha2FlagInjective prove that the flag ignores case, that a two-letter code gives its two regional indicator symbols, and that different two-letter codes give different flags |
| CountryPicker.FlagIgnoresCase | src/components/CountryPickerModal.tsx:17-23 | codes equal ignoring case get the same flag |
| CountryPicker.Alpha2Flag | src/components/CountryPickerModal.tsx:17-23 | a two-letter code gives two regional indicator symbols, U+1F1E6 plus each letter's offset from 'A' |
| CountryPicker.Alpha2FlagInjective | src/components/CountryPickerModal.tsx:17-23 | two-letter codes with the same flag are the same code up to case |
| CountryPicker.CountryData | src/components/CountryPickerModal.tsx:45-51 | one row per record, in order, with its code, English name and own flag |
| CountryPicker.FilterByName | src/components/CountryPickerModal.tsx:55-57 | the filter keeps exactly the rows whose lower-cased name includes the lower-cased search |
| CountryPicker.FilterCounts | src/components/CountryPickerModal.tsx:55-57 | the filter drops no matching row: a matching row is kept as often as it occurs, a non-matching one never |
| CountryPicker.FilterKeepsOrder | src/components/CountryPickerModal.tsx:55-57 | kept rows keep their order |
| CountryPicker.EmptySearchMatchesAll | src/components/CountryPickerModal.tsx:53-57 | the filter with the empty search keeps every row, so the empty-search shortcut agrees with it |
| CountryPicker.FilteredData | src/components/CountryPickerModal.tsx:53-58 | the `filteredData` memo: with the empty-search shortcut, the rows shown are always the filter's result |
| CountryPicker.FilterIgnoresCase | src/components/CountryPickerModal.tsx:56 | searches equal ignoring case show the same rows |
| CountryPicker.Picker.constructor | src/components/CountryPickerModal.tsx:43 | the search starts empty over the library's table |
| CountryPicker.Picker.Rows | src/components/CountryPickerModal.tsx:53-58 | the rows on screen are exactly the filter's result over the country rows, in table order and with their multiplicities (so FilterKeepsOrder and FilterCounts apply to them); a row is on screen exactly when it is a country row whose name matches the search |
| CountryPicker.Picker.SetSearch | src/components/CountryPickerModal.tsx:74 | typing sets the search |
| CountryPicker.Picker.Tap | src/components/CountryPickerModal.tsx:82-85 | a tap calls `onSelect` with the tapped row, which is a country of the table, then `onClose` |
| PhoneInput.FirstCodeMatch | src/components/PhoneInput.tsx:22-26 | the first index whose code equals the given code ignoring case, or the length when none does |
| PhoneInput.FindCountryByCode | src/components/PhoneInput.tsx:22-26 | no record is found exactly when no code matches ignoring case; otherwise the first match |
| PhoneInput.FindIgnoresCase | src/components/PhoneInput.tsx:24 | looking up codes equal ignoring case finds the same record |
| PhoneInput.FirstMatchIgnoresCase | src/components/PhoneInput.tsx:24 | codes equal ignoring case have the same first match |
| PhoneInput.SelectedRowIsFound | src/components/PhoneInput.tsx:101-103 | re-looking up a picked row's code always finds a record, whose code is the row's up to case |
| PhoneInput.DigitsOnly | src/components/PhoneInput.tsx:70 | the result has only digits and is no longer than the input |
| PhoneInput.DigitsOnlyKeepsOrder | src/components/PhoneInput.tsx:70 | the digits come out in their input order |
| PhoneInput.DigitsOnlyKeepsDigits | src/components/PhoneInput.tsx:70 | all-digit text passes unchanged |
| PhoneInput.DigitsOnlyIdempotent | src/components/PhoneInput.tsx:70 | filtering twice is filtering once |
| PhoneInput.DigitsOnlyCounts | src/components/PhoneInput.tsx:70 | each digit survives as often as it occurs; no other character survives |
| PhoneInput.FormattedNumber | src/components/PhoneInput.tsx:65 | the pushed text is '+', the calling code, then the number, with nothing else |
| PhoneInput.PhoneField.constructor | src/components/PhoneInput.tsx:47-50 | mounted with the record for "US" selected (if the table has one) and the picker closed |
| PhoneInput.PhoneField.HandleTextChange | src/components/PhoneInput.tsx:69-72 | `onChangeText` gets exactly the digits filter of the text (so every digit, as often as it occurs, in order, and nothing else); all-digit input passes unchanged |
| PhoneInput.PhoneField.SetValue | src/components/PhoneInput.tsx:46 | the parent's new `value` prop |
| PhoneInput.PhoneField.FormattedText | src/components/PhoneInput.tsx:63-67 | the formatted text is pushed exactly when a country is selected |
| PhoneInput.PhoneField.IsValid | src/components/PhoneInput.tsx:52-60 | no country means invalid; otherwise the library's verdict on the value for the selected country's code |
| PhoneInput.PhoneField.ButtonFlag | src/components/PhoneInput.tsx:79-81 | the button shows the selected country's flag, or a white flag with none |
| PhoneInput.PhoneField.ButtonDialCode | src/components/PhoneInput.tsx:82-84 | the button shows '+' and the calling code, or "+1" with none; the pushed text is that dial code followed by the number |
| PhoneInput.PhoneField.OpenPicker | src/components/PhoneInput.tsx:78 | the country button opens the picker |
| PhoneInput.PhoneField.ClosePicker | src/components/PhoneInput.tsx:100 | the picker's close hides it |
| PhoneInput.PhoneField.SelectCountry | src/components/PhoneInput.tsx:101-105 | the picked country is looked up again by code and selected, and the picker closes |
| Routes.NewProfile | src/screens/VerificationScreen.tsx:87-93 | a new user's document has their uid, the credential's phone number, the generated username, and onboarding not done |
| Routes.CompleteOnboarding | src/screens/OnboardingScreen.tsx:76 | the update sets onboarding done and changes no other field |
| AuthLoading.StartupRoute | src/screens/AuthLoadingScreen.tsx:20-43 | signed out goes to entry; a document with onboarding done goes home; a missing document or one without onboarding done goes to onboarding; a failed read takes no route; each direction of each case |
| AuthLoading.OneRoutePerEvent | src/screens/AuthLoadingScreen.tsx:20-43 | every event whose read completes takes exactly one of the three routes |
| AuthLoading.NewUserOnboards | src/screens/AuthLoadingScreen.tsx:30-34 | a user whose profile was just created at sign-up starts in onboarding |
| AuthLoading.OnboardedUserGoesHome | src/screens/AuthLoadingScreen.tsx:30-31 | after onboarding updates the profile, start-up goes home |
| Verification.MaskPhoneNumber | src/screens/VerificationScreen.tsx:106-109 | under eight characters the number is unchanged; otherwise 19 characters: its first four, the fixed bullet mask, its last four |
| Verification.MaskHidesMiddle | src/screens/VerificationScreen.tsx:108 | numbers that share their first and last four characters mask to the same text |
| Verification.PhoneVerification.constructor | src/screens/VerificationScreen.tsx:45-52 | empty number, phone view, countdown 59, no spinner, no confirmation |
| Verification.PhoneVerification.ChangeText | src/screens/VerificationScreen.tsx:117 | the phone field's digits become `value` |
| Verification.PhoneVerification.ChangeFormattedText | src/screens/VerificationScreen.tsx:117 | the phone field's formatted text becomes `formattedValue` |
| Verification.PhoneVerification.SendCode | src/screens/VerificationScreen.tsx:59-75 | an invalid number alerts and changes nothing; otherwise the formatted number is sent; a sent code is kept, the countdown restarts at 59 and the code view shows; an error alerts with its message; the spinner is off afterwards |
| Verification.RefIsValid | src/screens/VerificationScreen.tsx:60 | the ref's `isValid()` can pass only while the phone field is mounted, and then it is the field's own verdict |
| Verification.UnmountedFieldIsInvalid | src/screens/VerificationScreen.tsx:60 | with the phone field unmounted the check fails, even for a valid number |
| Verification.PhoneVerification.ResendCode | src/screens/VerificationScreen.tsx:77 | the link, shown only in the code view, does nothing while the countdown runs; afterwards, as written, it always ends in the "Invalid Number" alert and sends nothing, and no state changes |
| Verification.PhoneVerification.ResendCodeIntended | src/screens/VerificationScreen.tsx:133 | once the countdown has run out, the code is sent again to the formatted number; a sent code replaces the confirmation and restarts the countdown at 59; an error alerts; the code view stays |
| Verification.PhoneVerification.ChangeNumber | src/screens/VerificationScreen.tsx:132 | "Change Number" goes back to the phone view |
| Verification.PhoneVerification.VerifyCode | src/screens/VerificationScreen.tsx:79-103 | no confirmation: nothing; a new user gets the onboarding-not-done profile and goes to onboarding; an existing user goes home; a rejected code or failed profile write alerts; the spinner is off afterwards |
| Onboarding.Pager.constructor | src/screens/OnboardingScreen.tsx:54-55 | starts on the first slide without the spinner |
| Onboarding.Pager.ViewableItemsChanged | src/screens/OnboardingScreen.tsx:58-62 | the first viewable slide becomes current; none viewable leaves it; the index stays a slide |
| Onboarding.Pager.NextPress | src/screens/OnboardingScreen.tsx:66-90 | before the last slide, scroll to the next one only; on it, a signed-in user's profile is marked done and the permission screen follows, no user or a failed update alerts, and the spinner is off afterwards |
| Onboarding.Pager.ButtonTitle | src/screens/OnboardingScreen.tsx:130 | "Get Started" exactly on the last slide, "Next" exactly elsewhere |
| Onboarding.Pager.ActiveIndicators | src/screens/OnboardingScreen.tsx:119-127 | one indicator per slide, active exactly for the current slide |
| WeatherTile.WeatherIcons | src/components/WeatherTile.tsx:15-23 | the 21-entry table from WMO codes to glyphs, the same codes and glyphs as the source |
| WeatherTile.IconName | src/components/WeatherTile.tsx:37 | a known code shows its table icon; an unknown code or no data shows the sun |
| WeatherTile.IconIsKnown | src/components/WeatherTile.tsx:15-23 | the icon is always one of the table's glyphs |
| WeatherTile.SunExactlyForClearSky | src/components/WeatherTile.tsx:15-37 | the sun shows exactly for codes 0 and 1 and for codes outside the table |
| WeatherTile.Spins | src/components/WeatherTile.tsx:44 | the rotation test: the icon is exactly "sun" |
| WeatherTile.Drifts | src/components/WeatherTile.tsx:50 | the drift test: the icon includes "cloud" |
| WeatherTile.NeverSpinsAndDrifts | src/components/WeatherTile.tsx:44-58 | no icon both spins (the sun) and drifts (a cloud glyph) |
| WeatherTile.TableMotion | src/components/WeatherTile.tsx:44-58 | every table icon spins or drifts except fog's "align-justify", which does neither |
| WeatherTile.Cancelled | src/components/WeatherTile.tsx:40-41 | `cancelAnimation` stops a running animation where it is and leaves a value that is not animating unchanged |
| WeatherTile.IconAnimation.constructor | src/components/WeatherTile.tsx:34-35 | rotation and drift start at 0 |
| WeatherTile.IconAnimation.Update | src/components/WeatherTile.tsx:39-59 | both animations are cancelled; while loading nothing restarts and a value that was not animating stays as it was; otherwise the sun spins and any cloud drifts, the other value is 0, and never both |
| WeatherTile.TileContent | src/components/WeatherTile.tsx:68-84 | a spinner exactly while loading; "unavailable" exactly without data; otherwise the reading with its icon, and an AQI line exactly when AQI data exists |

## Findings

| source | as written | input that shows it | evidently intended | confidence | as-written member | corrected member |
|---|---|---|---|---|---|---|
| src/screens/VerificationScreen.tsx:77 | The resend link calls the "Send Code" handler, whose first step asks the phone field's ref for `isValid()` (line 60). The link exists only in the code view (line 133). That view replaces the phone view (line 144), so the field (line 117) is unmounted and its ref is null. | Send a valid number, wait until the countdown reaches 0 (needs the countdown tick the source elides at line 57), tap "Resend Code": the "Invalid Number" alert shows and no code is sent (`ResendCode` with `fieldVerdict` true and `countdown` 0). | Resend the code to the number it was first sent to, restarting the countdown. | not executed; follows from React clearing a ref when its component unmounts | Verification.PhoneVerification.ResendCode | Verification.PhoneVerification.ResendCodeIntended |

## Left out

- HTTP (Google Places autocomplete, details and geocoding), AsyncStorage, Firebase Auth and Firestore, and the location service: each reply or failure is a parameter, and each handler is one atomic step.
- Interleavings of async handlers are not modelled: a stale autocomplete reply arriving after a newer query, a save racing the favourites load, or a second tap while a request is in flight.
- The 300 ms debounce and the resend countdown's ticking are timing. The countdown's effect body is elided in the source itself, so no tick is modelled; only its start value, 59, and the resend guard are.
- `generateUniqueUsername` is a Firestore query loop over random names. Its outcome is the `ProfileWrite` parameter of `VerifyCode`.
- The `createdAt` timestamp of a new profile is a server clock and is not modelled.
- Phone-number validity (libphonenumber) is passed to `IsValid` as a predicate. The country table (country-codes-list) is a parameter.
- Coordinates are reals that are copied, never computed on. `Math.round` of the temperature and the map region's zoom deltas are not modelled.
- `JsString.ToLowerCase` and `JsString.ToUpperCase` map ASCII letters only; other characters pass through unchanged.
- String lengths are counted in characters, not UTF-16 code units. The exception is the flag emoji, which works per code unit. The masked number and the query length are ASCII in practice.
- The favourite's `label` field is called `name` in the model, because `label` is a Dafny keyword.
- LocationPicker.Picker.TapFavourite: emits the favourite's place (address and coordinates). The source hands the whole favourite object, label included, to `onLocationSelect`.
- LocationPicker.Picker: models `LocationPickerModal` with `showSaveButton` and `showPreciseLocation` both true (LocationPickerModal.tsx:49-50, 59-60), and every handler may fire whatever is on screen. In the source these props gate the precise-location row (line 279), the favourites rows with their edit and delete buttons (lines 285-304) and the star on each prediction (line 334). Favourites show only for an empty query and stars only for a non-empty one. Both call sites leave the props false (HomeScreen.tsx:116-120, LocationPermissionScreen.tsx:128), so in the app as shipped PreciseLocation, TapFavourite, OpenSaveModal, SaveLabeledLocation, OpenEditModal, EditLabel and DeleteLocation are unreachable. The model allows more than the app does. The invariants it proves hold for that larger set of runs.
- The `console.log` and `console.error` diagnostics (LocationPickerModal.tsx:85, 114, 117; AuthLoadingScreen.tsx:28) are logging and are not modelled.
- Rendering, styles, `Keyboard.dismiss`, the OTP input, the map view itself, navigation animations and the modals' `visible` props are left out. The dialogs' effects are their calls on the parent.
- `Corrupt` stands for stored text that `JSON.parse` rejects. The load's catch ignores it, just as it ignores a failed read. Stored JSON that parses to something other than a list of favourites (`null`, an object) is outside the model. The source would take it as the list unchecked, but the app itself only ever writes lists. `JSON.parse` itself is not modelled.
- The remaining screens (entry, home, settings, detailed weather, location permission, pulse creation, history and nature tiles) and the app navigator are not part of this model.
