# Laravel-Crud-Frontend client manager, modelled in Dafny

This project models the client-side logic of a Next.js CRM front-end: the zustand stores it keeps,
the zod schemas of its forms, the phone / country-code split shared by three forms, the checkbox
selection list, the country → state → city cascade, the navigation view state (which of the table,
details view, edit surface, add button and breadcrumb crumbs are shown, and which edit section is
rendered), and the display projections of the details view and the shared-files list.

Conventions used throughout:

- A zustand store is a `class` whose setters are `modifies this` methods. A component handler that
  calls setters is a method over the stores it touches.
- A value that can be `null` or `undefined` is an `Option`. A react-hook-form field value is also an
  `Option<string>`. A registered text input or select starts as `Some("")`, its empty DOM value. A
  field written only by `setValue` or a `Controller` starts as `None`, which zod reports as
  "Required". A registered file input starts as an empty `FileList`.
- The truthiness tests of the JSX are written out. An id is truthy when it is present and non-zero
  (`Wrappers.Truthy`), and a string when it is present and non-empty.
- A zod schema is modelled as an ordered list of checks per field. The first check that fails gives
  the field's message. The language array is the exception: zod 3 keeps a single minimum-length
  slot on an array, so its `.nonempty(…)` replaces the earlier `.min(1, …)` and only the
  `.nonempty` message can appear. Messages follow zod 3 throughout. `validator.isMobilePhone` and zod's `.email()` are uninterpreted predicates,
  passed in as the `Zod.Oracles` record.
- An HTTP call is modelled as the `Http.Request` it issues, plus a `Response` parameter standing
  for what came back: `Ok`, `NotOk(message)`, or `Failed` when the fetch threw. Toasts are values.
- `Math.random()` draws are a parameter (`draws`). The `JSON.parse` result of the stored language
  string is a parameter too. So is the result of the `Intl.DateTimeFormat` lookup.

Where the behaviour described for the application and the code disagree, the model follows the code:

- The phone split removes the first occurrence of `"+" + dialCode` anywhere in the value, as
  `String.replace` with a string pattern does. It is not a prefix strip
  (`PhoneFields.SplitRemovesInnerOccurrence`).
- Choosing a new country clears neither the state id nor the city id. Only the arrival of the new
  state list clears the state id and empties the city list. The city id and the form's state and
  city names are never reset (`DemoGraphicForm.StatesArrivedLeavesStaleCity`).
- The checkbox selection is never cleared when the table's rows change. Select-all compares lengths,
  not sets (`ClientsTable.HeaderCheckedWithoutEveryRow`).
- A selected id of `0` counts as "no selection" wherever the code looks at its truthiness. The breadcrumb
  effect still fetches details for it, since that test is `!== null`. The panel prints two stray `0`
  texts for it (`Panel.ZeroIdIsNoSelection`).
- In the settings form, typing in the password input writes only the password store, because the
  explicit `onChange` replaces the one from `register`. The form's `password` value catches up
  through `generatePassword`, or when the input loses focus: the `onBlur` that `register` installs
  is not overridden and writes back the displayed value, which is the store's password.

## Model

| member | source | states |
|---|---|---|
| ClientSelection.ClientSelectionStore.constructor | store/useClientSelectionStore.ts:13 | the selection starts as the empty list |
| ClientSelection.ClientSelectionStore.SelectClient | store/useClientSelectionStore.ts:14-17 | `id` is appended at the end, even when it is already selected; earlier entries keep their order |
| ClientSelection.ClientSelectionStore.DeselectClient | store/useClientSelectionStore.ts:18-21 | the new list is the old one filtered by `!== id`; `id` no longer occurs, and every other id keeps its multiplicity |
| ClientSelection.ClientSelectionStore.SelectAllClients | store/useClientSelectionStore.ts:22-25 | the selection becomes exactly the given list |
| ClientSelection.ClientSelectionStore.DeselectAllClients | store/useClientSelectionStore.ts:26 | the selection becomes empty |
| ClientSelection.Without | store/useClientSelectionStore.ts:20 | the filtered list never contains `id` and is no longer than the input |
| ClientSelection.WithoutCounts | store/useClientSelectionStore.ts:20 | filtering removes every copy of `id` and keeps every other element as often as before |
| ClientSelection.WithoutConcat | store/useClientSelectionStore.ts:20 | filtering distributes over concatenation, so the survivors keep their relative order |
| ClientSelection.WithoutAbsent | store/useClientSelectionStore.ts:18-21 | deselecting an id that is not selected leaves the list unchanged |
| ClientsTable.ToggleFlipsOneRow | app/components/ClientsTable.tsx:40-47 | a row click flips that row's checkbox and leaves every other row's checkbox as it was |
| ClientsTable.ToggleTwiceRestores | app/components/ClientsTable.tsx:40-47 | clicking an unselected row twice gives back exactly the original list |
| ClientsTable.SelectAllChecksEveryRow | app/components/ClientsTable.tsx:49-56 | when the lengths differ, select-all makes the selection the row ids in table order; the header and every row become checked |
| ClientsTable.SelectAllTwiceFromEmpty | app/components/ClientsTable.tsx:49-56 | on a non-empty table, select-all from empty selects every row, and a second select-all returns to empty |
| ClientsTable.HeaderCheckedWithoutEveryRow | app/components/ClientsTable.tsx:100 | the header test compares lengths: a duplicated id checks the header while a row stays unchecked, and select-all then clears |
| ClientsTable.HandleSelectClient | app/components/ClientsTable.tsx:40-47 | the store's selection becomes the toggle of the old one: every copy removed when present, appended otherwise |
| ClientsTable.HandleSelectAll | app/components/ClientsTable.tsx:49-56 | the store's selection is cleared when its length equals the row count, and otherwise becomes all row ids |
| ClientsTable.FormatGmt | app/components/ClientsTable.tsx:70-88 | the label is empty exactly for a missing or empty timezone; otherwise it is the zone name part when that part is non-empty, and "Invalid timezone" when the lookup throws, has no such part or gives an empty one |
| PhoneFields.PhoneAcceptedIff | app/components/AddClientModal.tsx:31-37 | the phone rule accepts exactly the values of 10 to 13 characters that satisfy the mobile-phone predicate |
| PhoneFields.CountryCodeAcceptedIff | app/components/AddClientModal.tsx:39-45 | the country-code rule accepts exactly the strings of 1 to 3 decimal digits |
| PhoneFields.FallbackRejected | app/components/AddClientModal.tsx:183-184 | with a missing or empty dial code, the derived country code is the fallback literal, which fails with "Country code cannot exceed 3 digits" |
| PhoneFields.DerivedCountryCodeAcceptedIff | app/components/AddClientModal.tsx:183-184 | the derived country code passes its rule exactly when the dial code is present and is 1 to 3 digits |
| PhoneFields.SplitStripsLeadingDialCode | app/components/AddClientModal.tsx:185 | a value that starts with `+` and the dial code loses exactly that prefix |
| PhoneFields.SplitWithoutPlusKeepsValue | app/components/AddClientModal.tsx:185 | a value with no `+` is written to the phone field unchanged |
| PhoneFields.SplitRemovesFirstOccurrence | app/components/AddClientModal.tsx:185 | the phone value is the raw value with its first `+code` cut out, wherever it starts; the result is shorter by that pattern's length |
| PhoneFields.SplitRemovesInnerOccurrence | app/components/AddClientModal.tsx:185 | an occurrence of `+code` after the start is removed too, so the split is not a prefix strip |
| PhoneFields.SplitRemovesFirstOccurrenceOnly | app/components/AddClientModal.tsx:185 | only the first occurrence is removed; a second `+code` stays in the phone value |
| AddClientModal.NameChecksAcceptedIff | app/components/AddClientModal.tsx:22-29 | first name, last name, company and position are accepted exactly when present with 2 to 50 characters |
| AddClientModal.ContactIssuesEmptyIff | app/components/AddClientModal.tsx:21-48 | the schema reports no issue exactly when every field meets its rule |
| AddClientModal.ValidateContact | app/components/AddClientModal.tsx:21-48 | the values are valid exactly when the schema's rules hold; valid data is the values as entered; an invalid result lists at least one issue |
| AddClientModal.SubmitToast | app/components/AddClientModal.tsx:75-102 | the toast says "Success!" exactly when `onSubmit` returned a falsy result; a returned error message is shown as the toast's description |
| AddClientModal.AddClientDialog.constructor | app/components/AddClientModal.tsx:65-72 | the dialog starts closed; registered inputs hold `""` and the phone fields are unset |
| AddClientModal.AddClientDialog.SetOpen | app/components/AddClientModal.tsx:106 | opening or closing the dialog leaves the form values alone |
| AddClientModal.AddClientDialog.OnPhoneChange | app/components/AddClientModal.tsx:178-197 | `country_code` and `phone` are set to the split of the input; nothing else changes |
| AddClientModal.AddClientDialog.Submit | app/components/AddClientModal.tsx:75-93 | data is sent only when the schema accepts the values; the dialog closes only when `onSubmit` returned a falsy result, and otherwise keeps its state |
| AboutClient.PictureIssueIff | app/components/AboutClient.tsx:23-36 | the picture passes exactly when it is absent, `null`, or a JPEG or PNG file under 5,000,000 bytes; a `FileList` is not a file and fails |
| AboutClient.ValidateAbout | app/components/AboutClient.tsx:22-63 | the values are valid exactly when the picture rule and the contact rules hold; valid data carries the picture and the contact data |
| AboutClient.PayloadLookup | app/components/AboutClient.tsx:98-113 | every appended key is found at its own position, since the nine keys are distinct |
| AboutClient.UpdateRequest | app/components/AboutClient.tsx:98-124 | a POST to `api/clients/{userId}` whose multipart body holds the seven validated fields verbatim, the picture part and `_method = "PATCH"` |
| AboutClient.AboutClientForm.constructor | app/components/AboutClient.tsx:68-74 | on mount the registered text inputs hold `""`, the registered file input holds an empty `FileList`, and `phone` and `country_code`, whose inputs are commented out, are unset |
| AboutClient.MountedPhonePairRequired | app/components/AboutClient.tsx:258-317 | before the PhoneInput changes, `phone` and `country_code` each fail with "Required", so the mounted values are rejected |
| AboutClient.AboutClientForm.OnImageChange | app/components/AboutClient.tsx:80-91 | `profile_pic` becomes the first chosen file, and only when a file was actually chosen |
| AboutClient.AboutClientForm.OnPhoneChange | app/components/AboutClient.tsx:306-320 | `country_code` and `phone` are set to the split of the input; nothing else changes |
| AboutClient.AboutClientForm.Submit | app/components/AboutClient.tsx:94-159 | the update request goes out exactly when the schema accepts the values; "Success!" on an ok response, the server's message otherwise, the form's own message when the call throws |
| BillingForm.BillingIssuesEmptyIff | app/components/BillingForm.tsx:12-33 | the schema reports no issue exactly when bill-to has at least 3, tax id at least 4 and address at least 5 characters, and the phone, country code and email rules hold |
| BillingForm.ValidateBilling | app/components/BillingForm.tsx:12-33 | the values are valid exactly when the billing rules hold; valid data is the values as entered |
| BillingForm.BillingRequest | app/components/BillingForm.tsx:57-66 | a JSON PATCH to `api/clientsBilling/{userId}` whose body is exactly the six validated fields |
| BillingForm.BillingSectionForm.constructor | app/components/BillingForm.tsx:41-49 | on mount the registered inputs hold `""` and the phone fields are unset |
| BillingForm.BillingSectionForm.OnPhoneChange | app/components/BillingForm.tsx:141-154 | `country_code` and `billing_phone` are set to the split of the input; nothing else changes |
| BillingForm.BillingSectionForm.Submit | app/components/BillingForm.tsx:53-91 | the request goes out exactly when the schema accepts the values; a toast follows unless the call throws, "Success!" exactly on an ok response |
| DemoGraphicForm.LanguageIssue | app/components/DemoGraphicForm.tsx:34-37 | the language rule accepts exactly a present, non-empty list; an unset list fails with "Required" and an empty one with "Languages must be selected", since `.nonempty` replaces the `.min(1, …)` message |
| DemoGraphicForm.PostalCodeAcceptedIff | app/components/DemoGraphicForm.tsx:26-32 | the postal-code rule accepts exactly the strings of 1 to 10 decimal digits |
| DemoGraphicForm.RequiredTextAcceptedIff | app/components/DemoGraphicForm.tsx:22-25 | country, state, city, address and timezone are accepted exactly when present and non-empty |
| DemoGraphicForm.DemoIssuesEmptyIff | app/components/DemoGraphicForm.tsx:21-38 | the schema reports no issue exactly when every field meets its rule |
| DemoGraphicForm.ValidateDemo | app/components/DemoGraphicForm.tsx:21-38 | the values are valid exactly when the rules hold; valid data is the values as entered |
| DemoGraphicForm.DemoRequest | app/components/DemoGraphicForm.tsx:93-102 | a JSON PATCH to `api/clientsDemographic/{userId}` whose body is exactly the seven validated fields, the languages as a list |
| DemoGraphicForm.Options | app/components/DemoGraphicForm.tsx:308-311 | one option per language, in order, showing the name and carrying the lower-cased name as its value |
| DemoGraphicForm.Values | app/components/DemoGraphicForm.tsx:321 | the chosen options' values, in order |
| DemoGraphicForm.Shown | app/components/DemoGraphicForm.tsx:312-319 | the select shows an offered option exactly when the field's list holds that language's lower-cased name: every shown option qualifies and every qualifying language's option is shown |
| DemoGraphicForm.ShownConcat | app/components/DemoGraphicForm.tsx:312-319 | the filter keeps the language list's order: a concatenation shows the first part's options ahead of the second's |
| DemoGraphicForm.ShownSingle | app/components/DemoGraphicForm.tsx:312-319 | one language shows its option exactly when the field holds its lower-cased name, and nothing otherwise |
| DemoGraphicForm.OnLanguagesChosen | app/components/DemoGraphicForm.tsx:320-322 | clearing the select yields `[]`; otherwise the field becomes the chosen options' values |
| DemoGraphicForm.OptionValuesLowerCase | app/components/DemoGraphicForm.tsx:308-311 | every option value is the lower-cased name and is already lower-case |
| DemoGraphicForm.ChooseAllShowsAll | app/components/DemoGraphicForm.tsx:312-322 | after choosing every offered option, the select shows every language's option |
| DemoGraphicForm.EveryLanguageOffered | app/components/DemoGraphicForm.tsx:308-311 | every language's lower-cased name is among the option values |
| DemoGraphicForm.ClearShowsNothing | app/components/DemoGraphicForm.tsx:320-322 | after clearing the select, it shows no option |
| DemoGraphicForm.FindById | app/components/DemoGraphicForm.tsx:148-150 | the first entry with the given id, or none exactly when no entry has it |
| DemoGraphicForm.CountryChosenEffect | app/components/DemoGraphicForm.tsx:147-163 | a listed country sets the country id and the form's country name and requests its states; an unlisted id changes nothing and requests nothing |
| DemoGraphicForm.StatesArrivedEffect | app/components/DemoGraphicForm.tsx:157-161 | a state list replaces the states, clears the state id and empties the cities; the city id and the form's names stay |
| DemoGraphicForm.StateChosenEffect | app/components/DemoGraphicForm.tsx:188-204 | the state id and name are always written, and unset when no entry matches; cities are requested exactly when the country id and the found id are truthy |
| DemoGraphicForm.CityChosenEffect | app/components/DemoGraphicForm.tsx:232-241 | a listed city sets the city id and name; an unlisted id changes nothing |
| DemoGraphicForm.StepKeepsStateConsistent | app/components/DemoGraphicForm.tsx:147-241 | every event keeps the state id naming an entry of the current state list, with the form holding its name |
| DemoGraphicForm.RunKeepsStateConsistent | app/components/DemoGraphicForm.tsx:147-241 | any sequence of choices and arrivals, in any order, keeps that consistency |
| DemoGraphicForm.InitialStateConsistent | app/components/DemoGraphicForm.tsx:205 | the cascade starts consistent, with the state and city dropdowns disabled |
| DemoGraphicForm.StatesArrivedLeavesStaleCity | app/components/DemoGraphicForm.tsx:157-161 | after a new state list arrives, a set city id names no entry of the empty city list |
| DemoGraphicForm.DemoGraphicSection.constructor | app/components/DemoGraphicForm.tsx:55-63 | on mount the registered inputs hold `""`; country, state, city and languages are unset |
| DemoGraphicForm.DemoGraphicSection.OnCountriesArrived | app/components/DemoGraphicForm.tsx:78-80 | the stores and the form move as the cascade's countries-arrived step says |
| DemoGraphicForm.DemoGraphicSection.OnLanguagesArrived | app/components/DemoGraphicForm.tsx:82-84 | the stores and the form move as the cascade's languages-arrived step says |
| DemoGraphicForm.DemoGraphicSection.OnCountryChange | app/components/DemoGraphicForm.tsx:147-156 | the stores, the form and the started request are those of the cascade's country step |
| DemoGraphicForm.DemoGraphicSection.OnStatesArrived | app/components/DemoGraphicForm.tsx:157-161 | the stores and the form move as the cascade's states-arrived step says |
| DemoGraphicForm.DemoGraphicSection.OnStateChange | app/components/DemoGraphicForm.tsx:188-203 | the stores, the form and the started request are those of the cascade's state step |
| DemoGraphicForm.DemoGraphicSection.OnCitiesArrived | app/components/DemoGraphicForm.tsx:198-201 | the stores and the form move as the cascade's cities-arrived step says |
| DemoGraphicForm.DemoGraphicSection.OnCityChange | app/components/DemoGraphicForm.tsx:232-241 | the stores and the form move as the cascade's city step says |
| DemoGraphicForm.DemoGraphicSection.OnLanguageChange | app/components/DemoGraphicForm.tsx:320-322 | the language field becomes the chosen values, `[]` when cleared |
| DemoGraphicForm.DemoGraphicSection.Submit | app/components/DemoGraphicForm.tsx:89-128 | the request goes out exactly when the schema accepts the values; a toast follows unless the call throws; the page refreshes exactly on an ok response |
| ClientAddressIds.ClientAddressIdStore.constructor | store/useClientAddressIdStore.ts:13-15 | all three ids start `null` |
| ClientAddressIds.ClientAddressIdStore.SetSelectedCountryId | store/useClientAddressIdStore.ts:17 | only the country id changes, `null` included; the state and city ids are not reset |
| ClientAddressIds.ClientAddressIdStore.SetSelectedStateId | store/useClientAddressIdStore.ts:18 | only the state id changes |
| ClientAddressIds.ClientAddressIdStore.SetSelectedCityId | store/useClientAddressIdStore.ts:19 | only the city id changes |
| DemoGraphicLists.DemoGraphicStore.constructor | store/useDemoGraphicStore.ts:14-17 | all four lists start empty |
| DemoGraphicLists.DemoGraphicStore.SetCountries | store/useDemoGraphicStore.ts:18 | the countries are replaced wholesale; the other three lists stay |
| DemoGraphicLists.DemoGraphicStore.SetStates | store/useDemoGraphicStore.ts:19 | the states are replaced wholesale; the other three lists stay |
| DemoGraphicLists.DemoGraphicStore.SetCities | store/useDemoGraphicStore.ts:20 | the cities are replaced wholesale; the other three lists stay |
| DemoGraphicLists.DemoGraphicStore.SetLanguages | store/useDemoGraphicStore.ts:21 | the languages are replaced wholesale; the other three lists stay |
| DetailsRefForm.DetailsIssuesEmptyIff | app/components/DetailsRefForm.tsx:13-17 | the schema reports no issue exactly when details and reference are both non-empty, with no upper bound |
| DetailsRefForm.ValidateDetails | app/components/DetailsRefForm.tsx:13-17 | the values are valid exactly when both fields are non-empty; valid data is the values as entered |
| DetailsRefForm.ReferenceOptionsAccepted | app/components/DetailsRefForm.tsx:102-105 | of the select's options only the placeholder `""` is refused, and with "Please Choose the Reference" |
| DetailsRefForm.DetailsRequest | app/components/DetailsRefForm.tsx:41-50 | a JSON PATCH to `api/clientsDetailsReference/{userId}` whose body is exactly `{details, reference}` |
| DetailsRefForm.DetailsSectionForm.constructor | app/components/DetailsRefForm.tsx:83-106 | on mount the textarea holds `""` and the select its placeholder `""` |
| DetailsRefForm.DetailsSectionForm.OnDetailsInput | app/components/DetailsRefForm.tsx:83-88 | typing sets the details value only |
| DetailsRefForm.DetailsSectionForm.OnReferenceSelect | app/components/DetailsRefForm.tsx:97-106 | picking an option sets the reference to that option's value only |
| DetailsRefForm.DetailsSectionForm.Submit | app/components/DetailsRefForm.tsx:37-75 | the request goes out exactly when the schema accepts the values; a toast follows unless the call throws |
| ClientSettingsUpdate.PasswordOutcome | app/components/ClientSettingsUpdate.tsx:17-25 | the password passes exactly when it is `null` or has 2 to 50 characters; an undefined password makes the refine throw |
| ClientSettingsUpdate.PortalOutcome | app/components/ClientSettingsUpdate.tsx:16 | the portal flag passes exactly when it is a boolean |
| ClientSettingsUpdate.ValidateSettings | app/components/ClientSettingsUpdate.tsx:15-26 | validation throws exactly for an undefined password and succeeds exactly when both rules pass |
| ClientSettingsUpdate.SettingsRequest | app/components/ClientSettingsUpdate.tsx:59-68 | a JSON PATCH to `api/clients/updateSettings/{userId}` whose body is exactly the portal flag and the password, `null` kept as `null` |
| ClientSettingsUpdate.AlphabetIsAsciiAlnum | app/components/ClientSettingsUpdate.tsx:45 | the alphabet has 62 distinct characters, exactly the ASCII letters and digits |
| ClientSettingsUpdate.DrawIndex | app/components/ClientSettingsUpdate.tsx:47 | `floor(r * 62)` is an index into the alphabet for every draw in [0, 1) |
| ClientSettingsUpdate.EveryLetterReachable | app/components/ClientSettingsUpdate.tsx:47 | every alphabet index is the result of some draw |
| ClientSettingsUpdate.GeneratedShape | app/components/ClientSettingsUpdate.tsx:44-48 | a generated password has exactly 8 characters, each an ASCII letter or digit, and passes the password rule |
| ClientSettingsUpdate.DrawPassword | app/components/ClientSettingsUpdate.tsx:46-48 | the loop builds the password whose i-th character is the alphabet letter at the i-th draw's index |
| ClientSettingsUpdate.PasswordStore.constructor | app/components/ClientSettingsUpdate.tsx:40 | the store holds the given password |
| ClientSettingsUpdate.PasswordStore.SetPassword | app/components/ClientSettingsUpdate.tsx:50 | the store holds the given password |
| ClientSettingsUpdate.SettingsSectionForm.constructor | app/components/ClientSettingsUpdate.tsx:113-120 | on mount the portal flag is unset and the password input holds the store's password |
| ClientSettingsUpdate.SettingsSectionForm.OnCheckedChange | app/components/ClientSettingsUpdate.tsx:104 | the switch sets the portal flag only |
| ClientSettingsUpdate.SettingsSectionForm.GeneratePassword | app/components/ClientSettingsUpdate.tsx:44-52 | the store and the form's password value both become the same generated password |
| ClientSettingsUpdate.SettingsSectionForm.OnPasswordInput | app/components/ClientSettingsUpdate.tsx:117-119 | typing writes the store only; the form's values are unchanged |
| ClientSettingsUpdate.SettingsSectionForm.OnPasswordBlur | app/components/ClientSettingsUpdate.tsx:117-118 | leaving the input writes the store's password, the displayed value, into the form's `password`; nothing else changes |
| ClientSettingsUpdate.SettingsSectionForm.TypeThenBlur | app/components/ClientSettingsUpdate.tsx:117-119 | typing a password and leaving the input puts the typed password into both the store and the form |
| ClientSettingsUpdate.SettingsSectionForm.Submit | app/components/ClientSettingsUpdate.tsx:55-95 | the request goes out exactly when both rules pass; "Success!" on an ok response, the server's message otherwise, the form's own message when the call throws |
| ClientDetailsState.ClientDetailsStore.constructor | store/useClientDetailsStore.ts:12-13 | both fields start `null` |
| ClientDetailsState.ClientDetailsStore.SetSelectedClientId | store/useClientDetailsStore.ts:14 | only the selected id changes; clearing it keeps the last details result |
| ClientDetailsState.ClientDetailsStore.SetClientDetailsResult | store/useClientDetailsStore.ts:15 | only the details result changes |
| ShowEditProfile.ShowEditProfileStore.constructor | store/useShowEditProfileStore.ts:10 | the flag starts false |
| ShowEditProfile.ShowEditProfileStore.SetShowEditProfile | store/useShowEditProfileStore.ts:11 | the flag is exactly the given value, so setting it twice equals setting it once |
| ActiveComponent.ActiveComponentStore.constructor | store/useActiveComponentStore.ts:10 | the active component starts as "Dashboard" |
| ActiveComponent.ActiveComponentStore.SetActiveComponent | store/useActiveComponentStore.ts:11 | any given string is stored unvalidated; the last write wins |
| EditLayoutState.EditLayoutStore.constructor | store/useEditLayoutStore.ts:9 | the active section starts as "aboutClient" |
| EditLayoutState.EditLayoutStore.SetActiveSection | store/useEditLayoutStore.ts:10 | any given string is stored; the last write wins |
| ShowSharedPdf.ShowSharedPdfStore.constructor | store/useShowSharedPdfStore.ts:9 | the shared files start empty |
| ShowSharedPdf.ShowSharedPdfStore.SetSharedFiles | store/useShowSharedPdfStore.ts:10 | the list is replaced wholesale, never appended to |
| Panel.ExactlyOneSurface | app/components/Panel.tsx:302-316 | on the clients area exactly one of table, details and edit is rendered; elsewhere none is, and no add button |
| Panel.AddButtonRule | app/components/Panel.tsx:297-299 | the add button shows exactly on the clients area with no truthy selection and edit off, and only together with the table |
| Panel.ZeroIdIsNoSelection | app/components/Panel.tsx:302-316 | an id of 0 renders like no selection, plus two stray `0` texts on the clients area |
| Panel.ClickClients | app/components/Panel.tsx:155 | the active component becomes "Clients" |
| Panel.HandleEditProfile | app/components/Panel.tsx:123-126 | the client is selected and the edit surface is on; the loaded details stay |
| Panel.HandleShowClientDetails | app/components/Panel.tsx:90-115 | the id is selected, a GET for `api/clientDetails/{id}` is issued, and only an ok response replaces the stored details |
| Breadcrumb.FetchOnSelection | app/components/BreadCumbSeperator.tsx:32-36 | `GET api/clientDetails/{id}` is issued exactly when the selected id is `Some(id)`, 0 included; the id is kept and the details are replaced only on an ok response; `null` changes nothing |
| Breadcrumb.CrumbRules | app/components/BreadCumbSeperator.tsx:62-101 | the name crumb shows exactly when details are loaded and the id is truthy; "Edit" and the close icon show exactly when editing with a truthy id |
| Breadcrumb.ZeroIdFetchedButHidden | app/components/BreadCumbSeperator.tsx:32-36 | an id of 0 is fetched, and its details stored on an ok response, yet the bar then shows no name, "Edit" or close icon |
| Breadcrumb.HandleClose | app/components/BreadCumbSeperator.tsx:42-45 | the selected id is cleared and the edit surface turned off; the loaded details stay |
| Breadcrumb.AfterCloseOnlyArea | app/components/BreadCumbSeperator.tsx:32-45 | after closing, the effect issues no request, the details stay, and the bar shows only Home and the area |
| EditLayout.SectionsDistinct | app/components/EditLayout.tsx:44-61 | the six section names are pairwise different |
| EditLayout.SectionRendersItsForm | app/components/EditLayout.tsx:65-70 | each of the six sections renders exactly its own form, with the given `userId` |
| EditLayout.OtherSectionRendersNothing | app/components/EditLayout.tsx:65-70 | any other section string renders no form |
| EditLayout.AtMostOneForm | app/components/EditLayout.tsx:65-70 | at most one form is rendered, one exactly when the section is one of the six, and it receives `userId` |
| EditLayout.OneHighlight | app/components/EditLayout.tsx:44-61 | at most one nav link is highlighted |
| EditLayout.ClickNav | app/components/EditLayout.tsx:44-61 | clicking the k-th link makes its section active and highlights that link |
| ClientDetailsView.OrNA | app/components/ClientDetails.tsx:143 | a line shows its value when truthy and "N/A" otherwise, so it is never blank |
| ClientDetailsView.StateCityIff | app/components/ClientDetails.tsx:177-181 | the State/City line is "N/A" exactly when a part is missing or empty; otherwise it is the two parts joined by ", " |
| ClientDetailsView.Languages | app/components/ClientDetails.tsx:191-195 | the Languages line is "N/A" when the stored string is missing or empty, and otherwise the decoded list joined by ", " |
| ClientDetailsView.LanguagesEdgeCases | app/components/ClientDetails.tsx:191-195 | a stored empty array shows a blank line, not "N/A"; a single language shows as itself |
| ClientDetailsView.SeveralLanguagesNotNA | app/components/ClientDetails.tsx:191-195 | two or more non-empty languages give a line at least as long as their count plus two per separator, never "N/A" |
| ClientDetailsView.View | app/components/ClientDetails.tsx:124-227 | the image shows exactly when the loaded client has a truthy picture, and the placeholder otherwise; the name, description and reference lines are never blank |
| ClientDetailsView.NoClientShowsFallbacks | app/components/ClientDetails.tsx:124-227 | with no details loaded every line shows "N/A", the description shows the stock sentence, and the placeholder shows |
| ClientDetailsView.LoadedClientShowsValues | app/components/ClientDetails.tsx:137-227 | for a loaded client, each of name, email, phone, company, position, country, timezone, address and reference shows its value when truthy and "N/A" otherwise; State/City and Languages are the `StateCity` and `Languages` lines of its fields; the description falls back to the stock sentence exactly when the client has none |
| ClientDetailsView.HandleClose | app/components/ClientDetails.tsx:18-20 | only the selected id is cleared; the loaded details stay |
| ClientDetailsView.CloseShowsTable | app/components/ClientDetails.tsx:18-20 | after closing, the clients area shows the table and neither details nor edit |
| ShowUploadFile.FileName | app/components/ShowUploadFile.tsx:70 | the shown name never contains "/" |
| ShowUploadFile.FileNameWithoutSlash | app/components/ShowUploadFile.tsx:70 | a path without "/" is shown whole |
| ShowUploadFile.FileNameAfterSlash | app/components/ShowUploadFile.tsx:70 | whatever precedes a slash does not change the shown name |
| ShowUploadFile.FileNameIsFinalSegment | app/components/ShowUploadFile.tsx:70 | the shown name is a suffix of the path that is either the whole path or directly preceded by "/" |
| ShowUploadFile.RenderFiles | app/components/ShowUploadFile.tsx:56-79 | "No files uploaded yet." shows exactly for an empty list; otherwise one link per path, in order, labelled with its file name |
| ShowUploadFile.ShownNamesAreFinalSegments | app/components/ShowUploadFile.tsx:63-70 | each link's label is the final segment of its target |
| ShowUploadFile.FetchFilePath | app/components/ShowUploadFile.tsx:14-38 | a GET for `api/clients/getSharedFiles/{userId}`; only an ok response replaces the list, an error or a throw leaves it unchanged |
| ShowUploadFile.SuccessEffect | app/components/ShowUploadFile.tsx:45-50 | after an upload the list is re-fetched and the flag reset to false; otherwise nothing is fetched |

## Left out

- Network I/O. Each `fetch` is the request it issues plus a `Response` parameter for what came back. The `Accept` and `Content-Type` headers, the backend host prefix, `response.json()` and the backend's behaviour are not modelled.
- Toast rendering, `router.refresh()` and `console` output. Toasts and the refresh flag are returned values.
- `validator.isMobilePhone` and zod's `.email()`. They are uninterpreted predicates, passed in as parameters.
- `JSON.stringify` of request bodies. A body is a list of key/value members, and the model proves that its keys and values are exactly the validated fields.
- `JSON.parse` of the stored language string. The decoded list is a parameter of `ClientDetailsView.View`, and a string that does not parse is not modelled.
- `Intl.DateTimeFormat` and `toLocaleDateString`. `ClientsTable.FormatGmt` takes the lookup's outcome as a parameter, and the last-update date is not modelled.
- `Math.random`. The eight draws are a parameter of reals in [0, 1).
- Concurrent completion of reference-data fetches. Each arrival is an explicit event applied in arrival order; the order itself is arbitrary (`DemoGraphicForm.RunKeepsStateConsistent`).
- Re-running of the breadcrumb effect. The effect lists a handler that is not memoised, so it re-fires on every render of the panel. The model states what one run does (`Breadcrumb.FetchOnSelection`).
- react-hook-form internals. Only the values it hands to the schema are modelled, starting from the initial values listed above, along with `setValue` writes.
- `String.prototype.toLowerCase` on non-ASCII letters. `Text.Lower` lower-cases ASCII letters only.
- String lengths. They are counted in characters, whereas JavaScript counts UTF-16 code units.
- The password store module (`usePasswordStore`) is not part of this model. It is modelled as a single string field with a setter (`ClientSettingsUpdate.PasswordStore`).
- The FileReader preview of `AboutClient` and the image store behind it. These are browser I/O with no logic of their own.
- The file upload form, the edit-profile wrapper component and the page-level server actions. The upload form appears only through the `success` flag it raises (`ShowUploadFile.SuccessEffect`); the wrapper only renders the edit layout; the server actions only fetch and revalidate.
- JSX layout, styling and the commented-out markup of the details view.
- Sorting or de-duplicating the selection. The source does neither, so the model keeps the list as a list.
