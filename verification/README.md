# Course video settings: transcript preference selection

A Dafny model of the transcript-preference selection logic of
`CourseVideoSettingsView`, the sidebar on a course's Video Uploads page.
On that page a course author picks a transcription provider (Cielo24,
3PlayMedia or another catalog key, or none), a turnaround plan, a fidelity
tier (Cielo24 only) and a list of target languages. The view then saves
these preferences with a POST, or removes them with a DELETE when no
provider is chosen.

The view's fields become one immutable record, `CourseVideoSettings.State`:

- provider, turnaround and fidelity;
- the active languages (those of the loaded plan) and the selected languages;
- the languages on offer (`available`);
- `shared`, which records that the selected and active arrays are one object;
- abstract error flags for the three "Required" markers.

Each event handler is a pure transition. The transition includes the
re-rendering the handler triggers, whenever that re-rendering changes the
state. For example, `renderLanguages` refills the available languages and
merges the active languages into the selected ones. The catalog of
transcription plans is a read-only map keyed by provider
(`TranscriptCatalog`).

Modules:

- `Wrappers`: the `Option` datatype, used for `null`.
- `LanguageLists`: the list operations on language codes. These are
  `_.without`, the duplicate-free merge of `renderLanguages`, and reference
  definitions (`Minus`, `Dedup`) used to state them.
- `TranscriptCatalog`: the catalog types, the provider constants and the
  three catalog lookups.
- `CourseVideoSettings`: the state, the transitions, the language menu, the
  validator, the save decision and the failure message.
- `SettingsProperties`: the invariant every event keeps, plus round trips
  and consequences across operations.

Where the JavaScript relies on truthiness, the model uses the empty string
and the empty list. A `null` or missing plan field is read as `""` or `[]`.
An undefined `availableLanguages` is read as the empty map.

A save with a provider posts a JSON body with these fields:

- `provider`;
- `cielo24_fidelity`;
- `cielo24_turnaround` and `three_play_turnaround`, one per provider;
- `preferred_languages`;
- `global: false`.

## Model

| member | source | states |
|---|---|---|
| LanguageLists.Without | cms/static/js/views/course_video_settings.js:153 | removing a code yields a list with no copy of it. Every other code keeps its exact number of occurrences (multiset equality). |
| LanguageLists.WithoutConcat | cms/static/js/views/course_video_settings.js:153 | removal distributes over concatenation, so the codes left keep their relative order |
| LanguageLists.WithoutKeepsNoDup | cms/static/js/views/course_video_settings.js:153 | removal never creates a duplicate |
| LanguageLists.MergeActive | cms/static/js/views/course_video_settings.js:261-267 | the merge keeps the selected list as a prefix and holds exactly the codes that are selected or active |
| LanguageLists.MergeActiveAppendsNewCodes | cms/static/js/views/course_video_settings.js:261-267 | the merge equals the selected list followed by the first occurrence of each active code not already selected, in active order |
| LanguageLists.MergeActiveKeepsNoDup | cms/static/js/views/course_video_settings.js:261-267 | merging active codes into a duplicate-free list keeps it duplicate-free |
| LanguageLists.MergeActiveNoNewCodes | cms/static/js/views/course_video_settings.js:261-267 | when every active code is already selected, nothing is pushed |
| SettingsProperties.TurnaroundRequiredOnlyWhenOffered | cms/static/js/views/course_video_settings.js:80-86 | the validator flags a missing turnaround exactly when the turnaround menu (`GetTurnaroundPlan`) is offered and nothing is chosen. With no menu it flags nothing. |
| SettingsProperties.FidelityRequiredOnlyWhenOffered | cms/static/js/views/course_video_settings.js:88-94 | with a provider chosen, the validator flags a missing fidelity exactly when the fidelity menu (`GetFidelityPlan`, Cielo24 only) is offered and nothing is chosen |
| TranscriptCatalog.GetPlanLanguages | cms/static/js/views/course_video_settings.js:96-102 | Cielo24's languages come from the chosen fidelity tier. Any other provider's come from its own entry. Both lookups must be defined. |
| CourseVideoSettings.ResetPlanData | cms/static/js/views/course_video_settings.js:58-65 | the reset clears provider, turnaround, fidelity, available, active and selected, and keeps the error flags |
| CourseVideoSettings.SetActiveTranscriptPlanData | cms/static/js/views/course_video_settings.js:67-78 | with a plan, the turnaround is the Cielo24 field exactly when the provider is Cielo24, and the 3PlayMedia field otherwise. Selected and available languages are untouched. With no plan, the result is the reset. |
| CourseVideoSettings.Initialize | cms/static/js/views/course_video_settings.js:30-38 | the view starts with no selected languages, nothing on offer and no errors. With a plan it carries the plan's provider, fidelity and active languages, and the turnaround of the plan's own provider (the Cielo24 field for Cielo24, else the 3PlayMedia field). With no plan everything is empty. |
| CourseVideoSettings.RenderLanguages | cms/static/js/views/course_video_settings.js:248-274 | languages are offered only for 3PlayMedia or once a fidelity is chosen, and then the active codes are merged in. Otherwise nothing is offered and the selection is kept. |
| CourseVideoSettings.RenderPreferences | cms/static/js/views/course_video_settings.js:307-312 | a full render clears all three error flags and otherwise changes the state as the language render does |
| CourseVideoSettings.ProviderSelected | cms/static/js/views/course_video_settings.js:123-127 | choosing a provider sets it, clears turnaround, fidelity, active and selected, and clears all errors. Only 3PlayMedia gets a non-empty offer (its catalog languages). |
| CourseVideoSettings.FidelitySelected | cms/static/js/views/course_video_settings.js:104-113 | choosing a fidelity sets it, empties selected and active (one shared array) and keeps provider and turnaround. It then offers that tier's languages. |
| CourseVideoSettings.TurnaroundSelected | cms/static/js/views/course_video_settings.js:115-121 | choosing a turnaround changes only the turnaround and clears its error |
| CourseVideoSettings.LanguageSelected | cms/static/js/views/course_video_settings.js:129-146 | a non-empty code not yet selected is appended and the error is cleared. Otherwise the list is unchanged and the error is set. No duplicate is ever introduced. |
| CourseVideoSettings.LanguageRemoved | cms/static/js/views/course_video_settings.js:148-157 | every occurrence of the code is removed and the other codes keep their counts. No other field changes, except that the array is no longer shared. |
| CourseVideoSettings.LanguageMenu | cms/static/js/views/course_video_settings.js:282-283 | the menu offers exactly the available languages that are not selected, with their display names |
| SettingsProperties.MenuShownWhenUnselectedLeft | cms/static/js/views/course_video_settings.js:285-304 | the menu is shown exactly when some available language is not yet selected |
| CourseVideoSettings.Validate | cms/static/js/views/course_video_settings.js:408-443 | with no provider, the settings are valid and nothing is flagged. Otherwise turnaround, fidelity (Cielo24 only) and languages are each flagged exactly when missing, and the settings are valid exactly when none is flagged. |
| CourseVideoSettings.SaveRequest | cms/static/js/views/course_video_settings.js:445-479 | no provider gives a DELETE. A provider gives a POST whose Cielo24 turnaround is set only for Cielo24 and whose 3PlayMedia turnaround only for 3PlayMedia, with the selected languages. |
| CourseVideoSettings.UpdateCourseVideoSettings | cms/static/js/views/course_video_settings.js:481-488 | a request is sent exactly when validation passes |
| CourseVideoSettings.FailureMessage | cms/static/js/views/course_video_settings.js:346-355 | the failure text is the parsed response's error when it is present and non-empty, else the generic message. It is never empty. |
| CourseVideoSettings.Step | cms/static/js/views/course_video_settings.js:20-28 | only choosing a provider changes the provider, and it leaves no language selected |
| SettingsProperties.InitializeEstablishesInv | cms/static/js/views/course_video_settings.js:30-38 | the initial state has no duplicate selected code and unshared lists |
| SettingsProperties.RenderLanguagesKeepsInv | cms/static/js/views/course_video_settings.js:259-267 | rendering languages keeps the selection duplicate-free. Shared lists stay equal. |
| SettingsProperties.RenderPreferencesKeepsInv | cms/static/js/views/course_video_settings.js:307-312 | a full render keeps the invariant |
| SettingsProperties.StepKeepsInv | cms/static/js/views/course_video_settings.js:104-157 | every handled event keeps the selection duplicate-free. Shared selected and active lists stay equal. |
| SettingsProperties.RunKeepsInv | cms/static/js/views/course_video_settings.js:20-28 | any sequence of handled events keeps the invariant |
| SettingsProperties.NoDuplicatesEver | cms/static/js/views/course_video_settings.js:138-139 | after the initial render, no sequence of events yields a repeated selected code |
| SettingsProperties.AddThenRemoveRestoresSelection | cms/static/js/views/course_video_settings.js:138-153 | adding a language and removing it again restores the selected list |
| SettingsProperties.MenuAfterAdd | cms/static/js/views/course_video_settings.js:138-145 | an accepted language leaves the menu. A rejected one leaves the menu unchanged. |
| SettingsProperties.MenuAfterRemove | cms/static/js/views/course_video_settings.js:153-156 | a removed language returns to the menu exactly when the plan offers it |
| SettingsProperties.MenuOffersAcceptedCodes | cms/static/js/views/course_video_settings.js:283 | any non-empty code picked from the menu is accepted and appended |
| SettingsProperties.FidelityOffersWholePlan | cms/static/js/views/course_video_settings.js:96-102 | choosing a fidelity that shows languages offers exactly the languages `GetPlanLanguages` gives for that plan |
| SettingsProperties.ThreePlayOffersWholePlan | cms/static/js/views/course_video_settings.js:259-260 | choosing 3PlayMedia offers exactly its catalog languages |
| SettingsProperties.OtherProviderOffersNoLanguages | cms/static/js/views/course_video_settings.js:259-272 | choosing a provider other than Cielo24 or 3PlayMedia shows no language menu, and the settings fail validation |
| SettingsProperties.ResetSavesDeletion | cms/static/js/views/course_video_settings.js:58-65 | after a reset, the update button sends a DELETE. The reset state depends on nothing but the error flags. |
| SettingsProperties.NewProviderNeedsLanguages | cms/static/js/views/course_video_settings.js:123-126 | a newly chosen provider fails validation on the languages, so nothing is sent |
| SettingsProperties.NewFidelityNeedsLanguages | cms/static/js/views/course_video_settings.js:110-111 | a new fidelity for a chosen provider fails validation until languages are picked again |
| SettingsProperties.ValidateIsIdempotent | cms/static/js/views/course_video_settings.js:408-443 | validating twice gives the same verdict and flags |
| SettingsProperties.SaveReloadRoundTrip | cms/static/js/views/course_video_settings.js:451-457 | for Cielo24 and 3PlayMedia, loading the saved plan restores provider, fidelity and turnaround, and makes the saved languages active |
| SettingsProperties.OtherProviderLosesTurnaround | cms/static/js/views/course_video_settings.js:455-456 | any other provider is saved with both turnaround fields empty, so it reloads with no turnaround |
| SettingsProperties.FirstRenderSelectsPlanLanguages | cms/static/js/views/course_video_settings.js:259-267 | the first render of a loaded plan selects each plan language once, in plan order, when languages are shown. Otherwise it selects none. |
| SettingsProperties.SharedListsAfterFidelity | cms/static/js/views/course_video_settings.js:111 | after a fidelity change, an added language is also active. Removing it empties only the selected list. |

## Left out

- DOM rendering is left out: the provider radios, the option markup of the turnaround and fidelity menus, `addLanguage`, the error-state markup and `renderResponseStatus`. The error states are kept only as three booleans.
- The network is left out: the `$.postJSON` and `$.ajax` calls and their callbacks. `SaveRequest` only says which request is built.
- `updateSuccessResponseStatus` is left out. It stores the server's reply as the active plan, and nothing in the model reads that plan again. `PlanOf` states the assumption that the server echoes the posted fields.
- `$.parseJSON` is a foreign call. `FailureMessage` takes its parsed `error` as an `Option`.
- The fail callbacks of the save (lines 463 and 474) call `updateFailResponseStatus` only when the response has a body. A failed save with an empty body shows no message at all. `FailureMessage` covers only the case with a body.
- `closeCourseVideoSettings` is left out. Its only state effect is `resetPlanData`, which `ResetPlanData` models. The event unbinding and DOM emptying are framework glue.
- Browser and framework glue is left out: document and window click and scroll handlers, `setFixedCourseVideoSettingsPane`, `moment` dates, `gettext` and Backbone events.
- Iteration order over JavaScript object keys is left out. The catalog, the available languages and the menu are maps.
- Undefined lookups are not modelled as crashes. The JavaScript crashes when the provider is not a catalog key, or when Cielo24's fidelity is not a tier key. The model turns these into preconditions (`Renderable`, `PlanLanguagesDefined`, `Handles`).
- The `global: false` flag is kept as a field of the posted body, where the code places it. Whether `$.postJSON` treats it as an ajax option cannot be seen, because `$.postJSON` is not part of this model.
- `$(...).data('language-code')` can turn a numeric-looking code into a number. The model treats codes as strings.
- cms/djangoapps/api/v1/tests/test_serializers/test_course_runs.py is not modelled. It is a Django integration test of a serializer that is not part of this model.
