/** The transcript-preference state machine of the course video settings
    panel (`CourseVideoSettingsView`). The view's fields become one
    immutable `State`; each event handler becomes a pure transition that
    includes the re-rendering it triggers, as far as that re-rendering
    changes the state. */
module CourseVideoSettings {
  import opened Wrappers
  import opened LanguageLists
  import opened TranscriptCatalog

  /** Whether each preference wrapper shows its "Required" error state. */
  datatype Errors = Errors(turnaround: bool, fidelity: bool, languages: bool)

  /** The view's selection state.
      `shared` records that `selected` and `active` are one and the same
      array object, as they are after `fidelitySelected` assigns one empty
      array to both: a code pushed onto the selected list then also lands
      in the active list. */
  datatype State = State(
    provider: string,
    turnaround: string,
    fidelity: string,
    active: seq<Code>,
    selected: seq<Code>,
    available: LanguageNames,
    shared: bool,
    errors: Errors)

  /** The active transcript preferences the page was opened with, or that
      the server returned; the same shape as the saved payload. */
  datatype Plan = Plan(
    provider: string,
    cielo24Fidelity: string,
    cielo24Turnaround: string,
    threePlayTurnaround: string,
    preferredLanguages: seq<Code>)

  const NoErrors: Errors := Errors(false, false, false)

  /** The state before `initialize` assigns anything: every field unset,
      which the view reads as empty. */
  const Blank: State := State("", "", "", [], [], map[], false, NoErrors)

  /** `resetPlanData`: forget the whole selection. */
  function ResetPlanData(s: State): (r: State)
    ensures r.provider == "" && r.turnaround == "" && r.fidelity == ""
    ensures r.active == [] && r.selected == [] && r.available == map[]
    ensures !r.shared
    ensures r.errors == s.errors
  {
    s.(provider := "", turnaround := "", fidelity := "",
       available := map[], active := [], selected := [], shared := false)
  }

  /** `setActiveTranscriptPlanData`: load the active plan, or reset when
      there is none. The turnaround comes from the Cielo24 field exactly
      when the plan's provider is Cielo24. The selected and available
      languages are left as they were. */
  function SetActiveTranscriptPlanData(s: State, plan: Option<Plan>): (r: State)
    ensures plan.None? ==> r == ResetPlanData(s)
    ensures plan.Some? ==> r.provider == plan.value.provider
    ensures plan.Some? ==> r.fidelity == plan.value.cielo24Fidelity
    ensures plan.Some? && plan.value.provider == CIELO24 ==> r.turnaround == plan.value.cielo24Turnaround
    ensures plan.Some? && plan.value.provider != CIELO24 ==> r.turnaround == plan.value.threePlayTurnaround
    ensures plan.Some? ==> r.active == plan.value.preferredLanguages && !r.shared
    ensures plan.Some? ==> r.selected == s.selected && r.available == s.available && r.errors == s.errors
  {
    match plan
    case None => ResetPlanData(s)
    case Some(p) =>
      s.(provider := p.provider,
         fidelity := p.cielo24Fidelity,
         turnaround := if p.provider == CIELO24 then p.cielo24Turnaround else p.threePlayTurnaround,
         active := p.preferredLanguages,
         shared := false)
  }

  /** `initialize`: load the active plan, then start with no selected
      languages. */
  function Initialize(plan: Option<Plan>): (r: State)
    ensures r.selected == [] && r.available == map[] && r.errors == NoErrors && !r.shared
    ensures plan.None? ==> r.provider == "" && r.turnaround == "" && r.fidelity == "" && r.active == []
    ensures plan.Some? ==> r.provider == plan.value.provider && r.active == plan.value.preferredLanguages
    ensures plan.Some? ==> r.fidelity == plan.value.cielo24Fidelity
    ensures plan.Some? ==>
      r.turnaround == (if plan.value.provider == CIELO24 then plan.value.cielo24Turnaround
                       else plan.value.threePlayTurnaround)
  {
    SetActiveTranscriptPlanData(Blank, plan).(selected := [])
  }

  /** The language section is shown for 3PlayMedia, or once a fidelity
      has been chosen. */
  predicate LanguagesShown(s: State) {
    s.provider == THREE_PLAY_MEDIA || s.fidelity != ""
  }

  /** The catalog lookups rendering makes succeed: the provider (if any)
      is a catalog key, and the languages lookup is defined when the
      language section is shown. */
  predicate Renderable(catalog: Catalog, s: State) {
    && (s.provider == "" || s.provider in catalog)
    && (LanguagesShown(s) ==> PlanLanguagesDefined(catalog, s.provider, s.fidelity))
  }

  /** `renderLanguages`: with the section shown, offer the plan's
      languages and push each active code not yet selected onto the
      selected list; otherwise offer nothing. Clears the languages error. */
  function RenderLanguages(catalog: Catalog, s: State): (r: State)
    requires LanguagesShown(s) ==> PlanLanguagesDefined(catalog, s.provider, s.fidelity)
    ensures LanguagesShown(s) ==> r.available == GetPlanLanguages(catalog, s.provider, s.fidelity)
    ensures !LanguagesShown(s) ==> r.available == map[] && r.selected == s.selected
    ensures |s.selected| <= |r.selected| && r.selected[..|s.selected|] == s.selected
    ensures forall c :: c in r.selected <==> c in s.selected || (LanguagesShown(s) && c in s.active)
    ensures r.provider == s.provider && r.turnaround == s.turnaround && r.fidelity == s.fidelity
    ensures r.active == s.active && r.shared == s.shared
    ensures r.errors == s.errors.(languages := false)
  {
    var cleared := s.(errors := s.errors.(languages := false));
    if LanguagesShown(s) then
      cleared.(available := GetPlanLanguages(catalog, s.provider, s.fidelity),
               selected := MergeActive(s.selected, s.active))
    else
      cleared.(available := map[])
  }

  /** `renderPreferences`: the turnaround and fidelity menus are rebuilt
      (clearing their errors), then the languages. */
  function RenderPreferences(catalog: Catalog, s: State): (r: State)
    requires Renderable(catalog, s)
    ensures r.errors == NoErrors
    ensures r.(errors := s.errors) == RenderLanguages(catalog, s).(errors := s.errors)
  {
    // The menus themselves are markup; `Renderable` covers the lookups
    // `GetTurnaroundPlan` and `GetFidelityPlan` make for them.
    RenderLanguages(catalog, s.(errors := s.errors.(turnaround := false, fidelity := false)))
  }

  /** `providerSelected`: reset everything, take the new provider and
      re-render. Only 3PlayMedia shows languages without a fidelity, so only
      it gets a non-empty offer; no language is selected either way. */
  function ProviderSelected(catalog: Catalog, s: State, p: string): (r: State)
    requires p == "" || p in catalog
    ensures r.provider == p && r.turnaround == "" && r.fidelity == ""
    ensures r.active == [] && r.selected == [] && !r.shared
    ensures p == THREE_PLAY_MEDIA ==> r.available == catalog[p].languages
    ensures p != THREE_PLAY_MEDIA ==> r.available == map[]
    ensures r.errors == NoErrors
  {
    RenderPreferences(catalog, ResetPlanData(s).(provider := p))
  }

  /** `fidelitySelected`: take the new fidelity, empty the active and
      selected languages (one shared array) and re-render the languages. */
  function FidelitySelected(catalog: Catalog, s: State, f: string): (r: State)
    requires (s.provider == THREE_PLAY_MEDIA || f != "") ==> PlanLanguagesDefined(catalog, s.provider, f)
    ensures r.fidelity == f && r.provider == s.provider && r.turnaround == s.turnaround
    ensures r.active == [] && r.selected == [] && r.shared
    ensures (s.provider == THREE_PLAY_MEDIA || f != "") ==> r.available == GetPlanLanguages(catalog, s.provider, f)
    ensures !(s.provider == THREE_PLAY_MEDIA || f != "") ==> r.available == map[]
    ensures r.errors == s.errors.(fidelity := false, languages := false)
  {
    var emptied := s.(fidelity := f, errors := s.errors.(fidelity := false),
                      selected := [], active := [], shared := true);
    RenderLanguages(catalog, emptied)
  }

  /** `turnaroundSelected`: take the new turnaround, clear its error. */
  function TurnaroundSelected(s: State, t: string): (r: State)
    ensures r.turnaround == t && !r.errors.turnaround
    ensures r.(turnaround := s.turnaround, errors := s.errors) == s
  {
    s.(turnaround := t, errors := s.errors.(turnaround := false))
  }

  /** The add-language button accepts the code chosen in the menu when one
      is chosen and it is not selected already. */
  predicate AcceptsLanguage(s: State, c: Code) {
    c != "" && c !in s.selected
  }

  /** `languageSelected`: append an accepted code (also to the active list
      when the two share one array); otherwise flag the languages error and
      change nothing else. */
  function LanguageSelected(s: State, c: Code): (r: State)
    ensures r.errors == s.errors.(languages := !AcceptsLanguage(s, c))
    ensures AcceptsLanguage(s, c) ==> r.selected == s.selected + [c]
    ensures !AcceptsLanguage(s, c) ==> r.selected == s.selected && r.active == s.active
    ensures NoDup(s.selected) ==> NoDup(r.selected)
    ensures r.provider == s.provider && r.turnaround == s.turnaround && r.fidelity == s.fidelity
    ensures r.available == s.available && r.shared == s.shared
    ensures !s.shared ==> r.active == s.active
  {
    if AcceptsLanguage(s, c) then
      var selected := s.selected + [c];
      s.(selected := selected,
         active := if s.shared then selected else s.active,
         errors := s.errors.(languages := false))
    else
      s.(errors := s.errors.(languages := true))
  }

  /** `languageRemoved`: drop every occurrence of the code from the
      selected list, which becomes a new array (no longer shared with the
      active list). Nothing else changes. */
  function LanguageRemoved(s: State, c: Code): (r: State)
    ensures c !in r.selected
    ensures forall x :: x in r.selected <==> x in s.selected && x != c
    ensures multiset(r.selected) == multiset(s.selected)[c := 0]
    ensures r.(selected := s.selected, shared := s.shared) == s
    ensures !r.shared
  {
    s.(selected := Without(s.selected, c), shared := false)
  }

  /** `populateLanguageMenu`: the languages still on offer are the
      available ones minus those selected. */
  function LanguageMenu(s: State): (r: LanguageNames)
    ensures forall c :: c in r <==> c in s.available && c !in s.selected
    ensures forall c :: c in r ==> r[c] == s.available[c]
  {
    map c | c in s.available && c !in s.selected :: s.available[c]
  }

  /** The menu is shown exactly when some available language is not yet
      selected. */
  function MenuShown(s: State): bool {
    |LanguageMenu(s)| > 0
  }

  /** Result of `validateCourseVideoSettings`: the verdict and the state
      with the error flags it set or cleared. */
  datatype Checked = Checked(valid: bool, state: State)

  /** `validateCourseVideoSettings`. With no provider the settings are
      valid and nothing is flagged. Otherwise each of turnaround, fidelity
      (Cielo24 only) and languages is flagged exactly when missing, and
      the settings are valid exactly when nothing is flagged. */
  function Validate(s: State): (r: Checked)
    ensures s.provider == "" ==> r.valid && r.state == s
    ensures s.provider != "" ==>
      (r.valid <==> s.turnaround != "" && (s.provider != CIELO24 || s.fidelity != "") && |s.selected| > 0)
    ensures s.provider != "" ==>
      && (r.state.errors.turnaround <==> s.turnaround == "")
      && (r.state.errors.fidelity <==> s.provider == CIELO24 && s.fidelity == "")
      && (r.state.errors.languages <==> s.selected == [])
    ensures s.provider != "" ==>
      (r.valid <==> !r.state.errors.turnaround && !r.state.errors.fidelity && !r.state.errors.languages)
    ensures r.state.(errors := s.errors) == s
  {
    if s.provider == "" then Checked(true, s)
    else
      var missingTurnaround := s.turnaround == "";
      var missingFidelity := s.provider == CIELO24 && s.fidelity == "";
      var missingLanguages := |s.selected| == 0;
      Checked(!missingTurnaround && !missingFidelity && !missingLanguages,
              s.(errors := Errors(missingTurnaround, missingFidelity, missingLanguages)))
  }

  /** The JSON body posted to the transcript preferences handler. */
  datatype Payload = Payload(
    provider: string,
    cielo24Fidelity: string,
    cielo24Turnaround: string,
    threePlayTurnaround: string,
    preferredLanguages: seq<Code>,
    global: bool)

  /** What `saveTranscriptPreferences` sends. */
  datatype Request = Delete | Post(payload: Payload)

  /** `saveTranscriptPreferences`: with no provider the preferences are
      deleted; otherwise they are posted, each turnaround field carrying
      the selection only for its own provider. */
  function SaveRequest(s: State): (r: Request)
    ensures r.Delete? <==> s.provider == ""
    ensures r.Post? ==> r.payload.provider == s.provider && r.payload.cielo24Fidelity == s.fidelity
    ensures r.Post? ==> r.payload.cielo24Turnaround == (if s.provider == CIELO24 then s.turnaround else "")
    ensures r.Post? ==> r.payload.threePlayTurnaround == (if s.provider == THREE_PLAY_MEDIA then s.turnaround else "")
    ensures r.Post? ==> r.payload.preferredLanguages == s.selected && !r.payload.global
  {
    if s.provider != "" then
      Post(Payload(
        provider := s.provider,
        cielo24Fidelity := s.fidelity,
        cielo24Turnaround := if s.provider == CIELO24 then s.turnaround else "",
        threePlayTurnaround := if s.provider == THREE_PLAY_MEDIA then s.turnaround else "",
        preferredLanguages := s.selected,
        global := false))
    else Delete
  }

  /** Outcome of the update button: the state after validation, and the
      request sent, if any. */
  datatype Update = Update(state: State, request: Option<Request>)

  /** `updateCourseVideoSettings`: save only valid settings. */
  function UpdateCourseVideoSettings(s: State): (r: Update)
    ensures r.request.Some? <==> Validate(s).valid
    ensures r.request.Some? ==> r.request.value == SaveRequest(s)
    ensures r.state == Validate(s).state
  {
    var checked := Validate(s);
    Update(checked.state, if checked.valid then Some(SaveRequest(s)) else None)
  }

  /** The generic message shown when a failed save gives no usable error. */
  const DefaultErrorMessage: string := "Error saving data"

  /** `updateFailResponseStatus`: the `error` field of the parsed response
      (`None` when it does not parse or has none), or the default message
      when that is missing or empty. */
  function FailureMessage(error: Option<string>): (r: string)
    ensures r != ""
    ensures error.Some? && error.value != "" ==> r == error.value
    ensures (error.None? || error.value == "") ==> r == DefaultErrorMessage
  {
    if error.Some? && error.value != "" then error.value else DefaultErrorMessage
  }

  /** The user events the panel handles. */
  datatype Event =
    | PickProvider(provider: string)
    | PickFidelity(fidelity: string)
    | PickTurnaround(turnaround: string)
    | AddLanguage(code: Code)
    | RemoveLanguage(code: Code)
    | Submit

  /** The event can be handled without an undefined catalog lookup. */
  predicate Handles(catalog: Catalog, s: State, e: Event) {
    match e
    case PickProvider(p) => p == "" || p in catalog
    case PickFidelity(f) =>
      (s.provider == THREE_PLAY_MEDIA || f != "") ==> PlanLanguagesDefined(catalog, s.provider, f)
    case _ => true
  }

  /** The state after handling one event. */
  function Step(catalog: Catalog, s: State, e: Event): (r: State)
    requires Handles(catalog, s, e)
    ensures e.PickProvider? ==> r.provider == e.provider && r.selected == []
    ensures !e.PickProvider? ==> r.provider == s.provider
  {
    match e
    case PickProvider(p) => ProviderSelected(catalog, s, p)
    case PickFidelity(f) => FidelitySelected(catalog, s, f)
    case PickTurnaround(t) => TurnaroundSelected(s, t)
    case AddLanguage(c) => LanguageSelected(s, c)
    case RemoveLanguage(c) => LanguageRemoved(s, c)
    case Submit => UpdateCourseVideoSettings(s).state
  }
}
