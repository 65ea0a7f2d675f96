/** Properties of the course video settings state machine that relate
    several operations: the invariant every event keeps, round trips
    between adding and removing a language and between saving and
    reloading a plan, and what the first render selects. */
module SettingsProperties {
  import opened Wrappers
  import opened LanguageLists
  import opened TranscriptCatalog
  import opened CourseVideoSettings

  /** The selected list never repeats a code, and while the selected and
      active lists are one array they hold the same codes. */
  predicate Inv(s: State) {
    NoDup(s.selected) && (s.shared ==> s.active == s.selected)
  }

  lemma InitializeEstablishesInv(plan: Option<Plan>)
    ensures Inv(Initialize(plan))
  {
  }

  /** Rendering the languages keeps the invariant: merging never adds a
      duplicate, and merging a list into itself adds nothing. */
  lemma RenderLanguagesKeepsInv(catalog: Catalog, s: State)
    requires LanguagesShown(s) ==> PlanLanguagesDefined(catalog, s.provider, s.fidelity)
    requires Inv(s)
    ensures Inv(RenderLanguages(catalog, s))
  {
    if LanguagesShown(s) {
      MergeActiveKeepsNoDup(s.selected, s.active);
      if s.shared {
        MergeActiveNoNewCodes(s.selected, s.active);
      }
    }
  }

  lemma RenderPreferencesKeepsInv(catalog: Catalog, s: State)
    requires Renderable(catalog, s) && Inv(s)
    ensures Inv(RenderPreferences(catalog, s))
  {
    RenderLanguagesKeepsInv(catalog, s.(errors := s.errors.(turnaround := false, fidelity := false)));
  }

  /** Every event the panel handles keeps the invariant. */
  lemma StepKeepsInv(catalog: Catalog, s: State, e: Event)
    requires Handles(catalog, s, e) && Inv(s)
    ensures Inv(Step(catalog, s, e))
  {
    match e
    case PickProvider(p) =>
    case PickFidelity(f) =>
    case PickTurnaround(t) =>
    case AddLanguage(c) =>
    case RemoveLanguage(c) =>
      WithoutKeepsNoDup(s.selected, c);
    case Submit =>
  }

  /** Handle a sequence of events; `None` when one of them would make an
      undefined catalog lookup. */
  function Run(catalog: Catalog, s: State, events: seq<Event>): (r: Option<State>)
    ensures events == [] ==> r == Some(s)
    decreases |events|
  {
    if events == [] then Some(s)
    else if Handles(catalog, s, events[0]) then Run(catalog, Step(catalog, s, events[0]), events[1..])
    else None
  }

  /** From the initial state, no sequence of events ever yields a selected
      list with a repeated code. */
  lemma {:induction false} RunKeepsInv(catalog: Catalog, s: State, events: seq<Event>)
    requires Inv(s)
    ensures Run(catalog, s, events).Some? ==> Inv(Run(catalog, s, events).value)
    decreases |events|
  {
    if events != [] && Handles(catalog, s, events[0]) {
      StepKeepsInv(catalog, s, events[0]);
      RunKeepsInv(catalog, Step(catalog, s, events[0]), events[1..]);
    }
  }

  lemma NoDuplicatesEver(catalog: Catalog, plan: Option<Plan>, events: seq<Event>)
    requires Renderable(catalog, Initialize(plan))
    ensures var start := RenderPreferences(catalog, Initialize(plan));
            Run(catalog, start, events).Some? ==> NoDup(Run(catalog, start, events).value.selected)
  {
    InitializeEstablishesInv(plan);
    RenderPreferencesKeepsInv(catalog, Initialize(plan));
    RunKeepsInv(catalog, RenderPreferences(catalog, Initialize(plan)), events);
  }

  /** Adding a language and removing it again restores the selection. */
  lemma AddThenRemoveRestoresSelection(s: State, c: Code)
    requires AcceptsLanguage(s, c)
    ensures LanguageRemoved(LanguageSelected(s, c), c).selected == s.selected
  {
    WithoutConcat(s.selected, [c], c);
    WithoutAbsent(s.selected, c);
    assert Without([c], c) == [];
  }

  /** The menu is shown exactly when some available language is not yet
      selected. */
  lemma MenuShownWhenUnselectedLeft(s: State)
    ensures MenuShown(s) <==> exists c :: c in s.available && c !in s.selected
  {
  }

  /** An accepted language leaves the menu; a rejected one leaves it as it
      was. */
  lemma MenuAfterAdd(s: State, c: Code)
    ensures AcceptsLanguage(s, c) ==> LanguageMenu(LanguageSelected(s, c)) == LanguageMenu(s) - {c}
    ensures !AcceptsLanguage(s, c) ==> LanguageMenu(LanguageSelected(s, c)) == LanguageMenu(s)
  {
  }

  /** A removed language returns to the menu when the plan offers it. */
  lemma MenuAfterRemove(s: State, c: Code)
    ensures c in s.available ==> LanguageMenu(LanguageRemoved(s, c)) == LanguageMenu(s)[c := s.available[c]]
    ensures c !in s.available ==> LanguageMenu(LanguageRemoved(s, c)) == LanguageMenu(s)
  {
  }

  /** Every non-empty code the menu offers is accepted by the add button. */
  lemma MenuOffersAcceptedCodes(s: State, c: Code)
    requires c in LanguageMenu(s) && c != ""
    ensures AcceptsLanguage(s, c)
    ensures LanguageSelected(s, c).selected == s.selected + [c]
  {
  }

  /** The validator demands a turnaround exactly when the turnaround menu
      is offered and nothing is chosen in it; with no menu it flags nothing. */
  lemma TurnaroundRequiredOnlyWhenOffered(catalog: Catalog, s: State)
    requires s.provider == "" || s.provider in catalog
    ensures GetTurnaroundPlan(catalog, s.provider).Some? ==>
      (Validate(s).state.errors.turnaround <==> s.turnaround == "")
    ensures GetTurnaroundPlan(catalog, s.provider).None? ==> Validate(s).state == s
  {
  }

  /** The validator demands a fidelity exactly when the fidelity menu is
      offered and nothing is chosen in it. */
  lemma FidelityRequiredOnlyWhenOffered(catalog: Catalog, s: State)
    requires s.provider == CIELO24 ==> CIELO24 in catalog
    ensures s.provider != "" ==>
      (Validate(s).state.errors.fidelity <==> GetFidelityPlan(catalog, s.provider).Some? && s.fidelity == "")
  {
  }

  /** Choosing a fidelity offers every language of the chosen plan, and
      only those: nothing is selected yet. */
  lemma FidelityOffersWholePlan(catalog: Catalog, s: State, f: string)
    requires s.provider == THREE_PLAY_MEDIA || f != ""
    requires PlanLanguagesDefined(catalog, s.provider, f)
    ensures LanguageMenu(FidelitySelected(catalog, s, f)) == GetPlanLanguages(catalog, s.provider, f)
  {
  }

  /** Choosing 3PlayMedia offers every language of its catalog entry. */
  lemma ThreePlayOffersWholePlan(catalog: Catalog, s: State)
    requires THREE_PLAY_MEDIA in catalog
    ensures LanguageMenu(ProviderSelected(catalog, s, THREE_PLAY_MEDIA))
      == GetPlanLanguages(catalog, THREE_PLAY_MEDIA, "")
  {
  }

  /** A provider other than Cielo24 and 3PlayMedia gets no language menu
      when chosen, so the settings fail validation. */
  lemma OtherProviderOffersNoLanguages(catalog: Catalog, s: State, p: string)
    requires p in catalog && p != "" && p != CIELO24 && p != THREE_PLAY_MEDIA
    ensures !MenuShown(ProviderSelected(catalog, s, p))
    ensures !Validate(ProviderSelected(catalog, s, p)).valid
  {
  }

  /** After a reset the settings are valid, and saving deletes the
      preferences. The reset keeps nothing of the old selection. */
  lemma ResetSavesDeletion(s: State, t: State)
    ensures UpdateCourseVideoSettings(ResetPlanData(s)).request == Some(Delete)
    ensures s.errors == t.errors ==> ResetPlanData(s) == ResetPlanData(t)
  {
  }

  /** A freshly chosen provider cannot be saved: no language is selected,
      and validation flags the languages. */
  lemma NewProviderNeedsLanguages(catalog: Catalog, s: State, p: string)
    requires p in catalog && p != ""
    ensures !Validate(ProviderSelected(catalog, s, p)).valid
    ensures Validate(ProviderSelected(catalog, s, p)).state.errors.languages
    ensures UpdateCourseVideoSettings(ProviderSelected(catalog, s, p)).request.None?
  {
  }

  /** Changing the fidelity of a chosen provider discards the languages, so
      the settings cannot be saved until some are picked again. */
  lemma NewFidelityNeedsLanguages(catalog: Catalog, s: State, f: string)
    requires s.provider != ""
    requires (s.provider == THREE_PLAY_MEDIA || f != "") ==> PlanLanguagesDefined(catalog, s.provider, f)
    ensures !Validate(FidelitySelected(catalog, s, f)).valid
  {
  }

  /** Validation looks only at the selection, so validating twice gives
      the same verdict and the same flags. */
  lemma ValidateIsIdempotent(s: State)
    ensures Validate(Validate(s).state) == Validate(s)
  {
  }

  /** The plan the server echoes back after storing a posted payload. */
  function PlanOf(p: Payload): (r: Plan)
    ensures r.provider == p.provider && r.preferredLanguages == p.preferredLanguages
  {
    Plan(p.provider, p.cielo24Fidelity, p.cielo24Turnaround, p.threePlayTurnaround, p.preferredLanguages)
  }

  /** Saving the settings of Cielo24 or 3PlayMedia and loading the stored
      plan back gives the same provider, fidelity and turnaround, with the
      saved languages as the active ones. */
  lemma SaveReloadRoundTrip(s: State)
    requires s.provider == CIELO24 || s.provider == THREE_PLAY_MEDIA
    ensures SaveRequest(s).Post?
    ensures var loaded := SetActiveTranscriptPlanData(s, Some(PlanOf(SaveRequest(s).payload)));
            && loaded.provider == s.provider
            && loaded.fidelity == s.fidelity
            && loaded.turnaround == s.turnaround
            && loaded.active == s.selected
  {
  }

  /** Any other provider is saved with both turnaround fields empty, so its
      turnaround does not survive a reload. */
  lemma OtherProviderLosesTurnaround(s: State)
    requires s.provider != "" && s.provider != CIELO24 && s.provider != THREE_PLAY_MEDIA
    ensures SetActiveTranscriptPlanData(s, Some(PlanOf(SaveRequest(s).payload))).turnaround == ""
  {
  }

  /** The first render of a loaded plan selects each of the plan's
      languages once, in the plan's order, when languages are shown; and
      none otherwise. */
  lemma FirstRenderSelectsPlanLanguages(catalog: Catalog, plan: Plan)
    requires Renderable(catalog, Initialize(Some(plan)))
    ensures var shown := RenderPreferences(catalog, Initialize(Some(plan)));
            && (LanguagesShown(Initialize(Some(plan))) ==> shown.selected == Dedup(plan.preferredLanguages))
            && (!LanguagesShown(Initialize(Some(plan))) ==> shown.selected == [])
  {
    MergeActiveAppendsNewCodes([], plan.preferredLanguages);
    MinusNothing(plan.preferredLanguages);
  }

  /** While the selected and active lists are one array, an added language
      also becomes active; once a removal splits them, the active list
      still holds it. */
  lemma SharedListsAfterFidelity(catalog: Catalog, s: State, f: string, c: Code)
    requires (s.provider == THREE_PLAY_MEDIA || f != "") ==> PlanLanguagesDefined(catalog, s.provider, f)
    requires c != ""
    ensures var added := LanguageSelected(FidelitySelected(catalog, s, f), c);
            && added.active == [c] && added.selected == [c]
            && LanguageRemoved(added, c).selected == []
            && LanguageRemoved(added, c).active == [c]
  {
  }
}
