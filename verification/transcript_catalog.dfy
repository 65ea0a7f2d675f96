/** The read-only catalog of transcription plans the settings panel is
    configured with, and the lookups the view makes into it. */
module TranscriptCatalog {
  import opened Wrappers
  import opened LanguageLists

  /** Catalog keys of the two providers the view treats specially. */
  const CIELO24: string := "Cielo24"
  const THREE_PLAY_MEDIA: string := "3PlayMedia"

  /** Display names of the languages on offer, keyed by language code. */
  type LanguageNames = map<Code, string>

  /** One fidelity tier of a provider, with the languages it supports. */
  datatype Tier = Tier(displayName: string, languages: LanguageNames)

  /** One provider's entry: turnaround options (key to display name),
      fidelity tiers (only Cielo24 has any) and languages (used for every
      provider except Cielo24, whose languages hang off its tiers). */
  datatype ProviderPlan = ProviderPlan(
    displayName: string,
    turnaround: map<string, string>,
    fidelity: map<string, Tier>,
    languages: LanguageNames)

  /** The catalog, keyed by provider. */
  type Catalog = map<string, ProviderPlan>

  /** The turnaround options to offer: none while no provider is chosen,
      otherwise the chosen provider's. */
  function GetTurnaroundPlan(catalog: Catalog, provider: string): (r: Option<map<string, string>>)
    requires provider == "" || provider in catalog
    ensures r.None? <==> provider == ""
    ensures r.Some? ==> provider in catalog && r.value == catalog[provider].turnaround
  {
    if provider != "" then Some(catalog[provider].turnaround) else None
  }

  /** The fidelity tiers to offer: only Cielo24 has a fidelity choice. */
  function GetFidelityPlan(catalog: Catalog, provider: string): (r: Option<map<string, Tier>>)
    requires provider == CIELO24 ==> CIELO24 in catalog
    ensures r.Some? <==> provider == CIELO24
    ensures r.Some? ==> r.value == catalog[CIELO24].fidelity
  {
    if provider == CIELO24 then Some(catalog[provider].fidelity) else None
  }

  /** The lookups of `GetPlanLanguages` are defined: the provider is in the
      catalog and, for Cielo24, the fidelity names one of its tiers. */
  predicate PlanLanguagesDefined(catalog: Catalog, provider: string, fidelity: string) {
    provider in catalog && (provider == CIELO24 ==> fidelity in catalog[provider].fidelity)
  }

  /** The languages the chosen plan supports: for Cielo24 those of the
      chosen fidelity tier, for any other provider its own list. */
  function GetPlanLanguages(catalog: Catalog, provider: string, fidelity: string): (r: LanguageNames)
    requires PlanLanguagesDefined(catalog, provider, fidelity)
    ensures provider == CIELO24 ==> r == catalog[provider].fidelity[fidelity].languages
    ensures provider != CIELO24 ==> r == catalog[provider].languages
  {
    var plan := catalog[provider];
    if provider == CIELO24 then plan.fidelity[fidelity].languages else plan.languages
  }
}
