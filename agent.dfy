/** The agent configuration page: a cascading provider -> model -> language selection over a
    speech-to-text catalog, with the complete triple kept in the browser's `agentConfig`
    storage slot. */
module AgentConfig {
  import opened Lookup

  // ---------------------------------------------------------------------------------------
  // The catalog, as the page reads it
  // ---------------------------------------------------------------------------------------

  datatype LanguageEntry = LanguageEntry(value: string, name: string)
  datatype ModelEntry = ModelEntry(value: string, name: string, languages: seq<LanguageEntry>)
  datatype ProviderEntry = ProviderEntry(value: string, name: string, models: seq<ModelEntry>)

  function ProviderValue(p: ProviderEntry): string { p.value }
  function ModelValue(m: ModelEntry): string { m.value }
  function LanguageValue(l: LanguageEntry): string { l.value }

  /** `providers.find(p => p.value === v)` */
  function FindProvider(ps: seq<ProviderEntry>, v: string): (r: Option<ProviderEntry>)
    ensures r.Some? ==> r.value in ps && r.value.value == v
    ensures r.Some? ==> exists i :: 0 <= i < |ps| && ps[i] == r.value
                                    && forall j :: 0 <= j < i ==> ps[j].value != v
    ensures r.None? <==> forall j :: 0 <= j < |ps| ==> ps[j].value != v
  {
    match FindFirst(ps, ProviderValue, v)
    case None => None
    case Some(i) => Some(ps[i])
  }

  /** `models.find(m => m.value === v)` */
  function FindModel(ms: seq<ModelEntry>, v: string): (r: Option<ModelEntry>)
    ensures r.Some? ==> r.value in ms && r.value.value == v
    ensures r.Some? ==> exists i :: 0 <= i < |ms| && ms[i] == r.value
                                    && forall j :: 0 <= j < i ==> ms[j].value != v
    ensures r.None? <==> forall j :: 0 <= j < |ms| ==> ms[j].value != v
  {
    match FindFirst(ms, ModelValue, v)
    case None => None
    case Some(i) => Some(ms[i])
  }

  /** `models.some(m => m.value === v)` */
  predicate HasModel(ms: seq<ModelEntry>, v: string)
  {
    FindModel(ms, v).Some?
  }

  /** `languages.some(l => l.value === v)` */
  predicate HasLanguage(ls: seq<LanguageEntry>, v: string)
  {
    FindFirst(ls, LanguageValue, v).Some?
  }

  /** The triple names a provider of the catalog, a model of that provider and a language of
      that model, each looked up the way the page looks it up. */
  predicate Consistent(catalog: seq<ProviderEntry>, provider: string, model: string, language: string)
  {
    match FindProvider(catalog, provider)
    case None => false
    case Some(p) =>
      match FindModel(p.models, model)
      case None => false
      case Some(m) => HasLanguage(m.languages, language)
  }

  // ---------------------------------------------------------------------------------------
  // The three reaction rules, on the values one render sees
  // ---------------------------------------------------------------------------------------

  /** The three selections ("" means unset) and the two derived option lists. */
  datatype Selection = Selection(provider: string, model: string, language: string,
                                 models: seq<ModelEntry>, languages: seq<LanguageEntry>)

  /** What the page writes under the `agentConfig` key. */
  datatype SavedConfig = SavedConfig(provider: string, model: string, language: string)

  /** All three selections are non-empty strings (the truthiness test of the save rule and of
      the save button). */
  predicate Complete(s: Selection)
  {
    s.provider != "" && s.model != "" && s.language != ""
  }

  /** The provider rule: with a selected provider found in a loaded catalog, `models` becomes
      that provider's list, and model and language are cleared when the model is not in it. */
  function ProviderRule(s: Selection, catalog: Option<seq<ProviderEntry>>): (r: Selection)
    ensures r.provider == s.provider && r.languages == s.languages
    ensures s.provider == "" || catalog.None? || FindProvider(catalog.value, s.provider).None? ==> r == s
    ensures s.provider != "" && catalog.Some? && FindProvider(catalog.value, s.provider).Some? ==>
      var p := FindProvider(catalog.value, s.provider).value;
      && r.models == p.models
      && (HasModel(p.models, s.model) ==> r.model == s.model && r.language == s.language)
      && (!HasModel(p.models, s.model) ==> r.model == "" && r.language == "")
  {
    if s.provider != "" && catalog.Some? then
      match FindProvider(catalog.value, s.provider)
      case None => s
      case Some(p) =>
        if HasModel(p.models, s.model) then s.(models := p.models)
        else s.(models := p.models, model := "", language := "")
    else s
  }

  /** The model rule: with a selected model found in a non-empty `models`, `languages` becomes
      that model's list, and the language is cleared when it is not in it. */
  function ModelRule(s: Selection): (r: Selection)
    ensures r.provider == s.provider && r.model == s.model && r.models == s.models
    ensures s.model == "" || |s.models| == 0 || FindModel(s.models, s.model).None? ==> r == s
    ensures s.model != "" && FindModel(s.models, s.model).Some? ==>
      var m := FindModel(s.models, s.model).value;
      && r.languages == m.languages
      && (HasLanguage(m.languages, s.language) ==> r.language == s.language)
      && (!HasLanguage(m.languages, s.language) ==> r.language == "")
  {
    if s.model != "" && |s.models| > 0 then
      match FindModel(s.models, s.model)
      case None => s
      case Some(m) =>
        if HasLanguage(m.languages, s.language) then s.(languages := m.languages)
        else s.(languages := m.languages, language := "")
    else s
  }

  /** The save rule: a complete triple overwrites the stored one; a partial triple leaves the
      stored slot as it was. Membership in the catalog is not consulted. */
  function SaveRule(stored: Option<SavedConfig>, s: Selection): (r: Option<SavedConfig>)
    ensures Complete(s) ==> r == Some(SavedConfig(s.provider, s.model, s.language))
    ensures !Complete(s) ==> r == stored
  {
    if s.provider != "" && s.model != "" && s.language != "" then
      Some(SavedConfig(s.provider, s.model, s.language))
    else stored
  }

  // ---------------------------------------------------------------------------------------
  // Properties of the rules
  // ---------------------------------------------------------------------------------------

  /** Running the provider rule a second time changes nothing. */
  lemma ProviderRuleIdempotent(s: Selection, catalog: Option<seq<ProviderEntry>>)
    ensures ProviderRule(ProviderRule(s, catalog), catalog) == ProviderRule(s, catalog)
  {
  }

  /** Running the model rule a second time changes nothing. */
  lemma ModelRuleIdempotent(s: Selection)
    ensures ModelRule(ModelRule(s)) == ModelRule(s)
  {
  }

  /** The storage slot after one commit per render of `renders`, in order. */
  function SlotAfter(stored: Option<SavedConfig>, renders: seq<Selection>): Option<SavedConfig>
    decreases |renders|
  {
    if renders == [] then stored
    else SaveRule(SlotAfter(stored, renders[..|renders| - 1]), renders[|renders| - 1])
  }

  /** Over any run of commits the slot holds the triple of the last complete render, or what
      it held before the run when no render was complete: a partial triple never overwrites
      or clears it. */
  lemma {:induction false} SlotHoldsLastCompleteTriple(stored: Option<SavedConfig>, renders: seq<Selection>)
    ensures (forall i :: 0 <= i < |renders| ==> !Complete(renders[i])) ==> SlotAfter(stored, renders) == stored
    ensures forall i :: 0 <= i < |renders| && Complete(renders[i])
                        && (forall j :: i < j < |renders| ==> !Complete(renders[j])) ==>
              SlotAfter(stored, renders) == Some(SavedConfig(renders[i].provider, renders[i].model, renders[i].language))
    decreases |renders|
  {
    if renders != [] {
      var n := |renders| - 1;
      var prefix := renders[..n];
      var last := renders[n];
      assert SlotAfter(stored, renders) == SaveRule(SlotAfter(stored, prefix), last);
      if !Complete(last) {
        SlotHoldsLastCompleteTriple(stored, prefix);
        assert SlotAfter(stored, renders) == SlotAfter(stored, prefix);
        forall i | 0 <= i < n && Complete(renders[i]) && (forall j :: i < j < |renders| ==> !Complete(renders[j]))
          ensures SlotAfter(stored, renders) == Some(SavedConfig(renders[i].provider, renders[i].model, renders[i].language))
        {
          assert prefix[i] == renders[i];
          assert forall j :: i < j < n ==> prefix[j] == renders[j];
        }
      }
    }
  }

  /** Once the provider rule has run with a provider found in the catalog and the model rule
      then with a model found among its models, the model belongs to the provider, the
      language is unset or belongs to the model, and neither rule changes anything more. */
  lemma SettledSelection(s: Selection, catalog: seq<ProviderEntry>)
    requires s.provider != "" && FindProvider(catalog, s.provider).Some?
    requires var t := ProviderRule(s, Some(catalog)); t.model != "" && FindModel(t.models, t.model).Some?
    ensures var u := ModelRule(ProviderRule(s, Some(catalog)));
      && HasModel(FindProvider(catalog, s.provider).value.models, u.model)
      && (u.language == "" || HasLanguage(FindModel(u.models, u.model).value.languages, u.language))
      && (u.language != "" ==> Consistent(catalog, u.provider, u.model, u.language))
      && ProviderRule(u, Some(catalog)) == u
      && ModelRule(u) == u
  {
  }

  /** A triple restored before the catalog arrived (so `models` is still empty) is checked
      once the catalog is loaded, over two commits: when the restored provider is in the
      catalog, the model is kept only if that provider offers it, and a language left set
      is one that model offers. A restored provider the catalog does not know is never
      checked: two commits leave the whole selection as restored. */
  lemma RestoredSelectionRevalidated(s: Selection, catalog: seq<ProviderEntry>)
    requires s.models == [] && Complete(s)
    ensures var u := ProviderRule(ModelRule(ProviderRule(ModelRule(s), Some(catalog))), Some(catalog));
      && u.provider == s.provider
      && (FindProvider(catalog, s.provider).Some? ==>
            && (u.model == "" ==> u.language == "")
            && (u.model != "" ==>
                  u.model == s.model && HasModel(FindProvider(catalog, s.provider).value.models, u.model))
            && (u.language != "" ==> Consistent(catalog, u.provider, u.model, u.language)))
      && (FindProvider(catalog, s.provider).None? ==> u == s)
      && (Consistent(catalog, s.provider, s.model, s.language) ==>
            u.provider == s.provider && u.model == s.model && u.language == s.language)
  {
  }

  /** The sample catalog of the back end's constant (its `id` keys read as `value`, each
      language string as both value and name). */
  function SampleCatalog(): seq<ProviderEntry>
  {
    var en := LanguageEntry("English", "English");
    var es := LanguageEntry("Spanish", "Spanish");
    var fr := LanguageEntry("French", "French");
    var de := LanguageEntry("German", "German");
    var ja := LanguageEntry("Japanese", "Japanese");
    [ ProviderEntry("openai", "OpenAI",
        [ ModelEntry("gpt4", "GPT-4", [en, es, fr]),
          ModelEntry("gpt35", "GPT-3.5", [en, de]) ]),
      ProviderEntry("anthropic", "Anthropic",
        [ ModelEntry("claude3", "Claude 3", [en, ja]) ]) ]
  }

  /** The save rule runs in the same commit as the provider rule and reads the same render.
      Switching from a complete, consistent selection to a provider that does not offer the
      selected model stores the new provider with the stale model and language, a triple the
      catalog does not support, while the selection itself is cleared. */
  lemma StaleTripleIsSaved(catalog: seq<ProviderEntry>, s: Selection, stored: Option<SavedConfig>, other: string)
    requires Complete(s) && Consistent(catalog, s.provider, s.model, s.language)
    requires other != "" && FindProvider(catalog, other).Some?
    requires !HasModel(FindProvider(catalog, other).value.models, s.model)
    ensures var switched := s.(provider := other);
      && SaveRule(stored, switched) == Some(SavedConfig(other, s.model, s.language))
      && !Consistent(catalog, other, s.model, s.language)
      && ProviderRule(ModelRule(switched), Some(catalog)).model == ""
      && ProviderRule(ModelRule(switched), Some(catalog)).language == ""
  {
  }

  /** The sample catalog has such a switch: from openai/gpt4/Spanish to anthropic. */
  lemma SampleCatalogHasStaleSwitch()
    ensures Consistent(SampleCatalog(), "openai", "gpt4", "Spanish")
    ensures FindProvider(SampleCatalog(), "anthropic").Some?
    ensures !HasModel(FindProvider(SampleCatalog(), "anthropic").value.models, "gpt4")
  {
  }

  // ---------------------------------------------------------------------------------------
  // The page's state and events
  // ---------------------------------------------------------------------------------------

  datatype Toast = Toast(message: string, kind: string)

  /** How the one catalog request ends. */
  datatype FetchOutcome =
    | Loaded(stt: seq<ProviderEntry>)  // response ok; the `stt` member of the body
    | NotOk(dataError: string)         // response not ok; the body's `error` ("" when absent)
    | Thrown(message: string)          // the request or the body parse threw

  /** The message the page shows when the catalog request fails. */
  function FetchErrorMessage(outcome: FetchOutcome): (msg: string)
    requires !outcome.Loaded?
    ensures outcome.NotOk? && outcome.dataError != "" ==> msg == outcome.dataError
    ensures outcome.NotOk? && outcome.dataError == "" ==> msg == "Failed to load config"
    ensures outcome.Thrown? ==> msg == outcome.message
  {
    match outcome
    case NotOk(e) => if e != "" then e else "Failed to load config"
    case Thrown(m) => m
  }

  class AgentPage {
    var sttConfig: Option<seq<ProviderEntry>>
    var selectedProvider: string
    var selectedModel: string
    var selectedLanguage: string
    var models: seq<ModelEntry>
    var languages: seq<LanguageEntry>
    var loading: bool
    var error: string
    var toast: Option<Toast>
    /** The browser storage slot under the `agentConfig` key. */
    var agentConfig: Option<SavedConfig>

    function Snapshot(): Selection
      reads this
    {
      Selection(selectedProvider, selectedModel, selectedLanguage, models, languages)
    }

    /** Mounting the page over whatever the storage slot holds. */
    constructor (stored: Option<SavedConfig>)
      ensures sttConfig == None && Snapshot() == Selection("", "", "", [], [])
      ensures loading && error == "" && toast == None && agentConfig == stored
    {
      sttConfig := None;
      selectedProvider, selectedModel, selectedLanguage := "", "", "";
      models, languages := [], [];
      loading, error, toast := true, "", None;
      agentConfig := stored;
    }

    /** The mount effect that restores the saved triple. */
    method Restore()
      modifies this`selectedProvider, this`selectedModel, this`selectedLanguage
      ensures agentConfig.Some? ==>
        && selectedProvider == agentConfig.value.provider
        && selectedModel == agentConfig.value.model
        && selectedLanguage == agentConfig.value.language
      ensures agentConfig.None? ==>
        && selectedProvider == old(selectedProvider)
        && selectedModel == old(selectedModel)
        && selectedLanguage == old(selectedLanguage)
    {
      if agentConfig.Some? {
        var saved := agentConfig.value;
        selectedProvider := saved.provider;
        selectedModel := saved.model;
        selectedLanguage := saved.language;
      }
    }

    /** The mount effect's request for the catalog resolving, once, while the page is loading. */
    method LoadCatalog(outcome: FetchOutcome)
      requires loading && sttConfig.None?
      modifies this`sttConfig, this`loading, this`error
      ensures !loading
      ensures outcome.Loaded? ==> sttConfig == Some(outcome.stt) && error == old(error)
      ensures !outcome.Loaded? ==> sttConfig.None? && error == FetchErrorMessage(outcome)
    {
      match outcome
      case Loaded(stt) =>
        sttConfig := Some(stt);
        loading := false;
      case NotOk(_) =>
        error := FetchErrorMessage(outcome);
        loading := false;
      case Thrown(_) =>
        error := FetchErrorMessage(outcome);
        loading := false;
    }

    /** The provider select, on screen once the catalog has loaded without error: it offers ""
        and the values of the loaded catalog's providers. */
    method SelectProvider(v: string)
      requires !loading && error == ""
      requires v == "" || (sttConfig.Some? && FindProvider(sttConfig.value, v).Some?)
      modifies this`selectedProvider
      ensures selectedProvider == v
    {
      selectedProvider := v;
    }

    /** The model select, on screen with the provider select: disabled while no provider is
        selected; it offers "" and `models`. */
    method SelectModel(v: string)
      requires !loading && error == ""
      requires selectedProvider != ""
      requires v == "" || HasModel(models, v)
      modifies this`selectedModel
      ensures selectedModel == v
    {
      selectedModel := v;
    }

    /** The language select, on screen with the provider select: disabled while no model is
        selected; it offers "" and `languages`. */
    method SelectLanguage(v: string)
      requires !loading && error == ""
      requires selectedModel != ""
      requires v == "" || HasLanguage(languages, v)
      modifies this`selectedLanguage
      ensures selectedLanguage == v
    {
      selectedLanguage := v;
    }

    method ApplyProviderRule()
      modifies this`models, this`selectedModel, this`selectedLanguage
      ensures Snapshot() == ProviderRule(old(Snapshot()), sttConfig)
    {
      if selectedProvider != "" && sttConfig.Some? {
        var provider := FindProvider(sttConfig.value, selectedProvider);
        if provider.Some? {
          models := provider.value.models;
          var modelExists := HasModel(provider.value.models, selectedModel);
          if !modelExists {
            selectedModel := "";
            selectedLanguage := "";
          }
        }
      }
    }

    method ApplyModelRule()
      modifies this`languages, this`selectedLanguage
      ensures Snapshot() == ModelRule(old(Snapshot()))
    {
      if selectedModel != "" && |models| > 0 {
        var model := FindModel(models, selectedModel);
        if model.Some? {
          languages := model.value.languages;
          var langExists := HasLanguage(model.value.languages, selectedLanguage);
          if !langExists {
            selectedLanguage := "";
          }
        }
      }
    }

    method ApplySaveRule()
      modifies this`agentConfig
      ensures agentConfig == SaveRule(old(agentConfig), Snapshot())
    {
      if selectedProvider != "" && selectedModel != "" && selectedLanguage != "" {
        agentConfig := Some(SavedConfig(selectedProvider, selectedModel, selectedLanguage));
      }
    }

    /** The rules of one commit. Every rule reads the values of the same render; running the
        save rule, then the model rule, then the provider rule gives that result, because
        none of them reads a value that a rule run before it writes. */
    method Commit()
      modifies this`models, this`languages, this`selectedModel, this`selectedLanguage, this`agentConfig
      ensures Snapshot() == ProviderRule(ModelRule(old(Snapshot())), sttConfig)
      ensures agentConfig == SaveRule(old(agentConfig), old(Snapshot()))
    {
      ApplySaveRule();
      ApplyModelRule();
      ApplyProviderRule();
    }

    /** The save button is enabled exactly when the selection is complete, which is exactly
        when the save rule writes the current triple. */
    function SaveEnabled(): (enabled: bool)
      reads this
      ensures enabled <==> Complete(Snapshot())
      ensures enabled ==> SaveRule(agentConfig, Snapshot())
                            == Some(SavedConfig(selectedProvider, selectedModel, selectedLanguage))
      ensures !enabled ==> SaveRule(agentConfig, Snapshot()) == agentConfig
    {
      !(selectedProvider == "" || selectedModel == "" || selectedLanguage == "")
    }

    /** Pressing the save button, which is on screen once the catalog has loaded and enabled
        only for a complete selection, only shows a toast; storage is not written. */
    method HandleSave()
      requires !loading && error == "" && SaveEnabled()
      modifies this`toast
      ensures toast == Some(Toast("Configuration saved successfully!", "success"))
    {
      toast := Some(Toast("Configuration saved successfully!", "success"));
    }
  }

  /** Choosing a provider, then one of its models, then one of that model's languages, with
      one commit after each choice: each select offers the next value, the selection ends
      settled, and the save rule stores exactly the chosen triple. */
  lemma TopDownSelectionIsSaved(catalog: seq<ProviderEntry>, provider: string, model: string, language: string)
    requires provider != "" && model != "" && language != ""
    requires Consistent(catalog, provider, model, language)
    ensures var p := FindProvider(catalog, provider).value;
      var m := FindModel(p.models, model).value;
      var s1 := ProviderRule(ModelRule(Selection(provider, "", "", [], [])), Some(catalog));
      var s2 := ProviderRule(ModelRule(s1.(model := model)), Some(catalog));
      var s3 := s2.(language := language);
      && s1 == Selection(provider, "", "", p.models, []) && HasModel(s1.models, model)
      && s2 == Selection(provider, model, "", p.models, m.languages) && HasLanguage(s2.languages, language)
      && ProviderRule(ModelRule(s3), Some(catalog)) == s3
      && SaveRule(None, s3) == Some(SavedConfig(provider, model, language))
  {
  }
}
