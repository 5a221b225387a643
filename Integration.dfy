/** How the pages and the server fit together: the providers catalogue the
    server sends decides the pages' default selection, and what the
    generation page then sends. */
module Integration {
  import opened Wrappers
  import opened Js
  import ProviderChoice
  import GenerateRoute
  import PortfolioGeneration
  import LlmService

  /** The reply of `GET /api/generate/providers`. */
  function CatalogueReply(env: map<string, string>): JsValue {
    Obj(map["providers" := Arr(GenerateRoute.ProvidersTable(env))])
  }

  /** Catalogue entry `k` is the first whose variable is set. */
  predicate FirstConfigured(env: map<string, string>, k: int) {
    && 0 <= k < |GenerateRoute.Catalogue|
    && LlmService.EnvSet(env, GenerateRoute.Catalogue[k].variable)
    && forall j :: 0 <= j < k ==> !LlmService.EnvSet(env, GenerateRoute.Catalogue[j].variable)
  }

  /** Catalogue records are found by their position's availability. */
  lemma RecordsAvailability(env: map<string, string>)
    ensures forall i :: 0 <= i < |GenerateRoute.Catalogue| ==>
      Prop(GenerateRoute.ProvidersTable(env)[i], "available") == Some(Bool(LlmService.EnvSet(env, GenerateRoute.Catalogue[i].variable)))
  {
    forall i | 0 <= i < |GenerateRoute.Catalogue|
      ensures Prop(GenerateRoute.ProvidersTable(env)[i], "available") == Some(Bool(LlmService.EnvSet(env, GenerateRoute.Catalogue[i].variable)))
    {
      GenerateRoute.ProviderAvailability(env, i);
    }
  }

  /** The first configured entry is the first available record. */
  lemma FirstConfiguredIsFirstAvailable(env: map<string, string>, k: int)
    requires FirstConfigured(env, k)
    ensures ProviderChoice.FirstAvailableAt(GenerateRoute.ProvidersTable(env), k)
  {
    RecordsAvailability(env);
  }

  /** A record carries its entry's name and no `defaultModel`. */
  lemma RecordNameAndModel(env: map<string, string>, k: int)
    requires 0 <= k < |GenerateRoute.Catalogue|
    ensures Prop(GenerateRoute.ProvidersTable(env)[k], "name") == Some(Str(GenerateRoute.Catalogue[k].name))
    ensures Prop(GenerateRoute.ProvidersTable(env)[k], "defaultModel") == Some(Undefined)
  {
    var rec := GenerateRoute.ProvidersTable(env)[k];
    assert rec == GenerateRoute.ProviderRecord(GenerateRoute.Catalogue[k], env);
    assert "defaultModel" !in rec.fields;
  }

  /** Either page selects the first provider whose variable is set on the
      server; the catalogue carries no `defaultModel`, so the model becomes
      `undefined`. */
  lemma CatalogueSelectsFirstConfigured(env: map<string, string>, s: ProviderChoice.Selection, k: int)
    requires FirstConfigured(env, k)
    ensures ProviderChoice.FetchProviders(s, Some(CatalogueReply(env)))
      == ProviderChoice.Selection(Arr(GenerateRoute.ProvidersTable(env)), Str(GenerateRoute.Catalogue[k].name), Undefined)
  {
    var items := GenerateRoute.ProvidersTable(env);
    FirstConfiguredIsFirstAvailable(env, k);
    RecordNameAndModel(env, k);
    ProviderChoice.DefaultIsFirstAvailable(s, items, k);
  }

  /** With no variable set, only the list changes. */
  lemma NothingConfiguredKeepsSelection(env: map<string, string>, s: ProviderChoice.Selection)
    requires forall j :: 0 <= j < |GenerateRoute.Catalogue| ==> !LlmService.EnvSet(env, GenerateRoute.Catalogue[j].variable)
    ensures ProviderChoice.FetchProviders(s, Some(CatalogueReply(env))) == s.(providers := Arr(GenerateRoute.ProvidersTable(env)))
  {
    RecordsAvailability(env);
    ProviderChoice.NoneAvailableKeepsSelection(s, GenerateRoute.ProvidersTable(env));
  }

  /** The generation page's selection after loading the catalogue. */
  function LoadedSelection(env: map<string, string>): ProviderChoice.Selection {
    ProviderChoice.FetchProviders(ProviderChoice.Selection(Arr([]), Str("openai"), Str("")), Some(CatalogueReply(env)))
  }

  /** That selection is the first configured provider, or `openai` when
      none is; either way a catalogue entry, with no model. */
  lemma LoadedSelectionIsCatalogued(env: map<string, string>) returns (k: int)
    ensures 0 <= k < |GenerateRoute.Catalogue|
    ensures LoadedSelection(env).providers == Arr(GenerateRoute.ProvidersTable(env))
    ensures LoadedSelection(env).provider == Str(GenerateRoute.Catalogue[k].name)
    ensures !Truthy(LoadedSelection(env).model)
  {
    if exists j :: FirstConfigured(env, j) {
      k :| FirstConfigured(env, k);
      CatalogueSelectsFirstConfigured(env, ProviderChoice.Selection(Arr([]), Str("openai"), Str("")), k);
    } else {
      NoneConfigured(env);
      NothingConfiguredKeepsSelection(env, ProviderChoice.Selection(Arr([]), Str("openai"), Str("")));
      k := 0;
    }
  }

  /** Any catalogue entry selected without a model can be generated with:
      the records list no models. */
  lemma CatalogueEntryEnabled(env: map<string, string>, k: int, model: JsValue)
    requires 0 <= k < |GenerateRoute.Catalogue| && !Truthy(model)
    ensures PortfolioGeneration.GenerateDisabled(false, Str(GenerateRoute.Catalogue[k].name), model, Arr(GenerateRoute.ProvidersTable(env))) == Some(false)
  {
    var items := GenerateRoute.ProvidersTable(env);
    var name := Str(GenerateRoute.Catalogue[k].name);
    GenerateRoute.CatalogueNamesDistinct();
    forall i | 0 <= i < k
      ensures Prop(items[i], "name").Some? && Prop(items[i], "name").value != name
    {
      assert items[i] == GenerateRoute.ProviderRecord(GenerateRoute.Catalogue[i], env);
    }
    assert items[k] == GenerateRoute.ProviderRecord(GenerateRoute.Catalogue[k], env);
    assert Prop(items[k], "models") == Some(Undefined);
    PortfolioGeneration.DisabledNeedsModelOnlyWithModels(name, model, items, k);
  }

  /** On the generation page the catalogue never blocks the Generate
      button, and no request the page then sends names a model, so an
      `openrouter` request gets the fallback content. */
  lemma LoadedPageSendsNoModel(env: map<string, string>, style: string, streaming: bool, temperature: string, maxTokens: string)
    ensures var s := LoadedSelection(env);
      PortfolioGeneration.GenerateDisabled(false, s.provider, s.model, s.providers) == Some(false)
    ensures var s := LoadedSelection(env);
      PortfolioGeneration.Lookup(PortfolioGeneration.QueryParams(s.provider, style, s.model, streaming, temperature, maxTokens), "model") == None
  {
    var s := LoadedSelection(env);
    var k := LoadedSelectionIsCatalogued(env);
    CatalogueEntryEnabled(env, k, s.model);
    PortfolioGeneration.QueryParamsOptional(s.provider, style, s.model, streaming, temperature, maxTokens);
  }

  /** When no entry is the first configured one, none is configured. */
  lemma NoneConfigured(env: map<string, string>)
    requires !exists j :: FirstConfigured(env, j)
    ensures forall j :: 0 <= j < |GenerateRoute.Catalogue| ==> !LlmService.EnvSet(env, GenerateRoute.Catalogue[j].variable)
  {
    forall j | 0 <= j < |GenerateRoute.Catalogue|
      ensures !LlmService.EnvSet(env, GenerateRoute.Catalogue[j].variable)
    {
      NoneConfiguredBelow(env, j);
    }
  }

  lemma {:induction false} NoneConfiguredBelow(env: map<string, string>, j: nat)
    requires !exists i :: FirstConfigured(env, i)
    requires j < |GenerateRoute.Catalogue|
    ensures forall i :: 0 <= i <= j ==> !LlmService.EnvSet(env, GenerateRoute.Catalogue[i].variable)
  {
    if j > 0 {
      NoneConfiguredBelow(env, j - 1);
    }
    assert !FirstConfigured(env, j);
  }
}
