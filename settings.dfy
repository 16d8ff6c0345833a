/** The settings dialog: how it shows a key, which models it proposes when
    the provider changes, what it shows once the configuration is loaded,
    and when saving is allowed. */
module SettingsDialog {
  import opened Common
  import opened Text
  import opened Config

  /** `maskApiKey`: the empty key shows nothing; any other key shows its
      first four characters, four dots and its last four characters (all of
      a shorter key, twice). */
  function MaskApiKey(key: string): (r: string)
    ensures key == "" ==> r == ""
    ensures key != "" ==>
              var n := if |key| < 4 then |key| else 4;
              r == key[..n] + "...." + key[|key| - n..]
  {
    if key == "" then ""
    else Substring(key, 0, 4) + "...." + Substring(key, |key| - 4, |key|)
  }

  /** A mask shows at most eight characters of the key. */
  lemma {:induction false} MaskLength(key: string)
    requires key != ""
    ensures |MaskApiKey(key)| == 4 + 2 * (if |key| < 4 then |key| else 4) <= 12
  {
  }

  /** The mask depends only on the first and last four characters. */
  lemma {:induction false} MaskSeesOnlyEnds(k1: string, k2: string)
    requires |k1| >= 8 && |k2| >= 8
    requires k1[..4] == k2[..4] && k1[|k1| - 4..] == k2[|k2| - 4..]
    ensures MaskApiKey(k1) == MaskApiKey(k2)
  {
  }

  /** JavaScript's `x || fallback` on a possibly missing string. */
  function OrElse(x: Option<string>, fallback: string): (r: string)
    ensures x.Some? && x.value != "" ==> r == x.value
    ensures x.None? || x.value == "" ==> r == fallback
  {
    if x.Some? && x.value != "" then x.value else fallback
  }

  /** The configuration as the dialog receives it: any field may be missing. */
  datatype Fetched = Fetched(
    apiKey: Option<string>,
    apiProvider: Option<Provider>,
    extractionModel: Option<string>,
    solutionModel: Option<string>,
    debuggingModel: Option<string>)

  /** The three model selections. */
  datatype Models = Models(extraction: string, solution: string, debugging: string)

  /** The `handleProviderChange` rule: switching to the saved provider takes
      each saved model or that provider's default; switching to another
      provider takes its default for all three. */
  function ProviderModels(saved: Option<Fetched>, provider: Provider): (m: Models)
    ensures m.extraction != "" && m.solution != "" && m.debugging != ""
  {
    var d := DefaultModel(provider);
    if saved.Some? && saved.value.apiProvider == Some(provider) then
      Models(OrElse(saved.value.extractionModel, d), OrElse(saved.value.solutionModel, d),
             OrElse(saved.value.debuggingModel, d))
    else Models(d, d, d)
  }

  /** Switching to a provider other than the saved one proposes only that
      provider's default model, which the main process accepts. */
  lemma {:induction false} SwitchAwayUsesDefaults(saved: Option<Fetched>, provider: Provider)
    requires saved.None? || saved.value.apiProvider != Some(provider)
    ensures var m := ProviderModels(saved, provider);
            && m == Models(DefaultModel(provider), DefaultModel(provider), DefaultModel(provider))
            && m.extraction in AllowedModels(provider)
  {
  }

  /** Switching back to the saved provider restores the saved, non-empty
      models, whatever was selected in between. */
  lemma {:induction false} SwitchBackRestoresSaved(saved: Fetched, provider: Provider)
    requires saved.apiProvider == Some(provider)
    requires saved.extractionModel.Some? && saved.extractionModel.value != ""
    requires saved.solutionModel.Some? && saved.solutionModel.value != ""
    requires saved.debuggingModel.Some? && saved.debuggingModel.value != ""
    ensures ProviderModels(Some(saved), provider)
            == Models(saved.extractionModel.value, saved.solutionModel.value, saved.debuggingModel.value)
  {
  }

  /** What the dialog shows once a configuration has arrived: missing fields
      become the empty key, "gemini" and "gemini-2.5-flash". */
  function Shown(f: Fetched): (r: (string, Provider, Models))
    ensures r.0 == OrElse(f.apiKey, "")
    ensures f.apiProvider.None? ==> r.1 == Gemini
    ensures f.apiProvider.Some? ==> r.1 == f.apiProvider.value
    ensures f.extractionModel.None? ==> r.2.extraction == "gemini-2.5-flash"
    ensures r.2 == Models(OrElse(f.extractionModel, "gemini-2.5-flash"), OrElse(f.solutionModel, "gemini-2.5-flash"),
                          OrElse(f.debuggingModel, "gemini-2.5-flash"))
    ensures r.2.extraction != "" && r.2.solution != "" && r.2.debugging != ""
  {
    var d := DefaultModel(Gemini);
    (OrElse(f.apiKey, ""), if f.apiProvider.Some? then f.apiProvider.value else Gemini,
     Models(OrElse(f.extractionModel, d), OrElse(f.solutionModel, d), OrElse(f.debuggingModel, d)))
  }

  /** The dialog's component state. */
  class Dialog {
    var apiKey: string
    var apiProvider: Provider
    var models: Models
    var currentConfig: Option<Fetched>
    var isLoading: bool

    /** The initial `useState` values. */
    constructor ()
      ensures apiKey == "" && apiProvider == Gemini
      ensures models == Models("gemini-2.5-flash", "gemini-2.5-flash", "gemini-2.5-flash")
      ensures currentConfig.None? && !isLoading
    {
      apiKey, apiProvider := "", Gemini;
      models := Models("gemini-2.5-flash", "gemini-2.5-flash", "gemini-2.5-flash");
      currentConfig, isLoading := None, false;
    }

    /** The save button is disabled while loading or with no key. */
    predicate SaveDisabled(): (r: bool)
      reads this
      ensures !r <==> !isLoading && apiKey != ""
    {
      isLoading || apiKey == ""
    }

    /** `handleProviderChange`. */
    method HandleProviderChange(provider: Provider)
      modifies this`apiProvider, this`models
      ensures apiProvider == provider
      ensures models == ProviderModels(currentConfig, provider)
    {
      apiProvider := provider;
      var d := DefaultModel(provider);
      if currentConfig.Some? && currentConfig.value.apiProvider == Some(provider) {
        var saved := currentConfig.value;
        models := Models(OrElse(saved.extractionModel, d), OrElse(saved.solutionModel, d),
                         OrElse(saved.debuggingModel, d));
      } else {
        models := Models(d, d, d);
      }
    }

    /** Opening the dialog starts loading, which disables saving. */
    method BeginLoad()
      modifies this`isLoading
      ensures isLoading && SaveDisabled()
    {
      isLoading := true;
    }

    /** The load finishes: a fetched configuration is shown and remembered as
        the saved one; a failed fetch changes nothing else. Loading ends
        either way, and saving is then allowed exactly when a key is shown. */
    method CompleteLoad(fetched: Option<Fetched>)
      modifies this
      ensures !isLoading
      ensures fetched.None? ==> (apiKey == old(apiKey) && apiProvider == old(apiProvider)
                                 && models == old(models) && currentConfig == old(currentConfig))
      ensures fetched.Some? ==> ((apiKey, apiProvider, models) == Shown(fetched.value)
                                 && currentConfig == fetched)
      ensures SaveDisabled() <==> apiKey == ""
    {
      if fetched.Some? {
        var f := fetched.value;
        var d := DefaultModel(Gemini);
        apiKey := OrElse(f.apiKey, "");
        apiProvider := if f.apiProvider.Some? then f.apiProvider.value else Gemini;
        models := Models(OrElse(f.extractionModel, d), OrElse(f.solutionModel, d), OrElse(f.debuggingModel, d));
        currentConfig := fetched;
      }
      isLoading := false;
    }
  }
}
