/**
 * `llm_reply` (main.rs:1430-1455): the saved provider and key choose one of
 * three external adapters; with no saved key the local Phi-3 model answers.
 * The adapters' HTTP exchanges are outside the model: each is a function from
 * its inputs to the `Result` it returns.
 */
module Router {
  import opened Wrappers
  import opened Text
  import opened Credentials

  /** The four LLM back ends, each as the outcome of one call. */
  datatype Adapters = Adapters(
    gemini: (string, string) -> Result<string, string>,
    openai: (string, string) -> Result<string, string>,
    anthropic: (string, string) -> Result<string, string>,
    local: string -> Result<string, string>)

  const LocalName := "local_phi3"

  function UnknownProvider(provider: string): string {
    "Unknown provider '" + provider + "'. Use: gemini | openai | anthropic (claude)."
  }

  /** The call to the adapter the provider names; an unknown name is an error and calls nothing. */
  function External(provider: string, key: string, prompt: string, ad: Adapters): Result<string, string> {
    if provider == "gemini" then ad.gemini(key, prompt)
    else if provider == "openai" then ad.openai(key, prompt)
    else if provider == "anthropic" then ad.anthropic(key, prompt)
    else Err(UnknownProvider(provider))
  }

  /** How `llm_reply` labels an answer or an error from the back end `name`. */
  function Labelled(name: string, ans: Result<string, string>): (r: Result<string, string>)
    ensures r.Ok? <==> ans.Ok?
    ensures r.Ok? ==> StartsWith(r.value, "(LLM: " + name + ")\n") && r.value[|name| + 8..] == ans.value
    ensures r.Err? ==> StartsWith(r.error, "(LLM: " + name + ") Error: ") && r.error[|name| + 15..] == ans.error
  {
    match ans
    case Ok(a) =>
      var v := "(LLM: " + name + ")\n" + a;
      assert v[..|name| + 8] == "(LLM: " + name + ")\n";
      assert v[|name| + 8..] == a;
      Ok(v)
    case Err(e) =>
      var v := "(LLM: " + name + ") Error: " + e;
      assert v[..|name| + 15] == "(LLM: " + name + ") Error: ";
      assert v[|name| + 15..] == e;
      Err(v)
  }

  /**
   * `llm_reply`, given what `get_saved_llm` returned: the external adapter
   * when a provider and key are saved, the local model otherwise.
   */
  function LlmReply(saved: Option<(string, string)>, prompt: string, ad: Adapters): (r: Result<string, string>)
    ensures saved.None? ==> r == Labelled(LocalName, ad.local(prompt))
    ensures saved.Some? ==> r == Labelled(saved.value.0, External(saved.value.0, saved.value.1, prompt, ad))
  {
    match saved
    case Some((provider, key)) => Labelled(provider, External(provider, key, prompt, ad))
    case None => Labelled(LocalName, ad.local(prompt))
  }

  /** With no saved key the answer comes from the local model alone: the external adapters play no part. */
  lemma NoKeyUsesOnlyLocal(prompt: string, ad: Adapters, g: (string, string) -> Result<string, string>,
                           o: (string, string) -> Result<string, string>, a: (string, string) -> Result<string, string>)
    ensures LlmReply(None, prompt, ad.(gemini := g, openai := o, anthropic := a)) == LlmReply(None, prompt, ad)
  {
  }

  /** With a saved key the local model plays no part, even when the external call fails. */
  lemma KeyNeverFallsBackToLocal(provider: string, key: string, prompt: string, ad: Adapters,
                                 local: string -> Result<string, string>)
    ensures LlmReply(Some((provider, key)), prompt, ad.(local := local)) == LlmReply(Some((provider, key)), prompt, ad)
  {
  }

  /** A provider other than the three known ones is an error, whatever the adapters would answer. */
  lemma UnknownProviderIsError(provider: string, key: string, prompt: string, ad: Adapters)
    requires !IsKnownProvider(provider)
    ensures LlmReply(Some((provider, key)), prompt, ad).Err?
    ensures LlmReply(Some((provider, key)), prompt, ad).error
      == "(LLM: " + provider + ") Error: " + UnknownProvider(provider)
  {
  }

  /**
   * The settings report and the router agree: when the report shows
   * "local_phi3" the local model answers, and when it shows "external" the
   * adapter named by the normalized provider does.
   */
  lemma ReportMatchesRoute(key: Option<string>, provider: Option<string>, prompt: string, ad: Adapters)
    ensures RouterLabel(key) == LocalName ==>
      LlmReply(SavedLlmOf(key, provider), prompt, ad) == Labelled(LocalName, ad.local(prompt))
    ensures RouterLabel(key) == "external" ==>
      var p := NormalizeProvider(provider.GetOr(DefaultProvider));
      LlmReply(SavedLlmOf(key, provider), prompt, ad) == Labelled(p, External(p, Trim(key.value), prompt, ad))
  {
  }

  /** After `clear_user_api_key` the local model answers again. */
  lemma ClearedKeyRoutesLocal(prompt: string, ad: Adapters)
    ensures LlmReply(SavedLlmOf(None, None), prompt, ad) == Labelled(LocalName, ad.local(prompt))
  {
  }

  /** After a successful save, replies come from the saved provider's adapter with the trimmed key. */
  lemma SavedKeyRoutesExternal(key: string, prov: string, prompt: string, ad: Adapters)
    requires !IsBlank(key)
    ensures var p := NormalizeProvider(prov);
      LlmReply(SavedLlmOf(Some(Trim(key)), Some(p)), prompt, ad) == Labelled(p, External(p, Trim(key), prompt, ad))
  {
    SavedAfterSave(key, prov);
  }
}
