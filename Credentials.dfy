/**
 * The single-row `user_settings` table: the user's external LLM key and
 * provider (main.rs:301-333, 790-861). A key that is present and not blank
 * sends every LLM call to the external provider; otherwise the local model
 * answers.
 */
module Credentials {
  import opened Wrappers
  import opened Text

  const DefaultProvider := "gemini"
  const EmptyKeyError := "❌ API key is empty."
  const KeySaved := "✅ Saved key. LLM will switch to external provider automatically."
  const KeyCleared := "✅ Cleared key. LLM will use local Phi-3 (offline) again."

  /** A provider name in the form `normalize_provider` produces: trimmed, no upper-case ASCII. */
  predicate IsCanonical(p: string) {
    IsTrimmed(p) && ToLower(p) == p
  }

  /** A non-empty word of lower-case ASCII letters is already in canonical form. */
  lemma LowerWordCanonical(w: string)
    requires w != [] && forall k :: 0 <= k < |w| ==> 'a' <= w[k] <= 'z'
    ensures IsCanonical(w)
  {
    assert ToLower(w) == w;
  }

  /** The alias table of `normalize_provider`, applied to an already trimmed, lower-cased name. */
  function ProviderAlias(s: string): (r: string)
    ensures s in {"gemini", "google"} ==> r == "gemini"
    ensures s in {"openai", "gpt"} ==> r == "openai"
    ensures s in {"claude", "anthropic"} ==> r == "anthropic"
    ensures s !in {"gemini", "google", "openai", "gpt", "claude", "anthropic"} ==> r == s
    ensures IsCanonical(s) ==> IsCanonical(r)
  {
    if s == "gemini" || s == "google" then LowerWordCanonical("gemini"); "gemini"
    else if s == "openai" || s == "gpt" then LowerWordCanonical("openai"); "openai"
    else if s == "claude" || s == "anthropic" then LowerWordCanonical("anthropic"); "anthropic"
    else s
  }

  /**
   * `normalize_provider`: trim, lower-case, then map the aliases google,
   * gpt and claude onto gemini, openai and anthropic. Any other name passes
   * through; the router rejects it later.
   */
  function NormalizeProvider(p: string): (r: string)
    ensures ToLower(Trim(p)) in {"gemini", "google"} ==> r == "gemini"
    ensures ToLower(Trim(p)) in {"openai", "gpt"} ==> r == "openai"
    ensures ToLower(Trim(p)) in {"claude", "anthropic"} ==> r == "anthropic"
    ensures ToLower(Trim(p)) !in {"gemini", "google", "openai", "gpt", "claude", "anthropic"} ==> r == ToLower(Trim(p))
    ensures IsCanonical(r)
  {
    var s := ToLower(Trim(p));
    ToLowerKeepsTrimmed(Trim(p));
    ToLowerIdempotent(Trim(p));
    ProviderAlias(s)
  }

  lemma CanonicalIsFixed(p: string)
    requires IsCanonical(p)
    ensures ToLower(Trim(p)) == p
  {
    TrimOfTrimmed(p);
  }

  /** Mapping an alias a second time changes nothing. */
  lemma AliasIdempotent(s: string)
    ensures ProviderAlias(ProviderAlias(s)) == ProviderAlias(s)
  {
  }

  /** Normalizing a normalized name changes nothing. */
  lemma NormalizeIdempotent(p: string)
    ensures NormalizeProvider(NormalizeProvider(p)) == NormalizeProvider(p)
  {
    var s := ToLower(Trim(p));
    var r := NormalizeProvider(p);
    assert r == ProviderAlias(s);
    CanonicalIsFixed(r);
    assert NormalizeProvider(r) == ProviderAlias(r);
    AliasIdempotent(s);
  }

  /** The three names the router knows. */
  predicate IsKnownProvider(p: string) {
    p == "gemini" || p == "openai" || p == "anthropic"
  }

  /** The alias table yields a known provider exactly for the six accepted spellings. */
  lemma AliasRecognizes(s: string)
    ensures IsKnownProvider(ProviderAlias(s)) <==> s in ["gemini", "google", "openai", "gpt", "claude", "anthropic"]
  {
  }

  /** A name normalizes to a known provider exactly when it is one of the six accepted spellings. */
  lemma NormalizeRecognizes(p: string)
    ensures IsKnownProvider(NormalizeProvider(p)) <==>
      ToLower(Trim(p)) in ["gemini", "google", "openai", "gpt", "claude", "anthropic"]
  {
    assert NormalizeProvider(p) == ProviderAlias(ToLower(Trim(p)));
    AliasRecognizes(ToLower(Trim(p)));
  }

  /**
   * `get_saved_llm` on the stored row: no provider and key pair when the key is
   * NULL or blank; otherwise the trimmed key with the normalized provider,
   * gemini when none is stored.
   */
  function SavedLlmOf(key: Option<string>, provider: Option<string>): (r: Option<(string, string)>)
    ensures r.None? <==> key.None? || IsBlank(key.value)
    ensures r.Some? ==> r.value.1 == Trim(key.value) && r.value.1 != []
    ensures r.Some? ==> r.value.0 == NormalizeProvider(provider.GetOr(DefaultProvider))
  {
    match key
    case None => None
    case Some(k) =>
      var t := Trim(k);
      if t == [] then None else Some((NormalizeProvider(provider.GetOr(DefaultProvider)), t))
  }

  /** The router line of `get_user_settings`. */
  function RouterLabel(key: Option<string>): string {
    if key.Some? && Trim(key.value) != [] then "external" else "local_phi3"
  }

  /** The router line says "external" exactly when `get_saved_llm` yields a key. */
  lemma RouterLabelMatchesSaved(key: Option<string>, provider: Option<string>)
    ensures RouterLabel(key) == "external" <==> SavedLlmOf(key, provider).Some?
  {
  }

  /**
   * `get_user_settings`: whether a key is set, the stored provider as it is,
   * and which router will answer, on the last line.
   */
  function SettingsReport(key: Option<string>, provider: Option<string>): (r: string)
    ensures StartsWith(r, "llm_api_key: ")
    ensures EndsWith(r, "\nrouter: " + RouterLabel(key))
  {
    var isSet := key.Some? && Trim(key.value) != [];
    var mid := (if isSet then "✅ set" else "❌ not set") + "\nllm_provider: " + provider.GetOr("(none)");
    var tail := "\nrouter: " + RouterLabel(key);
    Framed("llm_api_key: ", mid, tail);
    "llm_api_key: " + mid + tail
  }

  /** The `user_settings` row with id 1. */
  class UserSettings {
    var apiKey: Option<string>
    var provider: Option<string>
    var updatedAt: Option<nat>

    /** The row as `ensure_user_settings_table` inserts it. */
    constructor()
      ensures apiKey == None && provider == None && updatedAt == None
    {
      apiKey := None;
      provider := None;
      updatedAt := None;
    }

    /**
     * `save_user_api_key`: a blank key is refused and nothing is written;
     * otherwise the trimmed key and the normalized provider are stored
     * (`SavedAfterSave` shows that `get_saved_llm` then yields that pair).
     */
    method SaveUserApiKey(key: string, prov: string, now: nat) returns (r: Result<string, string>)
      modifies this
      ensures IsBlank(key) ==> r == Err(EmptyKeyError) && unchanged(this)
      ensures !IsBlank(key) ==>
        r == Ok(KeySaved) && apiKey == Some(Trim(key)) && provider == Some(NormalizeProvider(prov)) && updatedAt == Some(now)
    {
      var k := Trim(key);
      if k == [] {
        return Err(EmptyKeyError);
      }
      var p := NormalizeProvider(prov);
      Store(k, p, now);
      r := Ok(KeySaved);
    }

    /** The `UPDATE user_settings` that stores a key. */
    method Store(k: string, p: string, now: nat)
      modifies this
      ensures apiKey == Some(k) && provider == Some(p) && updatedAt == Some(now)
    {
      apiKey, provider, updatedAt := Some(k), Some(p), Some(now);
    }

    /** `clear_user_api_key`: both fields become NULL, so the local model answers again. */
    method ClearUserApiKey(now: nat) returns (r: Result<string, string>)
      modifies this
      ensures apiKey == None && provider == None && updatedAt == Some(now)
      ensures SavedLlmOf(apiKey, provider) == None && RouterLabel(apiKey) == "local_phi3"
      ensures r == Ok(KeyCleared)
    {
      apiKey, provider, updatedAt := None, None, Some(now);
      r := Ok(KeyCleared);
    }
  }

  /** What `save_user_api_key` stores, `get_saved_llm` reads back unchanged. */
  lemma SavedAfterSave(key: string, prov: string)
    requires !IsBlank(key)
    ensures SavedLlmOf(Some(Trim(key)), Some(NormalizeProvider(prov))) == Some((NormalizeProvider(prov), Trim(key)))
  {
    TrimIdempotent(key);
    NormalizeIdempotent(prov);
  }
}
