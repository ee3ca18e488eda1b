/**
 * `redact_secrets` (main.rs:1109-1119): the filter the HTTP adapters apply to
 * error bodies. It writes a marker right after each "AIza" (Google keys) and
 * each "sk-" (OpenAI-style keys); the characters of the key that follow the
 * prefix stay in the text.
 */
module Redaction {
  import opened Text

  const Marker := "***REDACTED***"
  const GooglePrefix := "AIza"
  const OpenAiPrefix := "sk-"

  function RedactSecrets(s: string): string {
    var out := if Contains(s, GooglePrefix) then ReplaceAll(s, GooglePrefix, GooglePrefix + Marker) else s;
    if Contains(out, OpenAiPrefix) then ReplaceAll(out, OpenAiPrefix, OpenAiPrefix + Marker) else out
  }

  /** A text with neither prefix passes through unchanged. */
  lemma RedactWithoutPrefixes(s: string)
    requires !Contains(s, GooglePrefix) && !Contains(s, OpenAiPrefix)
    ensures RedactSecrets(s) == s
  {
  }

  /** A prefix none of whose later characters equals its first one. */
  predicate Unbordered(pat: string) {
    pat != [] && forall j :: 0 < j < |pat| ==> pat[j] != pat[0]
  }

  /** Where `pat` starts at `k`, the characters there spell `pat`. */
  lemma StartsWithAt(s: string, pat: string, k: nat, j: nat)
    requires k <= |s| && StartsWith(s[k..], pat) && j < |pat|
    ensures k + j < |s| && s[k + j] == pat[j]
  {
    assert s[k..][j] == pat[j];
  }

  /** An occurrence of an unbordered `pat` that starts inside `a` lies inside `a`. */
  lemma NoEarlierMatch(a: string, pat: string, key: string)
    requires Unbordered(pat) && !Contains(a, pat)
    ensures forall k :: 0 <= k < |a| ==> !StartsWith((a + pat + key)[k..], pat)
  {
    var s := a + pat + key;
    forall k | 0 <= k < |a|
      ensures !StartsWith(s[k..], pat)
    {
      if StartsWith(s[k..], pat) {
        if k + |pat| <= |a| {
          assert a[k..k + |pat|] == s[k..][..|pat|];
          ContainsAt(a, pat, k);
        } else {
          StartsWithAt(s, pat, k, |a| - k);
        }
      }
    }
  }

  /** One pass of `redact_secrets`: the marker after every occurrence of `pat`. */
  function MarkAfter(s: string, pat: string): string
    requires pat != []
  {
    ReplaceAll(s, pat, pat + Marker)
  }

  /**
   * The `contains` guards only skip passes that would change nothing, so
   * `redact_secrets` is the Google pass followed by the OpenAI pass.
   */
  lemma RedactIsTwoPasses(s: string)
    ensures RedactSecrets(s) == MarkAfter(MarkAfter(s, GooglePrefix), OpenAiPrefix)
  {
    if !Contains(s, GooglePrefix) {
      ReplaceAbsent(s, GooglePrefix, GooglePrefix + Marker);
    }
    var out := MarkAfter(s, GooglePrefix);
    if !Contains(out, OpenAiPrefix) {
      ReplaceAbsent(out, OpenAiPrefix, OpenAiPrefix + Marker);
    }
  }

  lemma Regroup(a: string, p: string, m: string, r: string)
    ensures a + (p + m + r) == a + p + m + r
    ensures a + (p + m) + r == a + p + m + r
  {
  }

  /**
   * A pass marks the first occurrence of an unbordered `pat` and goes on
   * after it: the text before is kept and the marker follows the prefix.
   */
  lemma MarkFirst(a: string, pat: string, b: string)
    requires Unbordered(pat) && !Contains(a, pat)
    ensures MarkAfter(a + pat + b, pat) == a + pat + Marker + MarkAfter(b, pat)
  {
    NoEarlierMatch(a, pat, b);
    ReplaceAtFirst(a, pat, pat + Marker, b);
    Regroup(a, pat, Marker, MarkAfter(b, pat));
  }

  /**
   * Replacing an unbordered `pat` that occurs exactly once writes the marker
   * right after it and changes nothing else.
   */
  lemma MarkSingle(a: string, pat: string, key: string)
    requires Unbordered(pat) && !Contains(a, pat) && !Contains(key, pat)
    ensures Contains(a + pat + key, pat)
    ensures MarkAfter(a + pat + key, pat) == a + pat + Marker + key
  {
    ContainsAt(a + pat + key, pat, |a|);
    MarkFirst(a, pat, key);
    ReplaceAbsent(key, pat, pat + Marker);
  }

  /**
   * Undoing a pass: turning every `pat + Marker` back into `pat` gives the
   * original text, so a pass inserts markers and nothing else.
   */
  lemma {:induction false} UnmarkPass(s: string, pat: string)
    requires Unbordered(pat)
    ensures ReplaceAll(MarkAfter(s, pat), pat + Marker, pat) == s
    decreases |s|
  {
    if !Contains(s, pat) {
      ReplaceAbsent(s, pat, pat + Marker);
      if Contains(s, pat + Marker) {
        ContainsPrefixOf(s, pat, Marker);
      }
      ReplaceAbsent(s, pat + Marker, pat);
    } else {
      var a, b := SplitAtFirst(s, pat);
      var rest := MarkAfter(b, pat);
      MarkFirst(a, pat, b);
      Regroup(a, pat, Marker, rest);
      UnmarkFirst(a, pat, rest);
      UnmarkPass(b, pat);
    }
  }

  /** Undoing a pass at the first marked prefix keeps the text before it. */
  lemma UnmarkFirst(a: string, pat: string, rest: string)
    requires Unbordered(pat) && !Contains(a, pat)
    ensures ReplaceAll(a + (pat + Marker) + rest, pat + Marker, pat) ==
      a + (pat + ReplaceAll(rest, pat + Marker, pat))
  {
    var t := a + (pat + Marker) + rest;
    Regroup(a, pat, Marker, rest);
    NoEarlierMatch(a, pat, Marker + rest);
    forall k | 0 <= k < |a|
      ensures !StartsWith(t[k..], pat + Marker)
    {
      assert t == a + pat + (Marker + rest);
      if |pat + Marker| <= |t[k..]| {
        assert t[k..][..|pat|] == t[k..][..|pat + Marker|][..|pat|];
      }
    }
    ReplaceAtFirst(a, pat + Marker, pat, rest);
  }

  /**
   * Redaction only inserts markers: removing the markers after "sk-" and
   * then after "AIza" gives back the original text, whatever it holds.
   */
  lemma RedactOnlyMarks(s: string)
    ensures ReplaceAll(ReplaceAll(RedactSecrets(s), OpenAiPrefix + Marker, OpenAiPrefix), GooglePrefix + Marker, GooglePrefix) == s
  {
    assert Unbordered(GooglePrefix);
    assert Unbordered(OpenAiPrefix);
    RedactIsTwoPasses(s);
    UnmarkPass(MarkAfter(s, GooglePrefix), OpenAiPrefix);
    UnmarkPass(s, GooglePrefix);
  }

  /**
   * An "sk-" key is marked, not masked: the marker goes right after its
   * prefix, the key material follows unchanged and every later "sk-" is
   * marked the same way.
   */
  lemma RedactOpenAiKey(a: string, key: string)
    requires !Contains(a + OpenAiPrefix + key, GooglePrefix)
    requires !Contains(a, OpenAiPrefix)
    ensures RedactSecrets(a + OpenAiPrefix + key) == a + OpenAiPrefix + Marker + MarkAfter(key, OpenAiPrefix)
  {
    assert Unbordered(OpenAiPrefix);
    RedactIsTwoPasses(a + OpenAiPrefix + key);
    ReplaceAbsent(a + OpenAiPrefix + key, GooglePrefix, GooglePrefix + Marker);
    MarkFirst(a, OpenAiPrefix, key);
  }

  /**
   * A Google key is marked the same way by the first pass, and every later
   * "AIza" too; the second pass then marks the "sk-" prefixes of the result.
   */
  lemma RedactGoogleKey(a: string, key: string)
    requires !Contains(a, GooglePrefix)
    ensures RedactSecrets(a + GooglePrefix + key) ==
      MarkAfter(a + GooglePrefix + Marker + MarkAfter(key, GooglePrefix), OpenAiPrefix)
  {
    assert Unbordered(GooglePrefix);
    RedactIsTwoPasses(a + GooglePrefix + key);
    MarkFirst(a, GooglePrefix, key);
  }
}
