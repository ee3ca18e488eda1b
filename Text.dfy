/**
 * The part of Rust's `str` API the application relies on: `trim`,
 * `to_lowercase`, `starts_with`, `contains`, `replace`, `lines` and `join`.
 */
module Text {

  /** Unicode White_Space, the set `char::is_whitespace` (and so `str::trim`) uses. */
  predicate IsSpace(c: char) {
    ('\t' <= c <= '\r') || c == ' ' || c == '\U{85}' || c == '\U{A0}' || c == '\U{1680}'
    || ('\U{2000}' <= c <= '\U{200A}') || c == '\U{2028}' || c == '\U{2029}'
    || c == '\U{202F}' || c == '\U{205F}' || c == '\U{3000}'
  }

  predicate IsBlank(s: string) {
    forall i :: 0 <= i < |s| ==> IsSpace(s[i])
  }

  /** Neither starts nor ends with white space. */
  predicate IsTrimmed(s: string) {
    s == [] || (!IsSpace(s[0]) && !IsSpace(s[|s| - 1]))
  }

  lemma BlankCons(c: char, t: string)
    requires IsSpace(c) && IsBlank(t)
    ensures IsBlank([c] + t)
  {
  }

  function TrimStart(s: string): (r: string)
    ensures |r| <= |s| && r == s[|s| - |r|..]
    ensures r == [] || !IsSpace(r[0])
    ensures IsBlank(s[..|s| - |r|])
  {
    if |s| > 0 && IsSpace(s[0]) then
      var r := TrimStart(s[1..]);
      assert s[..|s| - |r|] == [s[0]] + s[1..][..|s[1..]| - |r|];
      BlankCons(s[0], s[1..][..|s[1..]| - |r|]);
      r
    else s
  }

  function TrimEnd(s: string): (r: string)
    ensures |r| <= |s| && r == s[..|r|]
    ensures r == [] || !IsSpace(r[|r| - 1])
    ensures IsBlank(s[|r|..])
  {
    if |s| > 0 && IsSpace(s[|s| - 1]) then
      var r := TrimEnd(s[..|s| - 1]);
      assert s[|r|..] == s[..|s| - 1][|r|..] + [s[|s| - 1]];
      r
    else s
  }

  /** `str::trim`: drops white space at both ends; only white space is dropped. */
  function Trim(s: string): (r: string)
    ensures IsTrimmed(r)
    ensures r == [] <==> IsBlank(s)
  {
    var t := TrimStart(s);
    var r := TrimEnd(t);
    var i := |s| - |t|;
    assert r == [] ==> IsBlank(s) by {
      if r == [] {
        assert t[|r|..] == t;
        assert s == s[..i] + t;
      }
    }
    r
  }

  lemma TrimOfTrimmed(s: string)
    requires IsTrimmed(s)
    ensures Trim(s) == s
  {
    assert TrimStart(s) == s;
    assert TrimEnd(s) == s;
  }

  lemma TrimIdempotent(s: string)
    ensures Trim(Trim(s)) == Trim(s)
  {
    TrimOfTrimmed(Trim(s));
  }

  function LowerChar(c: char): char {
    if 'A' <= c <= 'Z' then (c as int + 32) as char else c
  }

  /** `str::to_lowercase` on the ASCII letters; every other character is kept. */
  function ToLower(s: string): (r: string)
    ensures |r| == |s|
  {
    seq(|s|, i requires 0 <= i < |s| => LowerChar(s[i]))
  }

  lemma ToLowerIdempotent(s: string)
    ensures ToLower(ToLower(s)) == ToLower(s)
  {
  }

  /** Lower-casing changes no white space, so it keeps a trimmed string trimmed. */
  lemma ToLowerKeepsTrimmed(s: string)
    requires IsTrimmed(s)
    ensures IsTrimmed(ToLower(s))
  {
  }

  predicate StartsWith(s: string, p: string) {
    |p| <= |s| && s[..|p|] == p
  }

  predicate EndsWith(s: string, p: string) {
    |p| <= |s| && s[|s| - |p|..] == p
  }

  /** Extending the tail of a text extends the text by the same amount. */
  lemma AppendToTail(head: string, tail: string, extra: string, tail': string)
    requires tail' == tail + extra
    ensures head + tail' == (head + tail) + extra
  {
  }

  /** A text built as `a + m + t` starts with `a` and ends with `t`. */
  lemma Framed(a: string, m: string, t: string)
    ensures StartsWith(a + m + t, a) && EndsWith(a + m + t, t)
  {
    assert (a + m + t)[..|a|] == a;
    assert (a + m + t)[|a + m|..] == t;
  }

  /** `str::contains` for a string pattern. */
  predicate Contains(s: string, p: string)
    decreases |s|
  {
    StartsWith(s, p) || (|s| > 0 && Contains(s[1..], p))
  }

  lemma {:induction false} ContainsAt(s: string, p: string, i: nat)
    requires i + |p| <= |s| && s[i..i + |p|] == p
    ensures Contains(s, p)
    decreases i
  {
    if i > 0 {
      assert s[1..][i - 1..i - 1 + |p|] == s[i..i + |p|];
      ContainsAt(s[1..], p, i - 1);
    }
  }

  /**
   * `str::replace`: every non-overlapping occurrence of `pat`, found left to
   * right, becomes `rep`.
   */
  function ReplaceAll(s: string, pat: string, rep: string): string
    requires pat != []
    decreases |s|
  {
    if |s| < |pat| then s
    else if s[..|pat|] == pat then rep + ReplaceAll(s[|pat|..], pat, rep)
    else [s[0]] + ReplaceAll(s[1..], pat, rep)
  }

  lemma {:induction false} ReplaceAbsent(s: string, pat: string, rep: string)
    requires pat != [] && !Contains(s, pat)
    ensures ReplaceAll(s, pat, rep) == s
    decreases |s|
  {
    if |s| >= |pat| {
      ReplaceAbsent(s[1..], pat, rep);
    }
  }

  /**
   * `replace` copies everything before the first occurrence of `pat`, writes
   * `rep` in its place and goes on after it.
   */
  lemma {:induction false} ReplaceAtFirst(a: string, pat: string, rep: string, b: string)
    requires pat != []
    requires forall k :: 0 <= k < |a| ==> !StartsWith((a + pat + b)[k..], pat)
    ensures ReplaceAll(a + pat + b, pat, rep) == a + (rep + ReplaceAll(b, pat, rep))
    decreases |a|
  {
    var s := a + pat + b;
    var t := rep + ReplaceAll(b, pat, rep);
    if a == [] {
      assert s == pat + b;
      assert s[..|pat|] == pat && s[|pat|..] == b;
    } else {
      var s' := a[1..] + pat + b;
      assert s[0..] == s;
      assert s[1..] == s';
      assert s[..|pat|] != pat;
      forall k | 0 <= k < |a[1..]|
        ensures !StartsWith(s'[k..], pat)
      {
        assert s'[k..] == s[k + 1..];
      }
      ReplaceAtFirst(a[1..], pat, rep, b);
      assert ReplaceAll(s, pat, rep) == [a[0]] + (a[1..] + t);
      assert [a[0]] + (a[1..] + t) == ([a[0]] + a[1..]) + t;
      assert [a[0]] + a[1..] == a;
    }
  }

  lemma PrefixOfPrefix(a: string, b: string, n: nat)
    requires n <= |a|
    ensures (a + b)[..n] == a[..n]
  {
  }

  /** A text that contains `pat` splits at its first occurrence. */
  lemma {:induction false} SplitAtFirst(s: string, pat: string) returns (a: string, b: string)
    requires pat != [] && Contains(s, pat)
    ensures s == a + pat + b && !Contains(a, pat)
    decreases |s|
  {
    if StartsWith(s, pat) {
      a, b := [], s[|pat|..];
      assert s == s[..|pat|] + s[|pat|..];
    } else {
      var a', b' := SplitAtFirst(s[1..], pat);
      a, b := [s[0]] + a', b';
      assert s == a + (pat + b);
      if |pat| <= |a| {
        PrefixOfPrefix(a, pat + b, |pat|);
      }
      assert a[1..] == a';
    }
  }

  /** A text that contains `p + q` contains `p`. */
  lemma {:induction false} ContainsPrefixOf(s: string, p: string, q: string)
    requires Contains(s, p + q)
    ensures Contains(s, p)
    decreases |s|
  {
    if StartsWith(s, p + q) {
      assert s[..|p|] == (p + q)[..|p|];
    } else {
      ContainsPrefixOf(s[1..], p, q);
    }
  }

  /** Position of the first `c` in `s`, or `|s|` when there is none. */
  function IndexOf(s: string, c: char): (i: nat)
    ensures i <= |s|
    ensures i < |s| ==> s[i] == c
    ensures forall k :: 0 <= k < i ==> s[k] != c
  {
    if s == [] then 0
    else if s[0] == c then 0
    else 1 + IndexOf(s[1..], c)
  }

  function DropCarriageReturn(s: string): string {
    if |s| > 0 && s[|s| - 1] == '\r' then s[..|s| - 1] else s
  }

  /**
   * `str::lines`: split at "\n" or "\r\n"; a final line ending does not
   * start another (empty) line.
   */
  function Lines(s: string): seq<string>
    decreases |s|
  {
    if s == [] then []
    else
      var i := IndexOf(s, '\n');
      if i == |s| then [s]
      else [DropCarriageReturn(s[..i])] + Lines(s[i + 1..])
  }

  /** `[&str]::join(sep)`. */
  function Join(parts: seq<string>, sep: string): string {
    if parts == [] then []
    else if |parts| == 1 then parts[0]
    else parts[0] + sep + Join(parts[1..], sep)
  }

  /** A line that `Lines` gives back unchanged. */
  predicate IsPlainLine(l: string) {
    l != [] && '\n' !in l && l[|l| - 1] != '\r'
  }

  /** `Lines` cuts at the first line break. */
  lemma LinesAt(s: string, i: nat)
    requires i < |s| && s[i] == '\n'
    requires forall k :: 0 <= k < i ==> s[k] != '\n'
    ensures Lines(s) == [DropCarriageReturn(s[..i])] + Lines(s[i + 1..])
  {
    assert IndexOf(s, '\n') == i;
  }

  /** A plain line followed by a line break comes back as the first line. */
  lemma LinesOfCons(l: string, rest: string)
    requires IsPlainLine(l)
    ensures Lines(l + "\n" + rest) == [l] + Lines(rest)
  {
    var s := l + "\n" + rest;
    assert s[..|l|] == l;
    assert s[|l| + 1..] == rest;
    LinesAt(s, |l|);
  }

  lemma {:induction false} LinesOfJoin(parts: seq<string>)
    requires forall k :: 0 <= k < |parts| ==> IsPlainLine(parts[k])
    ensures Lines(Join(parts, "\n")) == parts
  {
    if |parts| == 1 {
      assert IndexOf(parts[0], '\n') == |parts[0]|;
    } else if |parts| > 1 {
      LinesOfCons(parts[0], Join(parts[1..], "\n"));
      LinesOfJoin(parts[1..]);
    }
  }

  function DigitChar(d: nat): char
    requires d < 10
  {
    ('0' as int + d) as char
  }

  /** The decimal digits of `n`, as `format!("{}", n)` writes them. */
  function NatToString(n: nat): (r: string)
    ensures r != []
    ensures forall k :: 0 <= k < |r| ==> '0' <= r[k] <= '9'
    ensures r[0] == '0' ==> r == "0"
  {
    if n < 10 then [DigitChar(n)] else NatToString(n / 10) + [DigitChar(n % 10)]
  }

  /** The number a string of decimal digits spells, most significant first. */
  function DecimalValue(s: string): nat
    requires forall k :: 0 <= k < |s| ==> '0' <= s[k] <= '9'
  {
    if s == [] then 0
    else DecimalValue(s[..|s| - 1]) * 10 + (s[|s| - 1] as int - '0' as int)
  }

  /** Reading the written digits back gives `n`: they spell `n` in decimal. */
  lemma {:induction false} DecimalOfNatToString(n: nat)
    ensures DecimalValue(NatToString(n)) == n
  {
    var r := NatToString(n);
    if n >= 10 {
      DecimalOfNatToString(n / 10);
      assert r[..|r| - 1] == NatToString(n / 10);
    }
  }

  /** Different numbers are written differently. */
  lemma NatToStringInjective(m: nat, n: nat)
    requires NatToString(m) == NatToString(n)
    ensures m == n
  {
    DecimalOfNatToString(m);
    DecimalOfNatToString(n);
  }
}
