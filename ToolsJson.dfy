/**
 * The agents' `tools_json` column: a JSON array of strings. `parse_tools`
 * reads it with `serde_json::from_str::<Vec<String>>` and falls back to the
 * empty list on any error; `create_demo_agents` writes it with
 * `serde_json::to_string`. Both are modelled here over JSON as RFC 8259
 * defines it, restricted to the one shape a `Vec<String>` accepts.
 */
module ToolsJson {
  import opened Wrappers

  /** White space between JSON tokens (RFC 8259, section 2). */
  predicate IsJsonSpace(c: char) {
    c == ' ' || c == '\t' || c == '\n' || c == '\r'
  }

  function SkipSpace(s: string): (r: string)
    ensures |r| <= |s|
    ensures r == [] || !IsJsonSpace(r[0])
  {
    if |s| > 0 && IsJsonSpace(s[0]) then SkipSpace(s[1..]) else s
  }

  function HexValue(c: char): (r: Option<nat>)
    ensures r.Some? ==> r.value < 16
  {
    if '0' <= c <= '9' then Some(c as int - '0' as int)
    else if 'a' <= c <= 'f' then Some(c as int - 'a' as int + 10)
    else if 'A' <= c <= 'F' then Some(c as int - 'A' as int + 10)
    else None
  }

  /** The code unit written by the four hex digits that start `s`. */
  function Hex4(s: string): (r: Option<nat>)
    ensures r.Some? ==> r.value < 0x10000
  {
    if |s| < 4 then None
    else
      match (HexValue(s[0]), HexValue(s[1]), HexValue(s[2]), HexValue(s[3]))
      case (Some(a), Some(b), Some(c), Some(d)) => Some(((a * 16 + b) * 16 + c) * 16 + d)
      case _ => None
  }

  /** The character a two-character escape `\c` stands for. */
  function ShortEscape(c: char): Option<char> {
    if c == '"' then Some('"')
    else if c == '\\' then Some('\\')
    else if c == '/' then Some('/')
    else if c == 'b' then Some('\U{8}')
    else if c == 'f' then Some('\U{C}')
    else if c == 'n' then Some('\n')
    else if c == 'r' then Some('\r')
    else if c == 't' then Some('\t')
    else None
  }

  function Prepend(c: char, r: Option<(string, string)>): (p: Option<(string, string)>)
    ensures p.Some? <==> r.Some?
    ensures p.Some? ==> p.value == ([c] + r.value.0, r.value.1)
  {
    match r
    case None => None
    case Some((v, rest)) => Some(([c] + v, rest))
  }

  /**
   * The characters of a string literal whose opening quote has been read:
   * its value and what follows the closing quote. Raw control characters,
   * unknown escapes and unpaired surrogates are errors.
   */
  function ParseChars(s: string): (r: Option<(string, string)>)
    ensures r.Some? ==> |r.value.1| < |s|
    decreases |s|
  {
    if s == [] then None
    else if s[0] == '"' then Some(([], s[1..]))
    else if s[0] == '\\' then
      if |s| < 2 then None
      else if s[1] == 'u' then
        match Hex4(s[2..])
        case None => None
        case Some(hi) =>
          if 0xD800 <= hi < 0xDC00 then
            if |s| >= 8 && s[6] == '\\' && s[7] == 'u' then
              match Hex4(s[8..])
              case None => None
              case Some(lo) =>
                if 0xDC00 <= lo < 0xE000 then
                  Prepend((0x10000 + (hi - 0xD800) * 0x400 + (lo - 0xDC00)) as char, ParseChars(s[12..]))
                else None
            else None
          else if 0xDC00 <= hi < 0xE000 then None
          else Prepend(hi as char, ParseChars(s[6..]))
      else
        match ShortEscape(s[1])
        case None => None
        case Some(c) => Prepend(c, ParseChars(s[2..]))
    else if s[0] < ' ' then None
    else Prepend(s[0], ParseChars(s[1..]))
  }

  /** The elements of a non-empty array, from its first string to its closing bracket. */
  function ParseItems(s: string): (r: Option<(seq<string>, string)>)
    ensures r.Some? ==> |r.value.1| < |s|
    decreases |s|
  {
    if s == [] || s[0] != '"' then None
    else
      match ParseChars(s[1..])
      case None => None
      case Some((v, rest)) =>
        var t := SkipSpace(rest);
        if t == [] then None
        else if t[0] == ']' then Some(([v], t[1..]))
        else if t[0] == ',' then
          match ParseItems(SkipSpace(t[1..]))
          case None => None
          case Some((vs, rest')) => Some(([v] + vs, rest'))
        else None
  }

  /** `serde_json::from_str::<Vec<String>>`: the whole text must be one array of strings. */
  function DecodeTools(json: string): Option<seq<string>> {
    var t := SkipSpace(json);
    if t == [] || t[0] != '[' then None
    else
      var u := SkipSpace(t[1..]);
      if u != [] && u[0] == ']' then
        if SkipSpace(u[1..]) == [] then Some([]) else None
      else
        match ParseItems(u)
        case None => None
        case Some((vs, rest)) => if SkipSpace(rest) == [] then Some(vs) else None
  }

  /** `parse_tools` (main.rs:452-454): malformed JSON reads as no tools at all. */
  function ParseTools(json: string): seq<string> {
    DecodeTools(json).GetOr([])
  }

  // ---------------------------------------------------------------------
  // The writer side: `serde_json::to_string` of a `Vec<String>`.
  // ---------------------------------------------------------------------

  function HexDigit(k: nat): char
    requires k < 16
  {
    if k < 10 then ('0' as int + k) as char else ('a' as int + k - 10) as char
  }

  /** serde_json's escaping of one character inside a string literal. */
  function EscapeChar(c: char): string {
    if c == '"' then "\\\""
    else if c == '\\' then "\\\\"
    else if c == '\U{8}' then "\\b"
    else if c == '\U{C}' then "\\f"
    else if c == '\n' then "\\n"
    else if c == '\r' then "\\r"
    else if c == '\t' then "\\t"
    else if c < ' ' then "\\u00" + [HexDigit(c as int / 16), HexDigit(c as int % 16)]
    else [c]
  }

  function Escape(s: string): string {
    if s == [] then [] else EscapeChar(s[0]) + Escape(s[1..])
  }

  /** A character serde_json writes as itself. */
  predicate IsPlainChar(c: char) {
    c >= ' ' && c != '"' && c != '\\'
  }

  lemma {:induction false} EscapePlain(s: string)
    requires forall k :: 0 <= k < |s| ==> IsPlainChar(s[k])
    ensures Escape(s) == s
  {
    if s != [] {
      EscapePlain(s[1..]);
      assert [s[0]] + s[1..] == s;
    }
  }

  function Quote(s: string): string {
    "\"" + Escape(s) + "\""
  }

  /** A one-element list whose name is made of plain characters is written between quotes as it is. */
  lemma EncodePlainSingle(a: string)
    requires forall k :: 0 <= k < |a| ==> IsPlainChar(a[k])
    ensures EncodeTools([a]) == "[\"" + a + "\"]"
  {
    EscapePlain(a);
  }

  function EncodeItems(xs: seq<string>): string {
    if xs == [] then []
    else if |xs| == 1 then Quote(xs[0])
    else Quote(xs[0]) + "," + EncodeItems(xs[1..])
  }

  function EncodeTools(xs: seq<string>): string {
    "[" + EncodeItems(xs) + "]"
  }

  // ---------------------------------------------------------------------
  // Round trip
  // ---------------------------------------------------------------------

  lemma HexDigitValue(k: nat)
    requires k < 16
    ensures HexValue(HexDigit(k)) == Some(k)
  {
  }

  /** The characters serde_json writes with a two-character escape. */
  predicate HasShortEscape(c: char) {
    c == '"' || c == '\\' || c == '\U{8}' || c == '\U{C}' || c == '\n' || c == '\r' || c == '\t'
  }

  lemma EscapeShortStep(c: char, tail: string)
    requires HasShortEscape(c)
    ensures ParseChars(EscapeChar(c) + tail) == Prepend(c, ParseChars(tail))
  {
    var s := EscapeChar(c) + tail;
    assert |EscapeChar(c)| == 2 && s[0] == '\\' && ShortEscape(s[1]) == Some(c);
    assert s[2..] == tail;
  }

  lemma EscapeControlStep(c: char, tail: string)
    requires c < ' ' && !HasShortEscape(c)
    ensures ParseChars(EscapeChar(c) + tail) == Prepend(c, ParseChars(tail))
  {
    var s := EscapeChar(c) + tail;
    var hi, lo := c as int / 16, c as int % 16;
    HexDigitValue(0);
    HexDigitValue(hi);
    HexDigitValue(lo);
    assert s[2..][..4] == ['0', '0', HexDigit(hi), HexDigit(lo)];
    assert Hex4(s[2..]) == Some(c as int);
    assert s[6..] == tail;
  }

  /** Reading back one escaped character gives that character. */
  lemma EscapeCharStep(c: char, tail: string)
    ensures ParseChars(EscapeChar(c) + tail) == Prepend(c, ParseChars(tail))
  {
    if HasShortEscape(c) {
      EscapeShortStep(c, tail);
    } else if c < ' ' {
      EscapeControlStep(c, tail);
    } else {
      assert (EscapeChar(c) + tail)[1..] == tail;
    }
  }

  lemma {:induction false} ParseEscaped(v: string, rest: string)
    ensures ParseChars(Escape(v) + "\"" + rest) == Some((v, rest))
    decreases |v|
  {
    if v == [] {
      assert Escape(v) + "\"" + rest == "\"" + rest;
    } else {
      var tail := Escape(v[1..]) + "\"" + rest;
      assert Escape(v) + "\"" + rest == EscapeChar(v[0]) + tail;
      EscapeCharStep(v[0], tail);
      ParseEscaped(v[1..], rest);
      assert [v[0]] + v[1..] == v;
    }
  }

  lemma ParseQuoted(x: string, after: string)
    ensures (Quote(x) + after)[0] == '"'
    ensures ParseChars((Quote(x) + after)[1..]) == Some((x, after))
  {
    assert (Quote(x) + after)[1..] == Escape(x) + "\"" + after;
    ParseEscaped(x, after);
  }

  lemma ParseLastItem(x: string, rest: string)
    ensures ParseItems(Quote(x) + "]" + rest) == Some(([x], rest))
  {
    var s := Quote(x) + "]" + rest;
    var after := "]" + rest;
    assert s == Quote(x) + after;
    ParseQuoted(x, after);
    assert SkipSpace(after) == after;
    assert after[1..] == rest;
  }

  /**
   * One step of `ParseItems` after a string literal that ends right before a
   * comma: the rest of the list is read from just after the comma. The
   * literal's characters enter only through `v`, so its escapes are never
   * unfolded here.
   */
  lemma ItemsAfterComma(s: string, v: string, more: string)
    requires s != [] && s[0] == '"' && ParseChars(s[1..]) == Some((v, "," + more))
    requires more != [] && more[0] == '"'
    ensures ParseItems(s) == (match ParseItems(more)
                              case None => None
                              case Some((vs, rest)) => Some(([v] + vs, rest)))
  {
    var after := "," + more;
    assert SkipSpace(after) == after;
    assert after[1..] == more;
    assert SkipSpace(more) == more;
  }

  lemma ParseNextItem(x: string, more: string)
    requires more != [] && more[0] == '"'
    requires ParseItems(more).Some?
    ensures ParseItems(Quote(x) + "," + more) == Some(([x] + ParseItems(more).value.0, ParseItems(more).value.1))
  {
    var s := Quote(x) + "," + more;
    assert s == Quote(x) + ("," + more);
    ParseQuoted(x, "," + more);
    ItemsAfterComma(s, x, more);
  }

  /** A written non-empty list starts with the opening quote of its first name. */
  lemma EncodeItemsOpensQuote(xs: seq<string>, rest: string)
    requires xs != []
    ensures var more := EncodeItems(xs) + "]" + rest; more != [] && more[0] == '"'
  {
    assert EncodeItems(xs)[0] == Quote(xs[0])[0];
  }

  /** The writer puts a comma between the first name and the written rest. */
  lemma EncodeCons(x: string, ys: seq<string>, rest: string)
    requires ys != []
    ensures EncodeItems([x] + ys) + "]" + rest == Quote(x) + "," + (EncodeItems(ys) + "]" + rest)
  {
    assert ([x] + ys)[1..] == ys;
    assert EncodeItems([x] + ys) == Quote(x) + "," + EncodeItems(ys);
  }

  /** Reading back one more written name in front of a list that reads back. */
  lemma ParseEncodedCons(x: string, ys: seq<string>, rest: string)
    requires ys != []
    requires ParseItems(EncodeItems(ys) + "]" + rest) == Some((ys, rest))
    ensures ParseItems(EncodeItems([x] + ys) + "]" + rest) == Some(([x] + ys, rest))
  {
    var more := EncodeItems(ys) + "]" + rest;
    EncodeCons(x, ys, rest);
    EncodeItemsOpensQuote(ys, rest);
    ParseNextItem(x, more);
  }

  lemma {:induction false} ParseEncodedItems(xs: seq<string>, rest: string)
    requires xs != []
    ensures ParseItems(EncodeItems(xs) + "]" + rest) == Some((xs, rest))
    decreases |xs|
  {
    if |xs| == 1 {
      ParseLastItem(xs[0], rest);
      assert xs == [xs[0]];
    } else {
      ParseEncodedItems(xs[1..], rest);
      ParseEncodedCons(xs[0], xs[1..], rest);
      assert [xs[0]] + xs[1..] == xs;
    }
  }

  /** What `serde_json::to_string` writes, `parse_tools` reads back unchanged. */
  lemma DecodeEncodeTools(xs: seq<string>)
    ensures DecodeTools(EncodeTools(xs)) == Some(xs)
    ensures ParseTools(EncodeTools(xs)) == xs
  {
    var s := EncodeTools(xs);
    if xs == [] {
      assert s == "[]";
      assert s[1..] == "]";
    } else {
      ParseEncodedItems(xs, []);
      assert s[1..] == EncodeItems(xs) + "]" + [];
      assert EncodeItems(xs)[0] == '"';
    }
  }
}
