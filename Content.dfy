/**
 * The text the agents draft: the topic list read from `openclaw trending`
 * (`get_trending_topics`, main.rs:765-788), the numbered bullets of
 * `demo1_run` (main.rs:355-368) and the post and comment templates
 * (`build_demo1_post`, main.rs:456-472; `build_demo2_comment`, main.rs:474-481).
 */
module Content {
  import opened Wrappers
  import opened Text

  const MaxTopics := 5

  const FallbackTopics := [
    "AI agents in desktop apps",
    "Local LLM + privacy-first workflows",
    "Browser automation for daily ops"
  ]

  /** A topic as the line parser yields it: non-empty, trimmed, on one line. */
  predicate IsTopic(t: string) {
    t != [] && IsTrimmed(t) && '\n' !in t
  }

  lemma FallbackAreTopics()
    ensures forall k :: 0 <= k < |FallbackTopics| ==> IsTopic(FallbackTopics[k])
  {
    FallbackIsTopic(0);
    FallbackIsTopic(1);
    FallbackIsTopic(2);
  }

  lemma FallbackIsTopic(k: nat)
    requires k < |FallbackTopics|
    ensures IsTopic(FallbackTopics[k])
  {
    var t := FallbackTopics[k];
    assert forall j :: 0 <= j < |t| ==> t[j] != '\n';
  }

  lemma {:induction false} LinesHaveNoNewline(s: string)
    ensures forall k :: 0 <= k < |Lines(s)| ==> '\n' !in Lines(s)[k]
    decreases |s|
  {
    if s != [] {
      var i := IndexOf(s, '\n');
      if i < |s| {
        LinesHaveNoNewline(s[i + 1..]);
        assert '\n' !in s[..i];
      }
    }
  }

  /** Trimming only removes characters. */
  lemma TrimKeepsOut(s: string, c: char)
    requires c !in s
    ensures c !in Trim(s)
  {
    var t := TrimStart(s);
    assert t == s[|s| - |t|..];
    var r := TrimEnd(t);
    assert r == t[..|r|];
    assert Trim(s) == r;
  }

  /** `.map(|l| l.trim()).filter(|l| !l.is_empty())` over the lines. */
  function TopicLines(lines: seq<string>): (r: seq<string>)
    requires forall k :: 0 <= k < |lines| ==> '\n' !in lines[k]
    ensures |r| <= |lines|
    ensures forall k :: 0 <= k < |r| ==> IsTopic(r[k])
  {
    if lines == [] then []
    else
      var t := Trim(lines[0]);
      var rest := TopicLines(lines[1..]);
      TrimKeepsOut(lines[0], '\n');
      if t == [] then rest
      else
        assert IsTopic(t);
        [t] + rest
  }

  /** No topic comes out exactly when every line is blank. */
  lemma {:induction false} TopicLinesEmpty(lines: seq<string>)
    requires forall k :: 0 <= k < |lines| ==> '\n' !in lines[k]
    ensures TopicLines(lines) == [] <==> forall k :: 0 <= k < |lines| ==> IsBlank(lines[k])
    decreases |lines|
  {
    if lines != [] {
      TopicLinesEmpty(lines[1..]);
      assert forall k :: 0 < k < |lines| ==> lines[k] == lines[1..][k - 1];
    }
  }

  /**
   * The topics of a list of lines followed by one more line: those of the
   * list, then the new line trimmed unless it is blank. Together with
   * `TopicLines([]) == []` this fixes which topics appear and in what order.
   */
  lemma {:induction false} TopicLinesSnoc(lines: seq<string>, l: string)
    requires forall k :: 0 <= k < |lines| ==> '\n' !in lines[k]
    requires '\n' !in l
    ensures TopicLines(lines + [l]) == TopicLines(lines) + (if IsBlank(l) then [] else [Trim(l)])
    decreases |lines|
  {
    if lines == [] {
      assert [l][1..] == [];
    } else {
      assert (lines + [l])[1..] == lines[1..] + [l];
      TopicLinesSnoc(lines[1..], l);
    }
  }

  /** Every non-blank line of the command's output, trimmed, in order. */
  function OutputTopics(out: string): (r: seq<string>)
    ensures forall k :: 0 <= k < |r| ==> IsTopic(r[k])
    ensures r == [] <==> forall k :: 0 <= k < |Lines(out)| ==> IsBlank(Lines(out)[k])
  {
    LinesHaveNoNewline(out);
    TopicLinesEmpty(Lines(out));
    TopicLines(Lines(out))
  }

  /** Output printed as plain lines yields exactly those lines' topics. */
  lemma OutputTopicsOfLines(parts: seq<string>)
    requires forall k :: 0 <= k < |parts| ==> IsPlainLine(parts[k])
    ensures forall k :: 0 <= k < |parts| ==> '\n' !in parts[k]
    ensures OutputTopics(Join(parts, "\n")) == TopicLines(parts)
  {
    LinesOfJoin(parts);
  }

  /**
   * `get_trending_topics`, given what `openclaw trending --top 5` returned:
   * the first five non-blank lines, trimmed; the fixed fallback list when the
   * command failed or printed nothing but blank lines.
   */
  function TrendingTopics(run: Result<string, string>): (r: seq<string>)
    ensures 1 <= |r| <= MaxTopics
    ensures forall k :: 0 <= k < |r| ==> IsTopic(r[k])
    ensures run.Err? || OutputTopics(run.value) == [] ==> r == FallbackTopics
    ensures run.Ok? && OutputTopics(run.value) != [] ==>
      |r| == (if |OutputTopics(run.value)| < MaxTopics then |OutputTopics(run.value)| else MaxTopics)
      && r == OutputTopics(run.value)[..|r|]
  {
    FallbackAreTopics();
    if run.Err? then FallbackTopics
    else
      var all := OutputTopics(run.value);
      if all == [] then FallbackTopics
      else if |all| <= MaxTopics then all
      else all[..MaxTopics]
  }

  /** One bullet of `demo1_run`: "<k+1>. <topic>". */
  function BulletLine(k: nat, topic: string): string
    requires k < 9
  {
    [('1' as int + k) as char] + ". " + topic
  }

  /** `.iter().take(5).enumerate().map(...)` */
  function BulletLines(topics: seq<string>): (r: seq<string>)
    ensures |r| == if |topics| < MaxTopics then |topics| else MaxTopics
  {
    var n := if |topics| < MaxTopics then |topics| else MaxTopics;
    seq(n, k requires 0 <= k < n => BulletLine(k, topics[k]))
  }

  /** The bullets joined with "\n". */
  function Bullets(topics: seq<string>): string {
    Join(BulletLines(topics), "\n")
  }

  /** Splitting the bullet block at its line ends gives the bullets back, one per topic. */
  lemma BulletsReadBack(topics: seq<string>)
    requires forall k :: 0 <= k < |topics| ==> IsTopic(topics[k])
    ensures |Lines(Bullets(topics))| == if |topics| < MaxTopics then |topics| else MaxTopics
    ensures forall k :: 0 <= k < |Lines(Bullets(topics))| ==> Lines(Bullets(topics))[k] == BulletLine(k, topics[k])
  {
    var ls := BulletLines(topics);
    forall k | 0 <= k < |ls|
      ensures IsPlainLine(ls[k])
    {
      var t := topics[k];
      assert ls[k] == [('1' as int + k) as char, '.', ' '] + t;
      assert ls[k][|ls[k]| - 1] == t[|t| - 1];
    }
    LinesOfJoin(ls);
  }

  /** The draft `demo1_run` builds around the bullets. */
  function TrendsDraft(topics: seq<string>): string {
    "Today’s trends I’m watching 👇\n\n" + Bullets(topics) + "\n\n…"
  }

  const PostLead := "🚀 Today’s OpenClaw trend: **"
  /** The fixed paragraph after the topic, elided to its first characters. */
  const PostTail := "**\n\n…"

  /** `build_demo1_post`: the post names the first topic, or "AI agents" when there is none. */
  function BuildDemo1Post(topics: seq<string>): (r: string)
    ensures StartsWith(r, PostLead)
    ensures |r| >= |PostLead| + |PostTail| && r[|r| - |PostTail|..] == PostTail
    ensures r[|PostLead|..|r| - |PostTail|] == if topics == [] then "AI agents" else topics[0]
  {
    var t := if topics == [] then "AI agents" else topics[0];
    var r := PostLead + t + PostTail;
    assert r[..|PostLead|] == PostLead;
    assert r[|PostLead|..|r| - |PostTail|] == t;
    assert r[|r| - |PostTail|..] == PostTail;
    r
  }

  /** `build_demo2_comment`: the promotional comment with the repository link. */
  function BuildDemo2Comment(repoUrl: string): string {
    "Hey! … Repo: " + repoUrl + " 🚀\n\n…"
  }
}
