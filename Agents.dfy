/**
 * The `agents` table (main.rs:76-93) and the operations on it: saving an
 * agent (main.rs:1470-1516), listing all agents newest first
 * (main.rs:1520-1560) and the "latest agent" lookups the demos run, by exact
 * name or by a LIKE pattern over `tools_json`.
 */
module Agents {
  import opened Wrappers
  import opened Text

  /** One row. `createdAt` is the value of a monotone clock at insertion. */
  datatype Agent = Agent(
    id: string,
    name: string,
    role: string,
    goal: string,
    toolsJson: string,
    schedule: Option<string>,
    triggersJson: Option<string>,
    sandbox: bool,
    enabled: bool,
    createdAt: nat)

  predicate HasId(rows: seq<Agent>, id: string) {
    exists i :: 0 <= i < |rows| && rows[i].id == id
  }

  /** An appended row adds its id and nothing else. */
  lemma HasIdAppend(rows: seq<Agent>, a: Agent, id: string)
    ensures HasId(rows + [a], id) <==> HasId(rows, id) || a.id == id
  {
    if HasId(rows, id) {
      var i :| 0 <= i < |rows| && rows[i].id == id;
      assert (rows + [a])[i].id == id;
    }
    if a.id == id {
      assert (rows + [a])[|rows|].id == id;
    }
  }

  /** The PRIMARY KEY constraint on `id`. */
  predicate DistinctIds(rows: seq<Agent>) {
    forall i, j :: 0 <= i < j < |rows| ==> rows[i].id != rows[j].id
  }

  /** Rows were inserted with a clock that never runs backwards. */
  predicate Chronological(rows: seq<Agent>) {
    forall i, j :: 0 <= i <= j < |rows| ==> rows[i].createdAt <= rows[j].createdAt
  }

  // ---------------------------------------------------------------------
  // SQLite's LIKE
  // ---------------------------------------------------------------------

  /** `_` matches any one character; other characters match ignoring ASCII case. */
  predicate CharLike(c: char, pc: char) {
    pc == '_' || LowerChar(c) == LowerChar(pc)
  }

  /** SQLite's `s LIKE p` without an ESCAPE clause: `%` matches any run of characters. */
  predicate Like(s: string, p: string)
    decreases |p|, |s|
  {
    if p == [] then s == []
    else if p[0] == '%' then Like(s, p[1..]) || (s != [] && Like(s[1..], p))
    else s != [] && CharLike(s[0], p[0]) && Like(s[1..], p[1..])
  }

  /** `t` matches the characters of `s` from position `i` on, character by character. */
  predicate WindowLike(s: string, t: string, i: nat) {
    i + |t| <= |s| && forall j :: 0 <= j < |t| ==> CharLike(s[i + j], t[j])
  }

  lemma {:induction false} LikeAnything(s: string)
    ensures Like(s, "%")
    decreases |s|
  {
    if s != [] {
      LikeAnything(s[1..]);
    }
  }

  lemma {:induction false} WindowGivesLike(s: string, t: string)
    requires '%' !in t && WindowLike(s, t, 0)
    ensures Like(s, t + "%")
    decreases |t|
  {
    if t == [] {
      assert t + "%" == "%";
      LikeAnything(s);
    } else {
      assert (t + "%")[1..] == t[1..] + "%";
      assert WindowLike(s[1..], t[1..], 0) by {
        forall j | 0 <= j < |t[1..]|
          ensures CharLike(s[1..][j], t[1..][j])
        {
          assert CharLike(s[0 + (j + 1)], t[j + 1]);
        }
      }
      WindowGivesLike(s[1..], t[1..]);
    }
  }

  lemma {:induction false} LikeGivesWindow(s: string, t: string)
    requires '%' !in t && Like(s, t + "%")
    ensures WindowLike(s, t, 0)
    decreases |t|
  {
    if t != [] {
      assert (t + "%")[0] == t[0];
      assert (t + "%")[1..] == t[1..] + "%";
      LikeGivesWindow(s[1..], t[1..]);
      forall j | 0 <= j < |t|
        ensures CharLike(s[0 + j], t[j])
      {
        if j > 0 {
          assert CharLike(s[1..][0 + (j - 1)], t[1..][j - 1]);
        }
      }
    }
  }

  /**
   * `s LIKE '%t%'` for a `t` without `%` holds exactly when `t` matches, with
   * `_` as a wildcard and ASCII case ignored, somewhere inside `s`.
   */
  lemma {:induction false} LikeSubstring(s: string, t: string)
    requires '%' !in t
    ensures Like(s, "%" + t + "%") <==> exists i: nat :: WindowLike(s, t, i)
    decreases |s|
  {
    var p := "%" + t + "%";
    assert p[1..] == t + "%";
    if Like(s, p) {
      if Like(s, t + "%") {
        LikeGivesWindow(s, t);
      } else {
        LikeSubstring(s[1..], t);
        var i: nat :| WindowLike(s[1..], t, i);
        assert WindowLike(s, t, i + 1) by {
          forall j | 0 <= j < |t|
            ensures CharLike(s[i + 1 + j], t[j])
          {
            assert s[i + 1 + j] == s[1..][i + j];
          }
        }
      }
    }
    if exists i: nat :: WindowLike(s, t, i) {
      var i: nat :| WindowLike(s, t, i);
      if i == 0 {
        WindowGivesLike(s, t);
      } else {
        assert WindowLike(s[1..], t, i - 1) by {
          forall j | 0 <= j < |t|
            ensures CharLike(s[1..][i - 1 + j], t[j])
          {
            assert s[1..][i - 1 + j] == s[i + j];
          }
        }
        LikeSubstring(s[1..], t);
      }
    }
  }

  /** A literal occurrence always satisfies the LIKE pattern. */
  lemma ContainsGivesLike(s: string, t: string, i: nat)
    requires '%' !in t && i + |t| <= |s| && s[i..i + |t|] == t
    ensures Like(s, "%" + t + "%")
  {
    assert WindowLike(s, t, i) by {
      forall j | 0 <= j < |t|
        ensures CharLike(s[i + j], t[j])
      {
        assert s[i + j] == s[i..i + |t|][j];
      }
    }
    LikeSubstring(s, t);
  }

  /** A window that matches `t` character by character satisfies `'%t%'`, whatever surrounds it. */
  lemma WindowMatchGivesLike(pre: string, w: string, post: string, t: string)
    requires '%' !in t && |w| == |t|
    requires forall j :: 0 <= j < |t| ==> CharLike(w[j], t[j])
    ensures Like(pre + w + post, "%" + t + "%")
  {
    var s := pre + w + post;
    assert WindowLike(s, t, |pre|) by {
      forall j | 0 <= j < |t|
        ensures CharLike(s[|pre| + j], t[j])
      {
        assert s[|pre| + j] == w[j];
      }
    }
    LikeSubstring(s, t);
  }

  // ---------------------------------------------------------------------
  // Lookups
  // ---------------------------------------------------------------------

  /** The WHERE clauses the lookups use. */
  datatype AgentQuery =
    | NameIs(name: string)
    | ToolsLike(pattern: string)

  predicate Matches(a: Agent, q: AgentQuery) {
    match q
    case NameIs(n) => a.name == n
    case ToolsLike(p) => Like(a.toolsJson, p)
  }

  /**
   * `... WHERE <q> ORDER BY created_at DESC LIMIT 1`: the most recently
   * inserted matching row, or none when no row matches.
   */
  function LatestIndex(rows: seq<Agent>, q: AgentQuery): (r: Option<nat>)
    ensures r.None? <==> forall i :: 0 <= i < |rows| ==> !Matches(rows[i], q)
    ensures r.Some? ==> r.value < |rows| && Matches(rows[r.value], q)
    ensures r.Some? ==> forall j :: r.value < j < |rows| ==> !Matches(rows[j], q)
  {
    if rows == [] then None
    else if Matches(rows[|rows| - 1], q) then Some(|rows| - 1)
    else LatestIndex(rows[..|rows| - 1], q)
  }

  /** On a chronological table, the row found has the latest creation time of all matching rows. */
  lemma LatestIsNewest(rows: seq<Agent>, q: AgentQuery, i: nat)
    requires Chronological(rows) && i < |rows| && Matches(rows[i], q)
    ensures LatestIndex(rows, q).Some?
    ensures rows[i].createdAt <= rows[LatestIndex(rows, q).value].createdAt
  {
  }

  /** Two tables that differ at most in the `enabled` column. */
  predicate SameButEnabled(xs: seq<Agent>, ys: seq<Agent>) {
    |xs| == |ys| && forall k :: 0 <= k < |xs| ==> ys[k] == xs[k].(enabled := ys[k].enabled)
  }

  /** No lookup reads the `enabled` column. */
  lemma {:induction false} LatestIgnoresEnabled(xs: seq<Agent>, ys: seq<Agent>, q: AgentQuery)
    requires SameButEnabled(xs, ys)
    ensures LatestIndex(xs, q) == LatestIndex(ys, q)
    decreases |xs|
  {
    if xs != [] {
      var m := |xs| - 1;
      assert SameButEnabled(xs[..m], ys[..m]);
      LatestIgnoresEnabled(xs[..m], ys[..m], q);
    }
  }

  // ---------------------------------------------------------------------
  // Listing
  // ---------------------------------------------------------------------

  /** `ORDER BY created_at DESC` over rows kept in insertion order. */
  function NewestFirst(rows: seq<Agent>): (r: seq<Agent>)
    ensures |r| == |rows|
    ensures forall k :: 0 <= k < |r| ==> r[k] == rows[|rows| - 1 - k]
  {
    seq(|rows|, k requires 0 <= k < |rows| => rows[|rows| - 1 - k])
  }

  lemma NewestFirstSorted(rows: seq<Agent>)
    requires Chronological(rows)
    ensures forall i, j :: 0 <= i <= j < |rows| ==> NewestFirst(rows)[j].createdAt <= NewestFirst(rows)[i].createdAt
  {
  }

  function AgentEntry(n: nat, a: Agent): string {
    NatToString(n) + ". " + a.name + "\n   id: " + a.id + "\n   goal: " + a.goal
    + "\n   sandbox: " + (if a.sandbox then "✅ ON" else "❌ OFF")
    + "\n   created: " + NatToString(a.createdAt) + "\n\n"
  }

  /** The entries of `xs`, numbered from 1. */
  function AgentEntries(xs: seq<Agent>): string {
    if xs == [] then [] else AgentEntries(xs[..|xs| - 1]) + AgentEntry(|xs|, xs[|xs| - 1])
  }

  /** Listing one more row appends that row's entry after whatever came before. */
  lemma EntriesGrow(head: string, xs: seq<Agent>, count: nat)
    requires count < |xs|
    ensures head + AgentEntries(xs[..count + 1]) == (head + AgentEntries(xs[..count])) + AgentEntry(count + 1, xs[count])
  {
    assert xs[..count + 1][..count] == xs[..count];
  }

  const AgentsHeader := "🤖 Saved Agents:\n\n"
  const NoAgents := "ℹ️ No agents saved yet."

  /** The text `list_agents` returns for the table `rows`. */
  function AgentListing(rows: seq<Agent>): string {
    if rows == [] then NoAgents else AgentsHeader + AgentEntries(NewestFirst(rows))
  }

  class AgentTable {
    var rows: seq<Agent>

    predicate Valid()
      reads this
    {
      DistinctIds(rows)
    }

    constructor()
      ensures rows == [] && Valid()
    {
      rows := [];
    }

    /**
     * `save_agent_config`: appends the agent, disabled, stamped `now`. An id
     * already in the table violates the primary key, and nothing is written.
     */
    method SaveAgentConfig(id: string, name: string, role: string, goal: string, toolsJson: string,
                           schedule: Option<string>, triggersJson: Option<string>, sandbox: bool, now: nat)
      returns (r: Result<string, string>)
      requires Valid()
      modifies this
      ensures Valid()
      ensures HasId(old(rows), id) ==>
        r == Err("DB insert failed: UNIQUE constraint failed: agents.id") && rows == old(rows)
      ensures !HasId(old(rows), id) ==>
        r == Ok("✅ Agent saved with id: " + id)
        && rows == old(rows) + [Agent(id, name, role, goal, toolsJson, schedule, triggersJson, sandbox, false, now)]
    {
      if exists i :: 0 <= i < |rows| && rows[i].id == id {
        return Err("DB insert failed: UNIQUE constraint failed: agents.id");
      }
      rows := rows + [Agent(id, name, role, goal, toolsJson, schedule, triggersJson, sandbox, false, now)];
      r := Ok("✅ Agent saved with id: " + id);
    }

    /** `list_agents`: one numbered entry per row, newest first. */
    method ListAgents() returns (out: string)
      ensures out == AgentListing(rows)
    {
      out := AgentsHeader;
      var count := 0;
      var i := |rows|;
      ghost var listed := NewestFirst(rows);
      while i > 0
        invariant 0 <= i <= |rows| && count == |rows| - i
        invariant out == AgentsHeader + AgentEntries(listed[..count])
      {
        i := i - 1;
        EntriesGrow(AgentsHeader, listed, count);
        count := count + 1;
        out := out + AgentEntry(count, rows[i]);
      }
      assert listed[..count] == listed;
      if count == 0 {
        out := NoAgents;
      }
    }
  }
}
