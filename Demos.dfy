/**
 * The demo commands: creating the two demo agents (main.rs:514-538), the
 * one-shot runs the scheduler and the UI trigger (main.rs:541-595,
 * 335-417, 420-451, 484-512). Each finds its agent with one of the "latest
 * agent" lookups; Demo 1 only ever queues a draft for approval, Demo 2 runs
 * the comment script directly.
 */
module Demos {
  import opened Wrappers
  import opened Text
  import opened ToolsJson
  import opened NodeScript
  import opened Content
  import opened Agents
  import opened Approvals

  const TrendingAgentName := "Trending Agent"
  const HashtagAgentName := "Hashtag Promo Agent"
  /** The tools the LIKE lookups of `demo1_run` and `demo2_run` look for. */
  const DemoTrendingTool := "demo_trending"
  const CommentTool := "linkedin_comment"
  const DemoRepoUrl := "https://github.com/<YOUR_USERNAME>/<YOUR_REPO>"

  /** The `tools_json` of the two demo agents: their tool lists written by `serde_json::to_string`. */
  const TrendingToolsJson := EncodeTools([DemoTrendingTool, "linkedin_post"])
  const HashtagToolsJson := EncodeTools(["demo_hashtag", CommentTool])

  /** The first demo agent: daily, with the trending and posting tools. */
  function TrendingDemo(id: string, now: nat): Agent {
    Agent(id, TrendingAgentName, "Assistant",
      "Find trending topic and post to LinkedIn daily (approval required)",
      TrendingToolsJson, Some("daily"), None, false, false, now)
  }

  /** The second demo agent: hourly, with the hashtag and commenting tools. */
  function HashtagDemo(id: string, now: nat): Agent {
    Agent(id, HashtagAgentName, "Assistant",
      "Every hour comment on #openclaw posts promoting repo",
      HashtagToolsJson, Some("hourly"), None, false, false, now)
  }

  /**
   * The check `run_demo1_once` and `run_demo2_once` start with: the newest
   * agent with the given name must exist and its tool list must name `tool`.
   * A `tools_json` that does not parse counts as no tools.
   */
  function PickAgent(agents: seq<Agent>, name: string, tool: string): (r: Result<nat, string>)
    ensures LatestIndex(agents, NameIs(name)).None? ==>
      r == Err("❌ " + name + " not found. Run: create demo agents")
    ensures LatestIndex(agents, NameIs(name)).Some? ==>
      var i := LatestIndex(agents, NameIs(name)).value;
      if tool in ParseTools(agents[i].toolsJson) then r == Ok(i)
      else r == Err("❌ " + name + " tools missing " + tool)
  {
    match LatestIndex(agents, NameIs(name))
    case None => Err("❌ " + name + " not found. Run: create demo agents")
    case Some(i) =>
      if tool in ParseTools(agents[i].toolsJson) then Ok(i)
      else Err("❌ " + name + " tools missing " + tool)
  }

  /** An agent whose `tools_json` does not parse never passes the tool check. */
  lemma MalformedToolsFailCheck(agents: seq<Agent>, name: string, tool: string)
    requires LatestIndex(agents, NameIs(name)).Some?
    requires DecodeTools(agents[LatestIndex(agents, NameIs(name)).value].toolsJson).None?
    ensures PickAgent(agents, name, tool) == Err("❌ " + name + " tools missing " + tool)
  {
  }

  /** A tool list written by `serde_json::to_string` passes the check exactly for the tools it names. */
  lemma EncodedToolsCheck(agents: seq<Agent>, name: string, tool: string, tools: seq<string>)
    requires LatestIndex(agents, NameIs(name)).Some?
    requires agents[LatestIndex(agents, NameIs(name)).value].toolsJson == EncodeTools(tools)
    ensures PickAgent(agents, name, tool).Ok? <==> tool in tools
  {
    DecodeEncodeTools(tools);
  }

  /**
   * The agents `create_demo_agents` writes pass their own tool checks: when
   * the newest agent of the name is the demo agent, `run_demo1_once` finds
   * "demo_trending" and `run_demo2_once` finds "demo_hashtag".
   */
  lemma DemoAgentsPassToolCheck(agents: seq<Agent>, id: string, now: nat)
    requires LatestIndex(agents, NameIs(TrendingAgentName)).Some?
    requires LatestIndex(agents, NameIs(HashtagAgentName)).Some?
    requires agents[LatestIndex(agents, NameIs(TrendingAgentName)).value].toolsJson == TrendingDemo(id, now).toolsJson
    requires agents[LatestIndex(agents, NameIs(HashtagAgentName)).value].toolsJson == HashtagDemo(id, now).toolsJson
    ensures PickAgent(agents, TrendingAgentName, DemoTrendingTool).Ok?
    ensures PickAgent(agents, HashtagAgentName, "demo_hashtag").Ok?
  {
    EncodedToolsCheck(agents, TrendingAgentName, DemoTrendingTool, [DemoTrendingTool, "linkedin_post"]);
    EncodedToolsCheck(agents, HashtagAgentName, "demo_hashtag", ["demo_hashtag", CommentTool]);
  }

  /**
   * `demo1_run` writes the tool name into a LIKE pattern, where its `_` is a
   * wildcard: an agent whose only tool is "demo-trending" (or any other
   * character in place of the underscore) is picked, although its tools do
   * not include "demo_trending".
   */
  lemma LikeLookupOverMatches(a: Agent, c: char)
    requires IsPlainChar(c) && c != '_'
    requires a.toolsJson == EncodeTools(["demo" + [c] + "trending"])
    ensures LatestIndex([a], ToolsLike("%" + DemoTrendingTool + "%")) == Some(0)
    ensures DemoTrendingTool !in ParseTools(a.toolsJson)
  {
    var x := "demo" + [c] + "trending";
    UnderscoreWindow(c);
    EncodePlainSingle(x);
    WindowMatchGivesLike("[\"", x, "\"]", DemoTrendingTool);
    DecodeEncodeTools([x]);
  }

  /** "demo" + c + "trending" matches the tool name as a LIKE window, and differs from it. */
  lemma UnderscoreWindow(c: char)
    requires IsPlainChar(c) && c != '_'
    ensures var x := "demo" + [c] + "trending";
      (forall k :: 0 <= k < |x| ==> IsPlainChar(x[k]))
      && '%' !in DemoTrendingTool && |x| == |DemoTrendingTool| && x != DemoTrendingTool
      && forall j :: 0 <= j < |x| ==> CharLike(x[j], DemoTrendingTool[j])
  {
    var x := "demo" + [c] + "trending";
    assert x[4] == c;
  }

  // ---------------------------------------------------------------------
  // Demo 1: queue a post for approval
  // ---------------------------------------------------------------------

  function Demo1Ready(id: string): string {
    "🧩 Demo1 Draft Ready (approval required)\nApproval ID: " + id + "\n\nType:\napprove " + id
    + "\n\nOr view:\npending approvals"
  }

  /**
   * `run_demo1_once`: checks the Trending Agent, then queues the post built
   * from the current topics as a pending `linkedin_post` approval. Nothing
   * is posted.
   */
  method RunDemo1Once(agents: seq<Agent>, ledger: ApprovalTable, trending: Result<string, string>, id: string, now: nat)
    returns (r: Result<string, string>)
    requires ledger.Valid()
    modifies ledger
    ensures ledger.Valid() && Successor(old(ledger.rows), ledger.rows)
    ensures PickAgent(agents, TrendingAgentName, "demo_trending").Err? ==>
      r == Err(PickAgent(agents, TrendingAgentName, "demo_trending").error) && ledger.rows == old(ledger.rows)
    ensures PickAgent(agents, TrendingAgentName, "demo_trending").Ok? && Approvals.HasId(old(ledger.rows), id) ==>
      r.Err? && ledger.rows == old(ledger.rows)
    ensures PickAgent(agents, TrendingAgentName, "demo_trending").Ok? && !Approvals.HasId(old(ledger.rows), id) ==>
      var a := agents[PickAgent(agents, TrendingAgentName, "demo_trending").value];
      r == Ok(Demo1Ready(id))
      && ledger.rows == old(ledger.rows)
        + [Approval(id, a.id, "linkedin_post", BuildDemo1Post(TrendingTopics(trending)), Pending, now, None)]
  {
    var pick := PickAgent(agents, TrendingAgentName, "demo_trending");
    if pick.Err? {
      return Err(pick.error);
    }
    var agent := agents[pick.value];
    var draft := BuildDemo1Post(TrendingTopics(trending));
    var created := ledger.CreateApproval(agent.id, "linkedin_post", draft, id, now);
    if created.Err? {
      return Err(created.error);
    }
    r := Ok(Demo1Ready(created.value));
  }

  function Demo1Prepared(id: string): string {
    "✅ Demo1 prepared a LinkedIn draft for approval.\n\nRun:\npending approvals\nThen:\napprove " + id + "\n"
  }

  /**
   * `demo1_run`: the newest agent whose `tools_json` is LIKE
   * '%demo_trending%' gets the bulleted trends draft queued for approval.
   */
  method Demo1Run(agents: seq<Agent>, ledger: ApprovalTable, trending: Result<string, string>, id: string, now: nat)
    returns (r: Result<string, string>)
    requires ledger.Valid()
    modifies ledger
    ensures ledger.Valid() && Successor(old(ledger.rows), ledger.rows)
    ensures LatestIndex(agents, ToolsLike("%" + DemoTrendingTool + "%")).None? ==>
      r == Err("❌ No agent found with tool demo_trending. Create Demo1 agent first.") && ledger.rows == old(ledger.rows)
    ensures LatestIndex(agents, ToolsLike("%" + DemoTrendingTool + "%")).Some? && Approvals.HasId(old(ledger.rows), id) ==>
      r.Err? && ledger.rows == old(ledger.rows)
    ensures LatestIndex(agents, ToolsLike("%" + DemoTrendingTool + "%")).Some? && !Approvals.HasId(old(ledger.rows), id) ==>
      var a := agents[LatestIndex(agents, ToolsLike("%" + DemoTrendingTool + "%")).value];
      r == Ok(Demo1Prepared(id))
      && ledger.rows == old(ledger.rows)
        + [Approval(id, a.id, "linkedin_post", TrendsDraft(TrendingTopics(trending)), Pending, now, None)]
  {
    var found := LatestIndex(agents, ToolsLike("%" + DemoTrendingTool + "%"));
    if found.None? {
      return Err("❌ No agent found with tool demo_trending. Create Demo1 agent first.");
    }
    var agent := agents[found.value];
    var draft := TrendsDraft(TrendingTopics(trending));
    var created := ledger.CreateApproval(agent.id, "linkedin_post", draft, id, now);
    if created.Err? {
      return Err(created.error);
    }
    r := Ok(Demo1Prepared(created.value));
  }

  /** The draft `run_demo1_now` queues: the first topic, or "OpenClaw" when there is none. */
  function NowDraft(topics: seq<string>): string {
    var top := if topics == [] then "OpenClaw" else topics[0];
    "🚀 Trending today: " + top + "\n\n…"
  }

  function Demo1Created(agentName: string, id: string): string {
    "✅ Demo1 draft created for agent '" + agentName + "'\nApproval id: " + id + "\n\nType: pending approvals"
  }

  /** `run_demo1_now`: like `run_demo1_once`, for the newest agent with the given name and without a tool check. */
  method RunDemo1Now(agents: seq<Agent>, ledger: ApprovalTable, agentName: string, trending: Result<string, string>,
                     id: string, now: nat)
    returns (r: Result<string, string>)
    requires ledger.Valid()
    modifies ledger
    ensures ledger.Valid() && Successor(old(ledger.rows), ledger.rows)
    ensures LatestIndex(agents, NameIs(agentName)).None? ==>
      r == Err("❌ Agent not found by that name.") && ledger.rows == old(ledger.rows)
    ensures LatestIndex(agents, NameIs(agentName)).Some? && Approvals.HasId(old(ledger.rows), id) ==>
      r.Err? && ledger.rows == old(ledger.rows)
    ensures LatestIndex(agents, NameIs(agentName)).Some? && !Approvals.HasId(old(ledger.rows), id) ==>
      var a := agents[LatestIndex(agents, NameIs(agentName)).value];
      r == Ok(Demo1Created(agentName, id))
      && ledger.rows == old(ledger.rows)
        + [Approval(id, a.id, "linkedin_post", NowDraft(TrendingTopics(trending)), Pending, now, None)]
  {
    var found := LatestIndex(agents, NameIs(agentName));
    if found.None? {
      return Err("❌ Agent not found by that name.");
    }
    var agent := agents[found.value];
    var draft := NowDraft(TrendingTopics(trending));
    var created := ledger.CreateApproval(agent.id, "linkedin_post", draft, id, now);
    if created.Err? {
      return Err(created.error);
    }
    r := Ok(Demo1Created(agentName, created.value));
  }

  // ---------------------------------------------------------------------
  // Demo 2: comment directly
  // ---------------------------------------------------------------------

  /**
   * `run_demo2_once`: checks the Hashtag Promo Agent, then runs
   * `linkedin_comment.js` with the promotional comment, without approval.
   */
  function RunDemo2Once(agents: seq<Agent>, exec: Executor): (r: Result<string, string>)
    ensures PickAgent(agents, HashtagAgentName, "demo_hashtag").Err? ==>
      r == Err(PickAgent(agents, HashtagAgentName, "demo_hashtag").error)
    ensures PickAgent(agents, HashtagAgentName, "demo_hashtag").Ok? ==>
      (r.Ok? <==> RunScript(exec, CommentScript, [BuildDemo2Comment(DemoRepoUrl)]).Ok?)
  {
    var pick := PickAgent(agents, HashtagAgentName, "demo_hashtag");
    if pick.Err? then Err(pick.error)
    else
      var run := RunScript(exec, CommentScript, [BuildDemo2Comment(DemoRepoUrl)]);
      if run.Ok? then Ok("✅ Demo2 done.\n\n" + run.value) else run
  }

  const Demo2RunComment := "Just shipped … Repo: https://github.com/<YOUR_USERNAME>/<YOUR_REPO>\n#openclaw"

  /** `demo2_run`: the newest agent whose `tools_json` is LIKE '%linkedin_comment%' triggers the comment script. */
  function Demo2Run(agents: seq<Agent>, exec: Executor): (r: Result<string, string>)
    ensures LatestIndex(agents, ToolsLike("%" + CommentTool + "%")).None? ==>
      r == Err("❌ No agent found with tool linkedin_comment. Create Demo2 agent first.")
    ensures LatestIndex(agents, ToolsLike("%" + CommentTool + "%")).Some? ==>
      (r.Ok? <==> RunScript(exec, CommentScript, [Demo2RunComment]).Ok?)
  {
    match LatestIndex(agents, ToolsLike("%" + CommentTool + "%"))
    case None => Err("❌ No agent found with tool linkedin_comment. Create Demo2 agent first.")
    case Some(_) =>
      match RunScript(exec, CommentScript, [Demo2RunComment])
      case Ok(out) => Ok("✅ Demo2 done (commented via browser automation).\n\n" + out)
      case Err(e) => Err(e)
  }

  function NowComment(githubUrl: string): string {
    "🚀 Quick share: … Repo: " + githubUrl + "\n…"
  }

  /** `run_demo2_now`: the newest agent with the given name triggers `linkedin_comment_openclaw.js`. */
  function RunDemo2Now(agents: seq<Agent>, agentName: string, githubUrl: string, exec: Executor): (r: Result<string, string>)
    ensures LatestIndex(agents, NameIs(agentName)).None? ==> r == Err("❌ Agent not found by that name.")
    ensures LatestIndex(agents, NameIs(agentName)).Some? ==>
      r == RunScript(exec, "linkedin_comment_openclaw.js", [NowComment(githubUrl)])
  {
    if LatestIndex(agents, NameIs(agentName)).None? then Err("❌ Agent not found by that name.")
    else RunScript(exec, "linkedin_comment_openclaw.js", [NowComment(githubUrl)])
  }

  /** Saves two agents in turn, stopping at the first failure. */
  method SaveBoth(table: AgentTable, d1: Agent, d2: Agent, now: nat) returns (r: Result<string, string>)
    requires table.Valid()
    requires !d1.enabled && !d2.enabled && d1.createdAt == now && d2.createdAt == now
    modifies table
    ensures table.Valid()
    ensures !Agents.HasId(old(table.rows), d1.id) && !Agents.HasId(old(table.rows), d2.id) && d1.id != d2.id ==>
      r == Ok("✅ Created Demo 1 + Demo 2 agents.") && table.rows == old(table.rows) + [d1, d2]
    ensures Agents.HasId(old(table.rows), d1.id) ==> r.Err? && table.rows == old(table.rows)
    ensures !Agents.HasId(old(table.rows), d1.id) && (Agents.HasId(old(table.rows), d2.id) || d1.id == d2.id) ==>
      r.Err? && table.rows == old(table.rows) + [d1]
  {
    var first := table.SaveAgentConfig(d1.id, d1.name, d1.role, d1.goal, d1.toolsJson, d1.schedule, d1.triggersJson, d1.sandbox, now);
    if first.Err? {
      return Err(first.error);
    }
    HasIdAppend(old(table.rows), d1, d2.id);
    var second := table.SaveAgentConfig(d2.id, d2.name, d2.role, d2.goal, d2.toolsJson, d2.schedule, d2.triggersJson, d2.sandbox, now);
    if second.Err? {
      return Err(second.error);
    }
    r := Ok("✅ Created Demo 1 + Demo 2 agents.");
  }

  /** `create_demo_agents`: saves the two demo agents, stopping at the first failure. */
  method CreateDemoAgents(table: AgentTable, id1: string, id2: string, now: nat) returns (r: Result<string, string>)
    requires table.Valid()
    modifies table
    ensures table.Valid()
    ensures !Agents.HasId(old(table.rows), id1) && !Agents.HasId(old(table.rows), id2) && id1 != id2 ==>
      r == Ok("✅ Created Demo 1 + Demo 2 agents.")
      && table.rows == old(table.rows) + [TrendingDemo(id1, now), HashtagDemo(id2, now)]
    ensures Agents.HasId(old(table.rows), id1) ==> r.Err? && table.rows == old(table.rows)
    ensures !Agents.HasId(old(table.rows), id1) && (Agents.HasId(old(table.rows), id2) || id1 == id2) ==>
      r.Err? && table.rows == old(table.rows) + [TrendingDemo(id1, now)]
  {
    r := SaveBoth(table, TrendingDemo(id1, now), HashtagDemo(id2, now), now);
  }
}
