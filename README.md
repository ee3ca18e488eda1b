# Automation agents desktop app: the approval ledger, the scheduler and the command gate

This project models, in Dafny, the core of the application's Rust back end
(`src-tauri/src/main.rs`):

- **Approval ledger.** The `approvals` table is a one-way state machine.
  `create_approval` adds a pending row. `list_pending_approvals` shows the
  pending rows, newest first. `approve_action` marks a pending row approved,
  stamps its decision time, and only then runs the action: `linkedin_post`
  runs `linkedin_post.js`, `linkedin_comment` runs `linkedin_comment.js`, and
  any other kind is an error. There is no reject operation, and no operation
  returns a row to pending.
- **Scheduler.** One pass of `scheduler_loop` reads the clock once as an
  (hour, minute) snapshot. A daily agent at 09:00 only queues a
  `linkedin_post` draft for approval. An hourly agent at minute 0 whose name
  contains "hashtag" runs Demo 2 directly, with no approval. The manual
  `scheduler_tick_now` only reports which keywords each schedule mentions.
- **Credentials and router.** `normalize_provider`, `save_user_api_key`,
  `clear_user_api_key`, `get_saved_llm`, the router line of
  `get_user_settings`, and how `llm_reply` picks the external adapter or the
  local Phi-3 model.
- **Agent registry.** `save_agent_config` and `list_agents`. The "latest
  agent" lookups the demos use, by exact name or by SQLite `LIKE` over
  `tools_json`. `parse_tools`, which reads malformed JSON as no tools.
- **Helpers.** `redact_secrets`, the trending-topic parser, the `send_message`
  allowlist gate, how `run_node_script` turns a process outcome into a
  result, and the demo post templates.

Modules:

- `Wrappers`: `Option`, `Result`.
- `Text`: the `str` operations used: `trim`, `to_lowercase`, `contains`,
  `replace`, `lines`, `join`.
- `ToolsJson`: `serde_json` for a `Vec<String>`, read and written.
- `NodeScript`: `run_node_script`.
- `Content`: trending topics and the post and comment templates.
- `Redaction`: `redact_secrets`.
- `CommandGate`: the decision part of `send_message`.
- `Credentials`: the `user_settings` row.
- `Router`: `llm_reply`.
- `Agents`: the `agents` table and SQLite `LIKE`.
- `Approvals`: the `approvals` table.
- `Demos`: the demo commands.
- `Scheduler`: the scheduler pass and the manual tick.

Tables whose rows the source updates are classes (`ApprovalTable`,
`AgentTable`, `UserSettings`). Their methods have `modifies` clauses and
state the whole new state. Pure computations are functions, with lemmas
relating them.

The following are parameters of the model:

- the wall clock, as `now: nat` and the scheduler's `(hour, minute)`;
- UUIDs, as `id: string`;
- the output of `openclaw trending`, as a `Result`;
- the outcome of a node process, through an `Executor` function;
- the four LLM back ends, as functions in `Adapters`.

A duplicate id stands for SQLite's PRIMARY KEY failure. It gives
`create_approval` and `save_agent_config` their real error path.

Facts about the code that the model keeps:

- the code has no reject operation;
- `redact_secrets` writes a marker after each key prefix and keeps the key
  characters;
- the scheduler never reads the `enabled` column;
- the hourly rule also tests the agent's name for "hashtag";
- `demo1_run`'s `LIKE '%demo_trending%'` treats `_` as a wildcard, so it
  also picks agents without the `demo_trending` tool.

## Model

| member | source | states |
|---|---|---|
| Approvals.ApprovalTable.CreateApproval | src-tauri/src/main.rs:57-74 | A duplicate id is the error `DuplicateId` and the table is unchanged. Otherwise exactly one pending, undecided row stamped `now` is appended and its id returned. The table stays valid and is a successor of the old one. |
| Approvals.FindPending | src-tauri/src/main.rs:681-687 | The result is none exactly when no row has that id and is pending. When found, the row at that position has the id and is pending. |
| Approvals.MarkApproved | src-tauri/src/main.rs:690-694 | Only the chosen row changes. It becomes approved with decision time `now`. |
| Approvals.ApproveIsSuccessor | src-tauri/src/main.rs:690-694 | Approving a pending row is a legal step: approved rows stay as they were, and id, kind and draft never change. A well-stamped table stays well-stamped. |
| Approvals.SuccessorTransitive | src-tauri/src/main.rs:43-56 | The successor relation composes, so any sequence of operations keeps approved rows frozen. |
| Approvals.ApprovedIsNotPending | src-tauri/src/main.rs:683-691 | After approval the id is no longer found pending, so a second approval of the same id fails. |
| Approvals.Dispatch | src-tauri/src/main.rs:699-719 | A post runs `linkedin_post.js` and a comment runs `linkedin_comment.js`, each with the draft as its only argument. The result succeeds exactly when the script does, prefixed with the approval message. Any other kind is the "Unknown approval kind" error. |
| Approvals.UnknownKindRunsNothing | src-tauri/src/main.rs:718 | For an unknown kind the outcome does not depend on the executor, so no script runs. |
| Approvals.ApprovalTable.ApproveAction | src-tauri/src/main.rs:674-720 | A missing or decided id is `NotFound` and changes nothing. Otherwise the found row is marked approved at `now` before the dispatch result is returned, whatever that result is. Afterwards the id is never pending. |
| Approvals.ListedIffPending | src-tauri/src/main.rs:643 | A row is listed exactly when it is in the table and pending. |
| Approvals.PendingOrder | src-tauri/src/main.rs:643 | A newly added pending row comes first in the list. An approved row adds nothing. |
| Approvals.PendingNewestFirstSorted | src-tauri/src/main.rs:643 | On a chronological table the pending list never increases in creation time. |
| Approvals.ApprovalTable.ListPendingApprovals | src-tauri/src/main.rs:638-672 | The loop builds exactly the header and the numbered entries of the pending rows, newest first, or the "No pending approvals" text when there are none. |
| Approvals.CreatedIsListedFirst | src-tauri/src/main.rs:638-672 | A row just created heads the pending list and the listing starts with its entry, numbered 1. |
| Agents.AgentTable.SaveAgentConfig | src-tauri/src/main.rs:1470-1516 | A duplicate id is the UNIQUE error and changes nothing. Otherwise exactly one row is appended with the given fields, disabled (the column default) and stamped `now`. Ids stay distinct. |
| Agents.AgentTable.ListAgents | src-tauri/src/main.rs:1520-1560 | The loop builds exactly the header and one numbered entry per agent, newest first, or the "No agents saved yet" text for an empty table. |
| Agents.NewestFirst | src-tauri/src/main.rs:1525 | The rows in reverse insertion order, same length. |
| Agents.NewestFirstSorted | src-tauri/src/main.rs:1525 | On a chronological table the listing never increases in creation time. |
| Agents.LatestIndex | src-tauri/src/main.rs:341-350 | None exactly when no row matches. Otherwise the row found matches and no later row does. |
| Agents.LatestIsNewest | src-tauri/src/main.rs:428 | On a chronological table the row found is at least as new as any matching row. |
| Agents.LatestIgnoresEnabled | src-tauri/src/main.rs:548 | No lookup reads the `enabled` column. |
| Agents.LikeAnything | src-tauri/src/main.rs:344 | `%` matches every text. |
| Agents.WindowGivesLike | src-tauri/src/main.rs:344 | A matching prefix window satisfies the pattern followed by `%`. |
| Agents.LikeGivesWindow | src-tauri/src/main.rs:344 | The converse: matching the pattern followed by `%` requires a matching prefix window. |
| Agents.LikeSubstring | src-tauri/src/main.rs:344 | `s LIKE '%t%'` holds exactly when `t` matches somewhere inside `s`, character by character, with `_` as a wildcard and ASCII case ignored. |
| Agents.ContainsGivesLike | src-tauri/src/main.rs:394 | A literal occurrence of the tool name always satisfies the LIKE lookup. |
| Agents.WindowMatchGivesLike | src-tauri/src/main.rs:344 | A window that matches the pattern satisfies `'%t%'`, whatever surrounds it. |
| ToolsJson.ParseChars | src-tauri/src/main.rs:453 | A string literal that parses leaves a strictly shorter remainder. |
| ToolsJson.ParseItems | src-tauri/src/main.rs:453 | A list of items that parses leaves a strictly shorter remainder. |
| ToolsJson.EscapePlain | src-tauri/src/main.rs:520 | Text made only of plain characters is written unescaped. |
| ToolsJson.EncodePlainSingle | src-tauri/src/main.rs:520 | A one-element list of plain characters is written as `["x"]`. |
| ToolsJson.EscapeCharStep | src-tauri/src/main.rs:453 | Parsing back one escaped character gives that character. |
| ToolsJson.ParseEscaped | src-tauri/src/main.rs:453 | Parsing back an escaped string and its closing quote gives the string and the remainder. |
| ToolsJson.ParseEncodedItems | src-tauri/src/main.rs:453 | Parsing back the written items gives the list and the remainder. |
| ToolsJson.ParseEncodedCons | src-tauri/src/main.rs:453 | Reading back one more written name in front of a list that reads back gives the longer list. |
| ToolsJson.DecodeEncodeTools | src-tauri/src/main.rs:452-454 | `parse_tools` reads back exactly the list that `serde_json::to_string` writes. |
| Demos.PickAgent | src-tauri/src/main.rs:546-556 | No agent with that name is the "not found" error. The newest agent with the name is picked exactly when its parsed tools include the tool. Otherwise it is the "tools missing" error. |
| Demos.MalformedToolsFailCheck | src-tauri/src/main.rs:452-454 | An agent whose `tools_json` does not parse always fails the tool check. |
| Demos.EncodedToolsCheck | src-tauri/src/main.rs:553-556 | For a tool list written by `serde_json`, the check passes exactly for the tools in it. |
| Demos.DemoAgentsPassToolCheck | src-tauri/src/main.rs:514-538 | When the newest agents of the two demo names carry the tool lists `create_demo_agents` writes, the checks of `run_demo1_once` (tool "demo_trending") and `run_demo2_once` (tool "demo_hashtag") pass. |
| Demos.LikeLookupOverMatches | src-tauri/src/main.rs:344 | An agent whose only tool is "demo" + c + "trending", for any plain c other than `_`, is picked by `demo1_run`'s lookup although `demo_trending` is not among its parsed tools. |
| Demos.UnderscoreWindow | src-tauri/src/main.rs:344 | Such a tool name differs from `demo_trending` yet matches it character by character under LIKE. |
| Demos.RunDemo1Once | src-tauri/src/main.rs:541-569 | A failed agent check returns its error and writes nothing. A duplicate id is an error and writes nothing. Otherwise exactly one pending `linkedin_post` row is appended, holding the post built from the current topics. Nothing is posted. |
| Demos.Demo1Run | src-tauri/src/main.rs:335-383 | No agent matching `'%demo_trending%'` is an error and writes nothing. Otherwise the newest matching agent gets the bulleted trends draft queued as one pending `linkedin_post` row. |
| Demos.RunDemo1Now | src-tauri/src/main.rs:420-451 | No agent with that name is an error and writes nothing. Otherwise the first-topic draft, or "OpenClaw" when there is no topic, is queued as one pending row for that agent. |
| Demos.RunDemo2Once | src-tauri/src/main.rs:572-595 | A failed agent check returns its error. Otherwise the result succeeds exactly when `linkedin_comment.js` with the promotional comment succeeds. There is no approval. |
| Demos.Demo2Run | src-tauri/src/main.rs:386-417 | No agent matching `'%linkedin_comment%'` is an error. Otherwise the result succeeds exactly when the comment script does. |
| Demos.RunDemo2Now | src-tauri/src/main.rs:484-512 | No agent with that name is an error. Otherwise the result is the outcome of `linkedin_comment_openclaw.js` with the comment naming the repository URL. |
| Demos.CreateDemoAgents | src-tauri/src/main.rs:514-538 | With fresh distinct ids, both demo agents are appended in order. A taken first id is an error and writes nothing. A taken second id is an error after the first agent was already saved, and only that agent stays. |
| Demos.SaveBoth | src-tauri/src/main.rs:514-538 | The two saves in turn: both appended in order, or the first failure returned with what was saved before it. |
| Scheduler.QueueDailyPost | src-tauri/src/main.rs:1592-1605 | The daily rule's effect on the log and the table is exactly the specification step `DailyStep`. |
| Scheduler.PassAgent | src-tauri/src/main.rs:1587-1613 | The loop body for one agent: the daily rule, then the hourly rule, as `AgentStep` states. |
| Scheduler.PassWith | src-tauri/src/main.rs:1586-1614 | The loop over the agents in table order yields exactly `PassUpTo` over all of them. |
| Scheduler.SchedulerPass | src-tauri/src/main.rs:1566-1621 | One pass, with the post built from the trending topics and `run_demo2_once` as its two effects, yields the events and table that `PassUpTo` specifies. |
| Scheduler.Fired | src-tauri/src/main.rs:1592 | Every fired rule names an agent position inside the pass. |
| Scheduler.PassEventsFollowFirings | src-tauri/src/main.rs:1587-1613 | The pass logs exactly one event per fired rule, in order, for the right agent. A failure for one agent does not stop the others. |
| Scheduler.PassKeeps | src-tauri/src/main.rs:1587 | Whatever holds before the pass and survives every agent's step holds throughout the pass. |
| Scheduler.PassQueuesDailyPosts | src-tauri/src/main.rs:1592-1605 | A pass keeps existing rows and appends only pending `linkedin_post` rows stamped with the pass's clock value. |
| Scheduler.PassCountsCreated | src-tauri/src/main.rs:1601-1604 | The table grows by exactly one row per daily event whose approval was created. The hourly rule adds none. |
| Scheduler.CreatedCountSnoc | src-tauri/src/main.rs:1601 | The count of created approvals grows by one exactly for a successful daily event. |
| Scheduler.LedgerIgnoresHourlyOutcome | src-tauri/src/main.rs:1608-1611 | The approvals a pass writes do not depend on how Demo 2 ends. |
| Scheduler.EffectsIgnoreEnabled | src-tauri/src/main.rs:577 | The Demo 2 run does not read the `enabled` column. |
| Scheduler.PassIgnoresEnabled | src-tauri/src/main.rs:1577 | The pass never reads `enabled`: two tables that differ only there give the same pass. |
| Scheduler.TickFired | src-tauri/src/main.rs:624-631 | Every reported rule names an agent position. |
| Scheduler.TickLinesName | src-tauri/src/main.rs:624-631 | The tick writes one line per reported rule, naming that agent and rule. |
| Scheduler.SchedulerTickNow | src-tauri/src/main.rs:599-635 | The output is the header followed by the lines for each daily and hourly keyword, in table order. |
| Scheduler.PassFiringsAreReported | src-tauri/src/main.rs:622-631 | Every rule a pass fires, at any time, is one the tick reports. |
| Scheduler.TickAgreesAtNine | src-tauri/src/main.rs:622-631 | At 09:00, when every hourly agent's name mentions "hashtag", the tick reports exactly what a pass fires. |
| Scheduler.TickOverReportsHourly | src-tauri/src/main.rs:628 | The tick reports an hourly agent whatever its name. A pass never runs one whose name lacks "hashtag". |
| Credentials.ProviderAlias | src-tauri/src/main.rs:303-308 | "gemini" and "google" give "gemini", "openai" and "gpt" give "openai", "claude" and "anthropic" give "anthropic"; any other name passes through unchanged. Canonical names stay canonical. |
| Credentials.NormalizeProvider | src-tauri/src/main.rs:301-309 | After trimming and lower-casing: google maps to gemini, gpt to openai, claude to anthropic, the three canonical names stay, and any other name is returned as the trimmed, lower-cased text. The result is always canonical. |
| Credentials.CanonicalIsFixed | src-tauri/src/main.rs:302 | Trimming and lower-casing leave a canonical name unchanged. |
| Credentials.NormalizeIdempotent | src-tauri/src/main.rs:301-309 | Normalizing twice is the same as normalizing once. |
| Credentials.NormalizeRecognizes | src-tauri/src/main.rs:301-309 | A name normalizes to gemini, openai or anthropic exactly when, trimmed and lower-cased, it is one of the six accepted spellings. |
| Credentials.AliasRecognizes | src-tauri/src/main.rs:303-308 | The alias table yields a known provider exactly for the six accepted spellings. |
| Credentials.SavedLlmOf | src-tauri/src/main.rs:311-333 | None exactly when the key is NULL or blank. Otherwise the trimmed, non-empty key with the normalized provider, gemini when none is stored. |
| Credentials.RouterLabelMatchesSaved | src-tauri/src/main.rs:855-859 | The router line says "external" exactly when `get_saved_llm` yields a key. |
| Credentials.SettingsReport | src-tauri/src/main.rs:835-861 | The report starts with the key line and ends with the router line. |
| Credentials.UserSettings.SaveUserApiKey | src-tauri/src/main.rs:790-813 | A blank key is the empty-key error and changes nothing. Otherwise it stores the trimmed key, the normalized provider and the time. |
| Credentials.UserSettings.ClearUserApiKey | src-tauri/src/main.rs:816-832 | Key and provider become NULL. Afterwards nothing is saved and the router line says local_phi3. |
| Credentials.SavedAfterSave | src-tauri/src/main.rs:790-813 | What a successful save stores, `get_saved_llm` reads back: the normalized provider and the trimmed key. |
| Router.Labelled | src-tauri/src/main.rs:1430-1455 | Answers and errors keep their outcome and carry the back end's name in front of the unchanged text. |
| Router.LlmReply | src-tauri/src/main.rs:1430-1455 | With nothing saved the local model answers. Otherwise the adapter the saved provider names is called with the saved key. |
| Router.NoKeyUsesOnlyLocal | src-tauri/src/main.rs:1448-1454 | With nothing saved, the external adapters play no part. |
| Router.KeyNeverFallsBackToLocal | src-tauri/src/main.rs:1431-1446 | With a saved key the local model plays no part, even when the external call fails. |
| Router.UnknownProviderIsError | src-tauri/src/main.rs:1438-1443 | An unknown provider is an error naming it, whatever the adapters would answer. |
| Router.ReportMatchesRoute | src-tauri/src/main.rs:835-861 | When the settings report shows local_phi3 the local model answers. When it shows external, the normalized provider's adapter answers. |
| Router.ClearedKeyRoutesLocal | src-tauri/src/main.rs:816-832 | After clearing the key the local model answers. |
| Router.SavedKeyRoutesExternal | src-tauri/src/main.rs:790-813 | After a save, replies come from the saved provider's adapter with the trimmed key. |
| CommandGate.FindAllowed | src-tauri/src/main.rs:880-888 | The scan finds a match exactly when the message starts with an allowed prefix. |
| CommandGate.ClassifyMessage | src-tauri/src/main.rs:867-926 | Logs are shown exactly for the three log requests. A message is blocked exactly when it is neither a log request nor allowed. Setup runs exactly for "setup openclaw". Anything else executed is allowed and runs as typed, trimmed. |
| CommandGate.SetupIsAllowed | src-tauri/src/main.rs:880 | "setup openclaw" is on the allowlist, so it is never blocked. |
| Redaction.RedactWithoutPrefixes | src-tauri/src/main.rs:1109-1119 | Text with neither prefix passes unchanged. |
| Redaction.NoEarlierMatch | src-tauri/src/main.rs:1113 | When the prefix has no border and does not occur before it, its first occurrence is where it was put. |
| Redaction.RedactIsTwoPasses | src-tauri/src/main.rs:1109-1119 | The `contains` guards only skip passes that would change nothing: the result is the "AIza" pass followed by the "sk-" pass. |
| Redaction.MarkFirst | src-tauri/src/main.rs:1113 | A pass keeps the text before the first occurrence of the prefix, writes the marker right after it and goes on with the rest, so every occurrence is marked. |
| Redaction.UnmarkPass | src-tauri/src/main.rs:1113 | Turning every prefix-plus-marker back into the prefix undoes a pass: a pass only inserts markers. |
| Redaction.RedactOnlyMarks | src-tauri/src/main.rs:1109-1119 | Redaction only inserts markers: for every text, removing the markers after "sk-" and then after "AIza" gives the original text back. |
| Redaction.MarkSingle | src-tauri/src/main.rs:1113 | When a prefix occurs exactly once, a pass writes the marker right after it and leaves the rest. |
| Redaction.RedactOpenAiKey | src-tauri/src/main.rs:1115-1117 | With no "AIza" present, the text up to the first "sk-" is kept, the marker follows that prefix, the key characters stay, and the rest is marked the same way at each later "sk-". |
| Redaction.RedactGoogleKey | src-tauri/src/main.rs:1112-1114 | The first pass keeps the text up to the first "AIza", writes the marker after it and after each later "AIza"; the second pass then marks the "sk-" prefixes of that result. |
| NodeScript.RunNodeScript | src-tauri/src/main.rs:265-297 | Success exactly when the process exited successfully. A failure reports stderr, or stdout when stderr is blank. A success reports stdout, or "Done" when stdout is blank, so a success never reports blank text. |
| Content.TopicLines | src-tauri/src/main.rs:771-773 | At most as many topics as lines, each non-empty, trimmed and on one line. Which topics, and in what order, is fixed by TopicLinesSnoc. |
| Content.TopicLinesSnoc | src-tauri/src/main.rs:771-773 | One more line adds its trimmed text at the end of the topics, or nothing when it is blank: the topics are the trimmed non-blank lines, in order, none dropped. |
| Content.TopicLinesEmpty | src-tauri/src/main.rs:771-773 | No topic comes out exactly when every line is blank. |
| Content.LinesHaveNoNewline | src-tauri/src/main.rs:771 | No line that `lines` yields contains a line break. |
| Content.TrimKeepsOut | src-tauri/src/main.rs:772 | Trimming only removes characters. |
| Content.OutputTopics | src-tauri/src/main.rs:771-773 | Every topic read from the output is a proper topic, and there are none exactly when every line of the output is blank. |
| Content.OutputTopicsOfLines | src-tauri/src/main.rs:771-773 | Output printed as plain lines gives exactly the topics of those lines. |
| Content.TrendingTopics | src-tauri/src/main.rs:765-788 | Between one and five topics, each a proper topic. The fallback list when the command failed or printed only blank lines. Otherwise the first non-blank lines, trimmed, in order, at most five. |
| Content.FallbackAreTopics | src-tauri/src/main.rs:782-787 | The fallback list consists of proper topics. |
| Content.BulletLines | src-tauri/src/main.rs:356-361 | One bullet per topic, at most five. |
| Content.BulletsReadBack | src-tauri/src/main.rs:356-362 | Splitting the joined bullets at line ends gives back exactly the numbered bullets, one per topic. |
| Content.BuildDemo1Post | src-tauri/src/main.rs:456-472 | The post has the fixed lead and tail, with the first topic between them, or "AI agents" when there is no topic. |
| Text.Trim | src-tauri/src/main.rs:868 | The result is trimmed, and it is empty exactly when the text is blank. |
| Text.TrimIdempotent | src-tauri/src/main.rs:868 | Trimming twice is the same as trimming once. |
| Text.ToLowerIdempotent | src-tauri/src/main.rs:869 | Lower-casing twice is the same as lower-casing once. |
| Text.ReplaceAtFirst | src-tauri/src/main.rs:1113 | `replace` copies everything before the first match, then writes the replacement. |
| Text.ReplaceAbsent | src-tauri/src/main.rs:1112 | `replace` of an absent pattern changes nothing. |
| Text.IndexOf | src-tauri/src/main.rs:771 | The first position of the character, or the length when it does not occur. |
| Text.LinesOfJoin | src-tauri/src/main.rs:356-362 | Splitting plain lines joined with line breaks gives them back. |
| Text.NatToString | src-tauri/src/main.rs:660-663 | A non-empty string of decimal digits with no leading zero, whose value DecimalOfNatToString proves to be `n`. |
| Text.DecimalOfNatToString | src-tauri/src/main.rs:660-663 | Reading the written digits back as a decimal number gives `n`. |
| Text.NatToStringInjective | src-tauri/src/main.rs:660-663 | Different numbers are written differently. |

## Left out

- Logging (`write_log*`) is left out. The scheduler pass returns its log events instead of writing them.
- `read_last_logs` is left out. `send_message` is modelled only as far as the verdict `ShowLogs`.
- SQLite is not modelled. Error paths of `open_db` and of query preparation are left out. Timestamps are numbers from a clock that never runs backwards. Rows with the same creation second have no specified order, so the model lists them in reverse insertion order.
- Process spawning, `clean_ansi` and the HTTP bodies of the four LLM adapters are outside the model. Their outcomes are inputs: `NodeRun`, `Executor`, `Adapters`.
- Async join errors of `spawn_blocking` and the 60-second sleep of `scheduler_loop` are left out. One pass of the loop is modelled, from a single clock snapshot.
- `setup_openclaw`, `openclaw_security_audit`, `openclaw_finish_onboarding`, `linkedin_login` and `linkedin_post` start external programs and are not modelled. `send_message` stops at the verdict `RunSetup`, and the command run for `Execute` is not modelled.
- `set_llm_key` and `show_settings` only forward to the modelled commands. `main`, the paths (`db_file_path`, `project_root`, `automation_dir`) and the table creation are plumbing.
- Text.ToLower: only ASCII letters are lower-cased, while Rust's `to_lowercase` also folds other scripts.
- The fixed paragraphs of the demo posts and comments are shortened to an ellipsis. The model keeps the parts that vary: topics, bullets, ids and the repository URL.
- Demos.TrendingDemo: the demo agents' `tools_json` is computed by `EncodeTools`, the model of `serde_json::to_string`. The model does not spell that text out character by character.
- Credentials.SettingsReport: states only the first and last lines of the report, not the middle line with the stored provider.
- Scheduler.SchedulerPass: the agents are handled in table order. The source's query has no ORDER BY.
- Scheduler.PassWith: the two effects, the draft builder and the Demo 2 run, are parameters. `SchedulerPass` binds them to the real functions.
- Scheduler.SchedulerTickNow: the report lines are collected and joined once at the end, instead of appended one by one. The text is the same.
