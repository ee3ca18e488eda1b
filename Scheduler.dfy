/**
 * The background scheduler: one pass of `scheduler_loop` (main.rs:1566-1621)
 * over the agents, with the wall clock read once as an (hour, minute)
 * snapshot, and the manual tick `scheduler_tick_now` (main.rs:599-635).
 *
 * A daily agent at 09:00 only queues a `linkedin_post` draft for approval;
 * an hourly agent at minute 0 whose name contains "hashtag" runs Demo 2
 * directly. Nothing reads the `enabled` column, and a failure for one agent
 * does not stop the pass.
 */
module Scheduler {
  import opened Wrappers
  import opened Text
  import opened NodeScript
  import opened Content
  import opened Agents
  import opened Approvals
  import opened Demos

  /** The agent has a schedule and its lower-cased text contains `word`. */
  predicate ScheduleMentions(a: Agent, word: string) {
    a.schedule.Some? && Contains(ToLower(a.schedule.value), word)
  }

  predicate FiresDaily(a: Agent, hour: nat, minute: nat) {
    ScheduleMentions(a, "daily") && hour == 9 && minute == 0
  }

  predicate FiresHourly(a: Agent, minute: nat) {
    ScheduleMentions(a, "hourly") && minute == 0 && Contains(ToLower(a.name), "hashtag")
  }

  /**
   * What one pass is given from outside: the clock snapshot, the creation
   * time, the fresh approval id and the trending-topics output for the
   * agent at each position, and the node-script executor.
   */
  datatype PassInputs = PassInputs(
    hour: nat,
    minute: nat,
    now: nat,
    approvalId: nat -> string,
    trending: nat -> Result<string, string>,
    exec: Executor)

  /** What the pass logs: which rule fired for which agent, and how it ended. */
  datatype PassEvent =
    | DailyFired(agentId: string, created: Result<string, string>)
    | HourlyFired(agentId: string, ran: Result<string, string>)

  /** The log so far and the approvals table, part way through a pass. */
  datatype PassState = PassState(events: seq<PassEvent>, rows: seq<Approval>)

  /**
   * What the two rules produce, kept apart from how the pass threads them:
   * the draft the daily rule queues for the agent at each position, and how
   * the hourly rule's Demo 2 run ends.
   */
  datatype Effects = Effects(draft: nat -> string, ran: () -> Result<string, string>)

  /** The effects of the real rules: the post built from the trending topics, and `run_demo2_once`. */
  function PassEffects(agents: seq<Agent>, ins: PassInputs): Effects {
    Effects((i: nat) => BuildDemo1Post(TrendingTopics(ins.trending(i))), () => RunDemo2Once(agents, ins.exec))
  }

  /** The daily rule for the agent at `i`: queue the post built from the current topics. */
  function DailyStep(agents: seq<Agent>, i: nat, st: PassState, ins: PassInputs, fx: Effects): PassState
    requires i < |agents|
  {
    var id := ins.approvalId(i);
    if Approvals.HasId(st.rows, id) then PassState(st.events + [DailyFired(agents[i].id, Err(DuplicateId))], st.rows)
    else
      PassState(st.events + [DailyFired(agents[i].id, Ok(id))],
                st.rows + [Approval(id, agents[i].id, "linkedin_post", fx.draft(i), Pending, ins.now, None)])
  }

  /** The hourly rule for the agent at `i`: run Demo 2 and log how it ended. */
  function HourlyStep(agents: seq<Agent>, i: nat, st: PassState, fx: Effects): PassState
    requires i < |agents|
  {
    PassState(st.events + [HourlyFired(agents[i].id, fx.ran())], st.rows)
  }

  /** Both rules, in the order the loop body tries them, for the agent at `i`. */
  function AgentStep(agents: seq<Agent>, i: nat, st: PassState, ins: PassInputs, fx: Effects): PassState
    requires i < |agents|
  {
    var st' := if FiresDaily(agents[i], ins.hour, ins.minute) then DailyStep(agents, i, st, ins, fx) else st;
    if FiresHourly(agents[i], ins.minute) then HourlyStep(agents, i, st', fx) else st'
  }

  /** The log and the approvals table after the pass has handled `agents[..n]`. */
  function PassUpTo(agents: seq<Agent>, n: nat, rows0: seq<Approval>, ins: PassInputs, fx: Effects): PassState
    requires n <= |agents|
  {
    if n == 0 then PassState([], rows0)
    else AgentStep(agents, n - 1, PassUpTo(agents, n - 1, rows0, ins, fx), ins, fx)
  }

  /** The daily rule's work for the agent at `i`: queue its draft for approval. */
  method QueueDailyPost(agents: seq<Agent>, i: nat, ledger: ApprovalTable, ins: PassInputs, fx: Effects,
                        ghost events: seq<PassEvent>)
    returns (e: PassEvent)
    requires i < |agents| && ledger.Valid()
    modifies ledger
    ensures ledger.Valid()
    ensures PassState(events + [e], ledger.rows) == DailyStep(agents, i, PassState(events, old(ledger.rows)), ins, fx)
  {
    var draft := fx.draft(i);
    var created := ledger.CreateApproval(agents[i].id, "linkedin_post", draft, ins.approvalId(i), ins.now);
    e := DailyFired(agents[i].id, created);
  }

  /** The loop body of `scheduler_loop` for the agent at `i`: the daily rule, then the hourly rule. */
  method PassAgent(agents: seq<Agent>, i: nat, ledger: ApprovalTable, ins: PassInputs, fx: Effects, events: seq<PassEvent>)
    returns (events': seq<PassEvent>)
    requires i < |agents| && ledger.Valid()
    modifies ledger
    ensures ledger.Valid()
    ensures PassState(events', ledger.rows) == AgentStep(agents, i, PassState(events, old(ledger.rows)), ins, fx)
  {
    var a := agents[i];
    events' := events;
    if a.schedule.Some? {
      var s := ToLower(a.schedule.value);
      if Contains(s, "daily") && ins.hour == 9 && ins.minute == 0 {
        var e := QueueDailyPost(agents, i, ledger, ins, fx, events);
        events' := events' + [e];
      }
      if Contains(s, "hourly") && ins.minute == 0 && Contains(ToLower(a.name), "hashtag") {
        var ran := fx.ran();
        events' := events' + [HourlyFired(a.id, ran)];
      }
    }
  }

  /** Every agent is handled in table order, whatever happened to the ones before it. */
  method PassWith(agents: seq<Agent>, ledger: ApprovalTable, ins: PassInputs, fx: Effects) returns (events: seq<PassEvent>)
    requires ledger.Valid()
    modifies ledger
    ensures ledger.Valid()
    ensures PassState(events, ledger.rows) == PassUpTo(agents, |agents|, old(ledger.rows), ins, fx)
  {
    events := [];
    var i := 0;
    while i < |agents|
      invariant i <= |agents|
      invariant ledger.Valid()
      invariant PassState(events, ledger.rows) == PassUpTo(agents, i, old(ledger.rows), ins, fx)
    {
      events := PassAgent(agents, i, ledger, ins, fx, events);
      i := i + 1;
    }
  }

  /**
   * One pass of `scheduler_loop`: the daily rule drafts a post from the
   * trending topics, the hourly rule runs Demo 2 once.
   */
  method SchedulerPass(agents: seq<Agent>, ledger: ApprovalTable, ins: PassInputs) returns (events: seq<PassEvent>)
    requires ledger.Valid()
    modifies ledger
    ensures ledger.Valid()
    ensures PassState(events, ledger.rows) == PassUpTo(agents, |agents|, old(ledger.rows), ins, PassEffects(agents, ins))
  {
    events := PassWith(agents, ledger, ins, PassEffects(agents, ins));
  }

  // ---------------------------------------------------------------------
  // What a pass does
  // ---------------------------------------------------------------------

  datatype Rule = Daily | Hourly

  /** The rules that fire for `agents[..n]` at `hour:minute`, in pass order, with the agent's position. */
  function Fired(agents: seq<Agent>, n: nat, hour: nat, minute: nat): (r: seq<(Rule, nat)>)
    requires n <= |agents|
    ensures forall k :: 0 <= k < |r| ==> r[k].1 < n
  {
    if n == 0 then []
    else
      var a := agents[n - 1];
      Fired(agents, n - 1, hour, minute)
      + (if FiresDaily(a, hour, minute) then [(Daily, n - 1)] else [])
      + (if FiresHourly(a, minute) then [(Hourly, n - 1)] else [])
  }

  function EventRule(e: PassEvent): Rule {
    if e.DailyFired? then Daily else Hourly
  }

  /**
   * The pass logs exactly one event per rule that fires, in order, for the
   * right agent: an error for one agent does not stop the others.
   */
  lemma {:induction false} PassEventsFollowFirings(agents: seq<Agent>, n: nat, rows0: seq<Approval>, ins: PassInputs, fx: Effects)
    requires n <= |agents|
    ensures var events := PassUpTo(agents, n, rows0, ins, fx).events;
      var fired := Fired(agents, n, ins.hour, ins.minute);
      |events| == |fired|
      && forall k :: 0 <= k < |events| ==> EventRule(events[k]) == fired[k].0 && events[k].agentId == agents[fired[k].1].id
    decreases n
  {
    if n > 0 {
      PassEventsFollowFirings(agents, n - 1, rows0, ins, fx);
    }
  }

  /** A new row the daily rule writes: a pending, undecided post stamped with the pass time. */
  predicate QueuedPost(r: Approval, now: nat) {
    r.kind == "linkedin_post" && r.status == Pending && r.decidedAt.None? && r.createdAt == now
  }

  /** The number of daily events that created an approval. */
  function CreatedCount(events: seq<PassEvent>): nat {
    if events == [] then 0
    else
      var e := events[|events| - 1];
      CreatedCount(events[..|events| - 1]) + (if e.DailyFired? && e.created.Ok? then 1 else 0)
  }

  lemma CreatedCountSnoc(events: seq<PassEvent>, e: PassEvent)
    ensures CreatedCount(events + [e]) == CreatedCount(events) + (if e.DailyFired? && e.created.Ok? then 1 else 0)
  {
    assert (events + [e])[..|events|] == events;
  }

  /** The state `st` keeps `rows0` as it was and adds only queued posts after it. */
  predicate QueuedSince(rows0: seq<Approval>, st: PassState, now: nat) {
    |rows0| <= |st.rows|
    && (forall k :: 0 <= k < |rows0| ==> st.rows[k] == rows0[k])
    && forall k :: |rows0| <= k < |st.rows| ==> QueuedPost(st.rows[k], now)
  }

  /** Whatever holds before the pass and survives any agent's step holds part way through it. */
  lemma {:induction false} PassKeeps(agents: seq<Agent>, n: nat, rows0: seq<Approval>, ins: PassInputs, fx: Effects,
                                     inv: PassState -> bool)
    requires n <= |agents|
    requires inv(PassState([], rows0))
    requires forall i: nat, st :: i < |agents| && inv(st) ==> inv(AgentStep(agents, i, st, ins, fx))
    ensures inv(PassUpTo(agents, n, rows0, ins, fx))
    decreases n
  {
    if n > 0 {
      PassKeeps(agents, n - 1, rows0, ins, fx, inv);
    }
  }

  lemma AgentStepQueues(agents: seq<Agent>, i: nat, rows0: seq<Approval>, st: PassState, ins: PassInputs, fx: Effects)
    requires i < |agents| && QueuedSince(rows0, st, ins.now)
    ensures QueuedSince(rows0, AgentStep(agents, i, st, ins, fx), ins.now)
  {
  }

  /**
   * A pass only appends to the approvals table, and everything it appends
   * is a pending `linkedin_post` stamped with the pass time.
   */
  lemma PassQueuesDailyPosts(agents: seq<Agent>, n: nat, rows0: seq<Approval>, ins: PassInputs, fx: Effects)
    requires n <= |agents|
    ensures QueuedSince(rows0, PassUpTo(agents, n, rows0, ins, fx), ins.now)
  {
    forall i: nat, st | i < |agents| && QueuedSince(rows0, st, ins.now)
      ensures QueuedSince(rows0, AgentStep(agents, i, st, ins, fx), ins.now)
    {
      AgentStepQueues(agents, i, rows0, st, ins, fx);
    }
    PassKeeps(agents, n, rows0, ins, fx, st => QueuedSince(rows0, st, ins.now));
  }

  /** The table has grown by one row per daily event that created an approval. */
  predicate CountsCreated(rows0: seq<Approval>, st: PassState) {
    |st.rows| == |rows0| + CreatedCount(st.events)
  }

  lemma AgentStepCounts(agents: seq<Agent>, i: nat, rows0: seq<Approval>, st: PassState, ins: PassInputs, fx: Effects)
    requires i < |agents| && CountsCreated(rows0, st)
    ensures CountsCreated(rows0, AgentStep(agents, i, st, ins, fx))
  {
    var st1 := if FiresDaily(agents[i], ins.hour, ins.minute) then DailyStep(agents, i, st, ins, fx) else st;
    if FiresDaily(agents[i], ins.hour, ins.minute) {
      CreatedCountSnoc(st.events, st1.events[|st.events|]);
      assert st1.events == st.events + [st1.events[|st.events|]];
    }
    if FiresHourly(agents[i], ins.minute) {
      var st2 := HourlyStep(agents, i, st1, fx);
      CreatedCountSnoc(st1.events, st2.events[|st1.events|]);
      assert st2.events == st1.events + [st2.events[|st1.events|]];
    }
  }

  /** The pass adds exactly one approval per daily event that succeeded; the hourly rule adds none. */
  lemma PassCountsCreated(agents: seq<Agent>, n: nat, rows0: seq<Approval>, ins: PassInputs, fx: Effects)
    requires n <= |agents|
    ensures |PassUpTo(agents, n, rows0, ins, fx).rows| == |rows0| + CreatedCount(PassUpTo(agents, n, rows0, ins, fx).events)
  {
    forall i: nat, st | i < |agents| && CountsCreated(rows0, st)
      ensures CountsCreated(rows0, AgentStep(agents, i, st, ins, fx))
    {
      AgentStepCounts(agents, i, rows0, st, ins, fx);
    }
    PassKeeps(agents, n, rows0, ins, fx, st => CountsCreated(rows0, st));
  }

  /**
   * The approvals a pass writes do not depend on how the hourly rule's
   * Demo 2 run ends, and so not on the node-script executor either.
   */
  lemma {:induction false} LedgerIgnoresHourlyOutcome(agents: seq<Agent>, n: nat, rows0: seq<Approval>, ins: PassInputs, fx: Effects, ran: () -> Result<string, string>)
    requires n <= |agents|
    ensures PassUpTo(agents, n, rows0, ins, fx).rows == PassUpTo(agents, n, rows0, ins, fx.(ran := ran)).rows
    decreases n
  {
    if n > 0 {
      LedgerIgnoresHourlyOutcome(agents, n - 1, rows0, ins, fx, ran);
    }
  }

  /** The Demo 2 run the hourly rule makes does not read the `enabled` column. */
  lemma EffectsIgnoreEnabled(agents: seq<Agent>, others: seq<Agent>, ins: PassInputs)
    requires SameButEnabled(agents, others)
    ensures PassEffects(agents, ins).ran() == PassEffects(others, ins).ran()
  {
    LatestIgnoresEnabled(agents, others, NameIs(HashtagAgentName));
  }

  /** Two sets of effects that give the same drafts and the same hourly outcome. */
  ghost predicate SameEffects(fx: Effects, fx': Effects) {
    fx.ran() == fx'.ran() && forall i: nat :: fx.draft(i) == fx'.draft(i)
  }

  lemma AgentStepIgnoresEnabled(agents: seq<Agent>, others: seq<Agent>, i: nat, st: PassState, ins: PassInputs, fx: Effects, fx': Effects)
    requires i < |agents| && SameButEnabled(agents, others) && SameEffects(fx, fx')
    ensures AgentStep(agents, i, st, ins, fx) == AgentStep(others, i, st, ins, fx')
  {
    assert others[i] == agents[i].(enabled := others[i].enabled);
  }

  lemma {:induction false} StepsIgnoreEnabled(agents: seq<Agent>, others: seq<Agent>, n: nat, rows0: seq<Approval>, ins: PassInputs, fx: Effects, fx': Effects)
    requires n <= |agents| && SameButEnabled(agents, others) && SameEffects(fx, fx')
    ensures PassUpTo(agents, n, rows0, ins, fx) == PassUpTo(others, n, rows0, ins, fx')
    decreases n
  {
    if n > 0 {
      var st := PassUpTo(agents, n - 1, rows0, ins, fx);
      StepsIgnoreEnabled(agents, others, n - 1, rows0, ins, fx, fx');
      AgentStepIgnoresEnabled(agents, others, n - 1, st, ins, fx, fx');
    }
  }

  /**
   * Nothing in a pass reads the `enabled` column: a disabled agent fires
   * exactly as it would if it were enabled.
   */
  lemma PassIgnoresEnabled(agents: seq<Agent>, others: seq<Agent>, rows0: seq<Approval>, ins: PassInputs)
    requires SameButEnabled(agents, others)
    ensures PassUpTo(agents, |agents|, rows0, ins, PassEffects(agents, ins))
      == PassUpTo(others, |others|, rows0, ins, PassEffects(others, ins))
  {
    EffectsIgnoreEnabled(agents, others, ins);
    StepsIgnoreEnabled(agents, others, |agents|, rows0, ins, PassEffects(agents, ins), PassEffects(others, ins));
  }

  // ---------------------------------------------------------------------
  // The manual tick
  // ---------------------------------------------------------------------

  /**
   * The rules `scheduler_tick_now` reports for `agents[..n]`: it only looks
   * for the keywords in the schedule, with no clock and no name test.
   */
  function TickFired(agents: seq<Agent>, n: nat): (r: seq<(Rule, nat)>)
    requires n <= |agents|
    ensures forall k :: 0 <= k < |r| ==> r[k].1 < n
  {
    if n == 0 then []
    else
      var a := agents[n - 1];
      TickFired(agents, n - 1)
      + (if ScheduleMentions(a, "daily") then [(Daily, n - 1)] else [])
      + (if ScheduleMentions(a, "hourly") then [(Hourly, n - 1)] else [])
  }

  const TickHeader := "⏱ Scheduler tick executed:\n"

  function TickLine(name: string, rule: Rule): string {
    (if rule == Daily then "✅ daily fired: " else "✅ hourly fired: ") + name + "\n"
  }

  /** The report lines for `agents[..n]`, one per keyword found, in table order. */
  function TickLines(agents: seq<Agent>, n: nat): seq<string>
    requires n <= |agents|
  {
    if n == 0 then []
    else
      var a := agents[n - 1];
      TickLines(agents, n - 1)
      + (if ScheduleMentions(a, "daily") then [TickLine(a.name, Daily)] else [])
      + (if ScheduleMentions(a, "hourly") then [TickLine(a.name, Hourly)] else [])
  }

  function Concat(parts: seq<string>): string {
    if parts == [] then [] else Concat(parts[..|parts| - 1]) + parts[|parts| - 1]
  }

  /** The tick writes one line per reported rule, naming the agent it was found on. */
  lemma {:induction false} TickLinesName(agents: seq<Agent>, n: nat)
    requires n <= |agents|
    ensures |TickLines(agents, n)| == |TickFired(agents, n)|
    ensures forall k :: 0 <= k < |TickFired(agents, n)| ==>
      TickLines(agents, n)[k] == TickLine(agents[TickFired(agents, n)[k].1].name, TickFired(agents, n)[k].0)
    decreases n
  {
    if n > 0 {
      TickLinesName(agents, n - 1);
    }
  }

  /**
   * `scheduler_tick_now`: the header, then the report lines. The lines are
   * collected first and joined once at the end.
   */
  method SchedulerTickNow(agents: seq<Agent>) returns (out: string)
    ensures out == TickHeader + Concat(TickLines(agents, |agents|))
  {
    var lines: seq<string> := [];
    var i := 0;
    while i < |agents|
      invariant i <= |agents|
      invariant lines == TickLines(agents, i)
    {
      var a := agents[i];
      var sched := if a.schedule.Some? then ToLower(a.schedule.value) else "";
      var daily := if a.schedule.Some? && Contains(sched, "daily") then [TickLine(a.name, Daily)] else [];
      var hourly := if a.schedule.Some? && Contains(sched, "hourly") then [TickLine(a.name, Hourly)] else [];
      lines := lines + daily + hourly;
      i := i + 1;
    }
    out := TickHeader + Concat(lines);
  }

  /** Every rule a pass fires at any time of day is one the tick reports. */
  lemma {:induction false} PassFiringsAreReported(agents: seq<Agent>, n: nat, hour: nat, minute: nat)
    requires n <= |agents|
    ensures forall x :: x in Fired(agents, n, hour, minute) ==> x in TickFired(agents, n)
    decreases n
  {
    if n > 0 {
      PassFiringsAreReported(agents, n - 1, hour, minute);
    }
  }

  /** At 09:00, when every hourly agent's name mentions "hashtag", the tick reports exactly what a pass fires. */
  lemma {:induction false} TickAgreesAtNine(agents: seq<Agent>, n: nat)
    requires n <= |agents|
    requires forall k :: 0 <= k < |agents| && ScheduleMentions(agents[k], "hourly") ==> Contains(ToLower(agents[k].name), "hashtag")
    ensures Fired(agents, n, 9, 0) == TickFired(agents, n)
    decreases n
  {
    if n > 0 {
      TickAgreesAtNine(agents, n - 1);
    }
  }

  /**
   * The tick reports an hourly agent whatever its name, while a pass never
   * runs one whose name lacks "hashtag", at any time of day.
   */
  lemma TickOverReportsHourly(a: Agent, hour: nat, minute: nat)
    requires ScheduleMentions(a, "hourly") && !ScheduleMentions(a, "daily")
    requires !Contains(ToLower(a.name), "hashtag")
    ensures TickFired([a], 1) == [(Hourly, 0)]
    ensures Fired([a], 1, hour, minute) == []
  {
  }
}
