/**
 * The tail of Program.Run: once the configuration is resolved, each
 * selected task is started in a fixed order, the first one reporting
 * failure ends the run, and CompleteTasks runs only when none failed.
 */
module Dispatch {
  import opened Configuration

  /** The task methods Run calls; CartoTask carries the demo-reports flag it is given. */
  datatype Task =
    | GenerateKeyTask | ScannerTask | CartoTask(withDemoReports: bool) | HealthCheckAnalysis | GraphAnalysis
    | HealthCheckConsolidationTask | GraphConsolidationTask | RegenerateHtmlTask | ReloadXmlReport
    | GenerateDemoReportTask | UploadAllReportTask

  /** The number of task slots in Run. */
  const SlotCount: nat := 11

  /** The position of a task's `if` block in Run. */
  function Rank(t: Task): (k: nat)
    ensures k < SlotCount
  {
    match t
    case GenerateKeyTask => 0
    case ScannerTask => 1
    case CartoTask(_) => 2
    case HealthCheckAnalysis => 3
    case GraphAnalysis => 4
    case HealthCheckConsolidationTask => 5
    case GraphConsolidationTask => 6
    case RegenerateHtmlTask => 7
    case ReloadXmlReport => 8
    case GenerateDemoReportTask => 9
    case UploadAllReportTask => 10
  }

  /** A consolidation Run adds on its own after an interactive analysis of every domain (server "*"). */
  predicate AutoConsolidation(analysis: bool, c: Config) {
    analysis && c.tasks.server == "*" && c.tasks.interactiveMode
  }

  /** The guard of the `if` block that starts `t`. */
  predicate Selected(t: Task, c: Config) {
    var i := c.intents;
    match t
    case GenerateKeyTask => i.generateKey
    case ScannerTask => i.scanner
    case CartoTask(demo) => i.carto && demo == i.generateDemoReports
    case HealthCheckAnalysis => i.healthCheckReport
    case GraphAnalysis => i.advancedLive
    case HealthCheckConsolidationTask => i.healthCheckConsolidation || AutoConsolidation(i.healthCheckReport, c)
    case GraphConsolidationTask => i.graphConsolidation || AutoConsolidation(i.advancedLive, c)
    case RegenerateHtmlTask => i.regenerateReport
    case ReloadXmlReport => i.reloadReport
    case GenerateDemoReportTask => i.generateDemoReports && !i.carto
    case UploadAllReportTask => i.uploadAllReport
  }

  /** The task the `if` block at position `k` would start. */
  function TaskAt(k: nat, c: Config): (t: Task)
    requires k < SlotCount
    ensures Rank(t) == k
  {
    if k == 0 then GenerateKeyTask
    else if k == 1 then ScannerTask
    else if k == 2 then CartoTask(c.intents.generateDemoReports)
    else if k == 3 then HealthCheckAnalysis
    else if k == 4 then GraphAnalysis
    else if k == 5 then HealthCheckConsolidationTask
    else if k == 6 then GraphConsolidationTask
    else if k == 7 then RegenerateHtmlTask
    else if k == 8 then ReloadXmlReport
    else if k == 9 then GenerateDemoReportTask
    else UploadAllReportTask
  }

  /** The task block `k` starts when its guard holds, or nothing. */
  function Block(c: Config, k: nat): seq<Task>
    requires k < SlotCount
  {
    if Selected(TaskAt(k, c), c) then [TaskAt(k, c)] else []
  }

  /** The tasks of the blocks from position `k` on whose guard holds, in block order. */
  function SelectFrom(c: Config, k: nat): seq<Task>
    decreases SlotCount - k
  {
    if k >= SlotCount then [] else Block(c, k) + SelectFrom(c, k + 1)
  }

  /** Every task Run would start for this configuration, in order, if all succeeded. */
  function Planned(c: Config): seq<Task> {
    SelectFrom(c, 0)
  }

  /** The tasks started and whether CompleteTasks was reached. */
  datatype Outcome = Outcome(ran: seq<Task>, completed: bool)

  /** Runs `plan` in order, stopping after the first task that fails. */
  function RunPlan(plan: seq<Task>, succeeds: Task -> bool): Outcome {
    if plan == [] then Outcome([], true)
    else if !succeeds(plan[0]) then Outcome([plan[0]], false)
    else
      var o := RunPlan(plan[1..], succeeds);
      Outcome([plan[0]] + o.ran, o.completed)
  }

  /**
   * The run is a prefix of the plan whose tasks all succeeded except
   * possibly the last; it completes exactly when the whole plan ran and
   * every task succeeded, and otherwise ends at the task that failed.
   */
  lemma {:induction false} RunPlanStops(plan: seq<Task>, succeeds: Task -> bool)
    ensures var o := RunPlan(plan, succeeds);
      && o.ran <= plan
      && (o.completed <==> o.ran == plan && forall k :: 0 <= k < |plan| ==> succeeds(plan[k]))
      && (!o.completed ==> |o.ran| > 0 && !succeeds(o.ran[|o.ran| - 1]))
      && (forall k :: 0 <= k < |o.ran| - 1 ==> succeeds(o.ran[k]))
  {
    if plan != [] && succeeds(plan[0]) {
      var tail := plan[1..];
      RunPlanStops(tail, succeeds);
      var o := RunPlan(tail, succeeds);
      assert plan == [plan[0]] + tail;
      assert forall k :: 1 <= k < |plan| ==> plan[k] == tail[k - 1];
      assert forall k :: 1 <= k < |o.ran| + 1 ==> ([plan[0]] + o.ran)[k] == o.ran[k - 1];
    }
  }

  /** `prefix` ran and succeeded before the rest of the run. */
  function After(prefix: seq<Task>, o: Outcome): Outcome {
    Outcome(prefix + o.ran, o.completed)
  }

  /** Selected tasks are exactly the ones each guard picks, and the one at a position is the task of that block. */
  lemma SelectedAtRank(t: Task, c: Config)
    requires Selected(t, c)
    ensures t == TaskAt(Rank(t), c)
  {
  }

  /** The tasks from position `k` on are those selected with a rank at least `k`, in strictly increasing rank. */
  lemma SelectFromSpec(c: Config, k: nat)
    ensures forall t :: t in SelectFrom(c, k) <==> Selected(t, c) && k <= Rank(t)
    ensures forall a, b :: 0 <= a < b < |SelectFrom(c, k)| ==> Rank(SelectFrom(c, k)[a]) < Rank(SelectFrom(c, k)[b])
  {
    SelectFromMembers(c, k);
    SelectFromOrdered(c, k);
    assert RanksFrom(SelectFrom(c, k), k);
  }

  /** A task is among those from position `k` on exactly when its guard holds and its block is not before `k`. */
  lemma {:induction false} SelectFromMembers(c: Config, k: nat)
    ensures forall t :: t in SelectFrom(c, k) <==> Selected(t, c) && k <= Rank(t)
    decreases SlotCount - k
  {
    if k < SlotCount {
      SelectFromMembers(c, k + 1);
      BlockMembers(c, k);
      assert forall t :: t in SelectFrom(c, k) <==> t in Block(c, k) || t in SelectFrom(c, k + 1);
    }
  }

  /** Block `k` starts a task exactly when the task's guard holds and `k` is its position. */
  lemma BlockMembers(c: Config, k: nat)
    requires k < SlotCount
    ensures forall t :: t in Block(c, k) <==> Selected(t, c) && Rank(t) == k
  {
    forall t | Selected(t, c) && Rank(t) == k
      ensures t in Block(c, k)
    {
      SelectedAtRank(t, c);
    }
  }

  /** The tasks from position `k` on come in strictly increasing block order, none before `k`. */
  lemma {:induction false} SelectFromOrdered(c: Config, k: nat)
    ensures RanksFrom(SelectFrom(c, k), k)
    decreases SlotCount - k
  {
    if k < SlotCount {
      SelectFromOrdered(c, k + 1);
      PrependBlock(Block(c, k), SelectFrom(c, k + 1), k);
    }
  }

  /** Every task of `s` has a block at position `k` or later, and `s` follows block order strictly. */
  predicate RanksFrom(s: seq<Task>, k: nat) {
    && (forall j :: 0 <= j < |s| ==> k <= Rank(s[j]))
    && (forall a, b :: 0 <= a < b < |s| ==> Rank(s[a]) < Rank(s[b]))
  }

  /** What a block starts, put in front of tasks from later blocks, keeps block order. */
  lemma PrependBlock(block: seq<Task>, rest: seq<Task>, k: nat)
    requires |block| <= 1 && (forall j :: 0 <= j < |block| ==> Rank(block[j]) == k)
    requires RanksFrom(rest, k + 1)
    ensures RanksFrom(block + rest, k)
  {
    var s := block + rest;
    assert forall j :: |block| <= j < |s| ==> s[j] == rest[j - |block|];
  }

  /** A task is planned exactly when its guard holds. */
  lemma PlannedIff(c: Config, t: Task)
    ensures t in Planned(c) <==> Selected(t, c)
  {
    SelectFromSpec(c, 0);
  }

  /** The plan follows Run's block order, so no task is planned twice. */
  lemma PlannedInOrder(c: Config)
    ensures forall a, b :: 0 <= a < b < |Planned(c)| ==> Rank(Planned(c)[a]) < Rank(Planned(c)[b])
    ensures forall a, b :: 0 <= a < b < |Planned(c)| ==> Planned(c)[a] != Planned(c)[b]
  {
    SelectFromSpec(c, 0);
  }

  /** Demo reports are generated by the cartography task when it runs, never by both. */
  lemma DemoReportsOnce(c: Config)
    ensures GenerateDemoReportTask in Planned(c) <==> c.intents.generateDemoReports && !c.intents.carto
    ensures c.intents.carto ==> CartoTask(c.intents.generateDemoReports) in Planned(c) && GenerateDemoReportTask !in Planned(c)
  {
    PlannedIff(c, GenerateDemoReportTask);
    PlannedIff(c, CartoTask(c.intents.generateDemoReports));
  }

  /** A healthcheck (graph) consolidation runs when asked for, or after an interactive analysis of every domain. */
  lemma ConsolidationPlanned(c: Config)
    ensures HealthCheckConsolidationTask in Planned(c)
        <==> c.intents.healthCheckConsolidation
             || (c.intents.healthCheckReport && c.tasks.server == "*" && c.tasks.interactiveMode)
    ensures GraphConsolidationTask in Planned(c)
        <==> c.intents.graphConsolidation
             || (c.intents.advancedLive && c.tasks.server == "*" && c.tasks.interactiveMode)
  {
    PlannedIff(c, HealthCheckConsolidationTask);
    PlannedIff(c, GraphConsolidationTask);
  }

  /** With no intent, Run starts no task and goes straight to CompleteTasks. */
  lemma NothingPlanned(c: Config, succeeds: Task -> bool)
    requires !AnyIntent(c.intents)
    ensures Planned(c) == [] && RunPlan(Planned(c), succeeds) == Outcome([], true)
  {
    SelectFromNone(c, 0);
  }

  /** With no intent, no block from position `k` on starts a task. */
  lemma {:induction false} SelectFromNone(c: Config, k: nat)
    requires !AnyIntent(c.intents)
    ensures SelectFrom(c, k) == []
    decreases SlotCount - k
  {
    if k < SlotCount {
      assert !Selected(TaskAt(k, c), c);
      SelectFromNone(c, k + 1);
    }
  }

  /** Block `k` of Run: skipped when its guard fails, otherwise the task runs and the rest follow only if it succeeded. */
  lemma RunBlock(c: Config, k: nat, succeeds: Task -> bool)
    requires k < SlotCount
    ensures var t := TaskAt(k, c);
      RunPlan(SelectFrom(c, k), succeeds)
        == if !Selected(t, c) then RunPlan(SelectFrom(c, k + 1), succeeds)
           else if !succeeds(t) then Outcome([t], false)
           else After([t], RunPlan(SelectFrom(c, k + 1), succeeds))
  {
    var t := TaskAt(k, c);
    var rest := SelectFrom(c, k + 1);
    if Selected(t, c) {
      assert SelectFrom(c, k) == [t] + rest;
      assert ([t] + rest)[1..] == rest;
    } else {
      assert SelectFrom(c, k) == rest;
    }
  }

  /** What ran before a block is kept in front of what runs from it on. */
  lemma AfterAfter(p: seq<Task>, q: seq<Task>, o: Outcome)
    ensures After(p, After(q, o)) == After(p + q, o)
  {
    assert p + (q + o.ran) == (p + q) + o.ran;
  }

  /** Run's blocks from position `k` on, as written: skip a block whose guard fails, stop at a failing task. */
  function RunFrom(c: Config, k: nat, succeeds: Task -> bool): Outcome
    decreases SlotCount - k
  {
    if k >= SlotCount then Outcome([], true)
    else
      var t := TaskAt(k, c);
      if !Selected(t, c) then RunFrom(c, k + 1, succeeds)
      else if !succeeds(t) then Outcome([t], false)
      else After([t], RunFrom(c, k + 1, succeeds))
  }

  /** Running the blocks one by one is running the plan: the blocks from `k` on run exactly the tasks selected from `k` on. */
  lemma {:induction false} RunFromPlan(c: Config, k: nat, succeeds: Task -> bool)
    ensures RunFrom(c, k, succeeds) == RunPlan(SelectFrom(c, k), succeeds)
    decreases SlotCount - k
  {
    if k < SlotCount {
      RunFromPlan(c, k + 1, succeeds);
      RunBlock(c, k, succeeds);
    }
  }

  /** The whole plan, run from the first block with nothing started yet. */
  lemma PlanRunsBlocks(c: Config, succeeds: Task -> bool)
    ensures RunPlan(Planned(c), succeeds) == After([], RunFrom(c, 0, succeeds))
  {
    RunFromPlan(c, 0, succeeds);
    assert [] + RunFrom(c, 0, succeeds).ran == RunFrom(c, 0, succeeds).ran;
  }

  /** Past the last block the run reaches CompleteTasks with what it started. */
  lemma PastLastBlock(c: Config, ran: seq<Task>, succeeds: Task -> bool)
    ensures After(ran, RunFrom(c, SlotCount, succeeds)) == Outcome(ran, true)
  {
    assert ran + [] == ran;
  }
}
