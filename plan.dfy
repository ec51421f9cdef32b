/**
 * Plan mode (src/claude_clone/core/plan.py): a plan of steps that the user
 * approves or rejects, the manager that holds the current plan and the
 * plan-mode flag, and the gate that lets only read-only tools run while plan
 * mode is on.
 */
module Plans {

  import opened Wrappers
  import opened Json
  import Text
  import Extractor

  /** `PlanStatus`. */
  datatype PlanStatus = Drafting | PendingApproval | Approved | Executing | Completed | Rejected {
    /** The enum member's value. */
    function Value(): string {
      match this
      case Drafting => "drafting"
      case PendingApproval => "pending_approval"
      case Approved => "approved"
      case Executing => "executing"
      case Completed => "completed"
      case Rejected => "rejected"
    }
  }

  /** Distinct statuses have distinct values. */
  lemma ValueInjective(a: PlanStatus, b: PlanStatus)
    ensures a.Value() == b.Value() ==> a == b
  {
  }

  /** `PlanStep`; the status is one of pending, in_progress, completed and skipped, but any string is kept. */
  datatype PlanStep = PlanStep(description: string, filesAffected: seq<string>, status: string)

  /** `PlanStep.to_dict`. */
  function StepToDict(s: PlanStep): (j: Json)
    ensures j.JDict? && j.fields.Keys == {"description", "files_affected", "status"}
  {
    JDict(map["description" := JStr(s.description), "files_affected" := StrList(s.filesAffected), "status" := JStr(s.status)])
  }

  /** The steps as a JSON list of their dictionaries. */
  function StepsToDict(steps: seq<PlanStep>): (j: Json)
    ensures j.JList? && |j.items| == |steps|
    ensures forall k :: 0 <= k < |steps| ==> j.items[k] == StepToDict(steps[k])
  {
    JList(seq(|steps|, k requires 0 <= k < |steps| => StepToDict(steps[k])))
  }

  /** The strings of a JSON list of strings. */
  function StrsOf(items: seq<Json>): Option<seq<string>>
    decreases |items|
  {
    if items == [] then Some([])
    else if !items[|items| - 1].JStr? then None
    else match StrsOf(items[..|items| - 1])
      case None => None
      case Some(front) => Some(front + [items[|items| - 1].s])
  }

  lemma {:induction false} StrsOfStrList(xs: seq<string>)
    ensures StrsOf(StrList(xs).items) == Some(xs)
    decreases |xs|
  {
    if xs != [] {
      var front := xs[..|xs| - 1];
      StrsOfStrList(front);
      assert StrList(xs).items[..|xs| - 1] == StrList(front).items;
      assert xs == front + [xs[|xs| - 1]];
    }
  }

  /** Reads a step back from its dictionary form. */
  function StepFromDict(j: Json): Option<PlanStep> {
    match (Get(j, "description"), Get(j, "files_affected"), Get(j, "status"))
    case (Some(JStr(d)), Some(JList(fs)), Some(JStr(st))) =>
      (match StrsOf(fs)
       case Some(files) => Some(PlanStep(d, files, st))
       case None => None)
    case _ => None
  }

  /** A step's dictionary holds the whole step. */
  lemma StepDictRoundTrip(s: PlanStep)
    ensures StepFromDict(StepToDict(s)) == Some(s)
  {
    StrsOfStrList(s.filesAffected);
  }

  /** A step as `create_plan` reads it from a tool argument: `description` and `files_affected` may be absent. */
  datatype StepInput = StepInput(description: Option<string>, filesAffected: Option<seq<string>>)

  /** The step `create_plan` makes of an input: missing fields default to `""` and `[]`, status `pending`. */
  function NewStep(s: StepInput): PlanStep {
    PlanStep(s.description.GetOr(""), s.filesAffected.GetOr([]), "pending")
  }

  /** The steps of a new plan, one per input, in order. */
  function NewSteps(inputs: seq<StepInput>): (steps: seq<PlanStep>)
    ensures |steps| == |inputs|
    ensures forall k :: 0 <= k < |inputs| ==> steps[k] == NewStep(inputs[k])
  {
    seq(|inputs|, k requires 0 <= k < |inputs| => NewStep(inputs[k]))
  }

  /** Every step of a new plan is pending and keeps its input's description and files when given. */
  lemma NewStepsPending(inputs: seq<StepInput>, k: nat)
    requires k < |inputs|
    ensures NewSteps(inputs)[k].status == "pending"
    ensures inputs[k].description.Some? ==> NewSteps(inputs)[k].description == inputs[k].description.value
    ensures inputs[k].description.None? ==> NewSteps(inputs)[k].description == ""
    ensures inputs[k].filesAffected.Some? ==> NewSteps(inputs)[k].filesAffected == inputs[k].filesAffected.value
    ensures inputs[k].filesAffected.None? ==> NewSteps(inputs)[k].filesAffected == []
  {
  }

  /** The creation time, in the two renderings the plan uses (`%Y-%m-%d %H:%M` and ISO 8601). */
  datatype Timestamp = Timestamp(display: string, iso: string)

  // ---------------------------------------------------------------------
  // Markdown rendering
  // ---------------------------------------------------------------------

  /** The checkbox shown for a step status; unknown statuses show as pending. */
  function Icon(status: string): (icon: string)
    ensures icon in {"[ ]", "[>]", "[x]", "[-]"}
    ensures status !in {"in_progress", "completed", "skipped"} ==> icon == "[ ]"
  {
    if status == "pending" then "[ ]"
    else if status == "in_progress" then "[>]"
    else if status == "completed" then "[x]"
    else if status == "skipped" then "[-]"
    else "[ ]"
  }

  /** The numbered line of a step. */
  function StepHead(number: nat, s: PlanStep): string {
    Text.NatToString(number) + ". " + Icon(s.status) + " " + s.description
  }

  /** One line per affected file. */
  function FileLines(files: seq<string>): (lines: seq<string>)
    ensures |lines| == |files|
  {
    seq(|files|, k requires 0 <= k < |files| => "   - `" + files[k] + "`")
  }

  /** The lines of the step numbered `number`. */
  function StepLines(number: nat, s: PlanStep): seq<string> {
    [StepHead(number, s)] + FileLines(s.filesAffected)
  }

  /** The lines of all steps, numbered from 1. */
  function StepsLines(steps: seq<PlanStep>): seq<string>
    decreases |steps|
  {
    if steps == [] then [] else StepsLines(steps[..|steps| - 1]) + StepLines(|steps|, steps[|steps| - 1])
  }

  /** The heading block of the markdown. */
  function HeaderLines(goal: string, status: PlanStatus, created: Timestamp): seq<string> {
    ["# Plan: " + goal, "", "Status: " + status.Value(), "Created: " + created.display, "", "## Steps", ""]
  }

  /** `Plan.to_markdown`: the heading block, then the steps, joined by newlines; it opens with the goal's heading line. */
  function Markdown(goal: string, status: PlanStatus, created: Timestamp, steps: seq<PlanStep>): (md: string)
    ensures ("# Plan: " + goal + "\n") <= md
  {
    Text.Join(HeaderLines(goal, status, created) + StepsLines(steps), "\n")
  }

  /** The lines of the first `k` steps are the beginning of the lines of all steps. */
  lemma {:induction false} StepsLinesPrefix(steps: seq<PlanStep>, k: nat)
    requires k <= |steps|
    ensures StepsLines(steps[..k]) <= StepsLines(steps)
    decreases |steps| - k
  {
    if k < |steps| {
      StepsLinesPrefix(steps, k + 1);
      assert steps[..k + 1][..k] == steps[..k];
    } else {
      assert steps[..k] == steps;
    }
  }

  /** Step `k` is numbered `k + 1` and its line follows the lines of the steps before it. */
  lemma StepHeadAt(steps: seq<PlanStep>, k: nat)
    requires k < |steps|
    ensures var before := |StepsLines(steps[..k])|;
      before < |StepsLines(steps)| && StepsLines(steps)[before] == StepHead(k + 1, steps[k])
  {
    StepsLinesPrefix(steps, k + 1);
    assert steps[..k + 1][..k] == steps[..k];
  }

  /** Each file of a step follows that step's line, in order. */
  lemma FileLineAt(steps: seq<PlanStep>, k: nat, f: nat)
    requires k < |steps| && f < |steps[k].filesAffected|
    ensures var before := |StepsLines(steps[..k])|;
      before + 1 + f < |StepsLines(steps)| &&
      StepsLines(steps)[before + 1 + f] == "   - `" + steps[k].filesAffected[f] + "`"
  {
    StepsLinesPrefix(steps, k + 1);
    assert steps[..k + 1][..k] == steps[..k];
  }

  /** The number of affected files over all steps. */
  function TotalFiles(steps: seq<PlanStep>): nat
    decreases |steps|
  {
    if steps == [] then 0 else TotalFiles(steps[..|steps| - 1]) + |steps[|steps| - 1].filesAffected|
  }

  /** One line per step plus one per affected file. */
  lemma {:induction false} StepsLineCount(steps: seq<PlanStep>)
    ensures |StepsLines(steps)| == |steps| + TotalFiles(steps)
    decreases |steps|
  {
    if steps != [] {
      StepsLineCount(steps[..|steps| - 1]);
    }
  }

  // ---------------------------------------------------------------------
  // Plan and PlanManager
  // ---------------------------------------------------------------------

  /** `Plan`. */
  class Plan {
    var goal: string
    var steps: seq<PlanStep>
    var status: PlanStatus
    var createdAt: Timestamp

    constructor(goal: string, steps: seq<PlanStep>, status: PlanStatus, createdAt: Timestamp)
      ensures this.goal == goal && this.steps == steps && this.status == status && this.createdAt == createdAt
    {
      this.goal := goal;
      this.steps := steps;
      this.status := status;
      this.createdAt := createdAt;
    }

    /** The lines of the step numbered `number`, as `to_markdown`'s loop appends them. */
    static method FormatStep(number: nat, step: PlanStep) returns (lines: seq<string>)
      ensures lines == StepLines(number, step)
    {
      var icon := Icon(step.status);
      lines := [Text.NatToString(number) + ". " + icon + " " + step.description];
      var files := step.filesAffected;
      var j := 0;
      while j < |files|
        invariant j <= |files|
        invariant lines == [StepHead(number, step)] + FileLines(files[..j])
      {
        assert FileLines(files[..j + 1]) == FileLines(files[..j]) + ["   - `" + files[j] + "`"];
        lines := lines + ["   - `" + files[j] + "`"];
        j := j + 1;
      }
      assert files[..j] == files;
    }

    /** `Plan.to_markdown`. */
    method ToMarkdown() returns (md: string)
      ensures md == Markdown(goal, status, createdAt, steps)
    {
      var body: seq<string> := [];
      var k := 0;
      while k < |steps|
        invariant k <= |steps|
        invariant body == StepsLines(steps[..k])
      {
        var more := FormatStep(k + 1, steps[k]);
        assert steps[..k + 1][..k] == steps[..k];
        body := body + more;
        k := k + 1;
      }
      assert steps[..k] == steps;
      md := Text.Join(HeaderLines(goal, status, createdAt) + body, "\n");
    }

    /** `Plan.to_dict`. */
    function ToDict(): (j: Json)
      reads this
      ensures KeysAre(j, [], {"goal", "steps", "status", "created_at"})
      ensures At(j, ["goal"]) == Some(JStr(goal))
      ensures At(j, ["status"]) == Some(JStr(status.Value()))
      ensures At(j, ["created_at"]) == Some(JStr(createdAt.iso))
      ensures At(j, ["steps"]) == Some(StepsToDict(steps))
    {
      JDict(map[
        "goal" := JStr(goal),
        "steps" := StepsToDict(steps),
        "status" := JStr(status.Value()),
        "created_at" := JStr(createdAt.iso)])
    }
  }

  /** The tools that may run while plan mode is on. */
  const ReadonlyTools: set<string> := {
    "read_file", "grep", "glob", "git_status", "git_diff", "git_log", "git_branch",
    "web_search", "web_fetch", "todo_write", "create_plan"}

  /** `is_tool_allowed` for a given plan-mode flag. */
  predicate ToolAllowed(planModeActive: bool, toolName: string) {
    !planModeActive || toolName in ReadonlyTools
  }

  /**
   * Outside plan mode everything is allowed; inside it exactly the read-only
   * tools are, and none of the tools that write or run commands.
   */
  lemma ToolGate(toolName: string)
    ensures ToolAllowed(false, toolName)
    ensures ToolAllowed(true, toolName) <==> toolName in ReadonlyTools
    ensures !ToolAllowed(true, "write_file") && !ToolAllowed(true, "edit_file")
    ensures !ToolAllowed(true, "bash") && !ToolAllowed(true, "git_commit")
    ensures ToolAllowed(true, "create_plan") && ToolAllowed(true, "todo_write")
  {
  }

  /** Every read-only tool is one of the tools the agent knows. */
  lemma ReadonlyToolsKnown()
    ensures forall t :: t in ReadonlyTools ==> t in Extractor.KnownTools
  {
  }

  /** What `save_plan` would write: the file name under the plan directory and its text. */
  datatype SaveOutcome = NoActivePlan | Saved(fileName: string, text: string)

  /** `PlanManager`, as one explicit instance. */
  class PlanManager {
    var planModeActive: bool
    var currentPlan: Plan?

    /** The state `_init` sets up: plan mode off and no plan. */
    constructor()
      ensures !planModeActive && currentPlan == null
    {
      planModeActive := false;
      currentPlan := null;
    }

    /** `start_plan_mode`: enters plan mode and discards the current plan. */
    method StartPlanMode()
      modifies this
      ensures planModeActive && currentPlan == null
    {
      planModeActive := true;
      currentPlan := null;
    }

    /** `end_plan_mode`: leaves plan mode; the plan stays. */
    method EndPlanMode()
      modifies this
      ensures !planModeActive && currentPlan == old(currentPlan)
    {
      planModeActive := false;
    }

    /** `is_active`: whether plan mode is on. */
    function IsActive(): (b: bool)
      reads this
      ensures b == planModeActive
    {
      planModeActive
    }

    /** `create_plan`: a fresh plan awaiting approval replaces the current one; the flag is untouched. */
    method CreatePlan(goal: string, inputs: seq<StepInput>, now: Timestamp) returns (plan: Plan)
      modifies this
      ensures fresh(plan) && currentPlan == plan
      ensures plan.goal == goal && plan.steps == NewSteps(inputs)
      ensures plan.status == PendingApproval && plan.createdAt == now
      ensures planModeActive == old(planModeActive)
    {
      plan := new Plan(goal, NewSteps(inputs), PendingApproval, now);
      currentPlan := plan;
    }

    /** `approve_plan`: with a plan, whatever its status, marks it approved and leaves plan mode. */
    method ApprovePlan() returns (approved: bool)
      modifies this, currentPlan
      ensures approved <==> old(currentPlan) != null
      ensures approved ==> currentPlan == old(currentPlan) && currentPlan.status == Approved && !planModeActive
      ensures approved ==> currentPlan.goal == old(currentPlan.goal) && currentPlan.steps == old(currentPlan.steps)
      ensures approved ==> currentPlan.createdAt == old(currentPlan.createdAt)
      ensures !approved ==> currentPlan == null && planModeActive == old(planModeActive)
    {
      if currentPlan != null {
        currentPlan.status := Approved;
        planModeActive := false;
        return true;
      }
      return false;
    }

    /** `reject_plan`: with a plan, marks it rejected, drops it and leaves plan mode. */
    method RejectPlan() returns (rejected: bool)
      modifies this, currentPlan
      ensures rejected <==> old(currentPlan) != null
      ensures rejected ==> old(currentPlan).status == Rejected && currentPlan == null && !planModeActive
      ensures rejected ==> old(currentPlan).goal == old(currentPlan.goal) && old(currentPlan).steps == old(currentPlan.steps)
      ensures rejected ==> old(currentPlan).createdAt == old(currentPlan.createdAt)
      ensures !rejected ==> currentPlan == null && planModeActive == old(planModeActive)
    {
      if currentPlan != null {
        currentPlan.status := Rejected;
        currentPlan := null;
        planModeActive := false;
        return true;
      }
      return false;
    }

    /** `get_plan`: the current plan, or none. */
    function GetPlan(): (p: Plan?)
      reads this
      ensures p == currentPlan
    {
      currentPlan
    }

    /** `has_pending_plan`: there is a plan and it still awaits approval. */
    predicate HasPendingPlan(): (b: bool)
      reads this, currentPlan
      ensures b ==> currentPlan != null && currentPlan.status == PendingApproval
      ensures currentPlan != null && currentPlan.status == PendingApproval ==> b
    {
      currentPlan != null && currentPlan.status == PendingApproval
    }

    /** Sets the status of step `index` when there is a plan and the index is in range. */
    method MarkStep(index: int, newStatus: string) returns (marked: bool)
      modifies currentPlan
      ensures marked <==> currentPlan != null && 0 <= index < |old(currentPlan.steps)|
      ensures marked ==> currentPlan.steps == old(currentPlan.steps)[index := old(currentPlan.steps[index]).(status := newStatus)]
      ensures currentPlan != null && !marked ==> currentPlan.steps == old(currentPlan.steps)
      ensures currentPlan != null ==>
        currentPlan.goal == old(currentPlan.goal) && currentPlan.status == old(currentPlan.status) &&
        currentPlan.createdAt == old(currentPlan.createdAt)
    {
      if currentPlan != null && 0 <= index < |currentPlan.steps| {
        currentPlan.steps := currentPlan.steps[index := currentPlan.steps[index].(status := newStatus)];
        return true;
      }
      return false;
    }

    /** `mark_step_in_progress`. */
    method MarkStepInProgress(index: int) returns (marked: bool)
      modifies currentPlan
      ensures marked <==> currentPlan != null && 0 <= index < |old(currentPlan.steps)|
      ensures marked ==> currentPlan.steps == old(currentPlan.steps)[index := old(currentPlan.steps[index]).(status := "in_progress")]
      ensures currentPlan != null && !marked ==> currentPlan.steps == old(currentPlan.steps)
      ensures currentPlan != null ==>
        currentPlan.goal == old(currentPlan.goal) && currentPlan.status == old(currentPlan.status) &&
        currentPlan.createdAt == old(currentPlan.createdAt)
    {
      marked := MarkStep(index, "in_progress");
    }

    /** `mark_step_completed`. */
    method MarkStepCompleted(index: int) returns (marked: bool)
      modifies currentPlan
      ensures marked <==> currentPlan != null && 0 <= index < |old(currentPlan.steps)|
      ensures marked ==> currentPlan.steps == old(currentPlan.steps)[index := old(currentPlan.steps[index]).(status := "completed")]
      ensures currentPlan != null && !marked ==> currentPlan.steps == old(currentPlan.steps)
      ensures currentPlan != null ==>
        currentPlan.goal == old(currentPlan.goal) && currentPlan.status == old(currentPlan.status) &&
        currentPlan.createdAt == old(currentPlan.createdAt)
    {
      marked := MarkStep(index, "completed");
    }

    /**
     * `save_plan` without the file write: no plan is an error; otherwise the
     * file is `{plan_id}.md`, the id defaulting to `now` when absent or empty,
     * and holds the plan's markdown.
     */
    method SavePlan(planId: Option<string>, now: string) returns (outcome: SaveOutcome)
      ensures currentPlan == null <==> outcome == NoActivePlan
      ensures currentPlan != null ==>
        outcome.text == Markdown(currentPlan.goal, currentPlan.status, currentPlan.createdAt, currentPlan.steps)
      ensures currentPlan != null && planId.Some? && planId.value != "" ==> outcome.fileName == planId.value + ".md"
      ensures currentPlan != null && (planId.None? || planId.value == "") ==> outcome.fileName == now + ".md"
    {
      if currentPlan == null {
        return NoActivePlan;
      }
      var id := if planId.Some? && planId.value != "" then planId.value else now;
      var text := currentPlan.ToMarkdown();
      outcome := Saved(id + ".md", text);
    }

    /** `is_tool_allowed`: outside plan mode every tool, inside it only the read-only ones. */
    predicate IsToolAllowed(toolName: string): (b: bool)
      reads this
      ensures !planModeActive ==> b
      ensures planModeActive ==> (b <==> toolName in ReadonlyTools)
    {
      ToolAllowed(planModeActive, toolName)
    }
  }
}
