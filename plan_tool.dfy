/**
 * The `create_plan` tool (src/claude_clone/tools/plan.py): it validates its
 * steps, then has the plan manager create the plan and returns its markdown.
 */
module PlanTool {

  import opened Wrappers
  import opened Base
  import opened Plans
  import Text

  /** A step passes validation when its description is present and non-empty. */
  predicate Described(s: StepInput) {
    s.description.Some? && s.description.value != ""
  }

  /** The index of the first step from `i` on that lacks a description. */
  function FirstUndescribed(steps: seq<StepInput>, i: nat): (r: Option<nat>)
    requires i <= |steps|
    ensures r.Some? ==> i <= r.value < |steps| && !Described(steps[r.value])
    ensures r.Some? ==> forall j :: i <= j < r.value ==> Described(steps[j])
    ensures r.None? <==> forall j :: i <= j < |steps| ==> Described(steps[j])
    decreases |steps| - i
  {
    if i == |steps| then None
    else if !Described(steps[i]) then Some(i)
    else FirstUndescribed(steps, i + 1)
  }

  /** The text after the plan's markdown. */
  const Footer: string :=
    "\n\n---\nPlan created and awaiting approval.\nUser commands:\n" +
    "  /approve - Approve and begin execution\n" +
    "  /reject  - Reject and discard the plan"

  /** The message for the step numbered `number` that lacks a description. */
  function MissingDescription(number: nat): string {
    "Step " + Text.NatToString(number) + " is missing a description"
  }

  /**
   * `CreatePlanTool.execute`: an empty plan and the first undescribed step are
   * refused before the manager is touched; otherwise the manager's new plan is
   * the result's markdown.
   */
  method Execute(manager: PlanManager, goal: string, steps: seq<StepInput>, now: Timestamp) returns (result: ToolResult)
    modifies manager
    ensures steps == [] ==> result == Fail("Plan must have at least one step") && unchanged(manager)
    ensures steps != [] && FirstUndescribed(steps, 0).Some? ==>
      result == Fail(MissingDescription(FirstUndescribed(steps, 0).value + 1)) && unchanged(manager)
    ensures steps != [] && FirstUndescribed(steps, 0).None? ==>
      && manager.currentPlan != null && fresh(manager.currentPlan)
      && manager.currentPlan.goal == goal
      && manager.currentPlan.steps == NewSteps(steps)
      && manager.currentPlan.status == PendingApproval
      && manager.currentPlan.createdAt == now
      && manager.planModeActive == old(manager.planModeActive)
      && result == Ok(Markdown(goal, PendingApproval, now, NewSteps(steps)) + Footer, map[])
  {
    if steps == [] {
      return Fail("Plan must have at least one step");
    }
    var i := 0;
    while i < |steps|
      invariant i <= |steps|
      invariant FirstUndescribed(steps, i) == FirstUndescribed(steps, 0)
    {
      if !Described(steps[i]) {
        return Fail(MissingDescription(i + 1));
      }
      i := i + 1;
    }
    var plan := manager.CreatePlan(goal, steps, now);
    var md := plan.ToMarkdown();
    result := Ok(md + Footer, map[]);
  }

  /** Every step of a plan the tool accepted has a non-empty description. */
  lemma AcceptedStepsDescribed(steps: seq<StepInput>, k: nat)
    requires FirstUndescribed(steps, 0).None? && k < |steps|
    ensures NewSteps(steps)[k].description != ""
    ensures NewSteps(steps)[k].description == steps[k].description.value
  {
    assert Described(steps[k]);
  }
}
