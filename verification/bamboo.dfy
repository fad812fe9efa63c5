/** The Bamboo plan listing and the per-plan build results, as the static
    mock service returns them. Only the fields the pipeline reads are kept;
    every field of a plan record is optional, as a key of a JSON object. */
module Bamboo {
  import opened Wrappers
  import opened Strings

  /** A `link` object; `href` may be absent. */
  datatype Link = Link(href: Option<string>)

  /** One raw plan record of the listing. */
  datatype RawPlan = RawPlan(
    key: Option<string>,
    name: Option<string>,
    enabled: Option<bool>,
    shortName: Option<string>,
    projectKey: Option<string>,
    projectName: Option<string>,
    description: Option<string>,
    isActive: Option<bool>,
    isBuilding: Option<bool>,
    averageBuildTimeInSeconds: Option<int>,
    link: Option<Link>,
    planKey: Option<string>)

  /** The `plans` object: its `size` counter and its `plan` list. */
  datatype PlansBlock = PlansBlock(size: nat, plan: Option<seq<RawPlan>>)

  /** The whole listing response. */
  datatype RawListing = RawListing(plans: Option<PlansBlock>)

  const BambooHost := "https://bamboo.company.com/rest/api/latest/plan/"

  function FixturePlan(shortName: string, name: string, enabled: bool, projectName: string,
                       description: string, isActive: bool, isBuilding: bool, avg: int): RawPlan
  {
    var key := "PROJ-" + shortName;
    RawPlan(Some(key), Some(name), Some(enabled), Some(shortName), Some("PROJ"), Some(projectName),
            Some(description), Some(isActive), Some(isBuilding), Some(avg),
            Some(Link(Some(BambooHost + key))), Some(key))
  }

  /** `get_bamboo_plans()`: the three fixed plans. */
  function GetBambooPlans(): (r: RawListing)
    ensures r.plans.Some? && r.plans.value.plan.Some?
    ensures r.plans.value.size == |r.plans.value.plan.value| == 3
  {
    var plans := [
      FixturePlan("PLAN1", "Project Alpha - Build and Deploy", true, "Project Alpha",
                  "Main build and deployment pipeline for Project Alpha", true, false, 420),
      FixturePlan("PLAN2", "Project Beta - Testing Pipeline", false, "Project Beta",
                  "Automated testing pipeline for Project Beta components", false, false, 180),
      FixturePlan("PLAN3", "Project Gamma - Integration Tests", true, "Project Gamma",
                  "End-to-end integration testing for Project Gamma services", true, true, 840)
    ];
    RawListing(Some(PlansBlock(3, Some(plans))))
  }

  /** The plan list of the fixture. */
  function FixturePlans(): seq<RawPlan> {
    GetBambooPlans().plans.value.plan.value
  }

  /** Every fixture plan carries a key, a name, a link and an `enabled` flag,
      and its nested plan key equals its key. */
  lemma FixturePlansWellFormed()
    ensures forall p :: p in FixturePlans() ==>
      p.key.Some? && p.name.Some? && p.link.Some? && p.enabled.Some? && p.planKey == p.key
  {
  }

  /** The fixture's keys and flags: PLAN1 enabled, PLAN2 disabled, PLAN3
      enabled and building. */
  lemma FixtureFlags()
    ensures FixturePlans()[0].key == Some("PROJ-PLAN1") && FixturePlans()[0].enabled == Some(true)
    ensures FixturePlans()[1].key == Some("PROJ-PLAN2") && FixturePlans()[1].enabled == Some(false)
    ensures FixturePlans()[2].key == Some("PROJ-PLAN3") && FixturePlans()[2].enabled == Some(true)
    ensures FixturePlans()[2].isBuilding == Some(true)
  {
    assert "PROJ-" + "PLAN1" == "PROJ-PLAN1";
    assert "PROJ-" + "PLAN2" == "PROJ-PLAN2";
    assert "PROJ-" + "PLAN3" == "PROJ-PLAN3";
  }

  // ---------------------------------------------------------------------------
  // Build results

  /** The nested `plan` object of a build result. */
  datatype ResultPlan = ResultPlan(key: string, name: string)

  /** One build result. */
  datatype BuildResult = BuildResult(
    key: string,
    plan: ResultPlan,
    buildNumber: nat,
    state: string,
    lifeCycleState: string,
    finished: bool,
    successful: bool,
    buildDurationInSeconds: nat)

  /** The `results` object of `get_plan_results`. */
  datatype PlanResults = PlanResults(size: nat, result: seq<BuildResult>)

  function FixtureResult(planKey: string, name: string, n: nat, state: string, life: string,
                         finished: bool, successful: bool, duration: nat): BuildResult
  {
    BuildResult(planKey + "-" + NatToString(n), ResultPlan(planKey, name), n, state, life,
                finished, successful, duration)
  }

  /** `get_plan_results(plan_key)`: the latest build of a known plan, or an
      empty result list for any other key. */
  function GetPlanResults(planKey: string): (r: PlanResults)
    ensures r.size == |r.result|
    ensures planKey !in {"PROJ-PLAN1", "PROJ-PLAN2", "PROJ-PLAN3"} ==> r == PlanResults(0, [])
    ensures planKey in {"PROJ-PLAN1", "PROJ-PLAN2", "PROJ-PLAN3"} ==>
      |r.result| == 1 && r.result[0].plan.key == planKey
      && r.result[0].key == planKey + "-" + NatToString(r.result[0].buildNumber)
      && (r.result[0].successful ==> r.result[0].finished)
  {
    if planKey == "PROJ-PLAN1" then
      PlanResults(1, [FixtureResult(planKey, "Project Alpha - Build and Deploy", 123,
                                    "Successful", "Finished", true, true, 385)])
    else if planKey == "PROJ-PLAN2" then
      PlanResults(1, [FixtureResult(planKey, "Project Beta - Testing Pipeline", 87,
                                    "Failed", "Finished", true, false, 145)])
    else if planKey == "PROJ-PLAN3" then
      PlanResults(1, [FixtureResult(planKey, "Project Gamma - Integration Tests", 201,
                                    "Unknown", "InProgress", false, false, 0)])
    else PlanResults(0, [])
  }
}
