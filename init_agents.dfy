/**
  init_agents.py: the stand-alone seeding script. It adds six agents, one
  per role, but only to an empty agent table, and commits them together.
*/
module InitAgents {
  import opened Wrappers
  import opened Models
  import opened Database

  const VisionModel := "llama3:8b-vision"
  const TextModel := "llama3:8b"

  /** The rows the script adds, in list order. */
  const SeedRows: seq<AgentRecord> := [
    AgentRecord("Coordinator", Coordinator, VisionModel,
      Some("Coordinates the work of other agents and manages the overall project flow.")),
    AgentRecord("Planner", Planner, TextModel,
      Some("Plans the project structure and creates detailed specifications.")),
    AgentRecord("Researcher", Researcher, TextModel,
      Some("Researches information needed for the project.")),
    AgentRecord("Developer", Developer, TextModel,
      Some("Develops code and technical solutions.")),
    AgentRecord("Tester", Tester, TextModel,
      Some("Tests code and solutions for quality and correctness.")),
    AgentRecord("Reviewer", Reviewer, TextModel,
      Some("Reviews work from other agents and provides feedback."))]

  /** The agent table after one run of the script. */
  function Seeded(agents: seq<AgentRecord>): seq<AgentRecord> {
    if |agents| > 0 then agents else SeedRows
  }

  /** `create_default_agents`: skip when any agent exists, otherwise add each seed row. */
  method CreateDefaultAgents(db: Store)
    modifies db`agents
    ensures db.agents == Seeded(old(db.agents))
  {
    var agentCount := |db.agents|;
    if agentCount > 0 {
      return;
    }
    var i := 0;
    while i < |SeedRows|
      invariant 0 <= i <= |SeedRows|
      invariant db.agents == SeedRows[..i]
    {
      assert SeedRows[..i + 1] == SeedRows[..i] + [SeedRows[i]];
      db.agents := db.agents + [SeedRows[i]];
      i := i + 1;
    }
  }

  // ---------------------------------------------------------------------------
  // Properties

  /** An existing agent table, however small, is left as it is; an empty one receives exactly six
      rows, one per role in the order of the enumeration, so every role is present. */
  lemma SeedingAddsOnePerRole(agents: seq<AgentRecord>)
    ensures agents != [] ==> Seeded(agents) == agents
    ensures agents == [] ==> RolesOf(Seeded(agents)) == AllRoles
    ensures agents == [] ==> forall r: AgentRole :: r in RolesOf(Seeded(agents))
  {
    EnumerationsComplete();
    if agents == [] {
      var roles := RolesOf(SeedRows);
      assert |roles| == |AllRoles|;
      forall k | 0 <= k < 6 ensures roles[k] == AllRoles[k] {
      }
    }
  }

  /** The coordinator runs the vision model and the five others the text model. */
  lemma SeedModels()
    ensures forall i :: 0 <= i < |SeedRows| ==>
      SeedRows[i].model == (if SeedRows[i].role == Coordinator then VisionModel else TextModel)
  {
  }

  /** A second run after a first adds nothing. */
  lemma SeedingIdempotent(agents: seq<AgentRecord>)
    ensures Seeded(Seeded(agents)) == Seeded(agents)
  {
  }
}
