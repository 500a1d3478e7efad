/** The registry of agent roles and the lookup of recommended agents for a
    task type (agents/agent_definitions.py). */
module AgentDefinitions {

  /** The six roles, in declaration order. */
  datatype AgentRole =
    | Architect
    | Designer
    | StructuralEngineer
    | MaterialExpert
    | CodeGenerator
    | ProjectManager
  {
    /** The string value of the role. */
    function Value(): string
    {
      match this
      case Architect => "architect"
      case Designer => "designer"
      case StructuralEngineer => "structural_engineer"
      case MaterialExpert => "material_expert"
      case CodeGenerator => "code_generator"
      case ProjectManager => "project_manager"
    }
  }

  /** An agent's configuration. Temperature and confidence threshold are in
      hundredths. The descriptive texts (description, system prompt,
      capabilities, collaboration style) are not part of this model. */
  datatype AgentConfiguration = AgentConfiguration(
    name: string,
    role: AgentRole,
    model: string,
    modelVersion: string,
    maxTokens: nat,
    temperature: nat,
    confidenceThreshold: nat)

  /** A configuration with the model defaults: gpt-4o, version 2024-11-20,
      4000 tokens, temperature 0.7. */
  function Configure(name: string, role: AgentRole, confidenceThreshold: nat): AgentConfiguration
  {
    AgentConfiguration(name, role, "gpt-4o", "2024-11-20", 4000, 70, confidenceThreshold)
  }

  const ArchitectAgent := Configure("Senior Architect", Architect, 85)

  const DesignerAgent := Configure("Creative Designer", Designer, 82)

  const StructuralEngineerAgent := Configure("Structural Engineer", StructuralEngineer, 90)

  const MaterialExpertAgent := Configure("Material Expert", MaterialExpert, 85)

  const CodeGeneratorAgent := Configure("Code Generator", CodeGenerator, 88)

  const ProjectManagerAgent := Configure("Project Manager", ProjectManager, 85)

  /** The registry's keys in insertion order. */
  const RegistryOrder: seq<AgentRole> :=
    [Architect, Designer, StructuralEngineer, MaterialExpert, CodeGenerator, ProjectManager]

  /** The position of a role in the registry. */
  function IndexOf(role: AgentRole): (i: nat)
    ensures i < |RegistryOrder| && RegistryOrder[i] == role
  {
    match role
    case Architect => 0
    case Designer => 1
    case StructuralEngineer => 2
    case MaterialExpert => 3
    case CodeGenerator => 4
    case ProjectManager => 5
  }

  /** `get_agent_configuration`: the registry entry of a role. */
  function GetAgentConfiguration(role: AgentRole): (c: AgentConfiguration)
    ensures c.role == role
    ensures c.model == "gpt-4o" && c.modelVersion == "2024-11-20" && c.maxTokens == 4000 && c.temperature == 70
    ensures 82 <= c.confidenceThreshold <= 90
  {
    match role
    case Architect => ArchitectAgent
    case Designer => DesignerAgent
    case StructuralEngineer => StructuralEngineerAgent
    case MaterialExpert => MaterialExpertAgent
    case CodeGenerator => CodeGeneratorAgent
    case ProjectManager => ProjectManagerAgent
  }

  /** The configurations of the given roles, in order. */
  function ConfigurationsOf(roles: seq<AgentRole>): (cs: seq<AgentConfiguration>)
    ensures |cs| == |roles|
    ensures forall i :: 0 <= i < |roles| ==> cs[i] == GetAgentConfiguration(roles[i])
  {
    if |roles| == 0 then [] else [GetAgentConfiguration(roles[0])] + ConfigurationsOf(roles[1..])
  }

  /** `get_all_agents`: the registry's values in insertion order. */
  function GetAllAgents(): seq<AgentConfiguration>
  {
    ConfigurationsOf(RegistryOrder)
  }

  /** All six configurations, one per role, no role twice. */
  lemma AllAgentsOnePerRole()
    ensures var cs := GetAllAgents();
      && |cs| == 6
      && (forall r: AgentRole :: r in RegistryOrder && cs[IndexOf(r)].role == r)
      && (forall i, j :: 0 <= i < j < |cs| ==> cs[i].role != cs[j].role)
  {
    var cs := GetAllAgents();
    forall r: AgentRole ensures r in RegistryOrder && cs[IndexOf(r)].role == r {
      assert RegistryOrder[IndexOf(r)] == r;
    }
  }

  const GeneralRoles: seq<AgentRole> := [Architect, Designer, ProjectManager]

  /** The task-type table of `get_agents_for_task`. */
  const TaskMappings: map<string, seq<AgentRole>> := map[
    "architectural_design" := [Architect, Designer, StructuralEngineer, MaterialExpert, ProjectManager],
    "structural_analysis" := [StructuralEngineer, Architect, MaterialExpert],
    "material_selection" := [MaterialExpert, Architect, StructuralEngineer],
    "smart_building" := [CodeGenerator, Architect, ProjectManager],
    "project_planning" := [ProjectManager, Architect, StructuralEngineer],
    "general" := GeneralRoles]

  /** The roles for a task type, the general ones for an unknown type. */
  function RolesForTask(taskType: string): seq<AgentRole>
  {
    if taskType in TaskMappings then TaskMappings[taskType] else TaskMappings["general"]
  }

  /** `get_agents_for_task`: the registry entries of the task type's roles,
      in the table's order. */
  function GetAgentsForTask(taskType: string): (cs: seq<AgentConfiguration>)
    ensures |cs| == |RolesForTask(taskType)|
    ensures forall i :: 0 <= i < |cs| ==> cs[i] == GetAgentConfiguration(RolesForTask(taskType)[i])
  {
    ConfigurationsOf(RolesForTask(taskType))
  }

  /** An unknown task type gets the architect, the designer and the project
      manager. */
  lemma UnknownTaskFallsBack(taskType: string)
    requires taskType !in TaskMappings
    ensures GetAgentsForTask(taskType) == [ArchitectAgent, DesignerAgent, ProjectManagerAgent]
  {
    assert RolesForTask(taskType) == GeneralRoles;
  }

  /** Architectural design gets five roles, every other task type three,
      and no task type lists a role twice. */
  lemma RolesForTaskShape(taskType: string)
    ensures var roles := RolesForTask(taskType);
      && |roles| == (if taskType == "architectural_design" then 5 else 3)
      && forall i, j :: 0 <= i < j < |roles| ==> roles[i] != roles[j]
  {
    var roles := RolesForTask(taskType);
    if taskType !in TaskMappings {
      assert roles == GeneralRoles;
    }
  }

  /** Architectural design gets five agents, every other task type three,
      and no agent appears twice. */
  lemma AgentsForTaskShape(taskType: string)
    ensures var cs := GetAgentsForTask(taskType);
      && |cs| == (if taskType == "architectural_design" then 5 else 3)
      && forall i, j :: 0 <= i < j < |cs| ==> cs[i].role != cs[j].role
  {
    RolesForTaskShape(taskType);
  }
}
