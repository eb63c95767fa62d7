/** Agent records, actions and decisions (daemon/internal/policy/types.go, daemon/internal/agent/lifecycle.go). */
module Records {
  import opened Wrappers
  import opened Identity

  /** An instant; only equality and identity of instants matter here. */
  type Time = int

  datatype AgentRecord = AgentRecord(
    id: string,
    profile: string,
    workspacePath: string,
    allowedBinaries: seq<string>,
    allowedNetworks: seq<string>,
    registeredAt: Time,
    lastStartedAt: Option<Time>)

  datatype State = Registered | Starting | Running | Stopping | Stopped | Killed | Failed

  /** The fields of a RuntimeAgent at one instant. */
  datatype Runtime = Runtime(
    record: AgentRecord,
    execPath: string,
    state: State,
    startedAt: Option<Time>,
    stoppedAt: Option<Time>,
    exitCode: Option<int>,
    killReason: string)

  datatype AgentAction = AgentAction(
    agentId: string,
    actionType: string,
    resource: string,
    context: map<string, string>,
    timestamp: Time)

  datatype OPAInput = OPAInput(action: AgentAction, agent: AgentRecord)

  datatype PolicyDecision = PolicyDecision(allow: bool, reasons: seq<string>, auditRequired: bool, profile: string)

  /** A record as the manager creates it under `root`: valid id, canonical workspace path. */
  predicate Managed(root: string, agent: AgentRecord) {
    ValidId(agent.id) && agent.workspacePath == WorkspacePath(root, agent.id)
  }

  const MINIMAL := "minimal"
  const DEVELOPER := "developer"
  const INFRASTRUCTURE := "infrastructure"
  const PROFILES := [MINIMAL, DEVELOPER, INFRASTRUCTURE]
}
