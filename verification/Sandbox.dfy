/** The sandbox manager (daemon/internal/agent/sandbox.go): units by name, workspaces in the file tree. */
module Sandbox {
  import opened Wrappers
  import opened Identity
  import opened Paths
  import opened Storage
  import U = Units

  class SandboxManager {
    const workspaceRoot: string
    const files: Files
    var units: set<string>        // names of the active units

    constructor (workspaceRoot: string, files: Files, units: set<string>)
      ensures this.workspaceRoot == workspaceRoot && this.files == files && this.units == units
    {
      this.workspaceRoot, this.files, this.units := workspaceRoot, files, units;
    }

    /** Creates the agent's directory, workspace and metadata file, stopping at the first failure. */
    method ProvisionWorkspace(id: string, env: Provisioning) returns (path: Option<string>)
      modifies files`tree
      ensures (files.tree, path) == Paths.ProvisionWorkspace(old(files.tree), workspaceRoot, id, env)
    {
      var agentRoot := JoinPath(workspaceRoot, id);
      if !env.makeAgentDir {
        return None;
      }
      files.tree := MkdirAll(files.tree, agentRoot);
      if !env.makeWorkspace {
        return None;
      }
      files.tree := files.tree + {CleanPath(WorkspacePath(workspaceRoot, id))};
      if !env.writeMetadata {
        return None;
      }
      files.tree := files.tree + {Child(agentRoot, "agent.id")};
      path := Some(WorkspacePath(workspaceRoot, id));
    }

    method StartAgent(id: string, outcome: U.Outcome) returns (ok: bool)
      modifies this`units
      ensures (units, ok) == U.StartAgent(old(units), id, outcome)
      ensures var unit := "atomic-sandbox-" + id + ".service";
        && (ok <==> unit !in old(units) && outcome.Finished? && outcome.done)
        && (unit in units <==> unit in old(units) || (outcome.Finished? && outcome.active))
        && (forall other :: other != unit ==> (other in units <==> other in old(units)))
    {
      var unit := SystemdUnitName(id);
      if outcome.Refused? || unit in units {
        return false;
      }
      units := if outcome.active then units + {unit} else units - {unit};
      ok := outcome.done;
    }

    method StopAgent(id: string, outcome: U.Outcome) returns (ok: bool)
      modifies this`units
      ensures (units, ok) == U.StopAgent(old(units), id, outcome)
      ensures var unit := "atomic-sandbox-" + id + ".service";
        && (ok <==> outcome.Finished?)
        && (unit in units <==> unit in old(units) && (outcome.Refused? || outcome.active))
        && (forall other :: other != unit ==> (other in units <==> other in old(units)))
    {
      if outcome.Refused? {
        return false;
      }
      if !outcome.active {
        units := units - {SystemdUnitName(id)};
      }
      ok := true;
    }

    method KillAgent(id: string, outcome: U.Outcome) returns (ok: bool)
      modifies this`units
      ensures (units, ok) == U.KillAgent(old(units), id, outcome)
      ensures var unit := "atomic-sandbox-" + id + ".service";
        && (ok <==> outcome.Finished?)
        && (unit in units <==> unit in old(units) && (outcome.Refused? || outcome.active))
        && (forall other :: other != unit ==> (other in units <==> other in old(units)))
    {
      if outcome.Refused? {
        return false;
      }
      if !outcome.active {
        units := units - {SystemdUnitName(id)};
      }
      ok := true;
    }
  }
}
