/** The shipped policy once more, spelled out without its rules: what it allows, denies and audits, for any record. */
module PolicyInFull {
  import opened Records
  import opened Rego
  import opened BasePolicy
  import opened RuleMeanings
  import opened Decisions
  import opened NetworkDecisions

  /** What the deny rules veto to reads, writes and deletes of an agent whose workspace path is `workspace`. */
  predicate Sensitive(workspace: string, resource: string) {
    || "/etc/ssh" <= resource || "/root/" <= resource || "/home" <= resource || "/run/atomic" <= resource
    || "/boot" <= resource || "/usr/lib/systemd" <= resource
    || "/usr/bin/atomicagentd" <= resource || "/usr/bin/atomic-agent-ctl" <= resource
    || ("/var/lib/atomic/agents/" <= resource && !(workspace <= resource))
  }

  /** And to writes and deletes besides. */
  predicate SensitiveFile(resource: string) {
    resource in {"/etc/shadow", "/etc/passwd", "/etc/gshadow", "/root", "/proc/sysrq-trigger"}
  }

  /** What everyone may read. */
  predicate Public(resource: string) {
    || "/usr/share/atomic/policy" <= resource
    || resource in {"/etc/hostname", "/etc/os-release", "/proc/cpuinfo", "/proc/meminfo"}
  }

  predicate Listed(resource: string) {
    resource in {"/usr/bin/python3", "/usr/bin/python", "/usr/bin/node", "/usr/bin/bash", "/usr/bin/sh",
                 "/usr/bin/curl", "/usr/bin/git", "/usr/bin/env"}
  }

  predicate MayDo(lib: NetLibrary, profile: string, workspace: string, actionType: string, resource: string) {
    if actionType == "filesystem_read" then
      (workspace <= resource || Public(resource)) && !Sensitive(workspace, resource)
    else if actionType == "filesystem_write" then
      workspace <= resource && !Sensitive(workspace, resource) && !SensitiveFile(resource)
    else if actionType == "network_connect" then
      || LoopbackEndpoint(lib, resource)
      || (profile in {"developer", "infrastructure"} && PublicEndpoint(lib, resource))
    else actionType == "tool_call"
  }

  predicate MustAudit(profile: string, actionType: string) {
    profile == "infrastructure" || actionType == "network_connect" || actionType == "exec"
  }

  lemma SensitiveInFull(actionType: string, resource: string, workspace: string)
    requires IsFileAction(actionType)
    ensures SensitiveTarget(actionType, resource, workspace)
       <==> Sensitive(workspace, resource) || (actionType != "filesystem_read" && SensitiveFile(resource))
  {
    PrefixesInFull(resource);
  }

  lemma PrefixesInFull(resource: string)
    ensures StartsWithSome(resource, SENSITIVE_PREFIXES) <==>
      || "/etc/ssh" <= resource || "/root/" <= resource || "/home" <= resource || "/run/atomic" <= resource
      || "/boot" <= resource || "/usr/lib/systemd" <= resource
      || "/usr/bin/atomicagentd" <= resource || "/usr/bin/atomic-agent-ctl" <= resource
  {
    var p := SENSITIVE_PREFIXES;
    assert p[0] == "/etc/ssh" && p[1] == "/root/" && p[2] == "/home" && p[3] == "/run/atomic";
    assert p[4] == "/boot" && p[5] == "/usr/lib/systemd";
    assert p[6] == "/usr/bin/atomicagentd" && p[7] == "/usr/bin/atomic-agent-ctl";
  }

  /** The decision on any record and action. */
  lemma AllowInFull(lib: NetLibrary, agent: AgentRecord, action: AgentAction)
    ensures Allowed(lib, agent, action)
       <==> MayDo(lib, agent.profile, agent.workspacePath, action.actionType, action.resource)
  {
    DecisionByType(lib, agent, action);
    if IsFileAction(action.actionType) {
      SensitiveInFull(action.actionType, action.resource, agent.workspacePath);
    }
    if action.actionType == NETWORK {
      NetworkExactly(lib, agent, action);
    }
  }

  /** Whether it must be audited. */
  lemma AuditInFull(input: Input)
    ensures Base(AuditRequired, input) <==> MustAudit(input.agent.profile, input.action.actionType)
  {
    AuditMeaning(input);
  }

  /** What the deny side vetoes, executions outside the list of binaries included. */
  lemma DenyInFull(input: Input)
    ensures var actionType, resource := input.action.actionType, input.action.resource;
      Base(DenyRuleMatches, input) <==>
        || (actionType in {"filesystem_read", "filesystem_write", "filesystem_delete"}
            && Sensitive(input.agent.workspacePath, resource))
        || (actionType in {"filesystem_write", "filesystem_delete"} && SensitiveFile(resource))
        || (actionType == "exec" && !Listed(resource))
  {
    DenyMeaning(input);
    if IsFileAction(input.action.actionType) {
      SensitiveInFull(input.action.actionType, input.action.resource, input.agent.workspacePath);
    }
  }

  /** The documentation's sensitive paths, no part of which a write reaches under the default root. */
  predicate SystemPath(resource: string) {
    || "/etc" <= resource || "/usr" <= resource || "/boot" <= resource || "/run/atomic" <= resource
    || "/proc" <= resource || "/sys" <= resource || "/dev" <= resource
  }

  lemma SystemPathsInFull(resource: string)
    ensures StartsWithSome(resource, NEVER_WRITABLE_PREFIXES) <==> SystemPath(resource)
  {
    var p := NEVER_WRITABLE_PREFIXES;
    assert p[0] == "/etc" && p[1] == "/usr" && p[2] == "/boot" && p[3] == "/run/atomic";
    assert p[4] == "/proc" && p[5] == "/sys" && p[6] == "/dev";
  }

  /** The filesystem policy's own rules. */
  lemma FilesystemInFull(input: Input)
    ensures var actionType, resource := input.action.actionType, input.action.resource;
      var workspace := input.agent.workspacePath;
      && (Base(IsNeverWritable, input) <==> SystemPath(resource))
      && (Base(IsNeverReadable, input) <==> resource in {"/etc/shadow", "/etc/gshadow", "/etc/master.passwd"})
      && (Base(IsWorkspaceWrite, input) <==>
            && actionType in {"filesystem_write", "filesystem_delete"}
            && workspace <= resource && !SystemPath(resource))
      && (Base(IsPermittedRead, input) <==>
            && actionType == "filesystem_read"
            && (|| workspace <= resource || Public(resource)
                || resource in {"/etc/resolv.conf", "/proc/loadavg", "/proc/uptime", "/proc/version"}))
  {
    NeverWritableMeaning(input);
    NeverReadableMeaning(input);
    WorkspaceWriteMeaning(input);
    PermittedReadMeaning(input);
    SystemPathsInFull(input.action.resource);
  }

  lemma WorkspaceInFull(agent: AgentRecord)
    requires Managed("/var/lib/atomic/agents", agent)
    ensures agent.workspacePath == "/var/lib/atomic/agents/" + agent.id + "/workspace"
  {
    assert "/var/lib/atomic/agents" + "/" == "/var/lib/atomic/agents/";
  }

  lemma AgentsDirIsNoSystemPath(resource: string)
    requires "/var/lib/atomic/agents/" <= resource
    ensures !SystemPath(resource) && resource !in {"/etc/shadow", "/etc/gshadow"}
  {
    assert resource[1] == 'v';
  }

  lemma FileActionsInFull(lib: NetLibrary, agent: AgentRecord, action: AgentAction)
    requires Managed(DEFAULT_ROOT, agent)
    ensures Allowed(lib, agent, action.(actionType := READ))
       <==> agent.workspacePath <= action.resource || Public(action.resource)
    ensures Allowed(lib, agent, action.(actionType := WRITE)) <==> agent.workspacePath <= action.resource
  {
    ClosedForm(lib, agent, action);
  }

  /**
   * An agent that the manager made under the default root reads what is public and what begins with its own workspace
   * path, writes what begins with that path, and so writes no system path of the documentation.
   */
  lemma DefaultRootInFull(lib: NetLibrary, agent: AgentRecord, action: AgentAction)
    requires Managed("/var/lib/atomic/agents", agent)
    ensures var own := "/var/lib/atomic/agents/" + agent.id + "/workspace";
      && (action.actionType == "filesystem_read" ==>
            (Allowed(lib, agent, action) <==> own <= action.resource || Public(action.resource)))
      && (action.actionType == "filesystem_write" ==>
            && (Allowed(lib, agent, action) <==> own <= action.resource)
            && (Allowed(lib, agent, action) ==> !SystemPath(action.resource)))
  {
    WorkspaceInFull(agent);
    FileActionsInFull(lib, agent, action);
    assert action.actionType == READ ==> action.(actionType := READ) == action;
    assert action.actionType == WRITE ==> action.(actionType := WRITE) == action;
    if agent.workspacePath <= action.resource {
      var rest := agent.id + "/workspace";
      assert agent.workspacePath == "/var/lib/atomic/agents/" + rest;
      assert "/var/lib/atomic/agents/" <= agent.workspacePath <= action.resource;
      AgentsDirIsNoSystemPath(action.resource);
    }
  }
}
