/** The shipped base policy: policy/base/agent_permissions.rego, filesystem_policy.rego and network_policy.rego. */
module BasePolicy {
  import opened Records
  import opened Address
  import opened Rego

  // ----- agent_permissions.rego -----

  const READ := "filesystem_read"
  const WRITE := "filesystem_write"
  const DELETE := "filesystem_delete"
  const NETWORK := "network_connect"
  const EXEC := "exec"
  const TOOL_CALL := "tool_call"

  const POLICY_DIR := "/usr/share/atomic/policy"
  const AGENTS_DIR := "/var/lib/atomic/agents/"
  const RUNTIME_INFO := {"/etc/hostname", "/etc/os-release", "/proc/cpuinfo", "/proc/meminfo"}

  const SENSITIVE_PATHS := {"/etc/shadow", "/etc/passwd", "/etc/gshadow", "/root", "/proc/sysrq-trigger"}

  const SENSITIVE_PREFIXES := [
    "/etc/ssh", "/root/", "/home", "/run/atomic", "/boot", "/usr/lib/systemd",
    "/usr/bin/atomicagentd", "/usr/bin/atomic-agent-ctl"]

  const ALLOWED_BINARIES := {
    "/usr/bin/python3", "/usr/bin/python", "/usr/bin/node", "/usr/bin/bash",
    "/usr/bin/sh", "/usr/bin/curl", "/usr/bin/git", "/usr/bin/env"}

  const ALLOW_BODIES: seq<Body> := [[Rule(SomeAllowRuleMatches), Not(Rule(DenyRuleMatches))]]

  const DENY_BODIES: seq<Body> := [
    [Rule(ActionTargetsSensitivePath)],
    [TypeIn({EXEC}), Not(ResourceIn(ALLOWED_BINARIES))]]

  const AUDIT_BODIES: seq<Body> := [[ProfileIn({INFRASTRUCTURE})], [TypeIn({NETWORK})], [TypeIn({EXEC})]]

  const SOME_ALLOW_BODIES: seq<Body> := [
    [TypeIn({READ}), ResourceInWorkspace],
    [TypeIn({WRITE}), ResourceInWorkspace],
    [TypeIn({READ}), ResourceStartsWithSome([POLICY_DIR])],
    [TypeIn({READ}), ResourceIn(RUNTIME_INFO)],
    [TypeIn({TOOL_CALL})],
    [TypeIn({NETWORK}), Rule(AllowNetwork)]]

  const SENSITIVE_BODIES: seq<Body> := [
    [TypeIn({WRITE, DELETE}), ResourceIn(SENSITIVE_PATHS)],
    [TypeIn({READ, WRITE, DELETE}), ResourceStartsWithSome(SENSITIVE_PREFIXES)],
    [TypeIn({READ, WRITE, DELETE}), ResourceStartsWithSome([AGENTS_DIR]), Not(ResourceInWorkspace)]]

  const PERMISSION_RULES := {Allow, DenyRuleMatches, AuditRequired, SomeAllowRuleMatches, ActionTargetsSensitivePath}
  const AGENT_PERMISSIONS := ModuleOf(PERMISSION_RULES, BaseBodies)

  // ----- filesystem_policy.rego -----

  const ALWAYS_READABLE := {
    "/etc/hostname", "/etc/os-release", "/etc/resolv.conf", "/proc/cpuinfo", "/proc/meminfo",
    "/proc/loadavg", "/proc/uptime", "/proc/version", "/usr/share/atomic/policy"}

  const NEVER_READABLE := {"/etc/shadow", "/etc/gshadow", "/etc/master.passwd"}

  const NEVER_WRITABLE_PREFIXES := ["/etc", "/usr", "/boot", "/run/atomic", "/proc", "/sys", "/dev"]

  const NEVER_WRITABLE_BODIES: seq<Body> := [[ResourceStartsWithSome(NEVER_WRITABLE_PREFIXES)]]
  const NEVER_READABLE_BODIES: seq<Body> := [[ResourceIn(NEVER_READABLE)]]
  const WORKSPACE_WRITE_BODIES: seq<Body> := [[TypeIn({WRITE, DELETE}), ResourceInWorkspace,
                                               Not(Rule(IsNeverWritable))]]
  const PERMITTED_READ_BODIES: seq<Body> := [
    [TypeIn({READ}), ResourceInWorkspace],
    [TypeIn({READ}), ResourceIn(ALWAYS_READABLE)],
    [TypeIn({READ}), ResourceStartsWithSome([POLICY_DIR])]]

  const FILESYSTEM_RULES := {IsNeverWritable, IsNeverReadable, IsWorkspaceWrite, IsPermittedRead}
  const FILESYSTEM_POLICY := ModuleOf(FILESYSTEM_RULES, BaseBodies)

  // ----- network_policy.rego -----

  const LOOPBACK := V4(Cidr(IPv4(127, 0, 0, 0), 8))
  const METADATA := V4(Cidr(IPv4(169, 254, 169, 254), 32))
  const PRIVATE_10 := V4(Cidr(IPv4(10, 0, 0, 0), 8))
  const PRIVATE_172 := V4(Cidr(IPv4(172, 16, 0, 0), 12))
  const PRIVATE_192 := V4(Cidr(IPv4(192, 168, 0, 0), 16))

  const BLOCKED_ENDPOINTS := {"169.254.169.254", "fd00:ec2::254", "metadata.google.internal", "169.254.170.2"}

  const ALLOW_NETWORK_BODIES: seq<Body> := [
    [TypeIn({NETWORK}), ResourceInCidr(LOOPBACK)],
    [TypeIn({NETWORK}), ResourceInCidr(LoopbackV6)],
    [TypeIn({NETWORK}), ProfileIn({DEVELOPER, INFRASTRUCTURE}), Not(Rule(IsBlockedEndpoint)),
     Not(Rule(IsPrivateNetwork))]]

  const BLOCKED_BODIES: seq<Body> := [[ResourceIn(BLOCKED_ENDPOINTS)], [ResourceInCidr(METADATA)]]

  const PRIVATE_BODIES: seq<Body> := [[ResourceInCidr(PRIVATE_10)], [ResourceInCidr(PRIVATE_172)],
                                      [ResourceInCidr(PRIVATE_192)]]

  const NETWORK_RULES := {AllowNetwork, IsBlockedEndpoint, IsPrivateNetwork}
  const NETWORK_POLICY := ModuleOf(NETWORK_RULES, BaseBodies)

  // ----- The compiled base policy -----

  const BASE := MergeAll([AGENT_PERMISSIONS, FILESYSTEM_POLICY, NETWORK_POLICY])

  function Rank(n: RuleName): nat {
    match n
    case Allow => 4
    case SomeAllowRuleMatches | DenyRuleMatches => 3
    case AllowNetwork | IsWorkspaceWrite => 2
    case ActionTargetsSensitivePath | IsBlockedEndpoint | IsPrivateNetwork | IsNeverWritable => 1
    case OperatorRule(_) => 0
    case _ => 1
  }

  /** The bodies of each shipped rule. No shipped rule is defined in more than one file. */
  function BaseBodies(n: RuleName): seq<Body> {
    match n
    case Allow => ALLOW_BODIES
    case DenyRuleMatches => DENY_BODIES
    case AuditRequired => AUDIT_BODIES
    case SomeAllowRuleMatches => SOME_ALLOW_BODIES
    case ActionTargetsSensitivePath => SENSITIVE_BODIES
    case IsNeverWritable => NEVER_WRITABLE_BODIES
    case IsNeverReadable => NEVER_READABLE_BODIES
    case IsWorkspaceWrite => WORKSPACE_WRITE_BODIES
    case IsPermittedRead => PERMITTED_READ_BODIES
    case AllowNetwork => ALLOW_NETWORK_BODIES
    case IsBlockedEndpoint => BLOCKED_BODIES
    case IsPrivateNetwork => PRIVATE_BODIES
    case OperatorRule(_) => []
  }

  lemma BaseBodiesAre(n: RuleName)
    ensures Bodies(BASE, n) == BaseBodies(n)
  {
    MergeOfPartition(BaseBodies, PERMISSION_RULES, FILESYSTEM_RULES, NETWORK_RULES, n);
  }

  lemma BaseRuleIsRanked(n: RuleName)
    ensures forall i :: 0 <= i < |BaseBodies(n)| ==> BodyBelow(BaseBodies(n)[i], Rank, Rank(n))
  {
    match n
    case Allow => assert BodyBelow(ALLOW_BODIES[0], Rank, 4);
    case DenyRuleMatches =>
      assert BodyBelow(DENY_BODIES[0], Rank, 3) && BodyBelow(DENY_BODIES[1], Rank, 3);
    case ActionTargetsSensitivePath =>
      assert BodyBelow(SENSITIVE_BODIES[0], Rank, 1) && BodyBelow(SENSITIVE_BODIES[1], Rank, 1)
        && BodyBelow(SENSITIVE_BODIES[2], Rank, 1);
    case IsWorkspaceWrite => assert BodyBelow(WORKSPACE_WRITE_BODIES[0], Rank, 2);
    case AllowNetwork => assert BodyBelow(ALLOW_NETWORK_BODIES[0], Rank, 2)
      && BodyBelow(ALLOW_NETWORK_BODIES[1], Rank, 2);
    case _ =>
  }

  lemma BaseIsRanked()
    ensures Ranked(BASE, Rank)
  {
    forall n ensures RuleBelow(BASE, n, Rank) {
      BaseBodiesAre(n);
      BaseRuleIsRanked(n);
    }
  }

  // ----- What each rule says -----

  ghost predicate Base(n: RuleName, input: Input) {
    BaseIsRanked();
    Holds(BASE, Rank, n, input)
  }

  ghost predicate BaseBody(n: RuleName, i: nat, input: Input)
    requires i < |BaseBodies(n)|
  {
    BaseIsRanked();
    BaseBodiesAre(n);
    assert RuleBelow(BASE, n, Rank);
    BodyHolds(BASE, Rank, Rank(n), Bodies(BASE, n)[i], input)
  }

  lemma BaseByBodies(n: RuleName, input: Input)
    ensures Base(n, input) <==> exists i :: 0 <= i < |BaseBodies(n)| && BaseBody(n, i, input)
  {
    BaseIsRanked();
    BaseBodiesAre(n);
    assert RuleBelow(BASE, n, Rank);
    if Base(n, input) {
      var i :| 0 <= i < |Bodies(BASE, n)| && BodyHolds(BASE, Rank, Rank(n), Bodies(BASE, n)[i], input);
      assert BaseBody(n, i, input);
    }
    if i :| 0 <= i < |BaseBodies(n)| && BaseBody(n, i, input) {
      assert BodyHolds(BASE, Rank, Rank(n), Bodies(BASE, n)[i], input);
    }
  }

  ghost predicate Says(lit: Literal, input: Input) {
    match lit
    case TypeIn(types) => input.action.actionType in types
    case ResourceIn(resources) => input.action.resource in resources
    case ResourceStartsWithSome(prefixes) => StartsWithSome(input.action.resource, prefixes)
    case ResourceInWorkspace => input.agent.workspacePath <= input.action.resource
    case ProfileIn(profiles) => input.agent.profile in profiles
    case ResourceInCidr(block) => InCidr(input.lib, block, input.action.resource)
    case Rule(name) => Base(name, input)
    case Not(negated) => !Says(negated, input)
  }

  lemma {:induction false} SaysWhatHolds(lit: Literal, bound: nat, input: Input)
    requires Ranked(BASE, Rank) && Below(lit, Rank, bound)
    ensures LiteralHolds(BASE, Rank, bound, lit, input) <==> Says(lit, input)
    decreases lit
  {
    match lit
    case Not(negated) => SaysWhatHolds(negated, bound, input);
    case _ =>
  }

  lemma BaseBodySays(n: RuleName, i: nat, input: Input)
    requires i < |BaseBodies(n)|
    ensures BaseBody(n, i, input) <==> forall j :: 0 <= j < |BaseBodies(n)[i]| ==> Says(BaseBodies(n)[i][j], input)
  {
    BaseIsRanked();
    BaseBodiesAre(n);
    assert RuleBelow(BASE, n, Rank);
    var body := Bodies(BASE, n)[i];
    forall j | 0 <= j < |body|
      ensures LiteralHolds(BASE, Rank, Rank(n), body[j], input) <==> Says(body[j], input)
    {
      assert Below(body[j], Rank, Rank(n));
      SaysWhatHolds(body[j], Rank(n), input);
    }
  }
}
