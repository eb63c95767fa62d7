/** What each shipped rule says, read off its bodies. */
module RuleMeanings {
  import opened Records
  import opened Rego
  import opened BasePolicy

  // ----- Bodies and rules of a known size -----

  lemma BodyOf1(n: RuleName, i: nat, input: Input)
    requires i < |BaseBodies(n)| && |BaseBodies(n)[i]| == 1
    ensures BaseBody(n, i, input) <==> Says(BaseBodies(n)[i][0], input)
  {
    BaseBodySays(n, i, input);
  }

  lemma BodyOf2(n: RuleName, i: nat, input: Input)
    requires i < |BaseBodies(n)| && |BaseBodies(n)[i]| == 2
    ensures BaseBody(n, i, input) <==> Says(BaseBodies(n)[i][0], input) && Says(BaseBodies(n)[i][1], input)
  {
    BaseBodySays(n, i, input);
  }

  lemma BodyOf3(n: RuleName, i: nat, input: Input)
    requires i < |BaseBodies(n)| && |BaseBodies(n)[i]| == 3
    ensures BaseBody(n, i, input) <==>
      Says(BaseBodies(n)[i][0], input) && Says(BaseBodies(n)[i][1], input) && Says(BaseBodies(n)[i][2], input)
  {
    BaseBodySays(n, i, input);
  }

  lemma BodyOf4(n: RuleName, i: nat, input: Input)
    requires i < |BaseBodies(n)| && |BaseBodies(n)[i]| == 4
    ensures BaseBody(n, i, input) <==>
      && Says(BaseBodies(n)[i][0], input) && Says(BaseBodies(n)[i][1], input)
      && Says(BaseBodies(n)[i][2], input) && Says(BaseBodies(n)[i][3], input)
  {
    BaseBodySays(n, i, input);
  }

  lemma RuleOf1(n: RuleName, input: Input)
    requires |BaseBodies(n)| == 1
    ensures Base(n, input) <==> BaseBody(n, 0, input)
  {
    BaseByBodies(n, input);
  }

  lemma RuleOf2(n: RuleName, input: Input)
    requires |BaseBodies(n)| == 2
    ensures Base(n, input) <==> BaseBody(n, 0, input) || BaseBody(n, 1, input)
  {
    BaseByBodies(n, input);
  }

  lemma RuleOf3(n: RuleName, input: Input)
    requires |BaseBodies(n)| == 3
    ensures Base(n, input) <==> BaseBody(n, 0, input) || BaseBody(n, 1, input) || BaseBody(n, 2, input)
  {
    BaseByBodies(n, input);
  }

  lemma RuleOf6(n: RuleName, input: Input)
    requires |BaseBodies(n)| == 6
    ensures Base(n, input) <==>
      || BaseBody(n, 0, input) || BaseBody(n, 1, input) || BaseBody(n, 2, input)
      || BaseBody(n, 3, input) || BaseBody(n, 4, input) || BaseBody(n, 5, input)
  {
    BaseByBodies(n, input);
  }

  lemma OnePrefix(s: string, p: string)
    ensures StartsWithSome(s, [p]) <==> p <= s
  {
    if p <= s {
      assert [p][0] <= s;
    }
  }

  // ----- The meanings -----

  predicate IsFileAction(actionType: string) {
    actionType == READ || actionType == WRITE || actionType == DELETE
  }

  predicate SensitiveTarget(actionType: string, resource: string, workspace: string) {
    || ((actionType == WRITE || actionType == DELETE) && resource in SENSITIVE_PATHS)
    || (IsFileAction(actionType) && StartsWithSome(resource, SENSITIVE_PREFIXES))
    || (IsFileAction(actionType) && AGENTS_DIR <= resource && !(workspace <= resource))
  }

  lemma SensitiveMeaning(input: Input)
    ensures Base(ActionTargetsSensitivePath, input)
       <==> SensitiveTarget(input.action.actionType, input.action.resource, input.agent.workspacePath)
  {
    RuleOf3(ActionTargetsSensitivePath, input);
    BodyOf2(ActionTargetsSensitivePath, 0, input);
    BodyOf2(ActionTargetsSensitivePath, 1, input);
    BodyOf3(ActionTargetsSensitivePath, 2, input);
    OnePrefix(input.action.resource, AGENTS_DIR);
  }

  lemma DenyMeaning(input: Input)
    ensures Base(DenyRuleMatches, input) <==>
      || SensitiveTarget(input.action.actionType, input.action.resource, input.agent.workspacePath)
      || (input.action.actionType == EXEC && input.action.resource !in ALLOWED_BINARIES)
  {
    RuleOf2(DenyRuleMatches, input);
    BodyOf1(DenyRuleMatches, 0, input);
    BodyOf2(DenyRuleMatches, 1, input);
    SensitiveMeaning(input);
  }

  predicate ReadMatches(resource: string, workspace: string) {
    workspace <= resource || POLICY_DIR <= resource || resource in RUNTIME_INFO
  }

  lemma ReadBodies(input: Input)
    ensures (BaseBody(SomeAllowRuleMatches, 0, input) || BaseBody(SomeAllowRuleMatches, 2, input)
      || BaseBody(SomeAllowRuleMatches, 3, input))
       <==> input.action.actionType == READ && ReadMatches(input.action.resource, input.agent.workspacePath)
  {
    BodyOf2(SomeAllowRuleMatches, 0, input);
    BodyOf2(SomeAllowRuleMatches, 2, input);
    BodyOf2(SomeAllowRuleMatches, 3, input);
    OnePrefix(input.action.resource, POLICY_DIR);
  }

  lemma OtherAllowBodies(input: Input)
    ensures BaseBody(SomeAllowRuleMatches, 1, input)
       <==> input.action.actionType == WRITE && input.agent.workspacePath <= input.action.resource
    ensures BaseBody(SomeAllowRuleMatches, 4, input) <==> input.action.actionType == TOOL_CALL
    ensures BaseBody(SomeAllowRuleMatches, 5, input)
      <==> input.action.actionType == NETWORK && Base(AllowNetwork, input)
  {
    BodyOf2(SomeAllowRuleMatches, 1, input);
    BodyOf1(SomeAllowRuleMatches, 4, input);
    BodyOf2(SomeAllowRuleMatches, 5, input);
  }

  lemma SomeAllowMeaning(input: Input)
    ensures Base(SomeAllowRuleMatches, input) <==>
      || (input.action.actionType == READ && ReadMatches(input.action.resource, input.agent.workspacePath))
      || (input.action.actionType == WRITE && input.agent.workspacePath <= input.action.resource)
      || input.action.actionType == TOOL_CALL
      || (input.action.actionType == NETWORK && Base(AllowNetwork, input))
  {
    RuleOf6(SomeAllowRuleMatches, input);
    ReadBodies(input);
    OtherAllowBodies(input);
  }

  lemma AllowMeaning(input: Input)
    ensures Base(Allow, input) <==> Base(SomeAllowRuleMatches, input) && !Base(DenyRuleMatches, input)
  {
    RuleOf1(Allow, input);
    BodyOf2(Allow, 0, input);
  }

  lemma AuditMeaning(input: Input)
    ensures Base(AuditRequired, input) <==>
      input.agent.profile == INFRASTRUCTURE || input.action.actionType == NETWORK || input.action.actionType == EXEC
  {
    RuleOf3(AuditRequired, input);
    BodyOf1(AuditRequired, 0, input);
    BodyOf1(AuditRequired, 1, input);
    BodyOf1(AuditRequired, 2, input);
  }

  lemma NeverWritableMeaning(input: Input)
    ensures Base(IsNeverWritable, input) <==> StartsWithSome(input.action.resource, NEVER_WRITABLE_PREFIXES)
  {
    RuleOf1(IsNeverWritable, input);
    BodyOf1(IsNeverWritable, 0, input);
  }

  lemma NeverReadableMeaning(input: Input)
    ensures Base(IsNeverReadable, input) <==> input.action.resource in NEVER_READABLE
  {
    RuleOf1(IsNeverReadable, input);
    BodyOf1(IsNeverReadable, 0, input);
  }

  lemma WorkspaceWriteMeaning(input: Input)
    ensures Base(IsWorkspaceWrite, input) <==>
      && (input.action.actionType == WRITE || input.action.actionType == DELETE)
      && input.agent.workspacePath <= input.action.resource
      && !StartsWithSome(input.action.resource, NEVER_WRITABLE_PREFIXES)
  {
    RuleOf1(IsWorkspaceWrite, input);
    BodyOf3(IsWorkspaceWrite, 0, input);
    NeverWritableMeaning(input);
  }

  lemma PermittedReadMeaning(input: Input)
    ensures Base(IsPermittedRead, input) <==>
      && input.action.actionType == READ
      && (input.agent.workspacePath <= input.action.resource || input.action.resource in ALWAYS_READABLE
         || POLICY_DIR <= input.action.resource)
  {
    RuleOf3(IsPermittedRead, input);
    BodyOf2(IsPermittedRead, 0, input);
    BodyOf2(IsPermittedRead, 1, input);
    BodyOf2(IsPermittedRead, 2, input);
    OnePrefix(input.action.resource, POLICY_DIR);
  }

  lemma CidrSays(lit: Literal, block: Block, input: Input)
    requires lit == ResourceInCidr(block)
    ensures Says(lit, input) <==> InCidr(input.lib, block, input.action.resource)
  {
  }

  lemma LoopbackBodies(input: Input)
    ensures BaseBody(AllowNetwork, 0, input)
       <==> input.action.actionType == NETWORK && InCidr(input.lib, LOOPBACK, input.action.resource)
    ensures BaseBody(AllowNetwork, 1, input)
       <==> input.action.actionType == NETWORK && InCidr(input.lib, LoopbackV6, input.action.resource)
  {
    BodyOf2(AllowNetwork, 0, input);
    CidrSays(BaseBodies(AllowNetwork)[0][1], LOOPBACK, input);
    BodyOf2(AllowNetwork, 1, input);
    CidrSays(BaseBodies(AllowNetwork)[1][1], LoopbackV6, input);
  }

  lemma PublicBody(input: Input)
    ensures BaseBody(AllowNetwork, 2, input) <==>
      && input.action.actionType == NETWORK
      && (input.agent.profile == DEVELOPER || input.agent.profile == INFRASTRUCTURE)
      && !Base(IsBlockedEndpoint, input) && !Base(IsPrivateNetwork, input)
  {
    BodyOf4(AllowNetwork, 2, input);
    assert Says(Rule(IsBlockedEndpoint), input) <==> Base(IsBlockedEndpoint, input);
    assert Says(Rule(IsPrivateNetwork), input) <==> Base(IsPrivateNetwork, input);
  }

  lemma AllowNetworkMeaning(input: Input)
    ensures Base(AllowNetwork, input) <==>
      && input.action.actionType == NETWORK
      && (|| InCidr(input.lib, LOOPBACK, input.action.resource)
          || InCidr(input.lib, LoopbackV6, input.action.resource)
          || (&& (input.agent.profile == DEVELOPER || input.agent.profile == INFRASTRUCTURE)
              && !Base(IsBlockedEndpoint, input) && !Base(IsPrivateNetwork, input)))
  {
    RuleOf3(AllowNetwork, input);
    LoopbackBodies(input);
    PublicBody(input);
  }

  lemma BlockedMeaning(input: Input)
    ensures Base(IsBlockedEndpoint, input) <==>
      input.action.resource in BLOCKED_ENDPOINTS || InCidr(input.lib, METADATA, input.action.resource)
  {
    RuleOf2(IsBlockedEndpoint, input);
    BodyOf1(IsBlockedEndpoint, 0, input);
    BodyOf1(IsBlockedEndpoint, 1, input);
    CidrSays(BaseBodies(IsBlockedEndpoint)[1][0], METADATA, input);
  }

  lemma PrivateMeaning(input: Input)
    ensures Base(IsPrivateNetwork, input) <==>
      InCidr(input.lib, PRIVATE_10, input.action.resource) || InCidr(input.lib, PRIVATE_172, input.action.resource)
        || InCidr(input.lib, PRIVATE_192, input.action.resource)
  {
    RuleOf3(IsPrivateNetwork, input);
    BodyOf1(IsPrivateNetwork, 0, input);
    CidrSays(BaseBodies(IsPrivateNetwork)[0][0], PRIVATE_10, input);
    BodyOf1(IsPrivateNetwork, 1, input);
    CidrSays(BaseBodies(IsPrivateNetwork)[1][0], PRIVATE_172, input);
    BodyOf1(IsPrivateNetwork, 2, input);
    CidrSays(BaseBodies(IsPrivateNetwork)[2][0], PRIVATE_192, input);
  }
}
