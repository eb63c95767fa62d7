/**
 * Global facts about the shipped decision: closed forms, confinement, isolation, agreement with the filesystem policy.
 */
module Decisions {
  import opened Text
  import opened Identity
  import opened Paths
  import opened Records
  import opened Rego
  import opened BasePolicy
  import opened RuleMeanings

  const DEFAULT_ROOT := "/var/lib/atomic/agents"

  ghost predicate Allowed(lib: NetLibrary, agent: AgentRecord, action: AgentAction) {
    Base(Allow, Input(action, agent, lib))
  }

  // ----- Closed forms -----

  /** The whole decision without rules: what each action type is allowed, for any record. */
  lemma DecisionByType(lib: NetLibrary, agent: AgentRecord, action: AgentAction)
    ensures Allowed(lib, agent, action) <==>
      if action.actionType == READ then
        ReadMatches(action.resource, agent.workspacePath)
          && !SensitiveTarget(READ, action.resource, agent.workspacePath)
      else if action.actionType == WRITE then
        agent.workspacePath <= action.resource && !SensitiveTarget(WRITE, action.resource, agent.workspacePath)
      else if action.actionType == NETWORK then Base(AllowNetwork, Input(action, agent, lib))
      else action.actionType == TOOL_CALL
  {
    var input := Input(action, agent, lib);
    AllowMeaning(input);
    SomeAllowMeaning(input);
    DenyMeaning(input);
  }

  /** Deletes, executions and any unlisted action type are allowed to nobody. */
  lemma OnlyFourTypesAllowed(lib: NetLibrary, agent: AgentRecord, action: AgentAction)
    requires Allowed(lib, agent, action)
    ensures action.actionType in {READ, WRITE, NETWORK, TOOL_CALL}
  {
    DecisionByType(lib, agent, action);
  }

  // ----- How workspace paths meet the fixed paths of the policy -----

  /** None of the policy's fixed paths contains a `k`, which every workspace path does. */
  predicate Unrelated(fixed: string) {
    'k' !in fixed
  }

  lemma WorkspaceNotInside(root: string, id: string, fixed: string)
    requires Unrelated(fixed)
    ensures !(WorkspacePath(root, id) <= fixed)
  {
    var w := WorkspacePath(root, id);
    assert "/workspace"[4] == 'k';
    assert w[|root| + 1 + |id| + 4] == 'k';
    BytesOfPrefix(w, fixed);
  }

  lemma BytesOfPrefix(p: string, s: string)
    ensures p <= s ==> forall c :: c in p ==> c in s
  {
    if p <= s {
      assert forall i :: 0 <= i < |p| ==> s[i] == p[i];
    }
  }

  lemma FixedPathsAreUnrelated()
    ensures Unrelated(POLICY_DIR)
    ensures forall p :: p in SENSITIVE_PREFIXES ==> Unrelated(p)
    ensures forall p :: p in NEVER_WRITABLE_PREFIXES ==> Unrelated(p)
    ensures forall p :: p in SENSITIVE_PATHS || p in RUNTIME_INFO || p in NEVER_READABLE ==> Unrelated(p)
  {
  }

  /** A resource under a workspace starts with a fixed prefix exactly when the workspace path itself does. */
  lemma PrefixesOfWorkspaceResources(root: string, id: string, resource: string, prefixes: seq<string>)
    requires WorkspacePath(root, id) <= resource
    requires forall p :: p in prefixes ==> Unrelated(p)
    ensures StartsWithSome(resource, prefixes) <==> StartsWithSome(WorkspacePath(root, id), prefixes)
  {
    var w := WorkspacePath(root, id);
    if i :| 0 <= i < |prefixes| && prefixes[i] <= resource {
      assert prefixes[i] in prefixes;
      WorkspaceNotInside(root, id, prefixes[i]);
      PrefixesCompare(prefixes[i], w, resource);
      assert prefixes[i] <= w;
    }
    if i :| 0 <= i < |prefixes| && prefixes[i] <= w {
      assert prefixes[i] <= resource;
    }
  }

  /** Own-workspace resources are vetoed by nothing but a sensitive prefix of the workspace path itself. */
  lemma OwnWorkspaceVeto(root: string, id: string, actionType: string, resource: string)
    requires WorkspacePath(root, id) <= resource && IsFileAction(actionType)
    ensures SensitiveTarget(actionType, resource, WorkspacePath(root, id))
       <==> StartsWithSome(WorkspacePath(root, id), SENSITIVE_PREFIXES)
  {
    FixedPathsAreUnrelated();
    PrefixesOfWorkspaceResources(root, id, resource, SENSITIVE_PREFIXES);
    if resource in SENSITIVE_PATHS {
      WorkspaceNotInside(root, id, resource);
    }
  }

  /**
   * An agent can read and write all of its own workspace exactly when no sensitive prefix begins the workspace path.
   */
  lemma WorkspaceUsable(lib: NetLibrary, root: string, agent: AgentRecord)
    requires Managed(root, agent)
    ensures (forall action: AgentAction ::
               (action.actionType == READ || action.actionType == WRITE) && agent.workspacePath <= action.resource
               ==> Allowed(lib, agent, action))
       <==> !StartsWithSome(agent.workspacePath, SENSITIVE_PREFIXES)
  {
    var whole := AgentAction(agent.id, WRITE, agent.workspacePath, map[], 0);
    DecisionByType(lib, agent, whole);
    OwnWorkspaceVeto(root, agent.id, WRITE, agent.workspacePath);
    if !StartsWithSome(agent.workspacePath, SENSITIVE_PREFIXES) {
      forall action: AgentAction | (action.actionType == READ || action.actionType == WRITE)
        && agent.workspacePath <= action.resource
        ensures Allowed(lib, agent, action)
      {
        DecisionByType(lib, agent, action);
        OwnWorkspaceVeto(root, agent.id, action.actionType, action.resource);
      }
    }
  }

  lemma DefaultRootIsNotSensitive(id: string)
    ensures !StartsWithSome(WorkspacePath(DEFAULT_ROOT, id), SENSITIVE_PREFIXES)
    ensures !StartsWithSome(WorkspacePath(DEFAULT_ROOT, id), NEVER_WRITABLE_PREFIXES)
    ensures !(POLICY_DIR <= WorkspacePath(DEFAULT_ROOT, id))
    ensures AGENTS_DIR <= WorkspacePath(DEFAULT_ROOT, id)
  {
    var w := WorkspacePath(DEFAULT_ROOT, id);
    assert w[1] == 'v';
    assert AGENTS_DIR == DEFAULT_ROOT + "/";
    assert w == AGENTS_DIR + (id + "/workspace");
  }

  lemma PolicyDirIsNotSensitive(resource: string)
    requires POLICY_DIR <= resource || resource in RUNTIME_INFO
    ensures !StartsWithSome(resource, SENSITIVE_PREFIXES)
    ensures !(AGENTS_DIR <= resource)
    ensures resource !in NEVER_READABLE
  {
    if POLICY_DIR <= resource {
      assert resource[1] == 'u' && resource[5] == 's';
    } else {
      assert resource[1] == 'p' || (resource[1] == 'e' && resource[5] != 's');
    }
    forall i | 0 <= i < |SENSITIVE_PREFIXES|
      ensures !(SENSITIVE_PREFIXES[i] <= resource)
    {
      var p := SENSITIVE_PREFIXES[i];
      assert p[1] == 'r' || p[1] == 'h' || p[1] == 'b' || (p[1] == 'e' && p[5] == 's') || (p[1] == 'u' && p[5] != 's');
    }
  }

  /** Under the default root no deny rule ever vetoes a matching filesystem rule: the program is negation-free there. */
  lemma ClosedForm(lib: NetLibrary, agent: AgentRecord, action: AgentAction)
    requires Managed(DEFAULT_ROOT, agent)
    ensures Allowed(lib, agent, action.(actionType := READ)) <==> ReadMatches(action.resource, agent.workspacePath)
    ensures Allowed(lib, agent, action.(actionType := WRITE)) <==> agent.workspacePath <= action.resource
  {
    DecisionByType(lib, agent, action.(actionType := READ));
    DecisionByType(lib, agent, action.(actionType := WRITE));
    DefaultRootIsNotSensitive(agent.id);
    if agent.workspacePath <= action.resource {
      OwnWorkspaceVeto(DEFAULT_ROOT, agent.id, READ, action.resource);
      OwnWorkspaceVeto(DEFAULT_ROOT, agent.id, WRITE, action.resource);
    } else if ReadMatches(action.resource, agent.workspacePath) {
      PolicyDirIsNotSensitive(action.resource);
    }
  }

  // ----- Isolation between agents -----

  /**
   * Some filesystem action of one agent on a path that begins with another's workspace path is allowed exactly when
   * that workspace path begins with the policy directory; under the default root that never happens.
   */
  lemma Isolation(lib: NetLibrary, root: string, agent: AgentRecord, other: string)
    requires Managed(root, agent) && ValidId(other) && other != agent.id
    ensures (exists action: AgentAction ::
               IsFileAction(action.actionType) && WorkspacePath(root, other) <= action.resource
                 && Allowed(lib, agent, action))
       <==> POLICY_DIR <= WorkspacePath(root, other)
    ensures root == DEFAULT_ROOT ==> !(POLICY_DIR <= WorkspacePath(root, other))
  {
    var w := WorkspacePath(root, other);
    if POLICY_DIR <= w {
      var intrusion := AgentAction(agent.id, READ, w, map[], 0);
      DecisionByType(lib, agent, intrusion);
      PolicyDirIsNotSensitive(w);
      assert Allowed(lib, agent, intrusion) && IsFileAction(intrusion.actionType);
    }
    if action: AgentAction :| IsFileAction(action.actionType) && w <= action.resource && Allowed(lib, agent, action) {
      AllowedInOtherWorkspace(lib, root, agent, other, action);
    }
    DefaultRootIsNotSensitive(other);
  }

  lemma AllowedInOtherWorkspace(lib: NetLibrary, root: string, agent: AgentRecord, other: string, action: AgentAction)
    requires Managed(root, agent) && ValidId(other) && other != agent.id
    requires IsFileAction(action.actionType) && WorkspacePath(root, other) <= action.resource
    requires Allowed(lib, agent, action)
    ensures POLICY_DIR <= WorkspacePath(root, other)
  {
    DecisionByType(lib, agent, action);
    FixedPathsAreUnrelated();
    if agent.workspacePath <= action.resource {
      WorkspacesNeverOverlap(root, agent.id, other, action.resource);
      assert false;
    } else if POLICY_DIR <= action.resource {
      WorkspaceNotInside(root, other, POLICY_DIR);
      PrefixesCompare(POLICY_DIR, WorkspacePath(root, other), action.resource);
    } else {
      WorkspaceNotInside(root, other, action.resource);
      assert false;
    }
  }

  // ----- Confinement by path segments -----

  lemma WorkspaceSplit(root: string, id: string, below: string)
    requires ValidId(id)
    ensures Split(root + "/" + (id + "/" + below), '/') == Split(root, '/') + ([id] + Split(below, '/'))
  {
    ValidIdIsPlain(id);
    SplitOfConcat(root, id + "/" + below, '/');
    SplitPlainHead(id, below, '/');
  }

  lemma WorkspaceText(root: string, id: string, rest: string)
    ensures WorkspacePath(root, id) + rest == root + "/" + (id + "/" + ("workspace" + rest))
  {
  }

  lemma FieldsBelow(root: string, id: string, name: string, rest: string)
    requires ValidId(id) && '/' !in name
    ensures var fields, n := Split(root + "/" + (id + "/" + (name + rest)), '/'), |Split(root, '/')|;
      && |fields| >= n + 2
      && fields == Split(root, '/') + ([id] + fields[n + 1..])
      && name <= fields[n + 1]
  {
    var below := name + rest;
    WorkspaceSplit(root, id, below);
    SplitAfterPlain(name, rest, '/');
    FieldsAfter(Split(root + "/" + (id + "/" + below), '/'), Split(root, '/'), id, Split(below, '/'));
  }

  lemma WorkspaceFields(root: string, id: string, resource: string)
    requires ValidId(id) && WorkspacePath(root, id) <= resource
    ensures var fields, n := Split(resource, '/'), |Split(root, '/')|;
      && |fields| >= n + 2
      && fields == Split(root, '/') + ([id] + fields[n + 1..])
      && "workspace" <= fields[n + 1]
  {
    var rest := resource[|WorkspacePath(root, id)|..];
    WorkspaceText(root, id, rest);
    assert resource == WorkspacePath(root, id) + rest;
    FieldsBelow(root, id, "workspace", rest);
  }

  lemma FieldsAfter(fields: seq<string>, first: seq<string>, id: string, rest: seq<string>)
    requires fields == first + ([id] + rest)
    ensures fields[|first| + 1..] == rest
  {
  }

  /** A path that begins with a workspace path, by fields and after cleaning. */
  lemma WorkspaceResource(root: string, id: string, resource: string)
    requires root != "" && ValidId(id) && WorkspacePath(root, id) <= resource
    ensures var fields, rootFields := Split(resource, '/'), Split(root, '/');
      && |fields| >= |rootFields| + 2
      && fields[..|rootFields|] == rootFields
      && fields[|rootFields|] == id
      && "workspace" <= fields[|rootFields| + 1]
    ensures ".." !in Split(resource, '/') ==>
      var cleaned, dir := CleanPath(resource), JoinPath(root, id);
      && Under(dir, cleaned)
      && |cleaned.segments| > |dir.segments|
      && "workspace" <= cleaned.segments[|dir.segments|]
  {
    WorkspaceFields(root, id, resource);
    var fields, n := Split(resource, '/'), |Split(root, '/')|;
    if ".." !in fields {
      assert root <= WorkspacePath(root, id) <= resource;
      CleanBelow(root, id, resource, fields[n + 1..]);
    }
  }

  /** An allowed write lies, segment by segment, in root/id, in an entry whose name begins with `workspace`. */
  lemma WriteIsConfined(lib: NetLibrary, root: string, agent: AgentRecord, action: AgentAction)
    requires root != "" && Managed(root, agent) && action.actionType == WRITE && Allowed(lib, agent, action)
    ensures var fields, rootFields := Split(action.resource, '/'), Split(root, '/');
      && |fields| >= |rootFields| + 2
      && fields[..|rootFields|] == rootFields
      && fields[|rootFields|] == agent.id
      && "workspace" <= fields[|rootFields| + 1]
    ensures ".." !in Split(action.resource, '/') ==>
      var cleaned, dir := CleanPath(action.resource), JoinPath(root, agent.id);
      && Under(dir, cleaned)
      && |cleaned.segments| > |dir.segments|
      && "workspace" <= cleaned.segments[|dir.segments|]
  {
    DecisionByType(lib, agent, action);
    WorkspaceResource(root, agent.id, action.resource);
  }

  lemma CleanBelow(root: string, id: string, resource: string, tail: seq<string>)
    requires root != "" && ValidId(id) && |tail| > 0 && "workspace" <= tail[0]
    requires Split(resource, '/') == Split(root, '/') + ([id] + tail) && ".." !in Split(resource, '/')
    requires root <= resource
    ensures var cleaned, dir := CleanPath(resource), JoinPath(root, id);
      && Under(dir, cleaned)
      && |cleaned.segments| > |dir.segments|
      && "workspace" <= cleaned.segments[|dir.segments|]
  {
    var rooted := "/" <= root;
    assert rooted == ("/" <= resource);
    ValidIdIsPlain(id);
    JoinAddsOneSegment(root, id);
    var stack := PushAll([], Split(root, '/'), rooted);
    PushAllSplits([], Split(root, '/'), [id] + tail, rooted);
    assert ([id] + tail)[1..] == tail;
    assert PushAll(stack, [id] + tail, rooted) == PushAll(stack + [id], tail, rooted);
    assert tail[0] != "" && tail[0] != "." && tail[0] in Split(resource, '/');
    assert forall s :: s in tail[1..] ==> s in Split(resource, '/');
    PushAllGrows(stack + [id] + [tail[0]], tail[1..], rooted);
    var segments := PushAll(stack + [id] + [tail[0]], tail[1..], rooted);
    assert CleanPath(resource).segments == segments;
    assert (stack + [id] + [tail[0]])[|stack| + 1] == tail[0];
  }

  // ----- Isolation after cleaning -----

  /** From one's own workspace two levels up and down again into another agent's directory. */
  function WayOut(root: string, id: string, other: string): string {
    WorkspacePath(root, id) + "/../../" + other
  }

  lemma WayOutFields(root: string, id: string, other: string)
    requires ValidId(id) && ValidId(other)
    ensures Split(WayOut(root, id, other), '/') == Split(root, '/') + ([id, "workspace", "..", ".."] + [other])
  {
    ValidIdIsPlain(other);
    var up2 := ".." + "/" + other;
    var up1 := ".." + "/" + up2;
    var below := "workspace" + "/" + up1;
    assert WayOut(root, id, other) == root + "/" + (id + "/" + below);
    WorkspaceSplit(root, id, below);
    SplitPlain(other, '/');
    SplitPlainHead("..", other, '/');
    SplitPlainHead("..", up2, '/');
    SplitPlainHead("workspace", up1, '/');
    assert Split(below, '/') == ["workspace"] + ([".."] + ([".."] + [other]));
  }

  lemma WayOutLeadsOut(root: string, id: string, other: string)
    requires "/" <= root && ValidId(id) && ValidId(other)
    ensures CleanPath(WayOut(root, id, other)) == JoinPath(root, other)
  {
    ValidIdIsPlain(id);
    ValidIdIsPlain(other);
    WayOutFields(root, id, other);
    JoinAddsOneSegment(root, other);
    var stack := PushAll([], Split(root, '/'), true);
    PushAllSplits([], Split(root, '/'), [id, "workspace", "..", ".."] + [other], true);
    PushAllSplits(stack, [id, "workspace", "..", ".."], [other], true);
    PushAllTakesTwo(stack, id, "workspace");
    assert PushAll(stack, [other], true) == stack + [other];
  }

  lemma DefaultRootSegments(other: string)
    requires ValidId(other)
    ensures JoinPath(DEFAULT_ROOT, other).segments != [] && JoinPath(DEFAULT_ROOT, other).segments[0] == "var"
  {
    ValidIdIsPlain(other);
    assert "/var/" <= DEFAULT_ROOT && '.' !in DEFAULT_ROOT;
    DotlessRoot(DEFAULT_ROOT, "/var/", "var", other);
  }

  /** Without `..`, an allowed file action stays out of other agents' directories even after cleaning. */
  lemma CleanedAllowed(lib: NetLibrary, agent: AgentRecord, other: string, action: AgentAction)
    requires Managed(DEFAULT_ROOT, agent) && ValidId(other) && other != agent.id
    requires IsFileAction(action.actionType) && Allowed(lib, agent, action) && ".." !in Split(action.resource, '/')
    ensures !Under(JoinPath(DEFAULT_ROOT, other), CleanPath(action.resource))
  {
    var resource := action.resource;
    DecisionByType(lib, agent, action);
    DefaultRootSegments(other);
    ValidIdIsPlain(agent.id);
    ValidIdIsPlain(other);
    if agent.workspacePath <= resource {
      WorkspaceResource(DEFAULT_ROOT, agent.id, resource);
      if Under(JoinPath(DEFAULT_ROOT, other), CleanPath(resource)) {
        SiblingsAreDisjoint(DEFAULT_ROOT, agent.id, other, CleanPath(resource));
      }
    } else if POLICY_DIR <= resource {
      PolicySegments(resource);
    } else {
      RuntimeInfoSegments(resource);
    }
  }

  lemma PolicySegments(resource: string)
    requires POLICY_DIR <= resource && ".." !in Split(resource, '/')
    ensures CleanPath(resource).segments != [] && CleanPath(resource).segments[0] == "usr"
  {
    assert "/usr/" <= POLICY_DIR <= resource;
    assert resource == "/usr/" + resource[5..];
    DotDotOfTail("/usr/", "usr", resource[5..]);
    FirstSegmentStays("/usr/", "usr", resource[5..]);
  }

  lemma RuntimeInfoSegments(resource: string)
    requires resource in RUNTIME_INFO
    ensures CleanPath(resource).segments != [] && CleanPath(resource).segments[0] in {"etc", "proc"}
  {
    if "/etc/" <= resource {
      DotlessPath(resource, "/etc/", "etc");
    } else {
      assert "/proc/" <= resource;
      DotlessPath(resource, "/proc/", "proc");
    }
  }

  /**
   * The rules compare text. Whether an allowed read or write can, after cleaning, lie in another agent's directory
   * depends exactly on whether requests with `..` segments are let through to them.
   */
  lemma CleanedIsolation(lib: NetLibrary, agent: AgentRecord, other: string, actionType: string, dots: bool)
    requires Managed(DEFAULT_ROOT, agent) && ValidId(other) && other != agent.id
    requires actionType == READ || actionType == WRITE
    ensures (forall action: AgentAction ::
               action.actionType == actionType && Allowed(lib, agent, action)
                 && (dots || ".." !in Split(action.resource, '/'))
               ==> !Under(JoinPath(DEFAULT_ROOT, other), CleanPath(action.resource)))
       <==> !dots
  {
    var resource := WayOut(DEFAULT_ROOT, agent.id, other);
    var escape := AgentAction(agent.id, actionType, resource, map[], 0);
    assert escape.(actionType := READ) == AgentAction(agent.id, READ, resource, map[], 0);
    ClosedForm(lib, agent, escape);
    assert escape.(actionType := actionType) == escape;
    WayOutLeadsOut(DEFAULT_ROOT, agent.id, other);
    assert Allowed(lib, agent, escape) && Under(JoinPath(DEFAULT_ROOT, other), CleanPath(escape.resource));
    if !dots {
      forall action: AgentAction | action.actionType == actionType && Allowed(lib, agent, action)
        && ".." !in Split(action.resource, '/')
        ensures !Under(JoinPath(DEFAULT_ROOT, other), CleanPath(action.resource))
      {
        CleanedAllowed(lib, agent, other, action);
      }
    }
  }

  // ----- Agreement with filesystem_policy.rego -----

  /** Every allowed read is a permitted read of the filesystem policy and never a never-readable one, under any root. */
  lemma ReadsRefineFilesystemPolicy(lib: NetLibrary, root: string, agent: AgentRecord, action: AgentAction)
    requires Managed(root, agent) && action.actionType == READ && Allowed(lib, agent, action)
    ensures Base(IsPermittedRead, Input(action, agent, lib)) && !Base(IsNeverReadable, Input(action, agent, lib))
  {
    var input := Input(action, agent, lib);
    DecisionByType(lib, agent, action);
    PermittedReadMeaning(input);
    NeverReadableMeaning(input);
    FixedPathsAreUnrelated();
    if agent.workspacePath <= action.resource {
      if action.resource in NEVER_READABLE {
        WorkspaceNotInside(root, agent.id, action.resource);
      }
    } else {
      PolicyDirIsNotSensitive(action.resource);
    }
  }

  /**
   * The allowed writes are all workspace writes of the filesystem policy exactly when the workspace path starts with
   * no never-writable prefix, or starts with a sensitive one and so allows no write at all.
   */
  lemma WritesRefineFilesystemPolicy(lib: NetLibrary, root: string, agent: AgentRecord)
    requires Managed(root, agent)
    ensures (forall action: AgentAction :: action.actionType == WRITE && Allowed(lib, agent, action) ==>
               Base(IsWorkspaceWrite, Input(action, agent, lib)) && !Base(IsNeverWritable, Input(action, agent, lib)))
       <==> (!StartsWithSome(agent.workspacePath, NEVER_WRITABLE_PREFIXES)
         || StartsWithSome(agent.workspacePath, SENSITIVE_PREFIXES))
    ensures root == DEFAULT_ROOT ==> !StartsWithSome(agent.workspacePath, NEVER_WRITABLE_PREFIXES)
  {
    var whole := AgentAction(agent.id, WRITE, agent.workspacePath, map[], 0);
    forall action: AgentAction | action.actionType == WRITE
      ensures Allowed(lib, agent, action) <==>
        agent.workspacePath <= action.resource && !StartsWithSome(agent.workspacePath, SENSITIVE_PREFIXES)
      ensures agent.workspacePath <= action.resource ==>
        (Base(IsWorkspaceWrite, Input(action, agent, lib)) <==>
            !StartsWithSome(agent.workspacePath, NEVER_WRITABLE_PREFIXES))
        && (Base(IsNeverWritable, Input(action, agent, lib)) <==>
            StartsWithSome(agent.workspacePath, NEVER_WRITABLE_PREFIXES))
    {
      WriteAgainstFilesystemPolicy(lib, root, agent, action);
    }
    assert whole.actionType == WRITE && agent.workspacePath <= whole.resource;
    DefaultRootIsNotSensitive(agent.id);
  }

  lemma WriteAgainstFilesystemPolicy(lib: NetLibrary, root: string, agent: AgentRecord, action: AgentAction)
    requires Managed(root, agent) && action.actionType == WRITE
    ensures Allowed(lib, agent, action) <==>
      agent.workspacePath <= action.resource && !StartsWithSome(agent.workspacePath, SENSITIVE_PREFIXES)
    ensures agent.workspacePath <= action.resource ==>
      (Base(IsWorkspaceWrite, Input(action, agent, lib)) <==>
            !StartsWithSome(agent.workspacePath, NEVER_WRITABLE_PREFIXES))
      && (Base(IsNeverWritable, Input(action, agent, lib)) <==>
            StartsWithSome(agent.workspacePath, NEVER_WRITABLE_PREFIXES))
  {
    var input := Input(action, agent, lib);
    DecisionByType(lib, agent, action);
    NeverWritableMeaning(input);
    WorkspaceWriteMeaning(input);
    if agent.workspacePath <= action.resource {
      OwnWorkspaceVeto(root, agent.id, WRITE, action.resource);
      FixedPathsAreUnrelated();
      PrefixesOfWorkspaceResources(root, agent.id, action.resource, NEVER_WRITABLE_PREFIXES);
    }
  }
}
