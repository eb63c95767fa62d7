/** With the shipped rules loaded, every `allow` the daemon ever logs is one the rules give to a registered agent. */
module PolicyLog {
  import opened Text
  import opened Identity
  import opened Paths
  import opened Records
  import opened Memory
  import opened Machine
  import opened Footprints
  import opened MachineInvariants
  import opened Lifetimes
  import opened DecisionLog
  import opened Rego
  import opened BasePolicy
  import opened RuleMeanings
  import opened Decisions
  import opened PolicyInFull
  import opened Wrappers
  import E = EngineState

  // ----- What a query made of the shipped rules answers -----

  /**
   * On every input the query's result is an object whose two flags are the rules' decisions under the library `lib`,
   * with no reasons: no shipped rule gives any.
   */
  ghost predicate Shipped(lib: NetLibrary, query: E.Query) {
    forall input: OPAInput ::
      && query(input).Object?
      && ("reasons" in query(input).fields ==> query(input).fields["reasons"] == E.List([]))
      && E.Flagged(query(input).fields, "allow") == Base(Allow, Input(input.action, input.agent, lib))
      && E.Flagged(query(input).fields, "audit_required")
         == Base(AuditRequired, Input(input.action, input.agent, lib))
  }

  function ShippedResult(allow: bool, audit: bool): E.Outcome {
    E.Object(map["allow" := E.Bool(allow), "audit_required" := E.Bool(audit), "reasons" := E.List([])])
  }

  lemma FlagsOfResult(allow: bool, audit: bool)
    ensures var fields := ShippedResult(allow, audit).fields;
      && E.Flagged(fields, "allow") == allow && E.Flagged(fields, "audit_required") == audit
      && "reasons" in fields && fields["reasons"] == E.List([])
  {
    assert "allow" != "audit_required" && "allow" != "reasons" && "audit_required" != "reasons";
  }

  /** For every library there is such a query. */
  lemma ShippedQuery(lib: NetLibrary) returns (query: E.Query)
    ensures Shipped(lib, query)
  {
    query := (input: OPAInput) =>
      ShippedResult(Base(Allow, Input(input.action, input.agent, lib)),
                    Base(AuditRequired, Input(input.action, input.agent, lib)));
    forall allow, audit {
      FlagsOfResult(allow, audit);
    }
  }

  ghost predicate AllShipped(lib: NetLibrary, queries: map<string, E.Query>) {
    forall profile :: profile in queries ==> Shipped(lib, queries[profile])
  }

  /** The policies a step loads, if any, are the shipped ones. */
  ghost predicate LoadsShipped(lib: NetLibrary, l: Label) {
    && (l.Boot? ==> AllShipped(lib, l.queries))
    && (l.Reload? && l.reloaded.Some? ==> AllShipped(lib, l.reloaded.value))
  }

  // ----- The loaded queries -----

  lemma {:induction false} ShippedAlways(lib: NetLibrary, c: Config, states: seq<Sys>, labels: seq<Label>, i: nat)
    requires Behavior(c, states, labels) && i < |states|
    requires forall j :: 0 <= j < i ==> LoadsShipped(lib, labels[j])
    ensures AllShipped(lib, states[i].mem.eng.queries)
    decreases i
  {
    if i > 0 {
      ShippedAlways(lib, c, states, labels, i - 1);
      RunTouches(c, states, labels, i - 1);
      assert LoadsShipped(lib, labels[i - 1]);
    }
  }

  // ----- The decision the shipped policies give -----

  /** What the engine in state `m` should decide: for an unknown agent, for an unknown profile, and by the policy. */
  ghost function Ruling(lib: NetLibrary, m: Mem, action: AgentAction): PolicyDecision
    requires WellFormed(m)
  {
    if action.agentId !in m.eng.agents then PolicyDecision(false, ["agent not registered"], false, "none")
    else
      var agent := m.eng.cells[m.eng.agents[action.agentId]];
      if agent.profile !in {"minimal", "developer", "infrastructure"}
      then PolicyDecision(false, ["unknown policy profile: " + agent.profile], false, agent.profile)
      else PolicyDecision(
             MayDo(lib, agent.profile, agent.workspacePath, action.actionType, action.resource), [],
             MustAudit(agent.profile, action.actionType), agent.profile)
  }

  /** What a shipped query reports of one agent's action. */
  lemma ShippedReport(lib: NetLibrary, query: E.Query, action: AgentAction, agent: AgentRecord)
    requires Shipped(lib, query)
    ensures E.Interpret(query(OPAInput(action, agent)), agent.profile) == Ok(PolicyDecision(
              MayDo(lib, agent.profile, agent.workspacePath, action.actionType, action.resource), [],
              MustAudit(agent.profile, action.actionType), agent.profile))
  {
    var input := OPAInput(action, agent);
    assert E.Flagged(query(input).fields, "allow") == Base(Allow, Input(input.action, input.agent, lib));
    AllowInFull(lib, agent, action);
    AuditInFull(Input(action, agent, lib));
  }

  /**
   * With the shipped policies every registered agent under a loaded profile gets an answer: `allow` exactly if the
   * policy allows it the action, no reasons, and auditing exactly for infrastructure, connections and executions.
   */
  lemma ShippedDecision(lib: NetLibrary, queries: map<string, E.Query>, records: map<string, AgentRecord>,
                        action: AgentAction)
    requires AllShipped(lib, queries) && action.agentId in records && records[action.agentId].profile in queries
    ensures var agent := records[action.agentId];
      E.DecideAt(queries, records, action) == Ok(PolicyDecision(
        MayDo(lib, agent.profile, agent.workspacePath, action.actionType, action.resource), [],
        MustAudit(agent.profile, action.actionType), agent.profile))
  {
    var agent := records[action.agentId];
    ShippedReport(lib, queries[agent.profile], action, agent);
  }

  lemma RulingIsDecision(lib: NetLibrary, c: Config, s: Sys, action: AgentAction)
    requires Shape(c, s) && QueriesOk(s) && AllShipped(lib, s.mem.eng.queries)
    ensures DecisionOf(s.mem, action) == Ok(Ruling(lib, s.mem, action))
  {
    if action.agentId in s.mem.eng.agents {
      DownHasNoAgents(c, s);
      var records := E.RecordsOf(s.mem.eng);
      if records[action.agentId].profile in s.mem.eng.queries {
        ShippedDecision(lib, s.mem.eng.queries, records, action);
      }
    }
  }

  lemma RulingInRun(lib: NetLibrary, c: Config, states: seq<Sys>, labels: seq<Label>, i: nat, action: AgentAction)
    requires Behavior(c, states, labels) && i < |states|
    requires forall j :: 0 <= j < i ==> LoadsShipped(lib, labels[j])
    ensures WellFormed(states[i].mem)
    ensures DecisionOf(states[i].mem, action) == Ok(Ruling(lib, states[i].mem, action))
  {
    CoreAlways(c, states, labels, i);
    QueriesAreLastLoad(c, states, labels, i);
    ShippedAlways(lib, c, states, labels, i);
    RulingIsDecision(lib, c, states[i], action);
  }

  /** The event reports what state `m` gives by the policy. */
  ghost predicate RuledIn(lib: NetLibrary, m: Mem, event: Event) {
    WellFormed(m) && exists action: AgentAction ::
      var ruling := Ruling(lib, m, action);
      event == Event(if ruling.allow then PolicyAllow else PolicyDeny, action.agentId, action.actionType,
                     action.resource, ruling.profile, ruling.reasons, "", "")
  }

  /**
   * In every run that loads only the shipped policies, every logged decision, allow or deny, is the one the policy
   * gives to the records the engine held in one earlier state: event, type, resource, profile and reasons.
   */
  lemma EveryDecisionIsRuled(lib: NetLibrary, c: Config, states: seq<Sys>, labels: seq<Label>, i: nat, n: nat)
    requires Behavior(c, states, labels) && i < |states|
    requires forall j :: 0 <= j < i ==> LoadsShipped(lib, labels[j])
    requires n < |states[i].mem.log| && AboutPolicy(states[i].mem.log[n])
    ensures exists j :: 0 <= j <= i && RuledIn(lib, states[j].mem, states[i].mem.log[n])
  {
    var event := states[i].mem.log[n];
    EveryDecisionHasAnInstant(c, states, labels, i, n);
    var j :| 0 <= j <= i && DecidedIn(states[j].mem, event);
    var action: AgentAction :|
      DecisionOf(states[j].mem, action).Ok? && event == ActionEvent(action, DecisionOf(states[j].mem, action).value);
    RulingInRun(lib, c, states, labels, j, action);
    assert RuledIn(lib, states[j].mem, event);
  }

  /**
   * And every answer that is about to be returned, in any state of such a run, is the decision of one earlier state,
   * auditing included; no evaluation ends in an error.
   */
  lemma EveryAnswerIsRuled(lib: NetLibrary, c: Config, states: seq<Sys>, labels: seq<Label>, i: nat, k: nat)
    requires Behavior(c, states, labels) && i < |states|
    requires forall j :: 0 <= j < i ==> LoadsShipped(lib, labels[j])
    requires k in states[i].calls && states[i].calls[k].Answering?
    ensures exists j :: 0 <= j <= i && WellFormed(states[j].mem)
                        && states[i].calls[k].answer == Ok(Ruling(lib, states[j].mem, states[i].calls[k].action))
  {
    TracedAlways(c, states, labels, i);
    var j :| 0 <= j <= i && BoundIn(states[j].mem, states[i], k);
    RulingInRun(lib, c, states, labels, j, states[i].calls[k].action);
    assert DecisionOf(states[j].mem, states[i].calls[k].action) == states[i].calls[k].answer;
  }

  // ----- Allows -----

  /**
   * In state `m` the engine knows the event's agent, under the event's profile, and the rules allow that very record an
   * action with the event's type and resource.
   */
  ghost predicate GrantedIn(lib: NetLibrary, c: Config, m: Mem, event: Event) {
    && WellFormed(m) && event.agentId in E.RecordsOf(m.eng)
    && var agent := E.RecordsOf(m.eng)[event.agentId];
       && Managed(c.root, agent) && agent.id == event.agentId
       && agent.profile == event.profile && agent.profile in PROFILE_SET
       && exists action: AgentAction ::
            && action.agentId == event.agentId && action.actionType == event.actionType
            && action.resource == event.resource
            && Allowed(lib, agent, action)
  }

  /** Only a registered agent with a loaded profile gets an allow, and only if the profile's query says so. */
  lemma AllowNeedsQuery(queries: map<string, E.Query>, records: map<string, AgentRecord>, action: AgentAction)
    requires E.DecideAt(queries, records, action).Ok? && E.DecideAt(queries, records, action).value.allow
    ensures action.agentId in records && records[action.agentId].profile in queries
    ensures var agent := records[action.agentId]; var outcome := queries[agent.profile](OPAInput(action, agent));
      && outcome.Object? && E.Flagged(outcome.fields, "allow")
      && E.DecideAt(queries, records, action).value.profile == agent.profile
  {
  }

  lemma ShippedAllow(lib: NetLibrary, query: E.Query, action: AgentAction, agent: AgentRecord)
    requires Shipped(lib, query)
    requires var outcome := query(OPAInput(action, agent)); outcome.Object? && E.Flagged(outcome.fields, "allow")
    ensures Allowed(lib, agent, action)
  {
    var input := OPAInput(action, agent);
    assert E.Flagged(query(input).fields, "allow") == Base(Allow, Input(input.action, input.agent, lib));
  }

  lemma DecidedAllow(lib: NetLibrary, c: Config, s: Sys, action: AgentAction, event: Event)
    requires Shape(c, s) && QueriesOk(s) && AllShipped(lib, s.mem.eng.queries)
    requires DecisionOf(s.mem, action).Ok? && event == ActionEvent(action, DecisionOf(s.mem, action).value)
    requires event.kind == PolicyAllow
    ensures GrantedIn(lib, c, s.mem, event)
  {
    var records := E.RecordsOf(s.mem.eng);
    AllowNeedsQuery(s.mem.eng.queries, records, action);
    var agent := records[action.agentId];
    ShippedAllow(lib, s.mem.eng.queries[agent.profile], action, agent);
    EngineRecordIsManaged(c, s, action.agentId);
    DownHasNoAgents(c, s);
  }

  lemma EngineRecordIsManaged(c: Config, s: Sys, id: string)
    requires Shape(c, s) && id in s.mem.eng.agents
    ensures Managed(c.root, E.RecordsOf(s.mem.eng)[id]) && E.RecordsOf(s.mem.eng)[id].id == id
  {
    assert Managed(c.root, s.mem.eng.cells[s.mem.eng.agents[id]]);
  }

  lemma DownHasNoAgents(c: Config, s: Sys)
    requires Shape(c, s)
    ensures s.phase == Phase.Down ==> E.RecordsOf(s.mem.eng) == map[]
  {
  }

  /**
   * In every run that loads only the shipped rules, and for every allow event in its log: in some earlier state of the
   * run the engine held a record of that agent, made by the manager, under that profile, and the rules allow that
   * record the action. So neither an unknown agent nor an unknown profile ever gets an allow.
   */
  lemma EveryAllowIsGranted(lib: NetLibrary, c: Config, states: seq<Sys>, labels: seq<Label>, i: nat, n: nat)
    requires Behavior(c, states, labels) && i < |states|
    requires forall j :: 0 <= j < i ==> LoadsShipped(lib, labels[j])
    requires n < |states[i].mem.log| && states[i].mem.log[n].kind == PolicyAllow
    ensures exists j :: 0 <= j <= i && GrantedIn(lib, c, states[j].mem, states[i].mem.log[n])
  {
    var event := states[i].mem.log[n];
    EveryDecisionHasAnInstant(c, states, labels, i, n);
    var j :| 0 <= j <= i && DecidedIn(states[j].mem, event);
    var action: AgentAction :|
      DecisionOf(states[j].mem, action).Ok? && event == ActionEvent(action, DecisionOf(states[j].mem, action).value);
    CoreAlways(c, states, labels, j);
    QueriesAreLastLoad(c, states, labels, j);
    ShippedAlways(lib, c, states, labels, j);
    DecidedAllow(lib, c, states[j], action, event);
  }

  // ----- What the log then proves -----

  /** What an allow event under the default root says, textually and after cleaning. */
  ghost predicate Isolated(lib: NetLibrary, event: Event) {
    var own := WorkspacePath(DEFAULT_ROOT, event.agentId);
    && ValidId(event.agentId)
    && event.actionType in {READ, WRITE, NETWORK, TOOL_CALL}
    && (event.actionType == WRITE ==> own <= event.resource)
    && (event.actionType == READ ==> ReadMatches(event.resource, own))
    && (forall other :: IsFileAction(event.actionType) && ValidId(other) && other != event.agentId ==>
          && !(WorkspacePath(DEFAULT_ROOT, other) <= event.resource)
          && (".." !in Split(event.resource, '/') ==> !Under(JoinPath(DEFAULT_ROOT, other), CleanPath(event.resource))))
  }

  lemma GrantedIsIsolated(lib: NetLibrary, c: Config, m: Mem, event: Event)
    requires GrantedIn(lib, c, m, event) && c.root == DEFAULT_ROOT
    ensures Isolated(lib, event)
  {
    var agent := E.RecordsOf(m.eng)[event.agentId];
    var action: AgentAction :|
      && action.agentId == event.agentId && action.actionType == event.actionType && action.resource == event.resource
      && Allowed(lib, agent, action);
    DecisionByType(lib, agent, action);
    OnlyFourTypesAllowed(lib, agent, action);
    forall other | IsFileAction(event.actionType) && ValidId(other) && other != event.agentId
      ensures !(WorkspacePath(DEFAULT_ROOT, other) <= event.resource)
      ensures ".." !in Split(event.resource, '/') ==> !Under(JoinPath(DEFAULT_ROOT, other), CleanPath(event.resource))
    {
      Isolation(lib, c.root, agent, other);
      if ".." !in Split(event.resource, '/') {
        CleanedAllowed(lib, agent, other, action);
      }
    }
  }

  /**
   * In every run under the default root that loads only the shipped rules, whatever the interleaving, crashes and
   * restarts: an allowed write begins with the agent's own workspace path, an allowed read with that or is one of the
   * public ones, no allowed file action begins with another agent's workspace path, and without `..` segments none lies
   * in another agent's directory after cleaning either.
   */
  lemma LoggedAllowsAreIsolated(lib: NetLibrary, c: Config, states: seq<Sys>, labels: seq<Label>, i: nat, n: nat)
    requires Behavior(c, states, labels) && i < |states| && c.root == DEFAULT_ROOT
    requires forall j :: 0 <= j < i ==> LoadsShipped(lib, labels[j])
    requires n < |states[i].mem.log| && states[i].mem.log[n].kind == PolicyAllow
    ensures Isolated(lib, states[i].mem.log[n])
  {
    EveryAllowIsGranted(lib, c, states, labels, i, n);
    var j :| 0 <= j <= i && GrantedIn(lib, c, states[j].mem, states[i].mem.log[n]);
    GrantedIsIsolated(lib, c, states[j].mem, states[i].mem.log[n]);
  }
}
