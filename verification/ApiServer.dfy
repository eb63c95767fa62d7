/** The handlers with effects of their own (daemon/internal/api/server.go). */
module ApiServer {
  import opened Wrappers
  import opened Identity
  import opened FalcoIds
  import opened Records
  import opened Registry
  import opened Memory
  import opened Storage
  import opened WholeCalls
  import opened Objects
  import opened AuditLog
  import opened PolicyEngine
  import opened AgentManager
  import opened PolicyInFull
  import opened PolicyLog
  import E = EngineState
  import U = Units

  datatype AgentResponse = AgentResponse(id: string, profile: string, state: State, workspace: string)

  /** The response tells id, profile, state and workspace of the agent. */
  predicate Describes(response: AgentResponse, ra: Runtime) {
    && response.id == ra.record.id && response.profile == ra.record.profile
    && response.state == ra.state && response.workspace == ra.record.workspacePath
  }

  /** The changes of an alert, and of the kill that a critical one brings. */
  function AlertActs(m: Mem, id: string, critical: bool, rule: string, output: string, outcome: U.Outcome, now: Time)
    : seq<Act>
  {
    [Append(AlertEvent(id, rule, output, critical))]
    + (if critical && id != "" then KillActs(m, id, "falco critical: " + rule, outcome.Finished?, now) else [])
  }

  function AlertUnits(units: set<string>, id: string, critical: bool, outcome: U.Outcome): set<string> {
    if critical && id != "" then U.KillAgent(units, id, outcome).0 else units
  }

  lemma AlertInSteps(m: Mem, id: string, critical: bool, rule: string, output: string, outcome: U.Outcome, now: Time)
    ensures var alerted := Apply(m, Append(AlertEvent(id, rule, output, critical)));
      ApplyAll(m, AlertActs(m, id, critical, rule, output, outcome, now)) ==
        if critical && id != ""
        then ApplyAll(alerted, KillActs(alerted, id, "falco critical: " + rule, outcome.Finished?, now)) else alerted
  {
    var alert := Append(AlertEvent(id, rule, output, critical));
    var alerted := Apply(m, alert);
    var kill := if critical && id != "" then KillActs(m, id, "falco critical: " + rule, outcome.Finished?, now) else [];
    ApplyAllOfConcat(m, [alert], kill);
    ApplyOne(m, alert);
  }

  /** What an alert leaves: one event, or two if it kills, and at most one agent changed. */
  lemma AlertShows(m: Mem, id: string, critical: bool, rule: string, output: string, outcome: U.Outcome, now: Time)
    requires WellFormed(m) && forall a, b :: a in m.agents && b in m.agents && a != b ==> m.agents[a] != m.agents[b]
    ensures var n := ApplyAll(m, AlertActs(m, id, critical, rule, output, outcome, now));
      var kills := critical && outcome.Finished? && id != "";
      var kind := if critical then RuntimeCritical else RuntimeAlert;
      var alerted := m.log + [Event(kind, id, "", "", "", [], rule, output)];
      && WellFormed(n)
      && n.log == (if kills then alerted + [Event(AgentKilled, id, "", "", "", [], "", "")] else alerted)
      && Agents(n) == if kills && id in m.agents
         then Agents(m)[id := Agents(m)[id].(
           state := Killed, stoppedAt := Some(now), killReason := "falco critical: " + rule)]
         else Agents(m)
  {
    AlertInSteps(m, id, critical, rule, output, outcome, now);
    var alerted := Apply(m, Append(AlertEvent(id, rule, output, critical)));
    assert Agents(alerted) == Agents(m);
    KillChangesOne(alerted, id, "falco critical: " + rule, outcome.Finished?, now);
  }

  class Server {
    const manager: Manager
    const policyEng: Engine
    const auditor: Logger

    ghost predicate Valid()
      reads this, manager, manager.policyEng, manager.auditor
    {
      manager.Valid() && policyEng == manager.policyEng && auditor == manager.auditor
    }

    constructor (manager: Manager)
      requires manager.Valid()
      ensures Valid() && this.manager == manager
    {
      this.manager, this.policyEng, this.auditor := manager, manager.policyEng, manager.auditor;
    }

    /** Logs the alert, then kills the agent it names if the alert is critical. */
    method HandleFalcoWebhook(procEnvAtomic: string, priority: string, rule: string, output: string,
                              outcome: U.Outcome, now: Time, outputs: Outputs)
      requires Valid()
      modifies manager.agents.Values, manager.sandbox`units, auditor
      ensures Valid() && manager.agents == old(manager.agents)
      ensures var id, critical := Normalize(procEnvAtomic), IsCritical(priority);
        && manager.sandbox.units == AlertUnits(old(manager.sandbox.units), id, critical, outcome)
        && manager.Snapshot() == ApplyAll(old(manager.Snapshot()),
                                          AlertActs(old(manager.Snapshot()), id, critical, rule, output, outcome, now))
      ensures var id, kills := Normalize(procEnvAtomic), IsCritical(priority) && outcome.Finished?;
        var kind := if IsCritical(priority) then RuntimeCritical else RuntimeAlert;
        var alerted := old(auditor.events) + [Event(kind, id, "", "", "", [], rule, output)];
        && auditor.events == (if kills && id != ""
             then alerted + [Event(AgentKilled, id, "", "", "", [], "", "")] else alerted)
        && ValuesOf(manager.agents) == if kills && id != "" && id in old(manager.agents)
           then old(ValuesOf(manager.agents))[id := old(ValuesOf(manager.agents))[id].(
             state := Killed, stoppedAt := Some(now), killReason := "falco critical: " + rule)]
           else old(ValuesOf(manager.agents))
      ensures !IsCritical(priority) ==> manager.sandbox.units == old(manager.sandbox.units)
      ensures IsCritical(priority) && outcome.Finished? && !outcome.active ==>
        forall id :: ValidId(id) && Renders(procEnvAtomic, id) ==>
          manager.sandbox.units == old(manager.sandbox.units) - {SystemdUnitName(id)}
      ensures forall id :: ValidId(id) && !Renders(procEnvAtomic, id) ==>
        (SystemdUnitName(id) in manager.sandbox.units <==> SystemdUnitName(id) in old(manager.sandbox.units))
    {
      ghost var m := manager.Snapshot();
      manager.ValuesAreAgents();
      UpperFindsCritical(priority);
      AlertHitsRenderedAgent(manager.sandbox.units, procEnvAtomic, outcome);
      var id := Normalize(procEnvAtomic);
      var critical := Upper(priority) == "CRITICAL";
      React(id, critical, rule, output, outcome, now, outputs);
      AlertShows(m, id, critical, rule, output, outcome, now);
      manager.ValuesAreAgents();
    }

    method React(id: string, critical: bool, rule: string, output: string, outcome: U.Outcome, now: Time,
                 outputs: Outputs)
      requires Valid()
      modifies manager.agents.Values, manager.sandbox`units, auditor
      ensures Valid() && manager.agents == old(manager.agents)
      ensures manager.sandbox.units == AlertUnits(old(manager.sandbox.units), id, critical, outcome)
      ensures manager.Snapshot()
           == ApplyAll(old(manager.Snapshot()),
                       AlertActs(old(manager.Snapshot()), id, critical, rule, output, outcome, now))
    {
      ghost var m := manager.Snapshot();
      Alert(id, rule, output, critical, outputs);
      AlertInSteps(m, id, critical, rule, output, outcome, now);
      if critical && id != "" {
        var ok := manager.Kill(id, "falco critical: " + rule, outcome, now, outputs);
      }
    }

    method Alert(id: string, rule: string, output: string, critical: bool, outputs: Outputs)
      requires Valid()
      modifies auditor
      ensures Valid() && manager.agents == old(manager.agents) && manager.sandbox.units == old(manager.sandbox.units)
      ensures auditor.events == old(auditor.events)
        + [Event(if critical then RuntimeCritical else RuntimeAlert, id, "", "", "", [], rule, output)]
      ensures manager.Snapshot() == Apply(old(manager.Snapshot()), Append(AlertEvent(id, rule, output, critical)))
    {
      ghost var m := manager.Snapshot();
      auditor.LogRuntimeAlert(id, rule, output, critical, outputs);
      assert manager.Heap() == m.heap;
    }

    /** The agent is registered, and its profile loaded. */
    ghost predicate AnsweredFor(action: AgentAction)
      reads policyEng, policyEng.agents.Values
    {
      action.agentId in policyEng.agents && policyEng.agents[action.agentId].profile in policyEng.queries
    }

    /** Decides and logs; an evaluation error is answered but not logged. */
    method HandleEvaluatePolicy(action: AgentAction, outputs: Outputs)
      returns (answer: Result<PolicyDecision, E.EvalError>)
      requires Valid()
      modifies auditor
      ensures Valid()
      ensures answer == E.DecideAt(policyEng.queries, old(policyEng.Records()), action)
      ensures answer.Ok? ==>
        var kind := if answer.value.allow then PolicyAllow else PolicyDeny;
        auditor.events == old(auditor.events) + [Event(kind, action.agentId, action.actionType, action.resource,
                                                       answer.value.profile, answer.value.reasons, "", "")]
      ensures answer.Err? ==> auditor.events == old(auditor.events)
      ensures forall lib :: AllShipped(lib, policyEng.queries) && AnsweredFor(action) ==>
        var agent := policyEng.agents[action.agentId].Value();
        answer == Ok(PolicyDecision(
          MayDo(lib, agent.profile, agent.workspacePath, action.actionType, action.resource), [],
          MustAudit(agent.profile, action.actionType), agent.profile))
    {
      answer := policyEng.Evaluate(action);
      forall lib | AllShipped(lib, policyEng.queries) && AnsweredFor(action)
        ensures var agent := policyEng.agents[action.agentId].Value();
          answer == Ok(PolicyDecision(
            MayDo(lib, agent.profile, agent.workspacePath, action.actionType, action.resource), [],
            MustAudit(agent.profile, action.actionType), agent.profile))
      {
        ShippedDecision(lib, policyEng.queries, policyEng.Records(), action);
      }
      match answer
      case Err(_) =>
      case Ok(decision) =>
        var verdict := if decision.allow then "allow" else "deny";
        auditor.LogAgentAction(action.agentId, action.actionType, action.resource, decision.profile, verdict,
                               decision.reasons, outputs);
    }

    /** Swaps the policies if all of them load, and logs only then. */
    method HandleReloadPolicy(fs: map<string, PolicyDir>, compile: Compiler, outputs: Outputs) returns (ok: bool)
      requires Valid()
      modifies policyEng`queries, auditor
      ensures Valid()
      ensures ok <==> Loadable(DirsIn(fs, policyEng.dirs), PROFILES, compile)
      ensures policyEng.queries == if ok then Loaded(DirsIn(fs, policyEng.dirs), PROFILES, compile)
        else old(policyEng.queries)
      ensures ok ==> policyEng.queries.Keys == {"minimal", "developer", "infrastructure"}
      ensures auditor.events == old(auditor.events) + (if ok then [LifecycleEvent(PolicyReloaded, "")] else [])
    {
      ok := policyEng.Reload(PROFILES, fs, compile);
      if ok {
        ThreeProfiles(DirsIn(fs, policyEng.dirs), compile);
        auditor.Log(LifecycleEvent(PolicyReloaded, ""), outputs);
      }
    }

    /** One response per registered agent. */
    method HandleListAgents() returns (responses: seq<AgentResponse>, ghost values: seq<Runtime>)
      requires Valid()
      ensures Enumerates(values, ValuesOf(manager.agents))
      ensures |responses| == |values| && forall i :: 0 <= i < |values| ==> Describes(responses[i], values[i])
    {
      var copies;
      copies, values := manager.ListAgents();
      responses := ToResponses(copies);
    }

    static method ToResponses(copies: seq<RuntimeAgent>) returns (responses: seq<AgentResponse>)
      ensures |responses| == |copies|
      ensures forall i :: 0 <= i < |copies| ==> Describes(responses[i], copies[i].Value())
    {
      responses := [];
      for i := 0 to |copies|
        invariant |responses| == i && forall j :: 0 <= j < i ==> Describes(responses[j], copies[j].Value())
      {
        var a := copies[i];
        responses := responses + [AgentResponse(a.record.id, a.record.profile, a.state, a.record.workspacePath)];
      }
    }
  }

  /**
   * A kill by a normalised text ends the unit of the valid id it renders and leaves every other valid id's unit alone.
   */
  lemma AlertHitsRenderedAgent(units: set<string>, text: string, outcome: U.Outcome)
    ensures forall id :: ValidId(id) && Renders(text, id) ==> Normalize(text) == id && id != ""
    ensures var (after, ok) := U.KillAgent(units, Normalize(text), outcome);
      && (outcome.Finished? && !outcome.active ==> after == units - {SystemdUnitName(Normalize(text))})
      && forall id :: ValidId(id) && !Renders(text, id) ==>
           (SystemdUnitName(id) in after <==> SystemdUnitName(id) in units)
  {
    forall id | ValidId(id)
      ensures Renders(text, id) ==> Normalize(text) == id && id != ""
      ensures !Renders(text, id) ==> SystemdUnitName(id) != SystemdUnitName(Normalize(text))
    {
      NormalizeFindsTheAgent(text, id);
      if SystemdUnitName(id) == SystemdUnitName(Normalize(text)) {
        UnitNameInjective(id, Normalize(text));
      }
    }
  }
}
