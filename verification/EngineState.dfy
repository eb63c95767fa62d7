/** The policy engine's state and its decisions, on values (daemon/internal/policy/engine.go). */
module EngineState {
  import opened Wrappers
  import opened Records

  // ----- Evaluation results -----

  /** A value in a policy result, as far as the engine looks at it. */
  datatype Value = Bool(b: bool) | Text(s: string) | List(items: seq<Value>) | OtherValue

  datatype Outcome =
    | EvalFailed
    | NoResult
    | NotAnObject
    | Object(fields: map<string, Value>)

  /** A prepared query is a pure function of its input. */
  type Query = OPAInput -> Outcome

  datatype EvalError = EvaluationFailed | UnexpectedResultType

  /** The strings of a list, in order; other items are dropped. */
  function Texts(items: seq<Value>): seq<string> {
    if items == [] then []
    else (if items[0].Text? then [items[0].s] else []) + Texts(items[1..])
  }

  function BoolField(fields: map<string, Value>, name: string): bool {
    name in fields && fields[name].Bool? && fields[name].b
  }

  /** What Evaluate makes of a result. */
  function Interpret(outcome: Outcome, profile: string): Result<PolicyDecision, EvalError> {
    match outcome
    case EvalFailed => Err(EvaluationFailed)
    case NoResult => Ok(PolicyDecision(false, ["no policy result"], false, profile))
    case NotAnObject => Err(UnexpectedResultType)
    case Object(fields) =>
      var reasons := if "reasons" in fields && fields["reasons"].List? then Texts(fields["reasons"].items) else [];
      Ok(PolicyDecision(BoolField(fields, "allow"), reasons, BoolField(fields, "audit_required"), profile))
  }

  /** The object has `true` under that very name. */
  predicate Flagged(fields: map<string, Value>, name: string) {
    name in fields && fields[name] == Bool(true)
  }

  /**
   * `answer` is what is promised for a result: an error exactly for a failed query and a result that is no object, each
   * flag exactly if it is `true` under its own name, and the strings of the list `reasons`.
   */
  predicate Reports(answer: Result<PolicyDecision, EvalError>, outcome: Outcome, profile: string) {
    && (answer == Err(EvaluationFailed) <==> outcome.EvalFailed?)
    && (answer == Err(UnexpectedResultType) <==> outcome.NotAnObject?)
    && (outcome.NoResult? ==> answer == Ok(PolicyDecision(false, ["no policy result"], false, profile)))
    && (outcome.Object? ==>
          && answer.Ok? && answer.value.profile == profile
          && (answer.value.allow <==> Flagged(outcome.fields, "allow"))
          && (answer.value.auditRequired <==> Flagged(outcome.fields, "audit_required"))
          && (if "reasons" in outcome.fields && outcome.fields["reasons"].List?
              then answer.value.reasons == Texts(outcome.fields["reasons"].items) else answer.value.reasons == []))
  }

  /** The reasons are taken item by item, in order: a string stays where it is, anything else goes. */
  lemma {:induction false} TextsInOrder(a: seq<Value>, v: Value, b: seq<Value>)
    ensures Texts([]) == []
    ensures Texts(a + [v] + b) == Texts(a) + (if v.Text? then [v.s] else []) + Texts(b)
    decreases |a|
  {
    var all := a + [v] + b;
    if a == [] {
      assert all[0] == v && all[1..] == b;
    } else {
      assert all[0] == a[0] && all[1..] == a[1..] + [v] + b;
      TextsInOrder(a[1..], v, b);
    }
  }

  const UNKNOWN_AGENT := PolicyDecision(false, ["agent not registered"], false, "none")

  function UnknownProfile(profile: string): PolicyDecision {
    PolicyDecision(false, ["unknown policy profile: " + profile], false, profile)
  }

  /** The decision taken in one instant from the registered records and the prepared queries. */
  function DecideAt(queries: map<string, Query>, records: map<string, AgentRecord>,
                    action: AgentAction): Result<PolicyDecision, EvalError> {
    if action.agentId !in records then Ok(UNKNOWN_AGENT)
    else
      var agent := records[action.agentId];
      if agent.profile !in queries then Ok(UnknownProfile(agent.profile))
      else Interpret(queries[agent.profile](OPAInput(action, agent)), agent.profile)
  }

  /** A decision says that the agent or its profile is unknown, or else what the query reports. */
  lemma DecisionReports(queries: map<string, Query>, records: map<string, AgentRecord>, action: AgentAction)
    ensures var answer := DecideAt(queries, records, action);
      if action.agentId !in records then answer == Ok(PolicyDecision(false, ["agent not registered"], false, "none"))
      else
        var agent := records[action.agentId];
        if agent.profile !in queries
        then answer == Ok(PolicyDecision(false, ["unknown policy profile: " + agent.profile], false, agent.profile))
        else Reports(answer, queries[agent.profile](OPAInput(action, agent)), agent.profile)
  {
  }

  // ----- State -----

  /**
   * `cells` numbers every agent record on the heap, the manager's as well as the engine's; `agents` holds the engine's
   * pointers. Nothing here stops a pointer from being one that the manager writes through.
   */
  datatype State = State(queries: map<string, Query>, agents: map<string, nat>, cells: seq<AgentRecord>)

  ghost predicate WellFormed(e: State) {
    forall id :: id in e.agents ==> e.agents[id] < |e.cells|
  }

  function RecordsOf(e: State): map<string, AgentRecord>
    requires WellFormed(e)
  {
    map id | id in e.agents :: e.cells[e.agents[id]]
  }

  function RegisterAgent(e: State, record: AgentRecord): State {
    e.(agents := e.agents[record.id := |e.cells|], cells := e.cells + [record])
  }

  function UnregisterAgent(e: State, id: string): State {
    e.(agents := e.agents - {id})
  }

  function Reload(e: State, queries: map<string, Query>): State {
    e.(queries := queries)
  }

  /** What Evaluate reads under the lock: the record's cell and the profile's query, but not yet the record's fields. */
  datatype Lookup =
    | Answered(decision: PolicyDecision)
    | Ready(cell: nat, query: Query, profile: string)

  function LookUp(e: State, action: AgentAction): Lookup
    requires WellFormed(e)
  {
    if action.agentId !in e.agents then Answered(UNKNOWN_AGENT)
    else
      var cell := e.agents[action.agentId];
      var profile := e.cells[cell].profile;
      if profile !in e.queries then Answered(UnknownProfile(profile))
      else Ready(cell, e.queries[profile], profile)
  }
}
