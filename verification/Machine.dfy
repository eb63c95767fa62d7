/**
 * The daemon as a state machine. One step is one lock-protected section, one file operation or one audit append;
 * a call that has released the manager lock keeps the pointer it captured. Crashes are allowed before any step.
 */
module Machine {
  import opened Wrappers
  import opened Records
  import opened Identity
  import opened Registry
  import opened Memory
  import E = EngineState

  datatype Config = Config(root: string, maxAgents: int)

  datatype Phase = Down | Booted | Restoring | Up

  /** The operation that saves and logs while it holds the manager lock. */
  datatype Op = Registering(id: string) | Unregistering(id: string)

  /** Who holds the manager's write lock between two steps, and what it does next. */
  datatype Hold =
    | Free
    | RestoreNext(rest: seq<Entry>)                           // the load loop
    | RestoreEngine(record: AgentRecord, rest: seq<Entry>)    // load: inserted in the manager, not yet in the engine
    | RegisterEngine(record: AgentRecord)                     // Register: likewise
    | UnregisterEngine(id: string)                          // Unregister: deleted in the manager, not in the engine
    | Saving(op: Op)                                          // about to write the temporary file
    | Filling(op: Op, entries: seq<Entry>)                    // temporary file opened and truncated
    | Renaming(op: Op)                                        // temporary file complete
    | Logging(op: Op)                                         // saved or given up saving

  /** A call in flight that holds no lock. */
  datatype Call =
    | InStart(ref: nat, id: string)                           // systemd is starting the unit
    | InStop(ref: nat, id: string)                            // systemd is stopping the unit
    | InKill(id: string, reason: string)                      // the unit was signalled
    | InEvaluate(action: AgentAction, cell: nat, query: E.Query, profile: string)
    | Answering(action: AgentAction, answer: Result<PolicyDecision, E.EvalError>)
    | Announcing(event: Event)                                // only the audit event is left

  /** History: what earlier steps did, for stating properties. No step depends on it. */
  datatype History = History(
    saved: map<string, Entry>,            // the last successful save
    synced: bool,                         // no registration or removal since
    loaded: map<string, E.Query>,         // the last successful policy load
    base: set<string>,                    // ids restored at start-up
    logBase: nat,                         // length of the log at start-up
    born: nat,                            // number of objects before this lifetime
    overtaken: map<nat, nat>,             // per object: Stop and Kill writes that hit the state `starting`
    late: map<nat, nat>)                  // per object: Start results written over a state other than `starting`

  datatype Sys = Sys(mem: Mem, phase: Phase, hold: Hold, calls: map<nat, Call>, hist: History)

  datatype Label =
    | Boot(queries: map<string, E.Query>)
    | LoadOpen(readable: bool)
    | RestoreStep
    | Register(id: string, profile: string, execPath: string, now: Time, provisioned: bool)
    | Unregister(id: string)
    | EngineStep                                              // the engine half of Register, Unregister or loading
    | SaveOpen(order: seq<string>, ok: bool)
    | SaveFill(ok: bool)
    | SaveRename(ok: bool)
    | LogOp
    | StartBegin(k: nat, id: string)
    | StartEnd(k: nat, ok: bool, now: Time)
    | StopBegin(k: nat, id: string)
    | StopEnd(k: nat, ok: bool, now: Time)
    | KillBegin(k: nat, id: string, reason: string, ok: bool)
    | KillEnd(k: nat, now: Time)
    | EvalBegin(k: nat, action: AgentAction)
    | EvalEnd(k: nat)
    | EvalAnswer(k: nat)
    | Reload(k: nat, reloaded: Option<map<string, E.Query>>)
    | Announce(k: nat)
    | Note(event: Event)                                      // alerts, daemon start and shutdown
    | Crash

  // ----- Initial state -----

  const EMPTY := Mem(map[], [], E.State(map[], map[], []), Disk(None, None), [])
  const NO_HISTORY := History(map[], true, map[], {}, 0, 0, map[], map[])
  const Init := Sys(EMPTY, Down, Free, map[], NO_HISTORY)

  const PROFILE_SET := {MINIMAL, DEVELOPER, INFRASTRUCTURE}

  // ----- Guards of the code -----

  predicate CanStart(state: State) { state != Running && state != Starting }
  predicate CanUnregister(state: State) { state != Running && state != Starting && state != Stopping }

  predicate RegisterAccepted(c: Config, m: Mem, l: Label)
    requires l.Register?
  {
    ValidId(l.id) && l.id !in m.agents && !(c.maxAgents > 0 && |m.agents| >= c.maxAgents) && l.provisioned
  }

  function OpEvent(op: Op): Event {
    match op
    case Registering(id) => LifecycleEvent(AgentRegistered, id)
    case Unregistering(id) => LifecycleEvent(AgentUnregistered, id)
  }

  // ----- When a step can be taken -----

  ghost predicate Enabled(c: Config, s: Sys, l: Label)
    requires WellFormed(s.mem)
  {
    match l
    case Boot(queries) => s.phase == Down && queries.Keys == PROFILE_SET
    case LoadOpen(readable) => s.phase == Booted
    case RestoreStep => s.phase == Restoring && s.hold.RestoreNext?
    case Register(_, _, _, _, _) => s.phase == Up && s.hold == Free
    case Unregister(id) => s.phase == Up && s.hold == Free
    case EngineStep => s.hold.RestoreEngine? || s.hold.RegisterEngine? || s.hold.UnregisterEngine?
    case SaveOpen(order, ok) => s.hold.Saving? && IsOrder(order, s.mem.agents.Keys)
    case SaveFill(ok) => s.hold.Filling?
    case SaveRename(ok) => s.hold.Renaming?
    case LogOp => s.hold.Logging?
    case StartBegin(k, id) => s.phase == Up && s.hold == Free && k !in s.calls
    case StartEnd(k, ok, now) => s.hold == Free && k in s.calls && s.calls[k].InStart?
    case StopBegin(k, id) => s.phase == Up && s.hold == Free && k !in s.calls
    case StopEnd(k, ok, now) => (ok ==> s.hold == Free) && k in s.calls && s.calls[k].InStop?
    case KillBegin(k, id, reason, ok) => s.phase == Up && k !in s.calls
    case KillEnd(k, now) => s.hold == Free && k in s.calls && s.calls[k].InKill?
    case EvalBegin(k, action) => s.phase == Up && k !in s.calls
    case EvalEnd(k) => k in s.calls && s.calls[k].InEvaluate?
    case EvalAnswer(k) => k in s.calls && s.calls[k].Answering?
    case Reload(k, reloaded) => s.phase == Up && k !in s.calls
      && (reloaded.Some? ==> reloaded.value.Keys == PROFILE_SET)
    case Announce(k) => k in s.calls && s.calls[k].Announcing?
    case Note(event) => s.phase == Up && event.kind in {RuntimeAlert, RuntimeCritical, DaemonStarted, DaemonShutdown}
    case Crash => true
  }

  // ----- What it does to shared memory -----

  /** The pointer a step writes through, and what it writes. */
  ghost function WriteOf(s: Sys, l: Label): Option<(nat, Change)>
    requires WellFormed(s.mem)
  {
    match l
    case StartBegin(k, id) =>
      if id in s.mem.agents && CanStart(s.mem.heap[s.mem.agents[id]].state) then Some((s.mem.agents[id], ToStarting))
      else None
    case StartEnd(k, ok, now) =>
      if k in s.calls && s.calls[k].InStart? then Some((s.calls[k].ref, if ok then ToRunning(now) else ToFailed))
        else None
    case StopBegin(k, id) =>
      if id in s.mem.agents then Some((s.mem.agents[id], ToStopping)) else None
    case StopEnd(k, ok, now) =>
      if k in s.calls && s.calls[k].InStop? && ok then Some((s.calls[k].ref, ToStopped(now))) else None
    case KillEnd(k, now) =>
      if k in s.calls && s.calls[k].InKill? && s.calls[k].id in s.mem.agents
      then Some((s.mem.agents[s.calls[k].id], ToKilled(now, s.calls[k].reason))) else None
    case _ => None
  }

  ghost function ActsOf(c: Config, s: Sys, l: Label): seq<Act>
    requires WellFormed(s.mem) && Enabled(c, s, l)
  {
    match l
    case Boot(queries) => [SwapQueries(queries)]
    case RestoreStep =>
      if s.hold.rest != [] && s.hold.rest[0].id !in s.mem.agents
      then [Insert(s.hold.rest[0].id, Restored(s.hold.rest[0]))] else []
    case Register(id, profile, execPath, now, _) =>
      if RegisterAccepted(c, s.mem, l) then [Insert(id, NewRuntime(NewRecord(c.root, id, profile, now), execPath))]
        else []
    case Unregister(id) =>
      if id in s.mem.agents && CanUnregister(s.mem.heap[s.mem.agents[id]].state) then [Delete(id)] else []
    case EngineStep =>
      if s.hold.UnregisterEngine? then [EngineDelete(s.hold.id)] else [EngineInsert(s.hold.record)]
    case SaveOpen(order, ok) => if ok then [TruncateTmp] else []
    case SaveFill(ok) => if ok then [FillTmp(s.hold.entries)] else []
    case SaveRename(ok) => if ok then [RenameTmp] else []
    case LogOp => [Append(OpEvent(s.hold.op))]
    case EvalAnswer(k) => if s.calls[k].answer.Ok?
      then [Append(ActionEvent(s.calls[k].action, s.calls[k].answer.value))] else []
    case Reload(k, reloaded) => if reloaded.Some? then [SwapQueries(reloaded.value)] else []
    case Announce(k) => [Append(s.calls[k].event)]
    case Note(event) => [Append(event)]
    case _ => WriteActs(WriteOf(s, l))
  }

  function WriteActs(write: Option<(nat, Change)>): seq<Act> {
    match write
    case Some((ref, change)) => [Update(ref, change)]
    case None => []
  }

  /** Losing the process: maps, queries and pointers go, files and the audit log stay. */
  function Lost(m: Mem): Mem {
    m.(agents := map[], eng := E.State(map[], map[], m.eng.cells))
  }

  // ----- Where control goes -----

  ghost function NextPhase(c: Config, s: Sys, l: Label): Phase
    requires WellFormed(s.mem) && Enabled(c, s, l)
  {
    match l
    case Boot(_) => Booted
    case LoadOpen(readable) => if LoadRegistry(s.mem.disk, readable).Ok? then Restoring else Up
    case RestoreStep => if s.hold.rest == [] then Up else Restoring
    case Crash => Down
    case _ => s.phase
  }

  ghost function NextHold(c: Config, s: Sys, l: Label): Hold
    requires WellFormed(s.mem) && Enabled(c, s, l)
  {
    match l
    case LoadOpen(readable) =>
      (match LoadRegistry(s.mem.disk, readable)
       case Ok(entries) => RestoreNext(entries)
       case Err(_) => Free)
    case RestoreStep =>
      if s.hold.rest == [] then Free
      else if s.hold.rest[0].id in s.mem.agents then RestoreNext(s.hold.rest[1..])
      else RestoreEngine(ToAgentRecord(s.hold.rest[0]), s.hold.rest[1..])
    case Register(id, profile, execPath, now, _) =>
      if RegisterAccepted(c, s.mem, l) then RegisterEngine(NewRecord(c.root, id, profile, now)) else Free
    case Unregister(id) =>
      if id in s.mem.agents && CanUnregister(s.mem.heap[s.mem.agents[id]].state) then UnregisterEngine(id) else Free
    case EngineStep =>
      (match s.hold
       case RestoreEngine(_, rest) => RestoreNext(rest)
       case RegisterEngine(record) => Saving(Registering(record.id))
       case UnregisterEngine(id) => Saving(Unregistering(id))
       case _ => Free)
    case SaveOpen(order, ok) => if ok then Filling(s.hold.op, EntriesOf(s.mem, order)) else Logging(s.hold.op)
    case SaveFill(ok) => if ok then Renaming(s.hold.op) else Logging(s.hold.op)
    case SaveRename(ok) => Logging(s.hold.op)
    case LogOp => Free
    case Crash => Free
    case _ => s.hold
  }

  ghost function EntriesOf(m: Mem, order: seq<string>): seq<Entry>
    requires WellFormed(m) && IsOrder(order, m.agents.Keys)
  {
    EntriesIn(order, Agents(m))
  }

  ghost function NextCalls(c: Config, s: Sys, l: Label): map<nat, Call>
    requires WellFormed(s.mem) && Enabled(c, s, l)
  {
    match l
    case StartBegin(k, id) => if WriteOf(s, l).Some? then s.calls[k := InStart(s.mem.agents[id], id)] else s.calls
    case StartEnd(k, ok, _) =>
      if ok then s.calls[k := Announcing(LifecycleEvent(AgentStarted, s.calls[k].id))] else s.calls - {k}
    case StopBegin(k, id) => if id in s.mem.agents then s.calls[k := InStop(s.mem.agents[id], id)] else s.calls
    case StopEnd(k, ok, _) =>
      if ok then s.calls[k := Announcing(LifecycleEvent(AgentStopped, s.calls[k].id))] else s.calls - {k}
    case KillBegin(k, id, reason, ok) => if ok then s.calls[k := InKill(id, reason)] else s.calls
    case KillEnd(k, _) => s.calls[k := Announcing(LifecycleEvent(AgentKilled, s.calls[k].id))]
    case EvalBegin(k, action) =>
      (match E.LookUp(s.mem.eng, action)
       case Answered(decision) => s.calls[k := Answering(action, Ok(decision))]
       case Ready(cell, query, profile) => s.calls[k := InEvaluate(action, cell, query, profile)])
    case EvalEnd(k) => s.calls[k := Answering(s.calls[k].action, Evaluated(s, k))]
    case EvalAnswer(k) => s.calls - {k}
    case Reload(k, reloaded) =>
      if reloaded.Some? then s.calls[k := Announcing(LifecycleEvent(PolicyReloaded, ""))] else s.calls
    case Announce(k) => s.calls - {k}
    case Crash => map[]
    case _ => s.calls
  }

  /** What an evaluation in flight computes: it dereferences the captured record only now. */
  ghost function Evaluated(s: Sys, k: nat): Result<PolicyDecision, E.EvalError>
    requires k in s.calls && s.calls[k].InEvaluate?
  {
    var call := s.calls[k];
    if call.cell < |s.mem.eng.cells|
    then E.Interpret(call.query(OPAInput(call.action, s.mem.eng.cells[call.cell])), call.profile)
    else Err(E.EvaluationFailed)
  }

  // ----- History -----

  function Count(counts: map<nat, nat>, ref: nat): nat {
    if ref in counts then counts[ref] else 0
  }

  function Bump(counts: map<nat, nat>, ref: nat): map<nat, nat> {
    counts[ref := Count(counts, ref) + 1]
  }

  ghost function NextHistory(c: Config, s: Sys, l: Label): History
    requires WellFormed(s.mem) && Enabled(c, s, l)
  {
    var h := s.hist;
    match l
    case Boot(queries) => h.(loaded := queries)
    case LoadOpen(readable) =>
      if LoadRegistry(s.mem.disk, readable).Ok? then h else h.(synced := h.saved == map[])
    case RestoreStep =>
      if s.hold.rest != [] then h.(base := h.base + {s.hold.rest[0].id}) else h.(synced := true)
    case Register(_, _, _, _, _) => if RegisterAccepted(c, s.mem, l) then h.(synced := false) else h
    case Unregister(id) =>
      if id in s.mem.agents && CanUnregister(s.mem.heap[s.mem.agents[id]].state) then h.(synced := false) else h
    case SaveRename(ok) => if ok then h.(saved := Durable(Agents(s.mem)), synced := true) else h
    case Reload(_, reloaded) => if reloaded.Some? then h.(loaded := reloaded.value) else h
    case Crash => h.(base := {}, logBase := |s.mem.log|, born := |s.mem.heap|, synced := h.saved == map[])
    case _ => HistoryOfWrite(s, WriteOf(s, l))
  }

  function HistoryOfWrite(s: Sys, write: Option<(nat, Change)>): History {
    var h := s.hist;
    match write
    case None => h
    case Some((ref, change)) =>
      var starting := ref < |s.mem.heap| && s.mem.heap[ref].state == Starting;
      if change.ToRunning? || change.ToFailed? then (if starting then h else h.(late := Bump(h.late, ref)))
      else if change.ToStarting? then h
      else (if starting then h.(overtaken := Bump(h.overtaken, ref)) else h)
  }

  // ----- Steps and behaviors -----

  ghost function Next(c: Config, s: Sys, l: Label): Sys
    requires WellFormed(s.mem) && Enabled(c, s, l)
  {
    Sys(if l.Crash? then Lost(s.mem) else ApplyAll(s.mem, ActsOf(c, s, l)),
        NextPhase(c, s, l), NextHold(c, s, l), NextCalls(c, s, l), NextHistory(c, s, l))
  }

  ghost predicate Step(c: Config, s: Sys, l: Label, s': Sys) {
    WellFormed(s.mem) && Enabled(c, s, l) && s' == Next(c, s, l)
  }

  /** `states` is a run from the initial state by the steps in `labels`. */
  ghost predicate Behavior(c: Config, states: seq<Sys>, labels: seq<Label>) {
    && |states| == |labels| + 1
    && states[0] == Init
    && forall i :: 0 <= i < |labels| ==> StepAt(c, states, labels, i)
  }

  ghost predicate StepAt(c: Config, states: seq<Sys>, labels: seq<Label>, i: nat)
    requires i < |labels| && i + 1 < |states|
  {
    Step(c, states[i], labels[i], states[i + 1])
  }
}
