/** The daemon's shared state and the atomic changes that lock-protected sections make to it. */
module Memory {
  import opened Wrappers
  import opened Records
  import opened Identity
  import opened Registry
  import E = EngineState

  // ----- Audit events (daemon/internal/audit) -----

  datatype EventType =
    | AgentRegistered | AgentUnregistered | AgentStarted | AgentStopped | AgentKilled
    | PolicyAllow | PolicyDeny | PolicyReloaded
    | RuntimeAlert | RuntimeCritical
    | DaemonStarted | DaemonShutdown

  datatype Event = Event(kind: EventType, agentId: string, actionType: string, resource: string,
                         profile: string, reasons: seq<string>, falcoRule: string, falcoOutput: string)

  function LifecycleEvent(kind: EventType, id: string): Event {
    Event(kind, id, "", "", "", [], "", "")
  }

  function ActionEvent(action: AgentAction, decision: PolicyDecision): Event {
    Event(if decision.allow then PolicyAllow else PolicyDeny, action.agentId, action.actionType, action.resource,
          decision.profile, decision.reasons, "", "")
  }

  function AlertEvent(id: string, rule: string, output: string, critical: bool): Event {
    Event(if critical then RuntimeCritical else RuntimeAlert, id, "", "", "", [], rule, output)
  }

  // ----- State -----

  /** A RuntimeAgent on the heap: the record embedded in it is the one in `cell`. */
  datatype Object = Object(
    cell: nat,
    execPath: string,
    state: State,
    startedAt: Option<Time>,
    stoppedAt: Option<Time>,
    exitCode: Option<int>,
    killReason: string)

  /**
   * `heap` numbers every RuntimeAgent ever allocated; `agents` is the manager's map of pointers into it. All agent
   * records, those of runtime agents and those given to the engine, are cells of `eng`.
   * Objects of an earlier daemon lifetime stay in the sequences, but nothing points to them any more.
   */
  datatype Mem = Mem(agents: map<string, nat>, heap: seq<Object>, eng: E.State, disk: Disk, log: seq<Event>)

  /** Every pointer leads somewhere. */
  ghost predicate WellFormed(m: Mem) {
    && (forall id :: id in m.agents ==> m.agents[id] < |m.heap|)
    && (forall r :: 0 <= r < |m.heap| ==> m.heap[r].cell < |m.eng.cells|)
    && E.WellFormed(m.eng)
  }

  /** No runtime agent's record is `cell`. */
  ghost predicate Unowned(m: Mem, cell: nat) {
    forall r :: 0 <= r < |m.heap| ==> m.heap[r].cell != cell
  }

  /** Runtime agents share no record with one another or with the engine. */
  ghost predicate Separate(m: Mem) {
    && (forall r, q :: 0 <= r < q < |m.heap| ==> m.heap[r].cell != m.heap[q].cell)
    && (forall id :: id in m.eng.agents ==> Unowned(m, m.eng.agents[id]))
  }

  function RecordAt(m: Mem, ref: nat): AgentRecord
    requires ref < |m.heap| && m.heap[ref].cell < |m.eng.cells|
  {
    m.eng.cells[m.heap[ref].cell]
  }

  /** The fields of a runtime agent, its record included. */
  function At(m: Mem, ref: nat): Runtime
    requires ref < |m.heap| && m.heap[ref].cell < |m.eng.cells|
  {
    var o := m.heap[ref];
    Runtime(m.eng.cells[o.cell], o.execPath, o.state, o.startedAt, o.stoppedAt, o.exitCode, o.killReason)
  }

  /** The manager's agents by id. */
  ghost function Agents(m: Mem): map<string, Runtime>
    requires WellFormed(m)
  {
    map id | id in m.agents :: At(m, m.agents[id])
  }

  // ----- Changes -----

  /** The writes of Start, Stop and Kill to one RuntimeAgent. */
  datatype Change =
    | ToStarting | ToRunning(now: Time) | ToFailed
    | ToStopping | ToStopped(now: Time)
    | ToKilled(now: Time, reason: string)

  function ObjectChanged(o: Object, change: Change): Object {
    match change
    case ToStarting => o.(state := Starting)
    case ToRunning(now) => o.(state := Running, startedAt := Some(now))
    case ToFailed => o.(state := Failed)
    case ToStopping => o.(state := Stopping)
    case ToStopped(now) => o.(state := Stopped, stoppedAt := Some(now))
    case ToKilled(now, reason) => o.(state := Killed, stoppedAt := Some(now), killReason := reason)
  }

  function RecordChanged(record: AgentRecord, change: Change): AgentRecord {
    match change
    case ToRunning(now) => record.(lastStartedAt := Some(now))
    case _ => record
  }

  /** A write through a pointer: to the object and to the record embedded in it, whoever else holds that record. */
  function Written(m: Mem, ref: nat, change: Change): Mem
    requires ref < |m.heap|
  {
    var o := m.heap[ref];
    m.(heap := m.heap[ref := ObjectChanged(o, change)],
       eng := if o.cell < |m.eng.cells|
         then m.eng.(cells := m.eng.cells[o.cell := RecordChanged(m.eng.cells[o.cell], change)])
              else m.eng)
  }

  /** A new runtime agent, with a new record. */
  function Allocated(m: Mem, ra: Runtime): Mem {
    m.(heap := m.heap + [Object(|m.eng.cells|, ra.execPath, ra.state, ra.startedAt, ra.stoppedAt, ra.exitCode,
                                ra.killReason)],
       eng := m.eng.(cells := m.eng.cells + [ra.record]))
  }

  function NewRecord(root: string, id: string, profile: string, now: Time): AgentRecord {
    AgentRecord(id, profile, WorkspacePath(root, id), [], [], now, None)
  }

  function NewRuntime(record: AgentRecord, execPath: string): Runtime {
    Runtime(record, execPath, Registered, None, None, None, "")
  }

  datatype Act =
    | Insert(id: string, ra: Runtime)          // m.agents[id] = a new object
    | Delete(id: string)
    | Update(ref: nat, change: Change)         // through a held pointer
    | EngineInsert(record: AgentRecord)
    | EngineDelete(id: string)
    | SwapQueries(queries: map<string, E.Query>)
    | TruncateTmp
    | FillTmp(entries: seq<Entry>)
    | RenameTmp
    | Append(event: Event)

  function Apply(m: Mem, act: Act): Mem {
    match act
    case Insert(id, ra) => Allocated(m, ra).(agents := m.agents[id := |m.heap|])
    case Delete(id) => m.(agents := m.agents - {id})
    case Update(ref, change) => if ref < |m.heap| then Written(m, ref, change) else m
    case EngineInsert(record) => m.(eng := E.RegisterAgent(m.eng, record))
    case EngineDelete(id) => m.(eng := E.UnregisterAgent(m.eng, id))
    case SwapQueries(queries) => m.(eng := E.Reload(m.eng, queries))
    case TruncateTmp => m.(disk := m.disk.(tmp := Some(Partial)))
    case FillTmp(entries) => m.(disk := m.disk.(tmp := Some(Complete(entries))))
    case RenameTmp => m.(disk := Disk(m.disk.tmp, None))
    case Append(event) => m.(log := m.log + [event])
  }

  /** Several changes, one after the other. */
  function ApplyAll(m: Mem, acts: seq<Act>): Mem
    decreases |acts|
  {
    if acts == [] then m else ApplyAll(Apply(m, acts[0]), acts[1..])
  }

  lemma ApplyOne(m: Mem, act: Act)
    ensures ApplyAll(m, [act]) == Apply(m, act)
  {
    assert [act][1..] == [];
  }

  lemma {:induction false} ApplyAllOfConcat(m: Mem, a: seq<Act>, b: seq<Act>)
    ensures ApplyAll(m, a + b) == ApplyAll(ApplyAll(m, a), b)
    decreases |a|
  {
    if a == [] {
      assert a + b == b;
    } else {
      assert (a + b)[0] == a[0] && (a + b)[1..] == a[1..] + b;
      ApplyAllOfConcat(Apply(m, a[0]), a[1..], b);
    }
  }
}
