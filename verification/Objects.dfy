/** The records that manager and engine share by pointer. */
module Objects {
  import opened Wrappers
  import opened Records

  /** The map points to the objects at the positions in `refs`: one object per id, no object twice. */
  ghost predicate Linked<T>(agents: map<string, T>, objects: seq<T>, refs: map<string, nat>) {
    && agents.Keys == refs.Keys
    && (forall id :: id in refs ==> refs[id] < |objects| && agents[id] == objects[refs[id]])
    && (forall i, j :: 0 <= i < j < |objects| ==> objects[i] != objects[j])
    && (forall a, b :: a in refs && b in refs && a != b ==> refs[a] != refs[b])
  }

  lemma LinkedAdd<T>(agents: map<string, T>, objects: seq<T>, refs: map<string, nat>, id: string, added: T)
    requires Linked(agents, objects, refs) && added !in objects
    ensures Linked(agents[id := added], objects + [added], refs[id := |objects|])
  {
  }

  lemma LinkedRemove<T>(agents: map<string, T>, objects: seq<T>, refs: map<string, nat>, id: string)
    requires Linked(agents, objects, refs)
    ensures Linked(agents - {id}, objects, refs - {id})
  {
  }

  /** A policy.AgentRecord on the heap: embedded in a runtime agent, or handed to the engine by address. */
  class RecordCell {
    var id: string
    var profile: string
    var workspacePath: string
    var allowedBinaries: seq<string>
    var allowedNetworks: seq<string>
    var registeredAt: Time
    var lastStartedAt: Option<Time>

    constructor (record: AgentRecord)
      ensures Value() == record
    {
      id, profile, workspacePath := record.id, record.profile, record.workspacePath;
      allowedBinaries, allowedNetworks := record.allowedBinaries, record.allowedNetworks;
      registeredAt, lastStartedAt := record.registeredAt, record.lastStartedAt;
    }

    function Value(): AgentRecord
      reads this
    {
      AgentRecord(id, profile, workspacePath, allowedBinaries, allowedNetworks, registeredAt, lastStartedAt)
    }
  }

  /** The manager's runtime agent, with its record embedded; Start, Stop and Kill write its fields in place. */
  class RuntimeAgent {
    const record: RecordCell
    var execPath: string
    var state: State
    var startedAt: Option<Time>
    var stoppedAt: Option<Time>
    var exitCode: Option<int>
    var killReason: string

    /** The record is copied into a new one. */
    constructor (ra: Runtime)
      ensures Value() == ra && fresh(record)
    {
      record := new RecordCell(ra.record);
      execPath, state := ra.execPath, ra.state;
      startedAt, stoppedAt, exitCode, killReason := ra.startedAt, ra.stoppedAt, ra.exitCode, ra.killReason;
    }

    function Value(): Runtime
      reads this, record
    {
      Runtime(record.Value(), execPath, state, startedAt, stoppedAt, exitCode, killReason)
    }
  }

  /**
   * `own` says at which position of `records` each object's own record is: no two objects share one, and none is among
   * those that `given` numbers, the records handed to the engine.
   */
  ghost predicate Owning(objects: seq<RuntimeAgent>, records: seq<RecordCell>, own: seq<nat>, given: map<string, nat>) {
    && |own| == |objects|
    && (forall i :: 0 <= i < |objects| ==> own[i] < |records| && objects[i].record == records[own[i]])
    && (forall i, j :: 0 <= i < j < |own| ==> own[i] != own[j])
    && (forall i, id :: 0 <= i < |own| && id in given ==> own[i] != given[id])
  }

  lemma OwningAdd(objects: seq<RuntimeAgent>, records: seq<RecordCell>, own: seq<nat>, given: map<string, nat>,
                  ra: RuntimeAgent)
    requires Owning(objects, records, own, given) && forall id :: id in given ==> given[id] < |records|
    ensures Owning(objects + [ra], records + [ra.record], own + [|records|], given)
  {
  }

  lemma OwningGive(objects: seq<RuntimeAgent>, records: seq<RecordCell>, own: seq<nat>, given: map<string, nat>,
                   cell: RecordCell, id: string)
    requires Owning(objects, records, own, given)
    ensures Owning(objects, records + [cell], own, given[id := |records|])
  {
  }

  lemma OwningTake(objects: seq<RuntimeAgent>, records: seq<RecordCell>, own: seq<nat>, given: map<string, nat>,
                   id: string)
    requires Owning(objects, records, own, given)
    ensures Owning(objects, records, own, given - {id})
  {
  }

  lemma LinkedMore<T>(agents: map<string, T>, objects: seq<T>, refs: map<string, nat>, added: T)
    requires Linked(agents, objects, refs) && added !in objects
    ensures Linked(agents, objects + [added], refs)
  {
  }
}
