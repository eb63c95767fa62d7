/** The agent manager (daemon/internal/agent/lifecycle.go) with its heap objects. */
module AgentManager {
  import opened Wrappers
  import opened Identity
  import opened Paths
  import opened Records
  import opened Registry
  import opened Memory
  import opened Machine
  import opened Objects
  import opened Storage
  import opened WholeCalls
  import opened AuditLog
  import opened PolicyEngine
  import opened Sandbox
  import E = EngineState
  import U = Units

  /** A runtime agent's own fields; its record is the one at position `cell`. */
  ghost function ObjectOf(ra: RuntimeAgent, cell: nat): Object
    reads ra
  {
    Object(cell, ra.execPath, ra.state, ra.startedAt, ra.stoppedAt, ra.exitCode, ra.killReason)
  }

  class Manager {
    const cfg: Config
    const sandbox: SandboxManager
    const policyEng: Engine
    const auditor: Logger
    const files: Files
    var agents: map<string, RuntimeAgent>
    ghost var created: seq<RuntimeAgent>      // every agent object ever allocated
    ghost var refs: map<string, nat>          // positions of the registered ones
    ghost var records: seq<RecordCell>        // every agent record ever allocated
    ghost var own: seq<nat>                   // positions of the records embedded in the objects
    ghost var given: map<string, nat>         // positions of the records the engine holds

    ghost predicate Valid()
      reads this, policyEng, auditor
    {
      && auditor.Valid()
      && sandbox.files == files && sandbox.workspaceRoot == cfg.root
      && Linked(agents, created, refs)
      && Linked(policyEng.agents, records, given)
      && Owning(created, records, own, given)
    }

    /** The manager writes no record that the engine can see. */
    lemma EngineRecordsAreCopies()
      requires Valid()
      ensures forall ra, id :: ra in created && id in policyEng.agents ==> ra.record != policyEng.agents[id]
    {
    }

    ghost function Heap(): (heap: seq<Object>)
      reads this, created
      requires |own| == |created|
      ensures |heap| == |created|
      ensures forall i :: 0 <= i < |created| ==> heap[i] == ObjectOf(created[i], own[i])
    {
      seq(|created|, i requires 0 <= i < |created| && |own| == |created| reads this, created =>
        ObjectOf(created[i], own[i]))
    }

    ghost function RecordValues(): (values: seq<AgentRecord>)
      reads this, records
      ensures |values| == |records| && forall i :: 0 <= i < |records| ==> values[i] == records[i].Value()
    {
      seq(|records|, i requires 0 <= i < |records| reads this, records => records[i].Value())
    }

    /** The daemon's shared state as a value. */
    ghost function Snapshot(): (m: Mem)
      reads this, created, records, policyEng, auditor, files
      requires Valid()
      ensures WellFormed(m)
    {
      Mem(refs, Heap(), E.State(policyEng.queries, given, RecordValues()), files.disk, auditor.events)
    }

    lemma SnapshotIsSeparate()
      requires Valid()
      ensures Separate(Snapshot())
    {
    }

    constructor (cfg: Config, sandbox: SandboxManager, policyEng: Engine, auditor: Logger, files: Files)
      requires policyEng.agents == map[] && auditor.Valid() && sandbox.files == files
      requires sandbox.workspaceRoot == cfg.root
      ensures Valid() && agents == map[] && created == []
      ensures this.cfg == cfg && this.sandbox == sandbox && this.policyEng == policyEng
      ensures this.auditor == auditor && this.files == files
      ensures Snapshot() == Mem(map[], [], E.State(policyEng.queries, map[], []), files.disk, auditor.events)
    {
      this.cfg, this.sandbox, this.policyEng, this.auditor, this.files := cfg, sandbox, policyEng, auditor, files;
      agents := map[];
      created, refs, records, own, given := [], map[], [], [], map[];
    }

    /** The manager's agents and the log, read off the snapshot. */
    lemma ShowsInSnapshot()
      requires Valid()
      ensures Snapshot().agents == refs && Snapshot().log == auditor.events
      ensures forall id :: id in agents ==> agents[id].Value() == At(Snapshot(), refs[id])
      ensures forall id :: id in policyEng.agents ==>
        id in Snapshot().eng.agents && policyEng.agents[id].Value() == Snapshot().eng.cells[Snapshot().eng.agents[id]]
    {
    }

    // ----- Frames -----

    /** One object and its own record changed since snapshot `m`, and nothing else that a snapshot shows. */
    lemma OneWritten(m: Mem, ref: nat, change: Change)
      requires Valid() && ref < |created| && |m.heap| == |created| && |m.eng.cells| == |records|
      requires refs == m.agents && given == m.eng.agents && policyEng.queries == m.eng.queries
      requires files.disk == m.disk && auditor.events == m.log
      requires m.heap[ref].cell == own[ref] && ObjectOf(created[ref], own[ref]) == ObjectChanged(m.heap[ref], change)
      requires forall i :: 0 <= i < |created| && i != ref ==> ObjectOf(created[i], own[i]) == m.heap[i]
      requires records[own[ref]].Value() == RecordChanged(m.eng.cells[own[ref]], change)
      requires forall i :: 0 <= i < |records| && i != own[ref] ==> records[i].Value() == m.eng.cells[i]
      ensures Snapshot() == Apply(m, Update(ref, change))
    {
      assert Heap() == m.heap[ref := ObjectChanged(m.heap[ref], change)];
      assert RecordValues() == m.eng.cells[own[ref] := RecordChanged(m.eng.cells[own[ref]], change)];
    }

    method LogLifecycle(id: string, kind: EventType, outputs: Outputs)
      requires Valid()
      modifies auditor
      ensures Valid() && agents == old(agents) && created == old(created) && refs == old(refs)
      ensures sandbox.units == old(sandbox.units)
      ensures auditor.events == old(auditor.events) + [Event(kind, id, "", "", "", [], "", "")]
      ensures Snapshot() == Apply(old(Snapshot()), Append(LifecycleEvent(kind, id)))
    {
      auditor.LogAgentLifecycle(id, kind, outputs);
    }

    // ----- Changes to the map, under the lock -----

    /** Puts a new object into the map; the record is copied into it. */
    method AddAgent(record: AgentRecord, execPath: string) returns (ra: RuntimeAgent)
      requires Valid()
      modifies this`agents, this`created, this`refs, this`records, this`own
      ensures Valid() && fresh(ra) && fresh(ra.record)
      ensures agents == old(agents)[record.id := ra] && created == old(created) + [ra] && given == old(given)
      ensures records == old(records) + [ra.record]
      ensures Snapshot() == Apply(old(Snapshot()), Act.Insert(record.id, NewRuntime(record, execPath)))
    {
      ghost var m := Snapshot();
      ra := new RuntimeAgent(Runtime(record, execPath, Registered, None, None, None, ""));
      LinkedAdd(agents, created, refs, record.id, ra);
      LinkedMore(policyEng.agents, records, given, ra.record);
      OwningAdd(created, records, own, given, ra);
      agents := agents[record.id := ra];
      refs := refs[record.id := |created|];
      own := own + [|records|];
      records := records + [ra.record];
      created := created + [ra];
      assert Heap() == m.heap + [ObjectOf(ra, |m.eng.cells|)];
      assert RecordValues() == m.eng.cells + [record];
    }

    method RemoveAgent(id: string)
      requires Valid()
      modifies this`agents, this`refs
      ensures Valid() && agents == old(agents) - {id} && created == old(created)
      ensures Snapshot() == Apply(old(Snapshot()), Delete(id))
    {
      ghost var m := Snapshot();
      LinkedRemove(agents, created, refs, id);
      agents := agents - {id};
      refs := refs - {id};
      assert Heap() == m.heap && RecordValues() == m.eng.cells;
    }

    /** Gives the engine the address of a record that no runtime agent embeds. */
    method TellEngine(cell: RecordCell)
      requires Valid() && cell !in records
      modifies policyEng`agents, this`records, this`given
      ensures Valid() && agents == old(agents) && created == old(created) && refs == old(refs)
      ensures records == old(records) + [cell] && policyEng.agents == old(policyEng.agents)[cell.id := cell]
      ensures Snapshot() == Apply(old(Snapshot()), EngineInsert(cell.Value()))
    {
      ghost var m := Snapshot();
      LinkedAdd(policyEng.agents, records, given, cell.id, cell);
      OwningGive(created, records, own, given, cell, cell.id);
      policyEng.RegisterAgent(cell);
      given := given[cell.id := |records|];
      records := records + [cell];
      assert Heap() == m.heap && RecordValues() == m.eng.cells + [cell.Value()];
    }

    method TellEngineGone(id: string)
      requires Valid()
      modifies policyEng`agents, this`given
      ensures Valid() && agents == old(agents) && created == old(created) && refs == old(refs)
      ensures policyEng.agents == old(policyEng.agents) - {id}
      ensures Snapshot() == Apply(old(Snapshot()), EngineDelete(id))
    {
      ghost var m := Snapshot();
      LinkedRemove(policyEng.agents, records, given, id);
      OwningTake(created, records, own, given, id);
      policyEng.UnregisterAgent(id);
      given := given - {id};
      assert Heap() == m.heap && RecordValues() == m.eng.cells;
    }

    lemma ValuesAreAgents()
      requires Valid()
      ensures ValuesOf(agents) == Agents(Snapshot())
      ensures forall a, b :: a in refs && b in refs && a != b ==> Snapshot().agents[a] != Snapshot().agents[b]
    {
    }

    method Persist(outcome: SaveOutcome) returns (ok: bool, ghost order: seq<string>)
      requires Valid()
      modifies files`disk
      ensures Valid() && agents == old(agents) && created == old(created) && refs == old(refs)
      ensures IsOrder(order, refs.Keys)
      ensures Snapshot() == ApplyAll(old(Snapshot()), SaveActs(EntriesOf(old(Snapshot()), order), outcome))
    {
      ghost var m := Snapshot();
      ValuesAreAgents();
      ok, order := SaveRegistry(files, agents, outcome);
      assert Heap() == m.heap && RecordValues() == m.eng.cells;
      ApplySave(m, EntriesOf(m, order), outcome);
    }

    /** The file operations of provisioning touch only the tree. */
    method Provision(id: string, env: Provisioning) returns (path: Option<string>)
      requires Valid()
      modifies files`tree
      ensures Valid() && agents == old(agents)
      ensures (files.tree, path) == Paths.ProvisionWorkspace(old(files.tree), cfg.root, id, env)
      ensures Snapshot() == old(Snapshot())
    {
      ghost var m := Snapshot();
      path := sandbox.ProvisionWorkspace(id, env);
      assert Heap() == m.heap && RecordValues() == m.eng.cells;
    }

    // ----- Register, Unregister, load -----

    /**
     * Adds an agent without starting it. On a refusal only the file tree can have changed, by a provisioning that
     * failed.
     */
    method Register(id: string, profile: string, execPath: string, now: Time, env: Provisioning, outcome: SaveOutcome,
                    outputs: Outputs)
      returns (r: Result<RuntimeAgent, RegisterError>, ghost order: seq<string>)
      requires Valid()
      modifies this`agents, this`created, this`refs, this`records, this`own, this`given
      modifies policyEng`agents, files, auditor
      ensures Valid()
      ensures var full, complete := 0 < cfg.maxAgents <= |old(agents)|, env == Provisioning(true, true, true);
        && ((r.Err? && r.error.InvalidId?) <==> !ValidId(id))
        && (r == Err(AlreadyRegistered) <==> ValidId(id) && id in old(agents))
        && (r == Err(TooMany) <==> ValidId(id) && id !in old(agents) && full)
        && (r == Err(NotProvisioned) <==> ValidId(id) && id !in old(agents) && !full && !complete)
        && (r.Ok? <==> ValidId(id) && id !in old(agents) && !full && complete)
      ensures files.tree == if ValidId(id) && id !in old(agents) && !(0 < cfg.maxAgents <= |old(agents)|)
        then Paths.ProvisionWorkspace(old(files.tree), cfg.root, id, env).0 else old(files.tree)
      ensures r.Err? ==> agents == old(agents) && Snapshot() == old(Snapshot())
      ensures r.Ok? ==>
        var record := AgentRecord(id, profile, cfg.root + "/" + id + "/workspace", [], [], now, None);
        && fresh(r.value) && agents == old(agents)[id := r.value]
        && r.value.Value() == Runtime(record, execPath, Registered, None, None, None, "")
        && EngineHas(id, record, old(policyEng.agents))
        && auditor.events == old(auditor.events) + [Event(AgentRegistered, id, "", "", "", [], "", "")]
        && (outcome.Saved? ==> EntryIn(Entry(id, profile, record.workspacePath, execPath, [], [], now), files.disk))
        && EnteredFrom(old(Snapshot()), record, execPath, order, outcome)
      ensures !Provisions(cfg, old(Snapshot()), id) ==> r == Err(Refusal(cfg, old(Snapshot()), id, true).value)
    {
      order := [];
      var why := Check(id);
      if why.Some? {
        return Err(why.value), [];
      }
      var added;
      added, order := ProvisionAndEnter(id, profile, execPath, now, env, outcome, outputs);
      if added.Some? {
        r := Ok(added.value);
      } else {
        r := Err(NotProvisioned);
      }
    }

    /** The snapshot is what the changes of an accepted Register make of `m`. */
    ghost predicate EnteredFrom(m: Mem, record: AgentRecord, execPath: string, order: seq<string>, outcome: SaveOutcome)
      reads this, created, records, policyEng, auditor, files
      requires Valid() && WellFormed(m)
    {
      && IsOrder(order, Entered(m, record, execPath).agents.Keys)
      && Snapshot()
         == ApplyAll(m, RegisterActs(record, execPath, EntriesOf(Entered(m, record, execPath), order), outcome))
    }

    /** The engine's map is what it was before with one pointer added, to the given record. */
    ghost predicate EngineHas(id: string, record: AgentRecord, before: map<string, RecordCell>)
      reads policyEng, policyEng.agents.Values
    {
      && id in policyEng.agents && policyEng.agents == before[id := policyEng.agents[id]]
      && policyEng.agents[id].Value() == record
    }

    /** What Register checks before it provisions. */
    method Check(id: string) returns (why: Option<RegisterError>)
      requires Valid()
      ensures why == Refusal(cfg, Snapshot(), id, true)
      ensures var full := 0 < cfg.maxAgents <= |agents|;
        && ((why.Some? && why.value.InvalidId?) <==> !ValidId(id))
        && (why == Some(AlreadyRegistered) <==> ValidId(id) && id in agents)
        && (why == Some(TooMany) <==> ValidId(id) && id !in agents && full)
        && (why == None <==> ValidId(id) && id !in agents && !full)
        && why != Some(NotProvisioned)
    {
      ValidateIDDecides(id);
      var check := ValidateID(id);
      if check.Err? {
        return Some(InvalidId(check.error));
      }
      if id in agents {
        return Some(AlreadyRegistered);
      }
      assert |agents| == |agents.Keys| && |refs| == |refs.Keys|;
      if cfg.maxAgents > 0 && |agents| >= cfg.maxAgents {
        return Some(TooMany);
      }
      why := None;
    }

    /** Register once nothing speaks against it. */
    method ProvisionAndEnter(id: string, profile: string, execPath: string, now: Time, env: Provisioning,
                             outcome: SaveOutcome, outputs: Outputs)
      returns (added: Option<RuntimeAgent>, ghost order: seq<string>)
      requires Valid()
      modifies this`agents, this`created, this`refs, this`records, this`own, this`given
      modifies policyEng`agents, files, auditor
      ensures Valid()
      ensures added.Some? <==> env == Provisioning(true, true, true)
      ensures files.tree == Paths.ProvisionWorkspace(old(files.tree), cfg.root, id, env).0
      ensures added.None? ==> agents == old(agents) && Snapshot() == old(Snapshot())
      ensures added.Some? ==>
        var record := AgentRecord(id, profile, cfg.root + "/" + id + "/workspace", [], [], now, None);
        && fresh(added.value) && agents == old(agents)[id := added.value]
        && added.value.Value() == Runtime(record, execPath, Registered, None, None, None, "")
        && EngineHas(id, record, old(policyEng.agents))
        && auditor.events == old(auditor.events) + [Event(AgentRegistered, id, "", "", "", [], "", "")]
        && (outcome.Saved? ==> EntryIn(Entry(id, profile, record.workspacePath, execPath, [], [], now), files.disk))
        && EnteredFrom(old(Snapshot()), record, execPath, order, outcome)
    {
      var path := Provision(id, env);
      if path.None? {
        return None, [];
      }
      var record := AgentRecord(id, profile, path.value, [], [], now, None);
      var ra;
      ra, order := Enter(record, execPath, outcome, outputs);
      added := Some(ra);
    }

    /** The part of Register that changes shared state: the engine gets the address of a record of its own. */
    method Enter(record: AgentRecord, execPath: string, outcome: SaveOutcome, outputs: Outputs)
      returns (ra: RuntimeAgent, ghost order: seq<string>)
      requires Valid()
      modifies this`agents, this`created, this`refs, this`records, this`own, this`given
      modifies policyEng`agents, files`disk, auditor
      ensures Valid() && fresh(ra) && agents == old(agents)[record.id := ra]
      ensures ra.Value() == Runtime(record, execPath, Registered, None, None, None, "")
      ensures EngineHas(record.id, record, old(policyEng.agents))
      ensures auditor.events == old(auditor.events) + [Event(AgentRegistered, record.id, "", "", "", [], "", "")]
      ensures outcome.Saved? ==> EntryIn(Entry(record.id, record.profile, record.workspacePath, execPath,
        record.allowedBinaries, record.allowedNetworks, record.registeredAt), files.disk)
      ensures EnteredFrom(old(Snapshot()), record, execPath, order, outcome)
    {
      ghost var m := Snapshot();
      ShowsInSnapshot();
      ra := Insert(record, execPath);
      ghost var known := policyEng.agents;
      var ok;
      ok, order := Persist(outcome);
      LogLifecycle(record.id, AgentRegistered, outputs);
      ApplySaved(m, Act.Insert(record.id, NewRuntime(record, execPath)), EngineInsert(record),
                 EntriesOf(Entered(m, record, execPath), order), outcome, LifecycleEvent(AgentRegistered, record.id));
      assert policyEng.agents == known;
      RegisterShows(m, record, execPath, order, outcome);
      ShowsInSnapshot();
      assert refs[record.id] == |m.heap| && agents[record.id] == ra;
    }

    /** Into the manager by value, into the engine by address of another copy. */
    method Insert(record: AgentRecord, execPath: string) returns (ra: RuntimeAgent)
      requires Valid()
      modifies this`agents, this`created, this`refs, this`records, this`own, this`given, policyEng`agents
      ensures Valid() && fresh(ra) && agents == old(agents)[record.id := ra]
      ensures record.id in policyEng.agents
      ensures policyEng.agents == old(policyEng.agents)[record.id := policyEng.agents[record.id]]
      ensures Snapshot() == Entered(old(Snapshot()), record, execPath)
    {
      var cell := new RecordCell(record);
      ra := AddAgent(record, execPath);
      TellEngine(cell);
    }

    /**
     * Removes an agent that is not running, starting or stopping; a purge deletes the parent of its recorded workspace.
     */
    method Unregister(id: string, purge: bool, outcome: SaveOutcome, outputs: Outputs)
      returns (ok: bool, ghost order: seq<string>)
      requires Valid()
      modifies this`agents, this`refs, this`given, policyEng`agents, files, auditor
      ensures Valid()
      ensures ok <==> Removable(old(Snapshot()), id)
      ensures ok <==> old(id in agents && agents[id].state in {Registered, Stopped, Killed, Failed})
      ensures !ok ==> agents == old(agents) && Snapshot() == old(Snapshot()) && files.tree == old(files.tree)
      ensures ok ==>
        && agents == old(agents) - {id} && policyEng.agents == old(policyEng.agents) - {id}
        && auditor.events == old(auditor.events) + [Event(AgentUnregistered, id, "", "", "", [], "", "")]
        && files.tree == (if purge then Purge(old(files.tree), old(agents[id].record.workspacePath))
                          else old(files.tree))
        && LeftFrom(old(Snapshot()), id, order, outcome)
    {
      order := [];
      if id !in agents {
        return false, [];
      }
      var ra := agents[id];
      if ra.state == Running || ra.state == Starting || ra.state == Stopping {
        return false, [];
      }
      order := Remove(id, ra.record.workspacePath, purge, outcome, outputs);
      ok := true;
    }

    /** The snapshot is what the changes of an accepted Unregister make of `m`. */
    ghost predicate LeftFrom(m: Mem, id: string, order: seq<string>, outcome: SaveOutcome)
      reads this, created, records, policyEng, auditor, files
      requires Valid() && WellFormed(m)
    {
      && IsOrder(order, Left(m, id).agents.Keys)
      && Snapshot() == ApplyAll(m, UnregisterActs(id, EntriesOf(Left(m, id), order), outcome))
    }

    /** Unregister once the state of the agent permits it. */
    method Remove(id: string, workspacePath: string, purge: bool, outcome: SaveOutcome, outputs: Outputs)
      returns (ghost order: seq<string>)
      requires Valid()
      modifies this`agents, this`refs, this`given, policyEng`agents, files, auditor
      ensures Valid()
      ensures agents == old(agents) - {id} && policyEng.agents == old(policyEng.agents) - {id}
      ensures auditor.events == old(auditor.events) + [Event(AgentUnregistered, id, "", "", "", [], "", "")]
      ensures files.tree == if purge then Purge(old(files.tree), workspacePath) else old(files.tree)
      ensures LeftFrom(old(Snapshot()), id, order, outcome)
    {
      ghost var m := Snapshot();
      ShowsInSnapshot();
      order := Leave(id, outcome);
      Conclude(id, workspacePath, purge, outputs);
      ApplyAllOneMore(m, LeaveActs(id, EntriesOf(Left(m, id), order), outcome),
                      Append(LifecycleEvent(AgentUnregistered, id)));
      UnregisterShows(m, id, EntriesOf(Left(m, id), order), outcome);
      ShowsInSnapshot();
    }

    /** The end of Unregister: the purge of the parent of the workspace, and the audit event. */
    method Conclude(id: string, workspacePath: string, purge: bool, outputs: Outputs)
      requires Valid()
      modifies files`tree, auditor
      ensures Valid() && agents == old(agents) && created == old(created)
      ensures files.tree == if purge then Purge(old(files.tree), workspacePath) else old(files.tree)
      ensures Snapshot() == Apply(old(Snapshot()), Append(LifecycleEvent(AgentUnregistered, id)))
    {
      ghost var m := Snapshot();
      if purge {
        files.tree := RemoveAll(files.tree, Dir(workspacePath));
      }
      assert Heap() == m.heap && RecordValues() == m.eng.cells;
      LogLifecycle(id, AgentUnregistered, outputs);
    }

    /** The part of Unregister before a purge: manager, engine, registry file. */
    method Leave(id: string, outcome: SaveOutcome) returns (ghost order: seq<string>)
      requires Valid()
      modifies this`agents, this`refs, this`given, policyEng`agents, files`disk
      ensures Valid() && agents == old(agents) - {id} && created == old(created) && files.tree == old(files.tree)
      ensures policyEng.agents == old(policyEng.agents) - {id}
      ensures IsOrder(order, Left(old(Snapshot()), id).agents.Keys)
      ensures Snapshot() == ApplyAll(old(Snapshot()),
                                     LeaveActs(id, EntriesOf(Left(old(Snapshot()), id), order), outcome))
    {
      ghost var m := Snapshot();
      RemoveAgent(id);
      TellEngineGone(id);
      var saved;
      saved, order := Persist(outcome);
      ApplyAllOfConcat(m, [Delete(id), EngineDelete(id)], SaveActs(EntriesOf(Left(m, id), order), outcome));
      ApplyTwo(m, Delete(id), EngineDelete(id));
    }

    /** Restores what the registry file lists, skipping ids already present; an unreadable file restores nothing. */
    method LoadPersistedAgents(readable: bool) returns (ok: bool)
      requires Valid()
      modifies this`agents, this`created, this`refs, this`records, this`own, this`given, policyEng`agents
      ensures Valid()
      ensures var entries := LoadRegistry(files.disk, readable);
        && (ok <==> entries.Ok?)
        && Snapshot() == ApplyAll(old(Snapshot()), if ok then RestoreActs(old(Snapshot()).agents.Keys, entries.value)
           else [])
      ensures ok ==>
        && ValuesOf(agents) == LoadAll(old(ValuesOf(agents)), LoadRegistry(files.disk, readable).value)
        && auditor.events == old(auditor.events)
        && forall id :: id in agents ==>
             id in old(agents) || (id in policyEng.agents && policyEng.agents[id].Value() == agents[id].record.Value())
    {
      ghost var m := Snapshot();
      ValuesAreAgents();
      var loaded := LoadRegistry(files.disk, readable);
      if loaded.Err? {
        return false;
      }
      var entries := loaded.value;
      for i := 0 to |entries|
        invariant Valid()
        invariant ApplyAll(Snapshot(), RestoreActs(Snapshot().agents.Keys, entries[i..]))
          == ApplyAll(m, RestoreActs(m.agents.Keys, entries))
      {
        ghost var before := Snapshot();
        RestoreInSteps(before, entries[i..]);
        assert entries[i..][1..] == entries[i + 1..];
        if entries[i].id !in agents {
          RestoreAgent(entries[i]);
        }
      }
      ok := true;
      RestoreShows(m, entries);
      RestoreTellsEngine(m, entries);
      ValuesAreAgents();
      ShowsInSnapshot();
    }

    method RestoreAgent(e: Entry)
      requires Valid()
      modifies this`agents, this`created, this`refs, this`records, this`own, this`given, policyEng`agents
      ensures Valid()
      ensures Snapshot() == Apply(Apply(old(Snapshot()), Act.Insert(e.id, Restored(e))), EngineInsert(ToAgentRecord(e)))
    {
      var ra := Insert(ToAgentRecord(e), e.execPath);
    }

    // ----- Start: two locked sections around the systemd call -----

    /** First section: checks the state, marks the agent and keeps its pointer. */
    method StartBegin(id: string) returns (held: Option<RuntimeAgent>)
      requires Valid()
      modifies if id in agents then {agents[id]} else {}
      ensures Valid() && agents == old(agents) && created == old(created) && refs == old(refs)
      ensures sandbox.units == old(sandbox.units)
      ensures held == if Startable(old(Snapshot()), id) then Some(agents[id]) else None
      ensures held.Some? <==> old(id in agents && agents[id].state in {Registered, Stopping, Stopped, Killed, Failed})
      ensures held.Some? ==> refs[id] < |created| && created[refs[id]] == held.value
      ensures Snapshot() == if held.Some? then Apply(old(Snapshot()), Update(refs[id], ToStarting)) else old(Snapshot())
    {
      ghost var m := Snapshot();
      if id !in agents {
        return None;
      }
      var ra := agents[id];
      if ra.state == Running || ra.state == Starting {
        return None;
      }
      ra.state := Starting;
      held := Some(ra);
      OneWritten(m, refs[id], ToStarting);
    }

    /** Second section: writes the result through the pointer, whatever became of the agent meanwhile. */
    method StartEnd(ra: RuntimeAgent, ghost ref: nat, ok: bool, now: Time)
      requires Valid() && ref < |created| && created[ref] == ra
      modifies ra, ra.record
      ensures Valid() && agents == old(agents) && created == old(created) && refs == old(refs)
      ensures sandbox.units == old(sandbox.units)
      ensures Snapshot() == Apply(old(Snapshot()), Update(ref, if ok then ToRunning(now) else ToFailed))
    {
      ghost var m := Snapshot();
      if ok {
        ra.state := Running;
        ra.startedAt := Some(now);
        ra.record.lastStartedAt := Some(now);
      } else {
        ra.state := Failed;
      }
      OneWritten(m, ref, if ok then ToRunning(now) else ToFailed);
    }

    /** What Start does once systemd has answered: the second section, then the audit event of a success. */
    method FinishStart(id: string, ra: RuntimeAgent, ok: bool, now: Time, outputs: Outputs)
      requires Valid() && id in agents && agents[id] == ra
      modifies ra, ra.record, auditor
      ensures Valid() && agents == old(agents) && created == old(created) && refs == old(refs)
      ensures sandbox.units == old(sandbox.units)
      ensures Snapshot() ==
        var written := Apply(old(Snapshot()), Update(refs[id], if ok then ToRunning(now) else ToFailed));
        if ok then Apply(written, Append(LifecycleEvent(AgentStarted, id))) else written
    {
      StartEnd(ra, refs[id], ok, now);
      if ok {
        LogLifecycle(id, AgentStarted, outputs);
      }
    }

    /** The systemd call of Start touches nothing of the manager's. */
    method StartUnit(id: string, outcome: U.Outcome) returns (ok: bool)
      requires Valid()
      modifies sandbox`units
      ensures Valid() && agents == old(agents) && created == old(created) && refs == old(refs)
      ensures (sandbox.units, ok) == U.StartAgent(old(sandbox.units), id, outcome)
      ensures ok <==> SystemdUnitName(id) !in old(sandbox.units) && outcome.Finished? && outcome.done
      ensures Snapshot() == old(Snapshot())
    {
      ghost var m := Snapshot();
      ok := sandbox.StartAgent(id, outcome);
      assert Heap() == m.heap && RecordValues() == m.eng.cells;
    }

    /**
     * A start is a success exactly if the agent can be started, its unit is not active, and the job ends as `done`.
     * Only then is the agent recorded as running and the start logged; any other attempt is recorded as failed.
     */
    method Start(id: string, outcome: U.Outcome, now: Time, outputs: Outputs) returns (ok: bool)
      requires Valid()
      modifies if id in agents then {agents[id], agents[id].record} else {}, sandbox`units, auditor
      ensures Valid() && agents == old(agents) && created == old(created) && refs == old(refs)
      ensures (sandbox.units, ok) ==
        if Startable(old(Snapshot()), id) then U.StartAgent(old(sandbox.units), id, outcome)
          else (old(sandbox.units), false)
      ensures var startable := old(id in agents && agents[id].state in {Registered, Stopping, Stopped, Killed, Failed});
        && (ok <==>
              && startable && "atomic-sandbox-" + id + ".service" !in old(sandbox.units)
              && outcome.Finished? && outcome.done)
        && (startable && ok ==> agents[id].Value() == old(agents[id].Value()).(
              state := Running, startedAt := Some(now),
              record := old(agents[id].record.Value()).(lastStartedAt := Some(now))))
        && (startable && !ok ==> agents[id].Value() == old(agents[id].Value()).(state := Failed))
        && (!startable && id in agents ==> agents[id].Value() == old(agents[id].Value()))
      ensures ok ==> auditor.events == old(auditor.events) + [Event(AgentStarted, id, "", "", "", [], "", "")]
      ensures !ok ==> auditor.events == old(auditor.events)
      ensures Snapshot() == ApplyAll(old(Snapshot()), StartActs(old(Snapshot()), id, ok, now))
    {
      ghost var m := Snapshot();
      var held := StartBegin(id);
      if held.None? {
        return false;
      }
      ok := StartUnit(id, outcome);
      FinishStart(id, held.value, ok, now, outputs);
      StartInSteps(m, id, ok, now);
      StartShows(m, id, ok, now);
      ShowsInSnapshot();
    }

    // ----- Stop: the same shape, without a check of the state -----

    method StopBegin(id: string) returns (held: Option<RuntimeAgent>)
      requires Valid()
      modifies if id in agents then {agents[id]} else {}
      ensures Valid() && agents == old(agents) && created == old(created) && refs == old(refs)
      ensures sandbox.units == old(sandbox.units)
      ensures held == if id in agents then Some(agents[id]) else None
      ensures held.Some? ==> refs[id] < |created| && created[refs[id]] == held.value
      ensures Snapshot() == if held.Some? then Apply(old(Snapshot()), Update(refs[id], ToStopping)) else old(Snapshot())
    {
      ghost var m := Snapshot();
      if id !in agents {
        return None;
      }
      var ra := agents[id];
      ra.state := Stopping;
      held := Some(ra);
      OneWritten(m, refs[id], ToStopping);
    }

    method StopEnd(ra: RuntimeAgent, ghost ref: nat, now: Time)
      requires Valid() && ref < |created| && created[ref] == ra
      modifies ra
      ensures Valid() && agents == old(agents) && created == old(created) && refs == old(refs)
      ensures sandbox.units == old(sandbox.units)
      ensures Snapshot() == Apply(old(Snapshot()), Update(ref, ToStopped(now)))
    {
      ghost var m := Snapshot();
      ra.state := Stopped;
      ra.stoppedAt := Some(now);
      OneWritten(m, ref, ToStopped(now));
    }

    method StopUnit(id: string, outcome: U.Outcome) returns (ok: bool)
      requires Valid()
      modifies sandbox`units
      ensures Valid() && agents == old(agents) && created == old(created) && refs == old(refs)
      ensures (sandbox.units, ok) == U.StopAgent(old(sandbox.units), id, outcome)
      ensures ok <==> outcome.Finished?
      ensures Snapshot() == old(Snapshot())
    {
      ghost var m := Snapshot();
      ok := sandbox.StopAgent(id, outcome);
      assert Heap() == m.heap && RecordValues() == m.eng.cells;
    }

    /**
     * A stop is a success exactly if the agent is registered and the request was taken, whatever became of the job. A
     * refused one leaves the agent marked `stopping`, and nothing is logged.
     */
    method Stop(id: string, outcome: U.Outcome, now: Time, outputs: Outputs) returns (ok: bool)
      requires Valid()
      modifies if id in agents then {agents[id]} else {}, sandbox`units, auditor
      ensures Valid() && agents == old(agents) && created == old(created) && refs == old(refs)
      ensures (sandbox.units, ok) == if id in agents then U.StopAgent(old(sandbox.units), id, outcome)
        else (old(sandbox.units), false)
      ensures ok <==> id in agents && outcome.Finished?
      ensures id in agents ==> agents[id].Value() == if ok
        then old(agents[id].Value()).(state := Stopped, stoppedAt := Some(now))
        else old(agents[id].Value()).(state := Stopping)
      ensures ok ==> auditor.events == old(auditor.events) + [Event(AgentStopped, id, "", "", "", [], "", "")]
      ensures !ok ==> auditor.events == old(auditor.events)
      ensures Snapshot() == ApplyAll(old(Snapshot()), StopActs(old(Snapshot()), id, ok, now))
    {
      ghost var m := Snapshot();
      var held := StopBegin(id);
      if held.None? {
        return false;
      }
      ok := StopUnit(id, outcome);
      StopInSteps(m, id, ok, now);
      StopShows(m, id, ok, now);
      ShowsInSnapshot();
      if !ok {
        return;
      }
      StopEnd(held.value, refs[id], now);
      LogLifecycle(id, AgentStopped, outputs);
      ShowsInSnapshot();
    }

    // ----- Kill: acts on the unit first, looks the agent up afterwards -----

    method KillEnd(id: string, reason: string, now: Time)
      requires Valid()
      modifies if id in agents then {agents[id]} else {}
      ensures Valid() && agents == old(agents) && created == old(created) && refs == old(refs)
      ensures sandbox.units == old(sandbox.units)
      ensures Snapshot() == if id in agents then Apply(old(Snapshot()), Update(refs[id], ToKilled(now, reason)))
        else old(Snapshot())
    {
      ghost var m := Snapshot();
      if id in agents {
        var ra := agents[id];
        ra.state := Killed;
        ra.stoppedAt := Some(now);
        ra.killReason := reason;
        OneWritten(m, refs[id], ToKilled(now, reason));
      }
    }

    /**
     * A kill is a success exactly if the request was taken. It is then logged, and the agent, if there is one, is
     * recorded as killed with time and reason; otherwise nothing changes.
     */
    method Kill(id: string, reason: string, outcome: U.Outcome, now: Time, outputs: Outputs) returns (ok: bool)
      requires Valid()
      modifies if id in agents then {agents[id]} else {}, sandbox`units, auditor
      ensures Valid() && agents == old(agents) && created == old(created) && refs == old(refs)
      ensures (sandbox.units, ok) == U.KillAgent(old(sandbox.units), id, outcome)
      ensures ok <==> outcome.Finished?
      ensures id in agents ==> agents[id].Value() == if ok
        then old(agents[id].Value()).(state := Killed, stoppedAt := Some(now), killReason := reason)
        else old(agents[id].Value())
      ensures ok ==> auditor.events == old(auditor.events) + [Event(AgentKilled, id, "", "", "", [], "", "")]
      ensures !ok ==> auditor.events == old(auditor.events)
      ensures Snapshot() == ApplyAll(old(Snapshot()), KillActs(old(Snapshot()), id, reason, ok, now))
    {
      ghost var m := Snapshot();
      ok := sandbox.KillAgent(id, outcome);
      KillShows(m, id, reason, ok, now);
      if !ok {
        return;
      }
      KillEnd(id, reason, now);
      LogLifecycle(id, AgentKilled, outputs);
      if id in agents {
        ApplyTwo(m, Update(refs[id], ToKilled(now, reason)), Append(LifecycleEvent(AgentKilled, id)));
      } else {
        ApplyOne(m, Append(LifecycleEvent(AgentKilled, id)));
      }
      ShowsInSnapshot();
    }

    // ----- Copies for callers -----

    /** A copy: later changes to the agent do not show in it, nor changes to it in the agent. */
    method GetStatus(id: string) returns (copy: Option<RuntimeAgent>)
      requires Valid()
      ensures copy.Some? <==> id in agents
      ensures copy.Some? ==> fresh(copy.value) && copy.value.Value() == agents[id].Value()
    {
      if id !in agents {
        return None;
      }
      var c := CopyOf(agents[id]);
      copy := Some(c);
    }

    /** One fresh copy of every agent, in whatever order the map is walked. */
    method ListAgents() returns (copies: seq<RuntimeAgent>, ghost values: seq<Runtime>)
      requires Valid()
      ensures Enumerates(values, ValuesOf(agents))
      ensures |values| == |copies| && forall i :: 0 <= i < |copies| ==>
        fresh(copies[i]) && copies[i].Value() == values[i]
      ensures forall i, j :: 0 <= i < j < |copies| ==> copies[i] != copies[j]
    {
      copies, values := CopyAll(agents);
    }
  }

  method CopyOf(ra: RuntimeAgent) returns (copy: RuntimeAgent)
    ensures fresh(copy) && fresh(copy.record) && copy.Value() == ra.Value()
  {
    copy := new RuntimeAgent(ra.Value());
  }

  /** The loop of ListAgents. */
  method CopyAll(agents: map<string, RuntimeAgent>) returns (copies: seq<RuntimeAgent>, ghost values: seq<Runtime>)
    ensures Enumerates(values, ValuesOf(agents))
    ensures |values| == |copies| && forall i :: 0 <= i < |copies| ==> fresh(copies[i]) && copies[i].Value() == values[i]
    ensures forall i, j :: 0 <= i < j < |copies| ==> copies[i] != copies[j]
  {
    copies, values := [], [];
    ghost var all := ValuesOf(agents);
    ghost var order: seq<string> := [];
    var left := agents.Keys;
    while left != {}
      invariant left <= agents.Keys && |copies| == |values|
      invariant EnumeratesBut(values, order, all, left)
      invariant forall i :: 0 <= i < |copies| ==> fresh(copies[i])
      invariant forall i :: 0 <= i < |copies| ==> copies[i].Value() == values[i]
      invariant forall i, j :: 0 <= i < j < |copies| ==> copies[i] != copies[j]
    {
      var id :| id in left;
      EnumerateOne(values, order, all, left, id);
      var c := CopyOf(agents[id]);
      assert c !in copies;
      copies, values, order, left := copies + [c], values + [all[id]], order + [id], left - {id};
    }
    EnumeratedAll(values, order, all);
  }
}
