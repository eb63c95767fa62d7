/** The manager's calls, as changes to memory, are the calls on recorded states and units of module Units. */
module UnitStates {
  import opened Identity
  import opened Records
  import opened Registry
  import opened Memory
  import opened Machine
  import opened MachineInvariants
  import opened Storage
  import opened WholeCalls
  import U = Units

  /** Recorded states by id, and the active units. */
  ghost function WorldOf(m: Mem, units: set<string>): U.World
    requires WellFormed(m)
  {
    U.World(map id | id in m.agents :: m.heap[m.agents[id]].state, units)
  }

  ghost function Put(w: U.World, id: string, state: State): U.World {
    U.World(w.agents[id := state], w.units)
  }

  lemma StateAfterUpdate(m: Mem, id: string, change: Change, other: string)
    requires WellFormed(m) && Distinct(m) && id in m.agents && other in m.agents
    ensures var n := Apply(m, Update(m.agents[id], change));
      n.heap[m.agents[other]].state == if other == id then StateOf(change) else m.heap[m.agents[other]].state
  {
  }

  function StateOf(change: Change): State {
    match change
    case ToStarting => Starting
    case ToRunning(_) => Running
    case ToFailed => Failed
    case ToStopping => Stopping
    case ToStopped(_) => Stopped
    case ToKilled(_, _) => Killed
  }

  lemma ValidAfterUpdate(m: Mem, id: string, change: Change)
    requires WellFormed(m) && Distinct(m) && id in m.agents
    ensures var n := Apply(m, Update(m.agents[id], change));
      WellFormed(n) && Distinct(n) && n.agents == m.agents
  {
  }

  lemma WorldAfterUpdate(m: Mem, units: set<string>, id: string, change: Change)
    requires WellFormed(m) && Distinct(m) && id in m.agents
    ensures var n := Apply(m, Update(m.agents[id], change));
      && WellFormed(n) && Distinct(n) && n.agents == m.agents
      && WorldOf(n, units) == Put(WorldOf(m, units), id, StateOf(change))
  {
    ValidAfterUpdate(m, id, change);
    var n := Apply(m, Update(m.agents[id], change));
    forall other | other in m.agents
      ensures n.heap[n.agents[other]].state == if other == id then StateOf(change) else m.heap[m.agents[other]].state
    {
      StateAfterUpdate(m, id, change, other);
    }
    SameStates(m, n, units, id, StateOf(change));
  }

  lemma SameStates(m: Mem, n: Mem, units: set<string>, id: string, state: State)
    requires WellFormed(m) && WellFormed(n) && n.agents == m.agents && id in m.agents
    requires forall other :: other in m.agents ==>
      n.heap[n.agents[other]].state == if other == id then state else m.heap[m.agents[other]].state
    ensures WorldOf(n, units) == Put(WorldOf(m, units), id, state)
  {
  }

  lemma PutTwice(w: U.World, id: string, a: State, b: State)
    ensures Put(Put(w, id, a), id, b) == Put(w, id, b)
  {
  }

  lemma WorldAfterAppend(m: Mem, units: set<string>, event: Event)
    requires WellFormed(m)
    ensures WellFormed(Apply(m, Append(event))) && WorldOf(Apply(m, Append(event)), units) == WorldOf(m, units)
  {
  }

  lemma TwoUpdates(m: Mem, units: set<string>, id: string, a: Change, b: Change, event: Event, state: State)
    requires WellFormed(m) && Distinct(m) && id in m.agents && StateOf(b) == state
    ensures var n := Apply(Apply(m, Update(m.agents[id], a)), Update(m.agents[id], b));
      && WellFormed(n) && WorldOf(n, units) == Put(WorldOf(m, units), id, state)
      && WellFormed(Apply(n, Append(event)))
      && WorldOf(Apply(n, Append(event)), units) == Put(WorldOf(m, units), id, state)
  {
    WorldAfterUpdate(m, units, id, a);
    WorldAfterUpdate(Apply(m, Update(m.agents[id], a)), units, id, b);
    PutTwice(WorldOf(m, units), id, StateOf(a), StateOf(b));
    WorldAfterAppend(Apply(Apply(m, Update(m.agents[id], a)), Update(m.agents[id], b)), units, event);
  }

  lemma StartInWorld(m: Mem, units: set<string>, id: string, ok: bool, now: Time)
    requires WellFormed(m) && Distinct(m) && Startable(m, id)
    ensures var n := ApplyAll(m, StartActs(m, id, ok, now));
      WellFormed(n) && WorldOf(n, units) == Put(WorldOf(m, units), id, if ok then Running else Failed)
  {
    StartInSteps(m, id, ok, now);
    TwoUpdates(m, units, id, ToStarting, if ok then ToRunning(now) else ToFailed, LifecycleEvent(AgentStarted, id),
               if ok then Running else Failed);
  }

  lemma StartRefines(m: Mem, units: set<string>, id: string, outcome: U.Outcome, now: Time)
    requires WellFormed(m) && Distinct(m)
    ensures var (after, ok) := if Startable(m, id) then U.StartAgent(units, id, outcome) else (units, false);
      var n := ApplyAll(m, StartActs(m, id, ok, now));
      WellFormed(n) && WorldOf(n, after) == U.Do(WorldOf(m, units), U.Start(id, outcome))
  {
    if Startable(m, id) {
      var (after, ok) := U.StartAgent(units, id, outcome);
      StartInWorld(m, after, id, ok, now);
    }
  }

  lemma StoppedInWorld(m: Mem, units: set<string>, id: string, now: Time)
    requires WellFormed(m) && Distinct(m) && Known(m, id)
    ensures var n := StopResult(m, id, true, now);
      WellFormed(n) && WorldOf(n, units) == Put(WorldOf(m, units), id, Stopped)
  {
    TwoUpdates(m, units, id, ToStopping, ToStopped(now), LifecycleEvent(AgentStopped, id), Stopped);
  }

  lemma StoppingInWorld(m: Mem, units: set<string>, id: string, now: Time)
    requires WellFormed(m) && Distinct(m) && Known(m, id)
    ensures var n := StopResult(m, id, false, now);
      WellFormed(n) && WorldOf(n, units) == Put(WorldOf(m, units), id, Stopping)
  {
    WorldAfterUpdate(m, units, id, ToStopping);
  }

  lemma StopInWorld(m: Mem, units: set<string>, id: string, ok: bool, now: Time)
    requires WellFormed(m) && Distinct(m) && Known(m, id)
    ensures var n := ApplyAll(m, StopActs(m, id, ok, now));
      WellFormed(n) && WorldOf(n, units) == Put(WorldOf(m, units), id, if ok then Stopped else Stopping)
  {
    StopInSteps(m, id, ok, now);
    if ok {
      StoppedInWorld(m, units, id, now);
    } else {
      StoppingInWorld(m, units, id, now);
    }
  }

  lemma StopRefines(m: Mem, units: set<string>, id: string, outcome: U.Outcome, now: Time)
    requires WellFormed(m) && Distinct(m)
    ensures var (after, ok) := if Known(m, id) then U.StopAgent(units, id, outcome) else (units, false);
      var n := ApplyAll(m, StopActs(m, id, ok, now));
      WellFormed(n) && WorldOf(n, after) == U.Do(WorldOf(m, units), U.Stop(id, outcome))
  {
    var (after, ok) := U.StopAgent(units, id, outcome);
    if Known(m, id) {
      StopInWorld(m, after, id, ok, now);
      assert U.Do(WorldOf(m, units), U.Stop(id, outcome))
        == Put(WorldOf(m, after), id, if ok then Stopped else Stopping);
    } else {
      assert ApplyAll(m, StopActs(m, id, false, now)) == m;
      assert U.Do(WorldOf(m, units), U.Stop(id, outcome)) == WorldOf(m, units);
    }
  }

  lemma UpdateAndLog(m: Mem, units: set<string>, id: string, change: Change, event: Event, state: State)
    requires WellFormed(m) && Distinct(m) && id in m.agents && StateOf(change) == state
    ensures var n := Apply(Apply(m, Update(m.agents[id], change)), Append(event));
      WellFormed(n) && WorldOf(n, units) == Put(WorldOf(m, units), id, state)
  {
    WorldAfterUpdate(m, units, id, change);
    WorldAfterAppend(Apply(m, Update(m.agents[id], change)), units, event);
  }

  lemma KilledInWorld(m: Mem, units: set<string>, id: string, reason: string, now: Time)
    requires WellFormed(m) && Distinct(m) && id in m.agents
    ensures var n := ApplyAll(m, KillActs(m, id, reason, true, now));
      WellFormed(n) && WorldOf(n, units) == Put(WorldOf(m, units), id, Killed)
  {
    var killed := LifecycleEvent(AgentKilled, id);
    ApplyTwo(m, Update(m.agents[id], ToKilled(now, reason)), Append(killed));
    UpdateAndLog(m, units, id, ToKilled(now, reason), killed, Killed);
  }

  lemma UnknownKilledInWorld(m: Mem, units: set<string>, id: string, reason: string, now: Time)
    requires WellFormed(m) && id !in m.agents
    ensures var n := ApplyAll(m, KillActs(m, id, reason, true, now));
      WellFormed(n) && WorldOf(n, units) == WorldOf(m, units)
  {
    ApplyOne(m, Append(LifecycleEvent(AgentKilled, id)));
    WorldAfterAppend(m, units, LifecycleEvent(AgentKilled, id));
  }

  lemma KillRefines(m: Mem, units: set<string>, id: string, reason: string, outcome: U.Outcome, now: Time)
    requires WellFormed(m) && Distinct(m)
    ensures var (after, ok) := U.KillAgent(units, id, outcome);
      var n := ApplyAll(m, KillActs(m, id, reason, ok, now));
      WellFormed(n) && WorldOf(n, after) == U.Do(WorldOf(m, units), U.Kill(id, outcome))
  {
    var (after, ok) := U.KillAgent(units, id, outcome);
    if ok && id in m.agents {
      KilledInWorld(m, after, id, reason, now);
    } else if ok {
      UnknownKilledInWorld(m, after, id, reason, now);
    }
  }

  lemma WorldAfterSave(m: Mem, units: set<string>, entries: seq<Entry>, outcome: SaveOutcome)
    requires WellFormed(m)
    ensures var n := ApplyAll(m, SaveActs(entries, outcome));
      WellFormed(n) && WorldOf(n, units) == WorldOf(m, units)
  {
    ApplySave(m, entries, outcome);
  }

  lemma StateAfterEnter(m: Mem, record: AgentRecord, execPath: string, id: string)
    requires WellFormed(m) && id in Entered(m, record, execPath).agents
    ensures var n := Entered(m, record, execPath);
      n.heap[n.agents[id]].state == if id == record.id then Registered else m.heap[m.agents[id]].state
  {
  }

  lemma WorldAfterEnter(m: Mem, units: set<string>, record: AgentRecord, execPath: string)
    requires WellFormed(m)
    ensures WorldOf(Entered(m, record, execPath), units) == Put(WorldOf(m, units), record.id, Registered)
  {
    var n := Entered(m, record, execPath);
    assert n.agents.Keys == m.agents.Keys + {record.id};
    forall id | id in n.agents
      ensures WorldOf(n, units).agents[id] == Put(WorldOf(m, units), record.id, Registered).agents[id]
    {
      StateAfterEnter(m, record, execPath, id);
    }
  }

  lemma WorldAfterSaveAndLog(m: Mem, units: set<string>, entries: seq<Entry>, outcome: SaveOutcome, event: Event)
    requires WellFormed(m)
    ensures var n := Apply(ApplyAll(m, SaveActs(entries, outcome)), Append(event));
      WellFormed(n) && WorldOf(n, units) == WorldOf(m, units)
  {
    WorldAfterSave(m, units, entries, outcome);
    WorldAfterAppend(ApplyAll(m, SaveActs(entries, outcome)), units, event);
  }

  lemma AcceptedRegisterRefines(c: Config, m: Mem, units: set<string>, record: AgentRecord, execPath: string,
                                order: seq<string>, outcome: SaveOutcome)
    requires WellFormed(m) && ValidId(record.id) && record.id !in m.agents
    requires IsOrder(order, Entered(m, record, execPath).agents.Keys)
    ensures var n := ApplyAll(m,
                              RegisterActs(record, execPath, EntriesOf(Entered(m, record, execPath), order), outcome));
      WellFormed(n) && WorldOf(n, units) == U.Do(WorldOf(m, units), U.Op.Register(record.id, true))
  {
    var entered := Entered(m, record, execPath);
    var entries := EntriesOf(entered, order);
    var event := LifecycleEvent(AgentRegistered, record.id);
    ApplySaved(m, Insert(record.id, NewRuntime(record, execPath)), EngineInsert(record), entries, outcome, event);
    WorldAfterEnter(m, units, record, execPath);
    WorldAfterSaveAndLog(entered, units, entries, outcome, event);
  }

  /** Whether accepted or refused, for whatever reason. */
  lemma RegisterRefines(c: Config, m: Mem, units: set<string>, id: string, profile: string, execPath: string, now: Time,
                        provisioned: bool, order: seq<string>, outcome: SaveOutcome)
    requires WellFormed(m)
    requires IsOrder(order, Entered(m, NewRecord(c.root, id, profile, now), execPath).agents.Keys)
    ensures var record := NewRecord(c.root, id, profile, now);
      var admitted := !(c.maxAgents > 0 && |m.agents| >= c.maxAgents) && provisioned;
      var acts := if Refusal(c, m, id, provisioned).Some? then []
                  else RegisterActs(record, execPath, EntriesOf(Entered(m, record, execPath), order), outcome);
      var n := ApplyAll(m, acts);
      WellFormed(n) && WorldOf(n, units) == U.Do(WorldOf(m, units), U.Op.Register(id, admitted))
  {
    ValidateIDDecides(id);
    if Refusal(c, m, id, provisioned).None? {
      AcceptedRegisterRefines(c, m, units, NewRecord(c.root, id, profile, now), execPath, order, outcome);
    }
  }

  lemma WorldAfterLeave(m: Mem, units: set<string>, id: string)
    requires WellFormed(m) && Removable(m, id)
    ensures WorldOf(Left(m, id), units) == U.Do(WorldOf(m, units), U.Op.Unregister(id))
  {
  }

  /** Whether accepted or refused. */
  lemma UnregisterRefines(m: Mem, units: set<string>, id: string, order: seq<string>, outcome: SaveOutcome)
    requires WellFormed(m) && IsOrder(order, Left(m, id).agents.Keys)
    ensures var acts := if Removable(m, id) then UnregisterActs(id, EntriesOf(Left(m, id), order), outcome) else [];
      var n := ApplyAll(m, acts);
      WellFormed(n) && WorldOf(n, units) == U.Do(WorldOf(m, units), U.Op.Unregister(id))
  {
    if Removable(m, id) {
      var entries, event := EntriesOf(Left(m, id), order), LifecycleEvent(AgentUnregistered, id);
      ApplySaved(m, Delete(id), EngineDelete(id), entries, outcome, event);
      WorldAfterLeave(m, units, id);
      WorldAfterSaveAndLog(Left(m, id), units, entries, outcome, event);
    }
  }
}
