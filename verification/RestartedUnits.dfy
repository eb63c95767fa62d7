/** What a restart of the state machine means for units that live on: which of them still have a registered agent. */
module RestartedUnits {
  import opened Wrappers
  import opened Identity
  import opened Records
  import opened Registry
  import opened Memory
  import opened Machine
  import opened StepFrames
  import opened Footprints
  import opened MachineInvariants
  import opened Lifetimes
  import opened DurableRuns
  import opened RunLaws
  import opened WholeCalls
  import opened UnitStates
  import opened SequentialRuns
  import opened FirstRuns
  import U = Units

  // ----- The saved registry while the daemon is not up -----

  /** Only a save changes what is saved, and none is under way unless the daemon is up. */
  lemma SavingIsUp(c: Config, s: Sys, l: Label)
    requires Shape(c, s) && Enabled(c, s, l) && Saves(l)
    ensures s.phase == Up
  {
  }

  lemma {:induction false} SavedUntilUp(c: Config, states: seq<Sys>, labels: seq<Label>, i: nat, j: nat)
    requires Behavior(c, states, labels) && i < j <= |labels| && labels[i].Crash?
    requires forall n :: i < n < j ==> states[n].phase != Up
    ensures states[j].hist.saved == states[i].hist.saved
    decreases j
  {
    if i + 1 < j {
      SavedUntilUp(c, states, labels, i, j - 1);
    }
    RunTouches(c, states, labels, j - 1);
    if Saves(labels[j - 1]) {
      CoreAlways(c, states, labels, j - 1);
      assert StepAt(c, states, labels, j - 1);
      SavingIsUp(c, states[j - 1], labels[j - 1]);
    }
  }

  // ----- The world a restart comes up in -----

  /** The ids restored: all that were saved, or none if the file cannot be read. */
  function RestoredIds(saved: map<string, Entry>, readable: bool): set<string> {
    if readable then saved.Keys else {}
  }

  lemma RestoredWorld(m: Mem, units: set<string>, saved: map<string, Entry>)
    requires WellFormed(m) && Agents(m) == RestoredAll(saved)
    ensures WorldOf(m, units) == U.Restart(units, saved.Keys)
  {
    assert m.agents.Keys == Agents(m).Keys == saved.Keys;
    forall id | id in m.agents
      ensures m.heap[m.agents[id]].state == Registered
    {
      assert Agents(m)[id] == Restored(saved[id]);
    }
  }

  lemma EmptyWorld(m: Mem, units: set<string>)
    requires WellFormed(m) && Agents(m) == map[]
    ensures WorldOf(m, units) == U.Restart(units, {})
  {
    assert m.agents.Keys == Agents(m).Keys;
  }

  lemma UpByLoading(c: Config, states: seq<Sys>, labels: seq<Label>, j: nat)
    requires Behavior(c, states, labels) && j < |labels| && states[j].phase != Up && states[j + 1].phase == Up
    ensures labels[j].LoadOpen? || (labels[j].RestoreStep? && states[j].phase == Restoring)
  {
    assert StepAt(c, states, labels, j);
  }

  /**
   * From a crash to the next time the daemon is up: units are as they were, and the agents are those of the last save
   * before the crash, or none if the registry file exists and cannot be read.
   */
  lemma WorldAfterRestart(c: Config, states: seq<Sys>, labels: seq<Label>, i: nat, j: nat, units: set<string>)
    requires Behavior(c, states, labels) && i < j < |labels| && labels[i].Crash?
    requires (forall n :: i < n <= j ==> states[n].phase != Up) && states[j + 1].phase == Up
    ensures WellFormed(states[j + 1].mem)
    ensures WorldOf(states[j + 1].mem, units)
         == U.Restart(units, RestoredIds(states[i].hist.saved, !labels[j].LoadOpen?))
    ensures labels[j].LoadOpen? ==> states[j].mem.disk.file.Some? && !ReadableOf(labels[j])
  {
    SavedUntilUp(c, states, labels, i, j + 1);
    UpByLoading(c, states, labels, j);
    if labels[j].LoadOpen? {
      UnreadableForgets(c, states, labels, j);
      EmptyWorld(states[j + 1].mem, units);
    } else {
      RestartRebuilds(c, states, labels, j);
      RestoredWorld(states[j + 1].mem, units, states[i].hist.saved);
    }
  }

  /**
   * If every active unit had a running agent when the daemon crashed, then after the restart every one still has an
   * agent exactly when each agent with an active unit was in the last save, and the file could be read.
   */
  lemma OwnedAfterCrash(c: Config, states: seq<Sys>, labels: seq<Label>, i: nat, j: nat, units: set<string>)
    requires Behavior(c, states, labels) && i < j < |labels| && labels[i].Crash?
    requires (forall n :: i < n <= j ==> states[n].phase != Up) && states[j + 1].phase == Up
    requires WellFormed(states[i].mem) && U.Safe(WorldOf(states[i].mem, units))
    ensures WellFormed(states[j + 1].mem)
    ensures U.Owned(WorldOf(states[j + 1].mem, units)) <==>
      forall id :: id in states[i].mem.agents && SystemdUnitName(id) in units ==>
        id in RestoredIds(states[i].hist.saved, !labels[j].LoadOpen?)
  {
    WorldAfterRestart(c, states, labels, i, j, units);
    U.OwnedAfterRestart(WorldOf(states[i].mem, units), RestoredIds(states[i].hist.saved, !labels[j].LoadOpen?));
  }

  // ----- A run in which a unit loses its agent -----

  lemma StartedWorld(m: Mem, id: string, now: Time)
    requires WellFormed(m) && m.agents == map[id := 0] && |m.heap| == 1 && m.heap[0].state == Registered
    ensures Startable(m, id)
    ensures var n := ApplyAll(m, StartActs(m, id, true, now));
      WellFormed(n) && n.disk == m.disk && U.Safe(WorldOf(n, {SystemdUnitName(id)}))
  {
    var units := {SystemdUnitName(id)};
    StartInSteps(m, id, true, now);
    StartInWorld(m, units, id, true, now);
    var n := ApplyAll(m, StartActs(m, id, true, now));
    assert WorldOf(n, units).agents[id] == Running;
  }

  lemma RestartRuns(c: Config, s: Sys) returns (t: Sys)
    requires WellFormed(s.mem) && s.mem.disk.file == None
    ensures Runs(c, s, [Crash] + [Boot(NO_POLICY)] + [LoadOpen(true)] + [RestoreStep], t)
    ensures t.phase == Up && WellFormed(t.mem) && t.mem.agents == map[]
  {
    LifetimeStep(c, s, Crash);
    var down := Next(c, s, Crash);
    RunsOne(c, s, Crash, down);
    LifetimeStep(c, down, Boot(NO_POLICY));
    var booted := Next(c, down, Boot(NO_POLICY));
    RunsOne(c, down, Boot(NO_POLICY), booted);
    RunsThen(c, s, [Crash], down, [Boot(NO_POLICY)], booted);
    LifetimeStep(c, booted, LoadOpen(true));
    var opened' := Next(c, booted, LoadOpen(true));
    RunsOne(c, booted, LoadOpen(true), opened');
    RunsThen(c, s, [Crash] + [Boot(NO_POLICY)], booted, [LoadOpen(true)], opened');
    RestoringStep(c, opened', RestoreStep);
    t := Next(c, opened', RestoreStep);
    RunsOne(c, opened', RestoreStep, t);
    RunsThen(c, s, [Crash] + [Boot(NO_POLICY)] + [LoadOpen(true)], opened', [RestoreStep], t);
  }

  /**
   * For every configuration and valid id there is a run in which the save of a registration fails, the agent is
   * started, all is safe, the daemon restarts, and then the agent's unit is active and nobody's.
   */
  lemma FailedSaveOrphans(c: Config, id: string, now: Time)
    returns (before: Sys, after: Sys, first: seq<Label>, rest: seq<Label>)
    requires ValidId(id)
    ensures Runs(c, Init, first, before) && Runs(c, before, rest, after) && rest != [] && rest[0] == Crash
    ensures WellFormed(before.mem) && U.Safe(WorldOf(before.mem, {SystemdUnitName(id)}))
    ensures WellFormed(after.mem) && after.phase == Up && !U.Owned(WorldOf(after.mem, {SystemdUnitName(id)}))
  {
    var idle;
    idle, first := UnsavedAgent(c, id);
    StartedWorld(idle.mem, id, now);
    before := StartRuns(c, idle, 0, id, true, now);
    RunsThen(c, Init, first, idle, StartLabels(idle.mem, 0, id, true, now), before);
    first := first + StartLabels(idle.mem, 0, id, true, now);
    after := RestartRuns(c, before);
    rest := [Crash] + [Boot(NO_POLICY)] + [LoadOpen(true)] + [RestoreStep];
    assert SystemdUnitName(id) in {SystemdUnitName(id)};
  }
}
