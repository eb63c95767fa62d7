/**
 * The first steps of a daemon's life, as runs from the initial state; they show that what others assume is reachable.
 */
module FirstRuns {
  import opened Wrappers
  import opened Identity
  import opened Records
  import opened Registry
  import opened Memory
  import opened Machine
  import opened StepFrames
  import opened Lifetimes
  import opened RunLaws
  import opened Storage
  import opened WholeCalls
  import opened SequentialRuns
  import E = EngineState

  /** Queries for all profiles that find nothing. */
  const NO_POLICY: map<string, E.Query> := map profile | profile in PROFILE_SET :: (input: OPAInput) => E.NoResult

  ghost predicate NoAgents(s: Sys) {
    && s.calls == map[] && s.hist.saved == map[]
    && WellFormed(s.mem) && s.mem.agents == map[] && s.mem.heap == [] && s.mem.disk == Disk(None, None)
  }

  lemma BootRuns(c: Config) returns (t: Sys)
    ensures Runs(c, Init, [Boot(NO_POLICY)] + [LoadOpen(true)], t)
    ensures t.phase == Restoring && t.hold == RestoreNext([]) && NoAgents(t)
  {
    var boot := Boot(NO_POLICY);
    CoreInitially(c);
    LifetimeStep(c, Init, boot);
    var booted := Next(c, Init, boot);
    RunsOne(c, Init, boot, booted);
    LifetimeStep(c, booted, LoadOpen(true));
    t := Next(c, booted, LoadOpen(true));
    RunsOne(c, booted, LoadOpen(true), t);
    RunsThen(c, Init, [boot], booted, [LoadOpen(true)], t);
  }

  lemma LastRestoreStep(c: Config, s: Sys) returns (t: Sys)
    requires s.phase == Restoring && s.hold == RestoreNext([]) && NoAgents(s)
    ensures Runs(c, s, [RestoreStep], t) && t.phase == Up && t.hold == Free && NoAgents(t)
  {
    RestoringStep(c, s, RestoreStep);
    t := Next(c, s, RestoreStep);
    RunsOne(c, s, RestoreStep, t);
  }

  /** The daemon comes up, without agents. */
  lemma FirstUp(c: Config) returns (t: Sys, labels: seq<Label>)
    ensures Runs(c, Init, labels, t) && t.phase == Up && t.hold == Free && NoAgents(t)
  {
    var booted := BootRuns(c);
    t := LastRestoreStep(c, booted);
    labels := [Boot(NO_POLICY)] + [LoadOpen(true)] + [RestoreStep];
    RunsThen(c, Init, [Boot(NO_POLICY)] + [LoadOpen(true)], booted, [RestoreStep], t);
  }

  /** What one accepted registration leaves, if its save is given up. */
  lemma UnsavedMemory(m: Mem, record: AgentRecord)
    requires WellFormed(m) && m.agents == map[] && m.heap == []
    ensures IsOrder([record.id], Entered(m, record, "").agents.Keys)
    ensures var n := ApplyAll(m, RegisterActs(record, "", EntriesOf(Entered(m, record, ""), [record.id]), NotOpened));
      && WellFormed(n) && n.agents == map[record.id := 0] && |n.heap| == 1 && n.heap[0].state == Registered
      && n.disk == m.disk
  {
    var entries := EntriesOf(Entered(m, record, ""), [record.id]);
    var event := LifecycleEvent(AgentRegistered, record.id);
    ApplySaved(m, Insert(record.id, NewRuntime(record, "")), EngineInsert(record), entries, NotOpened, event);
    ApplySave(Entered(m, record, ""), entries, NotOpened);
  }

  lemma FirstIsAccepted(c: Config, m: Mem, id: string)
    requires ValidId(id) && m.agents == map[]
    ensures Refusal(c, m, id, true).None?
  {
    ValidateIDDecides(id);
  }

  /** From the initial state: one agent, registered and idle, and nothing on disk. */
  lemma UnsavedAgent(c: Config, id: string) returns (t: Sys, labels: seq<Label>)
    requires ValidId(id)
    ensures Runs(c, Init, labels, t) && t.phase == Up && t.hold == Free && t.calls == map[]
    ensures WellFormed(t.mem) && t.mem.agents == map[id := 0] && |t.mem.heap| == 1 && t.mem.heap[0].state == Registered
    ensures t.mem.disk == Disk(None, None)
  {
    var up;
    up, labels := FirstUp(c);
    var l := Machine.Label.Register(id, MINIMAL, "", 0, true);
    var record := NewRecord(c.root, id, MINIMAL, 0);
    FirstIsAccepted(c, up.mem, id);
    UnsavedMemory(up.mem, record);
    t := RegisterRuns(c, up, l, [id], NotOpened);
    RunsThen(c, Init, labels, up, [l] + [EngineStep] + (SaveLabels([id], NotOpened) + [LogOp]), t);
    labels := labels + ([l] + [EngineStep] + (SaveLabels([id], NotOpened) + [LogOp]));
  }
}
