/** A manager call with nothing in between is a run of the state machine: the changes of WholeCalls are its steps. */
module SequentialRuns {
  import opened Wrappers
  import opened Records
  import opened Registry
  import opened Memory
  import opened Machine
  import opened StepFrames
  import opened RunLaws
  import opened Storage
  import opened WholeCalls
  import opened Evaluations
  import E = EngineState

  /** No call or lock stands in the way of call `k`. */
  ghost predicate Idle(s: Sys, k: nat) {
    WellFormed(s.mem) && s.phase == Up && s.hold == Free && k !in s.calls
  }

  // ----- Start -----

  lemma StartBeginStep(c: Config, s: Sys, k: nat, id: string)
    requires Idle(s, k)
    ensures var l := StartBegin(k, id); var t := Next(c, s, l);
      && Enabled(c, s, l) && t.phase == Up && t.hold == Free
      && t.mem == (if Startable(s.mem, id) then Apply(s.mem, Update(s.mem.agents[id], ToStarting)) else s.mem)
      && t.calls == (if Startable(s.mem, id) then s.calls[k := InStart(s.mem.agents[id], id)] else s.calls)
  {
    MemoryOfStep(c, s, StartBegin(k, id));
  }

  lemma StartEndStep(c: Config, s: Sys, k: nat, ref: nat, id: string, ok: bool, now: Time)
    requires WellFormed(s.mem) && s.phase == Up && s.hold == Free && k in s.calls && s.calls[k] == InStart(ref, id)
    ensures var l := StartEnd(k, ok, now); var t := Next(c, s, l);
      && Enabled(c, s, l) && t.phase == Up && t.hold == Free
      && t.mem == Apply(s.mem, Update(ref, if ok then ToRunning(now) else ToFailed))
      && t.calls == if ok then s.calls[k := Announcing(LifecycleEvent(AgentStarted, id))] else s.calls - {k}
  {
    MemoryOfStep(c, s, StartEnd(k, ok, now));
  }

  lemma AnnounceStep(c: Config, s: Sys, k: nat, event: Event)
    requires WellFormed(s.mem) && s.phase == Up && s.hold == Free && k in s.calls && s.calls[k] == Announcing(event)
    ensures var l := Announce(k); var t := Next(c, s, l);
      && Enabled(c, s, l) && t.phase == Up && t.hold == Free && t.mem == Apply(s.mem, Append(event))
      && t.calls == s.calls - {k}
  {
    MemoryOfStep(c, s, Announce(k));
  }

  function StartLabels(m: Mem, k: nat, id: string, ok: bool, now: Time): seq<Label> {
    if !Startable(m, id) then [StartBegin(k, id)]
    else [StartBegin(k, id)] + ([StartEnd(k, ok, now)] + if ok then [Announce(k)] else [])
  }

  lemma StartEndRuns(c: Config, s: Sys, k: nat, ref: nat, id: string, ok: bool, now: Time) returns (t: Sys)
    requires WellFormed(s.mem) && s.phase == Up && s.hold == Free && k in s.calls && s.calls[k] == InStart(ref, id)
    requires ref < |s.mem.heap|
    ensures Runs(c, s, [StartEnd(k, ok, now)] + (if ok then [Announce(k)] else []), t)
    ensures WellFormed(t.mem) && t.phase == Up && t.hold == Free && t.calls == s.calls - {k}
    ensures var written := Apply(s.mem, Update(ref, if ok then ToRunning(now) else ToFailed));
      t.mem == if ok then Apply(written, Append(LifecycleEvent(AgentStarted, id))) else written
  {
    StartEndStep(c, s, k, ref, id, ok, now);
    t := Next(c, s, StartEnd(k, ok, now));
    RunsOne(c, s, StartEnd(k, ok, now), t);
    if ok {
      var ended := t;
      AnnounceStep(c, ended, k, LifecycleEvent(AgentStarted, id));
      t := Next(c, ended, Announce(k));
      RunsOne(c, ended, Announce(k), t);
      RunsThen(c, s, [StartEnd(k, ok, now)], ended, [Announce(k)], t);
    }
  }

  /** A whole Start. */
  lemma StartRuns(c: Config, s: Sys, k: nat, id: string, ok: bool, now: Time) returns (t: Sys)
    requires Idle(s, k)
    ensures Runs(c, s, StartLabels(s.mem, k, id, ok, now), t)
    ensures Idle(t, k) && t.calls == s.calls && t.mem == ApplyAll(s.mem, StartActs(s.mem, id, ok, now))
  {
    StartBeginStep(c, s, k, id);
    t := Next(c, s, StartBegin(k, id));
    RunsOne(c, s, StartBegin(k, id), t);
    if Startable(s.mem, id) {
      var begun := t;
      t := StartEndRuns(c, begun, k, s.mem.agents[id], id, ok, now);
      RunsThen(c, s, [StartBegin(k, id)], begun, [StartEnd(k, ok, now)] + (if ok then [Announce(k)] else []), t);
      StartInSteps(s.mem, id, ok, now);
    }
  }

  // ----- Stop -----

  lemma StopBeginStep(c: Config, s: Sys, k: nat, id: string)
    requires Idle(s, k)
    ensures var l := StopBegin(k, id); var t := Next(c, s, l);
      && Enabled(c, s, l) && t.phase == Up && t.hold == Free
      && t.mem == (if id in s.mem.agents then Apply(s.mem, Update(s.mem.agents[id], ToStopping)) else s.mem)
      && t.calls == (if id in s.mem.agents then s.calls[k := InStop(s.mem.agents[id], id)] else s.calls)
  {
    MemoryOfStep(c, s, StopBegin(k, id));
  }

  lemma StopEndStep(c: Config, s: Sys, k: nat, ref: nat, id: string, ok: bool, now: Time)
    requires WellFormed(s.mem) && s.phase == Up && s.hold == Free && k in s.calls && s.calls[k] == InStop(ref, id)
    ensures var l := StopEnd(k, ok, now); var t := Next(c, s, l);
      && Enabled(c, s, l) && t.phase == Up && t.hold == Free
      && t.mem == (if ok then Apply(s.mem, Update(ref, ToStopped(now))) else s.mem)
      && t.calls == if ok then s.calls[k := Announcing(LifecycleEvent(AgentStopped, id))] else s.calls - {k}
  {
    MemoryOfStep(c, s, StopEnd(k, ok, now));
  }

  function StopLabels(m: Mem, k: nat, id: string, ok: bool, now: Time): seq<Label> {
    if id !in m.agents then [StopBegin(k, id)]
    else [StopBegin(k, id)] + ([StopEnd(k, ok, now)] + if ok then [Announce(k)] else [])
  }

  lemma StopEndRuns(c: Config, s: Sys, k: nat, ref: nat, id: string, ok: bool, now: Time) returns (t: Sys)
    requires WellFormed(s.mem) && s.phase == Up && s.hold == Free && k in s.calls && s.calls[k] == InStop(ref, id)
    requires ref < |s.mem.heap|
    ensures Runs(c, s, [StopEnd(k, ok, now)] + (if ok then [Announce(k)] else []), t)
    ensures WellFormed(t.mem) && t.phase == Up && t.hold == Free && t.calls == s.calls - {k}
    ensures t.mem == if ok
      then Apply(Apply(s.mem, Update(ref, ToStopped(now))), Append(LifecycleEvent(AgentStopped, id))) else s.mem
  {
    StopEndStep(c, s, k, ref, id, ok, now);
    t := Next(c, s, StopEnd(k, ok, now));
    RunsOne(c, s, StopEnd(k, ok, now), t);
    if ok {
      var ended := t;
      AnnounceStep(c, ended, k, LifecycleEvent(AgentStopped, id));
      t := Next(c, ended, Announce(k));
      RunsOne(c, ended, Announce(k), t);
      RunsThen(c, s, [StopEnd(k, ok, now)], ended, [Announce(k)], t);
    }
  }

  /** A whole Stop. */
  lemma StopRuns(c: Config, s: Sys, k: nat, id: string, ok: bool, now: Time) returns (t: Sys)
    requires Idle(s, k)
    ensures Runs(c, s, StopLabels(s.mem, k, id, ok, now), t)
    ensures Idle(t, k) && t.calls == s.calls && t.mem == ApplyAll(s.mem, StopActs(s.mem, id, ok, now))
  {
    StopBeginStep(c, s, k, id);
    t := Next(c, s, StopBegin(k, id));
    RunsOne(c, s, StopBegin(k, id), t);
    if id in s.mem.agents {
      var begun := t;
      t := StopEndRuns(c, begun, k, s.mem.agents[id], id, ok, now);
      RunsThen(c, s, [StopBegin(k, id)], begun, [StopEnd(k, ok, now)] + (if ok then [Announce(k)] else []), t);
      StopInSteps(s.mem, id, ok, now);
    }
  }

  // ----- Kill -----

  lemma KillBeginStep(c: Config, s: Sys, k: nat, id: string, reason: string, ok: bool)
    requires Idle(s, k)
    ensures var l := KillBegin(k, id, reason, ok); var t := Next(c, s, l);
      && Enabled(c, s, l) && t.phase == Up && t.hold == Free && t.mem == s.mem
      && t.calls == if ok then s.calls[k := InKill(id, reason)] else s.calls
  {
    MemoryOfStep(c, s, KillBegin(k, id, reason, ok));
  }

  lemma KillEndStep(c: Config, s: Sys, k: nat, id: string, reason: string, now: Time)
    requires WellFormed(s.mem) && s.phase == Up && s.hold == Free && k in s.calls && s.calls[k] == InKill(id, reason)
    ensures var l := KillEnd(k, now); var t := Next(c, s, l);
      && Enabled(c, s, l) && t.phase == Up && t.hold == Free
      && t.mem == (if id in s.mem.agents then Apply(s.mem, Update(s.mem.agents[id], ToKilled(now, reason))) else s.mem)
      && t.calls == s.calls[k := Announcing(LifecycleEvent(AgentKilled, id))]
  {
    MemoryOfStep(c, s, KillEnd(k, now));
  }

  function KillLabels(k: nat, id: string, reason: string, ok: bool, now: Time): seq<Label> {
    if ok then [KillBegin(k, id, reason, ok)] + ([KillEnd(k, now)] + [Announce(k)]) else [KillBegin(k, id, reason, ok)]
  }

  lemma KillEndRuns(c: Config, s: Sys, k: nat, id: string, reason: string, now: Time) returns (t: Sys)
    requires WellFormed(s.mem) && s.phase == Up && s.hold == Free && k in s.calls && s.calls[k] == InKill(id, reason)
    ensures Runs(c, s, [KillEnd(k, now)] + [Announce(k)], t)
    ensures WellFormed(t.mem) && t.phase == Up && t.hold == Free && t.calls == s.calls - {k}
    ensures t.mem == ApplyAll(s.mem, KillActs(s.mem, id, reason, true, now))
  {
    var event := LifecycleEvent(AgentKilled, id);
    KillEndStep(c, s, k, id, reason, now);
    var ended := Next(c, s, KillEnd(k, now));
    RunsOne(c, s, KillEnd(k, now), ended);
    AnnounceStep(c, ended, k, event);
    t := Next(c, ended, Announce(k));
    RunsOne(c, ended, Announce(k), t);
    RunsThen(c, s, [KillEnd(k, now)], ended, [Announce(k)], t);
    if id in s.mem.agents {
      ApplyTwo(s.mem, Update(s.mem.agents[id], ToKilled(now, reason)), Append(event));
    } else {
      ApplyOne(s.mem, Append(event));
    }
  }

  /** A whole Kill. */
  lemma KillRuns(c: Config, s: Sys, k: nat, id: string, reason: string, ok: bool, now: Time) returns (t: Sys)
    requires Idle(s, k)
    ensures Runs(c, s, KillLabels(k, id, reason, ok, now), t)
    ensures Idle(t, k) && t.calls == s.calls && t.mem == ApplyAll(s.mem, KillActs(s.mem, id, reason, ok, now))
  {
    KillBeginStep(c, s, k, id, reason, ok);
    t := Next(c, s, KillBegin(k, id, reason, ok));
    RunsOne(c, s, KillBegin(k, id, reason, ok), t);
    if ok {
      var begun := t;
      t := KillEndRuns(c, begun, k, id, reason, now);
      RunsThen(c, s, [KillBegin(k, id, reason, ok)], begun, [KillEnd(k, now)] + [Announce(k)], t);
    }
  }

  // ----- Saving and logging under the lock -----

  function SaveLabels(order: seq<string>, outcome: SaveOutcome): seq<Label> {
    match outcome
    case NotOpened => [SaveOpen(order, false)]
    case NotWritten => [SaveOpen(order, true)] + [SaveFill(false)]
    case NotRenamed => [SaveOpen(order, true)] + ([SaveFill(true)] + [SaveRename(false)])
    case Saved => [SaveOpen(order, true)] + ([SaveFill(true)] + [SaveRename(true)])
  }

  lemma SaveOpenStep(c: Config, s: Sys, op: Op, order: seq<string>, ok: bool)
    requires WellFormed(s.mem) && s.hold == Saving(op) && IsOrder(order, s.mem.agents.Keys)
    ensures var l := SaveOpen(order, ok); var t := Next(c, s, l);
      && Enabled(c, s, l) && t.phase == s.phase && t.calls == s.calls
      && t.hold == (if ok then Filling(op, EntriesOf(s.mem, order)) else Logging(op))
      && t.mem == if ok then Apply(s.mem, TruncateTmp) else s.mem
  {
    MemoryOfStep(c, s, SaveOpen(order, ok));
  }

  lemma SaveFillStep(c: Config, s: Sys, op: Op, entries: seq<Entry>, ok: bool)
    requires WellFormed(s.mem) && s.hold == Filling(op, entries)
    ensures var l := SaveFill(ok); var t := Next(c, s, l);
      && Enabled(c, s, l) && t.phase == s.phase && t.calls == s.calls
      && t.hold == (if ok then Renaming(op) else Logging(op))
      && t.mem == if ok then Apply(s.mem, FillTmp(entries)) else s.mem
  {
    MemoryOfStep(c, s, SaveFill(ok));
  }

  lemma SaveRenameStep(c: Config, s: Sys, op: Op, ok: bool)
    requires WellFormed(s.mem) && s.hold == Renaming(op)
    ensures var l := SaveRename(ok); var t := Next(c, s, l);
      && Enabled(c, s, l) && t.phase == s.phase && t.calls == s.calls && t.hold == Logging(op)
      && t.mem == if ok then Apply(s.mem, RenameTmp) else s.mem
  {
    MemoryOfStep(c, s, SaveRename(ok));
  }

  lemma FillAndRenameRuns(c: Config, s: Sys, op: Op, entries: seq<Entry>, ok: bool) returns (t: Sys)
    requires WellFormed(s.mem) && s.hold == Filling(op, entries)
    ensures Runs(c, s, [SaveFill(true)] + [SaveRename(ok)], t)
    ensures t.hold == Logging(op) && t.phase == s.phase && t.calls == s.calls
    ensures var filled := Apply(s.mem, FillTmp(entries)); t.mem == if ok then Apply(filled, RenameTmp) else filled
  {
    SaveFillStep(c, s, op, entries, true);
    var filled := Next(c, s, SaveFill(true));
    RunsOne(c, s, SaveFill(true), filled);
    SaveRenameStep(c, filled, op, ok);
    t := Next(c, filled, SaveRename(ok));
    RunsOne(c, filled, SaveRename(ok), t);
    RunsThen(c, s, [SaveFill(true)], filled, [SaveRename(ok)], t);
  }

  /** A save, as far as it gets. */
  lemma SaveRuns(c: Config, s: Sys, op: Op, order: seq<string>, outcome: SaveOutcome) returns (t: Sys)
    requires WellFormed(s.mem) && s.hold == Saving(op) && IsOrder(order, s.mem.agents.Keys)
    ensures Runs(c, s, SaveLabels(order, outcome), t)
    ensures t.hold == Logging(op) && t.phase == s.phase && t.calls == s.calls
    ensures t.mem == ApplyAll(s.mem, SaveActs(EntriesOf(s.mem, order), outcome))
  {
    var entries := EntriesOf(s.mem, order);
    var first := SaveOpen(order, !outcome.NotOpened?);
    SaveOpenStep(c, s, op, order, !outcome.NotOpened?);
    var filling := Next(c, s, first);
    RunsOne(c, s, first, filling);
    t := filling;
    if outcome.NotWritten? {
      SaveFillStep(c, filling, op, entries, false);
      t := Next(c, filling, SaveFill(false));
      RunsOne(c, filling, SaveFill(false), t);
      RunsThen(c, s, [first], filling, [SaveFill(false)], t);
      ApplyOne(s.mem, TruncateTmp);
    } else if outcome.NotRenamed? {
      t := FillAndRenameRuns(c, filling, op, entries, false);
      RunsThen(c, s, [first], filling, [SaveFill(true)] + [SaveRename(false)], t);
      ApplyTwo(s.mem, TruncateTmp, FillTmp(entries));
    } else if outcome.Saved? {
      t := FillAndRenameRuns(c, filling, op, entries, true);
      RunsThen(c, s, [first], filling, [SaveFill(true)] + [SaveRename(true)], t);
      ApplyThree(s.mem, TruncateTmp, FillTmp(entries), RenameTmp);
    }
  }

  lemma LogOpStep(c: Config, s: Sys, op: Op)
    requires WellFormed(s.mem) && s.hold == Logging(op)
    ensures var t := Next(c, s, LogOp);
      && Enabled(c, s, LogOp) && t.phase == s.phase && t.calls == s.calls && t.hold == Free
      && t.mem == Apply(s.mem, Append(OpEvent(op)))
  {
    MemoryOfStep(c, s, LogOp);
  }

  /** Save, then log, then release the lock. */
  lemma SaveAndLogRuns(c: Config, s: Sys, op: Op, order: seq<string>, outcome: SaveOutcome) returns (t: Sys)
    requires WellFormed(s.mem) && s.hold == Saving(op) && IsOrder(order, s.mem.agents.Keys)
    ensures Runs(c, s, SaveLabels(order, outcome) + [LogOp], t)
    ensures t.hold == Free && t.phase == s.phase && t.calls == s.calls
    ensures t.mem == Apply(ApplyAll(s.mem, SaveActs(EntriesOf(s.mem, order), outcome)), Append(OpEvent(op)))
  {
    var saved := SaveRuns(c, s, op, order, outcome);
    ApplySave(s.mem, EntriesOf(s.mem, order), outcome);
    LogOpStep(c, saved, op);
    t := Next(c, saved, LogOp);
    RunsOne(c, saved, LogOp, t);
    RunsThen(c, s, SaveLabels(order, outcome), saved, [LogOp], t);
  }

  // ----- Register and Unregister -----

  lemma EnterRuns(c: Config, s: Sys, l: Label) returns (t: Sys)
    requires WellFormed(s.mem) && s.phase == Up && s.hold == Free && l.Register? && RegisterAccepted(c, s.mem, l)
    ensures var record := NewRecord(c.root, l.id, l.profile, l.now);
      && Runs(c, s, [l] + [EngineStep], t)
      && t.phase == Up && t.calls == s.calls && t.hold == Saving(Registering(l.id))
      && t.mem == Entered(s.mem, record, l.execPath)
  {
    RegisterStep(c, s, l);
    var inserted := Next(c, s, l);
    RunsOne(c, s, l, inserted);
    EngineHalfStep(c, inserted, EngineStep);
    t := Next(c, inserted, EngineStep);
    RunsOne(c, inserted, EngineStep, t);
    RunsThen(c, s, [l], inserted, [EngineStep], t);
  }

  /** A whole Register that is accepted. */
  lemma RegisterRuns(c: Config, s: Sys, l: Label, order: seq<string>, outcome: SaveOutcome) returns (t: Sys)
    requires WellFormed(s.mem) && s.phase == Up && s.hold == Free && l.Register?
    requires Refusal(c, s.mem, l.id, l.provisioned).None?
    requires IsOrder(order, Entered(s.mem, NewRecord(c.root, l.id, l.profile, l.now), l.execPath).agents.Keys)
    ensures Runs(c, s, [l] + [EngineStep] + (SaveLabels(order, outcome) + [LogOp]), t)
    ensures t.phase == Up && t.hold == Free && t.calls == s.calls
    ensures var record := NewRecord(c.root, l.id, l.profile, l.now);
      t.mem == ApplyAll(s.mem,
                        RegisterActs(record, l.execPath, EntriesOf(Entered(s.mem, record, l.execPath), order), outcome))
  {
    RefusalDecides(c, s.mem, l);
    var record := NewRecord(c.root, l.id, l.profile, l.now);
    var entered := EnterRuns(c, s, l);
    t := SaveAndLogRuns(c, entered, Registering(l.id), order, outcome);
    RunsThen(c, s, [l] + [EngineStep], entered, SaveLabels(order, outcome) + [LogOp], t);
    ApplySaved(s.mem, Insert(l.id, NewRuntime(record, l.execPath)), EngineInsert(record),
               EntriesOf(entered.mem, order), outcome,
               LifecycleEvent(AgentRegistered, l.id));
  }

  lemma LeaveRuns(c: Config, s: Sys, id: string) returns (t: Sys)
    requires WellFormed(s.mem) && s.phase == Up && s.hold == Free && Removable(s.mem, id)
    ensures Runs(c, s, [Machine.Label.Unregister(id)] + [EngineStep], t)
    ensures t.phase == Up && t.calls == s.calls && t.hold == Saving(Unregistering(id)) && t.mem == Left(s.mem, id)
  {
    var l := Machine.Label.Unregister(id);
    UnregisterStep(c, s, l);
    var removed := Next(c, s, l);
    RunsOne(c, s, l, removed);
    LeaveChanges(c, s, id);
    EngineHalfStep(c, removed, EngineStep);
    t := Next(c, removed, EngineStep);
    RunsOne(c, removed, EngineStep, t);
    RunsThen(c, s, [l], removed, [EngineStep], t);
  }

  lemma LeaveChanges(c: Config, s: Sys, id: string)
    requires WellFormed(s.mem) && s.phase == Up && s.hold == Free && Removable(s.mem, id)
    ensures UnregisterFrame(s, Next(c, s, Machine.Label.Unregister(id)), id)
  {
    UnregisterStep(c, s, Machine.Label.Unregister(id));
  }

  /** A whole Unregister that is accepted. */
  lemma UnregisterRuns(c: Config, s: Sys, id: string, order: seq<string>, outcome: SaveOutcome) returns (t: Sys)
    requires WellFormed(s.mem) && s.phase == Up && s.hold == Free && Removable(s.mem, id)
    requires IsOrder(order, Left(s.mem, id).agents.Keys)
    ensures Runs(c, s, [Machine.Label.Unregister(id)] + [EngineStep] + (SaveLabels(order, outcome) + [LogOp]), t)
    ensures t.phase == Up && t.hold == Free && t.calls == s.calls
    ensures t.mem == ApplyAll(s.mem, UnregisterActs(id, EntriesOf(Left(s.mem, id), order), outcome))
  {
    var left := LeaveRuns(c, s, id);
    t := SaveAndLogRuns(c, left, Unregistering(id), order, outcome);
    RunsThen(c, s, [Machine.Label.Unregister(id)] + [EngineStep], left, SaveLabels(order, outcome) + [LogOp], t);
    ApplySaved(s.mem, Delete(id), EngineDelete(id), EntriesOf(left.mem, order), outcome,
               LifecycleEvent(AgentUnregistered, id));
  }

  // ----- The load loop -----

  function RestoreLabels(ids: set<string>, entries: seq<Entry>): seq<Label>
    decreases |entries|
  {
    if entries == [] then [RestoreStep]
    else if entries[0].id in ids then [RestoreStep] + RestoreLabels(ids, entries[1..])
    else [RestoreStep] + [EngineStep] + RestoreLabels(ids + {entries[0].id}, entries[1..])
  }

  /** One round: memory and what is left to restore. */
  lemma RestoreRound(c: Config, s: Sys, entries: seq<Entry>) returns (t: Sys)
    requires WellFormed(s.mem) && s.phase == Restoring && s.hold == RestoreNext(entries) && entries != []
    ensures var e := entries[0]; var skips := e.id in s.mem.agents;
      && Runs(c, s, if skips then [RestoreStep] else [RestoreStep] + [EngineStep], t)
      && t.phase == Restoring && t.hold == RestoreNext(entries[1..]) && t.calls == s.calls && WellFormed(t.mem)
      && t.mem == if skips then s.mem
         else Apply(Apply(s.mem, Insert(e.id, Restored(e))), EngineInsert(ToAgentRecord(e)))
  {
    RestoringStep(c, s, RestoreStep);
    t := Next(c, s, RestoreStep);
    RunsOne(c, s, RestoreStep, t);
    if entries[0].id !in s.mem.agents {
      var inserted := t;
      EngineHalfStep(c, inserted, EngineStep);
      t := Next(c, inserted, EngineStep);
      RunsOne(c, inserted, EngineStep, t);
      RunsThen(c, s, [RestoreStep], inserted, [EngineStep], t);
    }
  }

  lemma RestoreEnds(c: Config, s: Sys) returns (t: Sys)
    requires WellFormed(s.mem) && s.phase == Restoring && s.hold == RestoreNext([])
    ensures Runs(c, s, [RestoreStep], t)
    ensures t.phase == Up && t.hold == Free && t.calls == s.calls && t.mem == s.mem
  {
    RestoringStep(c, s, RestoreStep);
    t := Next(c, s, RestoreStep);
    RunsOne(c, s, RestoreStep, t);
  }

  /** The whole load loop, whatever the entries. */
  lemma {:induction false} RestoreRuns(c: Config, s: Sys, entries: seq<Entry>) returns (t: Sys)
    requires WellFormed(s.mem) && s.phase == Restoring && s.hold == RestoreNext(entries)
    ensures Runs(c, s, RestoreLabels(s.mem.agents.Keys, entries), t)
    ensures t.phase == Up && t.hold == Free && t.calls == s.calls
    ensures t.mem == ApplyAll(s.mem, RestoreActs(s.mem.agents.Keys, entries))
    decreases |entries|
  {
    if entries == [] {
      t := RestoreEnds(c, s);
    } else {
      var round := if entries[0].id in s.mem.agents then [RestoreStep] else [RestoreStep] + [EngineStep];
      var next := RestoreRound(c, s, entries);
      t := RestoreRuns(c, next, entries[1..]);
      RunsThen(c, s, round, next, RestoreLabels(next.mem.agents.Keys, entries[1..]), t);
      RestoreInSteps(s.mem, entries);
      assert entries[0].id !in s.mem.agents ==> next.mem.agents.Keys == s.mem.agents.Keys + {entries[0].id};
    }
  }

  // ----- Evaluate, reload, alert -----

  /** What an evaluation appends to the log. */
  function EvaluateActs(action: AgentAction, answer: Result<PolicyDecision, E.EvalError>): seq<Act> {
    if answer.Ok? then [Append(ActionEvent(action, answer.value))] else []
  }

  lemma LookUpRuns(c: Config, s: Sys, k: nat, action: AgentAction) returns (t: Sys)
    requires Idle(s, k)
    ensures var answer := E.DecideAt(s.mem.eng.queries, E.RecordsOf(s.mem.eng), action);
      && Runs(c, s, [EvalBegin(k, action)] + (if E.LookUp(s.mem.eng, action).Ready? then [EvalEnd(k)] else []), t)
      && t.phase == Up && t.hold == Free && t.mem == s.mem && t.calls == s.calls[k := Answering(action, answer)]
  {
    var begin := EvalBegin(k, action);
    LookUpThenInterpret(s.mem.eng, action);
    MemoryOfStep(c, s, begin);
    t := Next(c, s, begin);
    RunsOne(c, s, begin, t);
    if E.LookUp(s.mem.eng, action).Ready? {
      var begun := t;
      MemoryOfStep(c, begun, EvalEnd(k));
      t := Next(c, begun, EvalEnd(k));
      RunsOne(c, begun, EvalEnd(k), t);
      RunsThen(c, s, [begin], begun, [EvalEnd(k)], t);
    }
  }

  lemma AnswerStep(c: Config, s: Sys, k: nat, action: AgentAction, answer: Result<PolicyDecision, E.EvalError>)
    requires WellFormed(s.mem) && s.phase == Up && s.hold == Free && k in s.calls
    requires s.calls[k] == Answering(action, answer)
    ensures var t := Next(c, s, EvalAnswer(k));
      && Enabled(c, s, EvalAnswer(k)) && t.phase == Up && t.hold == Free && t.calls == s.calls - {k}
      && t.mem == ApplyAll(s.mem, EvaluateActs(action, answer))
  {
    MemoryOfStep(c, s, EvalAnswer(k));
  }

  /** A whole evaluation request: the decision of now is logged. */
  lemma EvaluateRuns(c: Config, s: Sys, k: nat, action: AgentAction) returns (t: Sys)
    requires Idle(s, k)
    ensures Runs(c, s, [EvalBegin(k, action)] + (if E.LookUp(s.mem.eng, action).Ready? then [EvalEnd(k)] else [])
      + [EvalAnswer(k)], t)
    ensures t.phase == Up && t.hold == Free && t.calls == s.calls
    ensures t.mem == ApplyAll(s.mem,
                              EvaluateActs(action, E.DecideAt(s.mem.eng.queries, E.RecordsOf(s.mem.eng), action)))
  {
    var answered := LookUpRuns(c, s, k, action);
    AnswerStep(c, answered, k, action, E.DecideAt(s.mem.eng.queries, E.RecordsOf(s.mem.eng), action));
    t := Next(c, answered, EvalAnswer(k));
    RunsOne(c, answered, EvalAnswer(k), t);
    RunsThen(c, s, [EvalBegin(k, action)] + (if E.LookUp(s.mem.eng, action).Ready? then [EvalEnd(k)] else []),
             answered, [EvalAnswer(k)], t);
  }

  lemma ReloadStep(c: Config, s: Sys, k: nat, queries: map<string, E.Query>)
    requires Idle(s, k) && queries.Keys == PROFILE_SET
    ensures var l := Machine.Label.Reload(k, Some(queries)); var t := Next(c, s, l);
      && Enabled(c, s, l) && t.phase == Up && t.hold == Free && WellFormed(t.mem)
      && t.mem == Apply(s.mem, SwapQueries(queries))
      && t.calls == s.calls[k := Announcing(LifecycleEvent(PolicyReloaded, ""))]
  {
    MemoryOfStep(c, s, Machine.Label.Reload(k, Some(queries)));
  }

  function ReloadLabels(k: nat, reloaded: Option<map<string, E.Query>>): seq<Label> {
    [Machine.Label.Reload(k, reloaded)] + (if reloaded.Some? then [Announce(k)] else [])
  }

  function ReloadActs(reloaded: Option<map<string, E.Query>>): seq<Act> {
    if reloaded.Some? then [SwapQueries(reloaded.value), Append(LifecycleEvent(PolicyReloaded, ""))] else []
  }

  /** A whole reload request, whether all policies load or not. */
  lemma ReloadRuns(c: Config, s: Sys, k: nat, reloaded: Option<map<string, E.Query>>) returns (t: Sys)
    requires Idle(s, k) && (reloaded.Some? ==> reloaded.value.Keys == PROFILE_SET)
    ensures Runs(c, s, ReloadLabels(k, reloaded), t)
    ensures t.phase == Up && t.hold == Free && t.calls == s.calls && t.mem == ApplyAll(s.mem, ReloadActs(reloaded))
  {
    if reloaded.Some? {
      t := SwapRuns(c, s, k, reloaded.value);
    } else {
      var l := Machine.Label.Reload(k, None);
      MemoryOfStep(c, s, l);
      t := Next(c, s, l);
      RunsOne(c, s, l, t);
      assert ReloadLabels(k, reloaded) == [l];
    }
  }

  lemma SwapRuns(c: Config, s: Sys, k: nat, queries: map<string, E.Query>) returns (t: Sys)
    requires Idle(s, k) && queries.Keys == PROFILE_SET
    ensures Runs(c, s, ReloadLabels(k, Some(queries)), t)
    ensures t.phase == Up && t.hold == Free && t.calls == s.calls && t.mem == ApplyAll(s.mem, ReloadActs(Some(queries)))
  {
    var l, event := Machine.Label.Reload(k, Some(queries)), LifecycleEvent(PolicyReloaded, "");
    ReloadStep(c, s, k, queries);
    var swapped := Next(c, s, l);
    RunsOne(c, s, l, swapped);
    AnnounceStep(c, swapped, k, event);
    t := Next(c, swapped, Announce(k));
    RunsOne(c, swapped, Announce(k), t);
    RunsThen(c, s, [l], swapped, [Announce(k)], t);
    ApplyTwo(s.mem, SwapQueries(queries), Append(event));
  }
}
