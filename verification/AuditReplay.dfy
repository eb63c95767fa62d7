/** Replaying the audit log gives the registered agents. */
module AuditReplay {
  import opened Wrappers
  import opened Records
  import opened Memory
  import opened Machine
  import opened StepFrames
  import opened MachineInvariants
  import opened Lifetimes

  /** What one audit event says about who is registered. */
  function ReplayOne(ids: set<string>, event: Event): set<string> {
    match event.kind
    case AgentRegistered => ids + {event.agentId}
    case AgentUnregistered => ids - {event.agentId}
    case _ => ids
  }

  function Replay(ids: set<string>, events: seq<Event>): set<string>
    decreases |events|
  {
    if events == [] then ids else ReplayOne(Replay(ids, events[..|events| - 1]), events[|events| - 1])
  }

  lemma ReplayAppend(ids: set<string>, log: seq<Event>, from: nat, event: Event)
    requires from <= |log|
    ensures Replay(ids, (log + [event])[from..]) == ReplayOne(Replay(ids, log[from..]), event)
  {
    var longer := (log + [event])[from..];
    assert longer[..|longer| - 1] == log[from..];
  }

  function OpOf(hold: Hold): Option<Op> {
    match hold
    case RegisterEngine(record) => Some(Registering(record.id))
    case UnregisterEngine(id) => Some(Unregistering(id))
    case Saving(op) => Some(op)
    case Filling(op, _) => Some(op)
    case Renaming(op) => Some(op)
    case Logging(op) => Some(op)
    case _ => None
  }

  /** The events of this daemon lifetime. */
  function Since(s: Sys): seq<Event> {
    if s.hist.logBase <= |s.mem.log| then s.mem.log[s.hist.logBase..] else []
  }

  ghost predicate AnnouncementsOk(s: Sys) {
    forall k :: k in s.calls && s.calls[k].Announcing? ==> !AboutRegistration(s.calls[k].event)
  }

  /** The log tells who is registered, up to the operation that has not logged yet. */
  ghost predicate LogOk(s: Sys) {
    && s.hist.logBase <= |s.mem.log|
    && (s.phase != Up ==> |s.mem.log| == s.hist.logBase)
    && var ids := Replay(s.hist.base, Since(s));
       match OpOf(s.hold)
       case None => ids == s.mem.agents.Keys
       case Some(Registering(id)) => id in s.mem.agents && ids == s.mem.agents.Keys - {id}
       case Some(Unregistering(id)) => id !in s.mem.agents && ids == s.mem.agents.Keys + {id}
  }

  ghost predicate AuditOk(s: Sys) {
    AnnouncementsOk(s) && LogOk(s)
  }

  predicate AboutRegistration(event: Event) {
    event.kind == AgentRegistered || event.kind == AgentUnregistered
  }

  lemma AnnouncementsKept(c: Config, s: Sys, l: Label)
    requires WellFormed(s.mem) && AnnouncementsOk(s) && Enabled(c, s, l)
    ensures AnnouncementsOk(Next(c, s, l))
  {
  }

  lemma LogAcrossQuiet(s: Sys, t: Sys, l: Label, event: Option<Event>)
    requires LogOk(s) && QuietFrame(s, t, l, event) && (s.phase != Up ==> event == None)
    requires if l.LogOp? then s.hold.Logging? && event == Some(OpEvent(s.hold.op))
             else event.Some? ==> !AboutRegistration(event.value)
    ensures LogOk(t)
  {
    match event
    case None => assert Since(t) == Since(s);
    case Some(e) => ReplayAppend(s.hist.base, s.mem.log, s.hist.logBase, e);
  }

  lemma EventsOfQuiet(c: Config, s: Sys, l: Label)
    requires Shape(c, s) && AnnouncementsOk(s) && Enabled(c, s, l) && Quiet(l)
    ensures var event := Appended(c, s, l);
      && (s.phase != Up ==> event == None)
      && if l.LogOp? then s.hold.Logging? && event == Some(OpEvent(s.hold.op))
         else event.Some? ==> !AboutRegistration(event.value)
  {
  }

  /** The log is left alone, and so is its meaning: who is registered changes only when an operation begins. */
  ghost predicate LogUntouched(s: Sys, t: Sys) {
    && t.mem.log == s.mem.log && t.hist.base == s.hist.base && t.hist.logBase == s.hist.logBase && t.phase == s.phase
    && match OpOf(s.hold)
       case Some(op) => OpOf(t.hold) == Some(op) && t.mem.agents.Keys == s.mem.agents.Keys
       case None =>
         match OpOf(t.hold)
         case None => t.mem.agents.Keys == s.mem.agents.Keys
         case Some(Registering(id)) => id !in s.mem.agents && t.mem.agents.Keys == s.mem.agents.Keys + {id}
         case Some(Unregistering(id)) => id in s.mem.agents && t.mem.agents.Keys == s.mem.agents.Keys - {id}
  }

  lemma LogAcrossOthers(s: Sys, t: Sys)
    requires LogOk(s) && LogUntouched(s, t)
    ensures LogOk(t)
  {
    assert Since(t) == Since(s);
  }

  const NO_RECORD := NewRecord("", "", "", 0)

  lemma LogAcrossFrames(s: Sys, t: Sys, write: Option<(nat, Change)>, record: AgentRecord, execPath: string, id: string)
    requires LogOk(s)
    requires || WriteFrame(s, t, write) || EngineFrame(s, t)
             || RegisterFrame(s, t, record, execPath) || UnregisterFrame(s, t, id)
    ensures LogOk(t)
  {
    assert LogUntouched(s, t);
    LogAcrossOthers(s, t);
  }

  lemma LogAcrossSave(s: Sys, t: Sys, l: Label)
    requires LogOk(s) && SaveFrame(s, t, l)
    ensures LogOk(t)
  {
    assert LogUntouched(s, t);
    LogAcrossOthers(s, t);
  }

  lemma LogAcrossRestore(s: Sys, t: Sys)
    requires WellFormed(s.mem) && DiskOk(s) && LogOk(s) && RestoreFrame(s, t)
    ensures LogOk(t)
  {
    assert Since(s) == [] && Since(t) == [];
    if s.hold.rest != [] {
      NothingIsSkipped(s, s.hold.rest);
    }
  }

  lemma LogAcrossLifetime(c: Config, s: Sys, t: Sys, readable: bool)
    requires Shape(c, s) && LogOk(s) && (BootFrame(s, t) || OpenFrame(s, t, readable) || CrashFrame(s, t))
    ensures LogOk(t)
  {
    assert t.mem.agents.Keys == {};
    assert !CrashFrame(s, t) ==> Since(t) == Since(s);
  }

  lemma LogKept(c: Config, s: Sys, l: Label)
    requires Core(c, s) && AuditOk(s) && Enabled(c, s, l)
    ensures LogOk(Next(c, s, l))
  {
    var t := Next(c, s, l);
    if Quiet(l) {
      QuietStep(c, s, l);
      EventsOfQuiet(c, s, l);
      LogAcrossQuiet(s, t, l, Appended(c, s, l));
    } else if l.RestoreStep? {
      RestoringStep(c, s, l);
      LogAcrossRestore(s, t);
    } else if l.Boot? || l.LoadOpen? || l.Crash? {
      LifetimeStep(c, s, l);
      LogAcrossLifetime(c, s, t, ReadableOf(l));
    } else if Writes(l) {
      WriteStep(c, s, l);
      LogAcrossFrames(s, t, WriteOf(s, l), NO_RECORD, "", "");
    } else if Saves(l) {
      SaveStep(c, s, l);
      LogAcrossSave(s, t, l);
    } else if l.Register? {
      RegisterStep(c, s, l);
      if t != s {
        LogAcrossFrames(s, t, None, NewRecord(c.root, l.id, l.profile, l.now), l.execPath, "");
      }
    } else if l.Unregister? {
      UnregisterStep(c, s, l);
      if t != s {
        LogAcrossFrames(s, t, None, NO_RECORD, "", l.id);
      }
    } else {
      EngineHalfStep(c, s, l);
      LogAcrossFrames(s, t, None, NO_RECORD, "", "");
    }
  }

  lemma {:induction false} AuditAlways(c: Config, states: seq<Sys>, labels: seq<Label>, i: nat)
    requires Behavior(c, states, labels) && i < |states|
    ensures AuditOk(states[i])
    decreases i
  {
    if i > 0 {
      AuditAlways(c, states, labels, i - 1);
      CoreAlways(c, states, labels, i - 1);
      assert StepAt(c, states, labels, i - 1);
      AnnouncementsKept(c, states[i - 1], labels[i - 1]);
      LogKept(c, states[i - 1], labels[i - 1]);
    }
  }

  /**
   * Within a lifetime, whenever the manager lock is free, folding the registration events of the log over the ids
   * restored at start-up gives exactly the registered ids, whatever else ran in between.
   */
  lemma AuditReplayGivesTheAgents(c: Config, states: seq<Sys>, labels: seq<Label>, i: nat)
    requires Behavior(c, states, labels) && i < |states| && states[i].hold == Free
    ensures Replay(states[i].hist.base, Since(states[i])) == states[i].mem.agents.Keys
  {
    AuditAlways(c, states, labels, i);
  }
}
