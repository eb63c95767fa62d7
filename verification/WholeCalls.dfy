/** What each manager call does to memory when nothing runs in between, as a list of changes. */
module WholeCalls {
  import opened Wrappers
  import opened Identity
  import opened Records
  import opened Registry
  import opened Memory
  import opened Machine
  import opened Storage

  predicate Startable(m: Mem, id: string) {
    id in m.agents && m.agents[id] < |m.heap| && CanStart(m.heap[m.agents[id]].state)
  }

  function StartActs(m: Mem, id: string, ok: bool, now: Time): seq<Act> {
    if !Startable(m, id) then []
    else if ok then
      [Update(m.agents[id], ToStarting), Update(m.agents[id], ToRunning(now)), Append(LifecycleEvent(AgentStarted, id))]
    else [Update(m.agents[id], ToStarting), Update(m.agents[id], ToFailed)]
  }

  predicate Known(m: Mem, id: string) {
    id in m.agents && m.agents[id] < |m.heap|
  }

  function StopActs(m: Mem, id: string, ok: bool, now: Time): seq<Act> {
    if !Known(m, id) then []
    else if ok then
      [Update(m.agents[id], ToStopping), Update(m.agents[id], ToStopped(now)), Append(LifecycleEvent(AgentStopped, id))]
    else [Update(m.agents[id], ToStopping)]
  }

  function KillActs(m: Mem, id: string, reason: string, ok: bool, now: Time): seq<Act> {
    if !ok then []
    else if id !in m.agents then [Append(LifecycleEvent(AgentKilled, id))]
    else [Update(m.agents[id], ToKilled(now, reason)), Append(LifecycleEvent(AgentKilled, id))]
  }

  datatype RegisterError = InvalidId(why: IdError) | AlreadyRegistered | TooMany | NotProvisioned

  /** Why a registration is refused, in the order in which it is checked. */
  function Refusal(c: Config, m: Mem, id: string, provisioned: bool): Option<RegisterError> {
    var check := ValidateID(id);
    if check.Err? then Some(InvalidId(check.error))
    else if id in m.agents then Some(AlreadyRegistered)
    else if c.maxAgents > 0 && |m.agents| >= c.maxAgents then Some(TooMany)
    else if !provisioned then Some(NotProvisioned)
    else None
  }

  /** Provisioning is tried only when nothing else is wrong. */
  function Provisions(c: Config, m: Mem, id: string): bool {
    Refusal(c, m, id, true).None?
  }

  /** A failed provisioning is the last thing that can refuse. */
  lemma RefusalInOrder(c: Config, m: Mem, id: string, provisioned: bool)
    ensures Refusal(c, m, id, provisioned) ==
      if !Provisions(c, m, id) then Refusal(c, m, id, true) else if provisioned then None else Some(NotProvisioned)
  {
  }

  /** Each reason, by what is wrong. */
  lemma RefusalReasons(c: Config, m: Mem, id: string, provisioned: bool)
    ensures var why, full := Refusal(c, m, id, provisioned), 0 < c.maxAgents <= |m.agents|;
      && ((why.Some? && why.value.InvalidId?) <==> !ValidId(id))
      && (why == Some(AlreadyRegistered) <==> ValidId(id) && id in m.agents)
      && (why == Some(TooMany) <==> ValidId(id) && id !in m.agents && full)
      && (why == Some(NotProvisioned) <==> ValidId(id) && id !in m.agents && !full && !provisioned)
      && (why == None <==> ValidId(id) && id !in m.agents && !full && provisioned)
  {
    ValidateIDDecides(id);
  }

  lemma RefusalDecides(c: Config, m: Mem, l: Label)
    requires l.Register?
    ensures Refusal(c, m, l.id, l.provisioned).None? <==> RegisterAccepted(c, m, l)
  {
    ValidateIDDecides(l.id);
  }

  /** A registration that was accepted; `entries` is what saving collected. */
  function RegisterActs(record: AgentRecord, execPath: string, entries: seq<Entry>, outcome: SaveOutcome): seq<Act> {
    [Insert(record.id, NewRuntime(record, execPath)), EngineInsert(record)]
    + SaveActs(entries, outcome) + [Append(LifecycleEvent(AgentRegistered, record.id))]
  }

  predicate Removable(m: Mem, id: string) {
    id in m.agents && m.agents[id] < |m.heap| && CanUnregister(m.heap[m.agents[id]].state)
  }

  /** Unregister up to its save, and all of it. */
  function LeaveActs(id: string, entries: seq<Entry>, outcome: SaveOutcome): seq<Act> {
    [Delete(id), EngineDelete(id)] + SaveActs(entries, outcome)
  }

  function UnregisterActs(id: string, entries: seq<Entry>, outcome: SaveOutcome): seq<Act> {
    LeaveActs(id, entries, outcome) + [Append(LifecycleEvent(AgentUnregistered, id))]
  }

  /** Memory when a registration, or a removal, comes to saving. */
  ghost function Entered(m: Mem, record: AgentRecord, execPath: string): (n: Mem)
    requires WellFormed(m)
    ensures WellFormed(n)
  {
    Apply(Apply(m, Insert(record.id, NewRuntime(record, execPath))), EngineInsert(record))
  }

  ghost function Left(m: Mem, id: string): (n: Mem)
    requires WellFormed(m)
    ensures WellFormed(n)
  {
    Apply(Apply(m, Delete(id)), EngineDelete(id))
  }

  /** The load loop: ids already present are skipped. */
  function RestoreActs(ids: set<string>, entries: seq<Entry>): seq<Act>
    decreases |entries|
  {
    if entries == [] then []
    else if entries[0].id in ids then RestoreActs(ids, entries[1..])
    else [Insert(entries[0].id, Restored(entries[0])), EngineInsert(ToAgentRecord(entries[0]))]
         + RestoreActs(ids + {entries[0].id}, entries[1..])
  }

  lemma ApplyAllOneMore(m: Mem, acts: seq<Act>, act: Act)
    ensures ApplyAll(m, acts + [act]) == Apply(ApplyAll(m, acts), act)
  {
    ApplyAllOfConcat(m, acts, [act]);
    ApplyOne(ApplyAll(m, acts), act);
  }

  lemma ApplyTwo(m: Mem, a: Act, b: Act)
    ensures ApplyAll(m, [a, b]) == Apply(Apply(m, a), b)
  {
    assert [a, b][1..] == [b];
    ApplyOne(Apply(m, a), b);
  }

  lemma ApplyThree(m: Mem, a: Act, b: Act, c: Act)
    ensures ApplyAll(m, [a, b, c]) == Apply(Apply(Apply(m, a), b), c)
  {
    assert [a, b, c][1..] == [b, c];
    ApplyTwo(Apply(m, a), b, c);
  }

  lemma StartInSteps(m: Mem, id: string, ok: bool, now: Time)
    requires Startable(m, id)
    ensures var begun := Apply(m, Update(m.agents[id], ToStarting));
      ApplyAll(m, StartActs(m, id, ok, now)) ==
        if ok then Apply(Apply(begun, Update(m.agents[id], ToRunning(now))), Append(LifecycleEvent(AgentStarted, id)))
        else Apply(begun, Update(m.agents[id], ToFailed))
  {
    ApplyTwo(m, Update(m.agents[id], ToStarting), Update(m.agents[id], ToFailed));
    ApplyThree(m, Update(m.agents[id], ToStarting), Update(m.agents[id], ToRunning(now)),
               Append(LifecycleEvent(AgentStarted, id)));
  }

  /** What a write leaves in the fields of the agent it reaches. */
  lemma UpdateShows(m: Mem, ref: nat, change: Change)
    requires WellFormed(m) && ref < |m.heap|
    ensures var n, before := Apply(m, Update(ref, change)), At(m, ref);
      && WellFormed(n) && n.agents == m.agents && n.log == m.log && |n.heap| == |m.heap|
      && At(n, ref) == match change
         case ToStarting => before.(state := Starting)
         case ToRunning(now) =>
           before.(state := Running, startedAt := Some(now), record := before.record.(lastStartedAt := Some(now)))
         case ToFailed => before.(state := Failed)
         case ToStopping => before.(state := Stopping)
         case ToStopped(now) => before.(state := Stopped, stoppedAt := Some(now))
         case ToKilled(now, reason) => before.(state := Killed, stoppedAt := Some(now), killReason := reason)
  {
  }

  lemma AppendShows(m: Mem, event: Event)
    requires WellFormed(m)
    ensures var n := Apply(m, Append(event)); WellFormed(n) && n == m.(log := m.log + [event])
  {
  }

  /** What a Start leaves in the agent's fields and in the log. */
  lemma StartShows(m: Mem, id: string, ok: bool, now: Time)
    requires WellFormed(m) && Startable(m, id)
    ensures var n, before := ApplyAll(m, StartActs(m, id, ok, now)), At(m, m.agents[id]);
      && n.log == (if ok then m.log + [Event(AgentStarted, id, "", "", "", [], "", "")] else m.log)
      && WellFormed(n) && n.agents == m.agents
      && At(n, m.agents[id]) == if ok
         then before.(state := Running, startedAt := Some(now), record := before.record.(lastStartedAt := Some(now)))
         else before.(state := Failed)
  {
    StartInSteps(m, id, ok, now);
    var ref := m.agents[id];
    UpdateShows(m, ref, ToStarting);
    var begun := Apply(m, Update(ref, ToStarting));
    var ended := Apply(begun, Update(ref, if ok then ToRunning(now) else ToFailed));
    UpdateShows(begun, ref, if ok then ToRunning(now) else ToFailed);
    AppendShows(ended, LifecycleEvent(AgentStarted, id));
  }

  function StopResult(m: Mem, id: string, ok: bool, now: Time): Mem
    requires Known(m, id)
  {
    var begun := Apply(m, Update(m.agents[id], ToStopping));
    if ok then Apply(Apply(begun, Update(m.agents[id], ToStopped(now))), Append(LifecycleEvent(AgentStopped, id)))
      else begun
  }

  lemma StopInSteps(m: Mem, id: string, ok: bool, now: Time)
    requires Known(m, id)
    ensures ApplyAll(m, StopActs(m, id, ok, now)) == StopResult(m, id, ok, now)
  {
    ApplyOne(m, Update(m.agents[id], ToStopping));
    ApplyThree(m, Update(m.agents[id], ToStopping), Update(m.agents[id], ToStopped(now)),
               Append(LifecycleEvent(AgentStopped, id)));
  }

  /** What a Stop leaves. */
  lemma StopShows(m: Mem, id: string, ok: bool, now: Time)
    requires WellFormed(m) && Known(m, id)
    ensures var n, before := ApplyAll(m, StopActs(m, id, ok, now)), At(m, m.agents[id]);
      && n.log == (if ok then m.log + [Event(AgentStopped, id, "", "", "", [], "", "")] else m.log)
      && WellFormed(n) && n.agents == m.agents
      && At(n, m.agents[id]) == if ok then before.(state := Stopped, stoppedAt := Some(now))
                                else before.(state := Stopping)
  {
    StopInSteps(m, id, ok, now);
    var ref := m.agents[id];
    UpdateShows(m, ref, ToStopping);
    var begun := Apply(m, Update(ref, ToStopping));
    UpdateShows(begun, ref, ToStopped(now));
    AppendShows(Apply(begun, Update(ref, ToStopped(now))), LifecycleEvent(AgentStopped, id));
  }

  /** What a Kill leaves; an agent that is not there is still logged as killed. */
  lemma KillShows(m: Mem, id: string, reason: string, ok: bool, now: Time)
    requires WellFormed(m)
    ensures var n := ApplyAll(m, KillActs(m, id, reason, ok, now));
      && n.log == (if ok then m.log + [Event(AgentKilled, id, "", "", "", [], "", "")] else m.log)
      && WellFormed(n) && n.agents == m.agents
      && (id in m.agents ==>
            var before := At(m, m.agents[id]);
            At(n, m.agents[id]) == if ok then before.(state := Killed, stoppedAt := Some(now), killReason := reason)
                                   else before)
  {
    var killed := LifecycleEvent(AgentKilled, id);
    if id in m.agents {
      var change := ToKilled(now, reason);
      ApplyTwo(m, Update(m.agents[id], change), Append(killed));
      UpdateShows(m, m.agents[id], change);
      AppendShows(Apply(m, Update(m.agents[id], change)), killed);
    } else {
      ApplyOne(m, Append(killed));
      AppendShows(m, killed);
    }
  }

  /** And it leaves the other agents as they are. */
  lemma KillChangesOne(m: Mem, id: string, reason: string, ok: bool, now: Time)
    requires WellFormed(m) && forall a, b :: a in m.agents && b in m.agents && a != b ==> m.agents[a] != m.agents[b]
    ensures var n := ApplyAll(m, KillActs(m, id, reason, ok, now));
      && WellFormed(n) && n.log == (if ok then m.log + [Event(AgentKilled, id, "", "", "", [], "", "")] else m.log)
      && Agents(n) == if ok && id in m.agents
         then Agents(m)[id := Agents(m)[id].(state := Killed, stoppedAt := Some(now), killReason := reason)]
         else Agents(m)
  {
    KillShows(m, id, reason, ok, now);
    var n := ApplyAll(m, KillActs(m, id, reason, ok, now));
    forall other | other in m.agents && other != id
      ensures At(n, n.agents[other]) == At(m, m.agents[other])
    {
      KillLeaves(m, id, reason, ok, now, other);
    }
    if id in m.agents {
      OneAgentPut(m, n, id, At(n, n.agents[id]));
    }
  }

  lemma OneAgentPut(m: Mem, n: Mem, id: string, ra: Runtime)
    requires WellFormed(m) && WellFormed(n) && n.agents == m.agents && id in m.agents && At(n, n.agents[id]) == ra
    requires forall other :: other in m.agents && other != id ==> At(n, n.agents[other]) == At(m, m.agents[other])
    ensures Agents(n) == Agents(m)[id := ra]
  {
  }

  lemma KillLeaves(m: Mem, id: string, reason: string, ok: bool, now: Time, other: string)
    requires WellFormed(m) && other in m.agents && (id in m.agents ==> m.agents[id] != m.agents[other])
    ensures var n := ApplyAll(m, KillActs(m, id, reason, ok, now));
      WellFormed(n) && n.agents == m.agents && At(n, n.agents[other]) == At(m, m.agents[other])
  {
    KillShows(m, id, reason, ok, now);
    ApplyOne(m, Append(LifecycleEvent(AgentKilled, id)));
    if id in m.agents {
      ApplyTwo(m, Update(m.agents[id], ToKilled(now, reason)), Append(LifecycleEvent(AgentKilled, id)));
    }
  }

  /** One round of the load loop. */
  lemma RestoreInSteps(m: Mem, entries: seq<Entry>)
    requires entries != []
    ensures var e := entries[0];
      var next := if e.id in m.agents then m
        else Apply(Apply(m, Insert(e.id, Restored(e))), EngineInsert(ToAgentRecord(e)));
      ApplyAll(m, RestoreActs(m.agents.Keys, entries)) == ApplyAll(next, RestoreActs(next.agents.Keys, entries[1..]))
  {
    var e := entries[0];
    if e.id !in m.agents {
      var two := [Insert(e.id, Restored(e)), EngineInsert(ToAgentRecord(e))];
      ApplyAllOfConcat(m, two, RestoreActs(m.agents.Keys + {e.id}, entries[1..]));
      ApplyTwo(m, two[0], two[1]);
      assert ApplyAll(m, two).agents.Keys == m.agents.Keys + {e.id};
    }
  }

  /** The saving part touches only the files. */
  lemma ApplySave(m: Mem, entries: seq<Entry>, outcome: SaveOutcome)
    ensures ApplyAll(m, SaveActs(entries, outcome)) == m.(disk := match outcome
      case NotOpened => m.disk
      case NotWritten => m.disk.(tmp := Some(Partial))
      case NotRenamed => m.disk.(tmp := Some(Complete(entries)))
      case Saved => Disk(Some(Complete(entries)), None))
  {
    match outcome
    case NotOpened =>
    case NotWritten => ApplyOne(m, TruncateTmp);
    case NotRenamed => ApplyTwo(m, TruncateTmp, FillTmp(entries));
    case Saved => ApplyThree(m, TruncateTmp, FillTmp(entries), RenameTmp);
  }

  /** Two changes, a save and a log entry, one after the other. */
  lemma ApplySaved(m: Mem, a: Act, b: Act, entries: seq<Entry>, outcome: SaveOutcome, event: Event)
    ensures ApplyAll(m, [a, b] + SaveActs(entries, outcome) + [Append(event)])
         == Apply(ApplyAll(Apply(Apply(m, a), b), SaveActs(entries, outcome)), Append(event))
  {
    ApplyAllOneMore(m, [a, b] + SaveActs(entries, outcome), Append(event));
    ApplyAllOfConcat(m, [a, b], SaveActs(entries, outcome));
    ApplyTwo(m, a, b);
  }

  lemma EntriesHave(m: Mem, order: seq<string>, id: string)
    requires WellFormed(m) && IsOrder(order, m.agents.Keys) && id in m.agents
    ensures ToEntry(At(m, m.agents[id])) in EntriesOf(m, order)
  {
    var i :| 0 <= i < |order| && order[i] == id;
    assert EntriesOf(m, order)[i] == ToEntry(At(m, m.agents[id]));
  }

  lemma EnteredShows(m: Mem, record: AgentRecord, execPath: string)
    requires WellFormed(m)
    ensures var n := Entered(m, record, execPath);
      && n.log == m.log && n.agents == m.agents[record.id := |m.heap|] && |m.heap| < |n.heap|
      && At(n, |m.heap|) == Runtime(record, execPath, Registered, None, None, None, "")
      && record.id in n.eng.agents && n.eng.cells[n.eng.agents[record.id]] == record
  {
  }

  /** The end of a Register or Unregister: the file, if the save succeeds, and the log. */
  lemma SavedAndLogged(m: Mem, entries: seq<Entry>, outcome: SaveOutcome, event: Event)
    ensures var n := Apply(ApplyAll(m, SaveActs(entries, outcome)), Append(event));
      && n == m.(disk := n.disk, log := m.log + [event])
      && (outcome.Saved? ==> n.disk == Disk(Some(Complete(entries)), None))
  {
    ApplySave(m, entries, outcome);
  }

  /** What a Register leaves: in the manager, in the engine, in the log and, if the save succeeds, in the file. */
  lemma RegisterShows(m: Mem, record: AgentRecord, execPath: string, order: seq<string>, outcome: SaveOutcome)
    requires WellFormed(m) && IsOrder(order, Entered(m, record, execPath).agents.Keys)
    ensures var entries := EntriesOf(Entered(m, record, execPath), order);
      var n := ApplyAll(m, RegisterActs(record, execPath, entries, outcome));
      && n.log == m.log + [Event(AgentRegistered, record.id, "", "", "", [], "", "")]
      && WellFormed(n) && n.agents == m.agents[record.id := |m.heap|] && |m.heap| < |n.heap|
      && At(n, |m.heap|) == Runtime(record, execPath, Registered, None, None, None, "")
      && record.id in n.eng.agents && n.eng.cells[n.eng.agents[record.id]] == record
      && (outcome.Saved? ==> EntryIn(Entry(record.id, record.profile, record.workspacePath, execPath,
            record.allowedBinaries, record.allowedNetworks, record.registeredAt), n.disk))
  {
    var entered := Entered(m, record, execPath);
    var entries, event := EntriesOf(entered, order), LifecycleEvent(AgentRegistered, record.id);
    ApplySaved(m, Insert(record.id, NewRuntime(record, execPath)), EngineInsert(record), entries, outcome, event);
    SavedAndLogged(entered, entries, outcome, event);
    EnteredShows(m, record, execPath);
    EntriesHave(entered, order, record.id);
  }

  /** The registry file is complete and has the entry. */
  predicate EntryIn(entry: Entry, disk: Disk) {
    disk.file.Some? && disk.file.value.Complete? && entry in disk.file.value.entries
  }

  /** What an Unregister leaves. */
  lemma UnregisterShows(m: Mem, id: string, entries: seq<Entry>, outcome: SaveOutcome)
    requires WellFormed(m)
    ensures var n := ApplyAll(m, UnregisterActs(id, entries, outcome));
      && n.log == m.log + [Event(AgentUnregistered, id, "", "", "", [], "", "")]
      && WellFormed(n) && n.agents == m.agents - {id}
  {
    var event := LifecycleEvent(AgentUnregistered, id);
    ApplySaved(m, Delete(id), EngineDelete(id), entries, outcome, event);
    SavedAndLogged(Left(m, id), entries, outcome, event);
  }

  lemma OneRestored(m: Mem, e: Entry)
    requires WellFormed(m)
    ensures var n := Apply(Apply(m, Insert(e.id, Restored(e))), EngineInsert(ToAgentRecord(e)));
      && WellFormed(n) && n.log == m.log && n.agents.Keys == m.agents.Keys + {e.id}
      && At(n, n.agents[e.id]) == Restored(e)
      && (forall id :: id in m.agents && id != e.id ==> At(n, n.agents[id]) == At(m, m.agents[id]))
  {
  }

  lemma AgentsAfterOne(m: Mem, e: Entry)
    requires WellFormed(m)
    ensures var n := Apply(Apply(m, Insert(e.id, Restored(e))), EngineInsert(ToAgentRecord(e)));
      WellFormed(n) && Agents(n) == Agents(m)[e.id := Restored(e)] && n.log == m.log
  {
    OneRestored(m, e);
  }

  /** What loading leaves in the manager. */
  lemma {:induction false} RestoreShows(m: Mem, entries: seq<Entry>)
    requires WellFormed(m)
    ensures var n := ApplyAll(m, RestoreActs(m.agents.Keys, entries));
      WellFormed(n) && Agents(n) == LoadAll(Agents(m), entries) && n.log == m.log
    decreases |entries|
  {
    if entries != [] {
      var e := entries[0];
      RestoreInSteps(m, entries);
      if e.id in m.agents {
        RestoreShows(m, entries[1..]);
      } else {
        AgentsAfterOne(m, e);
        RestoreShows(Apply(Apply(m, Insert(e.id, Restored(e))), EngineInsert(ToAgentRecord(e))), entries[1..]);
      }
    }
  }

  /** The engine's record of `id` is the manager's. */
  ghost predicate EngineAgrees(m: Mem, id: string)
    requires WellFormed(m)
  {
    id in m.agents && id in m.eng.agents && m.eng.cells[m.eng.agents[id]] == At(m, m.agents[id]).record
  }

  lemma EngineAfterOne(m: Mem, e: Entry)
    requires WellFormed(m)
    ensures var n := Apply(Apply(m, Insert(e.id, Restored(e))), EngineInsert(ToAgentRecord(e)));
      && WellFormed(n) && EngineAgrees(n, e.id)
      && (forall id :: id != e.id && EngineAgrees(m, id) ==> EngineAgrees(n, id))
  {
  }

  /** And each agent it adds is known to the engine by the record the manager has of it. */
  lemma {:induction false} RestoreTellsEngine(m: Mem, entries: seq<Entry>)
    requires WellFormed(m)
    ensures var n := ApplyAll(m, RestoreActs(m.agents.Keys, entries));
      && WellFormed(n)
      && (forall id :: EngineAgrees(m, id) ==> EngineAgrees(n, id))
      && (forall id :: id in n.agents ==> id in m.agents || EngineAgrees(n, id))
    decreases |entries|
  {
    if entries != [] {
      var e := entries[0];
      RestoreInSteps(m, entries);
      if e.id in m.agents {
        RestoreTellsEngine(m, entries[1..]);
      } else {
        EngineAfterOne(m, e);
        RestoreTellsEngine(Apply(Apply(m, Insert(e.id, Restored(e))), EngineInsert(ToAgentRecord(e))), entries[1..]);
      }
    }
  }
}
